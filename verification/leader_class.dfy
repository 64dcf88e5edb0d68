/** The leader as the object whose handlers update its boards and the shared context in place. */
module Leaders {
  import opened Types
  import opened TrueTime
  import opened Wal
  import opened Quorums
  import opened Views
  import LeaderRole
  import opened SharedContexts

  const DEFAULT_WRITE_BATCH_SIZE := 1000

  /** What the leader tracks of one follower. */
  class FollowerState {
    var logPosition: LogPosition
    var inFlightBatches: seq<InFlightBatch>

    ghost function View(): Progress
      reads this
    {
      Progress(logPosition, inFlightBatches)
    }

    constructor (position: LogPosition)
      ensures View() == Progress(position, [])
    {
      logPosition, inFlightBatches := position, [];
    }

    method PushBatch(highestSlot: nat, sentAt: Time)
      modifies this
      ensures View() == LeaderRole.PushBatch(old(View()), highestSlot, sentAt)
    {
      inFlightBatches := inFlightBatches + [InFlightBatch(sentAt, highestSlot)];
    }

    // Drops the batches at or below `ackedSlot` from the front of the queue.
    method AckBatchesUpTo(ackedSlot: nat)
      modifies this
      ensures View() == old(View()).(batches := LeaderRole.AckBatches(old(inFlightBatches), ackedSlot))
    {
      while inFlightBatches != [] && inFlightBatches[0].highestSlot <= ackedSlot
        invariant logPosition == old(logPosition)
        invariant LeaderRole.AckBatches(inFlightBatches, ackedSlot)
          == LeaderRole.AckBatches(old(inFlightBatches), ackedSlot)
        decreases |inFlightBatches|
      {
        inFlightBatches := inFlightBatches[1..];
      }
    }

    method ClearInFlightBatches()
      modifies this
      ensures View() == LeaderRole.ClearBatches(old(View()))
    {
      inFlightBatches := [];
      logPosition := logPosition.(sentSlot := SaturatingPred(logPosition.nextSlot));
    }
  }

  class Leader {
    const scoreBoard: map<Id, FollowerState>
    var lastContact: map<Id, Time>
    var inFlightWrites: map<nat, PendingWrite>
    var pendingWriteCount: nat

    // No two followers share their state.
    ghost predicate Valid() {
      forall j, k :: j in scoreBoard && k in scoreBoard && j != k ==> scoreBoard[j] != scoreBoard[k]
    }

    ghost function Board(): map<Id, Progress>
      reads scoreBoard.Values
    {
      map j | j in scoreBoard :: scoreBoard[j].View()
    }

    ghost function View(): LeaderView
      reads this, scoreBoard.Values
    {
      LeaderView(Board(), lastContact, inFlightWrites, pendingWriteCount)
    }

    constructor (score: map<Id, LogPosition>)
      ensures Valid() && fresh(scoreBoard.Values)
      ensures View() == LeaderRole.NewLeader(score)
    {
      var board: map<Id, FollowerState> := map[];
      var left := score.Keys;
      while left != {}
        invariant left <= score.Keys && board.Keys == score.Keys - left
        invariant forall j :: j in board ==> fresh(board[j]) && board[j].View() == Progress(score[j], [])
        invariant forall j, k :: j in board && k in board && j != k ==> board[j] != board[k]
        decreases |left|
      {
        var j :| j in left;
        var state := new FollowerState(score[j]);
        board := board[j := state];
        left := left - {j};
      }
      scoreBoard := board;
      lastContact := map j | j in score :: UNIX_EPOCH;
      inFlightWrites, pendingWriteCount := map[], 0;
    }

    // ----- Dispatching -----

    method DispatchAcceptRequestToFollower(j: Id, ctx: PaxosSharedContext, minNextTs: Option<Time>, tSend: Time)
      returns (request: AcceptRequest)
      requires Valid() && j in scoreBoard && LeaderRole.AnchorPresent(ctx.wal.entries, scoreBoard[j].logPosition)
      modifies scoreBoard[j]
      ensures SentTo(ctx.View(), old(Board()[j]), tSend, minNextTs, request, Board()[j])
      ensures Board() == old(Board())[j := Board()[j]]
    {
      var fs := scoreBoard[j];
      var pos := fs.logPosition;
      var prevLogSlot := if pos.sentSlot > pos.nextSlot then pos.sentSlot else SaturatingPred(pos.nextSlot);
      var prevLogTerm := if prevLogSlot == 0 then 0 else ctx.wal.GetTerm(prevLogSlot).value;
      var entries := ctx.wal.GetEntriesFrom(prevLogSlot + 1);
      request := AcceptRequest(ctx.term, ctx.memberId, prevLogSlot, prevLogTerm, entries, ctx.committedSlot, tSend,
                               minNextTs);
      if entries != [] {
        var slot := entries[|entries| - 1].slot;
        fs.logPosition := fs.logPosition.(sentSlot := slot);
        fs.PushBatch(slot, tSend);
      }
    }

    method DispatchAcceptRequest(ctx: PaxosSharedContext, minNextTs: Option<Time>, tSends: map<Id, Time>)
      returns (requests: map<Id, AcceptRequest>)
      requires Valid() && LeaderRole.CanBroadcast(ctx.View(), View(), tSends)
      modifies scoreBoard.Values
      ensures LeaderRole.LeaderStep(ctx.View(), View(), requests, map[])
        == LeaderRole.Broadcast(old(ctx.View()), old(View()), tSends, minNextTs)
    {
      requests := DispatchToEach(ctx, minNextTs, tSends, ctx.View(), Board());
      AllSent(ctx.View(), old(View()), tSends, minNextTs, requests, Board());
    }

    // Sends to every follower, in whatever order the score board yields them.
    method DispatchToEach(ctx: PaxosSharedContext, minNextTs: Option<Time>, tSends: map<Id, Time>,
                          ghost view: ContextView, ghost before: map<Id, Progress>)
      returns (requests: map<Id, AcceptRequest>)
      requires Valid() && ctx.View() == view && Board() == before
      requires forall j :: j in before ==> j in tSends && LeaderRole.AnchorPresent(view.wal, before[j].pos)
      modifies scoreBoard.Values
      ensures DispatchedExcept({}, view, before, tSends, minNextTs, requests, Board())
    {
      requests := map[];
      var left := scoreBoard.Keys;
      ghost var progress := before;
      while left != {}
        invariant left <= scoreBoard.Keys && ctx.View() == view && Board() == progress
        invariant DispatchedExcept(left, view, before, tSends, minNextTs, requests, progress)
        decreases |left|
      {
        var j :| j in left;
        assert progress[j] == before[j];
        var request := DispatchAcceptRequestToFollower(j, ctx, minNextTs, tSends[j]);
        NextDispatched(left, view, before, tSends, minNextTs, requests, progress, j, request, Board()[j]);
        requests := requests[j := request];
        progress := Board();
        left := left - {j};
      }
    }

    // ----- Taking over -----

    // Rewrites every uncommitted entry in the leader's own term, and lists them in slot order.
    method RestampUncommittedLogs(ctx: PaxosSharedContext) returns (entries: seq<LogEntry>)
      requires ctx.Valid()
      modifies ctx
      ensures ctx.View() == old(ctx.View()).(uncommitted := LeaderRole.Restamp(old(ctx.uncommittedLogs), ctx.term))
      ensures entries == EntriesFrom(ctx.uncommittedLogs, 0) && ctx.Valid()
    {
      var listed := EntriesFrom(ctx.uncommittedLogs, 0);
      ghost var own := LeaderRole.Restamp(ctx.uncommittedLogs, ctx.term);
      ghost var target := EntriesFrom(own, 0);
      RestampListing(ctx.uncommittedLogs, ctx.term);
      entries := [];
      var k := 0;
      while k < |listed|
        invariant 0 <= k <= |listed|
        invariant ctx.View() == old(ctx.View()).(uncommitted := ctx.uncommittedLogs)
        invariant entries == target[..k]
        invariant AppendAll(ctx.uncommittedLogs, target[k..]) == AppendAll(old(ctx.uncommittedLogs), target)
      {
        var entry := listed[k].(term := ctx.term);
        assert entry == target[k] && target[k..][1..] == target[k + 1..];
        ctx.uncommittedLogs := ctx.uncommittedLogs[entry.slot := entry];
        entries := entries + [entry];
        k := k + 1;
      }
      AppendAllOverrides(old(ctx.uncommittedLogs), own);
      assert old(ctx.uncommittedLogs) + own == own;
    }

    // Appends the entries to the write-ahead log, one by one.
    method AppendToWal(entries: seq<LogEntry>, ctx: PaxosSharedContext)
      requires ctx.Valid()
      modifies ctx.wal
      ensures ctx.View() == old(ctx.View()).(wal := AppendAll(old(ctx.wal.entries), entries)) && ctx.Valid()
    {
      var k := 0;
      while k < |entries|
        invariant 0 <= k <= |entries|
        invariant ctx.Valid()
        invariant AppendAll(ctx.wal.entries, entries[k..]) == AppendAll(old(ctx.wal.entries), entries)
      {
        assert entries[k..][1..] == entries[k + 1..];
        ctx.wal.Append(entries[k]);
        k := k + 1;
      }
    }

    method SetNextSlot(j: Id, nextSlot: nat)
      requires Valid() && j in scoreBoard
      modifies scoreBoard[j]
      ensures Board() == old(Board())[j := LeaderRole.PointAt(old(Board()[j]), nextSlot)]
    {
      var fs := scoreBoard[j];
      fs.logPosition := fs.logPosition.(nextSlot := nextSlot);
    }

    // Points every follower at the same next slot.
    method SetNextSlots(nextSlot: nat)
      requires Valid()
      modifies scoreBoard.Values
      ensures View() == LeaderRole.StartFrom(old(View()), nextSlot)
    {
      var left := scoreBoard.Keys;
      ghost var before, progress := Board(), Board();
      ghost var target := LeaderRole.StartFrom(View(), nextSlot).score;
      while left != {}
        invariant left <= scoreBoard.Keys && Board() == progress && MovedExcept(left, before, progress, target)
        decreases |left|
      {
        var j :| j in left;
        SetNextSlot(j, nextSlot);
        MoveNext(left, before, progress, target, j);
        progress := progress[j := target[j]];
        left := left - {j};
      }
      AllMoved(before, progress, target);
    }

    // Takes the uncommitted entries over into the leader's own term and log.
    method TakeOverUncommittedLogs(ctx: PaxosSharedContext) returns (last: Option<nat>)
      requires ctx.Valid()
      modifies ctx, ctx.wal
      ensures ctx.View() == LeaderRole.TakeOver(old(ctx.View())) && ctx.Valid()
      ensures last == if ctx.uncommittedLogs == map[] then None else Some(Top(ctx.uncommittedLogs))
    {
      var entries := RestampUncommittedLogs(ctx);
      AppendAllOverrides(ctx.wal.entries, ctx.uncommittedLogs);
      LastListed(ctx.uncommittedLogs);
      AppendToWal(entries, ctx);
      if entries == [] { return None; }
      var lastEntry := entries[|entries| - 1];
      ctx.lastLogSlot, ctx.lastLogTerm := lastEntry.slot, ctx.term;
      return Some(lastEntry.slot);
    }

    method StartLeading(ctx: PaxosSharedContext)
      requires Valid() && ctx.Valid()
      modifies ctx, ctx.wal, scoreBoard.Values
      ensures ctx.View() == LeaderRole.TakeOver(old(ctx.View())) && ctx.Valid()
      ensures View() == LeaderRole.PointPastLast(old(View()), ctx.View())
    {
      var last := TakeOverUncommittedLogs(ctx);
      if last.Some? { SetNextSlots(last.value + 1); }
    }

    method ProcessUncommittedLogs(ctx: PaxosSharedContext, tSends: map<Id, Time>)
      returns (requests: map<Id, AcceptRequest>)
      requires Valid() && ctx.Valid()
      requires var next := LeaderRole.TakeOver(ctx.View());
        LeaderRole.CanBroadcast(next, LeaderRole.PointPastLast(View(), next), tSends)
      modifies ctx, ctx.wal, scoreBoard.Values
      ensures LeaderRole.LeaderStep(ctx.View(), View(), requests, map[])
        == LeaderRole.ProcessUncommitted(old(ctx.View()), old(View()), tSends)
      ensures ctx.Valid()
    {
      StartLeading(ctx);
      requests := DispatchAcceptRequest(ctx, None, tSends);
    }

    // ----- Client writes and timers -----

    /** `flush` says that the buffered writes fill a batch and should be dispatched at once. */
    method HandleClientWrite(command: nat, value: string, ctx: PaxosSharedContext, reading: TimeInterval)
      returns (flush: bool)
      requires ctx.Valid()
      modifies this, ctx, ctx.wal
      ensures LeaderRole.LeaderStep(ctx.View(), View(), map[], map[])
        == LeaderRole.OnClientWrite(old(ctx.View()), old(View()), command, value, reading)
      ensures ctx.Valid() && flush == (View().pendingWrites >= DEFAULT_WRITE_BATCH_SIZE)
    {
      var slot := ctx.lastLogSlot + 1;
      var entry := LogEntry(ctx.term, slot, value, reading.latest);
      ctx.wal.Append(entry);
      ctx.lastLogSlot, ctx.lastLogTerm := slot, ctx.term;
      ctx.uncommittedLogs := ctx.uncommittedLogs[slot := entry];
      inFlightWrites := inFlightWrites[slot := PendingWrite(reading.latest, command)];
      pendingWriteCount := pendingWriteCount + 1;
      flush := pendingWriteCount >= DEFAULT_WRITE_BATCH_SIZE;
    }

    method HandleWriteFlush(ctx: PaxosSharedContext, tSends: map<Id, Time>) returns (requests: map<Id, AcceptRequest>)
      requires Valid() && LeaderRole.CanBroadcast(ctx.View(), View(), tSends)
      modifies this, scoreBoard.Values
      ensures LeaderRole.LeaderStep(ctx.View(), View(), requests, map[])
        == LeaderRole.OnWriteFlush(old(ctx.View()), old(View()), tSends)
    {
      if pendingWriteCount == 0 { return map[]; }
      requests := DispatchAcceptRequest(ctx, None, tSends);
      pendingWriteCount := 0;
    }

    method HandleHeartbeatTimer(ctx: PaxosSharedContext, reading: TimeInterval, tSends: map<Id, Time>)
      returns (requests: map<Id, AcceptRequest>)
      requires Valid() && ctx.Valid() && LeaderRole.CanBroadcast(ctx.View(), View(), tSends)
      modifies ctx, scoreBoard.Values
      ensures LeaderRole.LeaderStep(ctx.View(), View(), requests, map[])
        == LeaderRole.OnHeartbeat(old(ctx.View()), old(View()), reading, tSends)
      ensures ctx.Valid()
    {
      var minNextTs := reading.latest;
      if ctx.lease.expiry.Some? && ctx.lease.expiry.value < minNextTs {
        minNextTs := ctx.lease.expiry.value;
      }
      ctx.AdvanceTSafe(minNextTs - MILLISECOND);
      requests := DispatchAcceptRequest(ctx, Some(minNextTs), tSends);
    }

    // Clears the queue of one follower if its oldest batch has waited too long.
    method CheckTimeout(j: Id, now: Time)
      requires Valid() && j in scoreBoard
      modifies scoreBoard[j]
      ensures Board() == old(Board())[j := LeaderRole.DropIfTimedOut(old(Board()[j]), now)]
    {
      var fs := scoreBoard[j];
      if fs.inFlightBatches != [] && now - fs.inFlightBatches[0].sentAt > LeaderRole.ACCEPT_REQUEST_TIMEOUT {
        fs.ClearInFlightBatches();
      }
    }

    method CheckTimeouts(now: Time, ghost before: map<Id, Progress>, ghost target: map<Id, Progress>)
      requires Valid() && Board() == before && target.Keys == before.Keys
      requires forall j :: j in before ==> target[j] == LeaderRole.DropIfTimedOut(before[j], now)
      modifies scoreBoard.Values
      ensures Board() == target
    {
      var left := scoreBoard.Keys;
      ghost var progress := before;
      while left != {}
        invariant left <= scoreBoard.Keys && Board() == progress && MovedExcept(left, before, progress, target)
        decreases |left|
      {
        var j :| j in left;
        CheckTimeout(j, now);
        MoveNext(left, before, progress, target, j);
        progress := progress[j := target[j]];
        left := left - {j};
      }
    }

    method HandleAcceptTimeoutCheck(now: Time)
      requires Valid()
      modifies scoreBoard.Values
      ensures View() == LeaderRole.OnAcceptTimeoutCheck(old(View()), now)
    {
      CheckTimeouts(now, Board(), LeaderRole.OnAcceptTimeoutCheck(View(), now).score);
    }

    // ----- Accept responses -----

    // Keeps the follower's newest contact time, and renews the lease from the quorum's.
    method NoteContact(response: AcceptResponse, ctx: PaxosSharedContext)
      requires ctx.Valid() && ctx.peerIds != {}
      modifies this, ctx.lease
      ensures View() == old(View()).(lastContact := LeaderRole.NoteContact(old(lastContact), response))
      ensures response.memberId in lastContact && lastContact[response.memberId] >= response.echoedTSend
      ensures ctx.View() == old(ctx.View()).(lease := LeaderRole.RenewedLease(old(ctx.View()), lastContact))
      ensures ctx.Valid()
    {
      var j := response.memberId;
      lastContact := lastContact[j := if j in lastContact && lastContact[j] > response.echoedTSend
                                      then lastContact[j] else response.echoedTSend];
      var tQuorum := QuorumContact(lastContact, ctx.GetQuorumSize() - 1);
      if tQuorum.Some? {
        var proposedExpiry := tQuorum.value + LEASE_LENGTH;
        if ctx.lease.expiry.None? || proposedExpiry > ctx.lease.expiry.value {
          ctx.UpdateLeaderLeaseExpiryTime(proposedExpiry);
        }
      }
    }

    // Splits off the writes that may be answered.
    method ResolveInFlightWrites(slot: nat) returns (committed: map<nat, PendingWrite>)
      modifies this
      ensures View() == old(View()).(inFlight := LeaderRole.Beyond(old(inFlightWrites), slot))
      ensures committed == LeaderRole.UpTo(old(inFlightWrites), slot)
    {
      committed := map s | s in inFlightWrites && s <= slot :: inFlightWrites[s];
      inFlightWrites := map s | s in inFlightWrites && s > slot :: inFlightWrites[s];
    }

    /** Answers committed writes in slot order, each once its timestamp has definitely passed. `clock` are the
        clock's successive answers during each wait, and `ends` records the one that ended each wait. */
    method AnswerCommitted(committed: map<nat, PendingWrite>, clock: map<nat, seq<TimeInterval>>)
      returns (slots: seq<nat>, ends: seq<TimeInterval>)
      requires forall s :: s in committed ==>
        s in clock && exists i :: 0 <= i < |clock[s]| && After(committed[s].timestamp, clock[s][i])
      ensures |ends| == |slots| && forall s :: s in committed <==> s in slots
      ensures forall a, b :: 0 <= a < b < |slots| ==> slots[a] < slots[b]
      ensures forall k :: 0 <= k < |slots| ==> After(committed[slots[k]].timestamp, ends[k])
    {
      slots, ends := [], [];
      var left := committed.Keys;
      while left != {}
        invariant left <= committed.Keys && |ends| == |slots|
        invariant forall s :: s in slots <==> s in committed && s !in left
        invariant forall a, b :: 0 <= a < b < |slots| ==> slots[a] < slots[b]
        invariant forall k, s :: 0 <= k < |slots| && s in left ==> slots[k] < s
        invariant forall k :: 0 <= k < |slots| ==>
          slots[k] in committed && After(committed[slots[k]].timestamp, ends[k])
        decreases |left|
      {
        var slot := MinOf(left);
        var polls := CommitWait(committed[slot].timestamp, clock[slot]);
        slots, ends := slots + [slot], ends + [clock[slot][polls]];
        left := left - {slot};
      }
    }

    // The highest slot that is guaranteed to be on a quorum.
    method QuorumMatch(ctx: PaxosSharedContext) returns (slot: nat)
      requires ctx.peerIds != {} && ctx.peerIds == scoreBoard.Keys
      ensures slot == QuorumSlot(LeaderRole.Matches(Board()), QuorumOf(ctx.View()) - 1, ctx.lastLogSlot)
    {
      var matches := map j | j in scoreBoard :: scoreBoard[j].logPosition.matchSlot;
      assert matches == LeaderRole.Matches(Board());
      assert matches.Keys == ctx.peerIds;
      slot := CommitCandidate(matches, ctx.GetQuorumSize() - 1, ctx.lastLogSlot);
    }

    method CommitSlot(slot: nat, ctx: PaxosSharedContext) returns (resolved: map<nat, PendingWrite>)
      requires Valid() && ctx.Valid()
      modifies this, ctx
      ensures ctx.View() == CommitThrough(old(ctx.View()), slot) && ctx.Valid()
      ensures View() == old(View()).(inFlight := LeaderRole.Beyond(old(inFlightWrites), slot))
      ensures resolved == LeaderRole.UpTo(old(inFlightWrites), slot)
    {
      ctx.AdvanceCommitted(slot);
      resolved := ResolveInFlightWrites(slot);
    }

    // Commits what a quorum holds.
    method CommitOnQuorum(ctx: PaxosSharedContext) returns (resolved: map<nat, PendingWrite>)
      requires Valid() && ctx.Valid() && ctx.peerIds != {} && ctx.peerIds == scoreBoard.Keys
      modifies this, ctx
      ensures LeaderRole.LeaderStep(ctx.View(), View(), map[], resolved)
        == LeaderRole.Commit(old(ctx.View()), old(View()))
      ensures ctx.Valid()
    {
      var slot := QuorumMatch(ctx);
      resolved := map[];
      if slot > ctx.committedSlot {
        resolved := CommitSlot(slot, ctx);
      }
    }

    // Moves the position of a follower that has written through `slot`.
    method Acknowledge(j: Id, slot: nat)
      requires Valid() && j in scoreBoard
      modifies scoreBoard[j]
      ensures Board() == old(Board())[j := LeaderRole.Acknowledge(old(Board()[j]), slot)]
    {
      var fs := scoreBoard[j];
      fs.logPosition := fs.logPosition.(matchSlot := slot, nextSlot := slot + 1);
      if fs.logPosition.sentSlot < slot {
        fs.logPosition := fs.logPosition.(sentSlot := slot);
      }
      fs.AckBatchesUpTo(slot);
    }

    method HandleSuccess(response: AcceptResponse, ctx: PaxosSharedContext) returns (resolved: map<nat, PendingWrite>)
      requires Valid() && ctx.Valid() && ctx.peerIds != {} && ctx.peerIds == scoreBoard.Keys
      requires response.memberId in scoreBoard
      modifies this, ctx, scoreBoard.Values
      ensures LeaderRole.LeaderStep(ctx.View(), View(), map[], resolved)
        == LeaderRole.OnSuccess(old(ctx.View()), old(View()), response)
      ensures ctx.Valid()
    {
      resolved := map[];
      if response.lastWrittenSlot > scoreBoard[response.memberId].logPosition.matchSlot {
        Acknowledge(response.memberId, response.lastWrittenSlot);
        resolved := CommitOnQuorum(ctx);
      }
    }

    // Clears the queue and moves the position to where the rejection points.
    method Reprobe(j: Id, hint: ConflictHint, ctx: PaxosSharedContext)
      requires Valid() && j in scoreBoard
      modifies scoreBoard[j]
      ensures Board() == old(Board())[j := LeaderRole.Reprobe(ctx.wal.entries, old(Board()[j]), hint)]
    {
      var fs := scoreBoard[j];
      fs.ClearInFlightBatches();
      var nextSlot := hint.conflictFirstSlot;
      if hint.conflictTerm != 0 {
        var leaderLastSlot := ctx.wal.FindHighestSlotForTerm(hint.conflictTerm);
        if leaderLastSlot.Some? { nextSlot := leaderLastSlot.value + 1; }
      }
      fs.logPosition := fs.logPosition.(nextSlot := nextSlot);
    }

    method HandleConflict(response: AcceptResponse, ctx: PaxosSharedContext, tSend: Time)
      returns (requests: map<Id, AcceptRequest>)
      requires Valid() && response.conflictHint.Some? && response.memberId in scoreBoard
      requires var p := LeaderRole.Reprobe(ctx.wal.entries, Board()[response.memberId], response.conflictHint.value);
        LeaderRole.AnchorPresent(ctx.wal.entries, p.pos)
      modifies scoreBoard[response.memberId]
      ensures LeaderRole.LeaderStep(ctx.View(), View(), requests, map[])
        == LeaderRole.OnConflict(old(ctx.View()), old(View()), response, tSend)
    {
      Reprobe(response.memberId, response.conflictHint.value, ctx);
      var request := DispatchAcceptRequestToFollower(response.memberId, ctx, None, tSend);
      requests := map[response.memberId := request];
    }

    method HandleAcceptResponse(response: AcceptResponse, ctx: PaxosSharedContext, tSend: Time)
      returns (requests: map<Id, AcceptRequest>, resolved: map<nat, PendingWrite>)
      requires Valid() && ctx.Valid() && ctx.peerIds == scoreBoard.Keys
      requires LeaderRole.CanHandle(ctx.View(), View(), response)
      modifies this, ctx, ctx.lease, scoreBoard.Values
      ensures LeaderRole.LeaderStep(ctx.View(), View(), requests, resolved)
        == LeaderRole.OnAcceptResponse(old(ctx.View()), old(View()), response, tSend)
      ensures ctx.Valid()
    {
      requests, resolved := map[], map[];
      if response.term < ctx.term { return; }
      if !response.success && response.conflictHint.None? { return; }
      NoteContact(response, ctx);
      if response.success {
        resolved := HandleSuccess(response, ctx);
      } else {
        requests := HandleConflict(response, ctx, tSend);
      }
    }
  }

  lemma {:induction false} RestampRange(m: Log, term: nat, lo: nat, hi: nat)
    ensures |Range(LeaderRole.Restamp(m, term), lo, hi)| == |Range(m, lo, hi)|
    ensures forall k :: 0 <= k < |Range(m, lo, hi)| ==>
      Range(LeaderRole.Restamp(m, term), lo, hi)[k] == Range(m, lo, hi)[k].(term := term)
    decreases hi - lo
  {
    if lo < hi { RestampRange(m, term, lo + 1, hi); }
  }

  // Restamping keeps the listing's order.
  lemma RestampListing(m: Log, term: nat)
    ensures var own := LeaderRole.Restamp(m, term);
      && |EntriesFrom(own, 0)| == |EntriesFrom(m, 0)|
      && forall k :: 0 <= k < |EntriesFrom(m, 0)| ==>
           EntriesFrom(own, 0)[k] == EntriesFrom(m, 0)[k].(term := term)
  {
    var own := LeaderRole.Restamp(m, term);
    assert own.Keys == m.Keys;
    assert Top(own) == Top(m) by {
      if m != map[] { assert Top(m) in own && Top(own) in m; }
    }
    RestampRange(m, term, 0, Top(m) + 1);
  }

  // The listing ends with the entry at the greatest slot.
  lemma LastListed(m: Log)
    requires WellKeyed(m)
    ensures EntriesFrom(m, 0) == [] <==> m == map[]
    ensures m != map[] ==> EntriesFrom(m, 0)[|EntriesFrom(m, 0)| - 1].slot == Top(m)
  {
    RangeIsSortedListing(m, 0, Top(m) + 1);
    var listed := EntriesFrom(m, 0);
    if m != map[] {
      assert m[Top(m)] in listed;
    } else {
      assert Range(m, 1, 1) == [];
    }
  }

  // All followers but those in `left` have moved from `before` to `target`.
  ghost predicate MovedExcept(left: set<Id>, before: map<Id, Progress>, progress: map<Id, Progress>,
                              target: map<Id, Progress>)
  {
    && progress.Keys == before.Keys == target.Keys
    && forall j :: j in progress ==> progress[j] == if j in left then before[j] else target[j]
  }

  lemma MoveNext(left: set<Id>, before: map<Id, Progress>, progress: map<Id, Progress>, target: map<Id, Progress>, j: Id)
    requires MovedExcept(left, before, progress, target) && j in before
    ensures MovedExcept(left - {j}, before, progress[j := target[j]], target)
    ensures j in left ==> progress[j] == before[j]
    ensures left == {} ==> progress == target
  {}

  lemma AllMoved(before: map<Id, Progress>, progress: map<Id, Progress>, target: map<Id, Progress>)
    requires MovedExcept({}, before, progress, target)
    ensures progress == target
  {}

  // `request` is what goes out from a position, and `after` the progress noted.
  ghost predicate SentTo(ctx: ContextView, before: Progress, tSend: Time, minNextTs: Option<Time>,
                         request: AcceptRequest, after: Progress)
    requires LeaderRole.AnchorPresent(ctx.wal, before.pos)
  {
    request == LeaderRole.AcceptFor(ctx, before.pos, tSend, minNextTs) && after == LeaderRole.NoteSent(before, request)
  }

  // All but those in `left` have been sent to; those are as before.
  ghost predicate DispatchedExcept(left: set<Id>, ctx: ContextView, before: map<Id, Progress>, tSends: map<Id, Time>,
                                   minNextTs: Option<Time>, requests: map<Id, AcceptRequest>, progress: map<Id, Progress>)
  {
    && progress.Keys == before.Keys && requests.Keys == before.Keys - left
    && forall j :: j in before ==>
         && j in tSends && LeaderRole.AnchorPresent(ctx.wal, before[j].pos)
         && if j in left then progress[j] == before[j]
            else SentTo(ctx, before[j], tSends[j], minNextTs, requests[j], progress[j])
  }

  lemma NextDispatched(left: set<Id>, ctx: ContextView, before: map<Id, Progress>, tSends: map<Id, Time>,
                       minNextTs: Option<Time>, requests: map<Id, AcceptRequest>, progress: map<Id, Progress>,
                       j: Id, request: AcceptRequest, after: Progress)
    requires DispatchedExcept(left, ctx, before, tSends, minNextTs, requests, progress) && j in before
    requires SentTo(ctx, before[j], tSends[j], minNextTs, request, after)
    ensures DispatchedExcept(left - {j}, ctx, before, tSends, minNextTs, requests[j := request], progress[j := after])
  {}

  lemma AllSent(ctx: ContextView, l: LeaderView, tSends: map<Id, Time>, minNextTs: Option<Time>,
                requests: map<Id, AcceptRequest>, score: map<Id, Progress>)
    requires LeaderRole.CanBroadcast(ctx, l, tSends)
    requires DispatchedExcept({}, ctx, l.score, tSends, minNextTs, requests, score)
    ensures LeaderRole.LeaderStep(ctx, l.(score := score), requests, map[])
      == LeaderRole.Broadcast(ctx, l, tSends, minNextTs)
  {
    var sent := LeaderRole.Broadcast(ctx, l, tSends, minNextTs);
    assert requests == sent.requests;
    assert score == sent.l.score;
  }
}
