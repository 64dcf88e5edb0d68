/** What each handler guarantees, apart from how it is computed. Invariants are proved from these facts. */
module Facts {
  import opened Types
  import opened TrueTime
  import opened Wal
  import opened Views
  import opened FollowerRole
  import opened LeaderRole
  import opened CandidateRole
  import opened PreCandidateRole
  import opened StateMachine
  import opened Group

  ghost predicate SameIdentity(a: ContextView, b: ContextView) {
    a.memberId == b.memberId && a.peerIds == b.peerIds
  }

  ghost predicate SameLog(a: ContextView, b: ContextView) {
    && a.wal == b.wal && a.uncommitted == b.uncommitted && a.committedSlot == b.committedSlot
    && a.lastLogSlot == b.lastLogSlot && a.lastLogTerm == b.lastLogTerm
  }

  // The member's lease was over at true time `now`.
  ghost predicate Over(ctx: ContextView, now: Time) {
    ctx.lease.None? || ctx.lease.value < now
  }

  // The lease reaches at least a full length beyond true time `now`.
  ghost predicate Extended(ctx: ContextView, now: Time) {
    ctx.lease.Some? && ctx.lease.value >= now + LEASE_LENGTH
  }

  // Nothing happens to a role except stepping down, which keeps no board.
  ghost predicate KeptOrFollowing(m: Member, m': Member) {
    m'.role.Following? || (m'.role == m.role && m'.ctx.term == m.ctx.term)
  }

  // ----- Quiet events -----

  ghost predicate QuietFacts(m: Member, m': Member, now: Time) {
    && SameIdentity(m.ctx, m'.ctx) && SameLog(m.ctx, m'.ctx)
    && m'.ctx.term >= m.ctx.term
    && (m'.ctx.lease == m.ctx.lease || (Over(m.ctx, now) && m'.ctx.lease.None?))
    && (KeptOrFollowing(m, m')
        || (m'.role == PreCampaigning(NewPreCandidate(m.ctx)) && m'.ctx == m.ctx && Over(m.ctx, now)))
    && (m'.role.Leading? ==> m'.ctx.lease == m.ctx.lease)
  }

  lemma QuietMemberFacts(m: Member, e: Event, now: Time)
    requires Quiet(e) && QuietEnabled(m, e, now)
    ensures QuietFacts(m, QuietMember(m, e, now), now)
  {}

  // ----- Votes -----

  ghost predicate VoteFacts(m: Member, request: VoteRequest, r: VoteOutcomeAt, now: Time) {
    && SameIdentity(m.ctx, r.m.ctx) && SameLog(m.ctx, r.m.ctx)
    && r.m.ctx.term == Max(m.ctx.term, request.term)
    && KeptOrFollowing(m, r.m)
    && r.response.memberId == m.ctx.memberId && r.response.term == m.ctx.term
    && match r.response.outcome
       case Promise(lastTerm, lastSlot, entries) =>
         && request.term > m.ctx.term && Over(m.ctx, now) && Extended(r.m.ctx, now) && r.m.role.Following?
         && entries == EntriesFrom(m.ctx.uncommitted, 0) 
         && lastTerm == m.ctx.lastLogTerm && lastSlot == m.ctx.lastLogSlot
       case Rejection(_, _, _, _) => r.m.ctx.lease == m.ctx.lease
  }

  lemma VoteRequestFacts(m: Member, request: VoteRequest, roleCheck: TimeInterval, check: TimeInterval,
                         extend: TimeInterval, now: Time)
    requires ValidAt(roleCheck, now) && ValidAt(check, now) && ValidAt(extend, now)
    ensures VoteFacts(m, request, ProcessVoteRequest(m, request, roleCheck, check, extend), now)
  {}

  // ----- Accept requests -----

  // The request was judged, so the follower is in its term and extended its lease.
  ghost predicate Judged(m: Member, request: AcceptRequest, m': Member, response: AcceptResponse, now: Time) {
    && m'.ctx.term == request.term && m'.role.Following?
    && Extended(m'.ctx, now)
    && response.memberId == m.ctx.memberId && response.term == request.term && response.echoedTSend == request.tSend
    && Confirms(response)
    && var a := Judge(m.ctx.(term := request.term), request);
      a.response == response && SameLog(a.ctx, m'.ctx)
  }

  // The request was passed over; any response disregards it.
  ghost predicate PassedOver(m: Member, m': Member, response: Option<AcceptResponse>) {
    && SameLog(m.ctx, m'.ctx) && m'.ctx.lease == m.ctx.lease
    && (response.Some? ==> !response.value.success && response.value.conflictHint.None?)
  }

  ghost predicate AcceptFacts(m: Member, request: AcceptRequest, r: AcceptOutcomeAt, now: Time) {
    && SameIdentity(m.ctx, r.m.ctx)
    && r.m.ctx.term == Max(m.ctx.term, request.term)
    && KeptOrFollowing(m, r.m)
    && ((r.response.Some? && Judged(m, request, r.m, r.response.value, now)) || PassedOver(m, r.m, r.response))
  }

  lemma AcceptRequestFacts(m: Member, request: AcceptRequest, roleCheck: TimeInterval, check: TimeInterval,
                           extend: TimeInterval, now: Time)
    requires ValidAt(roleCheck, now) && ValidAt(check, now) && ValidAt(extend, now)
    ensures AcceptFacts(m, request, ProcessAcceptRequest(m, request, roleCheck, check, extend), now)
  {
    var m1 := AdoptTerm(m, request.term);
    match m1.role
    case Following(f) => FollowAndAcceptFacts(m, m1, f, request, check, extend, now);
    case _ => FollowAndAcceptFacts(m, m1, FollowerView(Some(request.leaderId), None), request, check, extend, now);
  }

  lemma FollowAndAcceptFacts(m: Member, m1: Member, f: FollowerView, request: AcceptRequest, check: TimeInterval,
                             extend: TimeInterval, now: Time)
    requires m1 == AdoptTerm(m, request.term) && ValidAt(extend, now)
    ensures AcceptFacts(m, request, FollowAndAccept(m1.ctx, f, request, check, extend), now)
  {}

  // The follower judged the request, and extended its lease for it.
  ghost predicate Confirms(response: AcceptResponse) { response.success || response.conflictHint.Some? }

  // ----- Broadcasts -----

  // The request carries the leader's log after an anchor that its log holds, and announces nothing beyond its lease.
  ghost predicate WellPosted(ctx: ContextView, request: AcceptRequest, now: Time) {
    && request.term == ctx.term && request.leaderId == ctx.memberId && request.leaderCommitSlot == ctx.committedSlot
    && SendTime(request.tSend, now)
    && (request.prevLogSlot == 0
        || (request.prevLogSlot in ctx.wal && request.prevLogTerm == ctx.wal[request.prevLogSlot].term))
    && request.entries == EntriesFrom(ctx.wal, request.prevLogSlot + 1)
    && Vouched(ctx, request.minNextTs)
  }

  ghost predicate Vouched(ctx: ContextView, minNextTs: Option<Time>) {
    minNextTs.Some? && ctx.lease.Some? ==> minNextTs.value <= ctx.lease.value
  }

  ghost predicate AllWellPosted(step: LeaderStep, now: Time) {
    forall j :: j in step.requests ==> j in step.l.score && WellPosted(step.ctx, step.requests[j], now)
  }

  lemma BroadcastFacts(ctx: ContextView, l: LeaderView, tSends: map<Id, Time>, ts: Option<Time>, now: Time)
    requires CanBroadcast(ctx, l, tSends) && SendTimes(tSends, now) && Vouched(ctx, ts)
    ensures var r := Broadcast(ctx, l, tSends, ts);
      && AllWellPosted(r, now) && r.ctx == ctx && r.resolved == map[]
      && r.l == l.(score := r.l.score) && r.l.score.Keys == l.score.Keys
      && (forall j :: j in l.score ==>
            && j in r.requests && r.requests[j].prevLogSlot == Anchor(l.score[j].pos)
            && r.l.score[j] == NoteSent(l.score[j], r.requests[j]))
  {}

  // ----- Leader timers -----

  // What a timer may do to one follower's progress: note a batch sent, or clear the batches.
  ghost predicate ProgressMove(ctx: ContextView, p: Progress, p': Progress) {
    || p' == p
    || p' == ClearBatches(p)
    || exists request: AcceptRequest :: p' == NoteSent(p, request)
        && request.entries == EntriesFrom(ctx.wal, Anchor(p.pos) + 1)
  }

  ghost predicate RoutineFacts(m: Member, r: LeaderStep, now: Time) {
    && m.role.Leading?
    && r.ctx == m.ctx.(tSafe := r.ctx.tSafe)
    && r.l == m.role.l.(score := r.l.score, pendingWrites := r.l.pendingWrites)
    && r.l.score.Keys == m.role.l.score.Keys
    && AllWellPosted(r, now)
    && r.resolved == map[]
    && forall j :: j in m.role.l.score ==> ProgressMove(m.ctx, m.role.l.score[j], r.l.score[j])
  }

  lemma FlushFacts(m: Member, tSends: map<Id, Time>, now: Time)
    requires m.role.Leading? && SendTimes(tSends, now) && CanBroadcast(m.ctx, m.role.l, tSends)
    ensures RoutineFacts(m, OnWriteFlush(m.ctx, m.role.l, tSends), now)
  {
    BroadcastIsRoutine(m, m.ctx, tSends, None, now);
  }

  lemma HeartbeatFacts(m: Member, reading: TimeInterval, tSends: map<Id, Time>, now: Time)
    requires m.role.Leading? && SendTimes(tSends, now) && CanBroadcast(m.ctx, m.role.l, tSends)
    ensures RoutineFacts(m, OnHeartbeat(m.ctx, m.role.l, reading, tSends), now)
  {
    var ts := MinNextTs(m.ctx, reading);
    var ctx := AdvanceTSafe(m.ctx, ts - MILLISECOND);
    assert CanBroadcast(ctx, m.role.l, tSends);
    BroadcastIsRoutine(m, ctx, tSends, Some(ts), now);
    assert OnHeartbeat(m.ctx, m.role.l, reading, tSends) == Broadcast(ctx, m.role.l, tSends, Some(ts));
  }

  lemma BroadcastIsRoutine(m: Member, ctx: ContextView, tSends: map<Id, Time>, ts: Option<Time>, now: Time)
    requires m.role.Leading? && ctx == m.ctx.(tSafe := ctx.tSafe)
    requires SendTimes(tSends, now) && CanBroadcast(ctx, m.role.l, tSends) && Vouched(ctx, ts)
    ensures RoutineFacts(m, Broadcast(ctx, m.role.l, tSends, ts), now)
  {
    BroadcastFacts(ctx, m.role.l, tSends, ts, now);
    BroadcastMoves(m.ctx, ctx, m.role.l, Broadcast(ctx, m.role.l, tSends, ts), now);
  }

  // A broadcast notes one batch for each follower.
  lemma BroadcastMoves(ctx: ContextView, sender: ContextView, l: LeaderView, r: LeaderStep, now: Time)
    requires sender.wal == ctx.wal && r.ctx == sender && AllWellPosted(r, now) && r.l.score.Keys == l.score.Keys
    requires forall j :: j in l.score ==>
      j in r.requests && r.requests[j].prevLogSlot == Anchor(l.score[j].pos)
      && r.l.score[j] == NoteSent(l.score[j], r.requests[j])
    ensures forall j :: j in l.score ==> ProgressMove(ctx, l.score[j], r.l.score[j])
  {
    forall j | j in l.score ensures ProgressMove(ctx, l.score[j], r.l.score[j]) {
      assert WellPosted(sender, r.requests[j], now);
      assert r.requests[j].entries == EntriesFrom(ctx.wal, Anchor(l.score[j].pos) + 1);
    }
  }

  lemma RoutineStepFacts(m: Member, e: Event, now: Time)
    requires Routine(e) && RoutineEnabled(m, e, now)
    ensures RoutineFacts(m, RoutineStep(m, e, now), now)
  {
    match e
    case WriteFlush(_, tSends) => FlushFacts(m, tSends, now);
    case Heartbeat(_, reading, tSends) => HeartbeatFacts(m, reading, tSends, now);
    case TimeoutCheck(_, _) =>
  }

  // ----- Campaigns -----

  ghost predicate PreVoteFacts(m: Member, r: PreVoteResult, now: Time)
    requires m.role.PreCampaigning?
  {
    match r
    case StillWaiting(p) => p.board.Keys == m.role.p.board.Keys
    case Abandoned => true
    case Promoted(ctx, c, request) =>
      && ctx == m.ctx.(term := m.ctx.term + 1)
      && c.dispatched.Some? && SendTime(c.dispatched.value, now)
      && c == NewCandidate(m.ctx).(dispatched := c.dispatched)
      && request == VoteRequest(m.ctx.memberId, ctx.term, m.ctx.lastLogTerm, m.ctx.lastLogSlot)
  }

  lemma PreVoteReplyFacts(m: Member, preVote: PreVoteResponse, reading: TimeInterval, now: Time)
    requires m.role.PreCampaigning? && preVote.memberId in m.role.p.board && ValidAt(reading, now)
    ensures PreVoteFacts(m, OnPreVoteResponse(m.ctx, m.role.p, preVote, reading), now)
  {
    assert m.role.p.board[preVote.memberId := Some(preVote)].Keys == m.role.p.board.Keys;
  }

  ghost predicate ElectedFacts(ctx: ContextView, c1: CandidateView, step: LeaderStep, now: Time) {
    && c1.dispatched.Some?
    && HasVoteQuorum(c1.votes)
    && SameIdentity(ctx, step.ctx) && step.ctx.term == ctx.term
    && step.ctx == ElectedContext(ctx, c1)
    && AllWellPosted(step, now)
    && step.l.inFlight == map[] && step.resolved == map[]
    && step.l.lastContact == (map j | j in c1.score :: UNIX_EPOCH)
    && step.l.score.Keys == c1.score.Keys
    && (forall j :: j in c1.score ==>
          && j in step.requests
          && step.l.score[j] == NoteSent(ElectedBoard(ctx, c1).score[j], step.requests[j])
          && step.requests[j].prevLogSlot == Anchor(ElectedBoard(ctx, c1).score[j].pos))
  }

  ghost predicate ElectFacts(m: Member, response: VoteResponse, r: VoteResult, now: Time)
    requires m.role.Campaigning? && response.memberId in m.role.c.score
  {
    match r
    case Waiting(c) => c == RecordVote(m.ctx, m.role.c, response)
    case GivenUp(ctx) => ctx == m.ctx.(lease := ctx.lease)
    case Elected(step) => ElectedFacts(m.ctx, RecordVote(m.ctx, m.role.c, response), step, now)
  }

  lemma BoardKeys(ctx: ContextView, c1: CandidateView)
    requires c1.dispatched.Some?
    ensures var l := ElectedBoard(ctx, c1);
      && l.score.Keys == c1.score.Keys && l.inFlight == map[]
      && l.lastContact == (map j | j in c1.score :: UNIX_EPOCH)
  {
    assert NewLeader(c1.score).score.Keys == c1.score.Keys;
  }

  lemma RecordKeys(ctx: ContextView, c: CandidateView, response: VoteResponse)
    requires response.memberId in c.score
    ensures RecordVote(ctx, c, response).score.Keys == c.score.Keys
  {}

  lemma VoteReplyFacts(m: Member, answer: Answer, reading: TimeInterval, tSends: map<Id, Time>, now: Time)
    requires CanTally(m, answer, reading, tSends) && SendTimes(tSends, now)
    ensures ElectFacts(m, answer.response, OnVoteResponse(m.ctx, m.role.c, answer.response, reading, tSends), now)
  {
    var c1 := RecordVote(m.ctx, m.role.c, answer.response);
    if Wins(c1, reading) {
      BoardKeys(m.ctx, c1);
      BroadcastFacts(ElectedContext(m.ctx, c1), ElectedBoard(m.ctx, c1), tSends, None, now);
    }
  }

  // ----- Accept responses -----

  ghost predicate AckFacts(m: Member, response: AcceptResponse, r: LeaderStep, now: Time)
    requires m.role.Leading?
  {
    && SameIdentity(m.ctx, r.ctx)
    && r.ctx.term == m.ctx.term && r.ctx.wal == m.ctx.wal
    && r.ctx.lastLogSlot == m.ctx.lastLogSlot && r.ctx.lastLogTerm == m.ctx.lastLogTerm
    && r.l.score.Keys == m.role.l.score.Keys
    && AllWellPosted(r, now)
    && if Disregards(m.ctx, response) then r == LeaderStep(m.ctx, m.role.l, map[], map[])
       else
         && m.ctx.peerIds != {}
         && response.memberId in m.role.l.score
         && r.l.lastContact == NoteContact(m.role.l.lastContact, response)
         && r.ctx.lease == RenewedLease(m.ctx, r.l.lastContact)
  }

  // Neither branch touches the identity, the term, the log, the lease or the contact times.
  ghost predicate Untouched(ctx: ContextView, l: LeaderView, r: LeaderStep) {
    && SameIdentity(ctx, r.ctx)
    && r.ctx.term == ctx.term && r.ctx.wal == ctx.wal
    && r.ctx.lastLogSlot == ctx.lastLogSlot && r.ctx.lastLogTerm == ctx.lastLogTerm
    && r.ctx.lease == ctx.lease
    && r.l.lastContact == l.lastContact && r.l.score.Keys == l.score.Keys
  }

  lemma SuccessFacts(ctx: ContextView, l: LeaderView, response: AcceptResponse)
    requires ctx.peerIds != {} && response.memberId in l.score
    ensures var r := OnSuccess(ctx, l, response); Untouched(ctx, l, r) && r.requests == map[]
  {}

  lemma ConflictFacts(ctx: ContextView, l: LeaderView, response: AcceptResponse, tSend: Time, now: Time)
    requires response.conflictHint.Some? && response.memberId in l.score && SendTime(tSend, now)
    requires AnchorPresent(ctx.wal, Reprobe(ctx.wal, l.score[response.memberId], response.conflictHint.value).pos)
    ensures var r := OnConflict(ctx, l, response, tSend);
      Untouched(ctx, l, r) && r.resolved == map[] && AllWellPosted(r, now)
  {}

  lemma AcceptReplyFacts(m: Member, response: AcceptResponse, tSend: Time, now: Time)
    requires m.role.Leading? && CanHandle(m.ctx, m.role.l, response) && SendTime(tSend, now)
    ensures AckFacts(m, response, OnAcceptResponse(m.ctx, m.role.l, response, tSend), now)
  {
    if !Disregards(m.ctx, response) {
      var contacts := NoteContact(m.role.l.lastContact, response);
      var ctx1 := m.ctx.(lease := RenewedLease(m.ctx, contacts));
      var l1 := m.role.l.(lastContact := contacts);
      if response.success { SuccessFacts(ctx1, l1, response); }
      else { ConflictFacts(ctx1, l1, response, tSend, now); }
    }
  }
}
