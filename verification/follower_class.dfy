/** The follower as the object whose handlers update it and the shared context in place. */
module Followers {
  import opened Types
  import opened TrueTime
  import opened Wal
  import opened Views
  import opened FollowerRole
  import opened SharedContexts

  class Follower {
    var currentLeaderId: Option<Id>
    var voteRecord: Option<VoteRecord>

    ghost function View(): FollowerView
      reads this
    {
      FollowerView(currentLeaderId, voteRecord)
    }

    constructor (leaderId: Option<Id>)
      ensures View() == FollowerView(leaderId, None)
    {
      currentLeaderId, voteRecord := leaderId, None;
    }

    method HandleVoteRequest(request: VoteRequest, ctx: PaxosSharedContext, check: TimeInterval, extend: TimeInterval)
      returns (response: VoteResponse)
      requires ctx.Valid()
      modifies this, ctx.lease
      ensures VoteAnswer(ctx.View(), View(), response) == OnVoteRequest(old(ctx.View()), old(View()), request, check, extend)
      ensures ctx.Valid()
    {
      if voteRecord.Some? && voteRecord.value.term >= request.term {
        return VoteResponse(ctx.memberId, ctx.term,
          Rejection(currentLeaderId, None, None, Some(voteRecord.value.candidateId)));
      }
      var expired := ctx.IsLeaderLeaseExpired(check);
      if !expired {
        return VoteResponse(ctx.memberId, ctx.term, Rejection(currentLeaderId, None, None, None));
      }
      if request.term <= ctx.term {
        return VoteResponse(ctx.memberId, ctx.term, Rejection(currentLeaderId, None, None, None));
      }
      if request.lastLogTerm < ctx.lastLogTerm {
        return VoteResponse(ctx.memberId, ctx.term, Rejection(currentLeaderId, Some(ctx.lastLogTerm), None, None));
      }
      if request.lastLogSlot < ctx.lastLogSlot {
        return VoteResponse(ctx.memberId, ctx.term,
          Rejection(currentLeaderId, Some(ctx.lastLogTerm), Some(ctx.lastLogSlot), None));
      }
      voteRecord := Some(VoteRecord(request.term, request.memberId));
      ctx.ExtendLeaderLeaseExpiryTime(extend);
      response := VoteResponse(ctx.memberId, ctx.term,
        Promise(ctx.lastLogTerm, ctx.lastLogSlot, EntriesFrom(ctx.uncommittedLogs, 0)));
    }

    // Writes the request's entries after its anchor, replacing whatever followed it.
    method ReplaceAfterAnchor(request: AcceptRequest, ctx: PaxosSharedContext) returns (lastWrittenSlot: nat)
      requires ctx.Valid()
      modifies ctx, ctx.wal
      ensures ctx.View() == WriteEntries(old(ctx.View()), request) && ctx.Valid()
      ensures lastWrittenSlot == LastWritten(request)
      ensures request.entries != [] ==>
        ctx.lastLogSlot == lastWrittenSlot && ctx.lastLogTerm == request.entries[|request.entries| - 1].term
    {
      ctx.wal.TruncateFrom(request.prevLogSlot + 1);
      lastWrittenSlot := request.prevLogSlot;
      ghost var cut := ctx.wal.entries;
      var k := 0;
      while k < |request.entries|
        invariant 0 <= k <= |request.entries|
        invariant ctx.Valid()
        invariant AppendAll(ctx.wal.entries, request.entries[k..]) == AppendAll(cut, request.entries)
        invariant AppendAll(ctx.uncommittedLogs, request.entries[k..]) == AppendAll(old(ctx.uncommittedLogs), request.entries)
        invariant lastWrittenSlot == if k == 0 then request.prevLogSlot else request.entries[k - 1].slot
        invariant ctx.View() == old(ctx.View()).(wal := ctx.wal.entries, uncommitted := ctx.uncommittedLogs)
      {
        var entry := request.entries[k];
        assert request.entries[k..][1..] == request.entries[k + 1..];
        ctx.wal.Append(entry);
        ctx.uncommittedLogs := ctx.uncommittedLogs[entry.slot := entry];
        lastWrittenSlot := entry.slot;
        k := k + 1;
      }
      if request.entries != [] {
        var last := request.entries[|request.entries| - 1];
        ctx.lastLogSlot, ctx.lastLogTerm := last.slot, last.term;
      }
    }

    // Advances the committed slot as far as the leader's, or at least the safe time.
    method LearnCommitted(request: AcceptRequest, lastWrittenSlot: nat, ctx: PaxosSharedContext)
      requires ctx.Valid() && lastWrittenSlot == LastWritten(request)
      modifies ctx
      ensures ctx.View() == LearnCommit(old(ctx.View()), request) && ctx.Valid()
    {
      var newCommittedSlot := if request.leaderCommitSlot <= lastWrittenSlot then request.leaderCommitSlot
                              else lastWrittenSlot;
      if newCommittedSlot > ctx.committedSlot {
        ctx.AdvanceCommitted(newCommittedSlot);
      } else if request.minNextTs.Some? {
        ctx.AdvanceTSafe(request.minNextTs.value - MILLISECOND);
      }
    }

    method HandleAcceptRequest(request: AcceptRequest, ctx: PaxosSharedContext, check: TimeInterval, extend: TimeInterval)
      returns (response: AcceptResponse)
      requires ctx.Valid()
      modifies ctx, ctx.lease, ctx.wal
      ensures AcceptAnswer(ctx.View(), response) == OnAcceptRequest(old(ctx.View()), View(), request, check, extend)
      ensures ctx.Valid()
    {
      if request.term < ctx.term {
        return AcceptResponse(ctx.memberId, ctx.term, false, 0, None, request.tSend);
      }
      var expired := ctx.IsLeaderLeaseExpired(check);
      if expired || currentLeaderId != Some(request.leaderId) {
        return AcceptResponse(ctx.memberId, ctx.term, false, 0, None, request.tSend);
      }
      if request.prevLogSlot > 0 && !ctx.wal.HasEntry(request.prevLogSlot) {
        response := AcceptResponse(ctx.memberId, ctx.term, false, 0, Some(ConflictHint(0, ctx.lastLogSlot + 1)),
                                   request.tSend);
      } else if request.prevLogSlot > 0 && ctx.wal.GetTerm(request.prevLogSlot).value != request.prevLogTerm {
        var localTerm := ctx.wal.GetTerm(request.prevLogSlot).value;
        var conflictFirstSlot := ctx.wal.FindLowestSlotForTerm(localTerm).value;
        response := AcceptResponse(ctx.memberId, ctx.term, false, 0,
                                   Some(ConflictHint(localTerm, conflictFirstSlot)), request.tSend);
      } else {
        var lastWrittenSlot := ReplaceAfterAnchor(request, ctx);
        LearnCommitted(request, lastWrittenSlot, ctx);
        response := AcceptResponse(ctx.memberId, ctx.term, true, lastWrittenSlot, None, request.tSend);
      }
      ctx.ExtendLeaderLeaseExpiryTime(extend);
    }
  }
}
