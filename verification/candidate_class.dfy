/** The candidate as the object that collects votes in place, and becomes a leader. */
module Candidates {
  import opened Types
  import opened TrueTime
  import opened Wal
  import opened Views
  import opened CandidateRole
  import LeaderRole
  import opened SharedContexts
  import opened Leaders

  // How a campaign goes on after a response.
  datatype CampaignOutcome = Continue | StepDown | Lead(leader: Leader)

  class Candidate {
    var voteBoard: map<Id, Option<VoteResponse>>
    var scoreBoard: map<Id, LogPosition>
    var voteDispatchTime: Option<Time>
    var pendingUncommittedLogs: Log

    ghost predicate Valid()
      reads this
    {
      WellKeyed(pendingUncommittedLogs)
    }

    ghost function View(): CandidateView
      reads this
    {
      CandidateView(voteBoard, scoreBoard, voteDispatchTime, pendingUncommittedLogs)
    }

    constructor (ctx: PaxosSharedContext)
      ensures Valid() && View() == NewCandidate(ctx.View())
    {
      voteBoard := map j | j in ctx.peerIds :: None;
      scoreBoard := map j | j in ctx.peerIds :: LogPosition(0, ctx.lastLogSlot + 1, 0);
      voteDispatchTime, pendingUncommittedLogs := None, map[];
    }

    // Records the dispatch time before any vote request leaves.
    method DispatchVote(ctx: PaxosSharedContext, reading: TimeInterval) returns (request: VoteRequest)
      modifies this
      ensures View() == old(View()).(dispatched := Some(reading.earliest))
      ensures request == CreateVote(ctx.View()) && Valid() == old(Valid())
    {
      voteDispatchTime := Some(reading.earliest);
      request := ctx.CreateVote();
    }

    method MergeUncommittedLogs(entries: seq<LogEntry>)
      requires Valid()
      modifies this
      ensures View() == old(View()).(pending := Merge(old(pendingUncommittedLogs), entries)) && Valid()
    {
      var k := 0;
      while k < |entries|
        invariant 0 <= k <= |entries|
        invariant Merge(pendingUncommittedLogs, entries[k..]) == Merge(old(pendingUncommittedLogs), entries)
        invariant View() == old(View()).(pending := pendingUncommittedLogs) && Valid()
      {
        var entry := entries[k];
        assert entries[k..][1..] == entries[k + 1..];
        if entry.slot !in pendingUncommittedLogs || entry.term > pendingUncommittedLogs[entry.slot].term {
          pendingUncommittedLogs := pendingUncommittedLogs[entry.slot := entry];
        }
        k := k + 1;
      }
    }

    method FlushUncommittedLogs(ctx: PaxosSharedContext)
      requires Valid() && ctx.Valid()
      modifies ctx
      ensures ctx.View() == Absorb(old(ctx.View()), View()) && ctx.Valid()
    {
      ghost var own, pending := ctx.uncommittedLogs, pendingUncommittedLogs;
      var left := pendingUncommittedLogs.Keys;
      while left != {}
        invariant left <= pending.Keys
        invariant ctx.View() == old(ctx.View()).(uncommitted := ctx.uncommittedLogs)
        invariant FlushedExcept(left, ctx.uncommittedLogs, pending, ctx.committedSlot, own)
        decreases |left|
      {
        var slot := MinOf(left);
        var entry := pendingUncommittedLogs[slot];
        if slot > ctx.committedSlot
           && (slot !in ctx.uncommittedLogs || entry.term > ctx.uncommittedLogs[slot].term) {
          ctx.uncommittedLogs := ctx.uncommittedLogs[slot := entry];
        }
        left := left - {slot};
      }
      AllFlushed(ctx.uncommittedLogs, pending, ctx.committedSlot, own);
    }

    // Notes the response on the boards, and what it promises.
    method RecordResponse(response: VoteResponse, ctx: PaxosSharedContext)
      requires Valid() && response.memberId in scoreBoard
      modifies this
      ensures View() == RecordVote(ctx.View(), old(View()), response) && Valid()
    {
      var j := response.memberId;
      voteBoard := voteBoard[j := Some(response)];
      match response.outcome
      case Promise(promisedTerm, promisedSlot, entries) =>
        if promisedTerm == ctx.lastLogTerm {
          var matchSlot := if promisedSlot <= ctx.lastLogSlot then promisedSlot else ctx.lastLogSlot;
          scoreBoard := scoreBoard[j := scoreBoard[j].(matchSlot := matchSlot)];
        }
        MergeUncommittedLogs(entries);
      case Rejection(_, _, _, _) =>
    }

    // Takes over as leader with what the quorum reported.
    method BecomeLeader(ctx: PaxosSharedContext, tSends: map<Id, Time>)
      returns (leader: Leader, requests: map<Id, AcceptRequest>)
      requires Valid() && ctx.Valid() && voteDispatchTime.Some?
      requires ctx.lease.expiry == Some(LeaseFromVote(View()))
      requires LeaderRole.CanBroadcast(ElectedContext(ctx.View(), View()), ElectedBoard(ctx.View(), View()), tSends)
      modifies ctx, ctx.wal
      ensures fresh(leader) && fresh(leader.scoreBoard.Values) && leader.Valid() && ctx.Valid()
      ensures LeaderRole.LeaderStep(ctx.View(), leader.View(), requests, map[])
        == LeaderRole.Broadcast(ElectedContext(old(ctx.View()), View()), ElectedBoard(old(ctx.View()), View()), tSends, None)
    {
      leader := new Leader(scoreBoard);
      assert ctx.View() == ctx.View().(lease := Some(LeaseFromVote(View())));
      FlushUncommittedLogs(ctx);
      requests := leader.ProcessUncommittedLogs(ctx, tSends);
    }

    method HandleVoteResponse(response: VoteResponse, ctx: PaxosSharedContext, reading: TimeInterval,
                              tSends: map<Id, Time>)
      returns (outcome: CampaignOutcome, requests: map<Id, AcceptRequest>)
      requires Valid() && ctx.Valid() && response.memberId in scoreBoard && voteDispatchTime.Some?
      requires var c1 := RecordVote(ctx.View(), View(), response);
        Wins(c1, reading) ==>
          LeaderRole.CanBroadcast(ElectedContext(ctx.View(), c1), ElectedBoard(ctx.View(), c1), tSends)
      modifies this, ctx, ctx.lease, ctx.wal
      ensures ctx.Valid() && Valid()
      ensures match OnVoteResponse(old(ctx.View()), old(View()), response, reading, tSends)
        case Waiting(c) => outcome.Continue? && View() == c && ctx.View() == old(ctx.View())
        case GivenUp(after) => outcome.StepDown? && ctx.View() == after
        case Elected(step) =>
          && outcome.Lead? && fresh(outcome.leader) && fresh(outcome.leader.scoreBoard.Values) && outcome.leader.Valid()
          && LeaderRole.LeaderStep(ctx.View(), outcome.leader.View(), requests, map[]) == step
    {
      requests := map[];
      RecordResponse(response, ctx);
      if HasVoteQuorum(voteBoard) {
        var leaseExpiry := voteDispatchTime.value + LEASE_LENGTH;
        ctx.UpdateLeaderLeaseExpiryTime(leaseExpiry);
        if !Before(leaseExpiry, reading) {
          return StepDown, map[];
        }
        var leader;
        leader, requests := BecomeLeader(ctx, tSends);
        return Lead(leader), requests;
      }
      if HasAllVoteResponses(voteBoard) {
        return StepDown, map[];
      }
      return Continue, map[];
    }
  }

  // `flushed` is the candidate's own log after all slots of `pending` but those in `left` have been flushed.
  ghost predicate FlushedExcept(left: set<nat>, flushed: Log, pending: Log, committed: nat, own: Log) {
    && (forall s :: s in flushed <==> s in own || (s in pending && s !in left && Flushes(pending, committed, own, s)))
    && WellKeyed(flushed)
    && (forall s :: s in flushed ==>
          flushed[s] == if s in pending && s !in left && Flushes(pending, committed, own, s) then pending[s] else own[s])
  }

  lemma AllFlushed(flushed: Log, pending: Log, committed: nat, own: Log)
    requires FlushedExcept({}, flushed, pending, committed, own)
    ensures flushed == Flush(pending, committed, own) && WellKeyed(flushed)
  {}
}
