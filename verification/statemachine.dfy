/** How a member processes one event: adopting the term, stepping down, dispatching to its role. */
module StateMachine {
  import opened Types
  import opened TrueTime
  import opened Views
  import opened FollowerRole

  datatype VoteOutcomeAt = VoteOutcomeAt(m: Member, response: VoteResponse)

  function RejectVote(ctx: ContextView, leader: Option<Id>, votedFor: Option<Id>): VoteResponse {
    VoteResponse(ctx.memberId, ctx.term, Rejection(leader, None, None, votedFor))
  }

  // A vote request reaching a member whose term it does not exceed.
  function DispatchVoteRequest(m: Member, request: VoteRequest, roleCheck: TimeInterval, check: TimeInterval,
                               extend: TimeInterval): VoteOutcomeAt
  {
    match m.role
    case Following(f) =>
      var a := OnVoteRequest(m.ctx, f, request, check, extend);
      VoteOutcomeAt(Member(a.ctx, Following(a.f)), a.response)
    case PreCampaigning(_) =>
      VoteOutcomeAt(m, RejectVote(m.ctx, None, None))
    case Campaigning(_) =>
      VoteOutcomeAt(m, RejectVote(m.ctx, None, Some(m.ctx.memberId)))
    case Leading(_) =>
      if LeaseExpired(m.ctx, roleCheck) then
        var a := OnVoteRequest(m.ctx, FRESH_FOLLOWER, request, check, extend);
        VoteOutcomeAt(Member(a.ctx, Following(a.f)), a.response)
      else VoteOutcomeAt(m, RejectVote(m.ctx, Some(m.ctx.memberId), None))
  }

  /** The vote step as intended: step down, decide against the old term, then raise the term. */
  function ProcessVoteRequest(m: Member, request: VoteRequest, roleCheck: TimeInterval, check: TimeInterval,
                              extend: TimeInterval): VoteOutcomeAt
  {
    if request.term > m.ctx.term then
      var a := OnVoteRequest(m.ctx, FollowerView(KnownLeader(m.role), None), request, check, extend);
      VoteOutcomeAt(Member(a.ctx.(term := request.term), Following(a.f)), a.response)
    else DispatchVoteRequest(m, request, roleCheck, check, extend)
  }

  /** The vote step exactly as the event loop composes it: the term is raised before the handler runs. */
  function ProcessVoteRequestAsComposed(m: Member, request: VoteRequest, roleCheck: TimeInterval,
                                        check: TimeInterval, extend: TimeInterval): VoteOutcomeAt
  {
    DispatchVoteRequest(AdoptTerm(m, request.term), request, roleCheck, check, extend)
  }

  // As composed, no member ever grants a vote: raising the term first makes every request stale.
  lemma ComposedNeverPromises(m: Member, request: VoteRequest, roleCheck: TimeInterval, check: TimeInterval,
                              extend: TimeInterval)
    ensures ProcessVoteRequestAsComposed(m, request, roleCheck, check, extend).response.outcome.Rejection?
  {
    assert AdoptTerm(m, request.term).ctx.term >= request.term;
  }

  // As intended, a member grants exactly when the request's term, log and the lease allow it.
  lemma IntendedPromisesExactlyWhen(m: Member, request: VoteRequest, roleCheck: TimeInterval, check: TimeInterval,
                                    extend: TimeInterval)
    ensures ProcessVoteRequest(m, request, roleCheck, check, extend).response.outcome.Promise? <==>
      && request.term > m.ctx.term
      && LeaseExpired(m.ctx, check)
      && request.lastLogTerm >= m.ctx.lastLogTerm
      && request.lastLogSlot >= m.ctx.lastLogSlot
  {}

  datatype AcceptOutcomeAt = AcceptOutcomeAt(m: Member, response: Option<AcceptResponse>)

  function FollowAndAccept(ctx: ContextView, f: FollowerView, request: AcceptRequest, check: TimeInterval,
                           extend: TimeInterval): AcceptOutcomeAt
  {
    var a := OnAcceptRequest(ctx, f, request, check, extend);
    AcceptOutcomeAt(Member(a.ctx, Following(f)), Some(a.response))
  }

  function ProcessAcceptRequest(m0: Member, request: AcceptRequest, roleCheck: TimeInterval, check: TimeInterval,
                                extend: TimeInterval): AcceptOutcomeAt
  {
    var m := AdoptTerm(m0, request.term);
    match m.role
    case Following(f) => FollowAndAccept(m.ctx, f, request, check, extend)
    case Leading(_) =>
      if LeaseExpired(m.ctx, roleCheck)
      then FollowAndAccept(m.ctx, FollowerView(Some(request.leaderId), None), request, check, extend)
      else AcceptOutcomeAt(m, None)
    case _ =>
      if request.term < m.ctx.term
      then AcceptOutcomeAt(m, Some(Rejected(m.ctx, request, None)))
      else FollowAndAccept(m.ctx, FollowerView(Some(request.leaderId), None), request, check, extend)
  }

  // The lease is definitely over: the watcher clears it, and a leader steps down.
  function ExpireLease(m: Member): Member {
    Member(m.ctx.(lease := None), if m.role.Leading? then Following(FRESH_FOLLOWER) else m.role)
  }
}
