/** A member's state machine over its role objects: adopting terms, stepping down, dispatching. */
module PaxosStates {
  import opened Types
  import opened TrueTime
  import opened Views
  import PreCandidateRole
  import StateMachine
  import opened SharedContexts
  import opened Followers
  import opened PreCandidates
  import opened Candidates
  import opened Leaders

  datatype PaxosState =
    | AsFollower(follower: Follower)
    | AsPreCandidate(preCandidate: PreCandidate)
    | AsCandidate(candidate: Candidate)
    | AsLeader(leader: Leader)
  {
    // The objects that hold the role's state.
    ghost function Repr(): set<object> {
      match this
      case AsFollower(f) => {f}
      case AsPreCandidate(p) => {p}
      case AsCandidate(c) => {c}
      case AsLeader(l) => {l} + l.scoreBoard.Values
    }

    ghost function View(): Role
      reads Repr()
    {
      match this
      case AsFollower(f) => Following(f.View())
      case AsPreCandidate(p) => PreCampaigning(p.View())
      case AsCandidate(c) => Campaigning(c.View())
      case AsLeader(l) => Leading(l.View())
    }

    method GetLeaderId() returns (leaderId: Option<Id>)
      ensures leaderId == KnownLeader(View())
    {
      if AsFollower? { return follower.currentLeaderId; }
      return None;
    }
  }

  ghost function MemberOf(state: PaxosState, ctx: PaxosSharedContext): Member
    reads ctx, ctx.lease, ctx.wal, state.Repr()
  {
    Member(ctx.View(), state.View())
  }

  // A higher term is adopted at once, and forces the member to follow whom it knows to lead.
  method AdoptHigherTerm(state: PaxosState, term: nat, ctx: PaxosSharedContext) returns (next: PaxosState)
    requires ctx.Valid()
    modifies ctx
    ensures MemberOf(next, ctx) == AdoptTerm(old(MemberOf(state, ctx)), term)
    ensures old(state.View()).Following? ==>
      next.View().Following? && next.View().f.currentLeaderId == old(state.View()).f.currentLeaderId
    ensures ctx.Valid() && (next == state || fresh(next.Repr()))
  {
    if term <= ctx.term { return state; }
    ctx.SetCurrentTerm(term);
    var leaderId := state.GetLeaderId();
    var follower := new Follower(leaderId);
    return AsFollower(follower);
  }

  // ----- Vote requests -----

  method DispatchVoteRequest(state: PaxosState, request: VoteRequest, ctx: PaxosSharedContext,
                             roleCheck: TimeInterval, check: TimeInterval, extend: TimeInterval)
    returns (next: PaxosState, response: VoteResponse)
    requires ctx.Valid()
    modifies state.Repr(), ctx.lease
    ensures StateMachine.VoteOutcomeAt(MemberOf(next, ctx), response)
      == StateMachine.DispatchVoteRequest(old(MemberOf(state, ctx)), request, roleCheck, check, extend)
    ensures ctx.Valid() && (next == state || fresh(next.Repr()))
  {
    match state
    case AsFollower(follower) =>
      response := follower.HandleVoteRequest(request, ctx, check, extend);
      return state, response;
    case AsPreCandidate(_) =>
      return state, VoteResponse(ctx.memberId, ctx.term, Rejection(None, None, None, None));
    case AsCandidate(_) =>
      return state, VoteResponse(ctx.memberId, ctx.term, Rejection(None, None, None, Some(ctx.memberId)));
    case AsLeader(_) =>
      var expired := ctx.IsLeaderLeaseExpired(roleCheck);
      if !expired {
        return state, VoteResponse(ctx.memberId, ctx.term, Rejection(Some(ctx.memberId), None, None, None));
      }
      var follower := new Follower(None);
      response := follower.HandleVoteRequest(request, ctx, check, extend);
      return AsFollower(follower), response;
  }

  /** The vote step as intended: a higher term makes the member follow, the request is decided against the old
      term, and only then is the term raised. */
  method ProcessVoteRequest(state: PaxosState, request: VoteRequest, ctx: PaxosSharedContext,
                            roleCheck: TimeInterval, check: TimeInterval, extend: TimeInterval)
    returns (next: PaxosState, response: VoteResponse)
    requires ctx.Valid()
    modifies state.Repr(), ctx, ctx.lease
    ensures StateMachine.VoteOutcomeAt(MemberOf(next, ctx), response)
      == StateMachine.ProcessVoteRequest(old(MemberOf(state, ctx)), request, roleCheck, check, extend)
    ensures ctx.Valid() && (next == state || fresh(next.Repr()))
  {
    if request.term > ctx.term {
      var leaderId := state.GetLeaderId();
      var follower := new Follower(leaderId);
      response := follower.HandleVoteRequest(request, ctx, check, extend);
      ctx.SetCurrentTerm(request.term);
      return AsFollower(follower), response;
    }
    next, response := DispatchVoteRequest(state, request, ctx, roleCheck, check, extend);
  }

  /** The vote step as the event loop composes it: the term is raised first. */
  method ProcessVoteRequestAsComposed(state: PaxosState, request: VoteRequest, ctx: PaxosSharedContext,
                                      roleCheck: TimeInterval, check: TimeInterval, extend: TimeInterval)
    returns (next: PaxosState, response: VoteResponse)
    requires ctx.Valid()
    modifies state.Repr(), ctx, ctx.lease
    ensures StateMachine.VoteOutcomeAt(MemberOf(next, ctx), response)
      == StateMachine.ProcessVoteRequestAsComposed(old(MemberOf(state, ctx)), request, roleCheck, check, extend)
    ensures response.outcome.Rejection?
    ensures ctx.Valid() && (next == state || fresh(next.Repr()))
  {
    StateMachine.ComposedNeverPromises(MemberOf(state, ctx), request, roleCheck, check, extend);
    next := AdoptHigherTerm(state, request.term, ctx);
    next, response := DispatchVoteRequest(next, request, ctx, roleCheck, check, extend);
  }

  // ----- Accept requests -----

  // Follows the sender and lets the follower handle the request.
  method FollowAndAccept(request: AcceptRequest, ctx: PaxosSharedContext, check: TimeInterval, extend: TimeInterval)
    returns (next: PaxosState, response: AcceptResponse)
    requires ctx.Valid()
    modifies ctx, ctx.lease, ctx.wal
    ensures StateMachine.AcceptOutcomeAt(MemberOf(next, ctx), Some(response))
      == StateMachine.FollowAndAccept(old(ctx.View()), FollowerView(Some(request.leaderId), None), request, check, extend)
    ensures ctx.Valid() && fresh(next.Repr())
  {
    var follower := new Follower(Some(request.leaderId));
    response := follower.HandleAcceptRequest(request, ctx, check, extend);
    return AsFollower(follower), response;
  }

  method DispatchAcceptRequest(state: PaxosState, request: AcceptRequest, ctx: PaxosSharedContext,
                               roleCheck: TimeInterval, check: TimeInterval, extend: TimeInterval)
    returns (next: PaxosState, response: Option<AcceptResponse>)
    requires ctx.Valid() && request.term <= ctx.term
    modifies state.Repr(), ctx, ctx.lease, ctx.wal
    ensures StateMachine.AcceptOutcomeAt(MemberOf(next, ctx), response)
      == StateMachine.ProcessAcceptRequest(old(MemberOf(state, ctx)), request, roleCheck, check, extend)
    ensures ctx.Valid() && (next == state || fresh(next.Repr()))
  {
    var answer;
    match state
    case AsFollower(follower) =>
      answer := follower.HandleAcceptRequest(request, ctx, check, extend);
      return state, Some(answer);
    case AsLeader(_) =>
      var expired := ctx.IsLeaderLeaseExpired(roleCheck);
      if !expired { return state, None; }
      next, answer := FollowAndAccept(request, ctx, check, extend);
      return next, Some(answer);
    case _ =>
      if request.term < ctx.term {
        return state, Some(AcceptResponse(ctx.memberId, ctx.term, false, 0, None, request.tSend));
      }
      next, answer := FollowAndAccept(request, ctx, check, extend);
      return next, Some(answer);
  }

  method ProcessAcceptRequest(state: PaxosState, request: AcceptRequest, ctx: PaxosSharedContext,
                              roleCheck: TimeInterval, check: TimeInterval, extend: TimeInterval)
    returns (next: PaxosState, response: Option<AcceptResponse>)
    requires ctx.Valid()
    modifies state.Repr(), ctx, ctx.lease, ctx.wal
    ensures StateMachine.AcceptOutcomeAt(MemberOf(next, ctx), response)
      == StateMachine.ProcessAcceptRequest(old(MemberOf(state, ctx)), request, roleCheck, check, extend)
    ensures ctx.Valid() && (next == state || fresh(next.Repr()))
  {
    next := AdoptHigherTerm(state, request.term, ctx);
    next, response := DispatchAcceptRequest(next, request, ctx, roleCheck, check, extend);
  }

  // ----- Timers -----

  // A follower whose lease is over starts a dry run when its election countdown ends.
  method HandleElectionCountdown(follower: Follower, ctx: PaxosSharedContext, reading: TimeInterval)
    returns (next: PaxosState)
    ensures next.View() == if LeaseExpired(ctx.View(), reading) then PreCampaigning(PreCandidateRole.NewPreCandidate(ctx.View()))
                           else Following(follower.View())
    ensures next == AsFollower(follower) || fresh(next.Repr())
  {
    var expired := ctx.IsLeaderLeaseExpired(reading);
    if !expired { return AsFollower(follower); }
    var preCandidate := new PreCandidate(ctx);
    return AsPreCandidate(preCandidate);
  }
}
