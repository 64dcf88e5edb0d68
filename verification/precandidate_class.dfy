/** The pre-candidate as the object that collects pre-votes in place, and starts a campaign. */
module PreCandidates {
  import opened Types
  import opened TrueTime
  import opened Views
  import opened PreCandidateRole
  import opened SharedContexts
  import opened Candidates

  // How the dry run goes on after a response.
  datatype DryRunOutcome = KeepWaiting | Abandon | Campaign(candidate: Candidate, request: VoteRequest)

  class PreCandidate {
    var preVoteBoard: map<Id, Option<PreVoteResponse>>

    ghost function View(): PreCandidateView
      reads this
    {
      PreCandidateView(preVoteBoard)
    }

    constructor (ctx: PaxosSharedContext)
      ensures View() == NewPreCandidate(ctx.View())
    {
      preVoteBoard := map j | j in ctx.peerIds :: None;
    }

    method UpdatePreVoteBoard(response: PreVoteResponse)
      modifies this
      ensures preVoteBoard == old(preVoteBoard)[response.memberId := Some(response)]
    {
      preVoteBoard := preVoteBoard[response.memberId := Some(response)];
    }

    method HandlePreVoteResponse(response: PreVoteResponse, ctx: PaxosSharedContext, reading: TimeInterval)
      returns (outcome: DryRunOutcome)
      requires ctx.Valid()
      modifies this, ctx
      ensures ctx.Valid()
      ensures match OnPreVoteResponse(old(ctx.View()), old(View()), response, reading)
        case StillWaiting(p) => outcome.KeepWaiting? && View() == p && ctx.View() == old(ctx.View())
        case Abandoned => outcome.Abandon? && ctx.View() == old(ctx.View())
        case Promoted(after, c, request) =>
          && outcome.Campaign? && fresh(outcome.candidate) && outcome.candidate.Valid()
          && ctx.View() == after && outcome.candidate.View() == c && outcome.request == request
    {
      UpdatePreVoteBoard(response);
      if HasPreVoteQuorum(preVoteBoard) {
        var candidate := new Candidate(ctx);
        ctx.IncrementCurrentTerm();
        var request := candidate.DispatchVote(ctx, reading);
        return Campaign(candidate, request);
      }
      if HasAllPreVoteResponses(preVoteBoard) {
        return Abandon;
      }
      return KeepWaiting;
    }
  }
}
