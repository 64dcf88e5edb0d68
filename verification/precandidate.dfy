/** The pre-candidate: the dry run before a campaign. */
module PreCandidateRole {
  import opened Types
  import opened TrueTime
  import opened Views
  import opened CandidateRole

  function NewPreCandidate(ctx: ContextView): PreCandidateView {
    PreCandidateView(map j | j in ctx.peerIds :: None)
  }

  function Granters(board: map<Id, Option<PreVoteResponse>>): set<Id> {
    set j | j in board && board[j].Some? && board[j].value.voteGranted
  }

  predicate HasPreVoteQuorum(board: map<Id, Option<PreVoteResponse>>) {
    |Granters(board)| + 1 >= (|board| + 1) / 2 + 1
  }

  predicate HasAllPreVoteResponses(board: map<Id, Option<PreVoteResponse>>) {
    forall j :: j in board ==> board[j].Some?
  }

  datatype PreVoteResult =
    | StillWaiting(p: PreCandidateView)
    | Abandoned
    | Promoted(ctx: ContextView, c: CandidateView, request: VoteRequest)

  // The campaign that a quorum of pre-votes starts, in the next term.
  function Promote(ctx: ContextView, reading: TimeInterval): PreVoteResult {
    var next := ctx.(term := ctx.term + 1);
    Promoted(next, NewCandidate(ctx).(dispatched := Some(reading.earliest)), CreateVote(next))
  }

  function OnPreVoteResponse(ctx: ContextView, p: PreCandidateView, response: PreVoteResponse, reading: TimeInterval)
    : PreVoteResult
  {
    var board := p.board[response.memberId := Some(response)];
    if HasPreVoteQuorum(board) then Promote(ctx, reading)
    else if HasAllPreVoteResponses(board) then Abandoned
    else StillWaiting(PreCandidateView(board))
  }
}
