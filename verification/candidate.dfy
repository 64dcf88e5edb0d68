/** The candidate: collecting promises and taking over as leader. */
module CandidateRole {
  import opened Types
  import opened TrueTime
  import opened Views
  import opened LeaderRole

  function NewCandidate(ctx: ContextView): CandidateView {
    CandidateView(
      map j | j in ctx.peerIds :: None,
      map j | j in ctx.peerIds :: LogPosition(0, ctx.lastLogSlot + 1, 0),
      None,
      map[])
  }

  // The members whose recorded answer is a promise.
  function Promisers(votes: map<Id, Option<VoteResponse>>): set<Id> {
    set j | j in votes && votes[j].Some? && votes[j].value.outcome.Promise?
  }

  // Counts the candidate's own vote, which is not on the board.
  predicate HasVoteQuorum(votes: map<Id, Option<VoteResponse>>) {
    |Promisers(votes)| + 1 >= (|votes| + 1) / 2 + 1
  }

  predicate HasAllVoteResponses(votes: map<Id, Option<VoteResponse>>) {
    forall j :: j in votes ==> votes[j].Some?
  }

  // ----- Uncommitted entries -----

  // Keeps the entry of the higher term; the one already there wins a tie.
  function MergeEntry(pending: Log, e: LogEntry): Log {
    if e.slot !in pending || e.term > pending[e.slot].term then pending[e.slot := e] else pending
  }

  function Merge(pending: Log, entries: seq<LogEntry>): Log
    decreases |entries|
  {
    if entries == [] then pending else Merge(MergeEntry(pending, entries[0]), entries[1..])
  }

  // The slot of `pending` that replaces or extends the candidate's own log.
  predicate Flushes(pending: Log, committed: nat, own: Log, s: nat) {
    s in pending && s > committed && (s in own ==> pending[s].term > own[s].term)
  }

  function Flush(pending: Log, committed: nat, own: Log): Log {
    own + map s | s in pending && Flushes(pending, committed, own, s) :: pending[s]
  }

  // ----- Vote responses -----

  datatype VoteResult =
    | Waiting(c: CandidateView)
    | GivenUp(ctx: ContextView)
    | Elected(step: LeaderStep)

  function SeedMatch(ctx: ContextView, score: map<Id, LogPosition>, response: VoteResponse): map<Id, LogPosition>
    requires response.memberId in score
  {
    var j := response.memberId;
    if response.outcome.Promise? && response.outcome.lastLogTerm == ctx.lastLogTerm
    then score[j := score[j].(matchSlot := Min(response.outcome.lastLogSlot, ctx.lastLogSlot))]
    else score
  }

  function RecordVote(ctx: ContextView, c: CandidateView, response: VoteResponse): CandidateView
    requires response.memberId in c.score
  {
    c.(
      votes := c.votes[response.memberId := Some(response)],
      score := SeedMatch(ctx, c.score, response),
      pending := if response.outcome.Promise? then Merge(c.pending, response.outcome.uncommittedEntries) else c.pending)
  }

  // The context after the winner has merged what the quorum reported.
  function Absorb(ctx: ContextView, c: CandidateView): ContextView {
    ctx.(uncommitted := Flush(c.pending, ctx.committedSlot, ctx.uncommitted))
  }

  function LeaseFromVote(c: CandidateView): Time
    requires c.dispatched.Some?
  {
    c.dispatched.value + LEASE_LENGTH
  }

  predicate Wins(c: CandidateView, reading: TimeInterval)
    requires c.dispatched.Some?
  {
    HasVoteQuorum(c.votes) && Before(LeaseFromVote(c), reading)
  }

  // The winner's context once it has taken over, and its board before the first broadcast.
  function ElectedContext(ctx: ContextView, c: CandidateView): ContextView
    requires c.dispatched.Some?
  {
    TakeOver(Absorb(ctx.(lease := Some(LeaseFromVote(c))), c))
  }

  function ElectedBoard(ctx: ContextView, c: CandidateView): LeaderView
    requires c.dispatched.Some?
  {
    PointPastLast(NewLeader(c.score), ElectedContext(ctx, c))
  }

  function OnVoteResponse(
    ctx: ContextView, c: CandidateView, response: VoteResponse, reading: TimeInterval, tSends: map<Id, Time>)
    : VoteResult
    requires response.memberId in c.score && c.dispatched.Some?
    requires var c1 := RecordVote(ctx, c, response);
      Wins(c1, reading) ==> CanBroadcast(ElectedContext(ctx, c1), ElectedBoard(ctx, c1), tSends)
  {
    var c1 := RecordVote(ctx, c, response);
    if HasVoteQuorum(c1.votes) then
      if !Before(LeaseFromVote(c1), reading) then GivenUp(ctx.(lease := Some(LeaseFromVote(c1))))
      else Elected(Broadcast(ElectedContext(ctx, c1), ElectedBoard(ctx, c1), tSends, None))
    else if HasAllVoteResponses(c1.votes) then GivenUp(ctx)
    else Waiting(c1)
  }
}
