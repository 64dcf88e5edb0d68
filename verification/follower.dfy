/** The follower: granting votes and accepting log entries. */
module FollowerRole {
  import opened Types
  import opened TrueTime
  import opened Wal
  import opened Views

  // ----- Votes -----

  datatype VoteAnswer = VoteAnswer(ctx: ContextView, f: FollowerView, response: VoteResponse)

  function Refuse(ctx: ContextView, f: FollowerView, term: Option<nat>, slot: Option<nat>, votedFor: Option<Id>)
    : VoteAnswer
  {
    VoteAnswer(ctx, f, VoteResponse(ctx.memberId, ctx.term, Rejection(f.currentLeaderId, term, slot, votedFor)))
  }

  // Everything that a grant needs.
  predicate MayGrant(ctx: ContextView, f: FollowerView, request: VoteRequest, check: TimeInterval) {
    && (f.voteRecord.Some? ==> f.voteRecord.value.term < request.term)
    && LeaseExpired(ctx, check)
    && request.term > ctx.term
    && request.lastLogTerm >= ctx.lastLogTerm
    && request.lastLogSlot >= ctx.lastLogSlot
  }

  function OnVoteRequest(
    ctx: ContextView, f: FollowerView, request: VoteRequest, check: TimeInterval, extend: TimeInterval)
    : (r: VoteAnswer)
    ensures r.response.outcome.Promise? <==> MayGrant(ctx, f, request, check)
    ensures r.response.outcome.Rejection? ==> r.ctx == ctx && r.f == f
    ensures r.response.outcome.Promise? ==>
      && r.response.outcome.lastLogTerm == ctx.lastLogTerm && r.response.outcome.lastLogSlot == ctx.lastLogSlot
      && r.response.outcome.uncommittedEntries == EntriesFrom(ctx.uncommitted, 0)
  {
    if f.voteRecord.Some? && f.voteRecord.value.term >= request.term then
      Refuse(ctx, f, None, None, Some(f.voteRecord.value.candidateId))
    else if !LeaseExpired(ctx, check) then
      Refuse(ctx, f, None, None, None)
    else if request.term <= ctx.term then
      Refuse(ctx, f, None, None, None)
    else if request.lastLogTerm < ctx.lastLogTerm then
      Refuse(ctx, f, Some(ctx.lastLogTerm), None, None)
    else if request.lastLogSlot < ctx.lastLogSlot then
      Refuse(ctx, f, Some(ctx.lastLogTerm), Some(ctx.lastLogSlot), None)
    else
      VoteAnswer(
        ExtendLease(ctx, extend),
        f.(voteRecord := Some(VoteRecord(request.term, request.memberId))),
        VoteResponse(ctx.memberId, ctx.term,
          Promise(ctx.lastLogTerm, ctx.lastLogSlot, EntriesFrom(ctx.uncommitted, 0))))
  }

  // ----- Accept requests -----

  datatype AcceptAnswer = AcceptAnswer(ctx: ContextView, response: AcceptResponse)

  // A request of an old term, outside a lease, or from a leader that is not the known one.
  predicate Ignores(ctx: ContextView, f: FollowerView, request: AcceptRequest, check: TimeInterval) {
    request.term < ctx.term || LeaseExpired(ctx, check) || f.currentLeaderId != Some(request.leaderId)
  }

  predicate ShortLog(wal: Log, request: AcceptRequest) {
    request.prevLogSlot > 0 && request.prevLogSlot !in wal
  }

  predicate TermMismatch(wal: Log, request: AcceptRequest) {
    request.prevLogSlot > 0 && request.prevLogSlot in wal
      && wal[request.prevLogSlot].term != request.prevLogTerm
  }

  predicate AnchorMatches(wal: Log, request: AcceptRequest) {
    request.prevLogSlot > 0 ==>
      request.prevLogSlot in wal && wal[request.prevLogSlot].term == request.prevLogTerm
  }

  function Rejected(ctx: ContextView, request: AcceptRequest, hint: Option<ConflictHint>): AcceptResponse {
    AcceptResponse(ctx.memberId, ctx.term, false, 0, hint, request.tSend)
  }

  function LastWritten(request: AcceptRequest): nat {
    if request.entries == [] then request.prevLogSlot else request.entries[|request.entries| - 1].slot
  }

  // Replaces everything after the anchor by the request's entries.
  function WriteEntries(ctx: ContextView, request: AcceptRequest): ContextView {
    var last := |request.entries| - 1;
    ctx.(
      wal := AppendAll(TruncateFrom(ctx.wal, request.prevLogSlot + 1), request.entries),
      uncommitted := AppendAll(ctx.uncommitted, request.entries),
      lastLogSlot := if last >= 0 then request.entries[last].slot else ctx.lastLogSlot,
      lastLogTerm := if last >= 0 then request.entries[last].term else ctx.lastLogTerm)
  }

  function LearnCommit(ctx: ContextView, request: AcceptRequest): ContextView {
    var slot := Min(request.leaderCommitSlot, LastWritten(request));
    if slot > ctx.committedSlot then CommitThrough(ctx, slot)
    else if request.minNextTs.Some? then AdvanceTSafe(ctx, request.minNextTs.value - MILLISECOND)
    else ctx
  }

  // The answer to a request that is not ignored, before the lease is extended.
  function Judge(ctx: ContextView, request: AcceptRequest): AcceptAnswer {
    if ShortLog(ctx.wal, request) then
      AcceptAnswer(ctx, Rejected(ctx, request, Some(ConflictHint(0, ctx.lastLogSlot + 1))))
    else if TermMismatch(ctx.wal, request) then
      var term := ctx.wal[request.prevLogSlot].term;
      AcceptAnswer(ctx,
        Rejected(ctx, request, Some(ConflictHint(term, LowestSlotForTerm(ctx.wal, term).value))))
    else
      AcceptAnswer(
        LearnCommit(WriteEntries(ctx, request), request),
        AcceptResponse(ctx.memberId, ctx.term, true, LastWritten(request), None, request.tSend))
  }

  function OnAcceptRequest(
    ctx: ContextView, f: FollowerView, request: AcceptRequest, check: TimeInterval, extend: TimeInterval)
    : AcceptAnswer
  {
    if Ignores(ctx, f, request, check) then AcceptAnswer(ctx, Rejected(ctx, request, None))
    else
      var a := Judge(ctx, request);
      a.(ctx := ExtendLease(a.ctx, extend))
  }
}
