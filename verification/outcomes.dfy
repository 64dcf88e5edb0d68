/** What each handler's outcome means to the others: who is elected, what a refusal tells, whom a member follows after a
    message, what a leader sends next, and what a commit lets go of. */
module Outcomes {
  import opened Types
  import opened TrueTime
  import opened Wal
  import opened Quorums
  import opened Views
  import opened FollowerRole
  import opened LeaderRole
  import opened CandidateRole
  import opened PreCandidateRole
  import opened StateMachine
  import opened Group

  // ----- Clock and lease -----

  ghost predicate Wellformed(reading: TimeInterval) { UNIX_EPOCH <= reading.earliest <= reading.latest }

  /** A timestamp counts as past exactly when it is, and as ahead exactly when it is, at every true time that the
      clock's answer allows. */
  lemma ReadingsAreDefinite(t: Time, reading: TimeInterval)
    requires Wellformed(reading)
    ensures After(t, reading) <==> forall now :: ValidAt(reading, now) ==> t < now
    ensures Before(t, reading) <==> forall now :: ValidAt(reading, now) ==> now < t
  {
    assert ValidAt(reading, reading.earliest) && ValidAt(reading, reading.latest);
  }

  /** A lease is over exactly when there is none, or it is past at every true time that the reading allows. */
  lemma LeaseOverIff(ctx: ContextView, reading: TimeInterval)
    requires Wellformed(reading)
    ensures LeaseExpired(ctx, reading) <==>
      ctx.lease.None? || forall now :: ValidAt(reading, now) ==> ctx.lease.value < now
  {
    if ctx.lease.Some? { ReadingsAreDefinite(ctx.lease.value, reading); }
  }

  /** An extended lease lasts a full length from whatever true time the reading allows, and no longer than it takes for
      that. */
  lemma LeaseLastsFullLength(ctx: ContextView, reading: TimeInterval, expiry: Time)
    requires Wellformed(reading)
    ensures var lease := ExtendLease(ctx, reading).lease;
      lease.Some? && (lease.value <= expiry <==> forall now :: ValidAt(reading, now) ==> now + LEASE_LENGTH <= expiry)
  {
    assert ValidAt(reading, reading.latest);
  }

  // ----- Elections -----

  // Who counts once the response is on the board: the campaigner and everyone whose latest answer is a promise.
  ghost predicate AreVoters(voters: set<Id>, ctx: ContextView, c: CandidateView, response: VoteResponse) {
    forall j :: j in voters <==>
      || j == ctx.memberId
      || (j == response.memberId && response.outcome.Promise?)
      || (j != response.memberId && j in c.votes && c.votes[j].Some? && c.votes[j].value.outcome.Promise?)
  }

  // Everyone else has answered.
  ghost predicate AllAnswered(ctx: ContextView, c: CandidateView, j: Id) {
    forall k :: k in ctx.peerIds && k != j ==> k in c.votes && c.votes[k].Some?
  }

  /** What becomes of a campaign: it wins exactly when a majority of the group has voted for it while the lease that the
      votes gave still runs for sure; it gives up exactly when that lease may be over by then, or everyone has answered
      without a majority; otherwise it goes on with the answer on its board. A majority leaves the lease either way. */
  lemma CampaignOutcomeIff(ctx: ContextView, c: CandidateView, response: VoteResponse, reading: TimeInterval,
                           tSends: map<Id, Time>, group: set<Id>, voters: set<Id>)
    requires ctx.memberId in group && ctx.peerIds == group - {ctx.memberId} && c.votes.Keys == ctx.peerIds
    requires c.score.Keys == ctx.peerIds && response.memberId in ctx.peerIds && c.dispatched.Some?
    requires var c1 := RecordVote(ctx, c, response);
      Wins(c1, reading) ==> CanBroadcast(ElectedContext(ctx, c1), ElectedBoard(ctx, c1), tSends)
    requires AreVoters(voters, ctx, c, response)
    ensures var r, inTime := OnVoteResponse(ctx, c, response, reading, tSends),
                             reading.latest < c.dispatched.value + LEASE_LENGTH;
      && (r.Elected? <==> IsQuorum(group, voters) && inTime)
      && (r.GivenUp? <==>
            (IsQuorum(group, voters) && !inTime)
            || (!IsQuorum(group, voters) && AllAnswered(ctx, c, response.memberId)))
      && (r.Waiting? ==> r.c.votes == c.votes[response.memberId := Some(response)])
      && var lease := if IsQuorum(group, voters) then Some(c.dispatched.value + LEASE_LENGTH) else ctx.lease;
      && (r.GivenUp? ==> r.ctx == ctx.(lease := lease))
      && (r.Elected? ==> r.step.ctx.lease == lease)
  {
    BoardTells(ctx, c, response, group, voters);
  }

  lemma BoardTells(ctx: ContextView, c: CandidateView, response: VoteResponse, group: set<Id>, voters: set<Id>)
    requires ctx.memberId in group && ctx.peerIds == group - {ctx.memberId} && c.votes.Keys == ctx.peerIds
    requires c.score.Keys == ctx.peerIds && response.memberId in ctx.peerIds && AreVoters(voters, ctx, c, response)
    ensures var votes := RecordVote(ctx, c, response).votes;
      && votes == c.votes[response.memberId := Some(response)]
      && (HasVoteQuorum(votes) <==> IsQuorum(group, voters))
      && (HasAllVoteResponses(votes) <==> AllAnswered(ctx, c, response.memberId))
  {
    var votes := RecordVote(ctx, c, response).votes;
    assert votes.Keys == ctx.peerIds;
    assert Promisers(votes) + {ctx.memberId} == voters;
    MajorityIff(group, ctx.memberId, Promisers(votes), |votes|);
  }

  // The same count serves both boards: the campaigner's own vote is not on it.
  lemma MajorityIff(group: set<Id>, i: Id, granters: set<Id>, board: nat)
    requires i in group && granters <= group - {i} && board == |group - {i}|
    ensures |granters| + 1 >= (board + 1) / 2 + 1 <==> IsQuorum(group, granters + {i})
  {
    assert |granters + {i}| == |granters| + 1;
    assert |group - {i}| == |group| - 1;
  }

  ghost predicate AreGranters(granters: set<Id>, ctx: ContextView, p: PreCandidateView, response: PreVoteResponse) {
    forall j :: j in granters <==>
      || j == ctx.memberId
      || (j == response.memberId && response.voteGranted)
      || (j != response.memberId && j in p.board && p.board[j].Some? && p.board[j].value.voteGranted)
  }

  /** What becomes of a dry run: it turns into a campaign in the next term, counted from the clock's earliest bound,
      exactly when a majority of the group grants it, and is abandoned exactly when everyone has answered without one.
      */
  lemma DryRunOutcomeIff(ctx: ContextView, p: PreCandidateView, response: PreVoteResponse, reading: TimeInterval,
                         group: set<Id>, granters: set<Id>)
    requires ctx.memberId in group && ctx.peerIds == group - {ctx.memberId} && p.board.Keys == ctx.peerIds
    requires response.memberId in ctx.peerIds && AreGranters(granters, ctx, p, response)
    ensures var r := OnPreVoteResponse(ctx, p, response, reading);
      && (r.Promoted? <==> IsQuorum(group, granters))
      && (r.Abandoned? <==>
            (!IsQuorum(group, granters)
             && forall k :: k in ctx.peerIds && k != response.memberId ==> p.board[k].Some?))
      && (r.StillWaiting? ==> r.p.board == p.board[response.memberId := Some(response)])
      && (r.Promoted? ==> r.ctx == ctx.(term := ctx.term + 1) && r.c.dispatched == Some(reading.earliest))
  {
    var board := p.board[response.memberId := Some(response)];
    assert board.Keys == ctx.peerIds;
    assert Granters(board) + {ctx.memberId} == granters;
    MajorityIff(group, ctx.memberId, Granters(board), |board|);
  }

  /** A member that has granted a vote turns down every later request up to that term, naming the candidate that it
      voted for, and stays as it is. */
  lemma GrantIsRemembered(m: Member, first: VoteRequest, second: VoteRequest, roleCheck: TimeInterval,
                          check: TimeInterval, extend: TimeInterval, roleCheck': TimeInterval, check': TimeInterval,
                          extend': TimeInterval)
    requires ProcessVoteRequest(m, first, roleCheck, check, extend).response.outcome.Promise?
    requires second.term <= first.term
    ensures var voter := ProcessVoteRequest(m, first, roleCheck, check, extend).m;
      var r := ProcessVoteRequest(voter, second, roleCheck', check', extend');
      r.m == voter && r.response.outcome.Rejection? && r.response.outcome.votedForId == Some(first.memberId)
  {}

  // The member would not vote for the request, whatever its log: it has voted, its lease runs, or the term is not new.
  ghost predicate TurnedDownEarly(ctx: ContextView, f: FollowerView, request: VoteRequest, check: TimeInterval) {
    || (f.voteRecord.Some? && f.voteRecord.value.term >= request.term)
    || !LeaseExpired(ctx, check)
    || request.term <= ctx.term
  }

  /** What a refusal tells: always the leader known; the candidate voted for exactly when that vote is the reason; the
      own last term exactly when the log is the reason; the own last slot exactly when the term is no reason. */
  lemma RefusalTellsWhy(ctx: ContextView, f: FollowerView, request: VoteRequest, check: TimeInterval,
                        extend: TimeInterval)
    requires OnVoteRequest(ctx, f, request, check, extend).response.outcome.Rejection?
    ensures var r := OnVoteRequest(ctx, f, request, check, extend).response;
      var voted := f.voteRecord.Some? && f.voteRecord.value.term >= request.term;
      var early := TurnedDownEarly(ctx, f, request, check);
      && r.memberId == ctx.memberId && r.term == ctx.term
      && r.outcome.currentLeaderId == f.currentLeaderId
      && r.outcome.votedForId == (if voted then Some(f.voteRecord.value.candidateId) else None)
      && r.outcome.memberLastLogTerm == (if early then None else Some(ctx.lastLogTerm))
      && r.outcome.memberLastLogSlot
           == (if early || request.lastLogTerm < ctx.lastLogTerm then None else Some(ctx.lastLogSlot))
  {}

  /** A campaigner turns down requests up to its term as one that has voted for itself, a leader whose lease runs as the
      leader. */
  lemma BusyRolesTurnDown(m: Member, request: VoteRequest, roleCheck: TimeInterval, check: TimeInterval,
                          extend: TimeInterval)
    requires request.term <= m.ctx.term && !m.role.Following? && (m.role.Leading? ==> !LeaseExpired(m.ctx, roleCheck))
    ensures var r := ProcessVoteRequest(m, request, roleCheck, check, extend);
      && r.m == m && r.response.memberId == m.ctx.memberId && r.response.term == m.ctx.term
      && r.response.outcome == Rejection(
           if m.role.Leading? then Some(m.ctx.memberId) else None, None, None,
           if m.role.Campaigning? then Some(m.ctx.memberId) else None)
  {}

  // ----- Whom a member follows -----

  /** A follower that hears of a higher term follows its leader as before; whoever was no follower then follows nobody.
      Votes of the old term are forgotten, and nothing else changes. */
  lemma AdoptionKeepsLeader(m: Member, term: nat)
    ensures var r := AdoptTerm(m, term);
      && (term <= m.ctx.term ==> r == m)
      && (term > m.ctx.term ==>
            && r.ctx == m.ctx.(term := term) && r.role.Following? && r.role.f.voteRecord.None?
            && (m.role.Following? ==> r.role.f.currentLeaderId == m.role.f.currentLeaderId)
            && (!m.role.Following? ==> r.role.f.currentLeaderId.None?))
  {}

  // The member gives up its role for the sender of the request, judging it or not.
  predicate YieldsTo(m: Member, request: AcceptRequest, roleCheck: TimeInterval) {
    match m.role
    case Following(_) => false
    case Leading(_) => request.term <= m.ctx.term && LeaseExpired(m.ctx, roleCheck)
    case _ => request.term == m.ctx.term
  }

  /** Whom a member follows after an accept request: a follower, whom it followed, and it has forgotten its vote if the
      term rose; any other, nobody if the term rose, and the sender if it yields to it; otherwise it keeps its role. */
  lemma FollowsAfterRequest(m: Member, request: AcceptRequest, roleCheck: TimeInterval, check: TimeInterval,
                            extend: TimeInterval)
    ensures var r := ProcessAcceptRequest(m, request, roleCheck, check, extend).m;
      && (m.role.Following? ==> r.role == Following(FollowerView(m.role.f.currentLeaderId,
            if request.term > m.ctx.term then None else m.role.f.voteRecord)))
      && (!m.role.Following? ==>
            r.role == if request.term > m.ctx.term then Following(FollowerView(None, None))
                      else if YieldsTo(m, request, roleCheck) then Following(FollowerView(Some(request.leaderId), None))
                      else m.role)
  {}

  /** Whom a member follows after a vote request: with a higher term, whom it followed as a follower, and nobody
      otherwise, with the vote on record if it gave one; else, as before, but for a leader that finds its lease over. */
  lemma FollowsAfterVote(m: Member, request: VoteRequest, roleCheck: TimeInterval, check: TimeInterval,
                         extend: TimeInterval)
    ensures var r := ProcessVoteRequest(m, request, roleCheck, check, extend);
      && (request.term > m.ctx.term ==> r.m.role == Following(FollowerView(
            if m.role.Following? then m.role.f.currentLeaderId else None,
            if r.response.outcome.Promise? then Some(VoteRecord(request.term, request.memberId)) else None)))
      && (request.term <= m.ctx.term ==>
            r.m == Member(m.ctx, if m.role.Leading? && LeaseExpired(m.ctx, roleCheck)
                                 then Following(FollowerView(None, None)) else m.role))
  {}

  /** A leader whose lease is definitely over follows nobody afterwards; anyone else only loses the lease. */
  lemma ExpiryEndsLeadership(m: Member)
    ensures var r := ExpireLease(m);
      r.ctx == m.ctx.(lease := None)
      && r.role == if m.role.Leading? then Following(FollowerView(None, None)) else m.role
  {}

  // ----- Accepting -----

  /** Where an accepted request leaves the follower's position: with entries, at the last one that its log then holds,
      in slot and in term; without any, where it was. */
  lemma AcceptedPosition(ctx: ContextView, request: AcceptRequest)
    requires AnchorMatches(ctx.wal, request)
    ensures var next := Judge(ctx, request).ctx;
      && (request.entries == [] ==> next.lastLogSlot == ctx.lastLogSlot && next.lastLogTerm == ctx.lastLogTerm)
      && (request.entries != [] ==>
            && next.lastLogSlot == request.entries[|request.entries| - 1].slot
            && next.lastLogSlot in next.wal && next.wal[next.lastLogSlot].term == next.lastLogTerm)
  {
    if request.entries != [] { LastAppended(TruncateFrom(ctx.wal, request.prevLogSlot + 1), request.entries); }
  }

  lemma {:induction false} LastAppended(m: Log, es: seq<LogEntry>)
    requires es != []
    ensures var e := es[|es| - 1]; e.slot in AppendAll(m, es) && AppendAll(m, es)[e.slot] == e
    decreases |es|
  {
    if |es| > 1 { LastAppended(Append(m, es[0]), es[1..]); } else { assert es[1..] == []; }
  }

  // The slot through which the request lets the follower commit.
  function CommitBound(request: AcceptRequest): nat { Min(request.leaderCommitSlot, LastWritten(request)) }

  /** What an accepted request lets the follower read: with a new commit, up to the timestamp of the entry at the
      committed slot, if it has one; otherwise, with a minimum announced, up to a millisecond before it. Never less than
      before. */
  lemma AcceptedSafeTime(ctx: ContextView, request: AcceptRequest)
    requires AnchorMatches(ctx.wal, request)
    ensures var own, next := AppendAll(ctx.uncommitted, request.entries), Judge(ctx, request).ctx;
      && next.committedSlot == Max(ctx.committedSlot, CommitBound(request))
      && (CommitBound(request) > ctx.committedSlot && CommitBound(request) in own ==>
            RaisedTo(ctx.tSafe, next.tSafe, own[CommitBound(request)].timestamp))
      && (CommitBound(request) > ctx.committedSlot && CommitBound(request) !in own ==> next.tSafe == ctx.tSafe)
      && (CommitBound(request) <= ctx.committedSlot && request.minNextTs.Some? ==>
            RaisedTo(ctx.tSafe, next.tSafe, request.minNextTs.value - MILLISECOND))
      && (CommitBound(request) <= ctx.committedSlot && request.minNextTs.None? ==> next.tSafe == ctx.tSafe)
  {}

  // The later of the two times.
  ghost predicate RaisedTo(before: Option<Time>, after: Option<Time>, t: Time) {
    && after.Some? && after.value >= t && (before.Some? ==> after.value >= before.value)
    && (after.value == t || after == before)
  }

  /** Safe time rises to what is offered, and never falls. */
  lemma SafeTimeRises(ctx: ContextView, ts: Time)
    ensures RaisedTo(ctx.tSafe, AdvanceTSafe(ctx, ts).tSafe, ts)
    ensures AdvanceTSafe(ctx, ts) == ctx.(tSafe := AdvanceTSafe(ctx, ts).tSafe)
  {}

  /** Committing lets go of exactly the uncommitted entries up to the slot. */
  lemma CommitForgets(ctx: ContextView, slot: nat)
    ensures var next := CommitThrough(ctx, slot);
      && next.committedSlot == slot
      && (forall s :: s in next.uncommitted <==> s in ctx.uncommitted && s > slot)
      && (forall s :: s in next.uncommitted ==> next.uncommitted[s] == ctx.uncommitted[s])
      && (slot in ctx.uncommitted ==> RaisedTo(ctx.tSafe, next.tSafe, ctx.uncommitted[slot].timestamp))
      && (slot !in ctx.uncommitted ==> next.tSafe == ctx.tSafe)
  {}

  // ----- Contacts, and what a leader sends next -----

  /** The newest contact of the responder is kept, and everyone else's as it was. */
  lemma NewestContactKept(contacts: map<Id, Time>, response: AcceptResponse)
    ensures var j, r := response.memberId, NoteContact(contacts, response);
      && r.Keys == contacts.Keys + {j} && (forall k :: k in contacts && k != j ==> r[k] == contacts[k])
      && r[j] >= response.echoedTSend && (j in contacts ==> r[j] >= contacts[j])
      && (r[j] == response.echoedTSend || (j in contacts && r[j] == contacts[j]))
  {}

  /** After an acknowledgement the next request repeats nothing that is acknowledged, and nothing in flight beyond it
      but possibly its first slot. */
  lemma AcknowledgedMovesOn(p: Progress, slot: nat)
    ensures var q := Acknowledge(p, slot);
      && q.pos.matchSlot == slot && q.pos.nextSlot == slot + 1
      && slot <= Anchor(q.pos) <= Max(slot, p.pos.sentSlot)
      && (p.pos.sentSlot > slot + 1 ==> Anchor(q.pos) == p.pos.sentSlot)
  {}

  /** The timeout check drops the batches of exactly those followers whose oldest batch has waited for more than a
      minute; what they are sent next starts over at their next slot. */
  lemma TimeoutStartsOver(l: LeaderView, now: Time, j: Id)
    requires j in l.score
    ensures var p, r := l.score[j], OnAcceptTimeoutCheck(l, now);
      && r == l.(score := r.score) && r.score.Keys == l.score.Keys
      && var q := r.score[j];
      if p.batches != [] && p.batches[0].sentAt + 60_000 * MILLISECOND < now
      then q.batches == [] && q.pos == p.pos.(sentSlot := q.pos.sentSlot)
           && Anchor(q.pos) == (if p.pos.nextSlot == 0 then 0 else p.pos.nextSlot - 1)
      else q == p
  {}

  /** A flush sends to every follower exactly when writes are buffered, and leaves none buffered. */
  lemma FlushSendsIff(ctx: ContextView, l: LeaderView, tSends: map<Id, Time>)
    requires CanBroadcast(ctx, l, tSends)
    ensures var r := OnWriteFlush(ctx, l, tSends);
      r.ctx == ctx && r.l.pendingWrites == 0
      && r.requests.Keys == (if l.pendingWrites > 0 then l.score.Keys else {})
  {}

  /** A heartbeat announces one minimum to every follower, and lets the leader itself read up to a millisecond before
      it. */
  lemma HeartbeatReachesAll(ctx: ContextView, l: LeaderView, reading: TimeInterval, tSends: map<Id, Time>)
    requires CanBroadcast(ctx, l, tSends)
    ensures var r, ts := OnHeartbeat(ctx, l, reading, tSends), MinNextTs(ctx, reading);
      && r.requests.Keys == l.score.Keys && (forall j :: j in l.score ==> r.requests[j].minNextTs == Some(ts))
      && r.ctx == ctx.(tSafe := r.ctx.tSafe) && RaisedTo(ctx.tSafe, r.ctx.tSafe, ts - MILLISECOND)
      && r.l.pendingWrites == l.pendingWrites
  {}

  /** The minimum that a heartbeat announces is the latest that the leader can vouch for: the latest bound of its clock,
      but nothing beyond its lease. */
  lemma MinimumIsCapped(ctx: ContextView, reading: TimeInterval, ts: Time)
    ensures ts <= MinNextTs(ctx, reading) <==>
      ts <= reading.latest && (ctx.lease.Some? ==> ts <= ctx.lease.value)
  {}
}
