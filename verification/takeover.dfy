/** What stale requests do to elections: winners whose log has a gap or ends below their committed slot, and what
    becomes of client writes at such leaders. */
module Takeovers {
  import opened Types
  import opened TrueTime
  import opened Wal
  import opened Views
  import opened FollowerRole
  import opened LeaderRole
  import opened CandidateRole
  import opened PreCandidateRole
  import opened StateMachine
  import opened Group
  import opened Facts
  import opened ElectionSafety
  import opened LogMatching
  import opened EntryMerge
  import opened ClientWrites

  // The log reaches the committed slot.
  predicate ReachesCommitted(ctx: ContextView) { ctx.committedSlot <= ctx.lastLogSlot }

  /** A winner's log reaches its committed slot exactly when something that it takes over does, or when it takes
      nothing over and its log reached it before. */
  lemma TakeoverReachesCommittedIff(ctx: ContextView, c: CandidateView)
    requires c.dispatched.Some?
    ensures ReachesCommitted(ElectedContext(ctx, c)) <==>
      || (exists s :: s in c.pending && s > ctx.committedSlot)
      || (exists s :: s in ctx.uncommitted && s >= ctx.committedSlot)
      || (ctx.uncommitted == map[] && ReachesCommitted(ctx))
  {
    var own := Inherited(ctx, c);
    assert Restamp(own, ctx.term).Keys == own.Keys;
    forall s | s in c.pending && s > ctx.committedSlot ensures s in own {
      if s !in ctx.uncommitted { assert Flushes(c.pending, ctx.committedSlot, ctx.uncommitted, s); }
    }
    if own == map[] {
      assert ctx.uncommitted.Keys <= own.Keys;
    } else {
      assert Top(Restamp(own, ctx.term)) in own;
    }
  }

  // A request that a leader of term 1 sent to `id` when its log had six slots.
  function StaleSent(id: Id, leaderId: Id, peers: set<Id>, t: Time): Sent {
    Sent(id, AcceptRequest(1, leaderId, 5, 1, [LogEntry(1, 6, "", 0)], 0, t, None),
         ContextView(leaderId, peers, 1, None, None, 1, 6, 0, OneTermLog(1, 6), OneTermLog(1, 6)), 0)
  }

  /** How a log comes to end below the committed slot, and a client write to be filed at a committed one: a follower
      that has committed its nine slots accepts a request that its leader sent when the log had six, and wins the next
      term on a promise that reports nothing. */
  lemma StaleAcceptReusesCommittedSlot(
    id: Id, leaderId: Id, peers: set<Id>, t: Time, c: CandidateView, l: LeaderView, command: nat, reading: TimeInterval)
    requires c.dispatched.Some? && c.pending == map[]
    ensures
      var logs: map<nat, Log> := map[1 := OneTermLog(1, 9)];
      var before := ContextView(id, peers, 1, None, None, 1, 9, 9, map[], OneTermLog(1, 9));
      var sent := StaleSent(id, leaderId, peers, t);
      var answer := Judge(before, sent.request);
      var winner := ElectedContext(answer.ctx.(term := 2), c);
      && ContextOK(before, logs) && SentOK(sent, logs)
      && answer.response.success && answer.ctx.wal == OneTermLog(1, 6)
      && winner.lastLogSlot == 6 && winner.committedSlot == 9
      && 7 in OnClientWrite(winner, l, command, "", reading).l.inFlight
  {
    var before := ContextView(id, peers, 1, None, None, 1, 9, 9, map[], OneTermLog(1, 9));
    var request := StaleSent(id, leaderId, peers, t).request;
    StaleAcceptCuts(before, request);
    StaleSentOK(id, leaderId, peers, t);
    var ctx := Judge(before, request).ctx.(term := 2);
    assert ctx.uncommitted.Keys == {6};
    assert Inherited(ctx, c) == ctx.uncommitted;
    assert Restamp(ctx.uncommitted, 2).Keys == {6};
  }

  lemma StaleAcceptCuts(before: ContextView, request: AcceptRequest)
    requires before.wal == OneTermLog(1, 9)
    requires request.prevLogSlot == 5 && request.prevLogTerm == 1 && request.minNextTs.None?
    requires request.entries == [LogEntry(1, 6, "", 0)] && request.leaderCommitSlot == 0
    ensures var answer := Judge(before, request);
      && answer.response.success && answer.ctx.lastLogTerm == 1
      && answer.ctx == before.(wal := OneTermLog(1, 6), lastLogSlot := 6, lastLogTerm := 1,
                               uncommitted := before.uncommitted[6 := LogEntry(1, 6, "", 0)])
  {
    var e := LogEntry(1, 6, "", 0);
    assert AppendAll(TruncateFrom(OneTermLog(1, 9), 6), [e]) == OneTermLog(1, 6);
    assert AppendAll(before.uncommitted, [e]) == before.uncommitted[6 := e];
  }

  /** How a takeover leaves a gap: a voter that has committed seven of its nine slots accepts the same stale request,
      and then promises to a candidate whose log ends at six, reporting the slots eight and nine that it never
      dropped. */
  lemma StaleAcceptOpensGap(
    heirId: Id, id: Id, leaderId: Id, peers: set<Id>, t: Time, c: CandidateView, check: TimeInterval,
    extend: TimeInterval)
    requires c.dispatched.Some? && c.pending == map[] && id in c.score
    ensures
      var logs: map<nat, Log> := map[1 := OneTermLog(1, 9)];
      var before := ContextView(id, peers, 1, None, None, 1, 9, 7, Above(OneTermLog(1, 9), 7), OneTermLog(1, 9));
      var sent := StaleSent(id, leaderId, peers, t);
      var answer := Judge(before, sent.request);
      var heir := ContextView(heirId, peers, 2, None, None, 1, 6, 5, Above(OneTermLog(1, 6), 5), OneTermLog(1, 6));
      var promise := OnVoteRequest(answer.ctx, FRESH_FOLLOWER, CreateVote(heir), check, extend).response;
      var winner := ElectedContext(heir, RecordVote(heir, c, promise));
      && ContextOK(before, logs) && ContextOK(heir, logs) && SentOK(sent, logs)
      && answer.response.success && promise.outcome.Promise?
      && winner.lastLogSlot == 9 && 6 in winner.wal && 7 !in winner.wal && 8 in winner.wal
  {
    var before := ContextView(id, peers, 1, None, None, 1, 9, 7, Above(OneTermLog(1, 9), 7), OneTermLog(1, 9));
    var sent := StaleSent(id, leaderId, peers, t);
    var heir := ContextView(heirId, peers, 2, None, None, 1, 6, 5, Above(OneTermLog(1, 6), 5), OneTermLog(1, 6));
    var promise := StaleVoter(before, sent.request, CreateVote(heir), check, extend);
    ListingMerges(Judge(before, sent.request).ctx.uncommitted);
    assert RecordVote(heir, c, promise).pending == Merge(map[], promise.outcome.uncommittedEntries);
    assert heir.uncommitted.Keys == {6};
    GapOpens(heir, RecordVote(heir, c, promise));
    StaleSentOK(id, leaderId, peers, t);
    OneTermOK(before, 9, 9);
    OneTermOK(heir, 6, 9);
  }

  lemma OneTermOK(ctx: ContextView, top: nat, most: nat)
    requires top <= most && ctx.wal == OneTermLog(1, top) && ctx.uncommitted == Above(ctx.wal, ctx.committedSlot)
    requires ctx.lastLogSlot == top
    ensures ContextOK(ctx, map[1 := OneTermLog(1, most)])
  {}

  lemma StaleSentOK(id: Id, leaderId: Id, peers: set<Id>, t: Time)
    ensures SentOK(StaleSent(id, leaderId, peers, t), map[1 := OneTermLog(1, 9)])
  {
    TopOfTopIs(OneTermLog(1, 6), 6);
    EntriesFromIsRun(OneTermLog(1, 6), 6, 6);
  }

  lemma StaleVoter(before: ContextView, request: AcceptRequest, ask: VoteRequest, check: TimeInterval,
                   extend: TimeInterval) returns (promise: VoteResponse)
    requires before.wal == OneTermLog(1, 9) && before.uncommitted == Above(OneTermLog(1, 9), 7)
    requires before.term == 1 && before.lease.None? && before.committedSlot == 7
    requires request.prevLogSlot == 5 && request.prevLogTerm == 1 && request.minNextTs.None?
    requires request.entries == [LogEntry(1, 6, "", 0)] && request.leaderCommitSlot == 0
    requires ask.term == 2 && ask.lastLogTerm == 1 && ask.lastLogSlot == 6
    ensures var voter := Judge(before, request).ctx;
      && promise == OnVoteRequest(voter, FRESH_FOLLOWER, ask, check, extend).response
      && voter.uncommitted.Keys == {6, 8, 9} && WellKeyed(voter.uncommitted)
      && Judge(before, request).response.success
      && promise == VoteResponse(before.memberId, 1, Promise(1, 6, EntriesFrom(voter.uncommitted, 0)))
  {
    StaleAcceptCuts(before, request);
    promise := OnVoteRequest(Judge(before, request).ctx, FRESH_FOLLOWER, ask, check, extend).response;
  }

  lemma GapOpens(heir: ContextView, c: CandidateView)
    requires c.dispatched.Some? && c.pending.Keys == {6, 8, 9}
    requires heir.wal == OneTermLog(1, 6) && heir.uncommitted.Keys == {6} && heir.committedSlot == 5
    ensures var winner := ElectedContext(heir, c);
      winner.lastLogSlot == 9 && 6 in winner.wal && 7 !in winner.wal && 8 in winner.wal
  {
    var own := Inherited(heir, c);
    assert own.Keys == {6, 8, 9};
    assert Restamp(own, heir.term).Keys == {6, 8, 9};
    assert Top(Restamp(own, heir.term)) == 9;
  }

  /** Nor does a winner need to take anything over from others for that: a follower that has committed seven of its ten
      slots accepts a delayed empty request anchored at five, which cuts its log there but leaves its last slot and the
      three uncommitted entries; when it wins, the committed slots six and seven are missing from its log. */
  lemma StaleLastSlotOpensGap(id: Id, leaderId: Id, peers: set<Id>, t: Time, c: CandidateView)
    requires c.dispatched.Some? && c.pending == map[]
    ensures
      var logs: map<nat, Log> := map[1 := OneTermLog(1, 10)];
      var before := ContextView(id, peers, 1, None, None, 1, 10, 7, Above(OneTermLog(1, 10), 7), OneTermLog(1, 10));
      var origin := ContextView(leaderId, peers, 1, None, None, 1, 5, 0, OneTermLog(1, 5), OneTermLog(1, 5));
      var sent := Sent(id, AcceptRequest(1, leaderId, 5, 1, [], 0, t, None), origin, 0);
      var answer := Judge(before, sent.request);
      var winner := ElectedContext(answer.ctx.(term := 2), c);
      && ContextOK(before, logs) && SentOK(sent, logs) && answer.response.success
      && answer.ctx == before.(wal := OneTermLog(1, 5))
      && winner.lastLogSlot == 10 && winner.committedSlot == 7
      && winner.wal.Keys == OneTermLog(1, 5).Keys + {8, 9, 10}
  {
    var before := ContextView(id, peers, 1, None, None, 1, 10, 7, Above(OneTermLog(1, 10), 7), OneTermLog(1, 10));
    EmptyRequestCuts(before, AcceptRequest(1, leaderId, 5, 1, [], 0, t, None));
    TopOfTopIs(OneTermLog(1, 5), 5);
    EntriesFromIsRun(OneTermLog(1, 5), 6, 5);
    OneTermOK(before, 10, 10);
    KeptEntriesReturn(before.(wal := OneTermLog(1, 5), term := 2), c);
  }

  lemma EmptyRequestCuts(before: ContextView, request: AcceptRequest)
    requires before.wal == OneTermLog(1, 10) && request.minNextTs.None? && request.leaderCommitSlot == 0
    requires request.prevLogSlot == 5 && request.prevLogTerm == 1 && request.entries == []
    ensures Judge(before, request).response.success
    ensures Judge(before, request).ctx == before.(wal := OneTermLog(1, 5))
  {
    assert AppendAll(TruncateFrom(before.wal, 6), []) == OneTermLog(1, 5);
  }

  lemma KeptEntriesReturn(ctx: ContextView, c: CandidateView)
    requires c.dispatched.Some? && c.pending == map[] && ctx.uncommitted == Above(OneTermLog(1, 10), 7)
    ensures ElectedContext(ctx, c).lastLogSlot == 10
    ensures ElectedContext(ctx, c).wal.Keys == ctx.wal.Keys + {8, 9, 10}
  {
    assert Inherited(ctx, c) == ctx.uncommitted;
    assert ctx.uncommitted.Keys == {8, 9, 10};
    assert Restamp(ctx.uncommitted, ctx.term).Keys == {8, 9, 10};
  }

  // Merging the listing of a log into nothing gives its slots back.
  lemma ListingMerges(m: Log)
    requires WellKeyed(m)
    ensures Merge(map[], EntriesFrom(m, 0)).Keys == m.Keys
  {
    RangeIsSortedListing(m, 0, Top(m) + 1);
    MergeIsJoin(map[], {}, EntriesFrom(m, 0));
    var merged := Merge(map[], EntriesFrom(m, 0));
    forall s | s in m ensures s in merged { assert m[s] in Elements(EntriesFrom(m, 0)); }
  }

  // ----- Which pending writes lie above the committed slot -----

  // The member leads on in its term.
  ghost predicate LeadsOn(m: Member, m': Member) {
    m.role.Leading? && m'.role.Leading? && m'.ctx.term == m.ctx.term
  }

  // From state `a` to state `b` the member leads in one term.
  ghost predicate Leadership(states: seq<State>, a: nat, b: nat, i: Id)
    requires a <= b < |states|
  {
    forall k :: a <= k <= b ==>
      i in states[k].members && i in states[a].members && states[k].members[i].role.Leading?
      && states[k].members[i].ctx.term == states[a].members[i].ctx.term
  }

  // A write is filed past the last slot; otherwise the last slot stays, and a commit lets go of what it reaches.
  ghost predicate LeaderMove(m: Member, m': Member, write: bool)
    requires LeadsOn(m, m')
  {
    if write then
      && m'.ctx.lastLogSlot == m.ctx.lastLogSlot + 1 && m'.ctx.committedSlot == m.ctx.committedSlot
      && m'.ctx.wal.Keys == m.ctx.wal.Keys + {m'.ctx.lastLogSlot}
      && m'.role.l.inFlight.Keys == m.role.l.inFlight.Keys + {m'.ctx.lastLogSlot}
    else
      && m'.ctx.lastLogSlot == m.ctx.lastLogSlot && m'.ctx.wal == m.ctx.wal
      && ((m'.ctx.committedSlot == m.ctx.committedSlot && m'.role.l.inFlight == m.role.l.inFlight)
          || (m.ctx.committedSlot < m'.ctx.committedSlot <= m.ctx.lastLogSlot
              && m'.role.l.inFlight == Beyond(m.role.l.inFlight, m'.ctx.committedSlot)))
  }

  ghost predicate WritesHere(e: Event, i: Id) { e.ClientWrite? && e.i == i }

  lemma RequestMoves(m: Member, e: Event, now: Time) returns (m': Member)
    requires e.VoteAsked? || e.AcceptAsked?
    requires ValidAt(e.roleCheck, now) && ValidAt(e.check, now) && ValidAt(e.extend, now)
    ensures m' == if e.VoteAsked? then ProcessVoteRequest(m, e.ask.request, e.roleCheck, e.check, e.extend).m
                  else ProcessAcceptRequest(m, e.sent.request, e.roleCheck, e.check, e.extend).m
    ensures m'.role.Leading? ==> LeadsOn(m, m') && LeaderMove(m, m', false)
  {
    if e.VoteAsked? {
      VoteRequestFacts(m, e.ask.request, e.roleCheck, e.check, e.extend, now);
      m' := ProcessVoteRequest(m, e.ask.request, e.roleCheck, e.check, e.extend).m;
    } else {
      AcceptRequestFacts(m, e.sent.request, e.roleCheck, e.check, e.extend, now);
      m' := ProcessAcceptRequest(m, e.sent.request, e.roleCheck, e.check, e.extend).m;
    }
  }

  // A leader that goes on leading has passed the request over.
  lemma RequestLeavesLeader(m: Member, e: Event)
    requires m.role.Leading? && (e.VoteAsked? || e.AcceptAsked?)
    ensures var m' := if e.VoteAsked? then ProcessVoteRequest(m, e.ask.request, e.roleCheck, e.check, e.extend).m
                      else ProcessAcceptRequest(m, e.sent.request, e.roleCheck, e.check, e.extend).m;
      m'.role.Leading? ==> m' == m
  {}

  lemma TimerMoves(m: Member, e: Event, now: Time) returns (m': Member)
    requires (Quiet(e) && QuietEnabled(m, e, now)) || (Routine(e) && RoutineEnabled(m, e, now))
    ensures m' == if Quiet(e) then QuietMember(m, e, now)
                  else Member(RoutineStep(m, e, now).ctx, Leading(RoutineStep(m, e, now).l))
    ensures m'.role.Leading? ==> LeadsOn(m, m') && LeaderMove(m, m', false)
  {
    if Quiet(e) {
      QuietMemberFacts(m, e, now);
      m' := QuietMember(m, e, now);
    } else {
      RoutineStepFacts(m, e, now);
      m' := Member(RoutineStep(m, e, now).ctx, Leading(RoutineStep(m, e, now).l));
    }
  }

  // A leader either led before in the same term, or was its candidate, has just won, and has no pending write.
  ghost predicate MemberMoves(m: Member, m': Member, write: bool)
    requires m'.role.Leading?
  {
    if LeadsOn(m, m') then LeaderMove(m, m', write)
    else m.role.Campaigning? && m'.ctx.term == m.ctx.term && m'.role.l.inFlight == map[]
  }

  lemma HandlerMoves(s: State, e: Event, s': State)
    requires Enabled(s, e) && s' == Next(s, e) && !e.Tick? && !e.Answered?
    requires e.i in s.members && e.i in s'.members && s'.members[e.i].role.Leading?
    ensures MemberMoves(s.members[e.i], s'.members[e.i], e.ClientWrite?)
  {
    var m := s.members[e.i];
    if e.VoteAsked? || e.AcceptAsked? {
      var m' := RequestMoves(m, e, s.now);
    } else if Quiet(e) || Routine(e) {
      var m' := TimerMoves(m, e, s.now);
    } else if e.AcceptReply? {
      AckMoves(s, e.i, e.ack, e.tSend, s');
    } else if e.VoteReply? {
      ElectedMoves(s, e.i, e.answer, e.reading, e.tSends, s');
    } else if e.PreVoteReply? {
      PreVoteNeverLeads(s, e.i, OnPreVoteResponse(m.ctx, m.role.p, e.preVote, e.reading));
    } else {
      WriteMoves(m, OnClientWrite(m.ctx, m.role.l, e.command, e.value, e.reading), e.command, e.value, e.reading);
    }
  }

  lemma PreVoteNeverLeads(s: State, i: Id, r: PreVoteResult)
    requires i in s.members
    ensures !PreVoteReplyNext(s, i, r).members[i].role.Leading?
  {}

  lemma WriteMoves(m: Member, step: LeaderStep, command: nat, value: string, reading: TimeInterval)
    requires m.role.Leading? && step == OnClientWrite(m.ctx, m.role.l, command, value, reading)
    ensures MemberMoves(m, Member(step.ctx, Leading(step.l)), true)
  {}

  lemma AckMoves(s: State, i: Id, ack: Ack, tSend: Time, s': State)
    requires AcceptReplyEnabled(s, i, ack, tSend)
    requires s' == AcceptReplyNext(s, i, OnAcceptResponse(s.members[i].ctx, s.members[i].role.l, ack.response, tSend))
    ensures MemberMoves(s.members[i], s'.members[i], false)
  {
    AcceptReplyFacts(s.members[i], ack.response, tSend, s.now);
    AcceptReplyResolves(s.members[i], ack.response, tSend);
  }

  lemma ElectedMoves(s: State, i: Id, answer: Answer, reading: TimeInterval, tSends: map<Id, Time>, s': State)
    requires VoteReplyEnabled(s, i, answer, reading, tSends)
    requires s' == VoteReplyNext(s, i,
      OnVoteResponse(s.members[i].ctx, s.members[i].role.c, answer.response, reading, tSends))
    requires i in s'.members && s'.members[i].role.Leading?
    ensures MemberMoves(s.members[i], s'.members[i], false)
  {
    VoteReplyFacts(s.members[i], answer, reading, tSends, s.now);
  }

  // Events elsewhere leave the member alone.
  lemma OthersStay(s: State, e: Event, i: Id, s': State)
    requires Enabled(s, e) && s' == Next(s, e) && i in s.members && i in s'.members
    requires e.Tick? || e.Answered? || e.i != i
    ensures s'.members[i] == s.members[i]
  {
    if e.VoteReply? {
      var m := s.members[e.i];
      match OnVoteResponse(m.ctx, m.role.c, e.answer.response, e.reading, e.tSends)
      case Waiting(_) =>
      case GivenUp(_) =>
      case Elected(_) =>
    } else if !e.AcceptReply? {
      OthersStayApart(s, e, i, s');
    }
  }

  lemma OthersStayApart(s: State, e: Event, i: Id, s': State)
    requires Enabled(s, e) && s' == Next(s, e) && i in s.members && i in s'.members
    requires e.Tick? || e.Answered? || e.i != i
    requires !e.VoteReply? && !e.AcceptReply?
    ensures s'.members[i] == s.members[i]
  {
    if e.VoteAsked? || e.AcceptAsked? || e.PreVoteReply? { OthersStayAtRequest(s, e, i, s'); }
  }

  lemma OthersStayAtRequest(s: State, e: Event, i: Id, s': State)
    requires Enabled(s, e) && s' == Next(s, e) && i in s.members && i in s'.members
    requires (e.VoteAsked? || e.AcceptAsked? || e.PreVoteReply?) && e.i != i
    ensures s'.members[i] == s.members[i]
  {
    var m := s.members[e.i];
    if e.VoteAsked? {
      VoteStays(s, e.i, e.ask, ProcessVoteRequest(m, e.ask.request, e.roleCheck, e.check, e.extend), i);
    } else if e.AcceptAsked? {
      AcceptStays(s, e.i, e.sent, ProcessAcceptRequest(m, e.sent.request, e.roleCheck, e.check, e.extend), i);
    } else {
      PreVoteStays(s, e.i, OnPreVoteResponse(m.ctx, m.role.p, e.preVote, e.reading), i);
    }
  }

  lemma VoteStays(s: State, i: Id, ask: Ask, r: VoteOutcomeAt, j: Id)
    requires j in s.members && j != i
    ensures VoteAskedNext(s, i, ask, r).members[j] == s.members[j]
  {}

  lemma AcceptStays(s: State, i: Id, sent: Sent, r: AcceptOutcomeAt, j: Id)
    requires j in s.members && j != i
    ensures AcceptAskedNext(s, i, sent, r).members[j] == s.members[j]
  {}

  lemma PreVoteStays(s: State, i: Id, r: PreVoteResult, j: Id)
    requires i in s.members && j in s.members && j != i
    ensures PreVoteReplyNext(s, i, r).members[j] == s.members[j]
  {}

  lemma LeaderMoves(s: State, e: Event, i: Id, s': State)
    requires Enabled(s, e) && s' == Next(s, e) && i in s.members && i in s'.members && s'.members[i].role.Leading?
    ensures MemberMoves(s.members[i], s'.members[i], WritesHere(e, i))
  {
    if !e.Tick? && !e.Answered? && e.i == i { HandlerMoves(s, e, s'); } else { OthersStay(s, e, i, s'); }
  }

  /** During a leadership only a client write can change whether the log reaches the committed slot; and once it does,
      it always will. */
  lemma OnlyWritesCloseTheGap(s: State, e: Event, i: Id, s': State)
    requires Enabled(s, e) && s' == Next(s, e) && i in s.members && i in s'.members
    requires LeadsOn(s.members[i], s'.members[i])
    ensures !WritesHere(e, i) ==> (ReachesCommitted(s'.members[i].ctx) <==> ReachesCommitted(s.members[i].ctx))
    ensures ReachesCommitted(s.members[i].ctx) ==> ReachesCommitted(s'.members[i].ctx)
  {
    LeaderMoves(s, e, i, s');
  }

  /** During a leadership nothing opens or closes a gap in the leader's log. */
  lemma LeadershipKeepsGaps(s: State, e: Event, i: Id, s': State)
    requires LogInv(s) && Enabled(s, e) && s' == Next(s, e) && i in s.members && i in s'.members
    requires LeadsOn(s.members[i], s'.members[i])
    ensures TopIs(s'.members[i].ctx.wal, s'.members[i].ctx.lastLogSlot)
      <==> TopIs(s.members[i].ctx.wal, s.members[i].ctx.lastLogSlot)
  {
    LeaderMoves(s, e, i, s');
    assert MemberLogOK(s.members[i], s.logs);
    if WritesHere(e, i) { KeysKeepGaps(s.members[i].ctx, s'.members[i].ctx); }
  }

  lemma KeysKeepGaps(ctx: ContextView, next: ContextView)
    requires Within(ctx.wal, ctx.lastLogSlot) && next.lastLogSlot == ctx.lastLogSlot + 1
    requires next.wal.Keys == ctx.wal.Keys + {next.lastLogSlot}
    ensures TopIs(next.wal, next.lastLogSlot) <==> TopIs(ctx.wal, ctx.lastLogSlot)
  {
    assert forall k :: k in next.wal <==> k in ctx.wal || k == next.lastLogSlot;
  }

  // ----- The log of a term that somebody leads -----

  ghost predicate LeadsTerm(s: State, i: Id, term: nat) {
    i in s.members && s.members[i].role.Leading? && s.members[i].ctx.term == term
  }

  // If the event makes a member the leader of the term, the log with which it starts has no gap up to its last slot.
  ghost predicate WinsTopped(e: Event, s': State, term: nat) {
    e.VoteReply? && LeadsTerm(s', e.i, term) ==> TopIs(s'.members[e.i].ctx.wal, s'.members[e.i].ctx.lastLogSlot)
  }

  // Whoever leads the term has a log without gaps up to its last slot.
  ghost predicate LeaderTopped(s: State, term: nat) {
    forall i :: LeadsTerm(s, i, term) ==> TopIs(s.members[i].ctx.wal, s.members[i].ctx.lastLogSlot)
  }

  // A leader without a gap is one that took over without a gap.
  lemma ToppedOn(s: State, e: Event, s': State, term: nat)
    requires LogInv(s) && Enabled(s, e) && s' == Next(s, e) && s'.members.Keys == s.members.Keys
    requires LeaderTopped(s, term) && WinsTopped(e, s', term)
    ensures LeaderTopped(s', term)
  {
    forall i | LeadsTerm(s', i, term) ensures TopIs(s'.members[i].ctx.wal, s'.members[i].ctx.lastLogSlot) {
      LeaderMoves(s, e, i, s');
      if LeadsOn(s.members[i], s'.members[i]) {
        assert LeadsTerm(s, i, term);
        LeadershipKeepsGaps(s, e, i, s');
      } else {
        OnlyWinsLead(s, e, i, s');
      }
    }
  }

  lemma OnlyWinsLead(s: State, e: Event, i: Id, s': State)
    requires Enabled(s, e) && s' == Next(s, e) && i in s.members && i in s'.members
    requires s'.members[i].role.Leading? && !LeadsOn(s.members[i], s'.members[i])
    ensures e.VoteReply? && e.i == i
  {
    if e.Tick? || e.Answered? || e.i != i {
      OthersStay(s, e, i, s');
    } else {
      HandlerMoves(s, e, s');
    }
  }

  // The term of a candidate has no log before it wins itself.
  lemma CampaignTermIsNew(s: State, i: Id, s': State)
    requires ElectionInv(s) && LogInv(s) && ElectionInv(s') && s.wins <= s'.wins && i in s.members && i in s'.members
    requires s.members[i].role.Campaigning? && LeadsTerm(s', i, s.members[i].ctx.term)
    ensures s.members[i].ctx.term !in s.logs
  {
    assert MemberOK(s'.members[i], i, s'.members.Keys, s'.ballots, s'.wins, s'.now);
    FirstToWin(s, i, s');
    assert !TermWon(s.wins, s.members[i].ctx.term);
  }

  // Whoever still leads the term has a last slot of at least `slot`.
  ghost predicate LeadersReach(s: State, term: nat, slot: nat) {
    forall i :: LeadsTerm(s, i, term) ==> slot <= s.members[i].ctx.lastLogSlot
  }

  // Through a slot that its leader's last slot has reached, the log of a term is fixed, gaps included.
  lemma TermLogFixed(s: State, e: Event, s': State, term: nat, slot: nat)
    requires ElectionInv(s) && LogInv(s) && ElectionInv(s') && Enabled(s, e) && s' == Next(s, e)
    requires s.wins <= s'.wins && s'.members.Keys == s.members.Keys && term in s.logs && LeadersReach(s, term, slot)
    ensures LeadersReach(s', term, slot)
    ensures term in s'.logs && Same(s.logs[term], s'.logs[term], slot)
  {
    LeadersReachOn(s, e, s', term, slot);
    TermLogsMove(s, e, s', term);
    MovesPast(s, e, s', term, slot);
  }

  lemma MovesPast(s: State, e: Event, s': State, term: nat, slot: nat)
    requires term in s.logs && TermLogMoves(s, e, s', term) && LeadersReach(s, term, slot)
    ensures Same(s.logs[term], s'.logs[term], slot)
  {
    if s'.logs[term] != s.logs[term] { assert LeadsTerm(s, e.i, term); }
  }

  lemma LeadersReachOn(s: State, e: Event, s': State, term: nat, slot: nat)
    requires ElectionInv(s) && LogInv(s) && ElectionInv(s') && Enabled(s, e) && s' == Next(s, e)
    requires s.wins <= s'.wins && s'.members.Keys == s.members.Keys && term in s.logs && LeadersReach(s, term, slot)
    ensures LeadersReach(s', term, slot)
  {
    forall i | LeadsTerm(s', i, term) ensures slot <= s'.members[i].ctx.lastLogSlot {
      LeaderMoves(s, e, i, s');
      if s.members[i].role.Campaigning? { CampaignTermIsNew(s, i, s'); }
      assert LeadsTerm(s, i, term);
    }
  }

  // Every pending write lies above its leader's committed slot.
  ghost predicate PendingAbove(s: State) {
    forall i :: i in s.members && s.members[i].role.Leading? ==> MemberPendingAbove(s.members[i])
  }

  ghost predicate MemberPendingAbove(m: Member)
    requires m.role.Leading?
  {
    forall slot :: slot in m.role.l.inFlight ==> slot > m.ctx.committedSlot
  }

  // A client write arrives only where the log reaches the committed slot.
  ghost predicate WriteReaches(s: State, e: Event)
    requires Enabled(s, e)
  {
    e.ClientWrite? ==> ReachesCommitted(s.members[e.i].ctx)
  }

  /** Pending writes stay above the committed slot over an event exactly when the log of the leader that accepts a
      write reaches its committed slot. */
  lemma PendingAboveIff(s: State, e: Event, s': State)
    requires PendingAbove(s) && Enabled(s, e) && s' == Next(s, e) && s'.members.Keys == s.members.Keys
    ensures PendingAbove(s') <==> WriteReaches(s, e)
  {
    forall i | i in s.members && s'.members[i].role.Leading?
      ensures MemberPendingAbove(s'.members[i]) <==> (WritesHere(e, i) ==> ReachesCommitted(s.members[i].ctx))
    {
      LeaderMoves(s, e, i, s');
      if s.members[i].role.Leading? { assert MemberPendingAbove(s.members[i]); }
      if WritesHere(e, i) { assert s'.members[i].ctx.lastLogSlot in s'.members[i].role.l.inFlight; }
    }
    if e.ClientWrite? { assert WritesHere(e, e.i); }
  }
}
