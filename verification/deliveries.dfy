/** Accept requests over whole runs: where each comes from, and what delivering an old one costs. */
module Deliveries {
  import opened Types
  import opened Wal
  import opened Views
  import opened FollowerRole
  import opened LeaderRole
  import opened CandidateRole
  import opened PreCandidateRole
  import opened StateMachine
  import opened Group
  import opened Facts
  import opened ElectionSafety
  import opened LeaseSafety
  import opened LogMatching
  import opened SafeTime
  import opened Takeovers
  import opened Runs

  // ----- Where requests come from -----

  // Event `m` dispatched the request: its sender leads in the request's term with exactly the context recorded in it,
  // and the request carries that leader's log after the anchor.
  ghost predicate DispatchedAt(states: seq<State>, events: seq<Event>, m: nat, sent: Sent)
    requires IsExecution(states, events)
  {
    && m < |events| && sent !in states[m].sents && sent in states[m + 1].sents
    && DispatchedFrom(states[m + 1].members, sent, states[m].now)
  }

  ghost predicate DispatchedFrom(members: map<Id, Member>, sent: Sent, now: Time) {
    var i := sent.request.leaderId;
    && i in members && members[i].role.Leading? && members[i].ctx == sent.origin
    && WellPosted(sent.origin, sent.request, now)
  }

  // Requests come from elections, timers and accept responses, and each from its leader's context.
  lemma NewSentsAre(s: State, e: Event, s': State, sent: Sent)
    requires ElectionInv(s') && Enabled(s, e) && s' == Next(s, e) && sent in s'.sents && sent !in s.sents
    ensures DispatchedFrom(s'.members, sent, s.now)
  {
    if e.VoteReply? { WinsSend(s, e, s', sent); }
    else if Routine(e) { TimersSend(s, e, s', sent); }
    else { RepliesSend(s, e, s', sent); }
  }

  lemma WinsSend(s: State, e: Event, s': State, sent: Sent)
    requires ElectionInv(s') && Enabled(s, e) && s' == Next(s, e) && e.VoteReply?
    requires sent in s'.sents && sent !in s.sents
    ensures DispatchedFrom(s'.members, sent, s.now)
  {
    var m := s.members[e.i];
    VoteReplyFacts(m, e.answer, e.reading, e.tSends, s.now);
    ElectedSends(s, e.i, OnVoteResponse(m.ctx, m.role.c, e.answer.response, e.reading, e.tSends), s', sent);
  }

  lemma TimersSend(s: State, e: Event, s': State, sent: Sent)
    requires ElectionInv(s') && Enabled(s, e) && s' == Next(s, e) && Routine(e)
    requires sent in s'.sents && sent !in s.sents
    ensures DispatchedFrom(s'.members, sent, s.now)
  {
    RoutineStepFacts(s.members[e.i], e, s.now);
    StepSends(s, e.i, RoutineStep(s.members[e.i], e, s.now), s', sent);
  }

  lemma RepliesSend(s: State, e: Event, s': State, sent: Sent)
    requires ElectionInv(s') && Enabled(s, e) && s' == Next(s, e) && !e.VoteReply? && !Routine(e)
    requires sent in s'.sents && sent !in s.sents
    ensures DispatchedFrom(s'.members, sent, s.now)
  {
    if e.AcceptReply? {
      AcceptReplyFacts(s.members[e.i], e.ack.response, e.tSend, s.now);
      StepSends(s, e.i,
        OnAcceptResponse(s.members[e.i].ctx, s.members[e.i].role.l, e.ack.response, e.tSend), s', sent);
    }
  }

  lemma StepSends(s: State, i: Id, step: LeaderStep, s': State, sent: Sent)
    requires i in s'.members && s'.members[i] == Member(step.ctx, Leading(step.l)) && AllWellPosted(step, s.now)
    requires s'.sents == s.sents + Posted(step.requests, step.ctx, s.sendNo) && ElectionInv(s')
    requires sent in s'.sents && sent !in s.sents
    ensures DispatchedFrom(s'.members, sent, s.now)
  {
    assert MemberOK(s'.members[i], i, s'.members.Keys, s'.ballots, s'.wins, s'.now);
    assert WellPosted(step.ctx, step.requests[sent.to], s.now);
  }

  lemma ElectedSends(s: State, i: Id, r: VoteResult, s': State, sent: Sent)
    requires i in s.members && s' == VoteReplyNext(s, i, r) && ElectionInv(s') && sent in s'.sents && sent !in s.sents
    requires r.Elected? ==> AllWellPosted(r.step, s.now)
    ensures DispatchedFrom(s'.members, sent, s.now)
  {
    if r.Elected? { StepSends(s, i, r.step, s', sent); }
  }

  lemma DispatchedOnce(states: seq<State>, events: seq<Event>, m: nat, sent: Sent)
    requires IsExecution(states, events) && m < |events| && sent in states[m + 1].sents && sent !in states[m].sents
    ensures DispatchedAt(states, events, m, sent)
  {
    SafetyAlways(states, events, m + 1);
    assert IsStep(states[m], events[m], states[m + 1]);
    NewSentsAre(states[m], events[m], states[m + 1], sent);
  }

  /** Every request on the network was dispatched at an earlier step of the run, by the member that led in its term,
      from the context that it then had. */
  lemma {:induction false} SentArose(states: seq<State>, events: seq<Event>, n: nat, sent: Sent) returns (m: nat)
    requires IsExecution(states, events) && n <= |events| && sent in states[n].sents
    ensures m < n && DispatchedAt(states, events, m, sent)
    decreases n
  {
    if n == 0 {
      assert false;
    } else if sent in states[n - 1].sents {
      m := SentArose(states, events, n - 1, sent);
    } else {
      m := n - 1;
      DispatchedOnce(states, events, n - 1, sent);
    }
  }

  // ----- What heartbeats announce -----

  // The leader of an earlier term announced nothing beyond a lease that it has stored.
  lemma AnnouncedWithinLease(states: seq<State>, events: seq<Event>, n: nat, sent: Sent) returns (m: nat, st: Stored)
    requires IsExecution(states, events) && n <= |events| && sent in states[n].sents && sent.request.minNextTs.Some?
    ensures m <= |events| && st in states[m].leases && st.term == sent.request.term
    ensures sent.request.minNextTs.value <= st.expiry
  {
    var k := SentArose(states, events, n, sent);
    var leader := states[k + 1].members[sent.request.leaderId];
    SafetyAlways(states, events, k + 1);
    assert RoleLeaseOK(states[k + 1], sent.request.leaderId, leader);
    m, st := k + 1, Stored(sent.request.leaderId, leader.ctx.term, leader.ctx.lease.value);
  }

  // Whoever leads has won its term by now.
  lemma LeaderWonBefore(s: State, i: Id) returns (w: Win)
    requires ElectionInv(s) && i in s.members && s.members[i].role.Leading?
    ensures w in s.wins && w.term == s.members[i].ctx.term && w.at <= s.now
  {
    LeaderHasWon(s, i);
    var at :| Win(i, s.members[i].ctx.term, at) in s.wins;
    w := Win(i, s.members[i].ctx.term, at);
    assert WinOK(w, s.members, s.ballots, s.now);
  }

  /** Why the announced minimum is capped at the lease: in every run, whatever a leader announces, and whenever, a write
      that any leader of a later term accepts is stamped with a later time. */
  lemma AnnouncedMinimumBindsSuccessors(states: seq<State>, events: seq<Event>, n: nat, sent: Sent, k: nat)
    requires IsExecution(states, events) && n <= |events| && sent in states[n].sents && sent.request.minNextTs.Some?
    requires k < |events| && events[k].ClientWrite? && events[k].i in states[k].members
    requires states[k].members[events[k].i].ctx.term > sent.request.term
    ensures events[k].i in states[k + 1].members
    ensures var after := states[k + 1].members[events[k].i].ctx;
      after.lastLogSlot in after.wal && sent.request.minNextTs.value < after.wal[after.lastLogSlot].timestamp
  {
    assert IsStep(states[k], events[k], states[k + 1]);
    var m, st := AnnouncedWithinLease(states, events, n, sent);
    SafetyAlways(states, events, k);
    var w := LeaderWonBefore(states[k], events[k].i);
    LeaseOverBeforeWinEver(states, events, m, k, st, w);
    StepGrows(states[k], events[k]);
    WriteStampsReading(states[k], events[k], states[k + 1]);
  }

  // ----- What changes a member's log and term -----

  // Without leading, a member's log changes only with a request.
  lemma LogStays(s: State, e: Event, i: Id, s': State)
    requires Enabled(s, e) && s' == Next(s, e) && i in s.members && i in s'.members
    requires !s'.members[i].role.Leading? && !(e.AcceptAsked? && e.i == i)
    ensures s'.members[i].ctx.wal == s.members[i].ctx.wal
  {
    if e.Tick? || e.Answered? || e.i != i {
      OthersStay(s, e, i, s');
    } else if e.VoteAsked? {
      VoteRequestFacts(s.members[i], e.ask.request, e.roleCheck, e.check, e.extend, s.now);
    } else if Quiet(e) {
      QuietMemberFacts(s.members[i], e, s.now);
    } else {
      CampaignKeepsLog(s, e, s');
    }
  }

  lemma CampaignKeepsLog(s: State, e: Event, s': State)
    requires Enabled(s, e) && s' == Next(s, e) && !e.Tick? && !e.Answered? && !Quiet(e) && !e.VoteAsked?
    requires !e.AcceptAsked? && e.i in s'.members && !s'.members[e.i].role.Leading?
    ensures s'.members[e.i].ctx.wal == s.members[e.i].ctx.wal
  {
    var m := s.members[e.i];
    if e.VoteReply? {
      VoteReplyFacts(m, e.answer, e.reading, e.tSends, s.now);
      TallyKeepsLog(s, e.i, OnVoteResponse(m.ctx, m.role.c, e.answer.response, e.reading, e.tSends), s');
    } else if e.PreVoteReply? {
      PreVoteKeepsLog(s, e.i, OnPreVoteResponse(m.ctx, m.role.p, e.preVote, e.reading), s');
    }
  }

  lemma TallyKeepsLog(s: State, i: Id, r: VoteResult, s': State)
    requires i in s.members && s' == VoteReplyNext(s, i, r) && !r.Elected?
    requires r.GivenUp? ==> r.ctx.wal == s.members[i].ctx.wal
    ensures s'.members[i].ctx.wal == s.members[i].ctx.wal
  {}

  lemma PreVoteKeepsLog(s: State, i: Id, r: PreVoteResult, s': State)
    requires i in s.members && s' == PreVoteReplyNext(s, i, r)
    requires r.Promoted? ==> r.ctx.wal == s.members[i].ctx.wal
    ensures s'.members[i].ctx.wal == s.members[i].ctx.wal
  {}

  lemma HandlersKeepTerm(s: State, e: Event, s': State)
    requires Enabled(s, e) && s' == Next(s, e) && !e.Tick? && !e.Answered? && !Quiet(e) && !e.VoteAsked?
    requires !e.AcceptAsked? && e.i in s'.members
    ensures s'.members[e.i].ctx.term >= s.members[e.i].ctx.term
  {
    var m := s.members[e.i];
    if e.VoteReply? {
      VoteReplyFacts(m, e.answer, e.reading, e.tSends, s.now);
      TallyKeepsTerm(s, e.i, OnVoteResponse(m.ctx, m.role.c, e.answer.response, e.reading, e.tSends), s');
    } else if e.PreVoteReply? {
      PreVoteRaisesTerm(s, e.i, OnPreVoteResponse(m.ctx, m.role.p, e.preVote, e.reading), s');
    } else if e.AcceptReply? {
      AcceptReplyFacts(m, e.ack.response, e.tSend, s.now);
    } else if Routine(e) {
      RoutineStepFacts(m, e, s.now);
    }
  }

  lemma TallyKeepsTerm(s: State, i: Id, r: VoteResult, s': State)
    requires i in s.members && s' == VoteReplyNext(s, i, r)
    requires r.Elected? ==> r.step.ctx.term == s.members[i].ctx.term
    requires r.GivenUp? ==> r.ctx.term == s.members[i].ctx.term
    ensures s'.members[i].ctx.term == s.members[i].ctx.term
  {}

  lemma PreVoteRaisesTerm(s: State, i: Id, r: PreVoteResult, s': State)
    requires i in s.members && s' == PreVoteReplyNext(s, i, r)
    requires r.Promoted? ==> r.ctx.term >= s.members[i].ctx.term
    ensures s'.members[i].ctx.term >= s.members[i].ctx.term
  {}

  // A term never falls.
  lemma TermRises(s: State, e: Event, i: Id, s': State)
    requires Enabled(s, e) && s' == Next(s, e) && i in s.members && i in s'.members
    ensures s'.members[i].ctx.term >= s.members[i].ctx.term
  {
    if e.Tick? || e.Answered? || e.i != i {
      OthersStay(s, e, i, s');
    } else if e.VoteAsked? {
      VoteRequestFacts(s.members[i], e.ask.request, e.roleCheck, e.check, e.extend, s.now);
    } else if e.AcceptAsked? {
      AcceptRequestFacts(s.members[i], e.sent.request, e.roleCheck, e.check, e.extend, s.now);
    } else if Quiet(e) {
      QuietMemberFacts(s.members[i], e, s.now);
    } else {
      HandlersKeepTerm(s, e, s');
    }
  }

  // ----- What reordering costs -----

  // Event `k` delivers a request to member `i`, which answers it with success.
  ghost predicate AcceptsAt(states: seq<State>, events: seq<Event>, k: nat, i: Id)
    requires IsExecution(states, events)
  {
    && k < |events| && events[k].AcceptAsked? && events[k].i == i && i in states[k].members
    && var e := events[k];
    var response := ProcessAcceptRequest(states[k].members[i], e.sent.request, e.roleCheck, e.check, e.extend).response;
    response.Some? && response.value.success
  }

  // The member's log is that of the request's leader at dispatch, through the last slot that the request carries.
  ghost predicate Keeps(s: State, i: Id, sent: Sent) {
    i in s.members && Same(s.members[i].ctx.wal, sent.origin.wal, LastWritten(sent.request))
  }

  lemma {:induction false} TermsRise(states: seq<State>, events: seq<Event>, m: nat, n: nat, i: Id)
    requires IsExecution(states, events) && m <= n <= |events| && i in states[m].members
    ensures i in states[n].members && states[m].members[i].ctx.term <= states[n].members[i].ctx.term
    decreases n
  {
    if m < n {
      TermsRise(states, events, m, n - 1, i);
      assert IsStep(states[n - 1], events[n - 1], states[n]);
      StepGrows(states[n - 1], events[n - 1]);
      TermRises(states[n - 1], events[n - 1], i, states[n]);
    }
  }

  // Whoever accepts a request of a term is another member than the leader of the term, so it never leads in it.
  lemma AcceptorFollows(states: seq<State>, events: seq<Event>, a: nat, k: nat, i: Id)
    requires IsExecution(states, events) && AcceptsAt(states, events, a, i) && a < k <= |events|
    requires i in states[k].members && states[k].members[i].ctx.term == events[a].sent.request.term
    ensures !states[k].members[i].role.Leading?
  {
    if states[k].members[i].role.Leading? {
      var sent := events[a].sent;
      assert IsStep(states[a], events[a], states[a + 1]);
      ProgressAlways(states, events, a);
      assert sent.to != sent.request.leaderId;
      var m := SentArose(states, events, a, sent);
      OneLeaderPerTermEver(states, events, m + 1, k, sent.request.leaderId, i);
    }
  }

  // Accepting puts the member in the request's term, with the leader's log at dispatch.
  lemma AcceptedCopies(states: seq<State>, events: seq<Event>, k: nat, i: Id)
    requires IsExecution(states, events) && AcceptsAt(states, events, k, i) && i in states[k + 1].members
    ensures states[k + 1].members[i].ctx.wal == events[k].sent.origin.wal
    ensures states[k + 1].members[i].ctx.term == events[k].sent.request.term
  {
    var e := events[k];
    assert IsStep(states[k], e, states[k + 1]);
    AcceptCopiesEver(states, events, k);
    AcceptRequestFacts(states[k].members[i], e.sent.request, e.roleCheck, e.check, e.extend, states[k].now);
  }

  // While the member stays in the term, only requests that it accepts change its log.
  lemma OnlyAcceptsChange(states: seq<State>, events: seq<Event>, a: nat, k: nat, i: Id)
    requires IsExecution(states, events) && AcceptsAt(states, events, a, i) && a < k < |events|
    requires i in states[k].members && i in states[k + 1].members && !AcceptsAt(states, events, k, i)
    requires states[k + 1].members[i].ctx.term == events[a].sent.request.term
    ensures states[k + 1].members[i].ctx.wal == states[k].members[i].ctx.wal
  {
    assert IsStep(states[k], events[k], states[k + 1]);
    if events[k].AcceptAsked? && events[k].i == i {
      AcceptCopiesEver(states, events, k);
    } else {
      AcceptorFollows(states, events, a, k + 1, i);
      LogStays(states[k], events[k], i, states[k + 1]);
    }
  }

  // A request's last written slot is the top of its leader's log at dispatch, and what it carries is a prefix of the
  // term's log at any later moment.
  lemma SentStays(states: seq<State>, events: seq<Event>, a: nat, k: nat, sent: Sent)
    requires IsExecution(states, events) && a <= k <= |events| && sent in states[a].sents
    ensures LastWritten(sent.request) == SentTop(sent) && SentOK(sent, states[k].logs)
  {
    LogsAlways(states, events, a);
    LogsAlways(states, events, k);
    LogsGrow(states, events, a, k);
    SentStaysOK(states[a], states[k], sent);
  }

  lemma SentStaysOK(s: State, s': State, sent: Sent)
    requires LogInv(s) && LogInv(s') && Grows(s.logs, s'.logs) && sent in s.sents
    ensures LastWritten(sent.request) == SentTop(sent) && SentOK(sent, s'.logs)
  {
    assert SentOK(sent, s.logs) && TermLogsOK(s.logs, s.wins) && TermLogsOK(s'.logs, s'.wins);
    SentMono(sent, s.logs, s'.logs);
    SentMatched(s, sent);
    LastWrittenIsTop(sent, s.logs);
  }

  // Of two requests of one term, the one that reaches further has all of the other.
  lemma FurtherHasAll(x: Sent, y: Sent, logs: map<nat, Log>)
    requires SentOK(x, logs) && SentOK(y, logs) && x.request.term == y.request.term && SentTop(x) <= SentTop(y)
    ensures Same(y.origin.wal, x.origin.wal, SentTop(x))
  {}

  lemma KeptOnce(states: seq<State>, events: seq<Event>, a: nat, k: nat, i: Id)
    requires IsExecution(states, events) && AcceptsAt(states, events, a, i) && a < k < |events|
    requires i in states[k + 1].members && states[k + 1].members[i].ctx.term == events[a].sent.request.term
    requires Keeps(states[k], i, events[a].sent)
    ensures Keeps(states[k + 1], i, events[a].sent) <==>
      (AcceptsAt(states, events, k, i) ==>
         LastWritten(events[a].sent.request) <= LastWritten(events[k].sent.request))
  {
    var x := events[a].sent;
    assert IsStep(states[a], events[a], states[a + 1]) && IsStep(states[k], events[k], states[k + 1]);
    if AcceptsAt(states, events, k, i) {
      var y := events[k].sent;
      AcceptedCopies(states, events, k, i);
      SentStays(states, events, a, k, x);
      SentStays(states, events, k, k, y);
      if SentTop(x) <= SentTop(y) { FurtherHasAll(x, y, states[k].logs); }
    } else {
      OnlyAcceptsChange(states, events, a, k, i);
    }
  }

  // Later accepted requests of the first `n` events reach what the first one carries.
  ghost predicate LaterReach(states: seq<State>, events: seq<Event>, a: nat, n: nat, i: Id)
    requires IsExecution(states, events) && AcceptsAt(states, events, a, i)
  {
    forall k :: a < k < n && AcceptsAt(states, events, k, i) ==>
      LastWritten(events[a].sent.request) <= LastWritten(events[k].sent.request)
  }

  lemma InTerm(states: seq<State>, events: seq<Event>, a: nat, k: nat, n: nat, i: Id)
    requires IsExecution(states, events) && AcceptsAt(states, events, a, i) && a < k <= n <= |events|
    requires i in states[n].members && states[n].members[i].ctx.term == events[a].sent.request.term
    ensures i in states[k].members && states[k].members[i].ctx.term == events[a].sent.request.term
  {
    TermsRise(states, events, a, k, i);
    TermsRise(states, events, a, a + 1, i);
    AcceptedCopies(states, events, a, i);
    TermsRise(states, events, a + 1, k, i);
    TermsRise(states, events, k, n, i);
  }

  lemma {:induction false} KeepsChain(states: seq<State>, a: nat, n: nat, i: Id, sent: Sent)
    requires a < n < |states| && Keeps(states[a + 1], i, sent)
    requires forall k :: a < k < n && Keeps(states[k], i, sent) ==> Keeps(states[k + 1], i, sent)
    ensures forall k :: a < k <= n ==> Keeps(states[k], i, sent)
    decreases n
  {
    if a + 1 < n {
      KeepsChain(states, a, n - 1, i, sent);
      assert Keeps(states[n - 1], i, sent);
    }
  }

  lemma KeptWhileReached(states: seq<State>, events: seq<Event>, a: nat, n: nat, i: Id)
    requires IsExecution(states, events) && AcceptsAt(states, events, a, i) && a < n <= |events|
    requires i in states[n].members && states[n].members[i].ctx.term == events[a].sent.request.term
    requires LaterReach(states, events, a, n, i)
    ensures forall k :: a < k <= n ==> Keeps(states[k], i, events[a].sent)
  {
    InTerm(states, events, a, a + 1, n, i);
    AcceptedCopies(states, events, a, i);
    forall k | a < k < n && Keeps(states[k], i, events[a].sent) ensures Keeps(states[k + 1], i, events[a].sent) {
      InTerm(states, events, a, k + 1, n, i);
      KeptOnce(states, events, a, k, i);
    }
    KeepsChain(states, a, n, i, events[a].sent);
  }

  /** What reordering costs: up to any moment at which a member is still in the term of a request that it accepted, its
      log has always been the leader's through the slot that it acknowledged exactly when every request that it has
      accepted since reaches that slot. */
  lemma AcknowledgedSlotStaysIff(states: seq<State>, events: seq<Event>, a: nat, n: nat, i: Id)
    requires IsExecution(states, events) && AcceptsAt(states, events, a, i) && a < n <= |events|
    requires i in states[n].members && states[n].members[i].ctx.term == events[a].sent.request.term
    ensures (forall k :: a < k <= n ==> Keeps(states[k], i, events[a].sent)) <==> LaterReach(states, events, a, n, i)
  {
    if LaterReach(states, events, a, n, i) { KeptWhileReached(states, events, a, n, i); }
    if forall k :: a < k <= n ==> Keeps(states[k], i, events[a].sent) {
      forall k | a < k < n && AcceptsAt(states, events, k, i)
        ensures LastWritten(events[a].sent.request) <= LastWritten(events[k].sent.request)
      {
        InTerm(states, events, a, k + 1, n, i);
        KeptOnce(states, events, a, k, i);
      }
    }
  }
}
