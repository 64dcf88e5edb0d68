/** Log positions over whole runs: what last terms mean, what votes and promises say of them, and what the match slots
    are worth with which a leader starts. */
module Positions {
  import opened Types
  import opened TrueTime
  import opened Wal
  import opened Views
  import opened FollowerRole
  import opened LeaderRole
  import opened CandidateRole
  import opened PreCandidateRole
  import opened StateMachine
  import opened Group
  import opened Facts
  import opened Outcomes
  import opened ElectionSafety
  import opened LogMatching
  import opened Durability
  import opened ProbeAnchors
  import Takeovers
  import opened Runs
  import opened Survival

  // ----- The last term is that of the entry at the last slot -----

  ghost predicate PositionOK(ctx: ContextView) {
    ctx.lastLogSlot in ctx.wal ==> ctx.wal[ctx.lastLogSlot].term == ctx.lastLogTerm
  }

  ghost predicate PositionInv(s: State) { forall i :: i in s.members ==> PositionOK(s.members[i].ctx) }

  lemma JudgedPosition(ctx: ContextView, request: AcceptRequest)
    requires PositionOK(ctx)
    ensures PositionOK(Judge(ctx, request).ctx)
  {
    if AnchorMatches(ctx.wal, request) { AcceptedPosition(ctx, request); }
  }

  lemma ElectedPosition(ctx: ContextView, c: CandidateView)
    requires c.dispatched.Some? && PositionOK(ctx)
    ensures PositionOK(ElectedContext(ctx, c))
  {
    var own := Inherited(ctx, c);
    assert Restamp(own, ctx.term).Keys == own.Keys;
    if own != map[] { assert Top(Restamp(own, ctx.term)) in own; }
  }

  lemma RequestPosition(m: Member, e: Event, m': Member, now: Time)
    requires PositionOK(m.ctx) && (e.VoteAsked? || e.AcceptAsked?)
    requires ValidAt(e.roleCheck, now) && ValidAt(e.check, now) && ValidAt(e.extend, now)
    requires m' == if e.VoteAsked? then ProcessVoteRequest(m, e.ask.request, e.roleCheck, e.check, e.extend).m
                   else ProcessAcceptRequest(m, e.sent.request, e.roleCheck, e.check, e.extend).m
    ensures PositionOK(m'.ctx)
  {
    if e.VoteAsked? {
      VoteRequestFacts(m, e.ask.request, e.roleCheck, e.check, e.extend, now);
    } else {
      AcceptRequestFacts(m, e.sent.request, e.roleCheck, e.check, e.extend, now);
      JudgedPosition(m.ctx.(term := e.sent.request.term), e.sent.request);
    }
  }

  lemma CampaignPosition(s: State, e: Event)
    requires PositionInv(s) && Enabled(s, e) && (e.PreVoteReply? || e.VoteReply?) && ElectionInv(s)
    ensures PositionInv(Next(s, e))
  {
    var m := s.members[e.i];
    assert PositionOK(m.ctx);
    if e.PreVoteReply? {
      assert MemberOK(m, e.i, s.members.Keys, s.ballots, s.wins, s.now);
      PreVoteReplyFacts(m, e.preVote, e.reading, s.now);
      PositionChange(s, e.i, PreVoteReplyNext(s, e.i, OnPreVoteResponse(m.ctx, m.role.p, e.preVote, e.reading)));
    } else {
      VoteReplyFacts(m, e.answer, e.reading, e.tSends, s.now);
      VoteReplyPosition(s, e.i, e.answer, OnVoteResponse(m.ctx, m.role.c, e.answer.response, e.reading, e.tSends));
    }
  }

  lemma VoteReplyPosition(s: State, i: Id, answer: Answer, r: VoteResult)
    requires PositionInv(s) && i in s.members && s.members[i].role.Campaigning?
    requires answer.response.memberId in s.members[i].role.c.score
    requires ElectFacts(s.members[i], answer.response, r, s.now)
    ensures PositionInv(VoteReplyNext(s, i, r))
  {
    var m := s.members[i];
    assert PositionOK(m.ctx);
    if r.Elected? { ElectedPosition(m.ctx, RecordVote(m.ctx, m.role.c, answer.response)); }
    PositionChange(s, i, VoteReplyNext(s, i, r));
  }

  lemma PositionChange(s: State, i: Id, s': State)
    requires PositionInv(s) && i in s.members && i in s'.members && s'.members == s.members[i := s'.members[i]]
    requires PositionOK(s'.members[i].ctx)
    ensures PositionInv(s')
  {}

  /** Every event, without assumption, keeps the last term that of the entry at the last slot. */
  lemma PositionStep(s: State, e: Event)
    requires ElectionInv(s) && PositionInv(s) && Enabled(s, e)
    ensures PositionInv(Next(s, e))
  {
    if e.PreVoteReply? || e.VoteReply? {
      CampaignPosition(s, e);
    } else if !e.Tick? && !e.Answered? {
      OtherPosition(s, e, Next(s, e));
    }
  }

  lemma OtherPosition(s: State, e: Event, s': State)
    requires PositionInv(s) && Enabled(s, e) && s' == Next(s, e)
    requires e.VoteAsked? || e.AcceptAsked? || Quiet(e) || Routine(e) || e.AcceptReply? || e.ClientWrite?
    ensures PositionInv(s')
  {
    var m := s.members[e.i];
    assert PositionOK(m.ctx);
    if e.VoteAsked? || e.AcceptAsked? {
      RequestPosition(m, e, s'.members[e.i], s.now);
    } else if Quiet(e) {
      QuietMemberFacts(m, e, s.now);
    } else if Routine(e) {
      RoutineStepFacts(m, e, s.now);
    } else if e.AcceptReply? {
      AcceptReplyFacts(m, e.ack.response, e.tSend, s.now);
    }
    PositionChange(s, e.i, s');
  }

  lemma {:induction false} PositionsAlways(states: seq<State>, events: seq<Event>, n: nat)
    requires IsExecution(states, events) && n <= |events|
    ensures PositionInv(states[n])
    decreases n
  {
    if n > 0 {
      PositionsAlways(states, events, n - 1);
      PositionOnce(states, events, n - 1);
    }
  }

  lemma PositionOnce(states: seq<State>, events: seq<Event>, n: nat)
    requires IsExecution(states, events) && n < |events| && PositionInv(states[n])
    ensures PositionInv(states[n + 1])
  {
    SafetyAlways(states, events, n);
    assert IsStep(states[n], events[n], states[n + 1]);
    PositionStep(states[n], events[n]);
  }

  /** In every state of every run and in every role, a member's last log term is that of the entry that its log holds at
      its last slot, if it holds one there. */
  lemma LastTermIsOfLastEntry(states: seq<State>, events: seq<Event>, n: nat, i: Id)
    requires IsExecution(states, events) && n <= |events| && i in states[n].members
    ensures var ctx := states[n].members[i].ctx;
      ctx.lastLogSlot in ctx.wal ==> ctx.wal[ctx.lastLogSlot].term == ctx.lastLogTerm
  {
    PositionsAlways(states, events, n);
    assert PositionOK(states[n].members[i].ctx);
  }

  // ----- Votes go to candidates whose log is not behind -----

  // Event `m` started the campaign that asks: the request names the campaigner's own position.
  ghost predicate AskedAt(states: seq<State>, events: seq<Event>, m: nat, ask: Ask)
    requires IsExecution(states, events)
  {
    m < |events| && events[m].PreVoteReply? && AskedBy(states[m + 1].members, ask)
  }

  ghost predicate AskedBy(members: map<Id, Member>, ask: Ask) {
    var i := ask.request.memberId;
    && i in members && SameCampaign(members[i], ask)
    && ask.request.lastLogTerm == members[i].ctx.lastLogTerm && ask.request.lastLogSlot == members[i].ctx.lastLogSlot
  }

  lemma NewAsksAre(s: State, e: Event, s': State, ask: Ask)
    requires ElectionInv(s) && Enabled(s, e) && s' == Next(s, e) && ask in s'.asks && ask !in s.asks
    ensures e.PreVoteReply? && AskedBy(s'.members, ask)
  {
    if e.PreVoteReply? {
      var m := s.members[e.i];
      assert MemberOK(m, e.i, s.members.Keys, s.ballots, s.wins, s.now);
      PreVoteReplyFacts(m, e.preVote, e.reading, s.now);
      PromotionAsks(s, e.i, OnPreVoteResponse(m.ctx, m.role.p, e.preVote, e.reading), s', ask);
    } else {
      OthersAskNothing(s, e, s');
    }
  }

  lemma PromotionAsks(s: State, i: Id, r: PreVoteResult, s': State, ask: Ask)
    requires i in s.members && s.members[i].role.PreCampaigning? && s.members[i].ctx.memberId == i
    requires PreVoteFacts(s.members[i], r, s.now) && s' == PreVoteReplyNext(s, i, r)
    requires ask in s'.asks && ask !in s.asks
    ensures AskedBy(s'.members, ask)
  {}

  lemma OthersAskNothing(s: State, e: Event, s': State)
    requires Enabled(s, e) && s' == Next(s, e) && !e.PreVoteReply?
    ensures s'.asks == s.asks
  {
    if e.VoteReply? { VoteRepliesAskNothing(s, e, s'); } else if e.AcceptReply? { AcceptRepliesAskNothing(s, e, s'); }
  }

  lemma VoteRepliesAskNothing(s: State, e: Event, s': State)
    requires Enabled(s, e) && s' == Next(s, e) && e.VoteReply?
    ensures s'.asks == s.asks
  {}

  lemma AcceptRepliesAskNothing(s: State, e: Event, s': State)
    requires Enabled(s, e) && s' == Next(s, e) && e.AcceptReply?
    ensures s'.asks == s.asks
  {}

  lemma AskedOnce(states: seq<State>, events: seq<Event>, n: nat, ask: Ask)
    requires IsExecution(states, events) && n < |events| && ask in states[n + 1].asks && ask !in states[n].asks
    ensures AskedAt(states, events, n, ask)
  {
    SafetyAlways(states, events, n);
    assert IsStep(states[n], events[n], states[n + 1]);
    NewAsksAre(states[n], events[n], states[n + 1], ask);
  }

  lemma {:induction false} AskArose(states: seq<State>, events: seq<Event>, n: nat, ask: Ask) returns (m: nat)
    requires IsExecution(states, events) && n <= |events| && ask in states[n].asks
    ensures m < n && AskedAt(states, events, m, ask)
    decreases n
  {
    if n == 0 {
      assert false;
    } else if ask in states[n - 1].asks {
      m := AskArose(states, events, n - 1, ask);
    } else {
      m := n - 1;
      AskedOnce(states, events, n - 1, ask);
    }
  }

  /** In every run, a vote goes to a candidate that was behind the voter neither in its last term nor in its last slot
      when it started to campaign, by its own position then. */
  lemma VotesGoToCurrentLogs(states: seq<State>, events: seq<Event>, n: nat, j: Id, ask: Ask, response: VoteResponse)
    returns (m: nat)
    requires IsExecution(states, events) && AnsweredAt(states, events, n, j, ask, response)
    requires response.outcome.Promise?
    ensures m < n && AskedAt(states, events, m, ask)
    ensures ask.request.memberId in states[m + 1].members
    ensures var voter, candidate := states[n].members[j].ctx, states[m + 1].members[ask.request.memberId].ctx;
      voter.lastLogTerm <= candidate.lastLogTerm && voter.lastLogSlot <= candidate.lastLogSlot
  {
    var e := events[n];
    assert IsStep(states[n], e, states[n + 1]);
    m := AskArose(states, events, n, ask);
    IntendedPromisesExactlyWhen(states[n].members[j], ask.request, e.roleCheck, e.check, e.extend);
  }

  // ----- What a leader starts from -----

  // Event `n` made some member the leader of the term, with these match slots.
  ghost predicate SeededAt(states: seq<State>, events: seq<Event>, n: nat, i: Id, term: nat, seeds: map<Id, nat>)
    requires IsExecution(states, events)
  {
    && WinsAt(states, events, n, i) && states[n + 1].members[i].ctx.term == term
    && seeds == Matches(states[n + 1].members[i].role.l.score)
  }

  lemma NewSeedsAre(s: State, e: Event, s': State, term: nat)
    requires Enabled(s, e) && s' == Next(s, e) && term in s'.seeds
    requires term in s.seeds ==> s'.seeds[term] != s.seeds[term]
    ensures e.VoteReply? && e.i in s.members && e.i in s'.members && s'.members[e.i].role.Leading?
    ensures s'.members[e.i].ctx.term == term && s'.seeds[term] == Matches(s'.members[e.i].role.l.score)
  {
    if e.VoteReply? {
      var m := s.members[e.i];
      WinSeeds(s, e.i, OnVoteResponse(m.ctx, m.role.c, e.answer.response, e.reading, e.tSends), s', term);
    } else {
      OthersSeedNothing(s, e, s');
    }
  }

  lemma WinSeeds(s: State, i: Id, r: VoteResult, s': State, term: nat)
    requires i in s.members && s' == VoteReplyNext(s, i, r) && term in s'.seeds
    requires term in s.seeds ==> s'.seeds[term] != s.seeds[term]
    ensures i in s'.members && s'.members[i].role.Leading?
    ensures s'.members[i].ctx.term == term && s'.seeds[term] == Matches(s'.members[i].role.l.score)
  {}

  lemma OthersSeedNothing(s: State, e: Event, s': State)
    requires Enabled(s, e) && s' == Next(s, e) && !e.VoteReply?
    ensures s'.seeds == s.seeds
  {
    if e.AcceptReply? { ReplySeedsNothing(s, e, s'); }
  }

  lemma ReplySeedsNothing(s: State, e: Event, s': State)
    requires Enabled(s, e) && s' == Next(s, e) && e.AcceptReply?
    ensures s'.seeds == s.seeds
  {}

  lemma {:induction false} SeedsArose(states: seq<State>, events: seq<Event>, n: nat, term: nat) returns (m: nat, i: Id)
    requires IsExecution(states, events) && n <= |events| && term in states[n].seeds
    ensures m < n && SeededAt(states, events, m, i, term, states[n].seeds[term])
    decreases n
  {
    if n == 0 {
      assert false;
    } else if term in states[n - 1].seeds && states[n].seeds[term] == states[n - 1].seeds[term] {
      m, i := SeedsArose(states, events, n - 1, term);
    } else {
      m := n - 1;
      i := SeededOnce(states, events, n - 1, term);
    }
  }

  lemma SeededOnce(states: seq<State>, events: seq<Event>, n: nat, term: nat) returns (i: Id)
    requires IsExecution(states, events) && n < |events| && term in states[n + 1].seeds
    requires term in states[n].seeds ==> states[n + 1].seeds[term] != states[n].seeds[term]
    ensures SeededAt(states, events, n, i, term, states[n + 1].seeds[term])
  {
    assert IsStep(states[n], events[n], states[n + 1]);
    NewSeedsAre(states[n], events[n], states[n + 1], term);
    i := events[n].i;
  }

  // The winner's board as it was before the first broadcast, which moves no match slot.
  lemma WinnerBoard(states: seq<State>, events: seq<Event>, n: nat, i: Id)
    requires IsExecution(states, events) && WinsAt(states, events, n, i)
    ensures var w, l := Winner(states, events, n, i), states[n + 1].members[i].role.l;
      && w.role.Campaigning? && w.role.c.dispatched.Some?
      && states[n + 1].members[i].ctx == ElectedContext(w.ctx, w.role.c)
      && l.score.Keys == w.role.c.score.Keys
      && (forall j :: j in l.score ==> l.score[j].pos.matchSlot == w.role.c.score[j].matchSlot)
      && SeedsOK(states[n].answers, w)
      && forall a :: PromiseTo(w, a) <==> PromiseTo(states[n].members[i], a)
  {
    var s, e := states[n], events[n];
    assert IsStep(s, e, states[n + 1]);
    CollectAlways(states, events, n);
    assert CollectedOK(s.answers, s.members[i]);
    VoteReplyFacts(s.members[i], e.answer, e.reading, e.tSends, s.now);
    RecordedSeed(s.answers, s.members[i], e.answer);
    ElectedBoardIs(s, i, e.answer,
      OnVoteResponse(s.members[i].ctx, s.members[i].role.c, e.answer.response, e.reading, e.tSends), states[n + 1]);
  }

  lemma ElectedBoardIs(s: State, i: Id, answer: Answer, r: VoteResult, s': State)
    requires i in s.members && s.members[i].role.Campaigning? && answer.response.memberId in s.members[i].role.c.score
    requires ElectFacts(s.members[i], answer.response, r, s.now) && s' == VoteReplyNext(s, i, r)
    requires i in s'.members && s'.members[i].role.Leading?
    ensures var c1, l := RecordVote(s.members[i].ctx, s.members[i].role.c, answer.response), s'.members[i].role.l;
      && c1.dispatched.Some? && s'.members[i].ctx == ElectedContext(s.members[i].ctx, c1)
      && l.score.Keys == c1.score.Keys
      && forall j :: j in l.score ==> l.score[j].pos.matchSlot == c1.score[j].matchSlot
  {
    var c1 := RecordVote(s.members[i].ctx, s.members[i].role.c, answer.response);
    BoardKeys(s.members[i].ctx, c1);
    BoardKeepsMatches(s.members[i].ctx, c1);
  }

  lemma BoardKeepsMatches(ctx: ContextView, c: CandidateView)
    requires c.dispatched.Some?
    ensures forall j :: j in ElectedBoard(ctx, c).score ==>
      j in c.score && ElectedBoard(ctx, c).score[j].pos.matchSlot == c.score[j].matchSlot
  {}

  /** In every run, a match slot with which a leader starts is 0 or what a promise seeds: its giver's last term, when it
      answered this campaign, was the candidate's own, and the slot is as far as the last slots of both go. */
  lemma SeedsArePromised(states: seq<State>, events: seq<Event>, n: nat, i: Id, j: Id) returns (m: nat, a: Answer)
    requires IsExecution(states, events) && WinsAt(states, events, n, i)
    requires j in states[n + 1].members[i].role.l.score && states[n + 1].members[i].role.l.score[j].pos.matchSlot > 0
    ensures m < n && AnsweredAt(states, events, m, j, a.ask, a.response) && PromiseTo(states[n].members[i], a)
    ensures var giver, candidate := states[m].members[j].ctx, states[n].members[i].ctx;
      && giver.lastLogTerm == candidate.lastLogTerm
      && states[n + 1].members[i].role.l.score[j].pos.matchSlot == Min(giver.lastLogSlot, candidate.lastLogSlot)
  {
    var w, slot := Winner(states, events, n, i), states[n + 1].members[i].role.l.score[j].pos.matchSlot;
    WinnerBoard(states, events, n, i);
    a :| a in states[n].answers && PromiseTo(w, a) && a.response.memberId == j
      && Seeds(w.ctx, a.response.outcome, slot);
    var k;
    m, k := AnswerArose(states, events, n, a);
    PromiseReports(states, events, m, k, a.ask, a.response);
  }

  /** What such a match slot is worth in a run: if the logs of both had no gap, they agreed through it when the promise
      was given; and the leader's log after it has restamped what it takes over still agrees with the giver's of then
      exactly when nothing up to the slot is taken over. */
  lemma SeedsAreCopiesIff(states: seq<State>, events: seq<Event>, n: nat, i: Id, j: Id, m: nat, a: Answer)
    requires IsExecution(states, events) && WinsAt(states, events, n, i) && m < n
    requires AnsweredAt(states, events, m, j, a.ask, a.response)
    requires j in states[n + 1].members[i].role.l.score
    requires var giver, candidate := states[m].members[j].ctx, states[n].members[i].ctx;
      && giver.lastLogTerm == candidate.lastLogTerm
      && TopIs(giver.wal, giver.lastLogSlot) && TopIs(candidate.wal, candidate.lastLogSlot)
      && states[n + 1].members[i].role.l.score[j].pos.matchSlot == Min(giver.lastLogSlot, candidate.lastLogSlot)
    ensures var giver, w := states[m].members[j].ctx, Winner(states, events, n, i);
      var leader, slot := states[n + 1].members[i].ctx, states[n + 1].members[i].role.l.score[j].pos.matchSlot;
      && w.role.Campaigning? && Agree(w.ctx.wal, giver.wal, slot)
      && (Agree(leader.wal, giver.wal, slot) <==> forall s :: s in Inherited(w.ctx, w.role.c) && s > 0 ==> s > slot)
  {
    var giver, w := states[m].members[j].ctx, Winner(states, events, n, i);
    WinnerBoard(states, events, n, i);
    GiverMatches(states, events, n, i, j, m);
    WinnerTermIsNew(states, events, n, i);
    PositionsAlways(states, events, m);
    PositionsAlways(states, events, n);
    assert PositionOK(giver) && PositionOK(w.ctx);
    CopyCurrentIff(w.ctx, w.role.c, giver, states[n].logs);
  }

  // The log of the term's log map covers the giver's log of an earlier moment, and the candidate's.
  lemma GiverMatches(states: seq<State>, events: seq<Event>, n: nat, i: Id, j: Id, m: nat)
    requires IsExecution(states, events) && m <= n <= |events| && j in states[m].members && i in states[n].members
    ensures Matched(states[m].members[j].ctx.wal, states[n].logs)
    ensures Matched(states[n].members[i].ctx.wal, states[n].logs)
  {
    LogsAlways(states, events, m);
    LogsAlways(states, events, n);
    LogsGrow(states, events, m, n);
    assert MemberLogOK(states[m].members[j], states[m].logs) && MemberLogOK(states[n].members[i], states[n].logs);
    MatchedMono(states[m].members[j].ctx.wal, states[m].logs, states[n].logs);
  }

  lemma WinnerTermIsNew(states: seq<State>, events: seq<Event>, n: nat, i: Id)
    requires IsExecution(states, events) && WinsAt(states, events, n, i)
    ensures states[n].members[i].ctx.term !in states[n].logs
  {
    LogsAlways(states, events, n);
    SafetyAlways(states, events, n + 1);
    assert IsStep(states[n], events[n], states[n + 1]);
    StepGrows(states[n], events[n]);
    var m := states[n].members[i];
    VoteReplyFacts(m, events[n].answer, events[n].reading, events[n].tSends, states[n].now);
    Takeovers.CampaignTermIsNew(states[n], i, states[n + 1]);
  }

  lemma CopyCurrentIff(ctx: ContextView, c: CandidateView, giver: ContextView, logs: map<nat, Log>)
    requires c.dispatched.Some? && Topped(ctx) && Topped(giver) && giver.lastLogTerm == ctx.lastLogTerm
    requires Matched(ctx.wal, logs) && Matched(giver.wal, logs) && ctx.term !in logs
    ensures var slot := Min(giver.lastLogSlot, ctx.lastLogSlot);
      && Agree(ctx.wal, giver.wal, slot)
      && (Agree(ElectedContext(ctx, c).wal, giver.wal, slot)
          <==> forall s :: s in Inherited(ctx, c) && s > 0 ==> s > slot)
  {
    ToppedAgree(ctx, giver, logs);
    assert forall s :: s in giver.wal ==> giver.wal[s].term in logs;
    RestampDiffers(ctx.wal, giver.wal, Inherited(ctx, c), ctx.term, Min(giver.lastLogSlot, ctx.lastLogSlot));
  }

  // The winner's board points just past its log, with nothing sent.
  lemma BoardStartsPast(ctx: ContextView, c: CandidateView, j: Id)
    requires c.dispatched.Some? && j in c.score
    requires c.score[j].nextSlot == ctx.lastLogSlot + 1 && c.score[j].sentSlot == 0
    ensures var next, board := ElectedContext(ctx, c), ElectedBoard(ctx, c);
      && j in board.score && board.score[j].batches == []
      && board.score[j].pos.nextSlot == next.lastLogSlot + 1 && board.score[j].pos.sentSlot == 0
  {}

  lemma NothingPastLast(m: Log, last: nat)
    requires Within(m, last)
    ensures EntriesFrom(m, last + 1) == []
  {}

  // The first request to a follower, and what the board notes of it.
  lemma FirstRequest(ctx: ContextView, c: CandidateView, step: LeaderStep, now: Time, j: Id)
    requires ElectedFacts(ctx, c, step, now) && j in c.score && Within(step.ctx.wal, step.ctx.lastLogSlot)
    requires c.score[j].nextSlot == ctx.lastLogSlot + 1 && c.score[j].sentSlot == 0
    ensures j in step.requests && j in step.l.score
    ensures step.requests[j].prevLogSlot == step.ctx.lastLogSlot && step.requests[j].entries == []
    ensures var p := step.l.score[j];
      p.pos.nextSlot == step.ctx.lastLogSlot + 1 && p.pos.sentSlot == 0 && p.batches == []
  {
    BoardStartsPast(ctx, c, j);
    BoardKeys(ctx, c);
    NothingPastLast(step.ctx.wal, step.ctx.lastLogSlot);
    assert WellPosted(step.ctx, step.requests[j], now);
  }

  lemma FirstRequestPosted(s: State, i: Id, answer: Answer, r: VoteResult, s': State, j: Id)
    requires i in s.members && s.members[i].role.Campaigning? && answer.response.memberId in s.members[i].role.c.score
    requires ElectFacts(s.members[i], answer.response, r, s.now) && s' == VoteReplyNext(s, i, r) && i in s'.members
    requires s'.members[i].role.Leading? && j in s'.members[i].role.l.score
    requires RoleProgressOK(s.members[i]) && Within(s'.members[i].ctx.wal, s'.members[i].ctx.lastLogSlot)
    ensures StartsPast(s, s', i, j)
  {
    var c1 := RecordVote(s.members[i].ctx, s.members[i].role.c, answer.response);
    RecordedSeeds(s.members[i].ctx, s.members[i].role.c, answer.response);
    FirstRequest(s.members[i].ctx, c1, r.step, s.now, j);
    var sent := Sent(j, r.step.requests[j], r.step.ctx, s.sendNo);
    assert sent in Posted(r.step.requests, r.step.ctx, s.sendNo);
    assert sent in s'.sents;
  }

  // Nothing is in flight to the follower, and the last request to it carries nothing, from just past the leader's log.
  ghost predicate StartsPast(s: State, s': State, i: Id, j: Id)
    requires i in s'.members && s'.members[i].role.Leading? && j in s'.members[i].role.l.score
  {
    var ctx, p := s'.members[i].ctx, s'.members[i].role.l.score[j];
    && p.pos.nextSlot == ctx.lastLogSlot + 1 && p.pos.sentSlot == 0 && p.batches == []
    && exists sent :: sent in s'.sents && sent.to == j && sent.origin == ctx && sent.no == s.sendNo
         && sent.request.prevLogSlot == ctx.lastLogSlot && sent.request.entries == []
  }

  /** In every run, a new leader starts out sending to every follower from just past its own log, whatever it has taken
      over: nothing is in flight, and its first request carries no entry. */
  lemma LeadersStartPastTheirLog(states: seq<State>, events: seq<Event>, n: nat, i: Id, j: Id)
    requires IsExecution(states, events) && WinsAt(states, events, n, i)
    requires j in states[n + 1].members[i].role.l.score
    ensures StartsPast(states[n], states[n + 1], i, j)
  {
    var m, e := states[n].members[i], events[n];
    assert IsStep(states[n], e, states[n + 1]);
    ProgressAlways(states, events, n);
    LogsAlways(states, events, n + 1);
    assert MemberLogOK(states[n + 1].members[i], states[n + 1].logs) && RoleProgressOK(m);
    VoteReplyFacts(m, e.answer, e.reading, e.tSends, states[n].now);
    FirstRequestPosted(states[n], i, e.answer, OnVoteResponse(m.ctx, m.role.c, e.answer.response, e.reading, e.tSends),
                       states[n + 1], j);
  }
}
