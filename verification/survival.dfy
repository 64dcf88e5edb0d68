/** A value that a quorum holds survives an election, over whole runs. */
module Survival {
  import opened Types
  import opened Wal
  import opened Quorums
  import opened Views
  import opened CandidateRole
  import opened PreCandidateRole
  import opened StateMachine
  import opened Group
  import opened Facts
  import opened ElectionSafety
  import opened LogMatching
  import opened EntryMerge
  import opened Runs

  // ----- What a candidate has collected -----

  // The answer is a promise to the campaign that `m` runs.
  ghost predicate PromiseTo(m: Member, a: Answer) {
    SameCampaign(m, a.ask) && a.response.outcome.Promise?
  }

  // The entries that the campaign of `m` was offered so far.
  ghost function OfferedTo(answers: set<Answer>, m: Member): set<LogEntry> {
    set a, e | a in answers && PromiseTo(m, a) && e in a.response.outcome.uncommittedEntries :: e
  }

  // The recorded promise of `j` is one of the answers, and its entries are among `offered`.
  ghost predicate RecordedFrom(answers: set<Answer>, m: Member, j: Id, response: VoteResponse, offered: set<LogEntry>) {
    && response.outcome.Promise? && response.memberId == j
    && Elements(response.outcome.uncommittedEntries) <= offered
    && exists a :: a in answers && PromiseTo(m, a) && a.response == response
  }

  ghost predicate Collected(answers: set<Answer>, m: Member, offered: set<LogEntry>)
    requires m.role.Campaigning?
  {
    && IsJoin(m.role.c.pending, offered)
    && offered <= OfferedTo(answers, m)
    && forall j :: j in Promisers(m.role.c.votes) ==>
         RecordedFrom(answers, m, j, m.role.c.votes[j].value, offered)
  }

  ghost predicate CollectedOK(answers: set<Answer>, m: Member) {
    m.role.Campaigning? ==> (exists offered :: Collected(answers, m, offered)) && SeedsOK(answers, m)
  }

  // The length that a promise seeds: as far as both logs go, if they end in entries of one term.
  ghost predicate Seeds(ctx: ContextView, outcome: VoteOutcome, slot: nat)
    requires outcome.Promise?
  {
    outcome.lastLogTerm == ctx.lastLogTerm && slot == Min(outcome.lastLogSlot, ctx.lastLogSlot)
  }

  // A promise of `j` to the campaign seeds the slot.
  ghost predicate SeededBy(answers: set<Answer>, m: Member, j: Id, slot: nat) {
    exists a :: a in answers && PromiseTo(m, a) && a.response.memberId == j && Seeds(m.ctx, a.response.outcome, slot)
  }

  // Whatever a match slot starts from was promised, and a recorded promise that ends in the candidate's last term
  // counts.
  ghost predicate SeedsOK(answers: set<Answer>, m: Member)
    requires m.role.Campaigning?
  {
    && (forall j :: j in m.role.c.score && m.role.c.score[j].matchSlot > 0 ==>
          SeededBy(answers, m, j, m.role.c.score[j].matchSlot))
    && (forall j :: j in Promisers(m.role.c.votes) && j in m.role.c.score ==>
          PromiseSeeds(m.ctx, m.role.c.votes[j].value.outcome, m.role.c.score[j].matchSlot))
  }

  ghost predicate PromiseSeeds(ctx: ContextView, outcome: VoteOutcome, slot: nat)
    requires outcome.Promise?
  {
    outcome.lastLogTerm == ctx.lastLogTerm ==> Seeds(ctx, outcome, slot)
  }

  ghost predicate CollectInv(s: State) {
    forall i :: i in s.members ==> CollectedOK(s.answers, s.members[i])
  }

  lemma CollectedMono(answers: set<Answer>, answers': set<Answer>, m: Member, m': Member)
    requires answers <= answers' && CollectedOK(answers, m)
    requires m'.role.Campaigning? ==>
      m' == m || (m'.role == m.role && SameCandidate(m.ctx, m'.ctx))
    ensures CollectedOK(answers', m')
  {
    if m'.role.Campaigning? {
      SeedsMono(answers, answers', m, m');
      var offered :| Collected(answers, m, offered);
      assert forall a :: PromiseTo(m, a) <==> PromiseTo(m', a);
      assert OfferedTo(answers, m) <= OfferedTo(answers', m');
      forall j | j in Promisers(m'.role.c.votes)
        ensures RecordedFrom(answers', m', j, m'.role.c.votes[j].value, offered)
      {
        assert RecordedFrom(answers, m, j, m.role.c.votes[j].value, offered);
      }
      assert Collected(answers', m', offered);
    }
  }

  // Nothing of what a campaign is about changes.
  ghost predicate SameCandidate(a: ContextView, b: ContextView) {
    && a.term == b.term && a.memberId == b.memberId
    && a.lastLogTerm == b.lastLogTerm && a.lastLogSlot == b.lastLogSlot
  }

  lemma SeedsMono(answers: set<Answer>, answers': set<Answer>, m: Member, m': Member)
    requires answers <= answers' && m.role.Campaigning? && SeedsOK(answers, m)
    requires m'.role == m.role && SameCandidate(m.ctx, m'.ctx)
    ensures SeedsOK(answers', m')
  {
    forall j | j in m'.role.c.score && m'.role.c.score[j].matchSlot > 0
      ensures SeededBy(answers', m', j, m'.role.c.score[j].matchSlot)
    {
      var a :| a in answers && PromiseTo(m, a) && a.response.memberId == j
        && Seeds(m.ctx, a.response.outcome, m.role.c.score[j].matchSlot);
      assert a in answers' && PromiseTo(m', a);
    }
  }

  // Recording a promise moves the seed of its giver alone, and only to what the promise seeds.
  lemma RecordedSeed(answers: set<Answer>, m: Member, answer: Answer)
    requires m.role.Campaigning? && SeedsOK(answers, m) && answer in answers && SameCampaign(m, answer.ask)
    requires answer.response.memberId in m.role.c.score
    ensures SeedsOK(answers, Member(m.ctx, Campaigning(RecordVote(m.ctx, m.role.c, answer.response))))
  {
    var m' := Member(m.ctx, Campaigning(RecordVote(m.ctx, m.role.c, answer.response)));
    forall j | j in m'.role.c.score && m'.role.c.score[j].matchSlot > 0
      ensures SeededBy(answers, m', j, m'.role.c.score[j].matchSlot)
    {
      if m'.role.c.score[j].matchSlot == m.role.c.score[j].matchSlot {
        var a :| a in answers && PromiseTo(m, a) && a.response.memberId == j
          && Seeds(m.ctx, a.response.outcome, m.role.c.score[j].matchSlot);
        assert PromiseTo(m', a);
      } else {
        assert PromiseTo(m', answer);
      }
    }
  }

  lemma NewCampaignCollected(answers: set<Answer>, m: Member)
    requires m.role.Campaigning? && m.role.c.pending == map[] && Promisers(m.role.c.votes) == {}
    requires forall j :: j in m.role.c.score ==> m.role.c.score[j].matchSlot == 0
    ensures CollectedOK(answers, m)
  {
    assert Collected(answers, m, {});
  }

  // Recording one more answer to the campaign.
  lemma RecordCollected(answers: set<Answer>, m: Member, answer: Answer)
    requires m.role.Campaigning? && CollectedOK(answers, m) && answer in answers && SameCampaign(m, answer.ask)
    requires answer.response.memberId in m.role.c.score
    ensures CollectedOK(answers, Member(m.ctx, Campaigning(RecordVote(m.ctx, m.role.c, answer.response))))
  {
    var m' := Member(m.ctx, Campaigning(RecordVote(m.ctx, m.role.c, answer.response)));
    var before :| Collected(answers, m, before);
    var after := before;
    if answer.response.outcome.Promise? {
      after := before + Elements(answer.response.outcome.uncommittedEntries);
      MergeIsJoin(m.role.c.pending, before, answer.response.outcome.uncommittedEntries);
    }
    assert forall a :: PromiseTo(m, a) <==> PromiseTo(m', a);
    assert OfferedTo(answers, m) == OfferedTo(answers, m');
    assert after <= OfferedTo(answers, m');
    forall j | j in Promisers(m'.role.c.votes)
      ensures RecordedFrom(answers, m', j, m'.role.c.votes[j].value, after)
    {
      if j == answer.response.memberId {
        assert PromiseTo(m', answer);
      } else {
        assert RecordedFrom(answers, m, j, m.role.c.votes[j].value, before);
      }
    }
    assert Collected(answers, m', after);
    RecordedSeed(answers, m, answer);
  }

  // ----- Preservation -----

  lemma CollectFrame(s: State, i: Id, s': State)
    requires CollectInv(s) && i in s.members && i in s'.members && s'.members == s.members[i := s'.members[i]]
    requires s.answers <= s'.answers && CollectedOK(s'.answers, s'.members[i])
    ensures CollectInv(s')
  {
    forall j | j in s'.members ensures CollectedOK(s'.answers, s'.members[j]) {
      if j != i { CollectedMono(s.answers, s'.answers, s.members[j], s'.members[j]); }
    }
  }

  lemma KeptCollected(s: State, i: Id, m': Member, s': State)
    requires CollectInv(s) && i in s.members && s'.members == s.members[i := m'] && s.answers <= s'.answers
    requires m'.role.Campaigning? ==> m'.role == s.members[i].role && SameCandidate(s.members[i].ctx, m'.ctx)
    ensures CollectInv(s')
  {
    CollectedMono(s.answers, s'.answers, s.members[i], m');
    CollectFrame(s, i, s');
  }

  lemma PreVoteCollected(s: State, i: Id, r: PreVoteResult)
    requires CollectInv(s) && i in s.members && s.members[i].role.PreCampaigning?
    requires PreVoteFacts(s.members[i], r, s.now)
    ensures CollectInv(PreVoteReplyNext(s, i, r))
  {
    var s' := PreVoteReplyNext(s, i, r);
    if r.Promoted? {
      NewCampaignCollected(s'.answers, s'.members[i]);
      CollectFrame(s, i, s');
    } else {
      KeptCollected(s, i, s'.members[i], s');
    }
  }

  lemma VoteReplyCollected(s: State, i: Id, answer: Answer, r: VoteResult)
    requires CollectInv(s) && i in s.members && s.members[i].role.Campaigning?
    requires answer in s.answers && SameCampaign(s.members[i], answer.ask)
    requires answer.response.memberId in s.members[i].role.c.score
    requires ElectFacts(s.members[i], answer.response, r, s.now)
    ensures CollectInv(VoteReplyNext(s, i, r))
  {
    var s' := VoteReplyNext(s, i, r);
    RecordCollected(s.answers, s.members[i], answer);
    CollectFrame(s, i, s');
  }

  lemma CollectStep(s: State, e: Event)
    requires ElectionInv(s) && CollectInv(s) && Enabled(s, e)
    ensures CollectInv(Next(s, e))
  {
    if e.Tick? || e.Answered? {
    } else if e.VoteReply? {
      var m := s.members[e.i];
      VoteReplyFacts(m, e.answer, e.reading, e.tSends, s.now);
      VoteReplyCollected(s, e.i, e.answer, OnVoteResponse(m.ctx, m.role.c, e.answer.response, e.reading, e.tSends));
    } else if e.PreVoteReply? {
      var m := s.members[e.i];
      assert MemberOK(m, e.i, s.members.Keys, s.ballots, s.wins, s.now);
      PreVoteReplyFacts(m, e.preVote, e.reading, s.now);
      PreVoteCollected(s, e.i, OnPreVoteResponse(m.ctx, m.role.p, e.preVote, e.reading));
    } else {
      OtherCollectStep(s, e);
    }
  }

  lemma OtherCollectStep(s: State, e: Event)
    requires CollectInv(s) && Enabled(s, e)
    requires e.VoteAsked? || e.AcceptAsked? || e.AcceptReply? || e.ClientWrite? || Quiet(e) || Routine(e)
    ensures CollectInv(Next(s, e))
  {
    var m := s.members[e.i];
    if e.VoteAsked? {
      VoteRequestFacts(m, e.ask.request, e.roleCheck, e.check, e.extend, s.now);
    } else if e.AcceptAsked? {
      AcceptRequestFacts(m, e.sent.request, e.roleCheck, e.check, e.extend, s.now);
    } else if Quiet(e) {
      QuietMemberFacts(m, e, s.now);
    }
    KeptCollected(s, e.i, Next(s, e).members[e.i], Next(s, e));
  }

  // ----- Where answers come from -----

  // At event `m`, member `j` was asked by a campaign and gave the response.
  ghost predicate AnsweredAt(states: seq<State>, events: seq<Event>, m: nat, j: Id, ask: Ask, response: VoteResponse)
    requires IsExecution(states, events)
  {
    && m < |events| && events[m].VoteAsked? && events[m].i == j && events[m].ask == ask
    && j in states[m].members
    && response == ProcessVoteRequest(states[m].members[j], ask.request, events[m].roleCheck, events[m].check,
                                      events[m].extend).response
  }

  lemma AnswersFrom(s: State, e: Event)
    requires Enabled(s, e)
    ensures e.VoteAsked? ==>
      Next(s, e).answers == s.answers + {Answer(e.ask,
        ProcessVoteRequest(s.members[e.i], e.ask.request, e.roleCheck, e.check, e.extend).response, s.now)}
    ensures !e.VoteAsked? ==> Next(s, e).answers == s.answers
  {}

  lemma {:induction false} AnswerArose(states: seq<State>, events: seq<Event>, n: nat, a: Answer) returns (m: nat, j: Id)
    requires IsExecution(states, events) && n <= |events| && a in states[n].answers
    ensures m < n && AnsweredAt(states, events, m, j, a.ask, a.response)
    decreases n
  {
    if n == 0 {
      assert false;
    } else {
      assert IsStep(states[n - 1], events[n - 1], states[n]);
      AnswersFrom(states[n - 1], events[n - 1]);
      if a in states[n - 1].answers {
        m, j := AnswerArose(states, events, n - 1, a);
      } else {
        m, j := n - 1, events[n - 1].i;
      }
    }
  }

  // A promise reports the position and the uncommitted log of the member that gives it, as they stand.
  lemma PromiseReports(states: seq<State>, events: seq<Event>, m: nat, j: Id, ask: Ask, response: VoteResponse)
    requires IsExecution(states, events) && AnsweredAt(states, events, m, j, ask, response)
    requires response.outcome.Promise?
    ensures response.memberId == j
    ensures var giver := states[m].members[j].ctx;
      response.outcome.lastLogTerm == giver.lastLogTerm && response.outcome.lastLogSlot == giver.lastLogSlot
    ensures response.outcome.uncommittedEntries == EntriesFrom(states[m].members[j].ctx.uncommitted, 0)
  {
    SafetyAlways(states, events, m);
    assert MemberOK(states[m].members[j], j, states[m].members.Keys, states[m].ballots, states[m].wins, states[m].now);
    assert IsStep(states[m], events[m], states[m + 1]);
    VoteRequestFacts(states[m].members[j], ask.request, events[m].roleCheck, events[m].check, events[m].extend,
                     states[m].now);
  }

  // ----- Survival -----

  lemma {:induction false} CollectAlways(states: seq<State>, events: seq<Event>, n: nat)
    requires IsExecution(states, events) && n <= |events|
    ensures CollectInv(states[n])
    decreases n
  {
    if n > 0 {
      CollectAlways(states, events, n - 1);
      CollectOnce(states, events, n - 1);
    }
  }

  lemma CollectOnce(states: seq<State>, events: seq<Event>, n: nat)
    requires IsExecution(states, events) && n < |events| && CollectInv(states[n])
    ensures CollectInv(states[n + 1])
  {
    SafetyAlways(states, events, n);
    assert IsStep(states[n], events[n], states[n + 1]);
    CollectStep(states[n], events[n]);
  }

  // Event `n` makes member `i` the leader of its campaign's term.
  ghost predicate WinsAt(states: seq<State>, events: seq<Event>, n: nat, i: Id)
    requires IsExecution(states, events)
  {
    && n < |events| && events[n].VoteReply? && events[n].i == i && i in states[n].members && i in states[n + 1].members
    && states[n + 1].members[i].role.Leading?
  }

  // Every promiser recorded by `w` that belongs to `holders` held `e` when it promised; `w` too, if it does.
  ghost predicate HeldByVoters(states: seq<State>, events: seq<Event>, n: nat, w: Member, holders: set<Id>, e: LogEntry)
    requires IsExecution(states, events) && n < |states| && w.role.Campaigning?
  {
    && (forall m: nat, j, ask ::
          m < n && j in holders && j in Promisers(w.role.c.votes)
          && AnsweredAt(states, events, m, j, ask, w.role.c.votes[j].value) && SameCampaign(w, ask) ==>
            var held := states[m].members[j].ctx.uncommitted; e.slot in held && held[e.slot] == e)
    && (w.ctx.memberId in holders ==> e.slot in w.ctx.uncommitted && w.ctx.uncommitted[e.slot] == e)
  }

  // Neither the pending entries nor the candidate's own have a higher term at the slot of `e`.
  ghost predicate Unsurpassed(w: Member, e: LogEntry)
    requires w.role.Campaigning?
  {
    && (e.slot in w.role.c.pending ==> w.role.c.pending[e.slot].term <= e.term)
    && (e.slot in w.ctx.uncommitted ==> w.ctx.uncommitted[e.slot].term <= e.term)
  }

  lemma OfferedKnown(s: State, i: Id)
    requires LogInv(s) && i in s.members
    ensures SlotTermDetermine(
      Contested(OfferedTo(s.answers, s.members[i]), s.members[i].ctx.uncommitted, s.members[i].ctx.committedSlot))
  {
    var m := s.members[i];
    var contested := Contested(OfferedTo(s.answers, m), m.ctx.uncommitted, m.ctx.committedSlot);
    assert MemberLogOK(m, s.logs);
    forall e | e in contested ensures Known(e, s.logs) {
      if e in OfferedTo(s.answers, m) {
        var a :| a in s.answers && PromiseTo(m, a) && e in a.response.outcome.uncommittedEntries;
        assert AnswerLogOK(a, s.logs);
      }
    }
  }

  // The campaign as it stands once the winning answer is recorded.
  ghost function Winner(states: seq<State>, events: seq<Event>, n: nat, i: Id): Member
    requires IsExecution(states, events) && WinsAt(states, events, n, i)
  {
    assert IsStep(states[n], events[n], states[n + 1]);
    var m := states[n].members[i];
    Member(m.ctx, Campaigning(RecordVote(m.ctx, m.role.c, events[n].answer.response)))
  }

  // Recording the answer that wins keeps the campaign's collection in order.
  lemma WinningTally(s: State, i: Id, answer: Answer, r: VoteResult) returns (offered: set<LogEntry>)
    requires i in s.members && s.members[i].role.Campaigning? && CollectedOK(s.answers, s.members[i])
    requires MemberOK(s.members[i], i, s.members.Keys, s.ballots, s.wins, s.now)
    requires answer in s.answers && SameCampaign(s.members[i], answer.ask)
    requires answer.response.memberId in s.members[i].role.c.score
    requires ElectFacts(s.members[i], answer.response, r, s.now) && r.Elected?
    ensures var w := Member(s.members[i].ctx, Campaigning(RecordVote(s.members[i].ctx, s.members[i].role.c, answer.response)));
      && Collected(s.answers, w, offered)
      && OfferedTo(s.answers, w) == OfferedTo(s.answers, s.members[i])
      && w.role.c.dispatched.Some? && HasVoteQuorum(w.role.c.votes)
      && w.ctx.memberId == i && w.role.c.votes.Keys == s.members.Keys - {i}
      && r.step.ctx == ElectedContext(w.ctx, w.role.c)
  {
    var m := s.members[i];
    var w := Member(m.ctx, Campaigning(RecordVote(m.ctx, m.role.c, answer.response)));
    RecordCollected(s.answers, m, answer);
    offered :| Collected(s.answers, w, offered);
    SameOffers(s.answers, m, w);
  }

  // What a campaign is offered does not depend on what it has recorded.
  lemma SameOffers(answers: set<Answer>, m: Member, w: Member)
    requires m.role.Campaigning? && w.role.Campaigning? && w.ctx == m.ctx && w.role.c.dispatched == m.role.c.dispatched
    ensures OfferedTo(answers, w) == OfferedTo(answers, m)
  {
    assert forall a :: PromiseTo(m, a) <==> PromiseTo(w, a);
  }

  // The winner's votes are a quorum, all of them collected, and it takes over from there.
  lemma WinnerTakesOver(states: seq<State>, events: seq<Event>, n: nat, i: Id) returns (offered: set<LogEntry>)
    requires IsExecution(states, events) && WinsAt(states, events, n, i)
    ensures var w := Winner(states, events, n, i);
      && w.role.Campaigning? && Collected(states[n].answers, w, offered)
      && OfferedTo(states[n].answers, w) == OfferedTo(states[n].answers, states[n].members[i])
      && w.role.c.dispatched.Some? && HasVoteQuorum(w.role.c.votes)
      && w.ctx.memberId == i && w.role.c.votes.Keys == states[n].members.Keys - {i}
      && states[n + 1].members[i].ctx == ElectedContext(w.ctx, w.role.c)
  {
    var s, e := states[n], events[n];
    assert IsStep(s, e, states[n + 1]);
    CollectAlways(states, events, n);
    SafetyAlways(states, events, n);
    assert CollectedOK(s.answers, s.members[i]);
    assert MemberOK(s.members[i], i, s.members.Keys, s.ballots, s.wins, s.now);
    VoteReplyFacts(s.members[i], e.answer, e.reading, e.tSends, s.now);
    offered := WinningTally(s, i, e.answer,
      OnVoteResponse(s.members[i].ctx, s.members[i].role.c, e.answer.response, e.reading, e.tSends));
  }

  // What a promise among those collected reported is what its giver held.
  lemma CollectedFrom(states: seq<State>, events: seq<Event>, n: nat, holders: set<Id>, e: LogEntry,
                      w: Member, offered: set<LogEntry>, j: Id)
    requires IsExecution(states, events) && n < |events|
    requires w.role.Campaigning? && Collected(states[n].answers, w, offered) && j in Promisers(w.role.c.votes)
    requires j in holders && HeldByVoters(states, events, n, w, holders, e)
    ensures e in offered
  {
    var response := w.role.c.votes[j].value;
    assert RecordedFrom(states[n].answers, w, j, response, offered);
    var a :| a in states[n].answers && PromiseTo(w, a) && a.response == response;
    var m, k := AnswerArose(states, events, n, a);
    PromiseReports(states, events, m, k, a.ask, response);
    LogsAlways(states, events, m);
    assert MemberLogOK(states[m].members[j], states[m].logs);
    HeldIsOffered(states[m].members[j].ctx.uncommitted, e, offered);
  }

  // Some voter of the campaign belongs to `holders`, so `e` was offered or is the candidate's own.
  lemma HolderOffers(states: seq<State>, events: seq<Event>, n: nat, holders: set<Id>, e: LogEntry,
                     w: Member, offered: set<LogEntry>)
    requires IsExecution(states, events) && n < |events|
    requires w.role.Campaigning? && Collected(states[n].answers, w, offered)
    requires HasVoteQuorum(w.role.c.votes) && w.ctx.memberId in states[n].members
    requires w.role.c.votes.Keys == states[n].members.Keys - {w.ctx.memberId}
    requires IsQuorum(states[n].members.Keys, holders) && HeldByVoters(states, events, n, w, holders, e)
    ensures e in offered || (e.slot in w.ctx.uncommitted && w.ctx.uncommitted[e.slot] == e)
  {
    var j := VoterInQuorum(states[n].members.Keys, w.ctx, w.role.c, holders);
    if j != w.ctx.memberId { CollectedFrom(states, events, n, holders, e, w, offered, j); }
  }

  // An offered entry that nothing surpasses is what the winner takes over with.
  lemma OfferedWins(s: State, i: Id, w: Member, offered: set<LogEntry>, e: LogEntry)
    requires LogInv(s) && i in s.members && w.role.Campaigning? && w.role.c.dispatched.Some?
    requires w.ctx == s.members[i].ctx && Collected(s.answers, w, offered)
    requires OfferedTo(s.answers, w) == OfferedTo(s.answers, s.members[i])
    requires e in Contested(offered, w.ctx.uncommitted, w.ctx.committedSlot) && Unsurpassed(w, e)
    ensures var next := ElectedContext(w.ctx, w.role.c);
      && e.slot in next.wal && next.wal[e.slot] == e.(term := next.term)
      && e.slot in next.uncommitted && next.uncommitted[e.slot] == e.(term := next.term)
  {
    assert MemberLogOK(s.members[i], s.logs);
    OfferedKnown(s, i);
    AmongOffered(w.ctx, w.role.c, offered, OfferedTo(s.answers, s.members[i]), e);
  }

  lemma AmongOffered(ctx: ContextView, c: CandidateView, offered: set<LogEntry>, all: set<LogEntry>, e: LogEntry)
    requires c.dispatched.Some? && IsJoin(c.pending, offered) && WellKeyed(ctx.uncommitted) && offered <= all
    requires e in Contested(offered, ctx.uncommitted, ctx.committedSlot)
    requires SlotTermDetermine(Contested(all, ctx.uncommitted, ctx.committedSlot))
    requires e.slot in c.pending ==> c.pending[e.slot].term <= e.term
    requires e.slot in ctx.uncommitted ==> ctx.uncommitted[e.slot].term <= e.term
    ensures var next := ElectedContext(ctx, c);
      && e.slot in next.wal && next.wal[e.slot] == e.(term := ctx.term)
      && e.slot in next.uncommitted && next.uncommitted[e.slot] == e.(term := ctx.term)
  {
    assert Contested(offered, ctx.uncommitted, ctx.committedSlot) <= Contested(all, ctx.uncommitted, ctx.committedSlot);
    TakenOver(ctx, c, offered, e);
  }

  /** A value on a quorum survives an election: if each promiser that the winner recorded in some quorum held `e` when
      it promised, at a slot above the winner's committed one, and nothing that the winner has there is of a higher
      term, then the winner takes over with `e` at that slot, stamped with its own term. */
  lemma QuorumValueSurvives(states: seq<State>, events: seq<Event>, n: nat, i: Id, holders: set<Id>, e: LogEntry)
    requires IsExecution(states, events) && WinsAt(states, events, n, i)
    requires IsQuorum(states[n].members.Keys, holders) && e.slot > states[n].members[i].ctx.committedSlot
    requires var w := Winner(states, events, n, i); HeldByVoters(states, events, n, w, holders, e) && Unsurpassed(w, e)
    ensures var next := states[n + 1].members[i].ctx;
      && e.slot in next.wal && next.wal[e.slot] == e.(term := next.term)
      && e.slot in next.uncommitted && next.uncommitted[e.slot] == e.(term := next.term)
  {
    var w := Winner(states, events, n, i);
    var offered := WinnerTakesOver(states, events, n, i);
    LogsAlways(states, events, n);
    HolderOffers(states, events, n, holders, e, w, offered);
    OfferedWins(states[n], i, w, offered, e);
  }
}
