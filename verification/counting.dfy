/** What a commit rests on: a quorum of acknowledgements and seeded match slots, in every run. */
module CommitCounting {
  import opened Types
  import opened TrueTime
  import opened Quorums
  import opened Views
  import opened LeaderRole
  import opened CandidateRole
  import opened PreCandidateRole
  import opened StateMachine
  import opened Group
  import opened Facts
  import opened ElectionSafety

  // The member answered a request of the term with success, up to the slot at least.
  ghost predicate Acknowledged(acks: set<Ack>, j: Id, term: nat, slot: nat) {
    exists ack :: ack in acks && ack.response.success
      && ack.response.memberId == j && ack.response.term == term && ack.response.lastWrittenSlot >= slot
  }

  // The match slot with which the term's leader started reaches the slot.
  ghost predicate Seeded(seeds: map<nat, map<Id, nat>>, j: Id, term: nat, slot: nat) {
    term in seeds && j in seeds[term] && slot <= seeds[term][j]
  }

  ghost predicate Counted(s: State, j: Id, term: nat, slot: nat) {
    Acknowledged(s.acks, j, term, slot) || Seeded(s.seeds, j, term, slot)
  }

  // Beyond what was seeded, a match slot has been acknowledged.
  ghost predicate MatchesCounted(s: State, m: Member) {
    m.role.Leading? ==>
      forall j :: j in m.role.l.score ==> Counted(s, j, m.ctx.term, m.role.l.score[j].pos.matchSlot)
  }

  // The leader, who has won the term, and those that count for the slot are a quorum.
  ghost predicate CommitCounted(s: State, c: Committed) {
    && HasWon(s.wins, c.leader, c.term)
    && IsQuorum(s.members.Keys, c.holders) && c.leader in c.holders
    && forall j :: j in c.holders && j != c.leader ==> Counted(s, j, c.term, c.slot)
  }

  ghost predicate CountInv(s: State) {
    && (forall term :: term in s.seeds ==> TermWon(s.wins, term))
    && (forall i :: i in s.members ==> MatchesCounted(s, s.members[i]))
    && (forall c :: c in s.commits ==> CommitCounted(s, c))
  }

  // ----- Preservation -----

  // More acknowledgements, and the same seeds.
  ghost predicate RecordsGrow(s: State, s': State) {
    s.acks <= s'.acks && forall k :: k in s.seeds ==> k in s'.seeds && s'.seeds[k] == s.seeds[k]
  }

  lemma CountedKept(s: State, s': State, j: Id, term: nat, slot: nat)
    requires RecordsGrow(s, s') && Counted(s, j, term, slot)
    ensures Counted(s', j, term, slot)
  {
    if Acknowledged(s.acks, j, term, slot) {
      var ack :| ack in s.acks && ack.response.success
        && ack.response.memberId == j && ack.response.term == term && ack.response.lastWrittenSlot >= slot;
      assert ack in s'.acks;
    }
  }

  lemma CountedLess(s: State, j: Id, term: nat, slot: nat, less: nat)
    requires Counted(s, j, term, slot) && less <= slot
    ensures Counted(s, j, term, less)
  {}

  lemma MatchesKept(s: State, s': State, m: Member)
    requires RecordsGrow(s, s') && MatchesCounted(s, m)
    ensures MatchesCounted(s', m)
  {
    if m.role.Leading? {
      forall j | j in m.role.l.score ensures Counted(s', j, m.ctx.term, m.role.l.score[j].pos.matchSlot) {
        CountedKept(s, s', j, m.ctx.term, m.role.l.score[j].pos.matchSlot);
      }
    }
  }

  // One member changes, and nothing recorded is forgotten.
  ghost predicate CountAdvances(s: State, i: Id, s': State) {
    && i in s.members && i in s'.members && s'.members == s.members[i := s'.members[i]]
    && RecordsGrow(s, s') && s.wins <= s'.wins
    && (forall term :: term in s'.seeds ==> term in s.seeds || TermWon(s'.wins, term))
  }

  lemma CountFrame(s: State, i: Id, s': State)
    requires CountInv(s) && CountAdvances(s, i, s') && MatchesCounted(s', s'.members[i])
    requires forall c :: c in s'.commits - s.commits ==> CommitCounted(s', c)
    ensures CountInv(s')
  {
    forall term | term in s'.seeds ensures TermWon(s'.wins, term) {
      if term in s.seeds {
        var w :| w in s.wins && w.term == term;
        assert w in s'.wins;
      }
    }
    forall j | j in s'.members ensures MatchesCounted(s', s'.members[j]) {
      if j != i { MatchesKept(s, s', s.members[j]); }
    }
    assert s'.members.Keys == s.members.Keys;
    forall c | c in s'.commits ensures CommitCounted(s', c) {
      if c in s.commits { CommitKept(s, s', c); }
    }
  }

  lemma CommitKept(s: State, s': State, c: Committed)
    requires CommitCounted(s, c) && RecordsGrow(s, s') && s.wins <= s'.wins && s'.members.Keys == s.members.Keys
    ensures CommitCounted(s', c)
  {
    var at :| Win(c.leader, c.term, at) in s.wins;
    assert Win(c.leader, c.term, at) in s'.wins;
    forall j | j in c.holders && j != c.leader ensures Counted(s', j, c.term, c.slot) {
      CountedKept(s, s', j, c.term, c.slot);
    }
  }

  // A member that keeps its board and term, or does not lead.
  lemma KeptCounts(s: State, i: Id, m': Member, s': State)
    requires CountInv(s) && i in s.members && s'.members == s.members[i := m']
    requires m'.role.Leading? ==> m'.role == s.members[i].role && m'.ctx.term == s.members[i].ctx.term
    requires s.acks <= s'.acks && s'.seeds == s.seeds && s'.wins == s.wins && s'.commits == s.commits
    ensures CountInv(s')
  {
    if m'.role.Leading? { MatchesKept(s, s', m'); }
    CountFrame(s, i, s');
  }

  // ----- Leading -----

  // What an accept response does to match slots and the committed slot.
  ghost predicate MatchFacts(m: Member, response: AcceptResponse, r: LeaderStep)
    requires m.role.Leading?
  {
    && r.l.score.Keys == m.role.l.score.Keys
    && (forall j :: j in r.l.score ==>
          || r.l.score[j].pos.matchSlot == m.role.l.score[j].pos.matchSlot
          || (j == response.memberId && response.success && response.term == m.ctx.term
              && r.l.score[j].pos.matchSlot == response.lastWrittenSlot > m.role.l.score[j].pos.matchSlot))
    && (r.ctx.committedSlot != m.ctx.committedSlot ==>
          && m.ctx.peerIds != {}
          && r.ctx.committedSlot > m.ctx.committedSlot
          && r.ctx.committedSlot == QuorumSlot(Matches(r.l.score), QuorumOf(m.ctx) - 1, m.ctx.lastLogSlot))
  }

  lemma SuccessMatches(ctx: ContextView, l: LeaderView, response: AcceptResponse)
    requires ctx.peerIds != {} && response.memberId in l.score && response.success && response.term == ctx.term
    ensures MatchFacts(Member(ctx, Leading(l)), response, OnSuccess(ctx, l, response))
  {}

  lemma ConflictMatches(ctx: ContextView, l: LeaderView, response: AcceptResponse, tSend: Time)
    requires response.conflictHint.Some? && response.memberId in l.score
    requires AnchorPresent(ctx.wal, Reprobe(ctx.wal, l.score[response.memberId], response.conflictHint.value).pos)
    ensures MatchFacts(Member(ctx, Leading(l)), response, OnConflict(ctx, l, response, tSend))
  {}

  lemma AcceptReplyMatches(m: Member, response: AcceptResponse, tSend: Time)
    requires m.role.Leading? && CanHandle(m.ctx, m.role.l, response) && response.term <= m.ctx.term
    ensures MatchFacts(m, response, OnAcceptResponse(m.ctx, m.role.l, response, tSend))
  {
    if !Disregards(m.ctx, response) {
      var contacts := NoteContact(m.role.l.lastContact, response);
      var ctx1 := m.ctx.(lease := RenewedLease(m.ctx, contacts));
      var l1 := m.role.l.(lastContact := contacts);
      if response.success { SuccessMatches(ctx1, l1, response); }
      else { ConflictMatches(ctx1, l1, response, tSend); }
    }
  }

  lemma AckedMatches(s: State, i: Id, ack: Ack, step: LeaderStep, s': State)
    requires i in s.members && s.members[i].role.Leading? && MatchesCounted(s, s.members[i]) && ack in s.acks
    requires MatchFacts(s.members[i], ack.response, step) && step.ctx.term == s.members[i].ctx.term
    requires RecordsGrow(s, s')
    ensures MatchesCounted(s', Member(step.ctx, Leading(step.l)))
  {
    var m := s.members[i];
    forall j | j in step.l.score ensures Counted(s', j, m.ctx.term, step.l.score[j].pos.matchSlot) {
      if step.l.score[j].pos.matchSlot == m.role.l.score[j].pos.matchSlot {
        CountedKept(s, s', j, m.ctx.term, step.l.score[j].pos.matchSlot);
      } else {
        assert ack in s'.acks;
      }
    }
  }

  /** Enough match slots that reach a slot make a quorum of members that count for it, the leader among them. */
  lemma QuorumCommits(s: State, i: Id, slot: nat)
    requires ElectionInv(s) && i in s.members && s.members[i].role.Leading? && MatchesCounted(s, s.members[i])
    requires |AtLeast(Matches(s.members[i].role.l.score), slot)| >= QuorumOf(s.members[i].ctx) - 1
    ensures CommitCounted(s,
      Committed(i, s.members[i].ctx.term, slot, AtLeast(Matches(s.members[i].role.l.score), slot) + {i}))
  {
    var m := s.members[i];
    var matches := Matches(m.role.l.score);
    var followers := AtLeast(matches, slot);
    assert MemberOK(m, i, s.members.Keys, s.ballots, s.wins, s.now);
    assert |s.members.Keys - {i}| == |s.members.Keys| - 1;
    assert followers <= m.role.l.score.Keys;
    forall j | j in followers ensures Counted(s, j, m.ctx.term, slot) {
      assert matches[j] >= slot;
      CountedLess(s, j, m.ctx.term, m.role.l.score[j].pos.matchSlot, slot);
    }
  }

  lemma AcceptReplyCounts(s: State, i: Id, ack: Ack, step: LeaderStep, s': State)
    requires CountInv(s) && i in s.members && s.members[i].role.Leading? && ack in s.acks
    requires MatchFacts(s.members[i], ack.response, step) && step.ctx.term == s.members[i].ctx.term
    requires SameIdentity(s.members[i].ctx, step.ctx) && s' == AcceptReplyNext(s, i, step) && ElectionInv(s')
    ensures CountInv(s')
  {
    AckedMatches(s, i, ack, step, s');
    if step.ctx.committedSlot > s.members[i].ctx.committedSlot { QuorumCommits(s', i, step.ctx.committedSlot); }
    CountFrame(s, i, s');
  }

  lemma RoutineMatches(s: State, m: Member, step: LeaderStep, s': State)
    requires MatchesCounted(s, m) && RoutineFacts(m, step, s.now) && s'.acks == s.acks && s'.seeds == s.seeds
    ensures MatchesCounted(s', Member(step.ctx, Leading(step.l)))
  {
    forall j | j in step.l.score ensures Counted(s', j, m.ctx.term, step.l.score[j].pos.matchSlot) {
      assert ProgressMove(m.ctx, m.role.l.score[j], step.l.score[j]);
      assert Counted(s, j, m.ctx.term, m.role.l.score[j].pos.matchSlot);
    }
  }

  // ----- Elections -----

  lemma ElectedCounts(s: State, i: Id, step: LeaderStep, s': State)
    requires CountInv(s) && ElectionInv(s) && i in s.members && s.members[i].role.Campaigning?
    requires step.ctx.term == s.members[i].ctx.term && s' == VoteReplyNext(s, i, Elected(step)) && ElectionInv(s')
    ensures CountInv(s')
  {
    assert Win(i, step.ctx.term, s.now) in s'.wins;
    FirstToWin(s, i, s');
    assert !TermWon(s.wins, step.ctx.term) && TermWon(s'.wins, step.ctx.term);
    SeedsAdded(s, i, step, s');
    CountFrame(s, i, s');
  }

  // A term that nobody had won has no seeds yet, and the winner's match slots are its seeds.
  lemma SeedsAdded(s: State, i: Id, step: LeaderStep, s': State)
    requires CountInv(s) && i in s.members && s' == VoteReplyNext(s, i, Elected(step))
    requires !TermWon(s.wins, step.ctx.term) && TermWon(s'.wins, step.ctx.term)
    ensures CountAdvances(s, i, s') && MatchesCounted(s', s'.members[i]) && s'.commits == s.commits
  {
    assert step.ctx.term !in s.seeds;
  }

  lemma VoteReplyCounts(s: State, i: Id, answer: Answer, r: VoteResult)
    requires CountInv(s) && ElectionInv(s) && i in s.members && s.members[i].role.Campaigning?
    requires answer.response.memberId in s.members[i].role.c.score
    requires ElectFacts(s.members[i], answer.response, r, s.now) && ElectionInv(VoteReplyNext(s, i, r))
    ensures CountInv(VoteReplyNext(s, i, r))
  {
    var s' := VoteReplyNext(s, i, r);
    match r
    case Waiting(_) => KeptCounts(s, i, s'.members[i], s');
    case GivenUp(_) => KeptCounts(s, i, s'.members[i], s');
    case Elected(step) => ElectedCounts(s, i, step, s');
  }

  // ----- Every event -----

  /** Every event, without assumption, keeps every match slot and every commit accounted for. */
  lemma CountStep(s: State, e: Event)
    requires CountInv(s) && ElectionInv(s) && Enabled(s, e)
    ensures CountInv(Next(s, e))
  {
    ElectionStep(s, e);
    if e.VoteReply? {
      var m := s.members[e.i];
      VoteReplyFacts(m, e.answer, e.reading, e.tSends, s.now);
      VoteReplyCounts(s, e.i, e.answer, OnVoteResponse(m.ctx, m.role.c, e.answer.response, e.reading, e.tSends));
    } else if e.PreVoteReply? {
      PreVoteCounts(s, e.i, OnPreVoteResponse(s.members[e.i].ctx, s.members[e.i].role.p, e.preVote, e.reading));
    } else if !e.Tick? && !e.Answered? {
      OtherCountStep(s, e);
    } else {
      SameCounts(s, Next(s, e));
    }
  }

  lemma SameCounts(s: State, s': State)
    requires CountInv(s) && s'.members == s.members && s'.acks == s.acks && s'.seeds == s.seeds
    requires s'.wins == s.wins && s'.commits == s.commits
    ensures CountInv(s')
  {
    forall i | i in s'.members ensures MatchesCounted(s', s'.members[i]) { MatchesKept(s, s', s.members[i]); }
    forall c | c in s'.commits ensures CommitCounted(s', c) { CommitKept(s, s', c); }
  }

  lemma PreVoteCounts(s: State, i: Id, r: PreVoteResult)
    requires CountInv(s) && i in s.members
    ensures CountInv(PreVoteReplyNext(s, i, r))
  {
    KeptCounts(s, i, PreVoteReplyNext(s, i, r).members[i], PreVoteReplyNext(s, i, r));
  }

  lemma OtherCountStep(s: State, e: Event)
    requires CountInv(s) && ElectionInv(s) && Enabled(s, e) && ElectionInv(Next(s, e))
    requires e.VoteAsked? || e.AcceptAsked? || Quiet(e) || Routine(e) || e.AcceptReply? || e.ClientWrite?
    ensures CountInv(Next(s, e))
  {
    var m := s.members[e.i];
    if e.VoteAsked? || e.AcceptAsked? {
      RequestCounts(s, e);
    } else if Quiet(e) {
      QuietMemberFacts(m, e, s.now);
      KeptCounts(s, e.i, QuietMember(m, e, s.now), Put(s, e.i, QuietMember(m, e, s.now)));
    } else if Routine(e) {
      RoutineStepFacts(m, e, s.now);
      RoutineCounts(s, e.i, RoutineStep(m, e, s.now));
    } else if e.AcceptReply? {
      AcceptReplyFacts(m, e.ack.response, e.tSend, s.now);
      AcceptReplyMatches(m, e.ack.response, e.tSend);
      AcceptReplyCounts(s, e.i, e.ack, OnAcceptResponse(m.ctx, m.role.l, e.ack.response, e.tSend), Next(s, e));
    } else {
      WriteCounts(s, e.i, e.command, e.value, e.reading);
    }
  }

  lemma RequestCounts(s: State, e: Event)
    requires CountInv(s) && Enabled(s, e) && (e.VoteAsked? || e.AcceptAsked?)
    ensures CountInv(Next(s, e))
  {
    var m := s.members[e.i];
    if e.VoteAsked? {
      var r := ProcessVoteRequest(m, e.ask.request, e.roleCheck, e.check, e.extend);
      VoteRequestFacts(m, e.ask.request, e.roleCheck, e.check, e.extend, s.now);
      KeptCounts(s, e.i, r.m, VoteAskedNext(s, e.i, e.ask, r));
    } else {
      var r := ProcessAcceptRequest(m, e.sent.request, e.roleCheck, e.check, e.extend);
      AcceptRequestFacts(m, e.sent.request, e.roleCheck, e.check, e.extend, s.now);
      KeptCounts(s, e.i, r.m, AcceptAskedNext(s, e.i, e.sent, r));
    }
  }

  lemma RoutineCounts(s: State, i: Id, step: LeaderStep)
    requires CountInv(s) && i in s.members && RoutineFacts(s.members[i], step, s.now)
    ensures CountInv(Post(s, i, step))
  {
    RoutineMatches(s, s.members[i], step, Post(s, i, step));
    CountFrame(s, i, Post(s, i, step));
  }

  lemma WriteCounts(s: State, i: Id, command: nat, value: string, reading: TimeInterval)
    requires CountInv(s) && i in s.members && s.members[i].role.Leading?
    ensures var m := s.members[i];
      CountInv(ClientWriteNext(s, i, command, OnClientWrite(m.ctx, m.role.l, command, value, reading)))
  {
    var m := s.members[i];
    var s' := ClientWriteNext(s, i, command, OnClientWrite(m.ctx, m.role.l, command, value, reading));
    MatchesKept(s, s', m);
    CountFrame(s, i, s');
  }
}
