/** Durable commits within a term, when links deliver in order. */
module Durability {
  import opened Types
  import opened TrueTime
  import opened Wal
  import opened Quorums
  import opened Views
  import opened LeaderRole
  import opened CandidateRole
  import opened PreCandidateRole
  import opened StateMachine
  import opened Group
  import opened Facts
  import opened ElectionSafety
  import opened LogMatching
  import opened CommitCounting

  // ----- What is assumed of a run -----

  // No later request of this term has been delivered on this link before.
  ghost predicate Deliverable(delivered: map<(nat, Id), nat>, sent: Sent) {
    (sent.request.term, sent.to) in delivered ==> delivered[(sent.request.term, sent.to)] <= sent.no
  }

  // Links deliver accept requests in the order of their dispatch.
  ghost predicate InOrder(s: State, e: Event) {
    e.AcceptAsked? ==> Deliverable(s.delivered, e.sent)
  }

  // ----- Seeded match slots -----

  // The log ends at the last slot, in an entry of the last term.
  ghost predicate Topped(ctx: ContextView) {
    TopIs(ctx.wal, ctx.lastLogSlot) && (ctx.lastLogSlot > 0 ==> ctx.wal[ctx.lastLogSlot].term == ctx.lastLogTerm)
  }

  /** What a match slot that a promise seeds is worth: both logs agree through it, but once the winner has restamped
      what it takes over, the follower's log is a copy of its own through the slot exactly when nothing up to there is
      among the entries that it takes over. */
  lemma SeededCopyIsCurrentIff(
    ctx: ContextView, c: CandidateView, response: VoteResponse, follower: ContextView, logs: map<nat, Log>)
    requires c.dispatched.Some? && response.memberId in c.score && response.outcome.Promise?
    requires response.outcome.lastLogTerm == follower.lastLogTerm
    requires response.outcome.lastLogSlot == follower.lastLogSlot
    requires follower.lastLogTerm == ctx.lastLogTerm && Topped(ctx) && Topped(follower)
    requires Matched(ctx.wal, logs) && Matched(follower.wal, logs) && ctx.term !in logs
    ensures
      var c1 := RecordVote(ctx, c, response);
      && response.memberId in ElectedBoard(ctx, c1).score
      && var slot := ElectedBoard(ctx, c1).score[response.memberId].pos.matchSlot;
      && slot == Min(follower.lastLogSlot, ctx.lastLogSlot)
      && Agree(ctx.wal, follower.wal, slot)
      && (Agree(ElectedContext(ctx, c1).wal, follower.wal, slot)
          <==> forall s :: s in Inherited(ctx, c1) && s > 0 ==> s > slot)
  {
    var c1 := RecordVote(ctx, c, response);
    SeededSlot(ctx, c, response);
    ToppedAgree(ctx, follower, logs);
    assert forall s :: s in follower.wal ==> follower.wal[s].term in logs;
    RestampDiffers(ctx.wal, follower.wal, Inherited(ctx, c1), ctx.term, Min(follower.lastLogSlot, ctx.lastLogSlot));
  }

  lemma SeededSlot(ctx: ContextView, c: CandidateView, response: VoteResponse)
    requires c.dispatched.Some? && response.memberId in c.score && response.outcome.Promise?
    requires response.outcome.lastLogTerm == ctx.lastLogTerm
    ensures var board := ElectedBoard(ctx, RecordVote(ctx, c, response));
      && response.memberId in board.score
      && board.score[response.memberId].pos.matchSlot == Min(response.outcome.lastLogSlot, ctx.lastLogSlot)
  {}

  // Two logs that end in entries of one term agree as far as the shorter one goes.
  lemma ToppedAgree(a: ContextView, b: ContextView, logs: map<nat, Log>)
    requires Topped(a) && Topped(b) && a.lastLogTerm == b.lastLogTerm && Matched(a.wal, logs) && Matched(b.wal, logs)
    ensures Agree(a.wal, b.wal, Min(b.lastLogSlot, a.lastLogSlot))
  {
    if a.lastLogSlot > 0 && b.lastLogSlot > 0 {
      assert Same(a.wal, logs[a.lastLogTerm], a.lastLogSlot);
      assert Same(b.wal, logs[a.lastLogTerm], b.lastLogSlot);
    }
  }

  // A restamped entry differs from every entry of an earlier term.
  lemma RestampDiffers(w: Log, f: Log, own: Log, term: nat, slot: nat)
    requires Agree(w, f, slot) && forall s :: s in f ==> f[s].term != term
    ensures Agree(w + Restamp(own, term), f, slot) <==> forall s :: s in own && s > 0 ==> s > slot
  {
    var stamped := Restamp(own, term);
    forall s | 0 < s <= slot && s in own ensures (w + stamped)[s] != f[s] { assert stamped[s].term == term; }
  }

  // A candidate of term 2 with one uncommitted entry of term 1, and the promise of member 1, which has the same entry.
  const HEIR := ContextView(0, {1, 2, 3, 4}, 2, None, None, 1, 1, 0, OneTermLog(1, 1), OneTermLog(1, 1))
  const SAME := VoteResponse(1, 1, Promise(1, 1, [LogEntry(1, 1, "", 0)]))

  /** How a seeded match slot commits an entry that is on no quorum: in a group of five, the candidate records the
      promise of member 1, wins, and restamps the entry; as soon as member 2 acknowledges it, it commits, although
      member 1, like members 3 and 4, may have nothing of term 2. */
  lemma SeedCommitsWithoutQuorum(c: CandidateView, t: Time)
    requires c.dispatched.Some? && c.pending == map[] && c.score == map j | j in HEIR.peerIds :: LogPosition(0, 2, 0)
    ensures
      var c1 := RecordVote(HEIR, c, SAME);
      var leader, board := ElectedContext(HEIR, c1), ElectedBoard(HEIR, c1);
      && leader.wal[1].term == 2 && OneTermLog(1, 1)[1].term == 1
      && 2 in board.score && leader.peerIds == board.score.Keys
      && board.score[1].pos.matchSlot == 1
      && OnSuccess(leader, board, AcceptResponse(2, 2, true, 1, None, t)).ctx.committedSlot == 1
  {
    var c1 := RecordVote(HEIR, c, SAME);
    SeededSlot(HEIR, c, SAME);
    HeirTakesOver(c1);
    var leader, board := ElectedContext(HEIR, c1), ElectedBoard(HEIR, c1);
    var score := board.score[2 := Acknowledge(board.score[2], 1)];
    assert {1, 2} <= AtLeast(Matches(score), 1);
    SubsetSize({1, 2}, AtLeast(Matches(score), 1));
    assert |leader.peerIds| == 4;
    assert QuorumSlot(Matches(score), 2, 1) == 1;
  }

  lemma HeirTakesOver(c: CandidateView)
    requires c.dispatched.Some? && c.pending == map[1 := LogEntry(1, 1, "", 0)]
    ensures var leader := ElectedContext(HEIR, c);
      leader == HEIR.(lease := leader.lease, wal := OneTermLog(2, 1), uncommitted := OneTermLog(2, 1), lastLogTerm := 2)
  {
    assert Inherited(HEIR, c) == OneTermLog(1, 1);
    assert Restamp(OneTermLog(1, 1), 2) == OneTermLog(2, 1);
    assert 1 in OneTermLog(2, 1);
  }

  // ----- The invariant -----

  // The member holds the log of `term` through `slot`, gaps included, and no request still to be delivered in order can
  // take that away.
  ghost predicate Holds(s: State, j: Id, term: nat, slot: nat)
    requires j in s.members
  {
    && term in s.logs && Same(s.members[j].ctx.wal, s.logs[term], slot) && slot <= Top(s.logs[term])
    && (forall y :: y in s.sents && y.to == j && y.request.term == term && Deliverable(s.delivered, y)
          ==> slot <= SentTop(y))
  }

  // The member has left `term`, or holds its log.
  ghost predicate Durable(s: State, j: Id, term: nat, slot: nat)
    requires j in s.members
  {
    s.members[j].ctx.term > term || (s.members[j].ctx.term == term && Holds(s, j, term, slot))
  }

  ghost predicate DurableIn(s: State, j: Id, term: nat, slot: nat) { j in s.members && Durable(s, j, term, slot) }

  // Whoever has won its term has the log of the term, whether or not it still leads.
  ghost predicate OwnLogKept(s: State, i: Id)
    requires i in s.members
  {
    var ctx := s.members[i].ctx;
    HasWon(s.wins, i, ctx.term) ==> ctx.term in s.logs && ctx.wal == s.logs[ctx.term]
  }

  ghost predicate SentNumbered(s: State, y: Sent) {
    && y.no < s.sendNo
    && y.to != y.request.leaderId
    && HasWon(s.wins, y.request.leaderId, y.request.term)
  }

  ghost predicate TopsOrdered(sents: set<Sent>) {
    forall x, y :: x in sents && y in sents && x.request.term == y.request.term && x.no <= y.no ==>
      SentTop(x) <= SentTop(y)
  }

  ghost predicate AckDurable(s: State, response: AcceptResponse) {
    response.success ==> DurableIn(s, response.memberId, response.term, response.lastWrittenSlot)
  }

  ghost predicate DurabilityInv(s: State) {
    && (forall y :: y in s.sents ==> SentNumbered(s, y))
    && TopsOrdered(s.sents)
    && (forall ack :: ack in s.acks ==> AckDurable(s, ack.response))
    && (forall i :: i in s.members ==> OwnLogKept(s, i))
  }

  /** Whoever acknowledged a slot in a term holds the term's log through it as long as it stays in the term. */
  lemma AcknowledgedIsDurable(s: State, j: Id, term: nat, slot: nat)
    requires DurabilityInv(s) && Acknowledged(s.acks, j, term, slot)
    ensures j in s.members && s.members[j].ctx.term >= term
    ensures s.members[j].ctx.term == term ==> term in s.logs && Same(s.members[j].ctx.wal, s.logs[term], slot)
  {
    var ack :| ack in s.acks && ack.response.success
      && ack.response.memberId == j && ack.response.term == term && ack.response.lastWrittenSlot >= slot;
    assert AckDurable(s, ack.response);
    DurableLess(s, j, term, ack.response.lastWrittenSlot, slot);
  }

  /** Those that count for a committed slot are a quorum: the leader, members that have acknowledged it, and members
      that their promises seeded that far. The first two hold the leader's log through the slot while they stay in the
      term. */
  lemma CommittedIsDurable(s: State, c: Committed, j: Id)
    requires ElectionInv(s) && CountInv(s) && DurabilityInv(s) && c in s.commits && j in c.holders
    ensures IsQuorum(s.members.Keys, c.holders) && c.leader in c.holders
    ensures j == c.leader || Acknowledged(s.acks, j, c.term, c.slot) || Seeded(s.seeds, j, c.term, c.slot)
    ensures j == c.leader || Acknowledged(s.acks, j, c.term, c.slot) ==>
      && j in s.members && s.members[j].ctx.term >= c.term
      && (s.members[j].ctx.term == c.term ==> c.term in s.logs && Same(s.members[j].ctx.wal, s.logs[c.term], c.slot))
  {
    assert CommitCounted(s, c);
    if j == c.leader {
      var at :| Win(j, c.term, at) in s.wins;
      assert WinOK(Win(j, c.term, at), s.members, s.ballots, s.now) && OwnLogKept(s, j);
    } else if Acknowledged(s.acks, j, c.term, c.slot) {
      AcknowledgedIsDurable(s, j, c.term, c.slot);
    }
  }

  // ----- Preservation -----

  // Requests posted now reach at least as far as the term's log.
  ghost predicate ReachesTop(y: Sent, logs: map<nat, Log>) {
    y.request.term in logs && Top(logs[y.request.term]) <= SentTop(y)
  }

  // The member's event adds no win but its own, and changes no log of an earlier term but one that it has won.
  ghost predicate OnlyOwnLogChanges(s: State, i: Id, s': State) {
    && (forall w :: w in s'.wins - s.wins ==> w.leader == i)
    && (forall c :: c in s.logs ==> c in s'.logs && (s'.logs[c] == s.logs[c] || HasWon(s.wins, i, c)))
  }

  // One member changes; logs, requests and deliveries only move forward.
  ghost predicate Advances(s: State, i: Id, s': State) {
    && i in s.members && i in s'.members
    && s'.members == s.members[i := s'.members[i]]
    && s'.members[i].ctx.term >= s.members[i].ctx.term
    && Grows(s.logs, s'.logs) && OnlyOwnLogChanges(s, i, s')
    && s.sents <= s'.sents && s.wins <= s'.wins && s.sendNo <= s'.sendNo
    && (forall y :: y in s'.sents - s.sents ==> ReachesTop(y, s'.logs) && y.no == s.sendNo && s'.sendNo > s.sendNo)
    && (forall k :: k in s.delivered ==> k in s'.delivered && s.delivered[k] <= s'.delivered[k])
  }

  // As long as the member stays in its term, it keeps whatever it holds of the term's log.
  ghost predicate KeepsHeld(s: State, i: Id, s': State)
    requires i in s.members && i in s'.members
  {
    s'.members[i].ctx.term == s.members[i].ctx.term ==>
      forall slot: nat :: Holds(s, i, s.members[i].ctx.term, slot) ==>
        && s.members[i].ctx.term in s'.logs
        && Same(s'.members[i].ctx.wal, s'.logs[s.members[i].ctx.term], slot)
  }

  lemma DurableKept(s: State, i: Id, s': State, j: Id, term: nat, slot: nat)
    requires Advances(s, i, s') && KeepsHeld(s, i, s') && DurableIn(s, j, term, slot)
    ensures DurableIn(s', j, term, slot)
  {
    if s'.members[j].ctx.term == term {
      assert Holds(s, j, term, slot);
      TopGrows(term, s.logs, s'.logs);
      assert Same(s'.members[j].ctx.wal, s'.logs[term], slot) by {
        if j != i { assert Same(s.members[j].ctx.wal, s.logs[term], slot); }
      }
      forall y | y in s'.sents && y.to == j && y.request.term == term && Deliverable(s'.delivered, y)
        ensures slot <= SentTop(y)
      {
        if y in s.sents {
          assert Deliverable(s.delivered, y);
        } else {
          assert y in s'.sents - s.sents && ReachesTop(y, s'.logs);
        }
      }
    }
  }

  lemma DurableLess(s: State, j: Id, term: nat, slot: nat, less: nat)
    requires DurableIn(s, j, term, slot) && less <= slot
    ensures DurableIn(s, j, term, less)
  {}

  // Every request of a term reaches at most the top of the term's log.
  lemma TopsBelow(s: State, x: Sent, y: Sent, logs': map<nat, Log>)
    requires LogInv(s) && x in s.sents && Grows(s.logs, logs') && ReachesTop(y, logs')
    requires x.request.term == y.request.term
    ensures SentTop(x) <= SentTop(y)
  {
    assert SentOK(x, s.logs);
    if SentTop(x) > 0 { assert SentTop(x) in s.logs[x.request.term]; }
    TopGrows(x.request.term, s.logs, logs');
  }

  // A win of the member's present term is unique, so its event leaves the logs that others have won alone.
  lemma OthersKeepOwnLog(s: State, i: Id, s': State, j: Id)
    requires ElectionInv(s) && Advances(s, i, s') && j in s.members && j != i && OwnLogKept(s, j)
    ensures OwnLogKept(s', j)
  {
    var term := s.members[j].ctx.term;
    if HasWon(s'.wins, j, term) {
      var at :| Win(j, term, at) in s'.wins;
      assert Win(j, term, at) in s.wins;
      if HasWon(s.wins, i, term) {
        var at' :| Win(i, term, at') in s.wins;
        OneLeaderPerTerm(s, Win(j, term, at), Win(i, term, at'));
      }
    }
  }

  ghost predicate NewSentsOK(s: State, s': State) {
    && (forall y :: y in s'.sents - s.sents ==> SentNumbered(s', y))
    && (forall x, y :: x in s'.sents - s.sents && y in s'.sents - s.sents ==> SentTop(x) == SentTop(y))
  }

  lemma SentsKept(s: State, i: Id, s': State)
    requires LogInv(s) && DurabilityInv(s) && Advances(s, i, s') && NewSentsOK(s, s')
    ensures (forall y :: y in s'.sents ==> SentNumbered(s', y)) && TopsOrdered(s'.sents)
  {
    forall y | y in s'.sents ensures SentNumbered(s', y) {
      if y in s.sents {
        assert SentNumbered(s, y);
        var at :| Win(y.request.leaderId, y.request.term, at) in s.wins;
        assert Win(y.request.leaderId, y.request.term, at) in s'.wins;
      }
    }
    forall x, y | x in s'.sents && y in s'.sents && x.request.term == y.request.term && x.no <= y.no
      ensures SentTop(x) <= SentTop(y)
    {
      if y in s.sents {
        assert SentNumbered(s, y);
        assert x in s.sents;
      } else {
        assert y in s'.sents - s.sents;
        if x in s.sents { TopsBelow(s, x, y, s'.logs); } else { assert x in s'.sents - s.sents; }
      }
    }
  }

  /** The frame of every event: what remains is the changed member and the new records. */
  lemma DurabilityFrame(s: State, i: Id, s': State)
    requires ElectionInv(s) && LogInv(s) && DurabilityInv(s) && Advances(s, i, s') && KeepsHeld(s, i, s')
    requires NewSentsOK(s, s') && OwnLogKept(s', i)
    requires forall ack :: ack in s'.acks - s.acks ==> AckDurable(s', ack.response)
    ensures DurabilityInv(s')
  {
    SentsKept(s, i, s');
    forall ack | ack in s'.acks ensures AckDurable(s', ack.response) {
      if ack in s.acks && ack.response.success {
        assert AckDurable(s, ack.response);
        DurableKept(s, i, s', ack.response.memberId, ack.response.term, ack.response.lastWrittenSlot);
      }
    }
    forall j | j in s'.members ensures OwnLogKept(s', j) {
      if j != i { OthersKeepOwnLog(s, i, s', j); }
    }
  }

  // A member that keeps its log has still won only what it had won; the terms to which it rises, nobody has won for it.
  lemma LogKeepsOwn(s: State, i: Id, s': State)
    requires ElectionInv(s) && i in s.members && i in s'.members && OwnLogKept(s, i)
    requires s'.members[i].ctx.term >= s.members[i].ctx.term && s'.wins == s.wins && s'.logs == s.logs
    requires s'.members[i].ctx.wal == s.members[i].ctx.wal || !HasWon(s.wins, i, s'.members[i].ctx.term)
    ensures OwnLogKept(s', i)
  {
    var term := s'.members[i].ctx.term;
    if HasWon(s.wins, i, term) {
      var at :| Win(i, term, at) in s.wins;
      assert WinOK(Win(i, term, at), s.members, s.ballots, s.now);
    }
  }

  // Events that leave the log of the member alone.
  lemma LogKeepsHeld(s: State, i: Id, s': State)
    requires i in s.members && i in s'.members && s'.members[i].ctx.wal == s.members[i].ctx.wal && s'.logs == s.logs
    ensures KeepsHeld(s, i, s')
  {}

  lemma QuietDurability(s: State, i: Id, m': Member, s': State)
    requires ElectionInv(s) && LogInv(s) && DurabilityInv(s) && i in s.members
    requires m'.ctx.wal == s.members[i].ctx.wal && m'.ctx.term >= s.members[i].ctx.term
    requires s'.members == s.members[i := m'] && s'.logs == s.logs && s'.sents == s.sents && s'.wins == s.wins
    requires s'.sendNo == s.sendNo && s'.delivered == s.delivered && s'.acks == s.acks
    ensures DurabilityInv(s')
  {
    LogKeepsHeld(s, i, s');
    LogKeepsOwn(s, i, s');
    DurabilityFrame(s, i, s');
  }

  // ----- Accepting -----

  // A request accepted in order leaves at least what was held before.
  lemma AcceptKeepsHeld(s: State, i: Id, sent: Sent, s': State)
    requires LogInv(s) && i in s.members && i in s'.members && sent in s.sents && sent.to == i
    requires Deliverable(s.delivered, sent) && s'.logs == s.logs
    requires s'.members[i].ctx.wal == s.members[i].ctx.wal
      || (s'.members[i].ctx.wal == sent.origin.wal && s'.members[i].ctx.term == sent.request.term)
    ensures KeepsHeld(s, i, s')
  {
    assert SentOK(sent, s.logs);
  }

  lemma AcceptedDurable(s: State, i: Id, sent: Sent, s': State)
    requires LogInv(s) && TopsOrdered(s.sents) && i in s.members && i in s'.members && sent in s.sents && sent.to == i
    requires s'.sents == s.sents && s'.logs == s.logs
    requires s'.delivered == s.delivered[(sent.request.term, i) := sent.no]
    requires s'.members[i].ctx.wal == sent.origin.wal && s'.members[i].ctx.term == sent.request.term
    ensures DurableIn(s', i, sent.request.term, SentTop(sent))
  {
    assert SentOK(sent, s.logs);
    if sent.origin.wal != map[] { assert SentTop(sent) in s.logs[sent.request.term]; }
    StillReach(s, sent, s'.delivered);
    assert Holds(s', i, sent.request.term, SentTop(sent));
  }

  // Once the request is delivered, those that may still be reach as far.
  lemma StillReach(s: State, sent: Sent, delivered: map<(nat, Id), nat>)
    requires TopsOrdered(s.sents) && sent in s.sents
    requires delivered == s.delivered[(sent.request.term, sent.to) := sent.no]
    ensures forall y ::
      y in s.sents && y.to == sent.to && y.request.term == sent.request.term && Deliverable(delivered, y) ==>
        SentTop(sent) <= SentTop(y)
  {}

  // Nobody accepts a request of a term that it has won itself.
  lemma NotOwnRequest(s: State, i: Id, sent: Sent)
    requires ElectionInv(s) && SentNumbered(s, sent) && sent.to == i
    ensures !HasWon(s.wins, i, sent.request.term)
  {
    if HasWon(s.wins, i, sent.request.term) {
      var at :| Win(i, sent.request.term, at) in s.wins;
      var at' :| Win(sent.request.leaderId, sent.request.term, at') in s.wins;
      OneLeaderPerTerm(s, Win(i, sent.request.term, at), Win(sent.request.leaderId, sent.request.term, at'));
    }
  }

  lemma SuccessReaches(s: State, i: Id, sent: Sent, r: AcceptOutcomeAt)
    requires LogInv(s) && i in s.members && sent in s.sents && r.response.Some? && r.response.value.success
    requires Judged(s.members[i], sent.request, r.m, r.response.value, s.now)
    ensures r.response.value.lastWrittenSlot == SentTop(sent)
  {
    assert MemberLogOK(s.members[i], s.logs) && SentOK(sent, s.logs);
    SentMatched(s, sent);
    JudgeCopies(s.members[i].ctx.(term := sent.request.term), sent, s.logs);
  }

  lemma AcceptDurability(s: State, i: Id, sent: Sent, r: AcceptOutcomeAt)
    requires ElectionInv(s) && LogInv(s) && DurabilityInv(s) && i in s.members && sent in s.sents && sent.to == i
    requires s.members[i].ctx.memberId == i
    requires AcceptFacts(s.members[i], sent.request, r, s.now) && Deliverable(s.delivered, sent)
    ensures DurabilityInv(AcceptAskedNext(s, i, sent, r))
  {
    var s' := AcceptAskedNext(s, i, sent, r);
    AcceptRefinesCopy(s, i, sent, r);
    if r.response.Some? && r.response.value.success {
      assert Judged(s.members[i], sent.request, r.m, r.response.value, s.now);
      SuccessReaches(s, i, sent, r);
      AcceptedDurable(s, i, sent, s');
    }
    AcceptKeepsHeld(s, i, sent, s');
    AcceptKeepsOwn(s, i, sent, s');
    AcceptFrame(s, i, sent, r, s');
  }

  lemma AcceptKeepsOwn(s: State, i: Id, sent: Sent, s': State)
    requires ElectionInv(s) && DurabilityInv(s) && i in s.members && i in s'.members && sent in s.sents && sent.to == i
    requires s'.members[i].ctx.term >= s.members[i].ctx.term && s'.wins == s.wins && s'.logs == s.logs
    requires s'.members[i].ctx.wal == s.members[i].ctx.wal || s'.members[i].ctx.term == sent.request.term
    ensures OwnLogKept(s', i)
  {
    assert SentNumbered(s, sent) && OwnLogKept(s, i);
    NotOwnRequest(s, i, sent);
    LogKeepsOwn(s, i, s');
  }

  lemma AcceptFrame(s: State, i: Id, sent: Sent, r: AcceptOutcomeAt, s': State)
    requires ElectionInv(s) && LogInv(s) && DurabilityInv(s) && i in s.members && sent in s.sents && sent.to == i
    requires s' == AcceptAskedNext(s, i, sent, r) && KeepsHeld(s, i, s') && OwnLogKept(s', i)
    requires r.m.ctx.term >= s.members[i].ctx.term && Deliverable(s.delivered, sent)
    requires r.response.Some? ==> AckDurable(s', r.response.value)
    ensures DurabilityInv(s')
  {
    AcceptAdvances(s, i, sent, r, s');
    DurabilityFrame(s, i, s');
  }

  lemma AcceptAdvances(s: State, i: Id, sent: Sent, r: AcceptOutcomeAt, s': State)
    requires i in s.members && sent.to == i && s' == AcceptAskedNext(s, i, sent, r)
    requires r.m.ctx.term >= s.members[i].ctx.term && Deliverable(s.delivered, sent)
    ensures Advances(s, i, s') && NewSentsOK(s, s')
  {
    GrowsSelf(s.logs);
  }

  // ----- Leading -----

  lemma PostedReach(s: State, i: Id, step: LeaderStep, logs: map<nat, Log>, y: Sent)
    requires AllWellPosted(step, s.now) && step.ctx.term in logs && step.ctx.wal == logs[step.ctx.term]
    requires y in Posted(step.requests, step.ctx, s.sendNo)
    ensures ReachesTop(y, logs) && SentTop(y) == Top(step.ctx.wal) && y.no == s.sendNo
    ensures y.request.term == step.ctx.term && y.request.leaderId == step.ctx.memberId && y.to in step.l.score
  {
    assert WellPosted(step.ctx, step.requests[y.to], s.now);
  }

  // A leader's step that keeps its log and posts requests from it.
  lemma LeaderDurability(s: State, i: Id, step: LeaderStep, s': State)
    requires ElectionInv(s) && LogInv(s) && DurabilityInv(s) && i in s.members && s.members[i].role.Leading?
    requires step.ctx.term == s.members[i].ctx.term && step.ctx.wal == s.members[i].ctx.wal
    requires step.ctx.lastLogSlot == s.members[i].ctx.lastLogSlot && SameIdentity(step.ctx, s.members[i].ctx)
    requires step.l.score.Keys == s.members[i].role.l.score.Keys && AllWellPosted(step, s.now)
    requires s'.members == s.members[i := Member(step.ctx, Leading(step.l))]
    requires s'.sents == s.sents + Posted(step.requests, step.ctx, s.sendNo) && s'.sendNo == s.sendNo + 1
    requires s'.logs == s.logs && s'.wins == s.wins && s'.delivered == s.delivered && s'.acks == s.acks
    ensures DurabilityInv(s')
  {
    assert MemberLogOK(s.members[i], s.logs);
    assert MemberOK(s.members[i], i, s.members.Keys, s.ballots, s.wins, s.now);
    forall y | y in s'.sents - s.sents
      ensures ReachesTop(y, s'.logs) && y.no == s.sendNo && SentNumbered(s', y) && SentTop(y) == Top(step.ctx.wal)
    {
      PostedReach(s, i, step, s.logs, y);
    }
    LogKeepsHeld(s, i, s');
    assert OwnLogKept(s', i);
    DurabilityFrame(s, i, s');
  }

  lemma AcceptReplyDurability(s: State, i: Id, ack: Ack, step: LeaderStep, s': State)
    requires ElectionInv(s) && LogInv(s) && DurabilityInv(s) && i in s.members && s.members[i].role.Leading?
    requires AckFacts(s.members[i], ack.response, step, s.now) && s' == AcceptReplyNext(s, i, step)
    ensures DurabilityInv(s')
  {
    LeaderDurability(s, i, step, s');
  }

  lemma RoutineDurability(s: State, i: Id, step: LeaderStep)
    requires ElectionInv(s) && LogInv(s) && DurabilityInv(s) && i in s.members
    requires RoutineFacts(s.members[i], step, s.now)
    ensures DurabilityInv(Post(s, i, step))
  {
    LeaderDurability(s, i, step, Post(s, i, step));
  }

  lemma WriteDurability(s: State, i: Id, command: nat, value: string, reading: TimeInterval)
    requires ElectionInv(s) && LogInv(s) && DurabilityInv(s) && ClientWriteEnabled(s, i, command, reading)
    ensures var m := s.members[i];
      DurabilityInv(
        ClientWriteNext(s, i, command, OnClientWrite(m.ctx, m.role.l, command, value, reading)))
  {
    var m := s.members[i];
    var s' := ClientWriteNext(s, i, command, OnClientWrite(m.ctx, m.role.l, command, value, reading));
    assert MemberLogOK(m, s.logs);
    assert MemberOK(m, i, s.members.Keys, s.ballots, s.wins, s.now);
    WrittenDurably(s, i, LogEntry(m.ctx.term, m.ctx.lastLogSlot + 1, value, reading.latest), s');
  }

  lemma WrittenDurably(s: State, i: Id, e: LogEntry, s': State)
    requires ElectionInv(s) && LogInv(s) && DurabilityInv(s) && i in s.members && i in s'.members
    requires ContextOK(s.members[i].ctx, s.logs) && HasWon(s.wins, i, e.term) && e.term == s.members[i].ctx.term
    requires e.slot == s.members[i].ctx.lastLogSlot + 1 && e.term in s.logs && s.logs[e.term] == s.members[i].ctx.wal
    requires s'.members == s.members[i := s'.members[i]] && s'.members[i].ctx.term == e.term
    requires s'.members[i].ctx.wal == Append(s.members[i].ctx.wal, e)
    requires s'.logs == s.logs[e.term := s'.members[i].ctx.wal]
    requires s'.sents == s.sents && s'.wins == s.wins && s'.sendNo == s.sendNo && s'.delivered == s.delivered
    requires s'.acks == s.acks
    ensures DurabilityInv(s')
  {
    AppendGrows(s.members[i].ctx.wal, s.members[i].ctx.lastLogSlot, e, s.logs, s'.logs);
    OwnLogIsHeld(s, i, s');
    WriteAdvances(s, i, e.term, s');
    DurabilityFrame(s, i, s');
  }

  lemma WriteAdvances(s: State, i: Id, term: nat, s': State)
    requires i in s.members && i in s'.members && s'.members == s.members[i := s'.members[i]]
    requires s'.members[i].ctx.term == s.members[i].ctx.term && HasWon(s.wins, i, term)
    requires term in s'.logs && s'.logs == s.logs[term := s'.logs[term]] && Grows(s.logs, s'.logs)
    requires s'.sents == s.sents && s'.wins == s.wins && s'.sendNo == s.sendNo && s'.delivered == s.delivered
    ensures Advances(s, i, s') && NewSentsOK(s, s')
  {}

  lemma OwnLogIsHeld(s: State, i: Id, s': State)
    requires i in s.members && i in s'.members && s'.members[i].ctx.term in s'.logs
    requires s'.members[i].ctx.wal == s'.logs[s'.members[i].ctx.term]
    ensures KeepsHeld(s, i, s') && OwnLogKept(s', i)
  {}

  // ----- Taking over -----

  lemma ElectedDurability(s: State, i: Id, c1: CandidateView, step: LeaderStep)
    requires ElectionInv(s) && LogInv(s) && DurabilityInv(s) && i in s.members && s.members[i].role.Campaigning?
    requires ElectedFacts(s.members[i].ctx, c1, step, s.now) && c1.score.Keys == s.members[i].ctx.peerIds
    requires ElectionInv(VoteReplyNext(s, i, Elected(step)))
    ensures DurabilityInv(VoteReplyNext(s, i, Elected(step)))
  {
    var s' := VoteReplyNext(s, i, Elected(step));
    FreshTerm(s, i, s');
    assert MemberOK(s.members[i], i, s.members.Keys, s.ballots, s.wins, s.now);
    ElectedAdvances(s, i, step, s');
    SameRecordsFrame(s, i, s');
  }

  // What a win changes, when the winner's term had no log before.
  lemma ElectedAdvances(s: State, i: Id, step: LeaderStep, s': State)
    requires i in s.members && step.ctx.memberId == i && i !in step.l.score && step.l.score.Keys <= s.members.Keys
    requires step.ctx.term == s.members[i].ctx.term && step.ctx.term !in s.logs
    requires AllWellPosted(step, s.now)
    requires s' == VoteReplyNext(s, i, Elected(step))
    ensures Advances(s, i, s') && KeepsHeld(s, i, s') && NewSentsOK(s, s') && OwnLogKept(s', i)
  {
    ElectedSents(s, i, step, s');
  }

  lemma SameRecordsFrame(s: State, i: Id, s': State)
    requires ElectionInv(s) && LogInv(s) && DurabilityInv(s) && Advances(s, i, s') && KeepsHeld(s, i, s')
    requires NewSentsOK(s, s') && OwnLogKept(s', i) && s'.acks == s.acks
    ensures DurabilityInv(s')
  {
    DurabilityFrame(s, i, s');
  }

  lemma ElectedSents(s: State, i: Id, step: LeaderStep, s': State)
    requires i in s.members && step.ctx.memberId == i && i !in step.l.score && AllWellPosted(step, s.now)
    requires s' == VoteReplyNext(s, i, Elected(step))
    ensures forall y :: y in s'.sents - s.sents ==>
      ReachesTop(y, s'.logs) && y.no == s.sendNo && SentNumbered(s', y) && SentTop(y) == Top(step.ctx.wal)
  {
    assert Win(i, step.ctx.term, s.now) in s'.wins;
    forall y | y in s'.sents - s.sents
      ensures ReachesTop(y, s'.logs) && y.no == s.sendNo && SentNumbered(s', y) && SentTop(y) == Top(step.ctx.wal)
    {
      PostedReach(s, i, step, s'.logs, y);
    }
  }

  // ----- Every event -----

  // The parts of the state that the invariant reads are the same.
  lemma SameDurability(s: State, s': State)
    requires DurabilityInv(s)
    requires s'.members == s.members && s'.logs == s.logs && s'.sents == s.sents && s'.wins == s.wins
    requires s'.sendNo == s.sendNo && s'.delivered == s.delivered && s'.acks == s.acks
    ensures DurabilityInv(s')
  {
    forall j, term, slot | DurableIn(s, j, term, slot) ensures DurableIn(s', j, term, slot) {
      if s.members[j].ctx.term == term { assert Holds(s, j, term, slot); }
    }
    forall y | y in s'.sents ensures SentNumbered(s', y) { assert SentNumbered(s, y); }
    forall ack | ack in s'.acks ensures AckDurable(s', ack.response) { assert AckDurable(s, ack.response); }
    forall i | i in s'.members ensures OwnLogKept(s', i) { assert OwnLogKept(s, i); }
  }

  lemma PreVoteDurability(s: State, i: Id, r: PreVoteResult)
    requires ElectionInv(s) && LogInv(s) && DurabilityInv(s) && i in s.members && s.members[i].role.PreCampaigning?
    requires PreVoteFacts(s.members[i], r, s.now)
    ensures DurabilityInv(PreVoteReplyNext(s, i, r))
  {
    var s' := PreVoteReplyNext(s, i, r);
    QuietDurability(s, i, s'.members[i], s');
  }

  lemma VoteReplyDurability(s: State, i: Id, answer: Answer, r: VoteResult)
    requires ElectionInv(s) && LogInv(s) && DurabilityInv(s) && i in s.members && s.members[i].role.Campaigning?
    requires answer.response.memberId in s.members[i].role.c.score
    requires ElectFacts(s.members[i], answer.response, r, s.now)
    requires ElectionInv(VoteReplyNext(s, i, r))
    ensures DurabilityInv(VoteReplyNext(s, i, r))
  {
    var s' := VoteReplyNext(s, i, r);
    match r
    case Waiting(c) => QuietDurability(s, i, s'.members[i], s');
    case GivenUp(ctx) => QuietDurability(s, i, s'.members[i], s');
    case Elected(step) => WinDurability(s, i, answer, step);
  }

  lemma WinDurability(s: State, i: Id, answer: Answer, step: LeaderStep)
    requires ElectionInv(s) && LogInv(s) && DurabilityInv(s) && i in s.members && s.members[i].role.Campaigning?
    requires answer.response.memberId in s.members[i].role.c.score
    requires ElectFacts(s.members[i], answer.response, Elected(step), s.now)
    requires ElectionInv(VoteReplyNext(s, i, Elected(step)))
    ensures DurabilityInv(VoteReplyNext(s, i, Elected(step)))
  {
    RecordKeys(s.members[i].ctx, s.members[i].role.c, answer.response);
    assert MemberOK(s.members[i], i, s.members.Keys, s.ballots, s.wins, s.now);
    ElectedDurability(s, i, RecordVote(s.members[i].ctx, s.members[i].role.c, answer.response), step);
  }

  /** Every event keeps the invariant, when links are in order. */
  lemma DurabilityStep(s: State, e: Event)
    requires ElectionInv(s) && LogInv(s) && DurabilityInv(s)
    requires Enabled(s, e) && InOrder(s, e)
    ensures DurabilityInv(Next(s, e))
  {
    ElectionStep(s, e);
    LogStep(s, e);
    if e.VoteReply? || e.PreVoteReply? {
      CampaignDurabilityStep(s, e);
    } else {
      OtherDurabilityStep(s, e);
    }
  }

  lemma CampaignDurabilityStep(s: State, e: Event)
    requires ElectionInv(s) && LogInv(s) && DurabilityInv(s)
    requires Enabled(s, e) && ElectionInv(Next(s, e))
    requires e.VoteReply? || e.PreVoteReply?
    ensures DurabilityInv(Next(s, e))
  {
    var m := s.members[e.i];
    assert MemberOK(m, e.i, s.members.Keys, s.ballots, s.wins, s.now);
    if e.VoteReply? {
      VoteReplyFacts(m, e.answer, e.reading, e.tSends, s.now);
      VoteReplyDurability(s, e.i, e.answer, OnVoteResponse(m.ctx, m.role.c, e.answer.response, e.reading, e.tSends));
    } else {
      PreVoteReplyFacts(m, e.preVote, e.reading, s.now);
      PreVoteDurability(s, e.i, OnPreVoteResponse(m.ctx, m.role.p, e.preVote, e.reading));
    }
  }

  lemma OtherDurabilityStep(s: State, e: Event)
    requires ElectionInv(s) && LogInv(s) && DurabilityInv(s) && Enabled(s, e) && InOrder(s, e)
    requires ElectionInv(Next(s, e)) && LogInv(Next(s, e)) && !e.VoteReply? && !e.PreVoteReply?
    ensures DurabilityInv(Next(s, e))
  {
    if e.Tick? || e.Answered? { SameDurability(s, Next(s, e)); }
    else if e.VoteAsked? || e.AcceptAsked? { RequestDurabilityStep(s, e); }
    else if e.AcceptReply? { AckDurabilityStep(s, e); }
    else if e.ClientWrite? { WriteDurability(s, e.i, e.command, e.value, e.reading); }
    else { TimerDurability(s, e); }
  }

  lemma RequestDurabilityStep(s: State, e: Event)
    requires ElectionInv(s) && LogInv(s) && DurabilityInv(s) && Enabled(s, e) && InOrder(s, e)
    requires e.VoteAsked? || e.AcceptAsked?
    ensures DurabilityInv(Next(s, e))
  {
    var m := s.members[e.i];
    if e.VoteAsked? {
      VoteRequestFacts(m, e.ask.request, e.roleCheck, e.check, e.extend, s.now);
      QuietDurability(s, e.i, Next(s, e).members[e.i], Next(s, e));
    } else {
      assert MemberOK(m, e.i, s.members.Keys, s.ballots, s.wins, s.now);
      AcceptRequestFacts(m, e.sent.request, e.roleCheck, e.check, e.extend, s.now);
      AcceptDurability(s, e.i, e.sent, ProcessAcceptRequest(m, e.sent.request, e.roleCheck, e.check, e.extend));
    }
  }

  lemma AckDurabilityStep(s: State, e: Event)
    requires ElectionInv(s) && LogInv(s) && DurabilityInv(s) && Enabled(s, e) && e.AcceptReply?
    requires ElectionInv(Next(s, e)) && LogInv(Next(s, e))
    ensures DurabilityInv(Next(s, e))
  {
    var m := s.members[e.i];
    AcceptReplyFacts(m, e.ack.response, e.tSend, s.now);
    AcceptReplyDurability(s, e.i, e.ack, OnAcceptResponse(m.ctx, m.role.l, e.ack.response, e.tSend), Next(s, e));
  }

  lemma TimerDurability(s: State, e: Event)
    requires ElectionInv(s) && LogInv(s) && DurabilityInv(s) && Enabled(s, e) && (Quiet(e) || Routine(e))
    ensures DurabilityInv(Next(s, e))
  {
    if Quiet(e) {
      var m' := QuietMember(s.members[e.i], e, s.now);
      QuietMemberFacts(s.members[e.i], e, s.now);
      QuietDurability(s, e.i, m', Put(s, e.i, m'));
    } else {
      RoutineStepFacts(s.members[e.i], e, s.now);
      RoutineDurability(s, e.i, RoutineStep(s.members[e.i], e, s.now));
    }
  }
}
