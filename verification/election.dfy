/** Election safety over whole runs: a member backs one candidate per term, so a term has one leader. */
module ElectionSafety {
  import opened Types
  import opened Quorums
  import opened Views
  import opened LeaderRole
  import opened CandidateRole
  import opened PreCandidateRole
  import opened StateMachine
  import opened Group
  import opened Facts

  // ----- The invariant -----

  // `voter` backed `candidate` in `term` at some true time from `since` to `until`.
  ghost predicate Backed(ballots: set<Ballot>, voter: Id, term: nat, candidate: Id, since: Time, until: Time) {
    exists at :: since <= at <= until && Ballot(voter, term, candidate, at) in ballots
  }

  // The promisers and the candidate itself.
  function Voters(ctx: ContextView, c: CandidateView): set<Id> { Promisers(c.votes) + {ctx.memberId} }

  // Every promise on the board, and the candidate's own vote, was cast since the campaign's dispatch.
  ghost predicate TallyOK(ctx: ContextView, c: CandidateView, ballots: set<Ballot>, now: Time) {
    && c.dispatched.Some?
    && forall j :: j in Voters(ctx, c) ==>
         Backed(ballots, j, ctx.term, ctx.memberId, c.dispatched.value, now)
  }

  ghost predicate HasWon(wins: set<Win>, leader: Id, term: nat) {
    exists at :: Win(leader, term, at) in wins
  }

  ghost predicate TermWon(wins: set<Win>, term: nat) { exists w :: w in wins && w.term == term }

  // Boards list exactly the peers, and a role is only held by a member entitled to it.
  ghost predicate MemberOK(m: Member, i: Id, group: set<Id>, ballots: set<Ballot>, wins: set<Win>, now: Time) {
    && m.ctx.memberId == i
    && m.ctx.peerIds == group - {i}
    && match m.role
       case Following(_) => true
       case PreCampaigning(p) => p.board.Keys == m.ctx.peerIds
       case Campaigning(c) =>
         && c.votes.Keys == m.ctx.peerIds && c.score.Keys == m.ctx.peerIds
         && TallyOK(m.ctx, c, ballots, now)
         && !HasWon(wins, i, m.ctx.term)
       case Leading(l) =>
         && l.score.Keys == m.ctx.peerIds && l.lastContact.Keys == m.ctx.peerIds
         && HasWon(wins, i, m.ctx.term)
  }

  ghost predicate MembersOK(s: State) {
    forall i :: i in s.members ==> MemberOK(s.members[i], i, s.members.Keys, s.ballots, s.wins, s.now)
  }

  ghost predicate BallotOK(b: Ballot, members: map<Id, Member>, now: Time) {
    b.voter in members && b.term <= members[b.voter].ctx.term && b.at <= now
  }

  ghost predicate OneVotePerTerm(ballots: set<Ballot>) {
    forall a, b :: a in ballots && b in ballots && a.voter == b.voter && a.term == b.term ==> a == b
  }

  ghost predicate AnswerOK(a: Answer, ballots: set<Ballot>, now: Time) {
    && UNIX_EPOCH <= a.ask.at && a.at <= now
    && (a.response.outcome.Promise? ==>
          && a.ask.at <= a.at
          && Ballot(a.response.memberId, a.ask.request.term, a.ask.request.memberId, a.at) in ballots)
  }

  // Every member of `q` backed the winner by the time it won.
  ghost predicate Electorate(q: set<Id>, w: Win, ballots: set<Ballot>) {
    forall j :: j in q ==> Backed(ballots, j, w.term, w.leader, UNIX_EPOCH, w.at)
  }

  ghost predicate WonByQuorum(w: Win, group: set<Id>, ballots: set<Ballot>) {
    exists q :: IsQuorum(group, q) && Electorate(q, w, ballots)
  }

  ghost predicate WinOK(w: Win, members: map<Id, Member>, ballots: set<Ballot>, now: Time) {
    && w.leader in members && w.term <= members[w.leader].ctx.term && w.at <= now
    && WonByQuorum(w, members.Keys, ballots)
  }

  ghost predicate ElectionInv(s: State) {
    && MembersOK(s)
    && (forall b :: b in s.ballots ==> BallotOK(b, s.members, s.now))
    && OneVotePerTerm(s.ballots)
    && (forall ask :: ask in s.asks ==> UNIX_EPOCH <= ask.at <= s.now)
    && (forall a :: a in s.answers ==> AnswerOK(a, s.ballots, s.now))
    && (forall w :: w in s.wins ==> WinOK(w, s.members, s.ballots, s.now))
  }

  // ----- Election safety -----

  /** Two wins of one term are wins of one member. */
  lemma OneLeaderPerTerm(s: State, v: Win, w: Win)
    requires ElectionInv(s) && v in s.wins && w in s.wins && v.term == w.term
    ensures v.leader == w.leader
  {
    var p :| IsQuorum(s.members.Keys, p) && Electorate(p, v, s.ballots);
    var q :| IsQuorum(s.members.Keys, q) && Electorate(q, w, s.ballots);
    var j := QuorumsMeet(s.members.Keys, p, q);
    var at :| Ballot(j, v.term, v.leader, at) in s.ballots;
    var at' :| Ballot(j, w.term, w.leader, at') in s.ballots;
  }

  // Nobody has won the term of a candidate before it wins itself.
  lemma FirstToWin(s: State, i: Id, s': State)
    requires ElectionInv(s) && ElectionInv(s') && s.wins <= s'.wins && i in s.members && s.members[i].role.Campaigning?
    requires HasWon(s'.wins, i, s.members[i].ctx.term)
    ensures forall w :: w in s.wins ==> w.term != s.members[i].ctx.term
  {
    var term := s.members[i].ctx.term;
    assert MemberOK(s.members[i], i, s.members.Keys, s.ballots, s.wins, s.now);
    var at :| Win(i, term, at) in s'.wins;
    forall w | w in s.wins ensures w.term != term {
      if w.term == term { OneLeaderPerTerm(s', w, Win(i, term, at)); }
    }
  }

  /** No two members lead in one term. */
  lemma LeadersDiffer(s: State, i: Id, j: Id)
    requires ElectionInv(s) && i in s.members && j in s.members
    requires s.members[i].role.Leading? && s.members[j].role.Leading? && s.members[i].ctx.term == s.members[j].ctx.term
    ensures i == j
  {
    assert MemberOK(s.members[i], i, s.members.Keys, s.ballots, s.wins, s.now);
    assert MemberOK(s.members[j], j, s.members.Keys, s.ballots, s.wins, s.now);
    var at :| Win(i, s.members[i].ctx.term, at) in s.wins;
    var at' :| Win(j, s.members[j].ctx.term, at') in s.wins;
    OneLeaderPerTerm(s, Win(i, s.members[i].ctx.term, at), Win(j, s.members[j].ctx.term, at'));
  }

  // ----- Preservation -----

  // History only grows, one member changes, and its term does not fall.
  ghost predicate Extends(s: State, i: Id, s': State) {
    && i in s.members && i in s'.members
    && s'.members == s.members[i := s'.members[i]]
    && s'.members[i].ctx.term >= s.members[i].ctx.term
    && s.ballots <= s'.ballots && s.wins <= s'.wins && s'.now == s.now
  }

  lemma BackedMono(ballots: set<Ballot>, ballots': set<Ballot>, voter: Id, term: nat, candidate: Id, since: Time,
                   since': Time, until: Time, until': Time)
    requires ballots <= ballots' && until <= until' && since' <= since
    requires Backed(ballots, voter, term, candidate, since, until)
    ensures Backed(ballots', voter, term, candidate, since', until')
  {
    var at :| since <= at <= until && Ballot(voter, term, candidate, at) in ballots;
  }

  lemma WonMono(w: Win, group: set<Id>, ballots: set<Ballot>, ballots': set<Ballot>)
    requires WonByQuorum(w, group, ballots) && ballots <= ballots'
    ensures WonByQuorum(w, group, ballots')
  {
    var q :| IsQuorum(group, q) && Electorate(q, w, ballots);
    forall j | j in q ensures Backed(ballots', j, w.term, w.leader, UNIX_EPOCH, w.at) {
      BackedMono(ballots, ballots', j, w.term, w.leader, UNIX_EPOCH, UNIX_EPOCH, w.at, w.at);
    }
    assert Electorate(q, w, ballots');
  }

  // A member keeps its entitlement while history grows, provided it wins no second time.
  lemma MemberOKMono(m: Member, i: Id, group: set<Id>, ballots: set<Ballot>, ballots': set<Ballot>, wins: set<Win>,
                     wins': set<Win>, now: Time, now': Time)
    requires MemberOK(m, i, group, ballots, wins, now)
    requires ballots <= ballots' && wins <= wins' && now <= now'
    requires m.role.Campaigning? ==> !HasWon(wins', i, m.ctx.term)
    ensures MemberOK(m, i, group, ballots', wins', now')
  {
    if m.role.Campaigning? {
      var c := m.role.c;
      forall j | j in Voters(m.ctx, c)
        ensures Backed(ballots', j, m.ctx.term, m.ctx.memberId, c.dispatched.value, now')
      {
        BackedMono(ballots, ballots', j, m.ctx.term, m.ctx.memberId, c.dispatched.value, c.dispatched.value, now, now');
      }
    } else if m.role.Leading? {
      var at :| Win(i, m.ctx.term, at) in wins;
      assert Win(i, m.ctx.term, at) in wins';
    }
  }

  /** The frame of every event: what remains to be checked is the changed member and the new records. */
  lemma ElectionFrame(s: State, i: Id, s': State)
    requires ElectionInv(s) && Extends(s, i, s')
    requires MemberOK(s'.members[i], i, s.members.Keys, s'.ballots, s'.wins, s.now)
    requires forall w :: w in s'.wins - s.wins ==> w.leader == i && WinOK(w, s'.members, s'.ballots, s.now)
    requires forall b :: b in s'.ballots - s.ballots ==> BallotOK(b, s'.members, s.now)
    requires OneVotePerTerm(s'.ballots)
    requires forall ask :: ask in s'.asks - s.asks ==> UNIX_EPOCH <= ask.at <= s.now
    requires forall a :: a in s'.answers - s.answers ==> AnswerOK(a, s'.ballots, s.now)
    ensures ElectionInv(s')
  {
    assert s'.members.Keys == s.members.Keys;
    forall j | j in s'.members
      ensures MemberOK(s'.members[j], j, s'.members.Keys, s'.ballots, s'.wins, s'.now)
    {
      if j != i {
        assert HasWon(s'.wins, j, s.members[j].ctx.term) ==> HasWon(s.wins, j, s.members[j].ctx.term);
        MemberOKMono(s.members[j], j, s.members.Keys, s.ballots, s'.ballots, s.wins, s'.wins, s.now, s.now);
      }
    }
    forall w | w in s'.wins ensures WinOK(w, s'.members, s'.ballots, s'.now) {
      if w in s.wins { WonMono(w, s.members.Keys, s.ballots, s'.ballots); }
    }
    forall b | b in s'.ballots ensures BallotOK(b, s'.members, s'.now)
    {
      assert b in s.ballots ==> BallotOK(b, s.members, s.now);
    }
    forall a | a in s'.answers ensures AnswerOK(a, s'.ballots, s'.now) {
      assert a in s.answers ==> AnswerOK(a, s.ballots, s.now);
    }
  }

  // Events that cast no vote and win no election.
  lemma ElectionUnaffected(s: State, i: Id, s': State)
    requires ElectionInv(s) && Extends(s, i, s')
    requires s'.ballots == s.ballots && s'.wins == s.wins && s'.asks == s.asks && s'.answers == s.answers
    requires MemberOK(s'.members[i], i, s.members.Keys, s.ballots, s.wins, s.now)
    ensures ElectionInv(s')
  {
    ElectionFrame(s, i, s');
  }

  lemma TickElection(s: State, t: Time)
    requires ElectionInv(s) && t >= s.now
    ensures ElectionInv(s.(now := t))
  {
    forall i | i in s.members ensures MemberOK(s.members[i], i, s.members.Keys, s.ballots, s.wins, t) {
      assert s.members[i].role.Campaigning? ==> !HasWon(s.wins, i, s.members[i].ctx.term);
      MemberOKMono(s.members[i], i, s.members.Keys, s.ballots, s.ballots, s.wins, s.wins, s.now, t);
    }
  }

  lemma QuietElection(s: State, i: Id, m': Member)
    requires ElectionInv(s) && i in s.members && QuietFacts(s.members[i], m', s.now)
    ensures ElectionInv(Put(s, i, m'))
  {
    var m := s.members[i];
    assert MemberOK(m, i, s.members.Keys, s.ballots, s.wins, s.now);
    ElectionUnaffected(s, i, Put(s, i, m'));
  }

  lemma PreVoteElection(s: State, i: Id, r: PreVoteResult)
    requires ElectionInv(s) && i in s.members && s.members[i].role.PreCampaigning?
    requires PreVoteFacts(s.members[i], r, s.now)
    ensures ElectionInv(PreVoteReplyNext(s, i, r))
  {
    var m := s.members[i];
    var s' := PreVoteReplyNext(s, i, r);
    assert MemberOK(m, i, s.members.Keys, s.ballots, s.wins, s.now);
    match r
    case StillWaiting(_) => ElectionUnaffected(s, i, s');
    case Abandoned => ElectionUnaffected(s, i, s');
    case Promoted(ctx, c, _) =>
      var own := Ballot(i, ctx.term, i, s.now);
      // The term is new to this member, so it has not voted in it.
      forall b | b in s.ballots && b.voter == i ensures b.term < ctx.term {
        assert BallotOK(b, s.members, s.now);
      }
      assert own in s'.ballots;
      assert Promisers(c.votes) == {};
      assert Backed(s'.ballots, i, ctx.term, i, c.dispatched.value, s.now);
      forall w | w in s.wins && w.leader == i ensures w.term < ctx.term {
        assert WinOK(w, s.members, s.ballots, s.now);
      }
      ElectionFrame(s, i, s');
  }

  lemma VoteElection(s: State, i: Id, ask: Ask, r: VoteOutcomeAt)
    requires ElectionInv(s) && i in s.members && ask in s.asks && VoteFacts(s.members[i], ask.request, r, s.now)
    ensures ElectionInv(VoteAskedNext(s, i, ask, r))
  {
    var m := s.members[i];
    var s' := VoteAskedNext(s, i, ask, r);
    assert MemberOK(m, i, s.members.Keys, s.ballots, s.wins, s.now);
    // A grant raises the term, so no vote of this member is in the new term.
    forall b | b in s.ballots && b.voter == i ensures b.term <= m.ctx.term {
      assert BallotOK(b, s.members, s.now);
    }
    if r.m.role.Campaigning? {
      MemberOKMono(m, i, s.members.Keys, s.ballots, s'.ballots, s.wins, s.wins, s.now, s.now);
    }
    ElectionFrame(s, i, s');
  }

  // Recording an answer keeps the tally right.
  lemma TallyStep(s: State, i: Id, answer: Answer)
    requires ElectionInv(s) && i in s.members && answer in s.answers
    requires SameCampaign(s.members[i], answer.ask) && answer.response.memberId in s.members[i].role.c.score
    ensures var m := s.members[i];
      TallyOK(m.ctx, RecordVote(m.ctx, m.role.c, answer.response), s.ballots, s.now)
  {
    var m := s.members[i];
    var c1 := RecordVote(m.ctx, m.role.c, answer.response);
    assert MemberOK(m, i, s.members.Keys, s.ballots, s.wins, s.now);
    assert AnswerOK(answer, s.ballots, s.now);
    forall j | j in Voters(m.ctx, c1)
      ensures Backed(s.ballots, j, m.ctx.term, m.ctx.memberId, c1.dispatched.value, s.now)
    {
      if j != answer.response.memberId || j == m.ctx.memberId {
        assert j in Voters(m.ctx, m.role.c);
      } else {
        assert Ballot(j, m.ctx.term, m.ctx.memberId, answer.at) in s.ballots;
      }
    }
  }

  // The tally is complete exactly when the promisers and the candidate itself are a majority.
  lemma TallyIsQuorum(ctx: ContextView, c: CandidateView, group: set<Id>)
    requires ctx.memberId in group && ctx.peerIds == group - {ctx.memberId} && c.votes.Keys == ctx.peerIds
    ensures HasVoteQuorum(c.votes) <==> IsQuorum(group, Voters(ctx, c))
  {
    assert |c.votes| == |c.votes.Keys| == |group| - 1;
    assert Promisers(c.votes) <= c.votes.Keys;
  }

  lemma TallyWins(ctx: ContextView, c: CandidateView, group: set<Id>, ballots: set<Ballot>, now: Time)
    requires ctx.memberId in group && ctx.peerIds == group - {ctx.memberId} && c.votes.Keys == ctx.peerIds
    requires TallyOK(ctx, c, ballots, now) && HasVoteQuorum(c.votes) && c.dispatched.value >= UNIX_EPOCH
    ensures WonByQuorum(Win(ctx.memberId, ctx.term, now), group, ballots)
  {
    var q := Voters(ctx, c);
    TallyIsQuorum(ctx, c, group);
    forall j | j in q ensures Backed(ballots, j, ctx.term, ctx.memberId, UNIX_EPOCH, now) {
      BackedMono(ballots, ballots, j, ctx.term, ctx.memberId, c.dispatched.value, UNIX_EPOCH, now, now);
    }
    assert Electorate(q, Win(ctx.memberId, ctx.term, now), ballots);
  }

  lemma StillCampaigning(s: State, i: Id, answer: Answer)
    requires ElectionInv(s) && i in s.members && answer in s.answers
    requires SameCampaign(s.members[i], answer.ask) && answer.response.memberId in s.members[i].role.c.score
    ensures var m := s.members[i];
      MemberOK(Member(m.ctx, Campaigning(RecordVote(m.ctx, m.role.c, answer.response))),
               i, s.members.Keys, s.ballots, s.wins, s.now)
  {
    assert MemberOK(s.members[i], i, s.members.Keys, s.ballots, s.wins, s.now);
    TallyStep(s, i, answer);
  }

  // A winner's new role, log aside.
  lemma ElectedElection(s: State, i: Id, c1: CandidateView, step: LeaderStep)
    requires ElectionInv(s) && i in s.members
    requires MemberOK(Member(s.members[i].ctx, Campaigning(c1)), i, s.members.Keys, s.ballots, s.wins, s.now)
    requires c1.dispatched.value >= UNIX_EPOCH && HasVoteQuorum(c1.votes)
    requires SameIdentity(s.members[i].ctx, step.ctx) && step.ctx.term == s.members[i].ctx.term
    requires step.l.score.Keys == step.l.lastContact.Keys == c1.score.Keys
    ensures ElectionInv(VoteReplyNext(s, i, Elected(step)))
  {
    var m := s.members[i];
    var s' := VoteReplyNext(s, i, Elected(step));
    var w := Win(i, m.ctx.term, s.now);
    TallyWins(m.ctx, c1, s.members.Keys, s.ballots, s.now);
    assert w in s'.wins;
    assert s'.members.Keys == s.members.Keys;
    assert WinOK(w, s'.members, s'.ballots, s.now);
    ElectionFrame(s, i, s');
  }

  lemma VoteReplyElection(s: State, i: Id, answer: Answer, r: VoteResult)
    requires ElectionInv(s) && i in s.members && answer in s.answers && answer.ask.at >= UNIX_EPOCH
    requires SameCampaign(s.members[i], answer.ask) && answer.response.memberId in s.members[i].role.c.score
    requires ElectFacts(s.members[i], answer.response, r, s.now)
    ensures ElectionInv(VoteReplyNext(s, i, r))
  {
    match r
    case Waiting(c) =>
      StillCampaigning(s, i, answer);
      CampaignGoesOn(s, i, c);
    case GivenUp(ctx) => CampaignEnds(s, i, ctx);
    case Elected(step) =>
      StillCampaigning(s, i, answer);
      TallyElects(s, i, RecordVote(s.members[i].ctx, s.members[i].role.c, answer.response), step);
  }

  lemma TallyElects(s: State, i: Id, c1: CandidateView, step: LeaderStep)
    requires ElectionInv(s) && i in s.members && c1.dispatched.Some? && c1.dispatched.value >= UNIX_EPOCH
    requires MemberOK(Member(s.members[i].ctx, Campaigning(c1)), i, s.members.Keys, s.ballots, s.wins, s.now)
    requires ElectedFacts(s.members[i].ctx, c1, step, s.now)
    ensures ElectionInv(VoteReplyNext(s, i, Elected(step)))
  {
    ElectedElection(s, i, c1, step);
  }

  lemma CampaignGoesOn(s: State, i: Id, c: CandidateView)
    requires ElectionInv(s) && i in s.members
    requires MemberOK(Member(s.members[i].ctx, Campaigning(c)), i, s.members.Keys, s.ballots, s.wins, s.now)
    ensures ElectionInv(VoteReplyNext(s, i, Waiting(c)))
  {
    ElectionUnaffected(s, i, VoteReplyNext(s, i, Waiting(c)));
  }

  lemma CampaignEnds(s: State, i: Id, ctx: ContextView)
    requires ElectionInv(s) && i in s.members && ctx == s.members[i].ctx.(lease := ctx.lease)
    ensures ElectionInv(VoteReplyNext(s, i, GivenUp(ctx)))
  {
    assert MemberOK(s.members[i], i, s.members.Keys, s.ballots, s.wins, s.now);
    ElectionUnaffected(s, i, VoteReplyNext(s, i, GivenUp(ctx)));
  }

  lemma AcceptElection(s: State, i: Id, sent: Sent, r: AcceptOutcomeAt)
    requires ElectionInv(s) && i in s.members && AcceptFacts(s.members[i], sent.request, r, s.now)
    ensures ElectionInv(AcceptAskedNext(s, i, sent, r))
  {
    assert MemberOK(s.members[i], i, s.members.Keys, s.ballots, s.wins, s.now);
    ElectionUnaffected(s, i, AcceptAskedNext(s, i, sent, r));
  }

  // Everything a leader does keeps it the leader of its term.
  lemma LeaderElection(s: State, i: Id, ctx: ContextView, l: LeaderView, s': State)
    requires ElectionInv(s) && i in s.members && s.members[i].role.Leading?
    requires SameIdentity(s.members[i].ctx, ctx) && ctx.term == s.members[i].ctx.term
    requires l.score.Keys == s.members[i].role.l.score.Keys && l.lastContact.Keys == s.members[i].role.l.lastContact.Keys
    requires s'.members == s.members[i := Member(ctx, Leading(l))]
    requires s'.ballots == s.ballots && s'.wins == s.wins && s'.asks == s.asks && s'.answers == s.answers && s'.now == s.now
    ensures ElectionInv(s')
  {
    assert MemberOK(s.members[i], i, s.members.Keys, s.ballots, s.wins, s.now);
    ElectionUnaffected(s, i, s');
  }

  /** Every event keeps the invariant. */
  lemma ElectionStep(s: State, e: Event)
    requires ElectionInv(s) && Enabled(s, e)
    ensures ElectionInv(Next(s, e))
  {
    if e.PreVoteReply? || e.VoteReply? { CampaignElectionStep(s, e); }
    else if e.VoteAsked? || e.AcceptAsked? { RequestElectionStep(s, e); }
    else if e.Tick? { TickElection(s, e.t); }
    else { OtherElectionStep(s, e); }
  }

  lemma CampaignElectionStep(s: State, e: Event)
    requires ElectionInv(s) && Enabled(s, e) && (e.PreVoteReply? || e.VoteReply?)
    ensures ElectionInv(Next(s, e))
  {
    var m := s.members[e.i];
    if e.PreVoteReply? {
      assert MemberOK(m, e.i, s.members.Keys, s.ballots, s.wins, s.now);
      PreVoteReplyFacts(m, e.preVote, e.reading, s.now);
      PreVoteElection(s, e.i, OnPreVoteResponse(m.ctx, m.role.p, e.preVote, e.reading));
    } else {
      assert AnswerOK(e.answer, s.ballots, s.now);
      VoteReplyFacts(m, e.answer, e.reading, e.tSends, s.now);
      VoteReplyElection(s, e.i, e.answer, OnVoteResponse(m.ctx, m.role.c, e.answer.response, e.reading, e.tSends));
    }
  }

  lemma RequestElectionStep(s: State, e: Event)
    requires ElectionInv(s) && Enabled(s, e) && (e.VoteAsked? || e.AcceptAsked?)
    ensures ElectionInv(Next(s, e))
  {
    var m := s.members[e.i];
    if e.VoteAsked? {
      VoteRequestFacts(m, e.ask.request, e.roleCheck, e.check, e.extend, s.now);
      VoteElection(s, e.i, e.ask, ProcessVoteRequest(m, e.ask.request, e.roleCheck, e.check, e.extend));
    } else {
      AcceptRequestFacts(m, e.sent.request, e.roleCheck, e.check, e.extend, s.now);
      AcceptElection(s, e.i, e.sent, ProcessAcceptRequest(m, e.sent.request, e.roleCheck, e.check, e.extend));
    }
  }

  lemma OtherElectionStep(s: State, e: Event)
    requires ElectionInv(s) && Enabled(s, e)
    requires Quiet(e) || Routine(e) || e.AcceptReply? || e.ClientWrite? || e.Answered?
    ensures ElectionInv(Next(s, e))
  {
    if Quiet(e) {
      QuietMemberFacts(s.members[e.i], e, s.now);
      QuietElection(s, e.i, QuietMember(s.members[e.i], e, s.now));
    } else if Routine(e) {
      var step := RoutineStep(s.members[e.i], e, s.now);
      RoutineStepFacts(s.members[e.i], e, s.now);
      LeaderElection(s, e.i, step.ctx, step.l, Post(s, e.i, step));
    } else if e.AcceptReply? {
      AcceptReplyElection(s, e);
    } else if e.ClientWrite? {
      var step := OnClientWrite(s.members[e.i].ctx, s.members[e.i].role.l, e.command, e.value, e.reading);
      LeaderElection(s, e.i, step.ctx, step.l, Next(s, e));
    } else {
      assert forall i :: i in s.members ==> MemberOK(s.members[i], i, s.members.Keys, s.ballots, s.wins, s.now);
    }
  }

  lemma AcceptReplyElection(s: State, e: Event)
    requires ElectionInv(s) && e.AcceptReply? && AcceptReplyEnabled(s, e.i, e.ack, e.tSend)
    ensures var m := s.members[e.i];
      ElectionInv(AcceptReplyNext(s, e.i, OnAcceptResponse(m.ctx, m.role.l, e.ack.response, e.tSend)))
  {
    var m := s.members[e.i];
    AcceptReplyFacts(m, e.ack.response, e.tSend, s.now);
    AckElection(s, e.i, e.ack.response, OnAcceptResponse(m.ctx, m.role.l, e.ack.response, e.tSend));
  }

  lemma AckElection(s: State, i: Id, response: AcceptResponse, step: LeaderStep)
    requires ElectionInv(s) && i in s.members && s.members[i].role.Leading?
    requires AckFacts(s.members[i], response, step, s.now)
    ensures ElectionInv(AcceptReplyNext(s, i, step))
  {
    assert MemberOK(s.members[i], i, s.members.Keys, s.ballots, s.wins, s.now);
    assert step.l.lastContact.Keys == s.members[i].role.l.lastContact.Keys;
    LeaderElection(s, i, step.ctx, step.l, AcceptReplyNext(s, i, step));
  }
}
