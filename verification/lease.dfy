/** Lease disjointness over whole runs: a leader's lease is over before a higher term elects a leader. */
module LeaseSafety {
  import opened Types
  import opened TrueTime
  import opened Quorums
  import opened Views
  import opened LeaderRole
  import opened CandidateRole
  import opened PreCandidateRole
  import opened StateMachine
  import opened Group
  import opened Facts
  import opened ElectionSafety

  // ----- The invariant -----

  // Having confirmed `term`, member `j` stands by the expiry `x`: its own lease lasts as long, or true time has
  // passed `x`; and it has voted in a higher term only after `x`.
  ghost predicate Backs(m: Member, ballots: set<Ballot>, j: Id, term: nat, x: Time, now: Time) {
    && x <= now + LEASE_LENGTH
    && (x < now || (m.ctx.lease.Some? && x <= m.ctx.lease.value))
    && forall b :: b in ballots && b.voter == j && b.term > term ==> x < b.at
  }

  ghost predicate BacksIn(s: State, j: Id, term: nat, x: Time) {
    j in s.members && Backs(s.members[j], s.ballots, j, term, x, s.now)
  }

  ghost predicate AllBack(s: State, q: set<Id>, term: nat, x: Time) {
    forall j :: j in q ==> BacksIn(s, j, term, x)
  }

  // A quorum stands by the stored expiry.
  ghost predicate StoredOK(s: State, st: Stored) {
    exists q :: IsQuorum(s.members.Keys, q) && AllBack(s, q, st.term, st.expiry)
  }

  // The follower extended its lease for a request sent at `echoedTSend`.
  ghost predicate AckOK(s: State, response: AcceptResponse) {
    Confirms(response) ==>
      && UNIX_EPOCH <= response.echoedTSend
      && BacksIn(s, response.memberId, response.term, response.echoedTSend + LEASE_LENGTH)
  }

  ghost predicate ContactsOK(s: State, l: LeaderView, term: nat) {
    forall j :: j in l.lastContact ==>
      l.lastContact[j] == UNIX_EPOCH || BacksIn(s, j, term, l.lastContact[j] + LEASE_LENGTH)
  }

  ghost predicate RoleLeaseOK(s: State, i: Id, m: Member) {
    match m.role
    case Following(_) => true
    case PreCampaigning(_) => Over(m.ctx, s.now)
    case Campaigning(c) => Over(m.ctx, s.now) && c.dispatched.Some? && SendTime(c.dispatched.value, s.now)
    case Leading(l) =>
      && m.ctx.lease.Some? && m.ctx.lease.value >= UNIX_EPOCH + LEASE_LENGTH
      && Stored(i, m.ctx.term, m.ctx.lease.value) in s.leases
      && ContactsOK(s, l, m.ctx.term)
  }

  // A granted vote carries a lease that starts when it is cast.
  ghost predicate BallotLeaseOK(s: State, b: Ballot) {
    b.voter != b.candidate ==> BacksIn(s, b.voter, b.term, b.at + LEASE_LENGTH)
  }

  ghost predicate LeaseInv(s: State) {
    && (forall i :: i in s.members ==> RoleLeaseOK(s, i, s.members[i]))
    && (forall b :: b in s.ballots ==> BallotLeaseOK(s, b))
    && (forall sent :: sent in s.sents ==> SendTime(sent.request.tSend, s.now))
    && (forall ack :: ack in s.acks ==> AckOK(s, ack.response))
    && (forall st :: st in s.leases ==> StoredOK(s, st))
  }

  // ----- Disjointness -----

  /** Whatever a leader of a lower term ever stores as its expiry, before or after, lies before the
      true time at which a higher term was won. */
  lemma LeaseOverBeforeWin(s: State, st: Stored, w: Win)
    requires ElectionInv(s) && LeaseInv(s) && st in s.leases && w in s.wins && st.term < w.term
    ensures st.expiry < w.at
  {
    var p :| IsQuorum(s.members.Keys, p) && AllBack(s, p, st.term, st.expiry);
    assert WinOK(w, s.members, s.ballots, s.now);
    var q :| IsQuorum(s.members.Keys, q) && Electorate(q, w, s.ballots);
    var j := QuorumsMeet(s.members.Keys, p, q);
    var at :| at <= w.at && Ballot(j, w.term, w.leader, at) in s.ballots;
    assert BacksIn(s, j, st.term, st.expiry);
  }

  /** No two members hold at one instant, as leaders, a lease that is definitely still running. */
  lemma LeasesAreDisjoint(s: State, i: Id, j: Id, reading: TimeInterval, reading': TimeInterval)
    requires ElectionInv(s) && LeaseInv(s) && i in s.members && j in s.members
    requires s.members[i].role.Leading? && s.members[j].role.Leading?
    requires ValidAt(reading, s.now) && ValidAt(reading', s.now)
    requires s.members[i].ctx.lease.Some? && Before(s.members[i].ctx.lease.value, reading)
    requires s.members[j].ctx.lease.Some? && Before(s.members[j].ctx.lease.value, reading')
    ensures i == j
  {
    if s.members[i].ctx.term == s.members[j].ctx.term {
      LeadersDiffer(s, i, j);
    } else {
      var (lo, hi) := if s.members[i].ctx.term < s.members[j].ctx.term then (i, j) else (j, i);
      assert MemberOK(s.members[hi], hi, s.members.Keys, s.ballots, s.wins, s.now);
      var at :| Win(hi, s.members[hi].ctx.term, at) in s.wins;
      assert WinOK(Win(hi, s.members[hi].ctx.term, at), s.members, s.ballots, s.now);
      assert RoleLeaseOK(s, lo, s.members[lo]);
      LeaseOverBeforeWin(s, Stored(lo, s.members[lo].ctx.term, s.members[lo].ctx.lease.value),
                         Win(hi, s.members[hi].ctx.term, at));
    }
  }

  // ----- Preservation -----

  // A lease is kept, extended from the present, raised, or changed once it is over.
  ghost predicate LeaseMove(m: Member, m': Member, now: Time) {
    || m'.ctx.lease == m.ctx.lease
    || Extended(m'.ctx, now)
    || Over(m.ctx, now)
    || (m.ctx.lease.Some? && m'.ctx.lease.Some? && m'.ctx.lease.value >= m.ctx.lease.value)
  }

  // One member changes, and it votes only when its lease is over.
  ghost predicate LeaseExtends(s: State, i: Id, s': State) {
    && i in s.members && i in s'.members
    && s'.members == s.members[i := s'.members[i]]
    && LeaseMove(s.members[i], s'.members[i], s.now)
    && s.ballots <= s'.ballots && s.leases <= s'.leases && s'.now == s.now
    && (forall b :: b in s'.ballots - s.ballots ==> b.voter == i && b.at == s.now && Over(s.members[i].ctx, s.now))
  }

  lemma BacksKept(s: State, i: Id, s': State, j: Id, term: nat, x: Time)
    requires LeaseExtends(s, i, s') && BacksIn(s, j, term, x)
    ensures BacksIn(s', j, term, x)
  {
    forall b | b in s'.ballots && b.voter == j && b.term > term ensures x < b.at {
      if b !in s.ballots { assert b in s'.ballots - s.ballots; }
    }
  }

  lemma BacksLess(s: State, j: Id, term: nat, x: Time, y: Time)
    requires BacksIn(s, j, term, x) && y <= x
    ensures BacksIn(s, j, term, y)
  {}

  lemma StoredKept(s: State, i: Id, s': State, st: Stored)
    requires LeaseExtends(s, i, s') && StoredOK(s, st)
    ensures StoredOK(s', st)
  {
    var q :| IsQuorum(s.members.Keys, q) && AllBack(s, q, st.term, st.expiry);
    forall j | j in q ensures BacksIn(s', j, st.term, st.expiry) {
      BacksKept(s, i, s', j, st.term, st.expiry);
    }
    assert s'.members.Keys == s.members.Keys;
    assert AllBack(s', q, st.term, st.expiry);
  }

  lemma RoleLeaseKept(s: State, i: Id, s': State, j: Id)
    requires LeaseInv(s) && LeaseExtends(s, i, s') && j in s.members && j != i
    ensures RoleLeaseOK(s', j, s'.members[j])
  {
    assert RoleLeaseOK(s, j, s.members[j]);
    if s.members[j].role.Leading? { ContactsKept(s, i, s', s.members[j].role.l, s.members[j].ctx.term); }
  }

  lemma ContactsKept(s: State, i: Id, s': State, l: LeaderView, term: nat)
    requires LeaseExtends(s, i, s') && ContactsOK(s, l, term)
    ensures ContactsOK(s', l, term)
  {
    forall k | k in l.lastContact
      ensures l.lastContact[k] == UNIX_EPOCH || BacksIn(s', k, term, l.lastContact[k] + LEASE_LENGTH)
    {
      if l.lastContact[k] != UNIX_EPOCH { BacksKept(s, i, s', k, term, l.lastContact[k] + LEASE_LENGTH); }
    }
  }

  /** The frame of every event: what remains is the changed member and the new records. */
  lemma LeaseFrame(s: State, i: Id, s': State)
    requires LeaseInv(s) && LeaseExtends(s, i, s')
    requires RoleLeaseOK(s', i, s'.members[i])
    requires forall b :: b in s'.ballots - s.ballots ==> BallotLeaseOK(s', b)
    requires forall sent :: sent in s'.sents - s.sents ==> SendTime(sent.request.tSend, s.now)
    requires forall ack :: ack in s'.acks - s.acks ==> AckOK(s', ack.response)
    requires forall st :: st in s'.leases - s.leases ==> StoredOK(s', st)
    ensures LeaseInv(s')
  {
    forall j | j in s'.members ensures RoleLeaseOK(s', j, s'.members[j]) {
      if j != i { RoleLeaseKept(s, i, s', j); }
    }
    forall b | b in s'.ballots ensures BallotLeaseOK(s', b) {
      if b in s.ballots && b.voter != b.candidate {
        assert BallotLeaseOK(s, b);
        BacksKept(s, i, s', b.voter, b.term, b.at + LEASE_LENGTH);
      } else if b.voter != b.candidate {
        assert b in s'.ballots - s.ballots;
      }
    }
    forall ack | ack in s'.acks ensures AckOK(s', ack.response) {
      if ack in s.acks && Confirms(ack.response) {
        assert AckOK(s, ack.response);
        BacksKept(s, i, s', ack.response.memberId, ack.response.term, ack.response.echoedTSend + LEASE_LENGTH);
      }
    }
    forall st | st in s'.leases ensures StoredOK(s', st) {
      if st in s.leases { StoredKept(s, i, s', st); }
    }
    forall sent | sent in s'.sents ensures SendTime(sent.request.tSend, s'.now) {}
  }

  // Events that leave no record behind.
  lemma LeaseUnaffected(s: State, i: Id, s': State)
    requires LeaseInv(s) && LeaseExtends(s, i, s')
    requires RoleLeaseOK(s', i, s'.members[i])
    requires s'.ballots == s.ballots && s'.sents == s.sents && s'.acks == s.acks && s'.leases == s.leases
    ensures LeaseInv(s')
  {
    LeaseFrame(s, i, s');
  }

  lemma TickLease(s: State, t: Time)
    requires LeaseInv(s) && t >= s.now
    ensures LeaseInv(s.(now := t))
  {
    var s' := s.(now := t);
    forall j, term, x | BacksIn(s, j, term, x) ensures BacksIn(s', j, term, x) {}
    forall i | i in s.members ensures RoleLeaseOK(s', i, s.members[i]) {
      assert RoleLeaseOK(s, i, s.members[i]);
    }
    forall b | b in s.ballots ensures BallotLeaseOK(s', b) { assert BallotLeaseOK(s, b); }
    forall ack | ack in s.acks ensures AckOK(s', ack.response) { assert AckOK(s, ack.response); }
    forall st | st in s.leases ensures StoredOK(s', st) {
      var q :| IsQuorum(s.members.Keys, q) && AllBack(s, q, st.term, st.expiry);
      assert AllBack(s', q, st.term, st.expiry);
    }
  }

  lemma QuietLease(s: State, i: Id, m': Member)
    requires LeaseInv(s) && i in s.members && QuietFacts(s.members[i], m', s.now)
    ensures LeaseInv(Put(s, i, m'))
  {
    var s' := Put(s, i, m');
    assert RoleLeaseOK(s, i, s.members[i]);
    if m'.role.Leading? { ContactsKept(s, i, s', m'.role.l, m'.ctx.term); }
    LeaseUnaffected(s, i, s');
  }

  lemma PreVoteLease(s: State, i: Id, r: PreVoteResult)
    requires LeaseInv(s) && i in s.members && s.members[i].role.PreCampaigning?
    requires s.members[i].ctx.memberId == i
    requires PreVoteFacts(s.members[i], r, s.now)
    ensures LeaseInv(PreVoteReplyNext(s, i, r))
  {
    assert RoleLeaseOK(s, i, s.members[i]);
    LeaseFrame(s, i, PreVoteReplyNext(s, i, r));
  }

  // A member has no vote in a term above its own.
  lemma NoLaterVote(s: State, j: Id, term: nat)
    requires ElectionInv(s) && j in s.members && s.members[j].ctx.term <= term
    ensures forall b :: b in s.ballots && b.voter == j ==> b.term <= term
  {
    forall b | b in s.ballots && b.voter == j ensures b.term <= term {
      assert BallotOK(b, s.members, s.now);
    }
  }

  lemma VoteLease(s: State, i: Id, ask: Ask, r: VoteOutcomeAt)
    requires LeaseInv(s) && i in s.members && ask in s.asks && VoteFacts(s.members[i], ask.request, r, s.now)
    requires ElectionInv(VoteAskedNext(s, i, ask, r))
    ensures LeaseInv(VoteAskedNext(s, i, ask, r))
  {
    var s' := VoteAskedNext(s, i, ask, r);
    assert RoleLeaseOK(s, i, s.members[i]);
    if r.response.outcome.Promise? {
      NoLaterVote(s', i, ask.request.term);
      assert BacksIn(s', i, ask.request.term, s.now + LEASE_LENGTH);
    } else if r.m.role.Leading? {
      ContactsKept(s, i, s', r.m.role.l, r.m.ctx.term);
    }
    LeaseFrame(s, i, s');
  }

  lemma AcceptLease(s: State, i: Id, sent: Sent, r: AcceptOutcomeAt)
    requires LeaseInv(s) && i in s.members && sent in s.sents && AcceptFacts(s.members[i], sent.request, r, s.now)
    requires s.members[i].ctx.memberId == i
    requires ElectionInv(AcceptAskedNext(s, i, sent, r))
    ensures LeaseInv(AcceptAskedNext(s, i, sent, r))
  {
    var s' := AcceptAskedNext(s, i, sent, r);
    assert RoleLeaseOK(s, i, s.members[i]);
    assert SendTime(sent.request.tSend, s.now);
    if r.m.role.Leading? { ContactsKept(s, i, s', r.m.role.l, r.m.ctx.term); }
    if r.response.Some? && Judged(s.members[i], sent.request, r.m, r.response.value, s.now) {
      NoLaterVote(s', i, sent.request.term);
      assert BacksIn(s', i, sent.request.term, sent.request.tSend + LEASE_LENGTH);
    }
    LeaseFrame(s, i, s');
  }

  // A vote cast since the dispatch backs a lease that counts from it.
  lemma VoterBacks(s: State, i: Id, j: Id, term: nat, dispatched: Time, s': State)
    requires LeaseInv(s) && LeaseExtends(s, i, s') && j != i && Backed(s.ballots, j, term, i, dispatched, s.now)
    ensures BacksIn(s', j, term, dispatched + LEASE_LENGTH)
  {
    var at :| dispatched <= at <= s.now && Ballot(j, term, i, at) in s.ballots;
    assert BallotLeaseOK(s, Ballot(j, term, i, at));
    BacksKept(s, i, s', j, term, at + LEASE_LENGTH);
    BacksLess(s', j, term, at + LEASE_LENGTH, dispatched + LEASE_LENGTH);
  }

  lemma AllVotersBack(s: State, i: Id, c1: CandidateView, s': State)
    requires ElectionInv(s') && LeaseInv(s) && i in s.members && s.members[i].ctx.memberId == i && LeaseExtends(s, i, s')
    requires TallyOK(s.members[i].ctx, c1, s.ballots, s.now) && SendTime(c1.dispatched.value, s.now)
    requires s'.members[i].ctx.lease == Some(LeaseFromVote(c1)) && s'.members[i].ctx.term == s.members[i].ctx.term
    ensures AllBack(s', Voters(s.members[i].ctx, c1), s.members[i].ctx.term, LeaseFromVote(c1))
  {
    var ctx := s.members[i].ctx;
    forall j | j in Voters(ctx, c1) ensures BacksIn(s', j, ctx.term, LeaseFromVote(c1)) {
      if j == i { NoLaterVote(s', i, ctx.term); } else { VoterBacks(s, i, j, ctx.term, c1.dispatched.value, s'); }
    }
  }

  // The winner's lease is backed by everyone who voted for it.
  lemma VotersBack(s: State, i: Id, c1: CandidateView, s': State)
    requires ElectionInv(s) && LeaseInv(s) && i in s.members && LeaseExtends(s, i, s') && ElectionInv(s')
    requires MemberOK(Member(s.members[i].ctx, Campaigning(c1)), i, s.members.Keys, s.ballots, s.wins, s.now)
    requires SendTime(c1.dispatched.value, s.now) && HasVoteQuorum(c1.votes)
    requires s'.members[i].ctx.lease == Some(LeaseFromVote(c1)) && s'.members[i].ctx.term == s.members[i].ctx.term
    ensures StoredOK(s', Stored(i, s.members[i].ctx.term, LeaseFromVote(c1)))
  {
    TallyIsQuorum(s.members[i].ctx, c1, s.members.Keys);
    AllVotersBack(s, i, c1, s');
    assert s'.members.Keys == s.members.Keys;
    assert IsQuorum(s'.members.Keys, Voters(s.members[i].ctx, c1));
  }

  lemma ElectedLease(s: State, i: Id, c1: CandidateView, step: LeaderStep)
    requires ElectionInv(s) && LeaseInv(s) && i in s.members && s.members[i].role.Campaigning?
    requires MemberOK(Member(s.members[i].ctx, Campaigning(c1)), i, s.members.Keys, s.ballots, s.wins, s.now)
    requires c1.dispatched == s.members[i].role.c.dispatched && HasVoteQuorum(c1.votes)
    requires step.ctx.lease == Some(LeaseFromVote(c1)) && step.ctx.term == s.members[i].ctx.term
    requires step.l.lastContact == (map j | j in c1.score :: UNIX_EPOCH) && AllWellPosted(step, s.now)
    requires ElectionInv(VoteReplyNext(s, i, Elected(step)))
    ensures LeaseInv(VoteReplyNext(s, i, Elected(step)))
  {
    var s' := VoteReplyNext(s, i, Elected(step));
    assert RoleLeaseOK(s, i, s.members[i]);
    ElectedExtends(s, i, step);
    VotersBack(s, i, c1, s');
    assert ContactsOK(s', step.l, step.ctx.term);
    LeaseFrame(s, i, s');
  }

  lemma ElectedExtends(s: State, i: Id, step: LeaderStep)
    requires i in s.members && RoleLeaseOK(s, i, s.members[i]) && s.members[i].role.Campaigning?
    requires step.ctx.lease.Some? && step.ctx.term == s.members[i].ctx.term && AllWellPosted(step, s.now)
    ensures var s' := VoteReplyNext(s, i, Elected(step));
      && LeaseExtends(s, i, s')
      && forall sent :: sent in s'.sents - s.sents ==> SendTime(sent.request.tSend, s.now)
  {}

  lemma CampaignLease(s: State, i: Id, m': Member, s': State)
    requires LeaseInv(s) && i in s.members && s.members[i].role.Campaigning?
    requires m'.role.Following? || (m'.role.Campaigning? && m'.role.c.dispatched == s.members[i].role.c.dispatched
                                    && m'.ctx == s.members[i].ctx)
    requires s' == Put(s, i, m')
    ensures LeaseInv(s')
  {
    assert RoleLeaseOK(s, i, s.members[i]);
    LeaseUnaffected(s, i, s');
  }

  lemma VoteReplyLease(s: State, i: Id, answer: Answer, r: VoteResult)
    requires ElectionInv(s) && LeaseInv(s) && i in s.members && answer in s.answers
    requires SameCampaign(s.members[i], answer.ask) && answer.response.memberId in s.members[i].role.c.score
    requires ElectFacts(s.members[i], answer.response, r, s.now) && ElectionInv(VoteReplyNext(s, i, r))
    ensures LeaseInv(VoteReplyNext(s, i, r))
  {
    match r
    case Waiting(c) => CampaignLease(s, i, Member(s.members[i].ctx, Campaigning(c)), VoteReplyNext(s, i, r));
    case GivenUp(ctx) => CampaignLease(s, i, Member(ctx, Following(FRESH_FOLLOWER)), VoteReplyNext(s, i, r));
    case Elected(step) =>
      StillCampaigning(s, i, answer);
      var c1 := RecordVote(s.members[i].ctx, s.members[i].role.c, answer.response);
      assert ElectedFacts(s.members[i].ctx, c1, step, s.now);
      ElectedLease(s, i, c1, step);
  }

  // ----- Renewal -----

  // The contact times stay backed when a confirming response of this term is noted.
  lemma NotedContactsOK(s: State, i: Id, l: LeaderView, response: AcceptResponse, contacts: map<Id, Time>)
    requires i in s.members && ContactsOK(s, l, response.term) && AckOK(s, response) && Confirms(response)
    requires contacts == NoteContact(l.lastContact, response)
    ensures ContactsOK(s, l.(lastContact := contacts), response.term)
  {}

  // A renewed lease is backed by the leader and by the followers in recent contact.
  lemma RenewalBacked(s: State, i: Id, l: LeaderView, s': State)
    requires ElectionInv(s') && LeaseExtends(s, i, s')
    requires i in s.members && s.members[i].ctx.peerIds == s.members.Keys - {i} && s.members[i].ctx.peerIds != {}
    requires ContactsOK(s, l, s.members[i].ctx.term) && l.lastContact.Keys == s.members[i].ctx.peerIds
    requires s'.members[i].ctx.lease == RenewedLease(s.members[i].ctx, l.lastContact)
    requires s'.members[i].ctx.term == s.members[i].ctx.term
    requires s.members[i].ctx.lease.Some? && s.members[i].ctx.lease.value >= UNIX_EPOCH + LEASE_LENGTH
    requires s'.members[i].ctx.lease != s.members[i].ctx.lease
    ensures StoredOK(s', Stored(i, s.members[i].ctx.term, s'.members[i].ctx.lease.value))
  {
    var ctx := s.members[i].ctx;
    var need := QuorumOf(ctx) - 1;
    var t := QuorumValue(l.lastContact, need);
    var x := t + LEASE_LENGTH;
    var recent := AtLeast(l.lastContact, t);
    var q := recent + {i};
    assert i !in recent;
    assert |s.members.Keys - {i}| == |s.members.Keys| - 1;
    assert IsQuorum(s.members.Keys, q);
    assert recent != {} by { assert |recent| >= need >= 1; }
    forall j | j in recent ensures BacksIn(s', j, ctx.term, x) {
      assert l.lastContact[j] >= t;
      BacksKept(s, i, s', j, ctx.term, l.lastContact[j] + LEASE_LENGTH);
      BacksLess(s', j, ctx.term, l.lastContact[j] + LEASE_LENGTH, x);
    }
    assert BacksIn(s', i, ctx.term, x) by {
      NoLaterVote(s', i, ctx.term);
      var j :| j in recent;
      assert BacksIn(s', j, ctx.term, x);
    }
    assert s'.members.Keys == s.members.Keys;
    assert AllBack(s', q, ctx.term, x);
  }

  lemma RenewalGrows(ctx: ContextView, contacts: map<Id, Time>)
    requires ctx.peerIds != {} && ctx.lease.Some?
    ensures var r := RenewedLease(ctx, contacts); r.Some? && r.value >= ctx.lease.value
  {}

  // A leader's step that leaves its lease backed by a quorum.
  lemma LeaderMoves(s: State, i: Id, step: LeaderStep, s': State)
    requires LeaseInv(s) && i in s.members && s.members[i].role.Leading? && s' == AcceptReplyNext(s, i, step)
    requires step.ctx.term == s.members[i].ctx.term && AllWellPosted(step, s.now)
    requires s.members[i].ctx.lease.Some? && step.ctx.lease.Some?
    requires step.ctx.lease.value >= s.members[i].ctx.lease.value
    requires ContactsOK(s', step.l, step.ctx.term)
    requires step.ctx.lease == s.members[i].ctx.lease
      || StoredOK(s', Stored(i, step.ctx.term, step.ctx.lease.value))
    ensures LeaseInv(s')
  {
    assert RoleLeaseOK(s, i, s.members[i]);
    LeaseFrame(s, i, s');
  }

  // A response of this term that the leader does not disregard.
  lemma RenewalLease(s: State, i: Id, response: AcceptResponse, step: LeaderStep, s': State)
    requires ElectionInv(s) && LeaseInv(s) && i in s.members && AckOK(s, response) && Confirms(response)
    requires s.members[i].role.Leading? && response.term == s.members[i].ctx.term == step.ctx.term
    requires s.members[i].ctx.peerIds != {}
    requires step.l.lastContact == NoteContact(s.members[i].role.l.lastContact, response)
    requires step.l.lastContact.Keys == s.members[i].ctx.peerIds
    requires step.ctx.lease == RenewedLease(s.members[i].ctx, step.l.lastContact)
    requires AllWellPosted(step, s.now) && s' == AcceptReplyNext(s, i, step) && ElectionInv(s')
    ensures LeaseInv(s')
  {
    assert step.ctx.lease == s.members[i].ctx.lease
      || (step.ctx.lease.Some? && StoredOK(s', Stored(i, step.ctx.term, step.ctx.lease.value))) by {
      RenewedStored(s, i, response, step, s');
    }
    assert RoleLeaseOK(s, i, s.members[i]);
    RenewalGrows(s.members[i].ctx, step.l.lastContact);
    RenewedContacts(s, i, response, step, s');
    LeaderMoves(s, i, step, s');
  }

  lemma RenewedContacts(s: State, i: Id, response: AcceptResponse, step: LeaderStep, s': State)
    requires LeaseInv(s) && i in s.members && AckOK(s, response) && Confirms(response)
    requires s.members[i].role.Leading? && response.term == s.members[i].ctx.term == step.ctx.term
    requires step.l.lastContact == NoteContact(s.members[i].role.l.lastContact, response)
    requires LeaseExtends(s, i, s')
    ensures ContactsOK(s', step.l, step.ctx.term)
  {
    assert RoleLeaseOK(s, i, s.members[i]);
    NotedContactsOK(s, i, s.members[i].role.l, response, step.l.lastContact);
    ContactsKept(s, i, s', s.members[i].role.l.(lastContact := step.l.lastContact), step.ctx.term);
  }

  // A renewed expiry has a quorum behind it.
  lemma RenewedStored(s: State, i: Id, response: AcceptResponse, step: LeaderStep, s': State)
    requires ElectionInv(s) && LeaseInv(s) && i in s.members && AckOK(s, response) && Confirms(response)
    requires s.members[i].role.Leading? && response.term == s.members[i].ctx.term == step.ctx.term
    requires s.members[i].ctx.peerIds != {} && s' == AcceptReplyNext(s, i, step) && ElectionInv(s')
    requires step.l.lastContact == NoteContact(s.members[i].role.l.lastContact, response)
    requires step.l.lastContact.Keys == s.members[i].ctx.peerIds
    requires step.ctx.lease == RenewedLease(s.members[i].ctx, step.l.lastContact)
    ensures step.ctx.lease == s.members[i].ctx.lease
      || (step.ctx.lease.Some? && StoredOK(s', Stored(i, step.ctx.term, step.ctx.lease.value)))
  {
    assert MemberOK(s.members[i], i, s.members.Keys, s.ballots, s.wins, s.now);
    assert RoleLeaseOK(s, i, s.members[i]);
    NotedContactsOK(s, i, s.members[i].role.l, response, step.l.lastContact);
    if step.ctx.lease != s.members[i].ctx.lease {
      RenewalBacked(s, i, s.members[i].role.l.(lastContact := step.l.lastContact), s');
    }
  }

  lemma DisregardedLease(s: State, i: Id, step: LeaderStep, s': State)
    requires LeaseInv(s) && i in s.members && s.members[i].role.Leading? && s' == AcceptReplyNext(s, i, step)
    requires step == LeaderStep(s.members[i].ctx, s.members[i].role.l, map[], map[])
    ensures LeaseInv(s')
  {
    assert RoleLeaseOK(s, i, s.members[i]);
    ContactsKept(s, i, s', step.l, step.ctx.term);
    LeaderMoves(s, i, step, s');
  }

  lemma AcceptReplyLease(s: State, i: Id, ack: Ack, step: LeaderStep)
    requires ElectionInv(s) && LeaseInv(s) && i in s.members && ack in s.acks
    requires s.members[i].role.Leading? && ack.response.term <= s.members[i].ctx.term
    requires AckFacts(s.members[i], ack.response, step, s.now) && ElectionInv(AcceptReplyNext(s, i, step))
    ensures LeaseInv(AcceptReplyNext(s, i, step))
  {
    var s' := AcceptReplyNext(s, i, step);
    assert MemberOK(s.members[i], i, s.members.Keys, s.ballots, s.wins, s.now);
    assert RoleLeaseOK(s, i, s.members[i]) && AckOK(s, ack.response);
    if Disregards(s.members[i].ctx, ack.response) {
      DisregardedLease(s, i, step, s');
    } else {
      RenewalLease(s, i, ack.response, step, s');
    }
  }

  // The leader's timers and client writes do not touch leases.
  lemma LeaderLease(s: State, i: Id, ctx: ContextView, l: LeaderView, s': State)
    requires LeaseInv(s) && i in s.members && s.members[i].role.Leading?
    requires ctx.lease == s.members[i].ctx.lease && ctx.term == s.members[i].ctx.term
    requires l.lastContact == s.members[i].role.l.lastContact
    requires s'.members == s.members[i := Member(ctx, Leading(l))]
    requires s'.ballots == s.ballots && s'.acks == s.acks && s'.leases == s.leases && s'.now == s.now
    requires forall sent :: sent in s'.sents - s.sents ==> SendTime(sent.request.tSend, s.now)
    ensures LeaseInv(s')
  {
    assert RoleLeaseOK(s, i, s.members[i]);
    ContactsKept(s, i, s', l, ctx.term);
    LeaseFrame(s, i, s');
  }

  /** Every event keeps the invariant. */
  lemma LeaseStep(s: State, e: Event)
    requires ElectionInv(s) && LeaseInv(s) && Enabled(s, e)
    ensures LeaseInv(Next(s, e))
  {
    ElectionStep(s, e);
    if e.PreVoteReply? || e.VoteReply? { CampaignLeaseStep(s, e); }
    else if e.VoteAsked? || e.AcceptAsked? { RequestLeaseStep(s, e); }
    else if e.Tick? { TickLease(s, e.t); }
    else { OtherLeaseStep(s, e); }
  }

  lemma CampaignLeaseStep(s: State, e: Event)
    requires ElectionInv(s) && LeaseInv(s) && Enabled(s, e) && ElectionInv(Next(s, e))
    requires e.PreVoteReply? || e.VoteReply?
    ensures LeaseInv(Next(s, e))
  {
    var m := s.members[e.i];
    if e.PreVoteReply? {
      assert MemberOK(m, e.i, s.members.Keys, s.ballots, s.wins, s.now);
      PreVoteReplyFacts(m, e.preVote, e.reading, s.now);
      PreVoteLease(s, e.i, OnPreVoteResponse(m.ctx, m.role.p, e.preVote, e.reading));
    } else {
      VoteReplyFacts(m, e.answer, e.reading, e.tSends, s.now);
      VoteReplyLease(s, e.i, e.answer, OnVoteResponse(m.ctx, m.role.c, e.answer.response, e.reading, e.tSends));
    }
  }

  lemma RequestLeaseStep(s: State, e: Event)
    requires ElectionInv(s) && LeaseInv(s) && Enabled(s, e) && ElectionInv(Next(s, e))
    requires e.VoteAsked? || e.AcceptAsked?
    ensures LeaseInv(Next(s, e))
  {
    var m := s.members[e.i];
    if e.VoteAsked? {
      VoteRequestFacts(m, e.ask.request, e.roleCheck, e.check, e.extend, s.now);
      VoteLease(s, e.i, e.ask, ProcessVoteRequest(m, e.ask.request, e.roleCheck, e.check, e.extend));
    } else {
      assert MemberOK(m, e.i, s.members.Keys, s.ballots, s.wins, s.now);
      AcceptRequestFacts(m, e.sent.request, e.roleCheck, e.check, e.extend, s.now);
      AcceptLease(s, e.i, e.sent, ProcessAcceptRequest(m, e.sent.request, e.roleCheck, e.check, e.extend));
    }
  }

  lemma OtherLeaseStep(s: State, e: Event)
    requires ElectionInv(s) && LeaseInv(s) && Enabled(s, e) && ElectionInv(Next(s, e))
    requires Quiet(e) || Routine(e) || e.AcceptReply? || e.ClientWrite? || e.Answered?
    ensures LeaseInv(Next(s, e))
  {
    if Quiet(e) {
      QuietMemberFacts(s.members[e.i], e, s.now);
      QuietLease(s, e.i, QuietMember(s.members[e.i], e, s.now));
    } else if Routine(e) {
      var step := RoutineStep(s.members[e.i], e, s.now);
      RoutineStepFacts(s.members[e.i], e, s.now);
      LeaderLease(s, e.i, step.ctx, step.l, Post(s, e.i, step));
    } else if e.AcceptReply? {
      AcceptReplyFacts(s.members[e.i], e.ack.response, e.tSend, s.now);
      AcceptReplyLease(s, e.i, e.ack,
        OnAcceptResponse(s.members[e.i].ctx, s.members[e.i].role.l, e.ack.response, e.tSend));
    } else if e.ClientWrite? {
      var step := OnClientWrite(s.members[e.i].ctx, s.members[e.i].role.l, e.command, e.value, e.reading);
      LeaderLease(s, e.i, step.ctx, step.l, Next(s, e));
    } else {
      AnsweredLease(s, e.write);
    }
  }

  lemma AnsweredLease(s: State, write: PendingWrite)
    requires LeaseInv(s)
    ensures LeaseInv(AnsweredNext(s, write))
  {
    var s' := AnsweredNext(s, write);
    forall j, term, x | BacksIn(s, j, term, x) ensures BacksIn(s', j, term, x) {}
    forall i | i in s.members ensures RoleLeaseOK(s', i, s.members[i]) { assert RoleLeaseOK(s, i, s.members[i]); }
    forall b | b in s.ballots ensures BallotLeaseOK(s', b) { assert BallotLeaseOK(s, b); }
    forall ack | ack in s.acks ensures AckOK(s', ack.response) { assert AckOK(s, ack.response); }
    forall st | st in s.leases ensures StoredOK(s', st) {
      var q :| IsQuorum(s.members.Keys, q) && AllBack(s, q, st.term, st.expiry);
      assert AllBack(s', q, st.term, st.expiry);
    }
  }
}
