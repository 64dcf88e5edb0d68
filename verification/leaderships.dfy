/** What a leadership gains over a run: contacts, match slots, lease and committed slot never go back, a quorum of
    contacts renews the lease, and a quorum of match slots commits. */
module Leaderships {
  import opened Types
  import opened Quorums
  import opened Views
  import opened LeaderRole
  import opened CandidateRole
  import opened Group
  import opened Facts
  import opened Outcomes
  import opened ElectionSafety
  import opened CommitCounting
  import opened Takeovers
  import opened Runs
  import LeaseSafety

  // ----- Nothing goes back -----

  // A follower's contact and match slot, as the leader knows them, are no older and no lower.
  ghost predicate FollowerGrows(l: LeaderView, l': LeaderView, j: Id) {
    && (j in l.lastContact ==> j in l'.lastContact && l.lastContact[j] <= l'.lastContact[j])
    && (j in l.score ==> j in l'.score && l.score[j].pos.matchSlot <= l'.score[j].pos.matchSlot)
  }

  ghost predicate LeaderGrows(m: Member, m': Member)
    requires m.role.Leading? && m'.role.Leading?
  {
    && (m.ctx.lease.Some? ==> m'.ctx.lease.Some? && m.ctx.lease.value <= m'.ctx.lease.value)
    && m.ctx.committedSlot <= m'.ctx.committedSlot && m.ctx.lastLogSlot <= m'.ctx.lastLogSlot
    && forall j :: FollowerGrows(m.role.l, m'.role.l, j)
  }

  lemma ReplyGrows(m: Member, response: AcceptResponse, tSend: Time, now: Time)
    requires m.role.Leading? && CanHandle(m.ctx, m.role.l, response) && SendTime(tSend, now)
    requires response.term <= m.ctx.term
    ensures var r := OnAcceptResponse(m.ctx, m.role.l, response, tSend);
      LeaderGrows(m, Member(r.ctx, Leading(r.l)))
  {
    var r := OnAcceptResponse(m.ctx, m.role.l, response, tSend);
    AcceptReplyFacts(m, response, tSend, now);
    AcceptReplyMatches(m, response, tSend);
    NewestContactKept(m.role.l.lastContact, response);
    if !Disregards(m.ctx, response) && m.ctx.lease.Some? { LeaseSafety.RenewalGrows(m.ctx, r.l.lastContact); }
    forall j ensures FollowerGrows(m.role.l, r.l, j) {
      if j in m.role.l.score { assert j in r.l.score; }
    }
  }

  lemma TimerGrowsBoard(m: Member, r: LeaderStep, now: Time)
    requires RoutineFacts(m, r, now)
    ensures LeaderGrows(m, Member(r.ctx, Leading(r.l)))
  {
    forall j ensures FollowerGrows(m.role.l, r.l, j) {
      if j in m.role.l.score { assert ProgressMove(m.ctx, m.role.l.score[j], r.l.score[j]); }
    }
  }

  // While a leader leads on, whatever happens, nothing that it has gained is lost.
  lemma LeadingGrows(s: State, e: Event, i: Id, s': State)
    requires Enabled(s, e) && s' == Next(s, e) && i in s.members && i in s'.members
    requires LeadsOn(s.members[i], s'.members[i])
    ensures LeaderGrows(s.members[i], s'.members[i])
  {
    if e.Tick? || e.Answered? || e.i != i {
      OthersStay(s, e, i, s');
    } else if e.AcceptReply? {
      ReplyGrows(s.members[i], e.ack.response, e.tSend, s.now);
    } else if Routine(e) {
      RoutineStepFacts(s.members[i], e, s.now);
      TimerGrowsBoard(s.members[i], RoutineStep(s.members[i], e, s.now), s.now);
    } else {
      OtherLeadingGrows(s, e, s');
    }
  }

  lemma OtherLeadingGrows(s: State, e: Event, s': State)
    requires Enabled(s, e) && s' == Next(s, e) && !e.Tick? && !e.Answered? && !e.AcceptReply? && !Routine(e)
    requires e.i in s.members && e.i in s'.members && LeadsOn(s.members[e.i], s'.members[e.i])
    ensures LeaderGrows(s.members[e.i], s'.members[e.i])
  {
    var m := s.members[e.i];
    if Quiet(e) {
      QuietMemberFacts(m, e, s.now);
    } else if e.VoteAsked? || e.AcceptAsked? {
      RequestLeavesLeader(m, e);
    }
  }

  lemma {:induction false} GrowsThroughout(states: seq<State>, a: nat, b: nat, i: Id)
    requires a <= b < |states| && Leadership(states, a, b, i)
    requires forall k :: a <= k < b ==> LeaderGrows(states[k].members[i], states[k + 1].members[i])
    ensures LeaderGrows(states[a].members[i], states[b].members[i])
    decreases b
  {
    if a < b {
      GrowsThroughout(states, a, b - 1, i);
      GrowsOn(states[a].members[i], states[b - 1].members[i], states[b].members[i]);
    }
  }

  lemma GrowsOn(m: Member, m': Member, m'': Member)
    requires m.role.Leading? && m'.role.Leading? && m''.role.Leading? && LeaderGrows(m, m') && LeaderGrows(m', m'')
    ensures LeaderGrows(m, m'')
  {
    forall j ensures FollowerGrows(m.role.l, m''.role.l, j) {
      assert FollowerGrows(m.role.l, m'.role.l, j) && FollowerGrows(m'.role.l, m''.role.l, j);
    }
  }

  lemma GrowsOnce(states: seq<State>, events: seq<Event>, k: nat, i: Id)
    requires IsExecution(states, events) && k < |events| && i in states[k].members && i in states[k + 1].members
    requires LeadsOn(states[k].members[i], states[k + 1].members[i])
    ensures LeaderGrows(states[k].members[i], states[k + 1].members[i])
  {
    assert IsStep(states[k], events[k], states[k + 1]);
    LeadingGrows(states[k], events[k], i, states[k + 1]);
  }

  /** In every run, throughout a leadership the leader's lease, its committed slot, its last slot, and each follower's
      newest contact and match slot only ever grow. */
  lemma NothingGoesBack(states: seq<State>, events: seq<Event>, a: nat, b: nat, i: Id)
    requires IsExecution(states, events) && a <= b <= |events| && Leadership(states, a, b, i)
    ensures LeaderGrows(states[a].members[i], states[b].members[i])
  {
    forall k | a <= k < b ensures LeaderGrows(states[k].members[i], states[k + 1].members[i]) {
      GrowsOnce(states, events, k, i);
    }
    GrowsThroughout(states, a, b, i);
  }

  // ----- What a response leaves -----

  // Event `k` lets leader `i` handle the response, which confirms a request of its term.
  ghost predicate Handles(states: seq<State>, events: seq<Event>, k: nat, i: Id, response: AcceptResponse)
    requires IsExecution(states, events)
  {
    && k < |events| && events[k].AcceptReply? && events[k].i == i && events[k].ack.response == response
    && i in states[k].members && response.term == states[k].members[i].ctx.term && Confirms(response)
  }

  /** What the leader makes of a response: it has heard from the follower by then, and it counts a success for the slot.
      */
  lemma ReplyIsNoted(m: Member, response: AcceptResponse, tSend: Time, now: Time)
    requires m.role.Leading? && CanHandle(m.ctx, m.role.l, response) && SendTime(tSend, now)
    requires response.term == m.ctx.term && Confirms(response)
    ensures var l, j := OnAcceptResponse(m.ctx, m.role.l, response, tSend).l, response.memberId;
      && j in l.lastContact && l.lastContact[j] >= response.echoedTSend
      && (response.success ==> j in l.score && l.score[j].pos.matchSlot >= response.lastWrittenSlot)
  {
    AcceptReplyFacts(m, response, tSend, now);
    NewestContactKept(m.role.l.lastContact, response);
    if response.success { SuccessIsNoted(m, response, tSend); }
  }

  lemma SuccessIsNoted(m: Member, response: AcceptResponse, tSend: Time)
    requires m.role.Leading? && CanHandle(m.ctx, m.role.l, response) && response.success
    requires response.term == m.ctx.term
    ensures var r, j := OnAcceptResponse(m.ctx, m.role.l, response, tSend), response.memberId;
      j in r.l.score && r.l.score[j].pos.matchSlot == Max(m.role.l.score[j].pos.matchSlot, response.lastWrittenSlot)
  {}

  lemma NotedOnce(states: seq<State>, events: seq<Event>, k: nat, i: Id, response: AcceptResponse)
    requires IsExecution(states, events) && Handles(states, events, k, i, response)
    requires i in states[k + 1].members && states[k + 1].members[i].role.Leading?
    ensures var l, j := states[k + 1].members[i].role.l, response.memberId;
      && j in l.lastContact && l.lastContact[j] >= response.echoedTSend
      && (response.success ==> j in l.score && l.score[j].pos.matchSlot >= response.lastWrittenSlot)
  {
    assert IsStep(states[k], events[k], states[k + 1]);
    ReplyIsNoted(states[k].members[i], response, events[k].tSend, states[k].now);
  }

  /** In every run, a response that a leader has handled counts for the rest of its leadership: the follower has been
      heard from as of the time that it echoes, and a success counts for its slot. */
  lemma HandledCounts(states: seq<State>, events: seq<Event>, k: nat, b: nat, i: Id, response: AcceptResponse)
    requires IsExecution(states, events) && Handles(states, events, k, i, response)
    requires k < b <= |events| && Leadership(states, k + 1, b, i)
    ensures var l, j := states[b].members[i].role.l, response.memberId;
      && j in l.lastContact && l.lastContact[j] >= response.echoedTSend
      && (response.success ==> j in l.score && l.score[j].pos.matchSlot >= response.lastWrittenSlot)
  {
    NotedOnce(states, events, k, i, response);
    NothingGoesBack(states, events, k + 1, b, i);
    assert FollowerGrows(states[k + 1].members[i].role.l, states[b].members[i].role.l, response.memberId);
  }

  // ----- Renewal -----

  // The lease lasts a full length from whatever time enough followers have been heard from since.
  ghost predicate LeaseFollows(ctx: ContextView, l: LeaderView) {
    ctx.peerIds != {} ==>
      && ctx.lease.Some?
      && forall t: Time :: |AtLeast(l.lastContact, t)| >= QuorumOf(ctx) - 1 ==> ctx.lease.value >= t + LEASE_LENGTH
  }

  ghost predicate MemberRenews(m: Member) { m.role.Leading? ==> LeaseFollows(m.ctx, m.role.l) }

  ghost predicate RenewInv(s: State) { forall i :: i in s.members ==> MemberRenews(s.members[i]) }

  lemma RenewalFollows(ctx: ContextView, contacts: map<Id, Time>, l: LeaderView)
    requires ctx.peerIds != {} && ctx.lease.Some? && l.lastContact == contacts
    ensures LeaseFollows(ctx.(lease := RenewedLease(ctx, contacts)), l)
  {
    forall t: Time | |AtLeast(contacts, t)| >= QuorumOf(ctx) - 1
      ensures RenewedLease(ctx, contacts).Some? && RenewedLease(ctx, contacts).value >= t + LEASE_LENGTH
    {
      SubsetSize(AtLeast(contacts, t), contacts.Keys);
    }
  }

  // A first lease counts from the dispatch of the votes, when nobody had been heard from.
  lemma FirstLeaseFollows(ctx: ContextView, l: LeaderView)
    requires ctx.lease.Some? && ctx.lease.value >= UNIX_EPOCH + LEASE_LENGTH
    requires forall j :: j in l.lastContact ==> l.lastContact[j] == UNIX_EPOCH
    ensures LeaseFollows(ctx, l)
  {
    forall t: Time | |AtLeast(l.lastContact, t)| >= QuorumOf(ctx) - 1 && ctx.peerIds != {}
      ensures ctx.lease.value >= t + LEASE_LENGTH
    {
      assert |ctx.peerIds| >= 1;
      var j :| j in AtLeast(l.lastContact, t);
    }
  }

  lemma ReplyRenews(m: Member, response: AcceptResponse, tSend: Time, now: Time)
    requires m.role.Leading? && CanHandle(m.ctx, m.role.l, response) && SendTime(tSend, now)
    requires LeaseFollows(m.ctx, m.role.l)
    ensures var r := OnAcceptResponse(m.ctx, m.role.l, response, tSend); LeaseFollows(r.ctx, r.l)
  {
    var r := OnAcceptResponse(m.ctx, m.role.l, response, tSend);
    AcceptReplyFacts(m, response, tSend, now);
    if !Disregards(m.ctx, response) {
      RenewalFollows(m.ctx, r.l.lastContact, r.l);
      SameFollows(m.ctx.(lease := RenewedLease(m.ctx, r.l.lastContact)), r.ctx, r.l, r.l);
    }
  }

  lemma SameFollows(ctx: ContextView, next: ContextView, l: LeaderView, l': LeaderView)
    requires LeaseFollows(ctx, l) && next.peerIds == ctx.peerIds && next.lease == ctx.lease
    requires l'.lastContact == l.lastContact
    ensures LeaseFollows(next, l')
  {}

  lemma LeaderRenews(s: State, e: Event, i: Id, s': State)
    requires ElectionInv(s) && LeaseSafety.LeaseInv(s') && RenewInv(s) && Enabled(s, e) && s' == Next(s, e)
    requires i in s.members && i in s'.members && s'.members[i].role.Leading?
    ensures LeaseFollows(s'.members[i].ctx, s'.members[i].role.l)
  {
    assert MemberRenews(s.members[i]);
    if e.Tick? || e.Answered? || e.i != i {
      OthersStay(s, e, i, s');
    } else if e.AcceptReply? {
      ReplyRenews(s.members[i], e.ack.response, e.tSend, s.now);
    } else if e.VoteReply? {
      WinRenews(s, e, s');
    } else {
      OtherRenews(s, e, s');
    }
  }

  lemma WinRenews(s: State, e: Event, s': State)
    requires LeaseSafety.LeaseInv(s') && Enabled(s, e) && s' == Next(s, e) && e.VoteReply?
    requires e.i in s.members && e.i in s'.members && s'.members[e.i].role.Leading?
    ensures LeaseFollows(s'.members[e.i].ctx, s'.members[e.i].role.l)
  {
    var m := s.members[e.i];
    VoteReplyFacts(m, e.answer, e.reading, e.tSends, s.now);
    assert LeaseSafety.RoleLeaseOK(s', e.i, s'.members[e.i]);
    WonContacts(s, e.i, OnVoteResponse(m.ctx, m.role.c, e.answer.response, e.reading, e.tSends), s');
    FirstLeaseFollows(s'.members[e.i].ctx, s'.members[e.i].role.l);
  }

  lemma WonContacts(s: State, i: Id, r: VoteResult, s': State)
    requires i in s.members && s' == VoteReplyNext(s, i, r) && i in s'.members && s'.members[i].role.Leading?
    requires r.Elected? ==> forall j :: j in r.step.l.lastContact ==> r.step.l.lastContact[j] == UNIX_EPOCH
    ensures forall j :: j in s'.members[i].role.l.lastContact ==> s'.members[i].role.l.lastContact[j] == UNIX_EPOCH
  {}

  lemma OtherRenews(s: State, e: Event, s': State)
    requires RenewInv(s) && Enabled(s, e) && s' == Next(s, e)
    requires !e.Tick? && !e.Answered? && !e.AcceptReply? && !e.VoteReply?
    requires e.i in s.members && e.i in s'.members && s'.members[e.i].role.Leading?
    ensures LeaseFollows(s'.members[e.i].ctx, s'.members[e.i].role.l)
  {
    if !LeadsOn(s.members[e.i], s'.members[e.i]) { OnlyWinsLead(s, e, e.i, s'); }
    LeadingKeepsLease(s, e, s');
  }

  lemma LeadingKeepsLease(s: State, e: Event, s': State)
    requires RenewInv(s) && Enabled(s, e) && s' == Next(s, e)
    requires !e.Tick? && !e.Answered? && !e.AcceptReply? && !e.VoteReply?
    requires e.i in s.members && e.i in s'.members && LeadsOn(s.members[e.i], s'.members[e.i])
    ensures LeaseFollows(s'.members[e.i].ctx, s'.members[e.i].role.l)
  {
    var m, m' := s.members[e.i], s'.members[e.i];
    assert MemberRenews(m);
    if Quiet(e) {
      QuietMemberFacts(m, e, s.now);
    } else if Routine(e) {
      RoutineStepFacts(m, e, s.now);
    } else if e.VoteAsked? || e.AcceptAsked? {
      RequestLeavesLeader(m, e);
    }
    SameFollows(m.ctx, m'.ctx, m.role.l, m'.role.l);
  }

  lemma RenewOnce(states: seq<State>, events: seq<Event>, n: nat)
    requires IsExecution(states, events) && n < |events| && RenewInv(states[n])
    ensures RenewInv(states[n + 1])
  {
    SafetyAlways(states, events, n);
    SafetyAlways(states, events, n + 1);
    assert IsStep(states[n], events[n], states[n + 1]);
    StepGrows(states[n], events[n]);
    RenewStep(states[n], events[n], states[n + 1]);
  }

  // Every event, without assumption, keeps leases as long as contacts allow.
  lemma RenewStep(s: State, e: Event, s': State)
    requires ElectionInv(s) && LeaseSafety.LeaseInv(s') && RenewInv(s) && Enabled(s, e) && s' == Next(s, e)
    requires s'.members.Keys == s.members.Keys
    ensures RenewInv(s')
  {
    forall i | i in s'.members ensures MemberRenews(s'.members[i]) {
      if s'.members[i].role.Leading? { LeaderRenews(s, e, i, s'); }
    }
  }

  lemma {:induction false} RenewAlways(states: seq<State>, events: seq<Event>, n: nat)
    requires IsExecution(states, events) && n <= |events|
    ensures RenewInv(states[n])
    decreases n
  {
    if n > 0 {
      RenewAlways(states, events, n - 1);
      RenewOnce(states, events, n - 1);
    }
  }

  // Leader `i` has handled, in the events from `a` to before `b`, a response of `j` to a request sent at `t` or later.
  ghost predicate HeardSince(states: seq<State>, events: seq<Event>, a: nat, b: nat, i: Id, j: Id, t: Time)
    requires IsExecution(states, events)
  {
    exists k: nat, response ::
      a <= k < b && Handles(states, events, k, i, response) && response.memberId == j && response.echoedTSend >= t
  }

  lemma HeardContact(states: seq<State>, events: seq<Event>, a: nat, b: nat, i: Id, j: Id, t: Time)
    requires IsExecution(states, events) && a <= b <= |events| && Leadership(states, a, b, i)
    requires HeardSince(states, events, a, b, i, j, t)
    ensures j in AtLeast(states[b].members[i].role.l.lastContact, t)
  {
    var k: nat, response :| a <= k < b && Handles(states, events, k, i, response) && response.memberId == j
      && response.echoedTSend >= t;
    HandledCounts(states, events, k, b, i, response);
  }

  /** A leader that keeps hearing from a majority keeps its lease: in every run, as soon as it has handled, from
      followers that make a majority with it, responses to requests of its term sent at `t` or later, its lease lasts a
      full length from `t` for the rest of the leadership. */
  lemma MajorityRenewsLease(states: seq<State>, events: seq<Event>, a: nat, b: nat, i: Id, q: set<Id>, t: Time)
    requires IsExecution(states, events) && a <= b <= |events| && Leadership(states, a, b, i)
    requires q <= states[b].members.Keys - {i} && q != {} && IsQuorum(states[b].members.Keys, q + {i})
    requires forall j :: j in q ==> HeardSince(states, events, a, b, i, j, t)
    ensures states[b].members[i].ctx.lease.Some? && states[b].members[i].ctx.lease.value >= t + LEASE_LENGTH
  {
    var m := states[b].members[i];
    RenewAlways(states, events, b);
    assert MemberRenews(m);
    SafetyAlways(states, events, b);
    assert MemberOK(m, i, states[b].members.Keys, states[b].ballots, states[b].wins, states[b].now);
    forall j | j in q ensures j in AtLeast(m.role.l.lastContact, t) { HeardContact(states, events, a, b, i, j, t); }
    SubsetSize(q, AtLeast(m.role.l.lastContact, t));
    MajorityNeeds(states[b].members.Keys, i, q);
  }

  lemma MajorityNeeds(group: set<Id>, i: Id, q: set<Id>)
    requires i in group && q <= group - {i}
    ensures IsQuorum(group, q + {i}) <==> |q| >= QuorumSize(|group - {i}|) - 1
  {
    assert |q + {i}| == |q| + 1 && |group - {i}| == |group| - 1;
  }

  // ----- Commits -----

  // The followers whose match slot reaches the slot.
  function Reaching(l: LeaderView, slot: nat): set<Id> { set j | j in l.score && l.score[j].pos.matchSlot >= slot }

  /** Which slots a response commits: exactly those that it is news about, that lie within the log, and that the leader
      and the followers known to have them by now make a majority for. */
  lemma ReplyCommitsIff(m: Member, response: AcceptResponse, tSend: Time, group: set<Id>, slot: nat)
    requires m.role.Leading? && CanHandle(m.ctx, m.role.l, response) && response.term <= m.ctx.term
    requires m.ctx.memberId in group && m.ctx.peerIds == group - {m.ctx.memberId}
    requires m.role.l.score.Keys == m.ctx.peerIds
    requires slot > m.ctx.committedSlot
    ensures var r := OnAcceptResponse(m.ctx, m.role.l, response, tSend);
      slot <= r.ctx.committedSlot <==>
        && response.success && response.term == m.ctx.term
        && response.lastWrittenSlot > m.role.l.score[response.memberId].pos.matchSlot
        && slot <= m.ctx.lastLogSlot && IsQuorum(group, Reaching(r.l, slot) + {m.ctx.memberId})
  {
    var r := OnAcceptResponse(m.ctx, m.role.l, response, tSend);
    var matches := Matches(r.l.score);
    AcceptReplyMatches(m, response, tSend);
    assert Reaching(r.l, slot) == AtLeast(matches, slot);
    MajorityNeeds(group, m.ctx.memberId, AtLeast(matches, slot));
    if !Disregards(m.ctx, response) && response.success
      && response.lastWrittenSlot > m.role.l.score[response.memberId].pos.matchSlot
    {
      NewsCommits(m, response, tSend);
      var top := QuorumSlot(matches, QuorumOf(m.ctx) - 1, m.ctx.lastLogSlot);
      if slot <= top { SubsetSize(AtLeast(matches, top), AtLeast(matches, slot)); }
    }
  }

  lemma NewsCommits(m: Member, response: AcceptResponse, tSend: Time)
    requires m.role.Leading? && CanHandle(m.ctx, m.role.l, response) && !Disregards(m.ctx, response) && response.success
    requires response.lastWrittenSlot > m.role.l.score[response.memberId].pos.matchSlot
    ensures var r := OnAcceptResponse(m.ctx, m.role.l, response, tSend);
      r.ctx.committedSlot
        == Max(m.ctx.committedSlot, QuorumSlot(Matches(r.l.score), QuorumOf(m.ctx) - 1, m.ctx.lastLogSlot))
  {}

  /** In every run, a slot within the leader's log is committed, from then on, as soon as a response that is news to the
      leader leaves it with followers known to have the slot that make a majority with it. */
  lemma MajorityCommits(states: seq<State>, events: seq<Event>, k: nat, b: nat, i: Id, response: AcceptResponse,
                        slot: nat)
    requires IsExecution(states, events) && Handles(states, events, k, i, response) && response.success
    requires k < b <= |events| && Leadership(states, k, b, i) && response.memberId in states[k].members[i].role.l.score
    requires response.lastWrittenSlot > states[k].members[i].role.l.score[response.memberId].pos.matchSlot
    requires slot <= states[k].members[i].ctx.lastLogSlot
    requires IsQuorum(states[k].members.Keys, Reaching(states[k + 1].members[i].role.l, slot) + {i})
    ensures slot <= states[b].members[i].ctx.committedSlot
  {
    NothingGoesBack(states, events, k + 1, b, i);
    CommittedOnce(states, events, k, i, response, slot);
  }

  lemma CommittedOnce(states: seq<State>, events: seq<Event>, k: nat, i: Id, response: AcceptResponse, slot: nat)
    requires IsExecution(states, events) && Handles(states, events, k, i, response) && response.success
    requires i in states[k + 1].members && states[k].members[i].role.Leading? && states[k + 1].members[i].role.Leading?
    requires response.memberId in states[k].members[i].role.l.score && slot <= states[k].members[i].ctx.lastLogSlot
    requires response.lastWrittenSlot > states[k].members[i].role.l.score[response.memberId].pos.matchSlot
    requires IsQuorum(states[k].members.Keys, Reaching(states[k + 1].members[i].role.l, slot) + {i})
    ensures slot <= states[k + 1].members[i].ctx.committedSlot
  {
    var m := states[k].members[i];
    assert IsStep(states[k], events[k], states[k + 1]);
    SafetyAlways(states, events, k);
    assert MemberOK(m, i, states[k].members.Keys, states[k].ballots, states[k].wins, states[k].now);
    CommittedByReply(m, states[k + 1].members[i], response, events[k].tSend, states[k].now, states[k].members.Keys,
                     slot);
  }

  lemma CommittedByReply(m: Member, m': Member, response: AcceptResponse, tSend: Time, now: Time, group: set<Id>,
                         slot: nat)
    requires m.role.Leading? && CanHandle(m.ctx, m.role.l, response) && SendTime(tSend, now) && response.success
    requires response.term == m.ctx.term && slot <= m.ctx.lastLogSlot
    requires m.ctx.memberId in group && m.ctx.peerIds == group - {m.ctx.memberId}
    requires m.role.l.score.Keys == m.ctx.peerIds
    requires m'.role.Leading? && m'.ctx == OnAcceptResponse(m.ctx, m.role.l, response, tSend).ctx
    requires m'.role.l == OnAcceptResponse(m.ctx, m.role.l, response, tSend).l
    requires response.lastWrittenSlot > m.role.l.score[response.memberId].pos.matchSlot
    requires IsQuorum(group, Reaching(m'.role.l, slot) + {m.ctx.memberId})
    ensures slot <= m'.ctx.committedSlot
  {
    ReplyGrows(m, response, tSend, now);
    if slot > m.ctx.committedSlot { ReplyCommitsIff(m, response, tSend, group, slot); }
  }
}
