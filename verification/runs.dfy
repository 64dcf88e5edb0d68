/** The properties of whole runs: what holds in every state that a group can reach. */
module Runs {
  import opened Types
  import opened TrueTime
  import opened Wal
  import opened Quorums
  import opened Views
  import opened LeaderRole
  import opened CandidateRole
  import opened PreCandidateRole
  import opened StateMachine
  import opened Group
  import opened Facts
  import opened ElectionSafety
  import opened LeaseSafety
  import opened LogMatching
  import opened CommitCounting
  import opened Durability
  import opened InFlightQueues
  import opened ProbeAnchors
  import opened ClientWrites
  import opened Takeovers
  import opened ResponseHandling

  // ----- History only grows -----

  ghost predicate HistoryExtends(s: State, s': State) {
    && s.wins <= s'.wins && s.leases <= s'.leases && s.commits <= s'.commits && s.ballots <= s'.ballots
    && s.answers <= s'.answers && s'.members.Keys == s.members.Keys
  }

  lemma VoteReplyGrows(s: State, i: Id, r: VoteResult)
    requires i in s.members
    ensures HistoryExtends(s, VoteReplyNext(s, i, r))
  {
    assert s.members.Keys + {i} == s.members.Keys;
  }

  lemma AcceptReplyGrows(s: State, i: Id, step: LeaderStep)
    requires i in s.members
    ensures HistoryExtends(s, AcceptReplyNext(s, i, step))
  {
    assert s.members.Keys + {i} == s.members.Keys;
  }

  lemma StepGrows(s: State, e: Event)
    requires Enabled(s, e)
    ensures HistoryExtends(s, Next(s, e))
  {
    if e.VoteReply? {
      var m := s.members[e.i];
      VoteReplyGrows(s, e.i, OnVoteResponse(m.ctx, m.role.c, e.answer.response, e.reading, e.tSends));
    } else if e.AcceptReply? {
      var m := s.members[e.i];
      AcceptReplyGrows(s, e.i, OnAcceptResponse(m.ctx, m.role.l, e.ack.response, e.tSend));
    } else {
      OtherGrows(s, e);
    }
  }

  lemma OtherGrows(s: State, e: Event)
    requires Enabled(s, e) && !e.VoteReply? && !e.AcceptReply?
    ensures HistoryExtends(s, Next(s, e))
  {
    if e.VoteAsked? || e.AcceptAsked? || e.PreVoteReply? { RequestGrows(s, e); } else { TimerGrows(s, e); }
  }

  lemma RequestGrows(s: State, e: Event)
    requires Enabled(s, e) && (e.VoteAsked? || e.AcceptAsked? || e.PreVoteReply?)
    ensures HistoryExtends(s, Next(s, e))
  {
    var m := s.members[e.i];
    if e.VoteAsked? {
      VoteAskedGrows(s, e.i, e.ask, ProcessVoteRequest(m, e.ask.request, e.roleCheck, e.check, e.extend));
    } else if e.AcceptAsked? {
      AcceptAskedGrows(s, e.i, e.sent, ProcessAcceptRequest(m, e.sent.request, e.roleCheck, e.check, e.extend));
    } else {
      PreVoteGrows(s, e.i, OnPreVoteResponse(m.ctx, m.role.p, e.preVote, e.reading));
    }
  }

  lemma VoteAskedGrows(s: State, i: Id, ask: Ask, r: VoteOutcomeAt)
    requires i in s.members
    ensures HistoryExtends(s, VoteAskedNext(s, i, ask, r))
  {
    assert s.members.Keys + {i} == s.members.Keys;
  }

  lemma AcceptAskedGrows(s: State, i: Id, sent: Sent, r: AcceptOutcomeAt)
    requires i in s.members
    ensures HistoryExtends(s, AcceptAskedNext(s, i, sent, r))
  {
    assert s.members.Keys + {i} == s.members.Keys;
  }

  lemma PreVoteGrows(s: State, i: Id, r: PreVoteResult)
    requires i in s.members
    ensures HistoryExtends(s, PreVoteReplyNext(s, i, r))
  {
    assert s.members.Keys + {i} == s.members.Keys;
  }

  lemma TimerGrows(s: State, e: Event)
    requires Enabled(s, e) && (e.Tick? || e.Answered? || e.ClientWrite? || Quiet(e) || Routine(e))
    ensures HistoryExtends(s, Next(s, e))
  {
    if !e.Tick? && !e.Answered? { assert s.members.Keys + {e.i} == s.members.Keys; }
  }

  lemma {:induction false} HistoryGrows(states: seq<State>, events: seq<Event>, m: nat, n: nat)
    requires IsExecution(states, events) && m <= n <= |events|
    ensures states[m].wins <= states[n].wins && states[m].leases <= states[n].leases
    ensures states[m].commits <= states[n].commits && states[m].answers <= states[n].answers
    ensures states[m].members.Keys == states[n].members.Keys
    decreases n
  {
    if m < n {
      HistoryGrows(states, events, m, n - 1);
      assert IsStep(states[n - 1], events[n - 1], states[n]);
      StepGrows(states[n - 1], events[n - 1]);
    }
  }

  // ----- Elections and leases -----

  ghost predicate SafetyInv(s: State) { ElectionInv(s) && LeaseInv(s) }

  lemma InitialSafety(s: State)
    requires Initial(s)
    ensures SafetyInv(s)
  {}

  lemma {:induction false} SafetyAlways(states: seq<State>, events: seq<Event>, n: nat)
    requires IsExecution(states, events) && n <= |events|
    ensures SafetyInv(states[n])
    decreases n
  {
    if n == 0 {
      InitialSafety(states[0]);
    } else {
      SafetyAlways(states, events, n - 1);
      assert IsStep(states[n - 1], events[n - 1], states[n]);
      ElectionStep(states[n - 1], events[n - 1]);
      LeaseStep(states[n - 1], events[n - 1]);
    }
  }

  lemma LeaderHasWon(s: State, i: Id)
    requires ElectionInv(s) && i in s.members && s.members[i].role.Leading?
    ensures HasWon(s.wins, i, s.members[i].ctx.term)
  {
    assert MemberOK(s.members[i], i, s.members.Keys, s.ballots, s.wins, s.now);
  }

  /** Election safety: in a whole run, at whatever moments, no two members lead in the same term. */
  lemma OneLeaderPerTermEver(states: seq<State>, events: seq<Event>, m: nat, n: nat, i: Id, j: Id)
    requires IsExecution(states, events) && m <= n <= |events|
    requires i in states[m].members && j in states[n].members
    requires states[m].members[i].role.Leading? && states[n].members[j].role.Leading?
    requires states[m].members[i].ctx.term == states[n].members[j].ctx.term
    ensures i == j
  {
    SafetyAlways(states, events, m);
    SafetyAlways(states, events, n);
    HistoryGrows(states, events, m, n);
    LeaderHasWon(states[m], i);
    LeaderHasWon(states[n], j);
    var at :| Win(i, states[m].members[i].ctx.term, at) in states[m].wins;
    var at' :| Win(j, states[n].members[j].ctx.term, at') in states[n].wins;
    OneLeaderPerTerm(states[n], Win(i, states[m].members[i].ctx.term, at), Win(j, states[n].members[j].ctx.term, at'));
  }

  /** Lease disjointness: an expiry that a leader stores, at whatever point of a run, lies before the true
      time of any election that a higher term wins, even one that was won earlier in the run. */
  lemma LeaseOverBeforeWinEver(states: seq<State>, events: seq<Event>, m: nat, n: nat, st: Stored, w: Win)
    requires IsExecution(states, events) && m <= |events| && n <= |events|
    requires st in states[m].leases && w in states[n].wins && st.term < w.term
    ensures st.expiry < w.at
  {
    var last := if m <= n then n else m;
    SafetyAlways(states, events, last);
    HistoryGrows(states, events, m, last);
    HistoryGrows(states, events, n, last);
    LeaseOverBeforeWin(states[last], st, w);
  }

  /** At no moment do two members both lead with a lease that is definitely still running. */
  lemma OneLeaseHolder(states: seq<State>, events: seq<Event>, n: nat, i: Id, j: Id,
                       reading: TimeInterval, reading': TimeInterval)
    requires IsExecution(states, events) && n <= |events|
    requires i in states[n].members && j in states[n].members
    requires states[n].members[i].role.Leading? && states[n].members[j].role.Leading?
    requires ValidAt(reading, states[n].now) && ValidAt(reading', states[n].now)
    requires !LeaseExpired(states[n].members[i].ctx, reading) && !LeaseExpired(states[n].members[j].ctx, reading')
    requires Before(states[n].members[i].ctx.lease.value, reading)
    requires Before(states[n].members[j].ctx.lease.value, reading')
    ensures i == j
  {
    SafetyAlways(states, events, n);
    LeasesAreDisjoint(states[n], i, j, reading, reading');
  }

  // ----- Log Matching, entry identity, coverage and copies, with or without gaps -----

  lemma {:induction false} LogsAlways(states: seq<State>, events: seq<Event>, n: nat)
    requires IsExecution(states, events) && n <= |events|
    ensures ElectionInv(states[n]) && LogInv(states[n])
    decreases n
  {
    SafetyAlways(states, events, n);
    if n > 0 {
      LogsAlways(states, events, n - 1);
      LogsOnce(states, events, n - 1);
    }
  }

  lemma LogsOnce(states: seq<State>, events: seq<Event>, n: nat)
    requires IsExecution(states, events) && n < |events| && ElectionInv(states[n]) && LogInv(states[n])
    ensures LogInv(states[n + 1])
  {
    assert IsStep(states[n], events[n], states[n + 1]);
    LogStep(states[n], events[n]);
  }

  lemma GrowsTrans(a: map<nat, Log>, b: map<nat, Log>, c: map<nat, Log>)
    requires Grows(a, b) && Grows(b, c)
    ensures Grows(a, c)
  {
    forall term | term in a ensures term in c && Same(a[term], c[term], Top(a[term])) { TopGrows(term, a, b); }
  }

  lemma LogsGrowOnce(states: seq<State>, events: seq<Event>, n: nat)
    requires IsExecution(states, events) && n < |events|
    ensures Grows(states[n].logs, states[n + 1].logs)
  {
    LogsAlways(states, events, n);
    SafetyAlways(states, events, n + 1);
    assert IsStep(states[n], events[n], states[n + 1]);
    StepGrowsLogs(states[n], events[n], states[n + 1]);
  }

  lemma {:induction false} GrowsChain(states: seq<State>, m: nat, n: nat)
    requires m <= n < |states| && forall k :: m <= k < n ==> Grows(states[k].logs, states[k + 1].logs)
    ensures Grows(states[m].logs, states[n].logs)
    decreases n
  {
    if m < n {
      GrowsChain(states, m, n - 1);
      GrowsTrans(states[m].logs, states[n - 1].logs, states[n].logs);
    } else {
      GrowsSelf(states[m].logs);
    }
  }

  lemma LogsGrow(states: seq<State>, events: seq<Event>, m: nat, n: nat)
    requires IsExecution(states, events) && m <= n <= |events|
    ensures Grows(states[m].logs, states[n].logs)
  {
    forall k | m <= k < n ensures Grows(states[k].logs, states[k + 1].logs) { LogsGrowOnce(states, events, k); }
    GrowsChain(states, m, n);
  }

  /** Log Matching in every run: two logs that hold an entry of the same slot and term, at whatever moments and members,
      are the same through that slot, gaps included. */
  lemma LogsMatchEver(states: seq<State>, events: seq<Event>, m: nat, n: nat, i: Id, j: Id, k: nat)
    requires IsExecution(states, events) && m <= n <= |events|
    requires i in states[m].members && j in states[n].members
    requires k in states[m].members[i].ctx.wal && k in states[n].members[j].ctx.wal
    requires states[m].members[i].ctx.wal[k].term == states[n].members[j].ctx.wal[k].term
    ensures Same(states[m].members[i].ctx.wal, states[n].members[j].ctx.wal, k)
  {
    LogsAlways(states, events, m);
    LogsAlways(states, events, n);
    LogsGrow(states, events, m, n);
    assert MemberLogOK(states[m].members[i], states[m].logs) && MemberLogOK(states[n].members[j], states[n].logs);
    MatchedMono(states[m].members[i].ctx.wal, states[m].logs, states[n].logs);
    MatchedSame(states[m].members[i].ctx.wal, states[n].members[j].ctx.wal, states[n].logs, k);
  }

  /** Entry identity in every run: two entries of the same slot and term that members hold, at whatever moments, in
      their logs or among their uncommitted entries, are one entry. */
  lemma EntriesMatchEver(states: seq<State>, events: seq<Event>, m: nat, n: nat, i: Id, j: Id, e: LogEntry, f: LogEntry)
    requires IsExecution(states, events) && m <= n <= |events| && i in states[m].members && j in states[n].members
    requires HasEntry(states[m].members[i].ctx, e) && HasEntry(states[n].members[j].ctx, f)
    requires e.slot == f.slot && e.term == f.term
    ensures e == f
  {
    LogsAlways(states, events, m);
    LogsAlways(states, events, n);
    LogsGrow(states, events, m, n);
    HeldIsKnown(states[m], i, e);
    HeldIsKnown(states[n], j, f);
  }

  /** Coverage: in every reachable state and role, a log entry above the committed slot is uncommitted-logged. */
  lemma UncommittedAlwaysCovers(states: seq<State>, events: seq<Event>, n: nat, i: Id, slot: nat)
    requires IsExecution(states, events) && n <= |events| && i in states[n].members
    requires slot in states[n].members[i].ctx.wal && slot > states[n].members[i].ctx.committedSlot
    ensures slot in states[n].members[i].ctx.uncommitted
    ensures states[n].members[i].ctx.uncommitted[slot] == states[n].members[i].ctx.wal[slot]
  {
    LogsAlways(states, events, n);
    assert MemberLogOK(states[n].members[i], states[n].logs);
  }

  /** In every run, a request that is answered with success leaves the follower with the whole log that the leader had
      when it sent the request, and any other leaves its log alone; the follower commits only what the leader had
      committed by then. */
  lemma AcceptCopiesEver(states: seq<State>, events: seq<Event>, n: nat)
    requires IsExecution(states, events) && n < |events| && events[n].AcceptAsked?
    requires events[n].i in states[n].members && events[n].i in states[n + 1].members
    ensures
      var e := events[n];
      var before, after := states[n].members[e.i].ctx, states[n + 1].members[e.i].ctx;
      var r := ProcessAcceptRequest(states[n].members[e.i], e.sent.request, e.roleCheck, e.check, e.extend);
      && after.wal == (if r.response.Some? && r.response.value.success then e.sent.origin.wal else before.wal)
      && (after.committedSlot != before.committedSlot ==>
            && before.committedSlot < after.committedSlot <= e.sent.origin.committedSlot
            && after.wal == e.sent.origin.wal)
  {
    var e := events[n];
    LogsAlways(states, events, n);
    assert IsStep(states[n], e, states[n + 1]);
    AcceptRequestFacts(states[n].members[e.i], e.sent.request, e.roleCheck, e.check, e.extend, states[n].now);
    AcceptRefinesCopy(states[n], e.i, e.sent,
      ProcessAcceptRequest(states[n].members[e.i], e.sent.request, e.roleCheck, e.check, e.extend));
  }

  // ----- What commits rest on -----

  lemma {:induction false} CountsAlways(states: seq<State>, events: seq<Event>, n: nat)
    requires IsExecution(states, events) && n <= |events|
    ensures CountInv(states[n])
    decreases n
  {
    if n == 0 {
      InitialCounts(states[0]);
    } else {
      CountsAlways(states, events, n - 1);
      CountOnce(states, events, n - 1);
    }
  }

  lemma InitialCounts(s: State)
    requires Initial(s)
    ensures CountInv(s)
  {}

  lemma CountOnce(states: seq<State>, events: seq<Event>, n: nat)
    requires IsExecution(states, events) && n < |events| && CountInv(states[n])
    ensures CountInv(states[n + 1])
  {
    SafetyAlways(states, events, n);
    assert IsStep(states[n], events[n], states[n + 1]);
    CountStep(states[n], events[n]);
  }

  // Those that count for the committed slot when leader `i` commits it: the match slots that reach it, and itself.
  function Holders(s: State, i: Id): set<Id>
    requires i in s.members && s.members[i].role.Leading?
  {
    AtLeast(Matches(s.members[i].role.l.score), s.members[i].ctx.committedSlot) + {i}
  }

  // Event `m` makes leader `i` advance its committed slot.
  ghost predicate CommitsAt(states: seq<State>, events: seq<Event>, m: nat, i: Id)
    requires IsExecution(states, events)
  {
    && m < |events| && events[m].AcceptReply? && events[m].i == i
    && i in states[m].members && i in states[m + 1].members
    && states[m + 1].members[i].role.Leading?
    && states[m + 1].members[i].ctx.committedSlot > states[m].members[i].ctx.committedSlot
  }

  lemma CommitIsRecorded(s: State, i: Id, step: LeaderStep)
    requires i in s.members && step.ctx.committedSlot > s.members[i].ctx.committedSlot
    ensures var s' := AcceptReplyNext(s, i, step);
      Committed(i, step.ctx.term, step.ctx.committedSlot, Holders(s', i)) in s'.commits
  {}

  // The commit that event `m` makes, as recorded.
  lemma CommitMade(states: seq<State>, events: seq<Event>, m: nat, i: Id) returns (c: Committed)
    requires IsExecution(states, events) && CommitsAt(states, events, m, i)
    ensures c in states[m + 1].commits && c.leader == i && c.holders == Holders(states[m + 1], i)
    ensures c.term == states[m + 1].members[i].ctx.term && c.slot == states[m + 1].members[i].ctx.committedSlot
  {
    assert IsStep(states[m], events[m], states[m + 1]);
    var ctx := states[m].members[i].ctx;
    CommitIsRecorded(states[m], i,
      OnAcceptResponse(ctx, states[m].members[i].role.l, events[m].ack.response, events[m].tSend));
    c := Committed(i, states[m + 1].members[i].ctx.term, states[m + 1].members[i].ctx.committedSlot,
                   Holders(states[m + 1], i));
  }

  /** In every run, those that count for a slot when a leader commits it are a quorum, each the leader, a member that
      has acknowledged the slot in the term, or one whose promise seeded a match slot that reaches it. */
  lemma CommitsAreCounted(states: seq<State>, events: seq<Event>, m: nat, i: Id, j: Id)
    requires IsExecution(states, events) && CommitsAt(states, events, m, i) && j in Holders(states[m + 1], i)
    ensures var leader := states[m + 1].members[i].ctx;
      && IsQuorum(states[m + 1].members.Keys, Holders(states[m + 1], i))
      && (|| j == i
          || Acknowledged(states[m + 1].acks, j, leader.term, leader.committedSlot)
          || Seeded(states[m + 1].seeds, j, leader.term, leader.committedSlot))
  {
    var c := CommitMade(states, events, m, i);
    CountsAlways(states, events, m + 1);
    assert CommitCounted(states[m + 1], c);
  }

  // ----- Durability, for links in order -----

  // The links deliver in order for the first `n` events.
  ghost predicate InOrderRun(states: seq<State>, events: seq<Event>, n: nat)
    requires IsExecution(states, events) && n <= |events|
  {
    forall k :: 0 <= k < n ==> InOrder(states[k], events[k])
  }

  lemma DurabilityOnce(states: seq<State>, events: seq<Event>, n: nat)
    requires IsExecution(states, events) && n < |events| && InOrder(states[n], events[n])
    requires DurabilityInv(states[n])
    ensures DurabilityInv(states[n + 1])
  {
    LogsAlways(states, events, n);
    assert IsStep(states[n], events[n], states[n + 1]);
    DurabilityStep(states[n], events[n]);
  }

  lemma {:induction false} DurabilityAlways(states: seq<State>, events: seq<Event>, n: nat)
    requires IsExecution(states, events) && n <= |events| && InOrderRun(states, events, n)
    ensures DurabilityInv(states[n])
    decreases n
  {
    if n > 0 {
      DurabilityAlways(states, events, n - 1);
      DurabilityOnce(states, events, n - 1);
    }
  }

  lemma TermLogOnce(states: seq<State>, events: seq<Event>, n: nat, term: nat, slot: nat)
    requires IsExecution(states, events) && n < |events|
    requires term in states[n].logs && LeadersReach(states[n], term, slot)
    ensures term in states[n + 1].logs && LeadersReach(states[n + 1], term, slot)
    ensures Same(states[n].logs[term], states[n + 1].logs[term], slot)
  {
    LogsAlways(states, events, n);
    SafetyAlways(states, events, n + 1);
    assert IsStep(states[n], events[n], states[n + 1]);
    StepGrows(states[n], events[n]);
    TermLogFixed(states[n], events[n], states[n + 1], term, slot);
  }

  // Through a slot that its leader's last slot has reached, the log of a term never changes again.
  lemma {:induction false} TermLogStays(states: seq<State>, events: seq<Event>, m: nat, n: nat, term: nat, slot: nat)
    requires IsExecution(states, events) && m <= n <= |events|
    requires term in states[m].logs && LeadersReach(states[m], term, slot)
    ensures term in states[n].logs && LeadersReach(states[n], term, slot)
    ensures Same(states[m].logs[term], states[n].logs[term], slot)
    decreases n
  {
    if m < n {
      TermLogStays(states, events, m, n - 1, term, slot);
      TermLogOnce(states, events, n - 1, term, slot);
    }
  }

  // A leader that commits has a last slot that reaches what it commits, and nobody else leads its term.
  lemma CommitReached(states: seq<State>, events: seq<Event>, m: nat, i: Id)
    requires IsExecution(states, events) && CommitsAt(states, events, m, i)
    ensures var leader := states[m + 1].members[i].ctx;
      leader.committedSlot <= leader.lastLogSlot && LeadersReach(states[m + 1], leader.term, leader.committedSlot)
  {
    assert IsStep(states[m], events[m], states[m + 1]);
    Takeovers.LeaderMoves(states[m], events[m], i, states[m + 1]);
    SafetyAlways(states, events, m + 1);
    OnlyLeaderReaches(states[m + 1], i, states[m + 1].members[i].ctx.committedSlot);
  }

  lemma OnlyLeaderReaches(s: State, i: Id, slot: nat)
    requires ElectionInv(s) && i in s.members && s.members[i].role.Leading? && slot <= s.members[i].ctx.lastLogSlot
    ensures LeadersReach(s, s.members[i].ctx.term, slot)
  {
    forall j | LeadsTerm(s, j, s.members[i].ctx.term) ensures slot <= s.members[j].ctx.lastLogSlot {
      LeadersDiffer(s, i, j);
    }
  }

  // Through the committed slot, the leader's log when it commits is its term's log ever after.
  lemma LeaderLogAtCommit(states: seq<State>, events: seq<Event>, m: nat, n: nat, i: Id)
    requires IsExecution(states, events) && n <= |events| && CommitsAt(states, events, m, i) && m < n
    ensures var leader := states[m + 1].members[i].ctx;
      && leader.committedSlot <= leader.lastLogSlot
      && leader.term in states[n].logs && Same(leader.wal, states[n].logs[leader.term], leader.committedSlot)
  {
    var leader := states[m + 1].members[i].ctx;
    LogsAlways(states, events, m + 1);
    assert MemberLogOK(states[m + 1].members[i], states[m + 1].logs);
    CommitReached(states, events, m, i);
    TermLogStays(states, events, m + 1, n, leader.term, leader.committedSlot);
  }

  /** Durable commit: at every step after a leader commits a slot, the leader and whoever has acknowledged the slot is
      in a later term, or its log is the one that the leader had when it committed, through the slot, gaps included;
      so it holds every entry through the slot if the leader's log had no gap. */
  lemma CommitsAreDurable(states: seq<State>, events: seq<Event>, m: nat, n: nat, i: Id, j: Id)
    requires IsExecution(states, events) && n <= |events| && InOrderRun(states, events, n)
    requires CommitsAt(states, events, m, i) && m < n
    requires var leader := states[m + 1].members[i].ctx;
      j == i || Acknowledged(states[n].acks, j, leader.term, leader.committedSlot)
    ensures j in states[n].members
    ensures var leader, ctx := states[m + 1].members[i].ctx, states[n].members[j].ctx;
      && ctx.term >= leader.term
      && (ctx.term == leader.term ==>
            && Same(ctx.wal, leader.wal, leader.committedSlot)
            && (TopIs(leader.wal, leader.lastLogSlot) ==> Agree(ctx.wal, leader.wal, leader.committedSlot)))
  {
    var leader := states[m + 1].members[i].ctx;
    DurablyHeld(states, events, m, n, i, j);
    LeaderLogAtCommit(states, events, m, n, i);
    if states[n].members[j].ctx.term == leader.term && TopIs(leader.wal, leader.lastLogSlot) {
      SameIsAgree(states[n].members[j].ctx.wal, leader.wal, leader.committedSlot);
    }
  }

  // Both hold the term's log through the committed slot.
  lemma DurablyHeld(states: seq<State>, events: seq<Event>, m: nat, n: nat, i: Id, j: Id)
    requires IsExecution(states, events) && n <= |events| && InOrderRun(states, events, n)
    requires CommitsAt(states, events, m, i) && m < n
    requires var leader := states[m + 1].members[i].ctx;
      j == i || Acknowledged(states[n].acks, j, leader.term, leader.committedSlot)
    ensures j in states[n].members
    ensures var leader, ctx := states[m + 1].members[i].ctx, states[n].members[j].ctx;
      && ctx.term >= leader.term
      && (ctx.term == leader.term ==>
            leader.term in states[n].logs && Same(ctx.wal, states[n].logs[leader.term], leader.committedSlot))
  {
    var leader := states[m + 1].members[i].ctx;
    DurabilityAlways(states, events, n);
    if j == i {
      var c := CommitMade(states, events, m, i);
      HistoryGrows(states, events, m + 1, n);
      CountsAlways(states, events, n);
      SafetyAlways(states, events, n);
      assert CommitCounted(states[n], c);
      CommittedIsDurable(states[n], c, i);
    } else {
      AcknowledgedIsDurable(states[n], j, leader.term, leader.committedSlot);
    }
  }

  // ----- In-flight queues -----

  lemma {:induction false} QueuesAlways(states: seq<State>, events: seq<Event>, n: nat)
    requires IsExecution(states, events) && n <= |events|
    ensures QueueInv(states[n])
    decreases n
  {
    if n > 0 {
      QueuesAlways(states, events, n - 1);
      assert IsStep(states[n - 1], events[n - 1], states[n]);
      QueueStep(states[n - 1], events[n - 1]);
    }
  }

  /** In every run a leader's in-flight queues ascend and end at what was sent, so an acknowledgement removes exactly
      the batches that it covers. */
  lemma QueuesAreOrdered(states: seq<State>, events: seq<Event>, n: nat, i: Id, j: Id, acked: nat)
    requires IsExecution(states, events) && n <= |events|
    requires i in states[n].members && states[n].members[i].role.Leading? && j in states[n].members[i].role.l.score
    ensures var p := states[n].members[i].role.l.score[j];
      QueueOK(p) && AckBatches(p.batches, acked) == Unacknowledged(p.batches, acked)
  {
    QueuesAlways(states, events, n);
    assert MemberQueuesOK(states[n].members[i]);
    AckRemovesExactlyAcknowledged(states[n].members[i].role.l.score[j].batches, acked);
  }

  // ----- Probe anchors -----

  lemma {:induction false} ProgressAlways(states: seq<State>, events: seq<Event>, n: nat)
    requires IsExecution(states, events) && n <= |events|
    ensures ProgressInv(states[n])
    decreases n
  {
    if n > 0 {
      ProgressAlways(states, events, n - 1);
      ProgressOnce(states, events, n - 1);
    }
  }

  lemma ProgressOnce(states: seq<State>, events: seq<Event>, n: nat)
    requires IsExecution(states, events) && n < |events| && ProgressInv(states[n])
    ensures ProgressInv(states[n + 1])
  {
    LogsAlways(states, events, n);
    assert IsStep(states[n], events[n], states[n + 1]);
    ProgressStep(states[n], events[n]);
  }

  /** In every run, every position of a leader is in range; and if its own log has no gap, the anchor of each exists, so
      no broadcast panics. */
  lemma AnchorsNeverMissing(states: seq<State>, events: seq<Event>, n: nat, i: Id, j: Id)
    requires IsExecution(states, events) && n <= |events|
    requires i in states[n].members && states[n].members[i].role.Leading? && j in states[n].members[i].role.l.score
    ensures var p, ctx := states[n].members[i].role.l.score[j], states[n].members[i].ctx;
      && 1 <= p.pos.nextSlot <= ctx.lastLogSlot + 1 && p.pos.sentSlot <= ctx.lastLogSlot
      && (TopIs(ctx.wal, ctx.lastLogSlot) ==> AnchorPresent(ctx.wal, p.pos))
  {
    ProgressAlways(states, events, n);
    PositionsInRange(states[n].members[i], j);
  }

  lemma PositionsInRange(m: Member, j: Id)
    requires m.role.Leading? && RoleProgressOK(m) && j in m.role.l.score
    ensures var p := m.role.l.score[j];
      && 1 <= p.pos.nextSlot <= m.ctx.lastLogSlot + 1 && p.pos.sentSlot <= m.ctx.lastLogSlot
      && (TopIs(m.ctx.wal, m.ctx.lastLogSlot) ==> AnchorPresent(m.ctx.wal, p.pos))
  {
    if TopIs(m.ctx.wal, m.ctx.lastLogSlot) { AnchorInRange(m.ctx.wal, m.ctx.lastLogSlot, m.role.l.score[j]); }
  }

  // ----- Responses -----

  // Whoever wins the term in the first `n` events takes over with a log without gaps.
  ghost predicate ToppedRun(states: seq<State>, events: seq<Event>, n: nat, term: nat)
    requires IsExecution(states, events) && n <= |events|
  {
    forall k :: 0 <= k < n ==> WinsTopped(events[k], states[k + 1], term)
  }

  // Whoever judges a request of the term in the first `n` events is honest about its last slot.
  ghost predicate HonestRun(states: seq<State>, events: seq<Event>, n: nat, term: nat)
    requires IsExecution(states, events) && n <= |events|
  {
    forall k :: 0 <= k < n ==> HonestLastSlot(states[k], events[k], term)
  }

  lemma ToppedOnce(states: seq<State>, events: seq<Event>, n: nat, term: nat)
    requires IsExecution(states, events) && n < |events| && LeaderTopped(states[n], term)
    requires WinsTopped(events[n], states[n + 1], term)
    ensures LeaderTopped(states[n + 1], term)
  {
    LogsAlways(states, events, n);
    assert IsStep(states[n], events[n], states[n + 1]);
    StepGrows(states[n], events[n]);
    ToppedOn(states[n], events[n], states[n + 1], term);
  }

  lemma {:induction false} ToppedAlways(states: seq<State>, events: seq<Event>, n: nat, term: nat)
    requires IsExecution(states, events) && n <= |events| && ToppedRun(states, events, n, term)
    ensures LeaderTopped(states[n], term)
    decreases n
  {
    if n > 0 {
      ToppedAlways(states, events, n - 1, term);
      ToppedOnce(states, events, n - 1, term);
    }
  }

  lemma HandleableOnce(states: seq<State>, events: seq<Event>, n: nat, term: nat)
    requires IsExecution(states, events) && n < |events| && ToppedRun(states, events, n + 1, term)
    requires AllHandleable(states[n], term)
    ensures AllHandleable(states[n + 1], term) <==> HonestLastSlot(states[n], events[n], term)
  {
    HandlingAlways(states, events, n);
    HandlingAlways(states, events, n + 1);
    ToppedAlways(states, events, n, term);
    ToppedAlways(states, events, n + 1, term);
    assert IsStep(states[n], events[n], states[n + 1]);
    StepGrows(states[n], events[n]);
    StepGrowsLogs(states[n], events[n], states[n + 1]);
    AllHandleableIff(states[n], events[n], states[n + 1], term);
  }

  lemma HandlingAlways(states: seq<State>, events: seq<Event>, n: nat)
    requires IsExecution(states, events) && n <= |events|
    ensures HandlingInv(states[n])
  {
    LogsAlways(states, events, n);
    ProgressAlways(states, events, n);
  }

  lemma {:induction false} HandleableWhileHonest(states: seq<State>, events: seq<Event>, n: nat, term: nat)
    requires IsExecution(states, events) && n <= |events| && ToppedRun(states, events, n, term)
    requires HonestRun(states, events, n, term)
    ensures AllHandleable(states[n], term)
    decreases n
  {
    if n > 0 {
      HandleableWhileHonest(states, events, n - 1, term);
      HandleableOnce(states, events, n - 1, term);
    }
  }

  /** Up to any moment of a run, every response of a term, however stale, can always be handled by whoever leads where
      it goes, exactly when each follower that judged a request of the term without having its anchor had a last slot
      that the leader reached, as long as whoever won that term took over without a gap. */
  lemma ResponsesHandledIff(states: seq<State>, events: seq<Event>, n: nat, term: nat)
    requires IsExecution(states, events) && n <= |events| && ToppedRun(states, events, n, term)
    ensures (forall k :: 0 <= k <= n ==> AllHandleable(states[k], term)) <==> HonestRun(states, events, n, term)
  {
    if HonestRun(states, events, n, term) {
      forall k | 0 <= k <= n ensures AllHandleable(states[k], term) { HandleableWhileHonest(states, events, k, term); }
    }
    if forall k :: 0 <= k <= n ==> AllHandleable(states[k], term) {
      forall k | 0 <= k < n ensures HonestLastSlot(states[k], events[k], term) {
        HandleableOnce(states, events, k, term);
      }
    }
  }

  // ----- Client writes -----

  lemma {:induction false} WritesAlways(states: seq<State>, events: seq<Event>, n: nat)
    requires IsExecution(states, events) && n <= |events|
    ensures WritesInv(states[n])
    decreases n
  {
    if n > 0 {
      WritesAlways(states, events, n - 1);
      SafetyAlways(states, events, n - 1);
      assert IsStep(states[n - 1], events[n - 1], states[n]);
      WritesStep(states[n - 1], events[n - 1]);
    }
  }

  /** External consistency: a write that arrives no earlier than the reply to another, on whatever leader, has a log
      entry with a greater timestamp. */
  lemma ExternallyConsistent(states: seq<State>, events: seq<Event>, n: nat, a: nat, later: nat)
    requires IsExecution(states, events) && n <= |events|
    requires a < |states[n].replies| && later in states[n].writes
    requires states[n].replies[a].at <= states[n].writes[later].at
    ensures var s := states[n];
      && s.replies[a].command in s.writes
      && Logged(s.logs, s.writes[s.replies[a].command]) && Logged(s.logs, s.writes[later])
      && Stamp(s.logs, s.writes[s.replies[a].command]) < Stamp(s.logs, s.writes[later])
  {
    WritesAlways(states, events, n);
    ExternalConsistency(states[n], a, later);
  }

  /** Conservation: as long as its leader leads, an accepted write is pending or settled, never both; a settled one has
      a committed slot, and no write is answered twice. */
  lemma EveryWriteIsPendingOrSettled(states: seq<State>, events: seq<Event>, n: nat, command: nat)
    requires IsExecution(states, events) && n <= |events|
    requires command in states[n].writes && StillLeads(states[n].members, states[n].writes[command])
    ensures var s, w := states[n], states[n].writes[command];
      && (IsPending(s.members, command, w) <==> command !in Settled(s))
      && (command in Settled(s) ==> SlotCommitted(s.commits, w))
      && w.slot <= s.members[w.leader].ctx.lastLogSlot
      && forall a, b :: 0 <= a < b < |s.replies| ==>
           !(s.replies[a].command == command && s.replies[b].command == command)
  {
    WritesAlways(states, events, n);
    WritesAreConserved(states[n], command);
  }

  // Every client write of the first `n` events reaches a leader whose log reaches its committed slot.
  ghost predicate WritesReach(states: seq<State>, events: seq<Event>, n: nat)
    requires IsExecution(states, events) && n <= |events|
  {
    forall k :: 0 <= k < n ==> IsStep(states[k], events[k], states[k + 1]) && WriteReaches(states[k], events[k])
  }

  lemma PendingOnce(states: seq<State>, events: seq<Event>, n: nat)
    requires IsExecution(states, events) && n < |events| && PendingAbove(states[n])
    ensures IsStep(states[n], events[n], states[n + 1])
    ensures PendingAbove(states[n + 1]) <==> WriteReaches(states[n], events[n])
  {
    assert IsStep(states[n], events[n], states[n + 1]);
    StepGrows(states[n], events[n]);
    PendingAboveIff(states[n], events[n], states[n + 1]);
  }

  lemma {:induction false} PendingWhileReached(states: seq<State>, events: seq<Event>, n: nat)
    requires IsExecution(states, events) && n <= |events| && WritesReach(states, events, n)
    ensures PendingAbove(states[n])
    decreases n
  {
    if n > 0 {
      PendingWhileReached(states, events, n - 1);
      PendingOnce(states, events, n - 1);
    }
  }

  /** Up to any moment of a run, pending writes always lie above their leader's committed slot exactly when each write
      reached a leader whose log reached its committed slot. */
  lemma PendingLiesAboveCommittedIff(states: seq<State>, events: seq<Event>, n: nat)
    requires IsExecution(states, events) && n <= |events|
    ensures (forall k :: 0 <= k <= n ==> PendingAbove(states[k])) <==> WritesReach(states, events, n)
  {
    if WritesReach(states, events, n) {
      forall k | 0 <= k <= n ensures PendingAbove(states[k]) { PendingWhileReached(states, events, k); }
    }
    if forall k :: 0 <= k <= n ==> PendingAbove(states[k]) {
      forall k | 0 <= k < n
        ensures IsStep(states[k], events[k], states[k + 1]) && WriteReaches(states[k], events[k])
      {
        PendingOnce(states, events, k);
      }
    }
  }
}
