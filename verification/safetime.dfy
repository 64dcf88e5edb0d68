/** Safe time at a leader: reads at or below `tSafe` miss no write that may still commit. */
module SafeTime {
  import opened Types
  import opened TrueTime
  import opened Quorums
  import opened Views
  import opened LeaderRole
  import opened Group
  import opened Takeovers

  // No uncommitted entry has a timestamp below the safe time.
  ghost predicate SafeToRead(ctx: ContextView) {
    ctx.tSafe.Some? ==> forall s :: s in ctx.uncommitted ==> ctx.uncommitted[s].timestamp >= ctx.tSafe.value
  }

  // Every uncommitted entry is at least as late as the time that a heartbeat announces now, less a millisecond.
  ghost predicate LateEnough(ctx: ContextView, reading: TimeInterval) {
    forall s :: s in ctx.uncommitted ==> ctx.uncommitted[s].timestamp >= MinNextTs(ctx, reading) - MILLISECOND
  }

  // No entry past the slot is earlier than the one there.
  ghost predicate LatestUpTo(own: Log, slot: nat) {
    slot in own ==> forall s :: s in own && s > slot ==> own[s].timestamp >= own[slot].timestamp
  }

  // Safe time never goes back.
  ghost predicate SafeTimeGrows(a: ContextView, b: ContextView) {
    a.tSafe.Some? ==> b.tSafe.Some? && b.tSafe.value >= a.tSafe.value
  }

  // ----- One event -----

  // The response acknowledges more than the leader has on record for the follower.
  predicate Acknowledges(ctx: ContextView, l: LeaderView, response: AcceptResponse) {
    && !Disregards(ctx, response) && response.success && response.memberId in l.score
    && response.lastWrittenSlot > l.score[response.memberId].pos.matchSlot
  }

  // The slot that a quorum has once the acknowledgement is on the board.
  function QuorumWith(ctx: ContextView, l: LeaderView, response: AcceptResponse): nat {
    QuorumSlot(Matches(l.score)[response.memberId := response.lastWrittenSlot], QuorumOf(ctx) - 1, ctx.lastLogSlot)
  }

  // A write gets no timestamp below the safe time, a heartbeat finds the entries late enough, and an acknowledgement
  // with which a quorum has more than is committed leaves none behind that is earlier than the entry it reaches.
  ghost predicate ReadsStaySafe(m: Member, e: Event)
    requires m.role.Leading?
  {
    match e
    case ClientWrite(_, _, _, reading) => m.ctx.tSafe.Some? ==> m.ctx.tSafe.value <= reading.latest
    case Heartbeat(_, reading, _) => LateEnough(m.ctx, reading)
    case AcceptReply(_, ack, _) => ReplyLeavesNone(m.ctx, m.role.l, ack.response)
    case _ => true
  }

  ghost predicate ReplyLeavesNone(ctx: ContextView, l: LeaderView, response: AcceptResponse) {
    Acknowledges(ctx, l, response) && QuorumWith(ctx, l, response) > ctx.committedSlot ==>
      LatestUpTo(ctx.uncommitted, QuorumWith(ctx, l, response))
  }

  ghost predicate IsAt(e: Event, i: Id) { !e.Tick? && !e.Answered? && e.i == i }

  ghost predicate EventKeepsReadsSafe(s: State, e: Event, i: Id)
    requires i in s.members && s.members[i].role.Leading?
  {
    IsAt(e, i) ==> ReadsStaySafe(s.members[i], e)
  }

  // Safe time grows, and reads that were safe stay so under the condition and no other.
  ghost predicate SafeIff(a: ContextView, b: ContextView, condition: bool) {
    SafeTimeGrows(a, b) && (SafeToRead(a) ==> (SafeToRead(b) <==> condition))
  }

  /** A heartbeat keeps the safe time sound exactly when every uncommitted entry is at least as late as the time it
      announces, less a millisecond. */
  lemma HeartbeatSafeIff(ctx: ContextView, l: LeaderView, reading: TimeInterval, tSends: map<Id, Time>)
    requires CanBroadcast(ctx, l, tSends) && SafeToRead(ctx)
    ensures SafeToRead(OnHeartbeat(ctx, l, reading, tSends).ctx) <==> LateEnough(ctx, reading)
  {}

  // Committing through a slot raises the safe time to the timestamp of the entry there.
  lemma CommitSafeIff(ctx: ContextView, slot: nat)
    ensures SafeIff(ctx, CommitThrough(ctx, slot), LatestUpTo(ctx.uncommitted, slot))
  {
    var own, next := ctx.uncommitted, CommitThrough(ctx, slot);
    if SafeToRead(next) && slot in own {
      forall s | s in own && s > slot ensures own[s].timestamp >= own[slot].timestamp {
        assert s in next.uncommitted && next.uncommitted[s] == own[s];
      }
    }
  }

  lemma SuccessSafeIff(ctx: ContextView, l: LeaderView, response: AcceptResponse)
    requires ctx.peerIds != {} && response.memberId in l.score && response.success && response.term == ctx.term
    ensures SafeIff(ctx, OnSuccess(ctx, l, response).ctx, ReplyLeavesNone(ctx, l, response))
  {
    var slot := response.lastWrittenSlot;
    if slot > l.score[response.memberId].pos.matchSlot {
      var score := l.score[response.memberId := Acknowledge(l.score[response.memberId], slot)];
      assert Matches(score) == Matches(l.score)[response.memberId := slot];
      CommitSafeIff(ctx, QuorumWith(ctx, l, response));
    }
  }

  lemma ReplySafeIff(m: Member, response: AcceptResponse, tSend: Time)
    requires m.role.Leading? && CanHandle(m.ctx, m.role.l, response) && response.term <= m.ctx.term
    ensures SafeIff(m.ctx, OnAcceptResponse(m.ctx, m.role.l, response, tSend).ctx,
                    ReplyLeavesNone(m.ctx, m.role.l, response))
  {
    if !Disregards(m.ctx, response) && response.success {
      var contacts := NoteContact(m.role.l.lastContact, response);
      var ctx, l := m.ctx.(lease := RenewedLease(m.ctx, contacts)), m.role.l.(lastContact := contacts);
      SuccessSafeIff(ctx, l, response);
      assert QuorumWith(ctx, l, response) == QuorumWith(m.ctx, m.role.l, response);
      LeasePlaysNoPart(m.ctx, ctx, OnSuccess(ctx, l, response).ctx, ReplyLeavesNone(m.ctx, m.role.l, response));
    } else {
      assert !Acknowledges(m.ctx, m.role.l, response);
    }
  }

  lemma LeasePlaysNoPart(a: ContextView, b: ContextView, c: ContextView, condition: bool)
    requires a.tSafe == b.tSafe && a.uncommitted == b.uncommitted && SafeIff(b, c, condition)
    ensures SafeIff(a, c, condition)
  {}

  lemma WriteSafeIff(ctx: ContextView, l: LeaderView, command: nat, value: string, reading: TimeInterval)
    ensures SafeIff(ctx, OnClientWrite(ctx, l, command, value, reading).ctx,
                    ctx.tSafe.Some? ==> ctx.tSafe.value <= reading.latest)
  {
    var e := LogEntry(ctx.term, ctx.lastLogSlot + 1, value, reading.latest);
    var next := OnClientWrite(ctx, l, command, value, reading).ctx;
    assert next.uncommitted[e.slot] == e;
  }

  lemma TimerSafeIff(m: Member, e: Event, now: Time)
    requires Routine(e) && RoutineEnabled(m, e, now)
    ensures SafeIff(m.ctx, RoutineStep(m, e, now).ctx, ReadsStaySafe(m, e))
  {
    if e.Heartbeat? && SafeToRead(m.ctx) { HeartbeatSafeIff(m.ctx, m.role.l, e.reading, e.tSends); }
  }

  /** While a leader leads, an event keeps its reads safe exactly when its own part in it does. */
  lemma LeaderEventSafeIff(s: State, e: Event, i: Id, s': State)
    requires Enabled(s, e) && s' == Next(s, e) && i in s.members && i in s'.members
    requires LeadsOn(s.members[i], s'.members[i])
    ensures SafeIff(s.members[i].ctx, s'.members[i].ctx, EventKeepsReadsSafe(s, e, i))
  {
    if !IsAt(e, i) { OthersStay(s, e, i, s'); } else { OwnEventSafeIff(s, e, s'); }
  }

  lemma OwnEventSafeIff(s: State, e: Event, s': State)
    requires Enabled(s, e) && s' == Next(s, e) && !e.Tick? && !e.Answered? && e.i in s.members && e.i in s'.members
    requires LeadsOn(s.members[e.i], s'.members[e.i])
    ensures SafeIff(s.members[e.i].ctx, s'.members[e.i].ctx, ReadsStaySafe(s.members[e.i], e))
  {
    var m := s.members[e.i];
    if e.AcceptReply? {
      ReplySafeIff(m, e.ack.response, e.tSend);
    } else if e.ClientWrite? {
      WriteSafeIff(m.ctx, m.role.l, e.command, e.value, e.reading);
    } else if Routine(e) {
      TimerSafeIff(m, e, s.now);
    } else if e.VoteAsked? || e.AcceptAsked? {
      RequestLeavesLeader(m, e);
    }
  }

  // ----- A leadership within a run -----

  ghost predicate SafeFrom(states: seq<State>, a: nat, b: nat, i: Id)
    requires a <= b < |states| && Leadership(states, a, b, i)
  {
    forall k :: a <= k <= b ==> SafeToRead(states[k].members[i].ctx)
  }

  ghost predicate EventsKeepReadsSafe(states: seq<State>, events: seq<Event>, a: nat, b: nat, i: Id)
    requires a <= b < |states| && |states| == |events| + 1 && Leadership(states, a, b, i)
  {
    forall k :: a <= k < b ==> EventKeepsReadsSafe(states[k], events[k], i)
  }

  // Each step of the leadership is safe exactly under its condition.
  ghost predicate StepsSafeIff(states: seq<State>, events: seq<Event>, a: nat, b: nat, i: Id)
    requires a <= b < |states| && |states| == |events| + 1 && Leadership(states, a, b, i)
  {
    forall k :: a <= k < b ==>
      SafeIff(states[k].members[i].ctx, states[k + 1].members[i].ctx, EventKeepsReadsSafe(states[k], events[k], i))
  }

  lemma {:induction false} SafeWhileKept(states: seq<State>, events: seq<Event>, a: nat, b: nat, i: Id)
    requires a <= b < |states| && |states| == |events| + 1 && Leadership(states, a, b, i)
    requires StepsSafeIff(states, events, a, b, i)
    ensures SafeTimeGrows(states[a].members[i].ctx, states[b].members[i].ctx)
    ensures SafeToRead(states[a].members[i].ctx) && EventsKeepReadsSafe(states, events, a, b, i) ==>
      SafeToRead(states[b].members[i].ctx)
    ensures SafeFrom(states, a, b, i) ==> EventsKeepReadsSafe(states, events, a, b, i)
    decreases b
  {
    if a < b {
      SafeWhileKept(states, events, a, b - 1, i);
      assert SafeIff(states[b - 1].members[i].ctx, states[b].members[i].ctx,
                     EventKeepsReadsSafe(states[b - 1], events[b - 1], i));
    }
  }

  lemma LeadershipSteps(states: seq<State>, events: seq<Event>, a: nat, b: nat, i: Id)
    requires IsExecution(states, events) && a <= b <= |events| && Leadership(states, a, b, i)
    ensures StepsSafeIff(states, events, a, b, i)
  {
    forall k | a <= k < b
      ensures SafeIff(states[k].members[i].ctx, states[k + 1].members[i].ctx,
                      EventKeepsReadsSafe(states[k], events[k], i))
    {
      SafeOnce(states, events, k, i);
    }
  }

  lemma SafeOnce(states: seq<State>, events: seq<Event>, k: nat, i: Id)
    requires IsExecution(states, events) && k < |events| && i in states[k].members && i in states[k + 1].members
    requires LeadsOn(states[k].members[i], states[k + 1].members[i])
    ensures SafeIff(states[k].members[i].ctx, states[k + 1].members[i].ctx,
                    EventKeepsReadsSafe(states[k], events[k], i))
  {
    assert IsStep(states[k], events[k], states[k + 1]);
    LeaderEventSafeIff(states[k], events[k], i, states[k + 1]);
  }

  /** In every run, throughout a leadership safe time never goes back, and no uncommitted entry has ever had a timestamp
      below it exactly when that held at first and each write, heartbeat and commit of the leader met its condition. */
  lemma LeadershipReadsSafeIff(states: seq<State>, events: seq<Event>, a: nat, b: nat, i: Id)
    requires IsExecution(states, events) && a <= b <= |events| && Leadership(states, a, b, i)
    ensures SafeTimeGrows(states[a].members[i].ctx, states[b].members[i].ctx)
    ensures SafeFrom(states, a, b, i) <==>
      SafeToRead(states[a].members[i].ctx) && EventsKeepReadsSafe(states, events, a, b, i)
  {
    LeadershipSteps(states, events, a, b, i);
    SafeWhileKept(states, events, a, b, i);
    if SafeToRead(states[a].members[i].ctx) && EventsKeepReadsSafe(states, events, a, b, i) {
      forall k | a <= k <= b ensures SafeToRead(states[k].members[i].ctx) { SafeWhileKept(states, events, a, k, i); }
    }
  }

  // ----- Leaderships whose timestamps ascend -----

  // Uncommitted timestamps ascend with the slots, and like the safe time do not exceed the clock.
  ghost predicate Ordered(ctx: ContextView, clock: Time) {
    var own := ctx.uncommitted;
    && (ctx.tSafe.Some? ==> ctx.tSafe.value <= clock)
    && (forall s :: s in own ==> s <= ctx.lastLogSlot && own[s].timestamp <= clock)
    && (forall a, b :: a in own && b in own && a <= b ==> own[a].timestamp <= own[b].timestamp)
  }

  predicate Reads(e: Event, i: Id) { (e.ClientWrite? || e.Heartbeat?) && e.i == i }

  // The latest bound that the leader's clock has answered since state `a`, where it was `clock`.
  function LastReading(events: seq<Event>, a: nat, k: nat, i: Id, clock: Time): Time
    requires a <= k <= |events|
    decreases k
  {
    if k == a then clock
    else if Reads(events[k - 1], i) then events[k - 1].reading.latest
    else LastReading(events, a, k - 1, i, clock)
  }

  // The leader's clock never goes back.
  ghost predicate ClockAscends(events: seq<Event>, a: nat, b: nat, i: Id, clock: Time)
    requires a <= b <= |events|
  {
    forall k :: a <= k < b && Reads(events[k], i) ==> LastReading(events, a, k, i, clock) <= events[k].reading.latest
  }

  lemma ReplyOrdered(m: Member, response: AcceptResponse, tSend: Time, clock: Time)
    requires m.role.Leading? && CanHandle(m.ctx, m.role.l, response) && Ordered(m.ctx, clock)
    ensures Ordered(OnAcceptResponse(m.ctx, m.role.l, response, tSend).ctx, clock)
  {
    if !Disregards(m.ctx, response) && response.success {
      var contacts := NoteContact(m.role.l.lastContact, response);
      var ctx := m.ctx.(lease := RenewedLease(m.ctx, contacts));
      SuccessOrdered(ctx, m.role.l.(lastContact := contacts), response, clock);
    }
  }

  lemma SuccessOrdered(ctx: ContextView, l: LeaderView, response: AcceptResponse, clock: Time)
    requires ctx.peerIds != {} && response.memberId in l.score && Ordered(ctx, clock)
    ensures Ordered(OnSuccess(ctx, l, response).ctx, clock)
  {}

  // In order, only a heartbeat can break the condition.
  lemma OrderedStep(s: State, e: Event, i: Id, s': State, clock: Time)
    requires Enabled(s, e) && s' == Next(s, e) && i in s.members && i in s'.members
    requires LeadsOn(s.members[i], s'.members[i]) && Ordered(s.members[i].ctx, clock)
    requires Reads(e, i) ==> clock <= e.reading.latest
    ensures Ordered(s'.members[i].ctx, if Reads(e, i) then e.reading.latest else clock)
    ensures EventKeepsReadsSafe(s, e, i) <==>
      (e.Heartbeat? && e.i == i ==> LateEnough(s.members[i].ctx, e.reading))
  {
    var m := s.members[i];
    if !IsAt(e, i) {
      OthersStay(s, e, i, s');
    } else if e.AcceptReply? {
      ReplyOrdered(m, e.ack.response, e.tSend, clock);
    } else if e.VoteAsked? || e.AcceptAsked? {
      RequestLeavesLeader(m, e);
    }
  }

  ghost predicate OrderedAt(states: seq<State>, events: seq<Event>, a: nat, k: nat, i: Id, clock: Time)
    requires a <= k < |states| && |states| == |events| + 1 && i in states[k].members
  {
    Ordered(states[k].members[i].ctx, LastReading(events, a, k, i, clock))
  }

  lemma {:induction false} OrderedThroughout(states: seq<State>, events: seq<Event>, a: nat, b: nat, i: Id, clock: Time)
    requires a <= b < |states| && |states| == |events| + 1 && Leadership(states, a, b, i)
    requires OrderedAt(states, events, a, a, i, clock)
    requires forall k :: a <= k < b && OrderedAt(states, events, a, k, i, clock) ==>
      OrderedAt(states, events, a, k + 1, i, clock)
    ensures OrderedAt(states, events, a, b, i, clock)
    decreases b
  {
    if a < b { OrderedThroughout(states, events, a, b - 1, i, clock); }
  }

  lemma OrderedSteps(states: seq<State>, events: seq<Event>, a: nat, b: nat, i: Id, clock: Time)
    requires IsExecution(states, events) && a <= b <= |events| && Leadership(states, a, b, i)
    requires ClockAscends(events, a, b, i, clock)
    ensures forall k :: a <= k < b && OrderedAt(states, events, a, k, i, clock) ==>
      OrderedAt(states, events, a, k + 1, i, clock)
  {
    forall k | a <= k < b && OrderedAt(states, events, a, k, i, clock)
      ensures OrderedAt(states, events, a, k + 1, i, clock)
    {
      OrderedOnce(states, events, k, i, LastReading(events, a, k, i, clock));
    }
  }

  lemma OrderedOnce(states: seq<State>, events: seq<Event>, k: nat, i: Id, clock: Time)
    requires IsExecution(states, events) && k < |events| && i in states[k].members && i in states[k + 1].members
    requires LeadsOn(states[k].members[i], states[k + 1].members[i]) && Ordered(states[k].members[i].ctx, clock)
    requires Reads(events[k], i) ==> clock <= events[k].reading.latest
    ensures Ordered(states[k + 1].members[i].ctx, if Reads(events[k], i) then events[k].reading.latest else clock)
    ensures EventKeepsReadsSafe(states[k], events[k], i) <==>
      (events[k].Heartbeat? && events[k].i == i ==> LateEnough(states[k].members[i].ctx, events[k].reading))
  {
    assert IsStep(states[k], events[k], states[k + 1]);
    OrderedStep(states[k], events[k], i, states[k + 1], clock);
  }

  /** When the leader starts with ascending timestamps and its clock never goes back, only heartbeats matter: no
      uncommitted entry has ever had a timestamp below the safe time exactly when each heartbeat found the uncommitted
      entries no earlier than what it announced, less a millisecond. */
  lemma SafeTimeIsSoundIff(states: seq<State>, events: seq<Event>, a: nat, b: nat, i: Id, clock: Time)
    requires IsExecution(states, events) && a <= b <= |events| && Leadership(states, a, b, i)
    requires Ordered(states[a].members[i].ctx, clock) && ClockAscends(events, a, b, i, clock)
    requires SafeToRead(states[a].members[i].ctx)
    ensures SafeFrom(states, a, b, i) <==>
      forall k :: a <= k < b && events[k].Heartbeat? && events[k].i == i ==>
        LateEnough(states[k].members[i].ctx, events[k].reading)
  {
    LeadershipReadsSafeIff(states, events, a, b, i);
    OrderedSteps(states, events, a, b, i, clock);
    forall k | a <= k < b
      ensures EventKeepsReadsSafe(states[k], events[k], i) <==>
        (events[k].Heartbeat? && events[k].i == i ==> LateEnough(states[k].members[i].ctx, events[k].reading))
    {
      OrderedThroughout(states, events, a, k, i, clock);
      OrderedOnce(states, events, k, i, LastReading(events, a, k, i, clock));
    }
  }

  lemma {:induction false} ReadingsAscend(events: seq<Event>, a: nat, m: nat, n: nat, i: Id, clock: Time)
    requires a <= m <= n <= |events| && ClockAscends(events, a, n, i, clock)
    ensures LastReading(events, a, m, i, clock) <= LastReading(events, a, n, i, clock)
    decreases n
  {
    if m < n { ReadingsAscend(events, a, m, n - 1, i, clock); }
  }

  /** A heartbeat's promise is kept as long as the leader's clock does not go back: every entry that it writes later in
      the leadership has a timestamp no smaller than the minimum that the heartbeat announced. */
  lemma AnnouncedMinimumIsKept(states: seq<State>, events: seq<Event>, m: nat, n: nat, i: Id, j: Id)
    requires IsExecution(states, events) && m < n < |events| && Leadership(states, m, n + 1, i)
    requires events[m].Heartbeat? && events[m].i == i && events[n].ClientWrite? && events[n].i == i
    requires ClockAscends(events, m + 1, n + 1, i, events[m].reading.latest)
    requires RoutineEnabled(states[m].members[i], events[m], states[m].now)
    requires j in RoutineStep(states[m].members[i], events[m], states[m].now).requests
    ensures var announced := RoutineStep(states[m].members[i], events[m], states[m].now).requests[j].minNextTs;
      var after := states[n + 1].members[i].ctx;
      && announced.Some? && after.lastLogSlot in after.wal
      && announced.value <= after.wal[after.lastLogSlot].timestamp
  {
    ReadingsAscend(events, m + 1, m + 1, n, i, events[m].reading.latest);
    assert IsStep(states[n], events[n], states[n + 1]);
    WriteStampsReading(states[n], events[n], states[n + 1]);
    HeartbeatAnnounces(states[m].members[i], events[m], states[m].now, j);
  }

  lemma WriteStampsReading(s: State, e: Event, s': State)
    requires e.ClientWrite? && Enabled(s, e) && s' == Next(s, e) && e.i in s.members && e.i in s'.members
    ensures var after := s'.members[e.i].ctx;
      after.lastLogSlot in after.wal && after.wal[after.lastLogSlot].timestamp == e.reading.latest
  {}

  lemma HeartbeatAnnounces(m: Member, e: Event, now: Time, j: Id)
    requires e.Heartbeat? && RoutineEnabled(m, e, now) && j in RoutineStep(m, e, now).requests
    ensures var announced := RoutineStep(m, e, now).requests[j].minNextTs;
      announced == Some(MinNextTs(m.ctx, e.reading)) && announced.value <= e.reading.latest
  {}

  // ----- When the idle timer fires over a pending write -----

  /** A write that is still uncommitted when the idle timer fires, eight seconds later, falls below the safe time,
      whatever state the leader was in, as long as its lease lasts that long. */
  lemma HeartbeatOverPendingWrite(ctx: ContextView, l: LeaderView, command: nat, value: string, earliest: Time,
                                  t: Time, tSends: map<Id, Time>)
    requires ctx.lease.Some? ==> ctx.lease.value >= t + 8_000 * MILLISECOND
    requires var r := OnClientWrite(ctx, l, command, value, TimeInterval(earliest, t));
      CanBroadcast(r.ctx, r.l, tSends)
    ensures var r := OnClientWrite(ctx, l, command, value, TimeInterval(earliest, t));
      !SafeToRead(OnHeartbeat(r.ctx, r.l, TimeInterval(t, t + 8_000 * MILLISECOND), tSends).ctx)
  {
    var r := OnClientWrite(ctx, l, command, value, TimeInterval(earliest, t));
    var beat := OnHeartbeat(r.ctx, r.l, TimeInterval(t, t + 8_000 * MILLISECOND), tSends).ctx;
    assert ctx.lastLogSlot + 1 in beat.uncommitted;
  }
}
