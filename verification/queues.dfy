/** In-flight queues: what a leader has sent to a follower and not yet seen acknowledged, over whole runs. */
module InFlightQueues {
  import opened Types
  import opened TrueTime
  import opened Wal
  import opened Views
  import opened FollowerRole
  import opened LeaderRole
  import opened CandidateRole
  import opened PreCandidateRole
  import opened StateMachine
  import opened Group
  import opened Facts
  import opened ProbeAnchors

  // ----- One follower's queue -----

  // Batches are queued by ascending slot, and none goes beyond what was sent.
  ghost predicate QueueOK(p: Progress) {
    && (forall a, b :: 0 <= a < b < |p.batches| ==> p.batches[a].highestSlot <= p.batches[b].highestSlot)
    && (forall a :: 0 <= a < |p.batches| ==> p.batches[a].highestSlot <= p.pos.sentSlot)
  }

  // The batches above `acked`, in order.
  function Unacknowledged(batches: seq<InFlightBatch>, acked: nat): seq<InFlightBatch> {
    if batches == [] then []
    else (if batches[0].highestSlot > acked then [batches[0]] else []) + Unacknowledged(batches[1..], acked)
  }

  lemma {:induction false} AllAbove(batches: seq<InFlightBatch>, acked: nat)
    requires forall a :: 0 <= a < |batches| ==> batches[a].highestSlot > acked
    ensures Unacknowledged(batches, acked) == batches
  {
    if batches != [] {
      AllAbove(batches[1..], acked);
      assert [batches[0]] + batches[1..] == batches;
    }
  }

  /** Popping from the front removes exactly the acknowledged batches of an ascending queue. */
  lemma {:induction false} AckRemovesExactlyAcknowledged(batches: seq<InFlightBatch>, acked: nat)
    requires forall a, b :: 0 <= a < b < |batches| ==> batches[a].highestSlot <= batches[b].highestSlot
    ensures AckBatches(batches, acked) == Unacknowledged(batches, acked)
  {
    if batches != [] {
      if batches[0].highestSlot <= acked {
        AckRemovesExactlyAcknowledged(batches[1..], acked);
      } else {
        AllAbove(batches, acked);
      }
    }
  }

  // What remains is a suffix of the queue.
  lemma {:induction false} AckLeavesSuffix(batches: seq<InFlightBatch>, acked: nat) returns (k: nat)
    ensures k <= |batches| && AckBatches(batches, acked) == batches[k..]
  {
    k := 0;
    if batches != [] && batches[0].highestSlot <= acked {
      var rest := AckLeavesSuffix(batches[1..], acked);
      assert batches[1..][rest..] == batches[rest + 1..];
      k := rest + 1;
    }
  }

  // ----- The invariant -----

  ghost predicate KeyedContext(ctx: ContextView) { WellKeyed(ctx.wal) && WellKeyed(ctx.uncommitted) }

  // The queue is in order, and holds nothing beyond the leader's log.
  ghost predicate BatchesOK(p: Progress, wal: Log) {
    QueueOK(p) && forall a :: 0 <= a < |p.batches| ==> p.batches[a].highestSlot <= Top(wal)
  }

  ghost predicate MemberQueuesOK(m: Member) {
    && KeyedContext(m.ctx)
    && (m.role.Campaigning? ==> WellKeyed(m.role.c.pending))
    && (m.role.Leading? ==> forall j :: j in m.role.l.score ==> BatchesOK(m.role.l.score[j], m.ctx.wal))
  }

  ghost predicate QueueInv(s: State) { forall i :: i in s.members ==> MemberQueuesOK(s.members[i]) }

  // ----- What happens to a queue -----

  lemma SentBatches(wal: Log, p: Progress, request: AcceptRequest, from: nat)
    requires WellKeyed(wal) && BatchesOK(p, wal) && request.entries == EntriesFrom(wal, from)
    ensures BatchesOK(NoteSent(p, request), wal)
  {
    if request.entries != [] { LastListedIsTop(wal, from); }
  }

  lemma AcknowledgedBatches(wal: Log, p: Progress, slot: nat)
    requires BatchesOK(p, wal)
    ensures BatchesOK(Acknowledge(p, slot), wal)
  {
    var k := AckLeavesSuffix(p.batches, slot);
  }

  lemma TimerBatches(ctx: ContextView, p: Progress, p': Progress)
    requires WellKeyed(ctx.wal) && BatchesOK(p, ctx.wal) && ProgressMove(ctx, p, p')
    ensures BatchesOK(p', ctx.wal)
  {
    if p' != p && p' != ClearBatches(p) {
      var request: AcceptRequest :|
        p' == NoteSent(p, request) && request.entries == EntriesFrom(ctx.wal, Anchor(p.pos) + 1);
      SentBatches(ctx.wal, p, request, Anchor(p.pos) + 1);
    }
  }

  lemma ReplyBatches(ctx: ContextView, response: AcceptResponse, p: Progress, p': Progress)
    requires WellKeyed(ctx.wal) && BatchesOK(p, ctx.wal) && ReplyMove(ctx, response, p, p')
    ensures BatchesOK(p', ctx.wal)
  {
    if p' == p {
    } else if response.success && p' == Acknowledge(p, response.lastWrittenSlot) {
      AcknowledgedBatches(ctx.wal, p, response.lastWrittenSlot);
    } else {
      var q := Reprobe(ctx.wal, p, response.conflictHint.value);
      var request: AcceptRequest :|
        request.entries == EntriesFrom(ctx.wal, Anchor(q.pos) + 1) && p' == NoteSent(q, request);
      SentBatches(ctx.wal, q, request, Anchor(q.pos) + 1);
    }
  }

  // ----- What happens to the logs -----

  lemma JudgedKeyed(ctx: ContextView, request: AcceptRequest)
    requires KeyedContext(ctx)
    ensures KeyedContext(Judge(ctx, request).ctx)
  {
    AppendAllWellKeyed(TruncateFrom(ctx.wal, request.prevLogSlot + 1), request.entries);
    AppendAllWellKeyed(ctx.uncommitted, request.entries);
  }

  lemma {:induction false} MergedKeyed(pending: Log, entries: seq<LogEntry>)
    requires WellKeyed(pending)
    ensures WellKeyed(Merge(pending, entries))
    decreases |entries|
  {
    if entries != [] { MergedKeyed(MergeEntry(pending, entries[0]), entries[1..]); }
  }

  lemma ElectedKeyed(ctx: ContextView, c: CandidateView)
    requires c.dispatched.Some? && KeyedContext(ctx) && WellKeyed(c.pending)
    ensures KeyedContext(ElectedContext(ctx, c))
  {}

  // ----- Every event -----

  lemma RequestQueues(m: Member, e: Event, m': Member, now: Time)
    requires MemberQueuesOK(m) && (e.VoteAsked? || e.AcceptAsked?)
    requires ValidAt(e.roleCheck, now) && ValidAt(e.check, now) && ValidAt(e.extend, now)
    requires m' == if e.VoteAsked? then ProcessVoteRequest(m, e.ask.request, e.roleCheck, e.check, e.extend).m
                   else ProcessAcceptRequest(m, e.sent.request, e.roleCheck, e.check, e.extend).m
    ensures MemberQueuesOK(m')
  {
    if e.VoteAsked? {
      VoteRequestFacts(m, e.ask.request, e.roleCheck, e.check, e.extend, now);
    } else {
      AcceptRequestFacts(m, e.sent.request, e.roleCheck, e.check, e.extend, now);
      JudgedKeyed(m.ctx.(term := e.sent.request.term), e.sent.request);
    }
  }

  lemma TimerQueues(m: Member, e: Event, m': Member, now: Time)
    requires MemberQueuesOK(m) && (Quiet(e) || Routine(e))
    requires if Quiet(e) then QuietEnabled(m, e, now) else RoutineEnabled(m, e, now)
    requires m' == if Quiet(e) then QuietMember(m, e, now)
                   else Member(RoutineStep(m, e, now).ctx, Leading(RoutineStep(m, e, now).l))
    ensures MemberQueuesOK(m')
  {
    if Quiet(e) {
      QuietMemberFacts(m, e, now);
    } else {
      RoutineStepFacts(m, e, now);
      forall j | j in m'.role.l.score ensures BatchesOK(m'.role.l.score[j], m.ctx.wal) {
        TimerBatches(m.ctx, m.role.l.score[j], m'.role.l.score[j]);
      }
    }
  }

  lemma AcceptReplyQueues(m: Member, response: AcceptResponse, tSend: Time, now: Time)
    requires MemberQueuesOK(m) && m.role.Leading? && CanHandle(m.ctx, m.role.l, response) && SendTime(tSend, now)
    requires response.term <= m.ctx.term
    ensures var step := OnAcceptResponse(m.ctx, m.role.l, response, tSend);
      MemberQueuesOK(Member(step.ctx, Leading(step.l)))
  {
    var step := OnAcceptResponse(m.ctx, m.role.l, response, tSend);
    AcceptReplyFacts(m, response, tSend, now);
    AcceptReplyMoves(m, response, tSend);
    forall j | j in step.l.score ensures BatchesOK(step.l.score[j], m.ctx.wal) {
      ReplyBatches(m.ctx, response, m.role.l.score[j], step.l.score[j]);
    }
  }

  lemma WriteQueues(m: Member, command: nat, value: string, reading: TimeInterval)
    requires MemberQueuesOK(m) && m.role.Leading?
    ensures var step := OnClientWrite(m.ctx, m.role.l, command, value, reading);
      MemberQueuesOK(Member(step.ctx, Leading(step.l)))
  {
    var wal := OnClientWrite(m.ctx, m.role.l, command, value, reading).ctx.wal;
    assert Top(m.ctx.wal) <= Top(wal) by { if m.ctx.wal != map[] { assert Top(m.ctx.wal) in wal; } }
  }

  lemma WonQueues(ctx: ContextView, c: CandidateView, step: LeaderStep, now: Time)
    requires KeyedContext(ctx) && WellKeyed(c.pending) && ElectedFacts(ctx, c, step, now)
    ensures MemberQueuesOK(Member(step.ctx, Leading(step.l)))
  {
    ElectedKeyed(ctx, c);
    BoardKeys(ctx, c);
    forall j | j in step.l.score ensures BatchesOK(step.l.score[j], step.ctx.wal) {
      var p := ElectedBoard(ctx, c).score[j];
      SentBatches(step.ctx.wal, p, step.requests[j], step.requests[j].prevLogSlot + 1);
    }
  }

  lemma MemberChange(s: State, i: Id, s': State)
    requires QueueInv(s) && i in s.members && i in s'.members && s'.members == s.members[i := s'.members[i]]
    requires MemberQueuesOK(s'.members[i])
    ensures QueueInv(s')
  {}

  lemma PreVoteQueues(s: State, i: Id, preVote: PreVoteResponse, reading: TimeInterval)
    requires QueueInv(s) && PreVoteReplyEnabled(s, i, preVote, reading)
    ensures QueueInv(PreVoteReplyNext(s, i, OnPreVoteResponse(s.members[i].ctx, s.members[i].role.p, preVote, reading)))
  {
    assert MemberQueuesOK(s.members[i]);
    MemberChange(s, i,
      PreVoteReplyNext(s, i, OnPreVoteResponse(s.members[i].ctx, s.members[i].role.p, preVote, reading)));
  }

  lemma VoteReplyQueues(s: State, i: Id, answer: Answer, r: VoteResult)
    requires QueueInv(s) && i in s.members && s.members[i].role.Campaigning?
    requires answer.response.memberId in s.members[i].role.c.score
    requires ElectFacts(s.members[i], answer.response, r, s.now)
    ensures QueueInv(VoteReplyNext(s, i, r))
  {
    var m := s.members[i];
    var c1 := RecordVote(m.ctx, m.role.c, answer.response);
    assert MemberQueuesOK(m);
    if answer.response.outcome.Promise? { MergedKeyed(m.role.c.pending, answer.response.outcome.uncommittedEntries); }
    match r
    case Waiting(_) => MemberChange(s, i, VoteReplyNext(s, i, r));
    case GivenUp(_) => MemberChange(s, i, VoteReplyNext(s, i, r));
    case Elected(step) =>
      WonQueues(m.ctx, c1, step, s.now);
      MemberChange(s, i, VoteReplyNext(s, i, r));
  }

  /** Every event, without assumption, keeps the queues in order. */
  lemma QueueStep(s: State, e: Event)
    requires QueueInv(s) && Enabled(s, e)
    ensures QueueInv(Next(s, e))
  {
    if e.PreVoteReply? {
      PreVoteQueues(s, e.i, e.preVote, e.reading);
    } else if e.VoteReply? {
      var m := s.members[e.i];
      VoteReplyFacts(m, e.answer, e.reading, e.tSends, s.now);
      VoteReplyQueues(s, e.i, e.answer, OnVoteResponse(m.ctx, m.role.c, e.answer.response, e.reading, e.tSends));
    } else if !e.Tick? && !e.Answered? {
      OtherQueueStep(s, e);
    }
  }

  lemma OtherQueueStep(s: State, e: Event)
    requires QueueInv(s) && Enabled(s, e)
    requires e.VoteAsked? || e.AcceptAsked? || Quiet(e) || Routine(e) || e.AcceptReply? || e.ClientWrite?
    ensures QueueInv(Next(s, e))
  {
    var m := s.members[e.i];
    assert MemberQueuesOK(m);
    if e.VoteAsked? || e.AcceptAsked? {
      RequestQueues(m, e, Next(s, e).members[e.i], s.now);
    } else if Quiet(e) || Routine(e) {
      TimerQueues(m, e, Next(s, e).members[e.i], s.now);
    } else if e.AcceptReply? {
      AcceptReplyQueues(m, e.ack.response, e.tSend, s.now);
    } else {
      WriteQueues(m, e.command, e.value, e.reading);
    }
    MemberChange(s, e.i, Next(s, e));
  }
}
