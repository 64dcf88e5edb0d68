/** Probe anchors: where a leader believes its followers to be, over whole runs. */
module ProbeAnchors {
  import opened Types
  import opened TrueTime
  import opened Wal
  import opened Views
  import opened FollowerRole
  import opened LeaderRole
  import opened CandidateRole
  import opened PreCandidateRole
  import opened StateMachine
  import opened Group
  import opened Facts
  import opened ElectionSafety
  import opened LogMatching

  // ----- One follower's progress -----

  ghost predicate ProgressOK(p: Progress, last: nat) {
    1 <= p.pos.nextSlot <= last + 1 && p.pos.sentSlot <= last
  }

  // A position in range has its anchor in a gapless log.
  lemma AnchorInRange(wal: Log, last: nat, p: Progress)
    requires TopIs(wal, last) && ProgressOK(p, last)
    ensures AnchorPresent(wal, p.pos) && Anchor(p.pos) <= last
  {}

  lemma NoteSentOK(wal: Log, last: nat, p: Progress, request: AcceptRequest, from: nat)
    requires Within(wal, last) && WellKeyed(wal) && ProgressOK(p, last) && request.entries == EntriesFrom(wal, from)
    ensures ProgressOK(NoteSent(p, request), last)
  {
    if request.entries != [] { LastListedIsTop(wal, from); }
  }

  lemma AcknowledgeOK(p: Progress, slot: nat, last: nat)
    requires ProgressOK(p, last) && slot <= last
    ensures ProgressOK(Acknowledge(p, slot), last)
  {}

  /** The probe after a rejection has its anchor exactly when it starts no later than just past the leader's log. */
  lemma ReprobeAnchorIff(wal: Log, last: nat, p: Progress, hint: ConflictHint)
    requires TopIs(wal, last) && ProgressOK(p, last)
    ensures AnchorPresent(wal, Reprobe(wal, p, hint).pos) <==> NextAfter(wal, hint) <= last + 1
  {}

  lemma ReprobeOK(wal: Log, last: nat, p: Progress, hint: ConflictHint)
    requires Within(wal, last) && ProgressOK(p, last) && hint.conflictFirstSlot >= 1
    requires AnchorPresent(wal, Reprobe(wal, p, hint).pos)
    ensures ProgressOK(Reprobe(wal, p, hint), last)
  {}

  /** A short-log rejection can be answered exactly when the follower's last slot is not past the leader's.
      Otherwise the leader finds no anchor for its next probe and panics. */
  lemma ShortLogAnswerableIff(leader: ContextView, p: Progress, follower: ContextView, request: AcceptRequest)
    requires TopIs(leader.wal, leader.lastLogSlot) && ProgressOK(p, leader.lastLogSlot)
    requires ShortLog(follower.wal, request)
    ensures var response := Judge(follower, request).response;
      && response.conflictHint.Some?
      && (AnchorPresent(leader.wal, Reprobe(leader.wal, p, response.conflictHint.value).pos)
          <==> follower.lastLogSlot <= leader.lastLogSlot)
  {
    var hint := Judge(follower, request).response.conflictHint.value;
    ReprobeAnchorIff(leader.wal, leader.lastLogSlot, p, hint);
  }

  /** A rejection for a mismatching term can always be answered when the anchor is in the leader's log. */
  lemma MismatchAnswerable(leader: ContextView, p: Progress, follower: ContextView, request: AcceptRequest)
    requires TopIs(leader.wal, leader.lastLogSlot) && ProgressOK(p, leader.lastLogSlot)
    requires TermMismatch(follower.wal, request) && request.prevLogSlot <= leader.lastLogSlot
    ensures var response := Judge(follower, request).response;
      && response.conflictHint.Some?
      && AnchorPresent(leader.wal, Reprobe(leader.wal, p, response.conflictHint.value).pos)
  {
    var hint := Judge(follower, request).response.conflictHint.value;
    ReprobeAnchorIff(leader.wal, leader.lastLogSlot, p, hint);
  }

  // The log of slots 1 to `top` whose first five a leader of term 1 wrote, and the rest one of term 2.
  function SecondTermLog(top: nat): Log {
    map s | 1 <= s <= top :: LogEntry(WriterTerm(s), s, "", 0)
  }

  function WriterTerm(slot: nat): nat { if slot <= 5 then 1 else 2 }

  // The leader of term 2 once its log has `top` slots.
  function SecondLeader(id: Id, peers: set<Id>, top: nat): ContextView {
    ContextView(id, peers, 2, None, None, if top > 5 then 2 else 1, top, 5, Above(SecondTermLog(top), 5),
                SecondTermLog(top))
  }

  // What it dispatches to a follower over time: nothing at first, then a batch of two writes, then one more write.
  function SecondRequest(leaderId: Id, t: Time, anchor: nat, entries: seq<LogEntry>): AcceptRequest {
    AcceptRequest(2, leaderId, anchor, WriterTerm(anchor), entries, 5, t, None)
  }

  const TWO_WRITES := [LogEntry(2, 6, "", 0), LogEntry(2, 7, "", 0)]
  const ONE_WRITE := [LogEntry(2, 8, "", 0)]

  // The position with which it starts, and the progress noted after each batch.
  const AT_START := LogPosition(0, 6, 0)

  function AfterTwo(t: Time): Progress { Progress(LogPosition(0, 6, 7), [InFlightBatch(t, 7)]) }

  function AfterThree(t: Time): Progress {
    Progress(LogPosition(0, 6, 8), [InFlightBatch(t, 7), InFlightBatch(t, 8)])
  }

  lemma SecondDispatches(id: Id, peers: set<Id>, t: Time)
    ensures AnchorPresent(SecondLeader(id, peers, 5).wal, AT_START)
    ensures AcceptFor(SecondLeader(id, peers, 5), AT_START, t, None) == SecondRequest(id, t, 5, [])
    ensures AnchorPresent(SecondLeader(id, peers, 7).wal, AT_START)
    ensures AcceptFor(SecondLeader(id, peers, 7), AT_START, t, None) == SecondRequest(id, t, 5, TWO_WRITES)
    ensures NoteSent(Progress(AT_START, []), SecondRequest(id, t, 5, TWO_WRITES)) == AfterTwo(t)
  {
    EntriesFromIsRun(SecondTermLog(5), 6, 5);
    EntriesFromIsRun(SecondTermLog(7), 6, 7);
  }

  lemma LastDispatch(id: Id, peers: set<Id>, t: Time)
    ensures AnchorPresent(SecondLeader(id, peers, 8).wal, AfterTwo(t).pos)
    ensures AcceptFor(SecondLeader(id, peers, 8), AfterTwo(t).pos, t, None) == SecondRequest(id, t, 7, ONE_WRITE)
    ensures NoteSent(AfterTwo(t), SecondRequest(id, t, 7, ONE_WRITE)) == AfterThree(t)
  {
    EntriesFromIsRun(SecondTermLog(8), 8, 8);
  }

  /** How a follower comes to promise too much: the first broadcast of term 2 cuts its log of nine entries of term 1 to
      the five that the new leader shares, but leaves its last slot at nine. The leader's batch of two writes is lost,
      and its batch of one more draws a hint beyond the eight slots of its log. The requests and the progress noted are
      as `SecondDispatches` and `LastDispatch` say. */
  lemma StaleLastSlotCanPanic(id: Id, leaderId: Id, peers: set<Id>, t: Time)
    ensures
      var logs: map<nat, Log> := map[1 := OneTermLog(1, 9), 2 := SecondTermLog(8)];
      var before := ContextView(id, peers, 2, None, None, 1, 9, 5, Above(OneTermLog(1, 9), 5), OneTermLog(1, 9));
      var first, probe := SecondRequest(leaderId, t, 5, []), SecondRequest(leaderId, t, 7, ONE_WRITE);
      var follower := Judge(before, first).ctx;
      var hint := Judge(follower, probe).response.conflictHint;
      && ContextOK(before, logs) && Matched(SecondTermLog(8), logs)
      && SentOK(Sent(id, first, SecondLeader(leaderId, peers, 5), 0), logs)
      && SentOK(Sent(id, probe, SecondLeader(leaderId, peers, 8), 2), logs)
      && Judge(before, first).response.success && follower.wal == OneTermLog(1, 5) && follower.lastLogSlot == 9
      && hint == Some(ConflictHint(0, 10))
      && !AnchorPresent(SecondTermLog(8), Reprobe(SecondTermLog(8), AfterThree(t), hint.value).pos)
  {
    var before := ContextView(id, peers, 2, None, None, 1, 9, 5, Above(OneTermLog(1, 9), 5), OneTermLog(1, 9));
    HeartbeatCuts(before, SecondRequest(leaderId, t, 5, []));
    HintPanics(Judge(before, SecondRequest(leaderId, t, 5, [])).ctx, leaderId, t);
    StaleLogsMatch();
    SecondSentOK(id, leaderId, peers, t, 5, 5, []);
    SecondSentOK(id, leaderId, peers, t, 8, 7, ONE_WRITE);
  }

  lemma HintPanics(follower: ContextView, leaderId: Id, t: Time)
    requires follower.wal == OneTermLog(1, 5) && follower.lastLogSlot == 9
    ensures var hint := Judge(follower, SecondRequest(leaderId, t, 7, ONE_WRITE)).response.conflictHint;
      && hint == Some(ConflictHint(0, 10))
      && !AnchorPresent(SecondTermLog(8), Reprobe(SecondTermLog(8), AfterThree(t), hint.value).pos)
  {}

  lemma SecondSentOK(id: Id, leaderId: Id, peers: set<Id>, t: Time, top: nat, anchor: nat, entries: seq<LogEntry>)
    requires 5 <= anchor <= top <= 8 && entries == if top == 8 && anchor == 7 then ONE_WRITE else []
    requires top == anchor || (top == 8 && anchor == 7)
    ensures SentOK(Sent(id, SecondRequest(leaderId, t, anchor, entries), SecondLeader(leaderId, peers, top), 0),
                   map[1 := OneTermLog(1, 9), 2 := SecondTermLog(8)])
  {
    TopOfTopIs(SecondTermLog(top), top);
    EntriesFromIsRun(SecondTermLog(top), anchor + 1, top);
  }

  lemma HeartbeatCuts(before: ContextView, heartbeat: AcceptRequest)
    requires before.wal == OneTermLog(1, 9) && before.committedSlot == 5 && heartbeat.minNextTs.None?
    requires heartbeat.prevLogSlot == 5 && heartbeat.prevLogTerm == 1 && heartbeat.entries == []
    requires heartbeat.leaderCommitSlot == 5
    ensures Judge(before, heartbeat).response.success
    ensures Judge(before, heartbeat).ctx == before.(wal := OneTermLog(1, 5))
  {
    assert AppendAll(TruncateFrom(before.wal, 6), []) == OneTermLog(1, 5);
  }

  lemma StaleLogsMatch()
    ensures var logs := map[1 := OneTermLog(1, 9), 2 := SecondTermLog(8)];
      Matched(OneTermLog(1, 9), logs) && Matched(SecondTermLog(8), logs)
  {}

  // ----- The invariant -----

  ghost predicate RoleProgressOK(m: Member) {
    match m.role
    case Following(_) => true
    case PreCampaigning(_) => true
    case Campaigning(c) =>
      forall j :: j in c.score ==> c.score[j].nextSlot == m.ctx.lastLogSlot + 1 && c.score[j].sentSlot == 0
    case Leading(l) => forall j :: j in l.score ==> ProgressOK(l.score[j], m.ctx.lastLogSlot)
  }

  // The log of the term's leader goes as far as the slot.
  ghost predicate Reached(logs: map<nat, Log>, term: nat, slot: int) { term in logs && slot <= Top(logs[term]) }

  // A success or a mismatch never points past the log of the term; a hint of a short log may.
  ghost predicate AckSound(response: AcceptResponse, logs: map<nat, Log>) {
    && (response.success ==> response.conflictHint.None? && Reached(logs, response.term, response.lastWrittenSlot))
    && (response.conflictHint.Some? ==>
          && response.term in logs
          && response.conflictHint.value.conflictFirstSlot >= 1
          && (response.conflictHint.value.conflictTerm != 0 ==> HintReached(response, logs)))
  }

  // A hint asks for nothing beyond the slot that follows the log of the term.
  ghost predicate HintReached(response: AcceptResponse, logs: map<nat, Log>) {
    response.conflictHint.Some? ==> Reached(logs, response.term, response.conflictHint.value.conflictFirstSlot - 1)
  }

  ghost predicate AckFrom(ack: Ack, members: map<Id, Member>) {
    Confirms(ack.response) ==> ack.response.memberId in members && ack.response.memberId != ack.to
  }

  ghost predicate ProgressInv(s: State) {
    && (forall i :: i in s.members ==> RoleProgressOK(s.members[i]))
    && (forall y :: y in s.sents ==> y.to != y.request.leaderId)
    && (forall ack :: ack in s.acks ==>
          AckSound(ack.response, s.logs) && AckFrom(ack, s.members))
  }

  /** A leader whose log has no gap never finds a follower's anchor missing when it broadcasts. A response it can handle
      exactly when it need not act on it, or the hint in it stays within its log. */
  lemma AnchorsAlwaysPresent(s: State, i: Id, ack: Ack)
    requires ElectionInv(s) && LogInv(s) && ProgressInv(s) && i in s.members && s.members[i].role.Leading?
    requires TopIs(s.members[i].ctx.wal, s.members[i].ctx.lastLogSlot)
    ensures forall j :: j in s.members[i].role.l.score ==>
      AnchorPresent(s.members[i].ctx.wal, s.members[i].role.l.score[j].pos)
    ensures ack in s.acks && ack.to == i && ack.response.term <= s.members[i].ctx.term ==>
      (CanHandle(s.members[i].ctx, s.members[i].role.l, ack.response) <==>
         ack.response.term < s.members[i].ctx.term || HintReached(ack.response, s.logs))
  {
    var m := s.members[i];
    assert MemberLogOK(m, s.logs) && RoleProgressOK(m);
    assert MemberOK(m, i, s.members.Keys, s.ballots, s.wins, s.now);
    TopOfTopIs(m.ctx.wal, m.ctx.lastLogSlot);
    forall j | j in m.role.l.score ensures AnchorPresent(m.ctx.wal, m.role.l.score[j].pos) {
      AnchorInRange(m.ctx.wal, m.ctx.lastLogSlot, m.role.l.score[j]);
    }
    if ack in s.acks && ack.to == i && ack.response.term == m.ctx.term && Confirms(ack.response) {
      assert AckFrom(ack, s.members) && AckSound(ack.response, s.logs);
      assert ack.response.memberId in m.role.l.score;
      if ack.response.conflictHint.Some? {
        ReprobeAnchorIff(m.ctx.wal, m.ctx.lastLogSlot, m.role.l.score[ack.response.memberId],
                         ack.response.conflictHint.value);
      }
    }
  }

  // ----- Preservation -----

  lemma AckSoundMono(response: AcceptResponse, logs: map<nat, Log>, logs': map<nat, Log>)
    requires AckSound(response, logs) && Grows(logs, logs')
    ensures AckSound(response, logs')
  {
    if response.term in logs { TopGrows(response.term, logs, logs'); }
  }

  lemma ProgressFrame(s: State, i: Id, s': State)
    requires ProgressInv(s) && i in s.members && i in s'.members
    requires s'.members == s.members[i := s'.members[i]] && Grows(s.logs, s'.logs)
    requires RoleProgressOK(s'.members[i])
    requires forall y :: y in s'.sents - s.sents ==> y.to != y.request.leaderId
    requires forall ack :: ack in s'.acks - s.acks ==>
      AckSound(ack.response, s'.logs) && AckFrom(ack, s.members)
    ensures ProgressInv(s')
  {
    forall ack | ack in s'.acks
      ensures AckSound(ack.response, s'.logs) && AckFrom(ack, s'.members)
    {
      if ack in s.acks { AckSoundMono(ack.response, s.logs, s'.logs); }
    }
  }

  /** A follower's answer is sound, and its hint stays within the log of the request's term exactly when, if it misses
      the anchor, its last slot does. */
  lemma JudgeBoundedIff(ctx: ContextView, sent: Sent, logs: map<nat, Log>)
    requires Matched(ctx.wal, logs) && SentOK(sent, logs) && Matched(sent.origin.wal, logs)
    requires ctx.term == sent.request.term
    ensures AckSound(Judge(ctx, sent.request).response, logs)
    ensures HintReached(Judge(ctx, sent.request).response, logs) <==>
      (ShortLog(ctx.wal, sent.request) ==> Reached(logs, sent.request.term, ctx.lastLogSlot))
  {
    JudgeCopies(ctx, sent, logs);
    var r := Judge(ctx, sent.request).response;
    if sent.origin.wal != map[] { assert SentTop(sent) in logs[sent.request.term]; }
    if TermMismatch(ctx.wal, sent.request) {
      assert 1 <= r.conflictHint.value.conflictFirstSlot <= sent.request.prevLogSlot;
    }
  }

  lemma AcceptProgress(s: State, i: Id, sent: Sent, r: AcceptOutcomeAt)
    requires LogInv(s) && ProgressInv(s) && i in s.members && sent in s.sents && sent.to == i
    requires s.members[i].ctx.memberId == i && AcceptFacts(s.members[i], sent.request, r, s.now)
    ensures ProgressInv(AcceptAskedNext(s, i, sent, r))
  {
    if r.response.Some? { AnswerSound(s, i, sent, r); }
    assert RoleProgressOK(s.members[i]);
    if !r.m.role.Following? { SameRoleProgress(s.members[i], r, sent.request, s.now); }
    AnswerFrame(s, i, sent, r, AcceptAskedNext(s, i, sent, r));
  }

  lemma AnswerFrame(s: State, i: Id, sent: Sent, r: AcceptOutcomeAt, s': State)
    requires ProgressInv(s) && i in s.members && sent in s.sents && sent.to == i && RoleProgressOK(r.m)
    requires r.response.Some? ==> AckSound(r.response.value, s.logs)
    requires r.response.Some? && Confirms(r.response.value) ==> r.response.value.memberId == i
    requires s' == AcceptAskedNext(s, i, sent, r)
    ensures ProgressInv(s')
  {
    GrowsSelf(s.logs);
    ProgressFrame(s, i, s');
  }

  lemma AnswerSound(s: State, i: Id, sent: Sent, r: AcceptOutcomeAt)
    requires LogInv(s) && i in s.members && sent in s.sents && r.response.Some?
    requires AcceptFacts(s.members[i], sent.request, r, s.now)
    ensures AckSound(r.response.value, s.logs)
    ensures Confirms(r.response.value) ==> r.response.value.memberId == s.members[i].ctx.memberId
  {
    assert MemberLogOK(s.members[i], s.logs) && SentOK(sent, s.logs);
    SentMatched(s, sent);
    JudgeBoundedIff(s.members[i].ctx.(term := sent.request.term), sent, s.logs);
  }

  // A role is kept only when the request was passed over.
  lemma SameRoleProgress(m: Member, r: AcceptOutcomeAt, request: AcceptRequest, now: Time)
    requires RoleProgressOK(m) && AcceptFacts(m, request, r, now) && !r.m.role.Following?
    ensures RoleProgressOK(r.m)
  {}

  lemma QuietProgress(s: State, i: Id, m': Member, s': State)
    requires ProgressInv(s) && i in s.members && m'.ctx.lastLogSlot == s.members[i].ctx.lastLogSlot
    requires m'.role.Following? || m'.role.PreCampaigning? || m'.role == s.members[i].role
    requires s'.members == s.members[i := m'] && s'.logs == s.logs && s'.sents == s.sents && s'.acks == s.acks
    ensures ProgressInv(s')
  {
    assert RoleProgressOK(s.members[i]);
    ProgressFrame(s, i, s');
  }

  lemma PreVoteProgress(s: State, i: Id, r: PreVoteResult)
    requires ProgressInv(s) && i in s.members && s.members[i].role.PreCampaigning?
    requires PreVoteFacts(s.members[i], r, s.now)
    ensures ProgressInv(PreVoteReplyNext(s, i, r))
  {
    ProgressFrame(s, i, PreVoteReplyNext(s, i, r));
  }

  lemma PostedElsewhere(s: State, i: Id, step: LeaderStep)
    requires AllWellPosted(step, s.now) && step.ctx.memberId == i && i !in step.l.score
    ensures forall y :: y in Posted(step.requests, step.ctx, s.sendNo) ==> y.to != y.request.leaderId
  {}

  lemma RoutineProgress(s: State, i: Id, step: LeaderStep)
    requires ElectionInv(s) && LogInv(s) && ProgressInv(s) && i in s.members
    requires RoutineFacts(s.members[i], step, s.now)
    ensures ProgressInv(Post(s, i, step))
  {
    var m := s.members[i];
    assert MemberLogOK(m, s.logs) && RoleProgressOK(m);
    assert MemberOK(m, i, s.members.Keys, s.ballots, s.wins, s.now);
    forall j | j in step.l.score ensures ProgressOK(step.l.score[j], step.ctx.lastLogSlot) {
      ProgressMoveOK(m.ctx, m.role.l.score[j], step.l.score[j]);
    }
    PostedElsewhere(s, i, step);
    ProgressFrame(s, i, Post(s, i, step));
  }

  lemma ProgressMoveOK(ctx: ContextView, p: Progress, p': Progress)
    requires Within(ctx.wal, ctx.lastLogSlot) && WellKeyed(ctx.wal) && ProgressOK(p, ctx.lastLogSlot)
    requires ProgressMove(ctx, p, p')
    ensures ProgressOK(p', ctx.lastLogSlot)
  {
    if p' != p && p' != ClearBatches(p) {
      var request: AcceptRequest :|
        p' == NoteSent(p, request) && request.entries == EntriesFrom(ctx.wal, Anchor(p.pos) + 1);
      NoteSentOK(ctx.wal, ctx.lastLogSlot, p, request, Anchor(p.pos) + 1);
    }
  }

  lemma WriteProgress(s: State, i: Id, command: nat, value: string, reading: TimeInterval)
    requires LogInv(s) && ProgressInv(s) && ClientWriteEnabled(s, i, command, reading)
    ensures var m := s.members[i];
      ProgressInv(
        ClientWriteNext(s, i, command, OnClientWrite(m.ctx, m.role.l, command, value, reading)))
  {
    var m := s.members[i];
    var s' := ClientWriteNext(s, i, command, OnClientWrite(m.ctx, m.role.l, command, value, reading));
    assert MemberLogOK(m, s.logs) && RoleProgressOK(m);
    AppendMatched(m.ctx.wal, m.ctx.lastLogSlot, LogEntry(m.ctx.term, m.ctx.lastLogSlot + 1, value, reading.latest),
                  s.logs, s'.logs);
    ProgressFrame(s, i, s');
  }

  // ----- Accept responses -----

  // Each follower's progress after a response: as before, acknowledged, or probing anew.
  ghost predicate ReplyMove(ctx: ContextView, response: AcceptResponse, p: Progress, p': Progress) {
    || p' == p
    || (response.success && response.term == ctx.term && p' == Acknowledge(p, response.lastWrittenSlot))
    || (response.conflictHint.Some? && response.term == ctx.term
        && AnchorPresent(ctx.wal, Reprobe(ctx.wal, p, response.conflictHint.value).pos)
        && exists request: AcceptRequest ::
             && request.entries == EntriesFrom(ctx.wal, Anchor(Reprobe(ctx.wal, p, response.conflictHint.value).pos) + 1)
             && p' == NoteSent(Reprobe(ctx.wal, p, response.conflictHint.value), request))
  }

  ghost predicate ReplyMoves(ctx: ContextView, l: LeaderView, response: AcceptResponse, r: LeaderStep) {
    r.l.score.Keys == l.score.Keys
    && forall j :: j in l.score ==> ReplyMove(ctx, response, l.score[j], r.l.score[j])
  }

  lemma SuccessMoves(ctx: ContextView, l: LeaderView, response: AcceptResponse)
    requires ctx.peerIds != {} && response.memberId in l.score && response.success && response.term == ctx.term
    ensures ReplyMoves(ctx, l, response, OnSuccess(ctx, l, response))
  {}

  lemma ConflictMoves(ctx: ContextView, l: LeaderView, response: AcceptResponse, tSend: Time)
    requires response.conflictHint.Some? && response.memberId in l.score && response.term == ctx.term
    requires AnchorPresent(ctx.wal, Reprobe(ctx.wal, l.score[response.memberId], response.conflictHint.value).pos)
    ensures ReplyMoves(ctx, l, response, OnConflict(ctx, l, response, tSend))
  {
    var j := response.memberId;
    var p := Reprobe(ctx.wal, l.score[j], response.conflictHint.value);
    var request := AcceptFor(ctx, p.pos, tSend, None);
    assert request.entries == EntriesFrom(ctx.wal, Anchor(p.pos) + 1);
    assert ReplyMove(ctx, response, l.score[j], NoteSent(p, request));
  }

  lemma AcceptReplyMoves(m: Member, response: AcceptResponse, tSend: Time)
    requires m.role.Leading? && CanHandle(m.ctx, m.role.l, response) && response.term <= m.ctx.term
    ensures ReplyMoves(m.ctx, m.role.l, response, OnAcceptResponse(m.ctx, m.role.l, response, tSend))
  {
    if !Disregards(m.ctx, response) {
      var contacts := NoteContact(m.role.l.lastContact, response);
      var ctx1 := m.ctx.(lease := RenewedLease(m.ctx, contacts));
      var l1 := m.role.l.(lastContact := contacts);
      if response.success { SuccessMoves(ctx1, l1, response); } else { ConflictMoves(ctx1, l1, response, tSend); }
      SameReplyMoves(ctx1, m.ctx, l1, m.role.l, response, OnAcceptResponse(m.ctx, m.role.l, response, tSend));
    }
  }

  // Leases and contact times play no part in it.
  lemma SameReplyMoves(a: ContextView, b: ContextView, la: LeaderView, lb: LeaderView, response: AcceptResponse,
                       r: LeaderStep)
    requires ReplyMoves(a, la, response, r) && a.wal == b.wal && a.term == b.term && la.score == lb.score
    ensures ReplyMoves(b, lb, response, r)
  {
    forall j | j in lb.score ensures ReplyMove(b, response, lb.score[j], r.l.score[j]) {
      assert ReplyMove(a, response, la.score[j], r.l.score[j]);
    }
  }

  lemma ReplyMoveOK(ctx: ContextView, response: AcceptResponse, p: Progress, p': Progress, logs: map<nat, Log>)
    requires Within(ctx.wal, ctx.lastLogSlot) && WellKeyed(ctx.wal) && ProgressOK(p, ctx.lastLogSlot)
    requires ctx.term in logs && ctx.wal == logs[ctx.term]
    requires AckSound(response, logs) && ReplyMove(ctx, response, p, p')
    ensures ProgressOK(p', ctx.lastLogSlot)
  {
    if p' == p {
    } else if response.success && response.term == ctx.term && p' == Acknowledge(p, response.lastWrittenSlot) {
      AcknowledgeOK(p, response.lastWrittenSlot, ctx.lastLogSlot);
    } else {
      var q := Reprobe(ctx.wal, p, response.conflictHint.value);
      var request: AcceptRequest :|
        request.entries == EntriesFrom(ctx.wal, Anchor(q.pos) + 1) && p' == NoteSent(q, request);
      ReprobeOK(ctx.wal, ctx.lastLogSlot, p, response.conflictHint.value);
      NoteSentOK(ctx.wal, ctx.lastLogSlot, q, request, Anchor(q.pos) + 1);
    }
  }

  lemma AcceptReplyProgress(s: State, i: Id, ack: Ack, step: LeaderStep)
    requires ElectionInv(s) && LogInv(s) && ProgressInv(s) && i in s.members && s.members[i].role.Leading?
    requires ack in s.acks && AckFacts(s.members[i], ack.response, step, s.now)
    requires ReplyMoves(s.members[i].ctx, s.members[i].role.l, ack.response, step)
    ensures ProgressInv(AcceptReplyNext(s, i, step))
  {
    var m := s.members[i];
    assert MemberLogOK(m, s.logs) && RoleProgressOK(m) && AckSound(ack.response, s.logs);
    assert MemberOK(m, i, s.members.Keys, s.ballots, s.wins, s.now);
    assert forall j :: j in step.l.score ==> ProgressOK(step.l.score[j], step.ctx.lastLogSlot) by {
      forall j | j in step.l.score ensures ProgressOK(step.l.score[j], step.ctx.lastLogSlot) {
        ReplyMoveOK(m.ctx, ack.response, m.role.l.score[j], step.l.score[j], s.logs);
      }
    }
    PostedElsewhere(s, i, step);
    ProgressFrame(s, i, AcceptReplyNext(s, i, step));
  }

  // ----- Elections -----

  // The winner points every follower just past its own log.
  lemma BoardPointsPast(ctx: ContextView, c1: CandidateView)
    requires c1.dispatched.Some?
    requires forall j :: j in c1.score ==> c1.score[j].nextSlot == ctx.lastLogSlot + 1 && c1.score[j].sentSlot == 0
    ensures forall j :: j in ElectedBoard(ctx, c1).score ==>
      ProgressOK(ElectedBoard(ctx, c1).score[j], ElectedContext(ctx, c1).lastLogSlot)
  {
    assert ElectedContext(ctx, c1).uncommitted == map[] ==> ElectedContext(ctx, c1).lastLogSlot == ctx.lastLogSlot;
  }

  lemma FirstBroadcastOK(ctx: ContextView, c1: CandidateView, step: LeaderStep, now: Time)
    requires ElectedFacts(ctx, c1, step, now) && WellKeyed(step.ctx.wal) && Within(step.ctx.wal, step.ctx.lastLogSlot)
    requires forall j :: j in c1.score ==> c1.score[j].nextSlot == ctx.lastLogSlot + 1 && c1.score[j].sentSlot == 0
    ensures forall j :: j in step.l.score ==> ProgressOK(step.l.score[j], step.ctx.lastLogSlot)
  {
    BoardPointsPast(ctx, c1);
    assert ElectedBoard(ctx, c1).score.Keys == c1.score.Keys by { BoardKeys(ctx, c1); }
    forall j | j in step.l.score ensures ProgressOK(step.l.score[j], step.ctx.lastLogSlot) {
      PostedSendOK(step.ctx, ElectedBoard(ctx, c1).score[j], step.requests[j], now);
    }
  }

  lemma PostedSendOK(ctx: ContextView, p: Progress, request: AcceptRequest, now: Time)
    requires Within(ctx.wal, ctx.lastLogSlot) && WellKeyed(ctx.wal) && ProgressOK(p, ctx.lastLogSlot)
    requires WellPosted(ctx, request, now)
    ensures ProgressOK(NoteSent(p, request), ctx.lastLogSlot)
  {
    NoteSentOK(ctx.wal, ctx.lastLogSlot, p, request, request.prevLogSlot + 1);
  }

  lemma ElectedProgress(s: State, i: Id, step: LeaderStep)
    requires ProgressInv(s) && i in s.members && step.ctx.memberId == i && i !in step.l.score
    requires AllWellPosted(step, s.now)
    requires forall j :: j in step.l.score ==> ProgressOK(step.l.score[j], step.ctx.lastLogSlot)
    requires Grows(s.logs, s.logs[step.ctx.term := step.ctx.wal])
    ensures ProgressInv(VoteReplyNext(s, i, Elected(step)))
  {
    PostedElsewhere(s, i, step);
    ProgressFrame(s, i, VoteReplyNext(s, i, Elected(step)));
  }

  lemma VoteReplyProgress(s: State, i: Id, answer: Answer, r: VoteResult)
    requires ElectionInv(s) && LogInv(s) && ProgressInv(s) && i in s.members && s.members[i].role.Campaigning?
    requires answer.response.memberId in s.members[i].role.c.score
    requires ElectFacts(s.members[i], answer.response, r, s.now)
    requires ElectionInv(VoteReplyNext(s, i, r)) && LogInv(VoteReplyNext(s, i, r))
    ensures ProgressInv(VoteReplyNext(s, i, r))
  {
    var m := s.members[i];
    var s' := VoteReplyNext(s, i, r);
    assert RoleProgressOK(m);
    assert MemberOK(m, i, s.members.Keys, s.ballots, s.wins, s.now);
    RecordedSeeds(m.ctx, m.role.c, answer.response);
    match r
    case Waiting(c) => CampaignProgress(s, i, Member(m.ctx, Campaigning(c)), s');
    case GivenUp(ctx) => CampaignProgress(s, i, Member(ctx, Following(FRESH_FOLLOWER)), s');
    case Elected(step) =>
      WonLogs(s, i, step, s');
      WinProgress(s, i, RecordVote(m.ctx, m.role.c, answer.response), step);
  }

  // The winner's term had no log before, and the winner's log is well keyed and ends by its last slot.
  lemma WonLogs(s: State, i: Id, step: LeaderStep, s': State)
    requires ElectionInv(s) && LogInv(s) && i in s.members && s.members[i].role.Campaigning?
    requires step.ctx.term == s.members[i].ctx.term && s' == VoteReplyNext(s, i, Elected(step))
    requires ElectionInv(s') && LogInv(s')
    ensures step.ctx.term !in s.logs && WellKeyed(step.ctx.wal) && Within(step.ctx.wal, step.ctx.lastLogSlot)
  {
    FreshTerm(s, i, s');
    assert MemberLogOK(s'.members[i], s'.logs);
  }

  // A recorded vote seeds match slots only.
  lemma RecordedSeeds(ctx: ContextView, c: CandidateView, response: VoteResponse)
    requires response.memberId in c.score
    ensures var c1 := RecordVote(ctx, c, response);
      && c1.score.Keys == c.score.Keys
      && forall j :: j in c.score ==>
           c1.score[j].nextSlot == c.score[j].nextSlot && c1.score[j].sentSlot == c.score[j].sentSlot
  {}

  lemma CampaignProgress(s: State, i: Id, m': Member, s': State)
    requires ProgressInv(s) && i in s.members && RoleProgressOK(m')
    requires s' == Put(s, i, m')
    ensures ProgressInv(s')
  {
    ProgressFrame(s, i, s');
  }

  lemma WinProgress(s: State, i: Id, c1: CandidateView, step: LeaderStep)
    requires ProgressInv(s) && i in s.members && step.ctx.term !in s.logs && WellKeyed(step.ctx.wal)
    requires s.members[i].ctx.memberId == i && i !in c1.score && Within(step.ctx.wal, step.ctx.lastLogSlot)
    requires ElectedFacts(s.members[i].ctx, c1, step, s.now)
    requires forall j :: j in c1.score ==>
      c1.score[j].nextSlot == s.members[i].ctx.lastLogSlot + 1 && c1.score[j].sentSlot == 0
    ensures ProgressInv(VoteReplyNext(s, i, Elected(step)))
  {
    FirstBroadcastOK(s.members[i].ctx, c1, step, s.now);
    ElectedProgress(s, i, step);
  }

  // ----- Every event -----

  /** Every event, without assumption, keeps the invariant. */
  lemma ProgressStep(s: State, e: Event)
    requires ElectionInv(s) && LogInv(s) && ProgressInv(s) && Enabled(s, e)
    ensures ProgressInv(Next(s, e))
  {
    ElectionStep(s, e);
    LogStep(s, e);
    if e.PreVoteReply? || e.VoteReply? { CampaignProgressStep(s, e); } else { OtherProgressStep(s, e); }
  }

  lemma CampaignProgressStep(s: State, e: Event)
    requires ElectionInv(s) && LogInv(s) && ProgressInv(s) && Enabled(s, e)
    requires ElectionInv(Next(s, e)) && LogInv(Next(s, e)) && (e.PreVoteReply? || e.VoteReply?)
    ensures ProgressInv(Next(s, e))
  {
    var m := s.members[e.i];
    assert MemberOK(m, e.i, s.members.Keys, s.ballots, s.wins, s.now);
    if e.PreVoteReply? {
      PreVoteReplyFacts(m, e.preVote, e.reading, s.now);
      PreVoteProgress(s, e.i, OnPreVoteResponse(m.ctx, m.role.p, e.preVote, e.reading));
    } else {
      VoteReplyFacts(m, e.answer, e.reading, e.tSends, s.now);
      VoteReplyProgress(s, e.i, e.answer, OnVoteResponse(m.ctx, m.role.c, e.answer.response, e.reading, e.tSends));
    }
  }

  lemma OtherProgressStep(s: State, e: Event)
    requires ElectionInv(s) && LogInv(s) && ProgressInv(s) && Enabled(s, e)
    requires !e.PreVoteReply? && !e.VoteReply?
    ensures ProgressInv(Next(s, e))
  {
    if e.VoteAsked? || e.AcceptAsked? {
      RequestProgressStep(s, e);
    } else if Quiet(e) || Routine(e) {
      TimerProgressStep(s, e);
    } else if e.AcceptReply? {
      var m := s.members[e.i];
      AcceptReplyFacts(m, e.ack.response, e.tSend, s.now);
      AcceptReplyMoves(m, e.ack.response, e.tSend);
      AcceptReplyProgress(s, e.i, e.ack, OnAcceptResponse(m.ctx, m.role.l, e.ack.response, e.tSend));
    } else if e.ClientWrite? {
      WriteProgress(s, e.i, e.command, e.value, e.reading);
    } else {
      assert forall i :: i in s.members ==> RoleProgressOK(s.members[i]);
    }
  }

  lemma RequestProgressStep(s: State, e: Event)
    requires ElectionInv(s) && LogInv(s) && ProgressInv(s) && Enabled(s, e)
    requires e.VoteAsked? || e.AcceptAsked?
    ensures ProgressInv(Next(s, e))
  {
    var m := s.members[e.i];
    if e.VoteAsked? {
      VoteRequestFacts(m, e.ask.request, e.roleCheck, e.check, e.extend, s.now);
      QuietProgress(s, e.i, Next(s, e).members[e.i], Next(s, e));
    } else {
      assert MemberOK(m, e.i, s.members.Keys, s.ballots, s.wins, s.now);
      AcceptRequestFacts(m, e.sent.request, e.roleCheck, e.check, e.extend, s.now);
      AcceptProgress(s, e.i, e.sent, ProcessAcceptRequest(m, e.sent.request, e.roleCheck, e.check, e.extend));
    }
  }

  lemma TimerProgressStep(s: State, e: Event)
    requires ElectionInv(s) && LogInv(s) && ProgressInv(s) && Enabled(s, e) && (Quiet(e) || Routine(e))
    ensures ProgressInv(Next(s, e))
  {
    if Quiet(e) {
      var m' := QuietMember(s.members[e.i], e, s.now);
      QuietMemberFacts(s.members[e.i], e, s.now);
      QuietProgress(s, e.i, m', Put(s, e.i, m'));
    } else {
      RoutineStepFacts(s.members[e.i], e, s.now);
      RoutineProgress(s, e.i, RoutineStep(s.members[e.i], e, s.now));
    }
  }
}
