/** A run of two members in which one is elected, accepts two writes, and replicates, commits and answers the first of
    them. It meets every assumption that the results about runs make, so none of them holds for want of a run. */
module Scenario {
  import opened Types
  import opened TrueTime
  import opened Wal
  import opened Quorums
  import opened Views
  import opened FollowerRole
  import opened LeaderRole
  import opened CandidateRole
  import opened PreCandidateRole
  import opened StateMachine
  import opened Group
  import opened Durability
  import opened ResponseHandling
  import opened Takeovers
  import opened Runs

  const NOW: Time := 100_000 * MILLISECOND
  const READING := TimeInterval(NOW, NOW)
  const LATER := TimeInterval(NOW + 1, NOW + 1)
  const SEND_TIMES: map<Id, Time> := map[1 := NOW]

  const LEADER: ContextView := ContextView(0, {1}, 0, None, Some(UNIX_EPOCH), 0, 0, 0, map[], map[])
  const OTHER: ContextView := ContextView(1, {0}, 0, None, Some(UNIX_EPOCH), 0, 0, 0, map[], map[])
  const ENTRY := LogEntry(1, 1, "x", NOW)
  const ONE: Log := map[1 := ENTRY]

  const GRANT := PreVoteResponse(1, 0, true)
  const ASK := Ask(VoteRequest(0, 1, 0, 0), NOW)
  const PROMISED := VoteResponse(1, 0, Promise(0, 0, []))
  const ANSWER := Answer(ASK, PROMISED, NOW)

  // The members at the stages of the run.
  const CAMPAIGN := CandidateView(map[1 := None], map[1 := LogPosition(0, 1, 0)], Some(NOW), map[])
  const CANDIDATE := Member(LEADER.(term := 1), Campaigning(CAMPAIGN))
  const VOTER := Member(OTHER.(term := 1, lease := Some(NOW + LEASE_LENGTH)),
                        Following(FollowerView(None, Some(VoteRecord(1, 0)))))
  const WINNER := LEADER.(term := 1, lease := Some(NOW + LEASE_LENGTH))
  const FRESH_BOARD := LeaderView(map[1 := Progress(LogPosition(0, 1, 0), [])], map[1 := UNIX_EPOCH], map[], 0)
  const WRITER := WINNER.(wal := ONE, uncommitted := ONE, lastLogSlot := 1, lastLogTerm := 1)
  const PENDING: map<nat, PendingWrite> := map[1 := PendingWrite(NOW, 7)]
  const SENT_BOARD := LeaderView(
    map[1 := Progress(LogPosition(0, 1, 1), [InFlightBatch(NOW, 1)])], map[1 := UNIX_EPOCH], PENDING, 0)
  const SECOND := LogEntry(1, 2, "y", NOW)
  const TWO: Log := map[1 := ENTRY, 2 := SECOND]
  const BUSY := WRITER.(wal := TWO, uncommitted := TWO, lastLogSlot := 2)
  const BOTH_PENDING: map<nat, PendingWrite> := map[1 := PendingWrite(NOW, 7), 2 := PendingWrite(NOW, 8)]
  const BUSY_BOARD := SENT_BOARD.(inFlight := BOTH_PENDING, pendingWrites := 1)
  const REQUEST := AcceptRequest(1, 0, 0, 0, [ENTRY], 0, NOW, None)
  const RESPONSE := AcceptResponse(1, 1, true, 1, None, NOW)

  // ----- The events, one by one -----

  lemma Countdown(s: State)
    requires Initial(s) && s.now == NOW && s.members.Keys == {0, 1}
    ensures Enabled(s, ElectionCountdown(0, READING))
    ensures Next(s, ElectionCountdown(0, READING))
      == s.(members := s.members[0 := Member(LEADER, PreCampaigning(PreCandidateView(map[1 := None])))])
  {
    assert InitialMember(s.members[0], 0, s.members.Keys);
    assert {0, 1} - {0} == {1};
    assert NewPreCandidate(LEADER) == PreCandidateView(map[1 := None]);
  }

  lemma PreVote(s: State)
    requires 0 in s.members && s.now == NOW
    requires s.members[0] == Member(LEADER, PreCampaigning(PreCandidateView(map[1 := None])))
    ensures Enabled(s, PreVoteReply(0, GRANT, READING))
    ensures var s' := Next(s, PreVoteReply(0, GRANT, READING));
      s' == s.(members := s.members[0 := CANDIDATE], asks := s.asks + {ASK}, ballots := s'.ballots)
  {
    var board: map<Id, Option<PreVoteResponse>> := map[1 := Some(GRANT)];
    assert map[1 := None][1 := Some(GRANT)] == board;
    assert Granters(board) == {1};
    assert HasPreVoteQuorum(board);
    assert NewCandidate(LEADER).(dispatched := Some(NOW)) == CAMPAIGN;
  }

  lemma Vote(s: State)
    requires 1 in s.members && s.members[1] == Member(OTHER, Following(FRESH_FOLLOWER)) && s.now == NOW
    requires ASK in s.asks
    ensures Enabled(s, VoteAsked(1, ASK, READING, READING, READING))
    ensures var s' := Next(s, VoteAsked(1, ASK, READING, READING, READING));
      s' == s.(members := s.members[1 := VOTER], answers := s.answers + {ANSWER}, ballots := s'.ballots)
  {
    assert OTHER.uncommitted == map[];
    assert EntriesFrom(OTHER.uncommitted, 0) == [];
    assert ProcessVoteRequest(s.members[1], ASK.request, READING, READING, READING) == VoteOutcomeAt(VOTER, PROMISED);
  }

  // The winner's campaign, once the promise is recorded.
  const TALLY := CAMPAIGN.(votes := map[1 := Some(PROMISED)])

  lemma TallyWins()
    ensures RecordVote(CANDIDATE.ctx, CAMPAIGN, PROMISED) == TALLY
    ensures HasVoteQuorum(TALLY.votes) && Wins(TALLY, READING)
    ensures ElectedContext(CANDIDATE.ctx, TALLY) == WINNER && ElectedBoard(CANDIDATE.ctx, TALLY) == FRESH_BOARD
    ensures CanBroadcast(WINNER, FRESH_BOARD, SEND_TIMES)
  {
    assert map[1 := None][1 := Some(PROMISED)] == TALLY.votes;
    assert CAMPAIGN.score[1 := LogPosition(0, 1, 0)] == CAMPAIGN.score;
    assert Promisers(TALLY.votes) == {1};
    assert Flush(map[], 0, map[]) == map[];
    assert Restamp(map[], 1) == map[];
    assert NewLeader(TALLY.score) == FRESH_BOARD;
  }

  const FIRST := AcceptRequest(1, 0, 0, 0, [], 0, NOW, None)

  lemma FirstBroadcast()
    requires CanBroadcast(WINNER, FRESH_BOARD, SEND_TIMES)
    ensures Broadcast(WINNER, FRESH_BOARD, SEND_TIMES, None)
      == LeaderStep(WINNER, FRESH_BOARD, map[1 := FIRST], map[])
  {
    var r := Broadcast(WINNER, FRESH_BOARD, SEND_TIMES, None);
    assert EntriesFrom(map[], 1) == [];
    assert r.requests == map[1 := FIRST];
    assert r.l.score == FRESH_BOARD.score;
  }

  const ELECTED := LeaderStep(WINNER, FRESH_BOARD, map[1 := FIRST], map[])

  lemma AnswerElects(s: State)
    requires 0 in s.members && s.members[0] == CANDIDATE && s.now == NOW && ANSWER in s.answers
    ensures VoteReplyEnabled(s, 0, ANSWER, READING, SEND_TIMES)
    ensures OnVoteResponse(CANDIDATE.ctx, CAMPAIGN, PROMISED, READING, SEND_TIMES) == Elected(ELECTED)
  {
    TallyWins();
    FirstBroadcast();
    assert CanTally(CANDIDATE, ANSWER, READING, SEND_TIMES);
  }

  lemma ElectedState(s: State)
    requires 0 in s.members
    ensures var s' := VoteReplyNext(s, 0, Elected(ELECTED));
      s' == s.(members := s.members[0 := Member(WINNER, Leading(FRESH_BOARD))], sents := s'.sents,
               sendNo := s.sendNo + 1, leases := s'.leases, wins := s'.wins, logs := s'.logs, seeds := s'.seeds)
  {}

  lemma Elect(s: State)
    requires 0 in s.members && s.members[0] == CANDIDATE && s.now == NOW && ANSWER in s.answers
    ensures var e := VoteReply(0, ANSWER, READING, SEND_TIMES);
      && Enabled(s, e)
      && var s' := Next(s, e);
      && WinsTopped(e, s', 1)
      && s' == s.(members := s.members[0 := Member(WINNER, Leading(FRESH_BOARD))], sents := s'.sents,
                  sendNo := s.sendNo + 1, leases := s'.leases, wins := s'.wins, logs := s'.logs, seeds := s'.seeds)
  {
    AnswerElects(s);
    ElectedState(s);
  }

  const BUFFERED := FRESH_BOARD.(inFlight := PENDING, pendingWrites := 1)

  lemma WriteArrives(s: State)
    requires 0 in s.members && s.members[0] == Member(WINNER, Leading(FRESH_BOARD)) && s.now == NOW && 7 !in s.writes
    ensures var e := ClientWrite(0, 7, "x", READING);
      && Enabled(s, e)
      && var s' := Next(s, e);
      s' == s.(members := s.members[0 := Member(WRITER, Leading(BUFFERED))], logs := s'.logs,
               writes := s.writes[7 := Write(0, 1, 1, NOW)])
  {
    var step := OnClientWrite(WINNER, FRESH_BOARD, 7, "x", READING);
    assert step.ctx.wal == ONE;
    assert step.l.inFlight == PENDING;
    assert step == LeaderStep(WRITER, BUFFERED, map[], map[]);
  }

  lemma FlushBroadcast()
    ensures CanBroadcast(WRITER, BUFFERED, SEND_TIMES)
    ensures OnWriteFlush(WRITER, BUFFERED, SEND_TIMES)
      == LeaderStep(WRITER, SENT_BOARD, map[1 := REQUEST], map[])
  {
    assert 1 in ONE && Top(ONE) in ONE;
    assert EntriesFrom(ONE, 1) == [ENTRY] by {
      assert Range(ONE, 2, 2) == [];
      assert Range(ONE, 1, 2) == [ENTRY] + Range(ONE, 2, 2);
    }
    var r := Broadcast(WRITER, BUFFERED, SEND_TIMES, None);
    assert r.requests == map[1 := REQUEST];
    assert NoteSent(BUFFERED.score[1], REQUEST) == SENT_BOARD.score[1];
    assert r.l.score == SENT_BOARD.score;
  }

  lemma FlushFires(s: State)
    requires 0 in s.members && s.members[0] == Member(WRITER, Leading(BUFFERED)) && s.now == NOW
    ensures var e := WriteFlush(0, SEND_TIMES);
      && Enabled(s, e)
      && var s' := Next(s, e);
      && Sent(1, REQUEST, WRITER, s.sendNo) in s'.sents
      && s' == s.(members := s.members[0 := Member(WRITER, Leading(SENT_BOARD))], sents := s'.sents,
                  sendNo := s.sendNo + 1)
  {
    FlushBroadcast();
    var requests: map<Id, AcceptRequest> := map[1 := REQUEST];
    assert 1 in requests && requests[1] == REQUEST;
    assert Sent(1, REQUEST, WRITER, s.sendNo) in Posted(requests, WRITER, s.sendNo);
  }

  lemma SecondWriteArrives(s: State)
    requires 0 in s.members && s.members[0] == Member(WRITER, Leading(SENT_BOARD)) && s.now == NOW && 8 !in s.writes
    ensures var e := ClientWrite(0, 8, "y", READING);
      && Enabled(s, e)
      && var s' := Next(s, e);
      s' == s.(members := s.members[0 := Member(BUSY, Leading(BUSY_BOARD))], logs := s'.logs,
               writes := s.writes[8 := Write(0, 1, 2, NOW)])
  {
    var step := OnClientWrite(WRITER, SENT_BOARD, 8, "y", READING);
    assert step.ctx.wal == TWO;
    assert step.l.inFlight == BOTH_PENDING;
    assert step == LeaderStep(BUSY, BUSY_BOARD, map[], map[]);
  }

  const READY := Member(VOTER.ctx, Following(FollowerView(Some(0), Some(VoteRecord(1, 0)))))

  lemma Accept(s: State, no: nat)
    requires 1 in s.members && s.members[1] == READY && s.now == NOW && s.delivered == map[]
    requires Sent(1, REQUEST, WRITER, no) in s.sents
    ensures var e := AcceptAsked(1, Sent(1, REQUEST, WRITER, no), READING, READING, READING);
      && Enabled(s, e) && InOrder(s, e) && HonestLastSlot(s, e, 1)
      && var s' := Next(s, e);
      && 1 in s'.members
      && s' == s.(members := s.members[1 := s'.members[1]], acks := s.acks + {Ack(0, RESPONSE)},
                  delivered := s'.delivered)
  {
    assert ProcessAcceptRequest(READY, REQUEST, READING, READING, READING).response == Some(RESPONSE);
  }

  // The contact does not outlive the lease that the votes gave.
  lemma NoRenewal()
    ensures RenewedLease(BUSY, map[1 := NOW]) == BUSY.lease
  {
    var contacts: map<Id, Time> := map[1 := NOW];
    assert AtLeast(contacts, NOW) == {1};
    assert forall v :: v > NOW ==> AtLeast(contacts, v) == {};
    QuorumValueUnique(contacts, 1, NOW, QuorumValue(contacts, 1));
  }

  lemma OneAckReaches(score: map<Id, Progress>)
    requires Matches(score) == map[1 := 1]
    ensures QuorumSlot(Matches(score), 1, 2) == 1
  {
    assert AtLeast(map[1 := 1], 2) == {};
    assert AtLeast(map[1 := 1], 1) == {1};
  }

  lemma AckCommits()
    ensures CanHandle(BUSY, BUSY_BOARD, RESPONSE)
    ensures var r := OnAcceptResponse(BUSY, BUSY_BOARD, RESPONSE, NOW);
      r.ctx.committedSlot == 1 && r.resolved == PENDING
  {
    NoRenewal();
    var contacts := NoteContact(BUSY_BOARD.lastContact, RESPONSE);
    assert contacts == map[1 := NOW];
    var l := BUSY_BOARD.(lastContact := contacts);
    var score := l.score[1 := Acknowledge(l.score[1], 1)];
    assert Matches(score) == map[1 := 1];
    OneAckReaches(score);
    assert UpTo(BOTH_PENDING, 1) == PENDING;
  }

  lemma AckArrives(s: State)
    requires 0 in s.members && s.members[0] == Member(BUSY, Leading(BUSY_BOARD)) && s.now == NOW
    requires Ack(0, RESPONSE) in s.acks
    ensures var e := AcceptReply(0, Ack(0, RESPONSE), NOW);
      && Enabled(s, e)
      && var s' := Next(s, e);
      && 0 in s'.members && s'.members[0].role.Leading? && s'.members[0].ctx.committedSlot == 1
      && s'.replies == s.replies && PendingWrite(NOW, 7) in s'.waiting && s'.now == s.now
  {
    AckCommits();
    assert 1 in PENDING && PENDING[1] == PendingWrite(NOW, 7);
  }

  lemma Answers(s: State)
    requires s.now == NOW && PendingWrite(NOW, 7) in s.waiting && s.replies == []
    ensures var t, write := s.(now := NOW + 1), PendingWrite(NOW, 7);
      AnsweredEnabled(t, write, LATER) && AnsweredNext(t, write).replies == [Reply(7, NOW + 1)]
  {}

  // ----- The whole run -----

  // A step that also meets the assumptions of every result about runs.
  ghost predicate FineStep(s: State, e: Event, s': State) {
    && IsStep(s, e, s')
    && WinsTopped(e, s', 1) && InOrder(s, e) && HonestLastSlot(s, e, 1)
  }

  lemma TickIsFine(s: State, t: Time)
    requires t >= s.now
    ensures FineStep(s, Tick(t), s.(now := t))
  {}

  lemma AnswerIsFine(s: State, write: PendingWrite, reading: TimeInterval)
    requires AnsweredEnabled(s, write, reading)
    ensures FineStep(s, Answered(write, reading), AnsweredNext(s, write))
  {}

  ghost predicate FineRun(states: seq<State>, events: seq<Event>) {
    && |states| == |events| + 1 && Initial(states[0])
    && forall k :: 0 <= k < |events| ==> FineStep(states[k], events[k], states[k + 1])
  }

  lemma OneMore(states: seq<State>, events: seq<Event>, e: Event, s': State)
    requires FineRun(states, events) && FineStep(states[|events|], e, s')
    ensures FineRun(states + [s'], events + [e])
  {
    var longer, more := states + [s'], events + [e];
    forall k | 0 <= k < |more| ensures FineStep(longer[k], more[k], longer[k + 1]) {
      if k < |events| {
        assert FineStep(states[k], events[k], states[k + 1]);
        assert longer[k] == states[k] && longer[k + 1] == states[k + 1] && more[k] == events[k];
      } else {
        assert longer[k] == states[|events|] && longer[k + 1] == s' && more[k] == e;
      }
    }
  }

  // Two members, nothing sent yet.
  const START := State(
    map[0 := Member(LEADER, Following(FRESH_FOLLOWER)), 1 := Member(OTHER, Following(FRESH_FOLLOWER))],
    NOW, {}, {}, {}, {}, 0, {}, {}, {}, {}, map[], map[], {}, map[], map[], [])

  // Member 1 knows nothing but its start; no command has been seen and nothing delivered.
  ghost predicate Untouched(s: State) {
    && s.now == NOW && s.writes == map[] && s.delivered == map[] && s.replies == []
    && 0 in s.members && 1 in s.members
  }

  lemma StartIsInitial()
    ensures Initial(START) && START.members.Keys == {0, 1}
  {
    assert {0, 1} - {0} == {1} && {0, 1} - {1} == {0};
    assert START.members.Keys == {0, 1};
  }

  lemma CountsDown() returns (s: State, states: seq<State>, events: seq<Event>)
    ensures FineRun(states, events) && |events| == 1 && states[1] == s && Untouched(s)
    ensures s.members[0] == Member(LEADER, PreCampaigning(PreCandidateView(map[1 := None])))
    ensures s.members[1] == Member(OTHER, Following(FRESH_FOLLOWER))
  {
    StartIsInitial();
    Countdown(START);
    var e0 := ElectionCountdown(0, READING);
    s := Next(START, e0);
    OneMore([START], [], e0, s);
    states, events := [START] + [s], [] + [e0];
  }

  lemma Campaigns() returns (s: State, states: seq<State>, events: seq<Event>)
    ensures FineRun(states, events) && |events| == 3 && states[3] == s && Untouched(s)
    ensures s.members[0] == CANDIDATE && s.members[1] == VOTER && ANSWER in s.answers
  {
    var s1: State;
    s1, states, events := CountsDown();
    var e1, e2 := PreVoteReply(0, GRANT, READING), VoteAsked(1, ASK, READING, READING, READING);
    PreVote(s1);
    var s2 := Next(s1, e1);
    Vote(s2);
    s := Next(s2, e2);
    OneMore(states, events, e1, s2);
    OneMore(states + [s2], events + [e1], e2, s);
    states, events := states + [s2] + [s], events + [e1] + [e2];
  }

  lemma LeadsAndWrites() returns (s: State, states: seq<State>, events: seq<Event>)
    ensures FineRun(states, events) && |events| == 5 && states[5] == s
    ensures s.now == NOW && s.delivered == map[] && s.replies == [] && 0 in s.members && 1 in s.members
    ensures s.members[0] == Member(WRITER, Leading(BUFFERED)) && s.members[1] == VOTER
    ensures s.writes.Keys == {7}
  {
    var s3: State;
    s3, states, events := Campaigns();
    var e3, e4 := VoteReply(0, ANSWER, READING, SEND_TIMES), ClientWrite(0, 7, "x", READING);
    Elect(s3);
    var s4 := Next(s3, e3);
    WriteArrives(s4);
    s := Next(s4, e4);
    OneMore(states, events, e3, s4);
    OneMore(states + [s4], events + [e3], e4, s);
    states, events := states + [s4] + [s], events + [e3] + [e4];
  }

  lemma Replicates() returns (s: State, no: nat, states: seq<State>, events: seq<Event>)
    ensures FineRun(states, events) && |events| == 8 && states[8] == s
    ensures s.now == NOW && s.delivered == map[] && s.replies == [] && 0 in s.members && 1 in s.members
    ensures s.members[0] == Member(BUSY, Leading(BUSY_BOARD)) && s.members[1] == READY
    ensures Sent(1, REQUEST, WRITER, no) in s.sents
  {
    var s5: State;
    s5, states, events := LeadsAndWrites();
    var e5, e6, e7 := WriteFlush(0, SEND_TIMES), ClientWrite(0, 8, "y", READING), LearnLeader(1, 0);
    FlushFires(s5);
    var s6 := Next(s5, e5);
    no := s5.sendNo;
    SecondWriteArrives(s6);
    var s7 := Next(s6, e6);
    s := Next(s7, e7);
    OneMore(states, events, e5, s6);
    OneMore(states + [s6], events + [e5], e6, s7);
    OneMore(states + [s6] + [s7], events + [e5] + [e6], e7, s);
    states, events := states + [s6] + [s7] + [s], events + [e5] + [e6] + [e7];
  }

  lemma Delivers() returns (s: State, states: seq<State>, events: seq<Event>)
    ensures FineRun(states, events) && |events| == 9 && states[9] == s
    ensures s.now == NOW && s.replies == [] && Ack(0, RESPONSE) in s.acks && 0 in s.members
    ensures s.members[0] == Member(BUSY, Leading(BUSY_BOARD))
  {
    var s8, no;
    s8, no, states, events := Replicates();
    var e8 := AcceptAsked(1, Sent(1, REQUEST, WRITER, no), READING, READING, READING);
    Accept(s8, no);
    s := Next(s8, e8);
    OneMore(states, events, e8, s);
    states, events := states + [s], events + [e8];
  }

  lemma Commits() returns (s: State, states: seq<State>, events: seq<Event>)
    ensures FineRun(states, events) && |events| == 10 && states[10] == s
    ensures 0 in states[9].members && states[9].members[0] == Member(BUSY, Leading(BUSY_BOARD))
    ensures events[9] == AcceptReply(0, Ack(0, RESPONSE), NOW)
    ensures 0 in s.members && s.members[0].role.Leading? && s.members[0].ctx.committedSlot == 1
    ensures s.now == NOW && s.replies == [] && PendingWrite(NOW, 7) in s.waiting
  {
    var s9: State;
    s9, states, events := Delivers();
    var e9 := AcceptReply(0, Ack(0, RESPONSE), NOW);
    AckArrives(s9);
    s := Next(s9, e9);
    OneMore(states, events, e9, s);
    states, events := states + [s], events + [e9];
  }

  lemma FineRunMeetsAll(states: seq<State>, events: seq<Event>)
    requires FineRun(states, events)
    ensures IsExecution(states, events) && InOrderRun(states, events, |events|)
    ensures ToppedRun(states, events, |events|, 1) && HonestRun(states, events, |events|, 1)
  {
    forall k | 0 <= k < |events|
      ensures IsStep(states[k], events[k], states[k + 1]) && WinsTopped(events[k], states[k + 1], 1)
        && InOrder(states[k], events[k])
        && HonestLastSlot(states[k], events[k], 1)
    {
      assert FineStep(states[k], events[k], states[k + 1]);
    }
  }

  lemma Waits() returns (s: State, states: seq<State>, events: seq<Event>)
    ensures FineRun(states, events) && |events| == 11 && states[11] == s.(now := NOW + 1)
    ensures 0 in states[9].members && states[9].members[0] == Member(BUSY, Leading(BUSY_BOARD))
    ensures events[9] == AcceptReply(0, Ack(0, RESPONSE), NOW)
    ensures 0 in states[10].members && states[10].members[0].role.Leading?
    ensures states[10].members[0].ctx.committedSlot == 1
    ensures s.now == NOW && s.replies == [] && PendingWrite(NOW, 7) in s.waiting
  {
    s, states, events := Commits();
    var e10, s11 := Tick(NOW + 1), s.(now := NOW + 1);
    TickIsFine(s, NOW + 1);
    OneMore(states, events, e10, s11);
    states, events := states + [s11], events + [e10];
  }

  lemma Replies() returns (states: seq<State>, events: seq<Event>)
    ensures FineRun(states, events) && |events| == 12
    ensures 0 in states[9].members && states[9].members[0] == Member(BUSY, Leading(BUSY_BOARD))
    ensures events[9] == AcceptReply(0, Ack(0, RESPONSE), NOW)
    ensures 0 in states[10].members && states[10].members[0].role.Leading?
    ensures states[10].members[0].ctx.committedSlot == 1
    ensures states[12].replies == [Reply(7, NOW + 1)]
  {
    var s10: State;
    s10, states, events := Waits();
    var s11, write := s10.(now := NOW + 1), PendingWrite(NOW, 7);
    var e11, s12 := Answered(write, LATER), AnsweredNext(s11, write);
    Answers(s10);
    AnswerIsFine(s11, write, LATER);
    OneMore(states, events, e11, s12);
    states, events := states + [s12], events + [e11];
  }

  /** There is a run that meets every assumption made of runs, in which a leader is elected, commits a write with its
      follower's acknowledgement, and answers it. */
  lemma RunWithCommitExists() returns (states: seq<State>, events: seq<Event>)
    ensures IsExecution(states, events) && InOrderRun(states, events, |events|)
    ensures ToppedRun(states, events, |events|, 1) && HonestRun(states, events, |events|, 1)
    ensures |events| == 12 && CommitsAt(states, events, 9, 0) && states[12].replies == [Reply(7, NOW + 1)]
  {
    states, events := Replies();
    FineRunMeetsAll(states, events);
  }
}
