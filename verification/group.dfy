/** A whole group as a transition system: its members, an adversarial network and true time.

    Messages are never removed from the network, so any message may be lost, delayed, reordered or
    delivered many times. Writes that a leader has handed over for an answer wait until their timestamps have passed.
    The remaining fields record history; nothing that happens depends on them. */
module Group {
  import opened Types
  import opened TrueTime
  import opened Quorums
  import opened Views
  import opened LeaderRole
  import opened CandidateRole
  import opened PreCandidateRole
  import opened StateMachine

  // A vote request of the campaign that its candidate dispatched at clock time `at`.
  datatype Ask = Ask(request: VoteRequest, at: Time)

  // A response to one campaign, given at true time `at`.
  datatype Answer = Answer(ask: Ask, response: VoteResponse, at: Time)

  // An accept request, with the leader's context as it stood at dispatch and a running number.
  datatype Sent = Sent(to: Id, request: AcceptRequest, origin: ContextView, no: nat)

  datatype Ack = Ack(to: Id, response: AcceptResponse)

  // History: votes (a candidate's own included), elections won, lease expiries stored by leaders, each term's log
  // and the match slots that its leader started with, commits by leaders with the members that count for the slot,
  // the last request delivered on each link, client writes and their replies.
  datatype Ballot = Ballot(voter: Id, term: nat, candidate: Id, at: Time)
  datatype Win = Win(leader: Id, term: nat, at: Time)
  datatype Stored = Stored(leader: Id, term: nat, expiry: Time)
  datatype Committed = Committed(leader: Id, term: nat, slot: nat, holders: set<Id>)
  datatype Write = Write(leader: Id, term: nat, slot: nat, at: Time)
  datatype Reply = Reply(command: nat, at: Time)

  datatype State = State(
    members: map<Id, Member>,
    now: Time,
    asks: set<Ask>,
    answers: set<Answer>,
    sents: set<Sent>,
    acks: set<Ack>,
    sendNo: nat,
    waiting: set<PendingWrite>,
    // history
    ballots: set<Ballot>,
    wins: set<Win>,
    leases: set<Stored>,
    logs: map<nat, Log>,
    seeds: map<nat, map<Id, nat>>,
    commits: set<Committed>,
    delivered: map<(nat, Id), nat>,
    writes: map<nat, Write>,
    replies: seq<Reply>)

  datatype Event =
    | Tick(t: Time)
    | LeaseExpires(i: Id, reading: TimeInterval)
    | StepDown(i: Id)
    | LearnLeader(i: Id, leader: Id)
    | HigherTerm(i: Id, term: nat)
    | ElectionCountdown(i: Id, reading: TimeInterval)
    | PreVoteReply(i: Id, preVote: PreVoteResponse, reading: TimeInterval)
    | VoteAsked(i: Id, ask: Ask, roleCheck: TimeInterval, check: TimeInterval, extend: TimeInterval)
    | VoteReply(i: Id, answer: Answer, reading: TimeInterval, tSends: map<Id, Time>)
    | AcceptAsked(i: Id, sent: Sent, roleCheck: TimeInterval, check: TimeInterval, extend: TimeInterval)
    | AcceptReply(i: Id, ack: Ack, tSend: Time)
    | ClientWrite(i: Id, command: nat, value: string, reading: TimeInterval)
    | WriteFlush(i: Id, tSends: map<Id, Time>)
    | Heartbeat(i: Id, reading: TimeInterval, tSends: map<Id, Time>)
    | TimeoutCheck(i: Id, utc: Time)
    | Answered(write: PendingWrite, reading: TimeInterval)

  // ----- Events that only change the member where they happen -----

  // Timers, step-downs, learnt leaders and higher terms seen in any message.
  predicate Quiet(e: Event) {
    e.LeaseExpires? || e.StepDown? || e.LearnLeader? || e.HigherTerm? || e.ElectionCountdown?
  }

  ghost predicate QuietEnabled(m: Member, e: Event, now: Time)
    requires Quiet(e)
  {
    match e
    case LeaseExpires(_, reading) =>
      ValidAt(reading, now) && m.ctx.lease.Some? && After(m.ctx.lease.value, reading)
    case StepDown(_) => !m.role.Following?
    case LearnLeader(_, _) => m.role.Following?
    case HigherTerm(_, _) => true
    case ElectionCountdown(_, reading) => ValidAt(reading, now) && m.role.Following? && LeaseExpired(m.ctx, reading)
  }

  ghost function QuietMember(m: Member, e: Event, now: Time): Member
    requires Quiet(e) && QuietEnabled(m, e, now)
  {
    match e
    case LeaseExpires(_, _) => ExpireLease(m)
    case StepDown(_) => Member(m.ctx, Following(FRESH_FOLLOWER))
    case LearnLeader(_, leader) => Member(m.ctx, Following(m.role.f.(currentLeaderId := Some(leader))))
    case HigherTerm(_, term) => AdoptTerm(m, term)
    case ElectionCountdown(_, _) => Member(m.ctx, PreCampaigning(NewPreCandidate(m.ctx)))
  }

  function Put(s: State, i: Id, m: Member): State { s.(members := s.members[i := m]) }

  // ----- Elections -----

  ghost predicate PreVoteReplyEnabled(s: State, i: Id, preVote: PreVoteResponse, reading: TimeInterval) {
    && i in s.members && ValidAt(reading, s.now)
    && s.members[i].role.PreCampaigning? && preVote.memberId in s.members[i].ctx.peerIds
    && preVote.term <= s.members[i].ctx.term
  }

  function PreVoteReplyNext(s: State, i: Id, r: PreVoteResult): State
    requires i in s.members
  {
    match r
    case StillWaiting(p) => Put(s, i, Member(s.members[i].ctx, PreCampaigning(p)))
    case Abandoned => Put(s, i, Member(s.members[i].ctx, Following(FRESH_FOLLOWER)))
    case Promoted(ctx, c, request) =>
      Put(s, i, Member(ctx, Campaigning(c))).(
        asks := if c.dispatched.Some? then s.asks + {Ask(request, c.dispatched.value)} else s.asks,
        ballots := s.ballots + {Ballot(i, ctx.term, i, s.now)})
  }

  ghost predicate VoteAskedEnabled(
    s: State, i: Id, ask: Ask, roleCheck: TimeInterval, check: TimeInterval, extend: TimeInterval)
  {
    && i in s.members && ask in s.asks && ask.request.memberId != i
    && ValidAt(roleCheck, s.now) && ValidAt(check, s.now) && ValidAt(extend, s.now)
  }

  function VoteAskedNext(s: State, i: Id, ask: Ask, r: VoteOutcomeAt): State {
    Put(s, i, r.m).(
      answers := s.answers + {Answer(ask, r.response, s.now)},
      ballots := if r.response.outcome.Promise?
        then s.ballots + {Ballot(i, ask.request.term, ask.request.memberId, s.now)} else s.ballots)
  }

  ghost predicate SendTime(t: Time, now: Time) { UNIX_EPOCH <= t <= now }

  ghost predicate SendTimes(tSends: map<Id, Time>, now: Time) {
    forall j :: j in tSends ==> SendTime(tSends[j], now)
  }

  // An answer reaches only the campaign that asked for it.
  ghost predicate SameCampaign(m: Member, ask: Ask) {
    && m.role.Campaigning?
    && ask.request.memberId == m.ctx.memberId
    && ask.request.term == m.ctx.term
    && m.role.c.dispatched == Some(ask.at)
  }

  ghost predicate CanTally(m: Member, answer: Answer, reading: TimeInterval, tSends: map<Id, Time>) {
    && SameCampaign(m, answer.ask)
    && answer.response.term <= m.ctx.term
    && answer.response.memberId in m.role.c.score
    && var c1 := RecordVote(m.ctx, m.role.c, answer.response);
      Wins(c1, reading) ==> CanBroadcast(ElectedContext(m.ctx, c1), ElectedBoard(m.ctx, c1), tSends)
  }

  ghost predicate VoteReplyEnabled(s: State, i: Id, answer: Answer, reading: TimeInterval, tSends: map<Id, Time>) {
    && i in s.members && answer in s.answers && ValidAt(reading, s.now) && SendTimes(tSends, s.now)
    && CanTally(s.members[i], answer, reading, tSends)
  }

  function VoteReplyNext(s: State, i: Id, r: VoteResult): State
    requires i in s.members
  {
    match r
    case Waiting(c) => Put(s, i, Member(s.members[i].ctx, Campaigning(c)))
    case GivenUp(ctx) => Put(s, i, Member(ctx, Following(FRESH_FOLLOWER)))
    case Elected(step) =>
      Post(s, i, step).(
        leases := s.leases + StoredLease(i, step.ctx),
        wins := s.wins + {Win(i, step.ctx.term, s.now)},
        logs := s.logs[step.ctx.term := step.ctx.wal],
        seeds := s.seeds[step.ctx.term := Matches(step.l.score)])
  }

  // ----- Replication -----

  function Posted(requests: map<Id, AcceptRequest>, origin: ContextView, no: nat): set<Sent> {
    set j | j in requests :: Sent(j, requests[j], origin, no)
  }

  function Post(s: State, i: Id, step: LeaderStep): State {
    Put(s, i, Member(step.ctx, Leading(step.l))).(
      sents := s.sents + Posted(step.requests, step.ctx, s.sendNo),
      sendNo := s.sendNo + 1)
  }

  function StoredLease(i: Id, ctx: ContextView): set<Stored> {
    if ctx.lease.Some? then {Stored(i, ctx.term, ctx.lease.value)} else {}
  }

  ghost predicate AcceptAskedEnabled(
    s: State, i: Id, sent: Sent, roleCheck: TimeInterval, check: TimeInterval, extend: TimeInterval)
  {
    && i in s.members && sent in s.sents && sent.to == i
    && ValidAt(roleCheck, s.now) && ValidAt(check, s.now) && ValidAt(extend, s.now)
  }

  function AcceptAskedNext(s: State, i: Id, sent: Sent, r: AcceptOutcomeAt): State {
    Put(s, i, r.m).(
      acks := if r.response.Some? then s.acks + {Ack(sent.request.leaderId, r.response.value)} else s.acks,
      delivered := s.delivered[(sent.request.term, i) := sent.no])
  }

  ghost predicate AcceptReplyEnabled(s: State, i: Id, ack: Ack, tSend: Time) {
    && i in s.members && ack in s.acks && ack.to == i && SendTime(tSend, s.now)
    && s.members[i].role.Leading? && ack.response.term <= s.members[i].ctx.term
    && CanHandle(s.members[i].ctx, s.members[i].role.l, ack.response)
  }

  function CommitRecord(i: Id, step: LeaderStep): Committed {
    Committed(i, step.ctx.term, step.ctx.committedSlot,
      AtLeast(Matches(step.l.score), step.ctx.committedSlot) + {i})
  }

  function AcceptReplyNext(s: State, i: Id, step: LeaderStep): State
    requires i in s.members
  {
    Post(s, i, step).(
      leases := s.leases + StoredLease(i, step.ctx),
      commits := if step.ctx.committedSlot > s.members[i].ctx.committedSlot
        then s.commits + {CommitRecord(i, step)} else s.commits,
      waiting := s.waiting + step.resolved.Values)
  }

  ghost predicate ClientWriteEnabled(s: State, i: Id, command: nat, reading: TimeInterval) {
    i in s.members && s.members[i].role.Leading? && ValidAt(reading, s.now) && command !in s.writes
  }

  function ClientWriteNext(s: State, i: Id, command: nat, step: LeaderStep): State {
    Put(s, i, Member(step.ctx, Leading(step.l))).(
      logs := s.logs[step.ctx.term := step.ctx.wal],
      writes := s.writes[command := Write(i, step.ctx.term, step.ctx.lastLogSlot, s.now)])
  }

  // The leader's timers.
  predicate Routine(e: Event) { e.WriteFlush? || e.Heartbeat? || e.TimeoutCheck? }

  ghost predicate RoutineEnabled(m: Member, e: Event, now: Time)
    requires Routine(e)
  {
    && m.role.Leading?
    && match e
       case WriteFlush(_, tSends) => SendTimes(tSends, now) && CanBroadcast(m.ctx, m.role.l, tSends)
       case Heartbeat(_, reading, tSends) =>
         SendTimes(tSends, now) && ValidAt(reading, now) && CanBroadcast(m.ctx, m.role.l, tSends)
       case TimeoutCheck(_, _) => true
  }

  ghost function RoutineStep(m: Member, e: Event, now: Time): LeaderStep
    requires Routine(e) && RoutineEnabled(m, e, now)
  {
    match e
    case WriteFlush(_, tSends) => OnWriteFlush(m.ctx, m.role.l, tSends)
    case Heartbeat(_, reading, tSends) => OnHeartbeat(m.ctx, m.role.l, reading, tSends)
    case TimeoutCheck(_, utc) => LeaderStep(m.ctx, OnAcceptTimeoutCheck(m.role.l, utc), map[], map[])
  }

  // A reply leaves once the write's timestamp has definitely passed.
  ghost predicate AnsweredEnabled(s: State, write: PendingWrite, reading: TimeInterval) {
    write in s.waiting && ValidAt(reading, s.now) && After(write.timestamp, reading)
  }

  function AnsweredNext(s: State, write: PendingWrite): State {
    s.(waiting := s.waiting - {write}, replies := s.replies + [Reply(write.command, s.now)])
  }

  // ----- The transition relation -----

  // The clocks are right, the messages were sent, and no handler panics.
  ghost predicate Enabled(s: State, e: Event) {
    match e
    case Tick(t) => t >= s.now
    case PreVoteReply(i, preVote, reading) => PreVoteReplyEnabled(s, i, preVote, reading)
    case VoteAsked(i, ask, roleCheck, check, extend) => VoteAskedEnabled(s, i, ask, roleCheck, check, extend)
    case VoteReply(i, answer, reading, tSends) => VoteReplyEnabled(s, i, answer, reading, tSends)
    case AcceptAsked(i, sent, roleCheck, check, extend) => AcceptAskedEnabled(s, i, sent, roleCheck, check, extend)
    case AcceptReply(i, ack, tSend) => AcceptReplyEnabled(s, i, ack, tSend)
    case ClientWrite(i, command, _, reading) => ClientWriteEnabled(s, i, command, reading)
    case Answered(write, reading) => AnsweredEnabled(s, write, reading)
    case LeaseExpires(_, _) | StepDown(_) | LearnLeader(_, _) | HigherTerm(_, _) | ElectionCountdown(_, _) =>
      e.i in s.members && QuietEnabled(s.members[e.i], e, s.now)
    case WriteFlush(_, _) | Heartbeat(_, _, _) | TimeoutCheck(_, _) =>
      e.i in s.members && RoutineEnabled(s.members[e.i], e, s.now)
  }

  ghost function Next(s: State, e: Event): State
    requires Enabled(s, e)
  {
    match e
    case Tick(t) => s.(now := t)
    case PreVoteReply(i, preVote, reading) =>
      PreVoteReplyNext(s, i, OnPreVoteResponse(s.members[i].ctx, s.members[i].role.p, preVote, reading))
    case VoteAsked(i, ask, roleCheck, check, extend) =>
      VoteAskedNext(s, i, ask, ProcessVoteRequest(s.members[i], ask.request, roleCheck, check, extend))
    case VoteReply(i, answer, reading, tSends) =>
      VoteReplyNext(s, i, OnVoteResponse(s.members[i].ctx, s.members[i].role.c, answer.response, reading, tSends))
    case AcceptAsked(i, sent, roleCheck, check, extend) =>
      AcceptAskedNext(s, i, sent, ProcessAcceptRequest(s.members[i], sent.request, roleCheck, check, extend))
    case AcceptReply(i, ack, tSend) =>
      AcceptReplyNext(s, i, OnAcceptResponse(s.members[i].ctx, s.members[i].role.l, ack.response, tSend))
    case ClientWrite(i, command, value, reading) =>
      ClientWriteNext(s, i, command, OnClientWrite(s.members[i].ctx, s.members[i].role.l, command, value, reading))
    case Answered(write, _) => AnsweredNext(s, write)
    case LeaseExpires(_, _) | StepDown(_) | LearnLeader(_, _) | HigherTerm(_, _) | ElectionCountdown(_, _) =>
      Put(s, e.i, QuietMember(s.members[e.i], e, s.now))
    case WriteFlush(_, _) | Heartbeat(_, _, _) | TimeoutCheck(_, _) =>
      Post(s, e.i, RoutineStep(s.members[e.i], e, s.now))
  }

  // ----- Where a group starts -----

  ghost predicate InitialMember(m: Member, i: Id, group: set<Id>) {
    && m.ctx == ContextView(i, group - {i}, 0, None, Some(UNIX_EPOCH), 0, 0, 0, map[], map[])
    && m.role == Following(FRESH_FOLLOWER)
  }

  ghost predicate Initial(s: State) {
    && (forall i :: i in s.members ==> InitialMember(s.members[i], i, s.members.Keys))
    && s.asks == {} && s.answers == {} && s.sents == {} && s.acks == {}
    && s.ballots == {} && s.wins == {} && s.leases == {} && s.logs == map[] && s.seeds == map[] && s.commits == {}
    && s.delivered == map[] && s.writes == map[] && s.waiting == {} && s.replies == []
  }

  // ----- Runs -----

  /** `states` is an execution: it starts in an initial state, and each event is enabled where it happens. */
  ghost predicate IsExecution(states: seq<State>, events: seq<Event>) {
    && |states| == |events| + 1
    && Initial(states[0])
    && forall k :: 0 <= k < |events| ==> IsStep(states[k], events[k], states[k + 1])
  }

  ghost predicate IsStep(s: State, e: Event, s': State) {
    Enabled(s, e) && s' == Next(s, e)
  }
}
