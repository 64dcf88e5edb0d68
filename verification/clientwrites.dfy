/** Client writes over whole runs: every accepted write is pending or answered once, after it committed,
    and timestamps respect the order that clients observe. */
module ClientWrites {
  import opened Types
  import opened TrueTime
  import opened Wal
  import opened Views
  import opened LeaderRole
  import opened CandidateRole
  import opened PreCandidateRole
  import opened StateMachine
  import opened Group
  import opened Facts
  import opened ElectionSafety

  // ----- The invariant -----

  function Replied(replies: seq<Reply>): set<nat> { set r | r in replies :: r.command }

  function Awaiting(waiting: set<PendingWrite>): set<nat> { set p | p in waiting :: p.command }

  // The commands handed over for an answer: in commit wait, or answered.
  function Settled(s: State): set<nat> { Awaiting(s.waiting) + Replied(s.replies) }

  // The log of the write's term holds an entry at its slot.
  ghost predicate Logged(logs: map<nat, Log>, w: Write) { w.term in logs && w.slot in logs[w.term] }

  /** The timestamp that the write's log entry carries. */
  function Stamp(logs: map<nat, Log>, w: Write): Time
    requires Logged(logs, w)
  {
    logs[w.term][w.slot].timestamp
  }

  // The command waits on the timestamp that its log entry carries.
  ghost predicate RightlyStamped(s: State, p: PendingWrite) {
    p.command in s.writes && Logged(s.logs, s.writes[p.command]) && p.timestamp == Stamp(s.logs, s.writes[p.command])
  }

  // The pending write is the recorded one, waits on its entry's timestamp, and is not settled.
  ghost predicate PendingOK(s: State, i: Id, ctx: ContextView, slot: nat, p: PendingWrite) {
    && slot <= ctx.lastLogSlot
    && RightlyStamped(s, p) && p.command !in Settled(s)
    && s.writes[p.command] == Write(i, ctx.term, slot, s.writes[p.command].at)
  }

  ghost predicate LeaderWritesOK(s: State, i: Id, ctx: ContextView, l: LeaderView) {
    && ctx.term in s.logs && s.logs[ctx.term] == ctx.wal
    && forall slot :: slot in l.inFlight ==> PendingOK(s, i, ctx, slot, l.inFlight[slot])
  }

  ghost predicate RoleWritesOK(s: State, i: Id, m: Member) {
    m.role.Leading? ==> LeaderWritesOK(s, i, m.ctx, m.role.l)
  }

  // The member still leads in the term in which it accepted the write.
  ghost predicate StillLeads(members: map<Id, Member>, w: Write) {
    w.leader in members && members[w.leader].role.Leading? && members[w.leader].ctx.term == w.term
  }

  ghost predicate IsPending(members: map<Id, Member>, command: nat, w: Write)
    requires StillLeads(members, w)
  {
    w.slot in members[w.leader].role.l.inFlight && members[w.leader].role.l.inFlight[w.slot].command == command
  }

  // A leader of the write's term has committed its slot.
  ghost predicate SlotCommitted(commits: set<Committed>, w: Write) {
    exists c :: c in commits && c.leader == w.leader && c.term == w.term && w.slot <= c.slot
  }

  ghost predicate WriteOK(s: State, command: nat, w: Write) {
    && Logged(s.logs, w) && w.at <= s.now && w.at <= Stamp(s.logs, w)
    && HasWon(s.wins, w.leader, w.term)
    && (command in Settled(s) ==> SlotCommitted(s.commits, w))
    && (StillLeads(s.members, w) ==>
          && w.slot <= s.members[w.leader].ctx.lastLogSlot
          && (command !in Settled(s) ==> IsPending(s.members, command, w)))
  }

  ghost predicate ReplyOK(s: State, r: Reply) {
    && r.command in s.writes && Logged(s.logs, s.writes[r.command])
    && Stamp(s.logs, s.writes[r.command]) < r.at <= s.now
  }

  ghost predicate RepliesOK(s: State) {
    && (forall a :: 0 <= a < |s.replies| ==> ReplyOK(s, s.replies[a]))
    && (forall a, b :: 0 <= a < b < |s.replies| ==> s.replies[a].command != s.replies[b].command)
    && (forall p :: p in s.waiting ==> RightlyStamped(s, p) && p.command !in Replied(s.replies))
  }

  ghost predicate WritesInv(s: State) {
    && (forall i :: i in s.members ==> RoleWritesOK(s, i, s.members[i]))
    && (forall command :: command in s.writes ==> WriteOK(s, command, s.writes[command]))
    && RepliesOK(s)
  }

  // ----- What it gives clients -----

  /** If the reply to one write precedes the arrival of another, on whatever leaders, then so do the timestamps of
      their log entries. */
  lemma ExternalConsistency(s: State, a: nat, later: nat)
    requires WritesInv(s) && a < |s.replies| && later in s.writes
    requires s.replies[a].at <= s.writes[later].at
    ensures s.replies[a].command in s.writes
    ensures Logged(s.logs, s.writes[s.replies[a].command]) && Logged(s.logs, s.writes[later])
    ensures Stamp(s.logs, s.writes[s.replies[a].command]) < Stamp(s.logs, s.writes[later])
  {
    assert WriteOK(s, later, s.writes[later]) && ReplyOK(s, s.replies[a]);
  }

  /** During a leadership every accepted write is pending at its leader or settled, never both; settled
      writes are committed, and a reply is sent at most once. */
  lemma WritesAreConserved(s: State, command: nat)
    requires WritesInv(s) && command in s.writes && StillLeads(s.members, s.writes[command])
    ensures IsPending(s.members, command, s.writes[command]) <==> command !in Settled(s)
    ensures command in Settled(s) ==> SlotCommitted(s.commits, s.writes[command])
    ensures s.writes[command].slot <= s.members[s.writes[command].leader].ctx.lastLogSlot
    ensures forall a, b :: 0 <= a < b < |s.replies| ==>
      !(s.replies[a].command == command && s.replies[b].command == command)
  {
    var w := s.writes[command];
    assert WriteOK(s, command, w) && RoleWritesOK(s, w.leader, s.members[w.leader]);
    if IsPending(s.members, command, w) {
      var l := s.members[w.leader].role.l;
      assert PendingOK(s, w.leader, s.members[w.leader].ctx, w.slot, l.inFlight[w.slot]);
    }
  }

  /** A write waits, as pending or in commit wait, on the very timestamp that the log entry at its slot carries in
      the leader's log. */
  lemma PendingWaitsOnEntry(s: State, i: Id, slot: nat)
    requires WritesInv(s) && i in s.members && s.members[i].role.Leading? && slot in s.members[i].role.l.inFlight
    ensures slot in s.members[i].ctx.wal
    ensures s.members[i].role.l.inFlight[slot].timestamp == s.members[i].ctx.wal[slot].timestamp
  {
    assert RoleWritesOK(s, i, s.members[i]);
    assert PendingOK(s, i, s.members[i].ctx, slot, s.members[i].role.l.inFlight[slot]);
  }

  // ----- Preservation -----

  // No recorded write loses its entry, and the logs of the other leaders' terms stay.
  ghost predicate LogsKept(s: State, i: Id, s': State) {
    && (forall command :: command in s.writes ==>
          && Logged(s.logs, s.writes[command]) && Logged(s'.logs, s.writes[command])
          && Stamp(s'.logs, s.writes[command]) == Stamp(s.logs, s.writes[command]))
    && (forall j :: j in s.members && j != i && s.members[j].role.Leading? ==>
          var term := s.members[j].ctx.term; term in s.logs && term in s'.logs && s'.logs[term] == s.logs[term])
  }

  lemma SameLogsKept(s: State, i: Id, s': State)
    requires WritesInv(s) && s'.logs == s.logs
    ensures LogsKept(s, i, s')
  {
    forall command | command in s.writes ensures Logged(s.logs, s.writes[command]) {
      assert WriteOK(s, command, s.writes[command]);
    }
    forall j | j in s.members && s.members[j].role.Leading? ensures s.members[j].ctx.term in s.logs {
      assert RoleWritesOK(s, j, s.members[j]);
    }
  }

  // One member changes; writes and answers are as before, and the entries of the writes stay.
  ghost predicate WritesKept(s: State, i: Id, s': State) {
    && i in s.members && i in s'.members
    && s'.members == s.members[i := s'.members[i]]
    && s'.writes == s.writes && s'.waiting == s.waiting && s'.replies == s.replies
    && s.commits <= s'.commits && s.wins <= s'.wins && s'.now == s.now
  }

  // What another member's leadership or an old write needs does not change.
  lemma OtherRoleKept(s: State, i: Id, s': State, j: Id)
    requires j in s.members && RoleWritesOK(s, j, s.members[j]) && LogsKept(s, i, s') && j != i
    requires forall command :: command in s.writes ==> command in s'.writes && s'.writes[command] == s.writes[command]
    requires s.members[j].role.Leading? ==>
      forall slot :: slot in s.members[j].role.l.inFlight ==> s.members[j].role.l.inFlight[slot].command !in Settled(s')
    ensures RoleWritesOK(s', j, s.members[j])
  {
    if s.members[j].role.Leading? {
      forall slot | slot in s.members[j].role.l.inFlight
        ensures PendingOK(s', j, s.members[j].ctx, slot, s.members[j].role.l.inFlight[slot])
      {
        assert PendingOK(s, j, s.members[j].ctx, slot, s.members[j].role.l.inFlight[slot]);
      }
    }
  }

  lemma UnsettledPending(s: State, j: Id)
    requires j in s.members && RoleWritesOK(s, j, s.members[j]) && s.members[j].role.Leading?
    ensures forall slot :: slot in s.members[j].role.l.inFlight ==>
      s.members[j].role.l.inFlight[slot].command !in Settled(s)
  {
    forall slot | slot in s.members[j].role.l.inFlight
      ensures s.members[j].role.l.inFlight[slot].command !in Settled(s)
    {
      assert PendingOK(s, j, s.members[j].ctx, slot, s.members[j].role.l.inFlight[slot]);
    }
  }

  lemma WriteMono(s: State, s': State, command: nat)
    requires command in s.writes && WriteOK(s, command, s.writes[command])
    requires Logged(s'.logs, s.writes[command]) && Stamp(s'.logs, s.writes[command]) == Stamp(s.logs, s.writes[command])
    requires s.commits <= s'.commits && s.wins <= s'.wins && s.now <= s'.now
    requires command in Settled(s') ==> command in Settled(s) || SlotCommitted(s'.commits, s.writes[command])
    requires StillLeads(s'.members, s.writes[command]) ==>
      && s.writes[command].slot <= s'.members[s.writes[command].leader].ctx.lastLogSlot
      && (command !in Settled(s') ==> IsPending(s'.members, command, s.writes[command]))
    ensures WriteOK(s', command, s.writes[command])
  {
    var w := s.writes[command];
    var at :| Win(w.leader, w.term, at) in s.wins;
    assert Win(w.leader, w.term, at) in s'.wins;
    if command in Settled(s) && command in Settled(s') {
      var c :| c in s.commits && c.leader == w.leader && c.term == w.term && w.slot <= c.slot;
      assert c in s'.commits;
    }
  }

  lemma RepliesKept(s: State, i: Id, s': State)
    requires RepliesOK(s) && LogsKept(s, i, s') && s'.waiting == s.waiting && s'.replies == s.replies && s.now <= s'.now
    requires forall command :: command in s.writes ==> command in s'.writes && s'.writes[command] == s.writes[command]
    ensures RepliesOK(s')
  {
    forall a | 0 <= a < |s.replies| ensures ReplyOK(s', s.replies[a]) { assert ReplyOK(s, s.replies[a]); }
    forall p | p in s.waiting ensures RightlyStamped(s', p) { assert RightlyStamped(s, p); }
  }

  lemma WritesFrame(s: State, i: Id, s': State)
    requires WritesInv(s) && WritesKept(s, i, s') && LogsKept(s, i, s') && RoleWritesOK(s', i, s'.members[i])
    requires forall command ::
      (command in s.writes && s.writes[command].leader == i && StillLeads(s'.members, s.writes[command])) ==>
        && s.writes[command].slot <= s'.members[i].ctx.lastLogSlot
        && (command !in Settled(s) ==> IsPending(s'.members, command, s.writes[command]))
    ensures WritesInv(s')
  {
    forall j | j in s'.members ensures RoleWritesOK(s', j, s'.members[j]) {
      if j != i {
        assert RoleWritesOK(s, j, s.members[j]);
        if s.members[j].role.Leading? { UnsettledPending(s, j); }
        OtherRoleKept(s, i, s', j);
      }
    }
    forall command | command in s'.writes ensures WriteOK(s', command, s'.writes[command]) {
      assert WriteOK(s, command, s.writes[command]);
      WriteMono(s, s', command);
    }
    RepliesKept(s, i, s');
  }

  // A member that does not lead afterwards owes nothing.
  lemma LeavingWrites(s: State, i: Id, m': Member, s': State)
    requires WritesInv(s) && WritesKept(s, i, s') && s'.logs == s.logs && s'.members[i] == m' && !m'.role.Leading?
    ensures WritesInv(s')
  {
    SameLogsKept(s, i, s');
    WritesFrame(s, i, s');
  }

  // A leader whose pending writes, log and term stay the same.
  lemma SamePending(s: State, i: Id, ctx: ContextView, l: LeaderView, s': State)
    requires WritesInv(s) && WritesKept(s, i, s') && s'.logs == s.logs && s'.members[i] == Member(ctx, Leading(l))
    requires s.members[i].role.Leading? && l.inFlight == s.members[i].role.l.inFlight
    requires ctx.term == s.members[i].ctx.term && ctx.wal == s.members[i].ctx.wal
    requires ctx.lastLogSlot == s.members[i].ctx.lastLogSlot
    ensures WritesInv(s')
  {
    SameLogsKept(s, i, s');
    assert RoleWritesOK(s, i, s.members[i]);
    forall slot | slot in l.inFlight ensures PendingOK(s', i, ctx, slot, l.inFlight[slot]) {
      assert PendingOK(s, i, s.members[i].ctx, slot, l.inFlight[slot]);
    }
    forall command | command in s.writes && s.writes[command].leader == i && StillLeads(s'.members, s.writes[command])
      ensures s.writes[command].slot <= ctx.lastLogSlot
        && (command !in Settled(s) ==> IsPending(s'.members, command, s.writes[command]))
    {
      assert WriteOK(s, command, s.writes[command]);
    }
    WritesFrame(s, i, s');
  }

  // A member that keeps its role and term, or follows.
  lemma KeptWrites(s: State, i: Id, m': Member, s': State)
    requires WritesInv(s) && WritesKept(s, i, s') && s'.logs == s.logs && s'.members[i] == m'
    requires m'.role.Leading? ==>
      && m'.role == s.members[i].role && m'.ctx.term == s.members[i].ctx.term
      && m'.ctx.wal == s.members[i].ctx.wal && m'.ctx.lastLogSlot == s.members[i].ctx.lastLogSlot
    ensures WritesInv(s')
  {
    if m'.role.Leading? { SamePending(s, i, m'.ctx, m'.role.l, s'); } else { LeavingWrites(s, i, m', s'); }
  }

  // ----- Elections -----

  // No write was accepted, and nobody leads, in a term that is won now.
  lemma TermIsNew(s: State, i: Id, s': State)
    requires ElectionInv(s) && ElectionInv(s') && WritesInv(s) && i in s.members && s.members[i].role.Campaigning?
    requires s'.wins == s.wins + {Win(i, s.members[i].ctx.term, s.now)}
    ensures forall command :: command in s.writes ==> s.writes[command].term != s.members[i].ctx.term
    ensures forall j :: j in s.members && s.members[j].role.Leading? ==> s.members[j].ctx.term != s.members[i].ctx.term
  {
    assert Win(i, s.members[i].ctx.term, s.now) in s'.wins;
    FirstToWin(s, i, s');
    forall command | command in s.writes ensures s.writes[command].term != s.members[i].ctx.term {
      assert WriteOK(s, command, s.writes[command]);
    }
    forall j | j in s.members && s.members[j].role.Leading? ensures s.members[j].ctx.term != s.members[i].ctx.term {
      assert MemberOK(s.members[j], j, s.members.Keys, s.ballots, s.wins, s.now);
    }
  }

  // The log of a new term overwrites no entry of a write, nor another leader's log.
  lemma NewTermKeepsLogs(s: State, i: Id, s': State, term: nat)
    requires WritesInv(s) && term in s'.logs && s'.logs == s.logs[term := s'.logs[term]]
    requires forall command :: command in s.writes ==> s.writes[command].term != term
    requires forall j :: j in s.members && s.members[j].role.Leading? ==> s.members[j].ctx.term != term
    ensures LogsKept(s, i, s')
  {
    SameLogsKept(s, i, s);
  }

  // A new leader has no pending write, and no write was accepted in its term.
  lemma ElectedWrites(s: State, i: Id, step: LeaderStep)
    requires ElectionInv(s) && WritesInv(s) && i in s.members && s.members[i].role.Campaigning?
    requires step.ctx.term == s.members[i].ctx.term && step.l.inFlight == map[]
    requires ElectionInv(VoteReplyNext(s, i, Elected(step)))
    ensures WritesInv(VoteReplyNext(s, i, Elected(step)))
  {
    var s' := VoteReplyNext(s, i, Elected(step));
    TermIsNew(s, i, s');
    NewTermKeepsLogs(s, i, s', step.ctx.term);
    WritesFrame(s, i, s');
  }

  lemma VoteReplyWrites(s: State, i: Id, answer: Answer, r: VoteResult)
    requires ElectionInv(s) && WritesInv(s) && i in s.members && s.members[i].role.Campaigning?
    requires answer.response.memberId in s.members[i].role.c.score
    requires ElectFacts(s.members[i], answer.response, r, s.now) && ElectionInv(VoteReplyNext(s, i, r))
    ensures WritesInv(VoteReplyNext(s, i, r))
  {
    var s' := VoteReplyNext(s, i, r);
    match r
    case Waiting(c) => LeavingWrites(s, i, s'.members[i], s');
    case GivenUp(_) => LeavingWrites(s, i, s'.members[i], s');
    case Elected(step) => ElectedWrites(s, i, step);
  }

  // ----- Accepting a write -----

  // A write is appended past the slots of the earlier writes of its term, which its own leader accepted.
  lemma AppendKeepsLogs(s: State, i: Id, e: LogEntry, s': State)
    requires ElectionInv(s) && WritesInv(s) && i in s.members && s.members[i].role.Leading?
    requires e.slot == s.members[i].ctx.lastLogSlot + 1
    requires s'.logs == s.logs[s.members[i].ctx.term := Append(s.members[i].ctx.wal, e)]
    ensures LogsKept(s, i, s')
  {
    var ctx := s.members[i].ctx;
    SameLogsKept(s, i, s);
    assert MemberOK(s.members[i], i, s.members.Keys, s.ballots, s.wins, s.now) && RoleWritesOK(s, i, s.members[i]);
    forall command | command in s.writes
      ensures Logged(s'.logs, s.writes[command]) && Stamp(s'.logs, s.writes[command]) == Stamp(s.logs, s.writes[command])
    {
      var w := s.writes[command];
      assert WriteOK(s, command, w);
      if w.term == ctx.term {
        var at :| Win(w.leader, w.term, at) in s.wins;
        var at' :| Win(i, ctx.term, at') in s.wins;
        OneLeaderPerTerm(s, Win(w.leader, w.term, at), Win(i, ctx.term, at'));
      }
    }
    forall j | j in s.members && j != i && s.members[j].role.Leading? ensures s.members[j].ctx.term != ctx.term {
      if s.members[j].ctx.term == ctx.term { LeadersDiffer(s, i, j); }
    }
  }

  lemma NewWrite(s: State, i: Id, command: nat, value: string, reading: TimeInterval)
    requires ElectionInv(s) && WritesInv(s) && ClientWriteEnabled(s, i, command, reading)
    ensures var m := s.members[i];
      WritesInv(ClientWriteNext(s, i, command, OnClientWrite(m.ctx, m.role.l, command, value, reading)))
  {
    var m := s.members[i];
    var step := OnClientWrite(m.ctx, m.role.l, command, value, reading);
    var s' := ClientWriteNext(s, i, command, step);
    AppendKeepsLogs(s, i, LogEntry(m.ctx.term, m.ctx.lastLogSlot + 1, value, reading.latest), s');
    NewCommand(s, command);
    NewWriteRoles(s, i, command, value, reading, step, s');
    assert MemberOK(m, i, s.members.Keys, s.ballots, s.wins, s.now);
    forall k | k in s'.writes ensures WriteOK(s', k, s'.writes[k]) {
      if k != command { OldWrite(s, i, command, value, reading, step, s', k); }
    }
    RepliesKept(s, i, s');
  }

  // A command that was not seen before is not settled.
  lemma NewCommand(s: State, command: nat)
    requires WritesInv(s) && command !in s.writes
    ensures command !in Settled(s)
  {
    forall p | p in s.waiting ensures p.command in s.writes { assert RightlyStamped(s, p); }
    forall a | 0 <= a < |s.replies| ensures s.replies[a].command in s.writes { assert ReplyOK(s, s.replies[a]); }
  }

  lemma NewWriteRoles(s: State, i: Id, command: nat, value: string, reading: TimeInterval, step: LeaderStep, s': State)
    requires WritesInv(s) && i in s.members && s.members[i].role.Leading?
    requires command !in s.writes && command !in Settled(s)
    requires step == OnClientWrite(s.members[i].ctx, s.members[i].role.l, command, value, reading)
    requires s' == ClientWriteNext(s, i, command, step) && LogsKept(s, i, s')
    ensures forall j :: j in s'.members ==> RoleWritesOK(s', j, s'.members[j])
  {
    forall j | j in s'.members ensures RoleWritesOK(s', j, s'.members[j]) {
      assert RoleWritesOK(s, j, s.members[j]);
      if s.members[j].role.Leading? { UnsettledPending(s, j); }
      if j != i {
        OtherRoleKept(s, i, s', j);
      } else {
        forall slot | slot in step.l.inFlight ensures PendingOK(s', i, step.ctx, slot, step.l.inFlight[slot]) {
          if slot in s.members[i].role.l.inFlight {
            assert PendingOK(s, i, s.members[i].ctx, slot, s.members[i].role.l.inFlight[slot]);
          }
        }
      }
    }
  }

  lemma OldWrite(s: State, i: Id, command: nat, value: string, reading: TimeInterval, step: LeaderStep, s': State,
                 k: nat)
    requires WritesInv(s) && i in s.members && s.members[i].role.Leading? && command !in s.writes && k in s.writes
    requires step == OnClientWrite(s.members[i].ctx, s.members[i].role.l, command, value, reading)
    requires s' == ClientWriteNext(s, i, command, step) && LogsKept(s, i, s')
    ensures WriteOK(s', k, s.writes[k])
  {
    var w := s.writes[k];
    assert WriteOK(s, k, w) && RoleWritesOK(s, i, s.members[i]);
    if k !in Settled(s) && StillLeads(s'.members, w) && w.leader == i {
      assert PendingOK(s, i, s.members[i].ctx, w.slot, s.members[i].role.l.inFlight[w.slot]);
    }
    WriteMono(s, s', k);
  }

  // ----- Committing and answering -----

  // What an accept response does to the pending writes.
  ghost predicate ResolveFacts(m: Member, r: LeaderStep)
    requires m.role.Leading?
  {
    || (r.ctx.committedSlot == m.ctx.committedSlot && r.l.inFlight == m.role.l.inFlight && r.resolved == map[])
    || (m.ctx.committedSlot < r.ctx.committedSlot <= m.ctx.lastLogSlot
        && r.l.inFlight == Beyond(m.role.l.inFlight, r.ctx.committedSlot)
        && r.resolved == UpTo(m.role.l.inFlight, r.ctx.committedSlot))
  }

  lemma SuccessResolves(ctx: ContextView, l: LeaderView, response: AcceptResponse)
    requires ctx.peerIds != {} && response.memberId in l.score
    ensures ResolveFacts(Member(ctx, Leading(l)), OnSuccess(ctx, l, response))
  {}

  lemma AcceptReplyResolves(m: Member, response: AcceptResponse, tSend: Time)
    requires m.role.Leading? && CanHandle(m.ctx, m.role.l, response)
    ensures ResolveFacts(m, OnAcceptResponse(m.ctx, m.role.l, response, tSend))
  {
    if !Disregards(m.ctx, response) {
      var contacts := NoteContact(m.role.l.lastContact, response);
      var ctx1 := m.ctx.(lease := RenewedLease(m.ctx, contacts));
      var l1 := m.role.l.(lastContact := contacts);
      if response.success { SuccessResolves(ctx1, l1, response); }
    }
  }

  // The write was accepted by this leadership at a slot that is now committed, and waits on its entry's timestamp.
  ghost predicate Resolves(s: State, i: Id, step: LeaderStep, p: PendingWrite) {
    && RightlyStamped(s, p) && p.command !in Settled(s)
    && s.writes[p.command].leader == i && s.writes[p.command].term == step.ctx.term
    && s.writes[p.command].slot <= step.ctx.committedSlot
  }

  lemma ResolvedPending(s: State, i: Id, step: LeaderStep)
    requires WritesInv(s) && i in s.members && s.members[i].role.Leading?
    requires ResolveFacts(s.members[i], step) && step.ctx.term == s.members[i].ctx.term
    ensures forall p :: p in step.resolved.Values ==> Resolves(s, i, step, p)
  {
    assert RoleWritesOK(s, i, s.members[i]);
    forall p | p in step.resolved.Values ensures Resolves(s, i, step, p) {
      var slot :| slot in step.resolved && step.resolved[slot] == p;
      assert PendingOK(s, i, s.members[i].ctx, slot, s.members[i].role.l.inFlight[slot]);
    }
  }

  // The writes handed over are pending ones whose slots have just been committed.
  lemma ResolvedWrites(s: State, i: Id, step: LeaderStep)
    requires ElectionInv(s) && WritesInv(s) && i in s.members && s.members[i].role.Leading?
    requires ResolveFacts(s.members[i], step) && step.ctx.committedSlot > s.members[i].ctx.committedSlot
    requires step.ctx.term == s.members[i].ctx.term && step.ctx.wal == s.members[i].ctx.wal
    requires step.ctx.lastLogSlot == s.members[i].ctx.lastLogSlot
    ensures WritesInv(AcceptReplyNext(s, i, step))
  {
    var s' := AcceptReplyNext(s, i, step);
    ResolvedPending(s, i, step);
    assert Awaiting(s'.waiting) == Awaiting(s.waiting) + Awaiting(step.resolved.Values);
    SameLogsKept(s, i, s');
    forall j | j in s'.members ensures RoleWritesOK(s', j, s'.members[j]) {
      ResolvedRole(s, i, step, j);
    }
    assert CommitRecord(i, step) in s'.commits;
    forall command | command in s'.writes ensures WriteOK(s', command, s'.writes[command]) {
      ResolvedWrite(s, i, step, command);
    }
    ResolvedReplies(s, i, step);
  }

  lemma ResolvedReplies(s: State, i: Id, step: LeaderStep)
    requires WritesInv(s) && i in s.members && forall p :: p in step.resolved.Values ==> Resolves(s, i, step, p)
    ensures RepliesOK(AcceptReplyNext(s, i, step))
  {
    var s' := AcceptReplyNext(s, i, step);
    forall a | 0 <= a < |s.replies| ensures ReplyOK(s', s.replies[a]) { assert ReplyOK(s, s.replies[a]); }
    forall p | p in s'.waiting ensures RightlyStamped(s', p) && p.command !in Replied(s'.replies) {
      assert RightlyStamped(s, p);
    }
  }

  // A write that is still pending afterwards lies beyond the committed slot, and so was not handed over.
  lemma ResolvedRole(s: State, i: Id, step: LeaderStep, j: Id)
    requires ElectionInv(s) && WritesInv(s) && i in s.members && s.members[i].role.Leading? && j in s.members
    requires ResolveFacts(s.members[i], step) && step.ctx.committedSlot > s.members[i].ctx.committedSlot
    requires step.ctx.term == s.members[i].ctx.term && step.ctx.wal == s.members[i].ctx.wal
    requires step.ctx.lastLogSlot == s.members[i].ctx.lastLogSlot
    requires forall p :: p in step.resolved.Values ==> Resolves(s, i, step, p)
    requires Awaiting(AcceptReplyNext(s, i, step).waiting) == Awaiting(s.waiting) + Awaiting(step.resolved.Values)
    ensures RoleWritesOK(AcceptReplyNext(s, i, step), j, AcceptReplyNext(s, i, step).members[j])
  {
    var s' := AcceptReplyNext(s, i, step);
    assert RoleWritesOK(s, j, s.members[j]);
    if s'.members[j].role.Leading? {
      forall slot | slot in s'.members[j].role.l.inFlight
        ensures PendingOK(s', j, s'.members[j].ctx, slot, s'.members[j].role.l.inFlight[slot])
      {
        assert PendingOK(s, j, s.members[j].ctx, slot, s.members[j].role.l.inFlight[slot]);
      }
    }
  }

  lemma ResolvedWrite(s: State, i: Id, step: LeaderStep, command: nat)
    requires WritesInv(s) && i in s.members && s.members[i].role.Leading? && command in s.writes
    requires ResolveFacts(s.members[i], step) && step.ctx.committedSlot > s.members[i].ctx.committedSlot
    requires step.ctx.term == s.members[i].ctx.term && step.ctx.lastLogSlot == s.members[i].ctx.lastLogSlot
    requires forall p :: p in step.resolved.Values ==> Resolves(s, i, step, p)
    requires Awaiting(AcceptReplyNext(s, i, step).waiting) == Awaiting(s.waiting) + Awaiting(step.resolved.Values)
    requires CommitRecord(i, step) in AcceptReplyNext(s, i, step).commits
    ensures WriteOK(AcceptReplyNext(s, i, step), command, s.writes[command])
  {
    var s' := AcceptReplyNext(s, i, step);
    var w := s.writes[command];
    assert WriteOK(s, command, w);
    if command !in Settled(s) && StillLeads(s'.members, w) && w.leader == i && w.slot in step.resolved {
      assert IsPending(s.members, command, w);
      assert step.resolved[w.slot] in step.resolved.Values;
      assert command in Awaiting(step.resolved.Values);
    }
    WriteMono(s, s', command);
  }

  lemma AcceptReplyWrites(s: State, i: Id, ack: Ack, step: LeaderStep)
    requires ElectionInv(s) && WritesInv(s) && i in s.members && s.members[i].role.Leading?
    requires AckFacts(s.members[i], ack.response, step, s.now) && ResolveFacts(s.members[i], step)
    ensures WritesInv(AcceptReplyNext(s, i, step))
  {
    if step.ctx.committedSlot > s.members[i].ctx.committedSlot {
      ResolvedWrites(s, i, step);
    } else {
      SamePending(s, i, step.ctx, step.l, AcceptReplyNext(s, i, step));
    }
  }

  lemma AnsweredWrites(s: State, write: PendingWrite, reading: TimeInterval)
    requires WritesInv(s) && AnsweredEnabled(s, write, reading)
    ensures WritesInv(AnsweredNext(s, write))
  {
    var s' := AnsweredNext(s, write);
    AnsweredSettled(s, write);
    forall j | j in s'.members ensures RoleWritesOK(s', j, s'.members[j]) {
      assert RoleWritesOK(s, j, s.members[j]);
      if s.members[j].role.Leading? {
        forall slot | slot in s.members[j].role.l.inFlight
          ensures PendingOK(s', j, s.members[j].ctx, slot, s.members[j].role.l.inFlight[slot])
        {
          assert PendingOK(s, j, s.members[j].ctx, slot, s.members[j].role.l.inFlight[slot]);
        }
      }
    }
    forall k | k in s'.writes ensures WriteOK(s', k, s'.writes[k]) { assert WriteOK(s, k, s.writes[k]); }
    AnsweredReplies(s, write, reading);
  }

  // Answering moves one command from waiting to replied; no other waiting write has it.
  lemma AnsweredSettled(s: State, write: PendingWrite)
    requires RepliesOK(s) && write in s.waiting
    ensures Replied(AnsweredNext(s, write).replies) == Replied(s.replies) + {write.command}
    ensures forall p :: p in s.waiting && p.command == write.command ==> p == write
    ensures Settled(AnsweredNext(s, write)) == Settled(s)
  {
    var s' := AnsweredNext(s, write);
    var reply := Reply(write.command, s.now);
    assert reply in s'.replies;
    assert forall r :: r in s'.replies <==> r in s.replies || r == reply;
    assert RightlyStamped(s, write);
    forall p | p in s.waiting && p.command == write.command ensures p == write { assert RightlyStamped(s, p); }
    forall command | command in Settled(s) ensures command in Settled(s') {
      if command in Awaiting(s.waiting) && command != write.command {
        var p :| p in s.waiting && p.command == command;
        assert p in s'.waiting;
      }
    }
  }

  lemma AnsweredReplies(s: State, write: PendingWrite, reading: TimeInterval)
    requires WritesInv(s) && AnsweredEnabled(s, write, reading)
    ensures RepliesOK(AnsweredNext(s, write))
  {
    var s' := AnsweredNext(s, write);
    AnsweredSettled(s, write);
    assert RightlyStamped(s, write);
    forall a | 0 <= a < |s'.replies| ensures ReplyOK(s', s'.replies[a]) {
      if a < |s.replies| { assert ReplyOK(s, s.replies[a]); }
    }
    forall a, b | 0 <= a < b < |s'.replies| ensures s'.replies[a].command != s'.replies[b].command {
      if b == |s.replies| { assert s.replies[a].command in Replied(s.replies); }
    }
    forall p | p in s'.waiting ensures RightlyStamped(s', p) && p.command !in Replied(s'.replies) {
      assert RightlyStamped(s, p);
    }
  }

  lemma TickWrites(s: State, t: Time)
    requires WritesInv(s) && t >= s.now
    ensures WritesInv(s.(now := t))
  {
    var s' := s.(now := t);
    forall j | j in s'.members ensures RoleWritesOK(s', j, s'.members[j]) {
      assert RoleWritesOK(s, j, s.members[j]);
      if s.members[j].role.Leading? {
        forall slot | slot in s.members[j].role.l.inFlight
          ensures PendingOK(s', j, s.members[j].ctx, slot, s.members[j].role.l.inFlight[slot])
        {
          assert PendingOK(s, j, s.members[j].ctx, slot, s.members[j].role.l.inFlight[slot]);
        }
      }
    }
    forall k | k in s'.writes ensures WriteOK(s', k, s'.writes[k]) { assert WriteOK(s, k, s.writes[k]); }
    forall a | 0 <= a < |s.replies| ensures ReplyOK(s', s.replies[a]) { assert ReplyOK(s, s.replies[a]); }
    forall p | p in s.waiting ensures RightlyStamped(s', p) { assert RightlyStamped(s, p); }
  }

  // ----- Every event -----

  /** Every event keeps the invariant. */
  lemma WritesStep(s: State, e: Event)
    requires ElectionInv(s) && WritesInv(s) && Enabled(s, e)
    ensures WritesInv(Next(s, e))
  {
    ElectionStep(s, e);
    if e.PreVoteReply? || e.VoteReply? { CampaignWritesStep(s, e); }
    else if e.VoteAsked? { VoteWrites(s, e); }
    else if e.AcceptAsked? { AcceptWrites(s, e); }
    else if e.Tick? { TickWrites(s, e.t); }
    else { OtherWritesStep(s, e); }
  }

  lemma VoteWrites(s: State, e: Event)
    requires WritesInv(s) && e.VoteAsked? && VoteAskedEnabled(s, e.i, e.ask, e.roleCheck, e.check, e.extend)
    ensures WritesInv(VoteAskedNext(s, e.i, e.ask,
      ProcessVoteRequest(s.members[e.i], e.ask.request, e.roleCheck, e.check, e.extend)))
  {
    var r := ProcessVoteRequest(s.members[e.i], e.ask.request, e.roleCheck, e.check, e.extend);
    VoteRequestFacts(s.members[e.i], e.ask.request, e.roleCheck, e.check, e.extend, s.now);
    KeptWrites(s, e.i, r.m, VoteAskedNext(s, e.i, e.ask, r));
  }

  lemma CampaignWritesStep(s: State, e: Event)
    requires ElectionInv(s) && WritesInv(s) && Enabled(s, e) && ElectionInv(Next(s, e))
    requires e.PreVoteReply? || e.VoteReply?
    ensures WritesInv(Next(s, e))
  {
    var m := s.members[e.i];
    if e.VoteReply? {
      VoteReplyFacts(m, e.answer, e.reading, e.tSends, s.now);
      VoteReplyWrites(s, e.i, e.answer, OnVoteResponse(m.ctx, m.role.c, e.answer.response, e.reading, e.tSends));
    } else {
      PreVoteWrites(s, e.i, OnPreVoteResponse(m.ctx, m.role.p, e.preVote, e.reading));
    }
  }

  lemma PreVoteWrites(s: State, i: Id, r: PreVoteResult)
    requires WritesInv(s) && i in s.members
    ensures WritesInv(PreVoteReplyNext(s, i, r))
  {
    var s' := PreVoteReplyNext(s, i, r);
    LeavingWrites(s, i, s'.members[i], s');
  }

  lemma AcceptWrites(s: State, e: Event)
    requires WritesInv(s) && e.AcceptAsked? && AcceptAskedEnabled(s, e.i, e.sent, e.roleCheck, e.check, e.extend)
    ensures WritesInv(AcceptAskedNext(s, e.i, e.sent,
      ProcessAcceptRequest(s.members[e.i], e.sent.request, e.roleCheck, e.check, e.extend)))
  {
    var r := ProcessAcceptRequest(s.members[e.i], e.sent.request, e.roleCheck, e.check, e.extend);
    AcceptRequestFacts(s.members[e.i], e.sent.request, e.roleCheck, e.check, e.extend, s.now);
    KeptWrites(s, e.i, r.m, AcceptAskedNext(s, e.i, e.sent, r));
  }

  lemma TimerWrites(s: State, e: Event)
    requires WritesInv(s) && Enabled(s, e) && (Quiet(e) || Routine(e))
    ensures WritesInv(Next(s, e))
  {
    if Quiet(e) {
      QuietMemberFacts(s.members[e.i], e, s.now);
      KeptWrites(s, e.i, QuietMember(s.members[e.i], e, s.now), Next(s, e));
    } else {
      var step := RoutineStep(s.members[e.i], e, s.now);
      RoutineStepFacts(s.members[e.i], e, s.now);
      SamePending(s, e.i, step.ctx, step.l, Next(s, e));
    }
  }

  lemma OtherWritesStep(s: State, e: Event)
    requires ElectionInv(s) && WritesInv(s) && Enabled(s, e)
    requires Quiet(e) || Routine(e) || e.AcceptReply? || e.ClientWrite? || e.Answered?
    ensures WritesInv(Next(s, e))
  {
    if Quiet(e) || Routine(e) {
      TimerWrites(s, e);
    } else if e.AcceptReply? {
      var m := s.members[e.i];
      AcceptReplyFacts(m, e.ack.response, e.tSend, s.now);
      AcceptReplyResolves(m, e.ack.response, e.tSend);
      AcceptReplyWrites(s, e.i, e.ack, OnAcceptResponse(m.ctx, m.role.l, e.ack.response, e.tSend));
    } else if e.ClientWrite? {
      NewWrite(s, e.i, e.command, e.value, e.reading);
    } else {
      AnsweredWrites(s, e.write, e.reading);
    }
  }
}
