/** The leader: replicating its log, committing, renewing its lease and answering writes. */
module LeaderRole {
  import opened Types
  import opened TrueTime
  import opened Wal
  import opened Quorums
  import opened Views

  const ACCEPT_REQUEST_TIMEOUT: Time := 60_000 * MILLISECOND

  /** What a handler leaves behind: the new state, requests to dispatch, and writes to answer. */
  datatype LeaderStep = LeaderStep(
    ctx: ContextView,
    l: LeaderView,
    requests: map<Id, AcceptRequest>,
    resolved: map<nat, PendingWrite>)

  function NewLeader(score: map<Id, LogPosition>): LeaderView {
    LeaderView(
      map j | j in score :: Progress(score[j], []),
      map j | j in score :: UNIX_EPOCH,
      map[],
      0)
  }

  // ----- One follower's progress -----

  function PushBatch(p: Progress, highestSlot: nat, sentAt: Time): Progress {
    p.(batches := p.batches + [InFlightBatch(sentAt, highestSlot)])
  }

  // Drops batches from the front as long as they are acknowledged.
  function AckBatches(batches: seq<InFlightBatch>, acked: nat): seq<InFlightBatch> {
    if batches != [] && batches[0].highestSlot <= acked then AckBatches(batches[1..], acked) else batches
  }

  function ClearBatches(p: Progress): Progress {
    Progress(p.pos.(sentSlot := SaturatingPred(p.pos.nextSlot)), [])
  }

  // ----- Dispatching -----

  // The slot just before the entries to send.
  function Anchor(pos: LogPosition): nat {
    if pos.sentSlot > pos.nextSlot then pos.sentSlot else SaturatingPred(pos.nextSlot)
  }

  // Without this the dispatch panics.
  predicate AnchorPresent(wal: Log, pos: LogPosition) {
    Anchor(pos) == 0 || Anchor(pos) in wal
  }

  function AcceptFor(ctx: ContextView, pos: LogPosition, tSend: Time, minNextTs: Option<Time>): AcceptRequest
    requires AnchorPresent(ctx.wal, pos)
  {
    var anchor := Anchor(pos);
    AcceptRequest(
      ctx.term,
      ctx.memberId,
      anchor,
      if anchor == 0 then 0 else ctx.wal[anchor].term,
      EntriesFrom(ctx.wal, anchor + 1),
      ctx.committedSlot,
      tSend,
      minNextTs)
  }

  function NoteSent(p: Progress, request: AcceptRequest): Progress {
    if request.entries == [] then p
    else
      var slot := request.entries[|request.entries| - 1].slot;
      PushBatch(p.(pos := p.pos.(sentSlot := slot)), slot, request.tSend)
  }

  predicate CanBroadcast(ctx: ContextView, l: LeaderView, tSends: map<Id, Time>) {
    forall j :: j in l.score ==> j in tSends && AnchorPresent(ctx.wal, l.score[j].pos)
  }

  function Broadcast(ctx: ContextView, l: LeaderView, tSends: map<Id, Time>, minNextTs: Option<Time>): LeaderStep
    requires CanBroadcast(ctx, l, tSends)
  {
    var requests := map j | j in l.score :: AcceptFor(ctx, l.score[j].pos, tSends[j], minNextTs);
    LeaderStep(
      ctx,
      l.(score := map j | j in l.score :: NoteSent(l.score[j], requests[j])),
      requests,
      map[])
  }

  // ----- Taking over -----

  function Restamp(m: Log, term: nat): Log {
    map s | s in m :: m[s].(term := term)
  }

  // Every uncommitted entry is rewritten in the leader's own term.
  function TakeOver(ctx: ContextView): ContextView {
    var own := Restamp(ctx.uncommitted, ctx.term);
    ctx.(
      uncommitted := own,
      wal := ctx.wal + own,
      lastLogSlot := if own == map[] then ctx.lastLogSlot else Top(own),
      lastLogTerm := if own == map[] then ctx.lastLogTerm else ctx.term)
  }

  function PointAt(p: Progress, next: nat): Progress { p.(pos := p.pos.(nextSlot := next)) }

  function StartFrom(l: LeaderView, next: nat): LeaderView {
    l.(score := map j | j in l.score :: PointAt(l.score[j], next))
  }

  function PointPastLast(l: LeaderView, ctx: ContextView): LeaderView {
    if ctx.uncommitted == map[] then l else StartFrom(l, Top(ctx.uncommitted) + 1)
  }

  function ProcessUncommitted(ctx: ContextView, l: LeaderView, tSends: map<Id, Time>): LeaderStep
    requires CanBroadcast(TakeOver(ctx), PointPastLast(l, TakeOver(ctx)), tSends)
  {
    Broadcast(TakeOver(ctx), PointPastLast(l, TakeOver(ctx)), tSends, None)
  }

  // ----- Client writes and timers -----

  function OnClientWrite(ctx: ContextView, l: LeaderView, command: nat, value: string, reading: TimeInterval)
    : LeaderStep
  {
    var slot := ctx.lastLogSlot + 1;
    var e := LogEntry(ctx.term, slot, value, reading.latest);
    LeaderStep(
      ctx.(
        wal := Append(ctx.wal, e),
        lastLogSlot := slot,
        lastLogTerm := ctx.term,
        uncommitted := Append(ctx.uncommitted, e)),
      l.(inFlight := l.inFlight[slot := PendingWrite(reading.latest, command)], pendingWrites := l.pendingWrites + 1),
      map[],
      map[])
  }

  function OnWriteFlush(ctx: ContextView, l: LeaderView, tSends: map<Id, Time>): LeaderStep
    requires CanBroadcast(ctx, l, tSends)
  {
    if l.pendingWrites == 0 then LeaderStep(ctx, l, map[], map[])
    else
      var step := Broadcast(ctx, l, tSends, None);
      step.(l := step.l.(pendingWrites := 0))
  }

  // The promise that no later write gets a smaller timestamp, capped at the lease.
  function MinNextTs(ctx: ContextView, reading: TimeInterval): Time {
    if ctx.lease.Some? then Min(reading.latest, ctx.lease.value) else reading.latest
  }

  function OnHeartbeat(ctx: ContextView, l: LeaderView, reading: TimeInterval, tSends: map<Id, Time>): LeaderStep
    requires CanBroadcast(ctx, l, tSends)
  {
    var ts := MinNextTs(ctx, reading);
    Broadcast(AdvanceTSafe(ctx, ts - MILLISECOND), l, tSends, Some(ts))
  }

  predicate TimedOut(p: Progress, now: Time) {
    p.batches != [] && now - p.batches[0].sentAt > ACCEPT_REQUEST_TIMEOUT
  }

  function DropIfTimedOut(p: Progress, now: Time): Progress {
    if TimedOut(p, now) then ClearBatches(p) else p
  }

  function OnAcceptTimeoutCheck(l: LeaderView, now: Time): LeaderView {
    l.(score := map j | j in l.score :: DropIfTimedOut(l.score[j], now))
  }

  // ----- Accept responses -----

  predicate Disregards(ctx: ContextView, response: AcceptResponse) {
    response.term < ctx.term || (!response.success && response.conflictHint.None?)
  }

  function NoteContact(contacts: map<Id, Time>, response: AcceptResponse): map<Id, Time> {
    var j := response.memberId;
    contacts[j := if j in contacts then Max(contacts[j], response.echoedTSend) else response.echoedTSend]
  }

  // The lease that a quorum's contact times allow; never shorter than the present one.
  ghost function RenewedLease(ctx: ContextView, contacts: map<Id, Time>): Option<Time>
    requires ctx.peerIds != {}
  {
    var need := QuorumOf(ctx) - 1;
    if |contacts| < need then ctx.lease
    else
      var proposed := QuorumValue(contacts, need) + LEASE_LENGTH;
      if ctx.lease.None? || proposed > ctx.lease.value then Some(proposed) else ctx.lease
  }

  function Matches(score: map<Id, Progress>): map<Id, nat> {
    map j | j in score :: score[j].pos.matchSlot
  }

  function Acknowledge(p: Progress, slot: nat): Progress {
    Progress(
      LogPosition(slot, slot + 1, if p.pos.sentSlot < slot then slot else p.pos.sentSlot),
      AckBatches(p.batches, slot))
  }

  function UpTo(m: map<nat, PendingWrite>, slot: nat): map<nat, PendingWrite> {
    map s | s in m && s <= slot :: m[s]
  }

  function Beyond(m: map<nat, PendingWrite>, slot: nat): map<nat, PendingWrite> {
    map s | s in m && s > slot :: m[s]
  }

  // Commits what a quorum holds, and hands over the writes that may now be answered.
  function Commit(ctx: ContextView, l: LeaderView): LeaderStep
    requires ctx.peerIds != {}
  {
    var slot := QuorumSlot(Matches(l.score), QuorumOf(ctx) - 1, ctx.lastLogSlot);
    if slot > ctx.committedSlot
    then LeaderStep(
        CommitThrough(ctx, slot), l.(inFlight := Beyond(l.inFlight, slot)), map[], UpTo(l.inFlight, slot))
    else LeaderStep(ctx, l, map[], map[])
  }

  function OnSuccess(ctx: ContextView, l: LeaderView, response: AcceptResponse): LeaderStep
    requires ctx.peerIds != {} && response.memberId in l.score
  {
    var p := l.score[response.memberId];
    if response.lastWrittenSlot > p.pos.matchSlot
    then Commit(ctx, l.(score := l.score[response.memberId := Acknowledge(p, response.lastWrittenSlot)]))
    else LeaderStep(ctx, l, map[], map[])
  }

  // The slot from which to send after a rejection.
  function NextAfter(wal: Log, hint: ConflictHint): nat {
    if hint.conflictTerm == 0 then hint.conflictFirstSlot
    else
      var highest := HighestSlotForTerm(wal, hint.conflictTerm);
      if highest.Some? then highest.value + 1 else hint.conflictFirstSlot
  }

  function Reprobe(wal: Log, p: Progress, hint: ConflictHint): Progress {
    var cleared := ClearBatches(p);
    cleared.(pos := cleared.pos.(nextSlot := NextAfter(wal, hint)))
  }

  function OnConflict(ctx: ContextView, l: LeaderView, response: AcceptResponse, tSend: Time): LeaderStep
    requires response.conflictHint.Some? && response.memberId in l.score
    requires AnchorPresent(ctx.wal, Reprobe(ctx.wal, l.score[response.memberId], response.conflictHint.value).pos)
  {
    var j := response.memberId;
    var p := Reprobe(ctx.wal, l.score[j], response.conflictHint.value);
    var request := AcceptFor(ctx, p.pos, tSend, None);
    LeaderStep(ctx, l.(score := l.score[j := NoteSent(p, request)]), map[j := request], map[])
  }

  // The handler reaches no `expect` that fails.
  predicate CanHandle(ctx: ContextView, l: LeaderView, response: AcceptResponse) {
    Disregards(ctx, response)
    || (&& ctx.peerIds != {}
        && response.memberId in l.score
        && (!response.success ==>
            AnchorPresent(ctx.wal, Reprobe(ctx.wal, l.score[response.memberId], response.conflictHint.value).pos)))
  }

  ghost function OnAcceptResponse(ctx: ContextView, l: LeaderView, response: AcceptResponse, tSend: Time): LeaderStep
    requires CanHandle(ctx, l, response)
  {
    if Disregards(ctx, response) then LeaderStep(ctx, l, map[], map[])
    else
      var contacts := NoteContact(l.lastContact, response);
      var ctx1 := ctx.(lease := RenewedLease(ctx, contacts));
      var l1 := l.(lastContact := contacts);
      if response.success then OnSuccess(ctx1, l1, response) else OnConflict(ctx1, l1, response, tSend)
  }
}
