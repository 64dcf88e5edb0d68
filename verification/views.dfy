/** The state of a member as a value: what its context and its current role hold. */
module Views {
  import opened Types
  import opened TrueTime
  import opened Quorums

  datatype ContextView = ContextView(
    memberId: Id,
    peerIds: set<Id>,
    term: nat,
    tSafe: Option<Time>,
    lease: Option<Time>,
    lastLogTerm: nat,
    lastLogSlot: nat,
    committedSlot: nat,
    uncommitted: Log,
    wal: Log)

  datatype VoteRecord = VoteRecord(term: nat, candidateId: Id)

  datatype FollowerView = FollowerView(currentLeaderId: Option<Id>, voteRecord: Option<VoteRecord>)

  datatype PreCandidateView = PreCandidateView(board: map<Id, Option<PreVoteResponse>>)

  datatype LogPosition = LogPosition(matchSlot: nat, nextSlot: nat, sentSlot: nat)

  datatype CandidateView = CandidateView(
    votes: map<Id, Option<VoteResponse>>,
    score: map<Id, LogPosition>,
    dispatched: Option<Time>,
    pending: Log)

  datatype InFlightBatch = InFlightBatch(sentAt: Time, highestSlot: nat)

  // Replication state of one follower, and the batches sent to it but not yet acknowledged.
  datatype Progress = Progress(pos: LogPosition, batches: seq<InFlightBatch>)

  // A client write that waits for its slot to commit; commands are opaque numbers.
  datatype PendingWrite = PendingWrite(timestamp: Time, command: nat)

  datatype LeaderView = LeaderView(
    score: map<Id, Progress>,
    lastContact: map<Id, Time>,
    inFlight: map<nat, PendingWrite>,
    pendingWrites: nat)

  datatype Role =
    | Following(f: FollowerView)
    | PreCampaigning(p: PreCandidateView)
    | Campaigning(c: CandidateView)
    | Leading(l: LeaderView)

  datatype Member = Member(ctx: ContextView, role: Role)

  // ----- Context -----

  function QuorumOf(ctx: ContextView): nat { QuorumSize(|ctx.peerIds|) }

  predicate LeaseExpired(ctx: ContextView, reading: TimeInterval) {
    ctx.lease.None? || After(ctx.lease.value, reading)
  }

  function ExtendLease(ctx: ContextView, reading: TimeInterval): ContextView {
    ctx.(lease := Some(reading.latest + LEASE_LENGTH))
  }

  function Later(t: Option<Time>, ts: Time): (r: Option<Time>)
    ensures r.Some? && r.value >= ts && (t.Some? ==> r.value >= t.value)
    ensures r == Some(ts) || r == t
  {
    if t.Some? && ts <= t.value then t else Some(ts)
  }

  function AdvanceTSafe(ctx: ContextView, ts: Time): ContextView {
    ctx.(tSafe := Later(ctx.tSafe, ts))
  }

  function CreateVote(ctx: ContextView): VoteRequest {
    VoteRequest(ctx.memberId, ctx.term, ctx.lastLogTerm, ctx.lastLogSlot)
  }

  // The entries above `slot`.
  function Above(m: Log, slot: nat): Log {
    map s | s in m && s > slot :: m[s]
  }

  // Marks everything up to `slot` committed.
  function CommitThrough(ctx: ContextView, slot: nat): ContextView {
    ctx.(
      committedSlot := slot,
      tSafe := if slot in ctx.uncommitted then Later(ctx.tSafe, ctx.uncommitted[slot].timestamp) else ctx.tSafe,
      uncommitted := Above(ctx.uncommitted, slot))
  }

  // ----- Term adoption -----

  function KnownLeader(role: Role): Option<Id> {
    if role.Following? then role.f.currentLeaderId else None
  }

  const FRESH_FOLLOWER := FollowerView(None, None)

  // A higher term makes any role a follower that keeps the leader it knew as a follower.
  function AdoptTerm(m: Member, term: nat): Member {
    if term > m.ctx.term
    then Member(m.ctx.(term := term), Following(FollowerView(KnownLeader(m.role), None)))
    else m
  }
}
