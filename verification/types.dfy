/** Identifiers, log entries and the messages that the members of a group exchange. */
module Types {
  // Member identifiers are opaque; only their equality matters.
  type Id = nat

  // Points of time, in nanoseconds since the Unix epoch.
  type Time = int

  const UNIX_EPOCH: Time := 0
  const MILLISECOND: Time := 1_000_000
  const LEASE_LENGTH: Time := 10_000 * MILLISECOND

  datatype Option<+T> = None | Some(value: T)

  /** One entry of a log. `timestamp` is the latest bound of the clock when a leader first wrote it. */
  datatype LogEntry = LogEntry(term: nat, slot: nat, entry: string, timestamp: Time)

  // An ordered map from slots to entries: the write-ahead log and the uncommitted log.
  type Log = map<nat, LogEntry>

  datatype AcceptRequest = AcceptRequest(
    term: nat,
    leaderId: Id,
    prevLogSlot: nat,
    prevLogTerm: nat,
    entries: seq<LogEntry>,
    leaderCommitSlot: nat,
    tSend: Time,
    minNextTs: Option<Time>)

  /** `conflictTerm == 0` says that the follower's log is too short. */
  datatype ConflictHint = ConflictHint(conflictTerm: nat, conflictFirstSlot: nat)

  datatype AcceptResponse = AcceptResponse(
    memberId: Id,
    term: nat,
    success: bool,
    lastWrittenSlot: nat,
    conflictHint: Option<ConflictHint>,
    echoedTSend: Time)

  datatype PreVoteResponse = PreVoteResponse(memberId: Id, term: nat, voteGranted: bool)

  datatype VoteRequest = VoteRequest(memberId: Id, term: nat, lastLogTerm: nat, lastLogSlot: nat)

  datatype VoteOutcome =
    | Promise(lastLogTerm: nat, lastLogSlot: nat, uncommittedEntries: seq<LogEntry>)
    | Rejection(
        currentLeaderId: Option<Id>,
        memberLastLogTerm: Option<nat>,
        memberLastLogSlot: Option<nat>,
        votedForId: Option<Id>)

  datatype VoteResponse = VoteResponse(memberId: Id, term: nat, outcome: VoteOutcome)

  function Min(a: int, b: int): int { if a <= b then a else b }

  function Max(a: int, b: int): int { if a >= b then a else b }

  // The subtraction of unsigned integers that stops at zero.
  function SaturatingPred(n: nat): nat { if n == 0 then 0 else n - 1 }
}
