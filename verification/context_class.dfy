/** What the roles of a member share: its term, log positions, lease and write-ahead log. */
module SharedContexts {
  import opened Types
  import opened TrueTime
  import opened Wal
  import opened Quorums
  import opened Views
  import opened WriteAheadLogs

  // The expiry of the leader lease; the context and the lease watcher share it.
  class LeaseState {
    var expiry: Option<Time>

    constructor ()
      ensures expiry == Some(UNIX_EPOCH)
    {
      expiry := Some(UNIX_EPOCH);
    }
  }

  class PaxosSharedContext {
    const memberId: Id
    const peerIds: set<Id>
    const lease: LeaseState
    const wal: WriteAheadLog
    var term: nat
    var tSafe: Option<Time>
    var lastLogTerm: nat
    var lastLogSlot: nat
    var committedSlot: nat
    var uncommittedLogs: Log

    // Entries are filed under their own slots.
    ghost predicate Valid()
      reads this, wal
    {
      WellKeyed(uncommittedLogs) && WellKeyed(wal.entries)
    }

    ghost function View(): ContextView
      reads this, lease, wal
    {
      ContextView(memberId, peerIds, term, tSafe, lease.expiry, lastLogTerm, lastLogSlot, committedSlot,
                  uncommittedLogs, wal.entries)
    }

    constructor (memberId: Id, peerIds: set<Id>)
      ensures Valid() && fresh(lease) && fresh(wal)
      ensures View() == ContextView(memberId, peerIds, 0, None, Some(UNIX_EPOCH), 0, 0, 0, map[], map[])
    {
      this.memberId := memberId;
      this.peerIds := peerIds;
      lease := new LeaseState();
      wal := new WriteAheadLog();
      term, tSafe, lastLogTerm, lastLogSlot, committedSlot := 0, None, 0, 0, 0;
      uncommittedLogs := map[];
    }

    function GetQuorumSize(): nat { QuorumSize(|peerIds|) }

    method SetCurrentTerm(newTerm: nat)
      modifies this
      ensures View() == old(View()).(term := newTerm)
      ensures Valid() == old(Valid())
    {
      term := newTerm;
    }

    method IncrementCurrentTerm()
      modifies this
      ensures View() == old(View()).(term := old(term) + 1)
      ensures Valid() == old(Valid())
    {
      term := term + 1;
    }

    method UpdateLeaderLeaseExpiryTime(expiry: Time)
      modifies lease
      ensures View() == old(View()).(lease := Some(expiry))
      ensures Valid() == old(Valid())
    {
      lease.expiry := Some(expiry);
    }

    method ExtendLeaderLeaseExpiryTime(reading: TimeInterval)
      modifies lease
      ensures View() == ExtendLease(old(View()), reading)
      ensures Valid() == old(Valid())
    {
      UpdateLeaderLeaseExpiryTime(reading.latest + LEASE_LENGTH);
    }

    method IsLeaderLeaseExpired(reading: TimeInterval) returns (expired: bool)
      ensures expired == LeaseExpired(View(), reading)
    {
      match lease.expiry
      case None => return true;
      case Some(expiry) => return After(expiry, reading);
    }

    method AdvanceTSafe(ts: Time)
      modifies this
      ensures View() == Views.AdvanceTSafe(old(View()), ts)
      ensures Valid() == old(Valid())
    {
      match tSafe
      case None => tSafe := Some(ts);
      case Some(current) => if ts > current { tSafe := Some(ts); }
    }

    method CreateVote() returns (request: VoteRequest)
      ensures request == Views.CreateVote(View())
    {
      request := VoteRequest(memberId, term, lastLogTerm, lastLogSlot);
    }

    // Advances the committed slot, the safe time with it, and forgets the entries that are now committed.
    method AdvanceCommitted(slot: nat)
      requires Valid()
      modifies this
      ensures View() == CommitThrough(old(View()), slot) && Valid()
    {
      committedSlot := slot;
      if slot in uncommittedLogs {
        AdvanceTSafe(uncommittedLogs[slot].timestamp);
      }
      uncommittedLogs := map s | s in uncommittedLogs && s > slot :: uncommittedLogs[s];
    }
  }
}
