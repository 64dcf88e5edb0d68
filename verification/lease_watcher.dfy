/** The watcher that clears the leader lease once it is definitely past. */
module LeaseWatchers {
  import opened Types
  import opened TrueTime
  import opened SharedContexts

  // What may wake the watcher: its cancellation, a newly stored expiry, or a poll of the clock.
  datatype Wake = Cancelled | Stored(expiry: Option<Time>) | Polled(reading: TimeInterval)

  // The expiry after the wake-ups, if the watcher does nothing about it.
  function LastStored(expiry: Option<Time>, wakes: seq<Wake>): Option<Time>
    decreases |wakes|
  {
    if wakes == [] then expiry
    else LastStored(if wakes[0].Stored? then wakes[0].expiry else expiry, wakes[1..])
  }

  lemma {:induction false} LastStoredAppend(expiry: Option<Time>, wakes: seq<Wake>, wake: Wake)
    ensures LastStored(expiry, wakes + [wake])
      == if wake.Stored? then wake.expiry else LastStored(expiry, wakes)
    decreases |wakes|
  {
    if wakes == [] {
      assert wakes + [wake] == [wake];
    } else {
      assert (wakes + [wake])[1..] == wakes[1..] + [wake];
      LastStoredAppend(if wakes[0].Stored? then wakes[0].expiry else expiry, wakes[1..], wake);
    }
  }

  class LeaseWatcher {
    const lease: LeaseState

    constructor (lease: LeaseState)
      ensures this.lease == lease
    {
      this.lease := lease;
    }

    /** Consumes wake-ups until it is cancelled or a poll finds the stored expiry definitely past; `used` counts them.
        It clears the lease only in the latter case, and never misses such a poll. */
    method WaitUntilExpired(wakes: seq<Wake>) returns (expired: bool, used: nat)
      modifies lease
      ensures used <= |wakes|
      ensures expired ==>
        && used > 0 && wakes[used - 1].Polled?
        && var stored := LastStored(old(lease.expiry), wakes[..used - 1]);
           stored.Some? && After(stored.value, wakes[used - 1].reading) && lease.expiry == None
      ensures !expired ==>
        && lease.expiry == LastStored(old(lease.expiry), wakes[..used])
        && (used == |wakes| || wakes[used] == Cancelled)
      ensures forall k :: 0 <= k < used && wakes[k].Polled? && (expired ==> k < used - 1) ==>
        var stored := LastStored(old(lease.expiry), wakes[..k]);
        stored.None? || !After(stored.value, wakes[k].reading)
    {
      used := 0;
      while used < |wakes|
        invariant 0 <= used <= |wakes|
        invariant lease.expiry == LastStored(old(lease.expiry), wakes[..used])
        invariant forall k :: 0 <= k < used && wakes[k].Polled? ==>
          var stored := LastStored(old(lease.expiry), wakes[..k]);
          stored.None? || !After(stored.value, wakes[k].reading)
        decreases |wakes| - used
      {
        var wake := wakes[used];
        assert wakes[..used + 1] == wakes[..used] + [wake];
        LastStoredAppend(old(lease.expiry), wakes[..used], wake);
        match wake {
          case Cancelled => return false, used;
          case Stored(expiry) => lease.expiry := expiry;
          case Polled(reading) =>
            if lease.expiry.Some? && After(lease.expiry.value, reading) {
              lease.expiry := None;
              return true, used + 1;
            }
        }
        used := used + 1;
      }
      return false, used;
    }
  }
}
