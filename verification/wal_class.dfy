/** The write-ahead log as the object that a member updates in place. */
module WriteAheadLogs {
  import opened Types
  import Wal

  class WriteAheadLog {
    var entries: Log

    constructor ()
      ensures entries == map[]
    {
      entries := map[];
    }

    method Append(entry: LogEntry)
      modifies this
      ensures entries == Wal.Append(old(entries), entry)
    {
      entries := entries[entry.slot := entry];
    }

    predicate HasEntry(slot: nat)
      reads this
    {
      slot in entries
    }

    function GetTerm(slot: nat): (term: Option<nat>)
      reads this
      ensures term.Some? <==> HasEntry(slot)
      ensures term.Some? ==> term.value == entries[slot].term
    {
      if slot in entries then Some(entries[slot].term) else None
    }

    // The entries at or above `fromSlot`, as the ordered map yields them.
    function GetEntriesFrom(fromSlot: nat): seq<LogEntry>
      reads this
    {
      Wal.EntriesFrom(entries, fromSlot)
    }

    method TruncateFrom(startingSlot: nat)
      modifies this
      ensures entries == Wal.TruncateFrom(old(entries), startingSlot)
    {
      entries := map s | s in entries && s < startingSlot :: entries[s];
    }

    function FindHighestSlotForTerm(term: nat): Option<nat>
      reads this
    {
      Wal.HighestSlotForTerm(entries, term)
    }

    function FindLowestSlotForTerm(term: nat): Option<nat>
      reads this
    {
      Wal.LowestSlotForTerm(entries, term)
    }

    /** The last entry of the greatest term up to `term` that occurs in the log, as term and slot. */
    method FindHighestAnchor(term: nat) returns (anchor: Option<(nat, nat)>)
      ensures anchor.None? ==> forall s :: s in entries ==> entries[s].term > term
      ensures anchor.Some? ==>
        var (t, slot) := anchor.value;
        && t <= term && slot in entries && entries[slot].term == t
        && forall s :: s in entries && entries[s].term <= term ==>
             entries[s].term < t || (entries[s].term == t && s <= slot)
    {
      var currentTerm: nat := term;
      while true
        invariant currentTerm <= term
        invariant forall s :: s in entries ==> entries[s].term <= currentTerm || entries[s].term > term
        decreases currentTerm
      {
        var highestSlot := FindHighestSlotForTerm(currentTerm);
        if highestSlot.Some? {
          return Some((currentTerm, highestSlot.value));
        }
        if currentTerm == 0 {
          return None;
        }
        currentTerm := currentTerm - 1;
      }
    }
  }
}
