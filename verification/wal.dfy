/** The write-ahead log: a map from slots to entries, kept in slot order. */
module Wal {
  import opened Types

  // Every entry sits at the slot that it names.
  ghost predicate WellKeyed(m: Log) {
    forall s :: s in m ==> m[s].slot == s
  }

  // The log holds exactly the slots 1 to `top`.
  ghost predicate TopIs(m: Log, top: nat) {
    forall s :: s in m <==> 1 <= s <= top
  }

  // The log of slots 1 to `top` that one leader of term `term` wrote.
  function OneTermLog(term: nat, top: nat): Log {
    map s | 1 <= s <= top :: LogEntry(term, s, "", 0)
  }

  // `a` and `b` hold the same entries at the slots 1 to `k`.
  ghost predicate Agree(a: Log, b: Log, k: nat) {
    forall s :: 1 <= s <= k ==> s in a && s in b && a[s] == b[s]
  }

  // `a` and `b` are the same through slot `k`: at every slot up to it both hold one entry, or neither holds any.
  ghost predicate Same(a: Log, b: Log, k: nat) {
    forall s :: s <= k ==> (s in a <==> s in b) && (s in a ==> a[s] == b[s])
  }

  // Without a gap up to the slot, being the same is holding the same entries.
  lemma SameIsAgree(a: Log, b: Log, k: nat)
    requires Same(a, b, k) && forall s :: 1 <= s <= k ==> s in b
    ensures Agree(a, b, k)
  {}

  ghost predicate IsMax(m: nat, s: set<nat>) { m in s && forall k :: k in s ==> k <= m }

  ghost predicate IsMin(m: nat, s: set<nat>) { m in s && forall k :: k in s ==> m <= k }

  lemma {:induction false} BoundsExist(s: set<nat>)
    requires s != {}
    ensures (exists m :: IsMax(m, s)) && (exists m :: IsMin(m, s))
    decreases |s|
  {
    var x :| x in s;
    var rest := s - {x};
    if rest == {} {
      assert s == {x};
      assert IsMax(x, s) && IsMin(x, s);
    } else {
      BoundsExist(rest);
      var hi :| IsMax(hi, rest);
      var lo :| IsMin(lo, rest);
      assert forall k :: k in s ==> k == x || k in rest;
      assert IsMax(if hi < x then x else hi, s);
      assert IsMin(if x < lo then x else lo, s);
    }
  }

  function MaxOf(s: set<nat>): (m: nat)
    requires s != {}
    ensures IsMax(m, s)
  {
    BoundsExist(s);
    var m :| m in s && forall k :: k in s ==> k <= m;
    m
  }

  function MinOf(s: set<nat>): (m: nat)
    requires s != {}
    ensures IsMin(m, s)
  {
    BoundsExist(s);
    var m :| m in s && forall k :: k in s ==> m <= k;
    m
  }

  /** The greatest slot held, 0 for an empty log. */
  function Top(m: Log): (t: nat)
    ensures forall s :: s in m ==> s <= t
    ensures m != map[] ==> t in m
    ensures m == map[] ==> t == 0
  {
    if m.Keys == {} then 0 else MaxOf(m.Keys)
  }

  /** The entries at the slots `lo` to `hi - 1`, in slot order. */
  function Range(m: Log, lo: nat, hi: nat): seq<LogEntry>
    decreases hi - lo
  {
    if hi <= lo then []
    else if lo in m then [m[lo]] + Range(m, lo + 1, hi)
    else Range(m, lo + 1, hi)
  }

  // All entries at or above `from`, in slot order.
  function EntriesFrom(m: Log, from: nat): seq<LogEntry> {
    Range(m, from, Top(m) + 1)
  }

  function Append(m: Log, e: LogEntry): Log { m[e.slot := e] }

  function AppendAll(m: Log, es: seq<LogEntry>): Log
    decreases |es|
  {
    if es == [] then m else AppendAll(Append(m, es[0]), es[1..])
  }

  function TruncateFrom(m: Log, start: nat): Log {
    map s | s in m && s < start :: m[s]
  }

  // The slots of `m` whose entry carries the term `term`.
  function SlotsOfTerm(m: Log, term: nat): set<nat> {
    set s | s in m && m[s].term == term
  }

  /** The greatest slot whose entry carries `term`. */
  function HighestSlotForTerm(m: Log, term: nat): (r: Option<nat>)
    ensures r.None? ==> forall s :: s in m ==> m[s].term != term
    ensures r.Some? ==> r.value in m && m[r.value].term == term
    ensures r.Some? ==> forall s :: s in m && m[s].term == term ==> s <= r.value
  {
    var slots := SlotsOfTerm(m, term);
    if slots == {} then
      assert forall s :: s in m && m[s].term == term ==> s in slots;
      None
    else
      assert forall s :: s in m && m[s].term == term ==> s in slots;
      Some(MaxOf(slots))
  }

  /** The least slot whose entry carries `term`. */
  function LowestSlotForTerm(m: Log, term: nat): (r: Option<nat>)
    ensures r.None? ==> forall s :: s in m ==> m[s].term != term
    ensures r.Some? ==> r.value in m && m[r.value].term == term
    ensures r.Some? ==> forall s :: s in m && m[s].term == term ==> r.value <= s
  {
    var slots := SlotsOfTerm(m, term);
    if slots == {} then
      assert forall s :: s in m && m[s].term == term ==> s in slots;
      None
    else
      assert forall s :: s in m && m[s].term == term ==> s in slots;
      Some(MinOf(slots))
  }

  // ----- Listing a log and writing it back -----

  // `es` are the entries of `m` from `lo` on, one for each slot.
  ghost predicate IsRun(m: Log, lo: nat, es: seq<LogEntry>) {
    forall s :: lo <= s < lo + |es| ==> s in m && m[s] == es[s - lo]
  }

  lemma {:induction false} RangeIsRun(m: Log, lo: nat, hi: nat)
    requires forall s :: lo <= s < hi ==> s in m
    requires lo <= hi
    ensures |Range(m, lo, hi)| == hi - lo && IsRun(m, lo, Range(m, lo, hi))
    decreases hi - lo
  {
    if lo < hi {
      RangeIsRun(m, lo + 1, hi);
      var rest := Range(m, lo + 1, hi);
      assert Range(m, lo, hi) == [m[lo]] + rest;
      forall s | lo < s < hi ensures m[s] == Range(m, lo, hi)[s - lo] {
        assert m[s] == rest[s - (lo + 1)];
      }
    }
  }

  lemma TopOfTopIs(m: Log, top: nat)
    requires TopIs(m, top)
    ensures Top(m) == top
  {
    if top == 0 {
      assert forall s :: s !in m;
      assert m == map[];
    } else {
      assert top in m;
      assert m != map[];
    }
  }

  lemma EntriesFromIsRun(m: Log, from: nat, top: nat)
    requires TopIs(m, top) && 1 <= from <= top + 1
    ensures |EntriesFrom(m, from)| == top + 1 - from && IsRun(m, from, EntriesFrom(m, from))
  {
    TopOfTopIs(m, top);
    RangeIsRun(m, from, top + 1);
  }

  // Ascending slots, each entry taken from the log: what an ordered-map range yields.
  lemma {:induction false} RangeIsSortedListing(m: Log, lo: nat, hi: nat)
    requires WellKeyed(m)
    ensures forall e :: e in Range(m, lo, hi) ==> lo <= e.slot < hi && e.slot in m && m[e.slot] == e
    ensures forall s :: lo <= s < hi && s in m ==> m[s] in Range(m, lo, hi)
    ensures forall i, j :: 0 <= i < j < |Range(m, lo, hi)| ==>
      Range(m, lo, hi)[i].slot < Range(m, lo, hi)[j].slot
    decreases hi - lo
  {
    if lo < hi {
      RangeIsSortedListing(m, lo + 1, hi);
      var rest := Range(m, lo + 1, hi);
      var r := Range(m, lo, hi);
      if lo in m {
        assert r == [m[lo]] + rest;
        forall i, j | 0 <= i < j < |r| ensures r[i].slot < r[j].slot {
          assert r[j] == rest[j - 1] && rest[j - 1] in rest;
          if i > 0 { assert r[i] == rest[i - 1]; }
        }
      }
    }
  }

  // The last of the listed entries sits at the top of the log.
  lemma LastListedIsTop(wal: Log, from: nat)
    requires WellKeyed(wal) && EntriesFrom(wal, from) != []
    ensures EntriesFrom(wal, from)[|EntriesFrom(wal, from)| - 1].slot == Top(wal)
  {
    RangeIsSortedListing(wal, from, Top(wal) + 1);
    var es := EntriesFrom(wal, from);
    assert es[0] in es && es[|es| - 1] in es;
    assert wal[Top(wal)] in es;
    var k :| 0 <= k < |es| && es[k] == wal[Top(wal)];
  }

  // Writing a run of consecutive entries puts each at its slot and leaves the rest alone.
  lemma {:induction false} AppendAllRun(m: Log, g: Log, lo: nat, es: seq<LogEntry>)
    requires WellKeyed(g) && IsRun(g, lo, es)
    ensures forall s :: s in AppendAll(m, es) <==> s in m || lo <= s < lo + |es|
    ensures forall s :: s in AppendAll(m, es) ==>
      AppendAll(m, es)[s] == if lo <= s < lo + |es| then es[s - lo] else m[s]
    decreases |es|
  {
    if es != [] {
      assert lo in g && g[lo] == es[0];
      forall s | lo + 1 <= s < lo + 1 + |es[1..]| ensures s in g && g[s] == es[1..][s - (lo + 1)] {
        assert es[s - lo] == es[1..][s - (lo + 1)];
      }
      AppendAllRun(Append(m, es[0]), g, lo + 1, es[1..]);
    }
  }

  // Appending the listed entries of `g` overrides the slots that `g` holds.
  lemma {:induction false} AppendAllRange(m: Log, g: Log, lo: nat, hi: nat)
    requires WellKeyed(g)
    ensures var r := AppendAll(m, Range(g, lo, hi));
      forall s :: (s in r <==> s in m || (s in g && lo <= s < hi))
        && (s in r ==> r[s] == if s in g && lo <= s < hi then g[s] else m[s])
    decreases hi - lo
  {
    if lo < hi {
      if lo in g {
        var r := Range(g, lo, hi);
        assert r[0] == g[lo] && r[1..] == Range(g, lo + 1, hi);
        AppendAllRange(Append(m, g[lo]), g, lo + 1, hi);
      } else {
        AppendAllRange(m, g, lo + 1, hi);
      }
    }
  }

  lemma AppendAllOverrides(m: Log, g: Log)
    requires WellKeyed(g)
    ensures AppendAll(m, EntriesFrom(g, 0)) == m + g
  {
    AppendAllRange(m, g, 0, Top(g) + 1);
  }

  lemma {:induction false} AppendAllWellKeyed(m: Log, es: seq<LogEntry>)
    requires WellKeyed(m)
    ensures WellKeyed(AppendAll(m, es))
    decreases |es|
  {
    if es != [] { AppendAllWellKeyed(Append(m, es[0]), es[1..]); }
  }
}
