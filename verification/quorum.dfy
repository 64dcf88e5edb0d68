/** Majorities, and the order statistics by which a leader reads its score boards. */
module Quorums {
  import opened Types

  // The majority of a group in which a member has `peers` peers.
  function QuorumSize(peers: nat): nat { (peers + 1) / 2 + 1 }

  ghost predicate IsQuorum(group: set<Id>, q: set<Id>) {
    q <= group && |q| >= |group| / 2 + 1
  }

  lemma SubsetSize(a: set<Id>, b: set<Id>)
    requires a <= b
    ensures |a| <= |b|
  {
    assert |b - a| == |b| - |a|;
  }

  lemma QuorumsMeet(group: set<Id>, p: set<Id>, q: set<Id>) returns (m: Id)
    requires IsQuorum(group, p) && IsQuorum(group, q)
    ensures m in p && m in q
  {
    SubsetSize(p + q, group);
    assert |p + q| == |p| + |q| - |p * q|;
    m :| m in p * q;
  }

  // ----- Reference definitions -----

  // The members whose value is at least `v`.
  function AtLeast(board: map<Id, int>, v: int): set<Id> {
    set j | j in board && board[j] >= v
  }

  /** The greatest slot up to `s` that at least `need` members have reached, or 0. */
  function QuorumSlot(board: map<Id, int>, need: nat, s: nat): (r: nat)
    ensures r <= s
    ensures r == 0 || |AtLeast(board, r)| >= need
    ensures forall v: nat :: r < v <= s ==> |AtLeast(board, v)| < need
  {
    if s == 0 || |AtLeast(board, s)| >= need then s else QuorumSlot(board, need, s - 1)
  }

  // `t` is the greatest value that at least `need` members have reached.
  ghost predicate IsQuorumValue(board: map<Id, int>, need: nat, t: int) {
    && |AtLeast(board, t)| >= need
    && forall v :: v > t ==> |AtLeast(board, v)| < need
  }

  lemma QuorumValueUnique(board: map<Id, int>, need: nat, t: int, u: int)
    requires IsQuorumValue(board, need, t) && IsQuorumValue(board, need, u)
    ensures t == u
  {}

  // ----- Sorting, newest or highest first -----

  ghost predicate Descending(s: seq<int>) {
    forall i, j :: 0 <= i < j < |s| ==> s[i] >= s[j]
  }

  function Insert(x: int, s: seq<int>): (r: seq<int>)
    requires Descending(s)
    ensures |r| == |s| + 1 && Descending(r)
    ensures forall y :: y in r <==> y == x || y in s
  {
    if s == [] then [x]
    else if x >= s[0] then [x] + s
    else
      var r := [s[0]] + Insert(x, s[1..]);
      assert forall y :: y in s <==> y == s[0] || y in s[1..];
      assert forall j :: 0 < j < |r| ==> r[j] in Insert(x, s[1..]);
      r
  }

  function SortDescending(s: seq<int>): (r: seq<int>)
    ensures |r| == |s| && Descending(r)
  {
    if s == [] then [] else Insert(s[0], SortDescending(s[1..]))
  }

  function CountAtLeast(s: seq<int>, v: int): (n: nat)
    ensures n <= |s|
  {
    if s == [] then 0 else (if s[0] >= v then 1 else 0) + CountAtLeast(s[1..], v)
  }

  lemma {:induction false} CountInsert(x: int, s: seq<int>, v: int)
    requires Descending(s)
    ensures CountAtLeast(Insert(x, s), v) == CountAtLeast([x] + s, v)
    decreases |s|
  {
    assert ([x] + s)[1..] == s;
    if s != [] && x < s[0] {
      CountInsert(x, s[1..], v);
      assert ([x] + s[1..])[1..] == s[1..];
      assert Insert(x, s) == [s[0]] + Insert(x, s[1..]);
      assert Insert(x, s)[1..] == Insert(x, s[1..]);
    }
  }

  lemma {:induction false} CountSort(s: seq<int>, v: int)
    ensures CountAtLeast(SortDescending(s), v) == CountAtLeast(s, v)
    decreases |s|
  {
    if s != [] {
      CountSort(s[1..], v);
      CountInsert(s[0], SortDescending(s[1..]), v);
      assert ([s[0]] + SortDescending(s[1..]))[1..] == SortDescending(s[1..]);
    }
  }

  // In descending order, position `k` reaches `v` exactly when more than `k` values do.
  lemma {:induction false} DescendingRank(s: seq<int>, k: nat, v: int)
    requires Descending(s) && k < |s|
    ensures s[k] >= v <==> CountAtLeast(s, v) >= k + 1
    decreases |s|
  {
    if s[0] < v {
      NoneReaches(s, v);
    } else if k > 0 {
      DescendingRank(s[1..], k - 1, v);
    }
  }

  lemma {:induction false} NoneReaches(s: seq<int>, v: int)
    requires Descending(s) && (s == [] || s[0] < v)
    ensures CountAtLeast(s, v) == 0
    decreases |s|
  {
    if s != [] { NoneReaches(s[1..], v); }
  }

  lemma {:induction false} CountAppend(s: seq<int>, x: int, v: int)
    ensures CountAtLeast(s + [x], v) == CountAtLeast(s, v) + if x >= v then 1 else 0
    decreases |s|
  {
    if s == [] {
      assert s + [x] == [x];
    } else {
      CountAppend(s[1..], x, v);
      assert (s + [x])[1..] == s[1..] + [x];
    }
  }

  function Least(s: seq<int>): (r: int)
    requires s != []
    ensures r in s && forall x :: x in s ==> r <= x
  {
    if |s| == 1 then s[0]
    else
      assert forall x :: x in s <==> x == s[0] || x in s[1..];
      var r := Least(s[1..]);
      if s[0] < r then s[0] else r
  }

  lemma LeastOfHighest(s: seq<int>, k: nat, last: int)
    requires Descending(s) && 1 <= k <= |s|
    ensures Least(s[..k] + [last]) == Min(s[k - 1], last)
  {
    var candidates := s[..k] + [last];
    assert candidates[k - 1] == s[k - 1] && candidates[k] == last;
    assert s[k - 1] in candidates && last in candidates;
    forall x | x in candidates ensures x >= Min(s[k - 1], last) {
      var i :| 0 <= i < |candidates| && candidates[i] == x;
    }
  }

  // When a bound is reached by `need` members exactly up to `x`, the quorum slot is `x` or the cap.
  lemma {:induction false} QuorumSlotIs(board: map<Id, int>, need: nat, x: int, s: nat)
    requires x >= 0
    requires forall v :: x >= v <==> |AtLeast(board, v)| >= need
    ensures QuorumSlot(board, need, s) == Min(x, s)
    decreases s
  {
    if s > 0 && x < s { QuorumSlotIs(board, need, x, s - 1); }
  }

  // `values` lists the board's values: as many reach any bound as members do.
  ghost predicate Lists(values: seq<int>, board: map<Id, int>) {
    |values| == |board| && forall v :: CountAtLeast(values, v) == |AtLeast(board, v)|
  }

  lemma ListsMore(values: seq<int>, board: map<Id, int>, j: Id, x: int)
    requires Lists(values, board) && j !in board
    ensures Lists(values + [x], board[j := x])
  {
    forall v ensures CountAtLeast(values + [x], v) == |AtLeast(board[j := x], v)| {
      CountAppend(values, x, v);
      assert AtLeast(board[j := x], v) == AtLeast(board, v) + if x >= v then {j} else {};
    }
  }

  lemma CollectNone(board: map<Id, int>)
    ensures Lists([], board - board.Keys)
  {
    assert board - board.Keys == map[];
  }

  lemma CollectOne(board: map<Id, int>, values: seq<int>, left: set<Id>, j: Id)
    requires j in left && left <= board.Keys && Lists(values, board - left)
    ensures Lists(values + [board[j]], board - (left - {j}))
  {
    assert board - (left - {j}) == (board - left)[j := board[j]];
    ListsMore(values, board - left, j, board[j]);
  }

  lemma CollectAll(board: map<Id, int>, values: seq<int>)
    requires Lists(values, board - {})
    ensures Lists(values, board)
  {
    assert board - {} == board;
  }

  // Some listing of the board's values.
  ghost function ValuesOf(board: map<Id, int>): (values: seq<int>)
    ensures Lists(values, board)
  {
    if board == map[] then []
    else
      var j :| j in board;
      var rest := board - {j};
      assert forall v {:trigger AtLeast(board, v)} ::
        AtLeast(board, v) == AtLeast(rest, v) + if board[j] >= v then {j} else {};
      [board[j]] + ValuesOf(rest)
  }

  lemma RankInSorted(values: seq<int>, board: map<Id, int>, need: nat)
    requires Lists(values, board) && 1 <= need <= |board|
    ensures IsQuorumValue(board, need, SortDescending(values)[need - 1])
  {
    forall v ensures SortDescending(values)[need - 1] >= v <==> |AtLeast(board, v)| >= need {
      CountSort(values, v);
      DescendingRank(SortDescending(values), need - 1, v);
    }
  }

  /** The greatest value that `need` members have reached. */
  ghost function QuorumValue(board: map<Id, int>, need: nat): (t: int)
    requires 1 <= need <= |board|
    ensures IsQuorumValue(board, need, t)
  {
    RankInSorted(ValuesOf(board), board, need);
    SortDescending(ValuesOf(board))[need - 1]
  }

  // ----- The leader's two computations -----

  /** The values of a hash map, in whatever order it yields them. */
  method Collect(board: map<Id, int>) returns (values: seq<int>)
    ensures Lists(values, board)
  {
    values := [];
    var left := board.Keys;
    CollectNone(board);
    while left != {}
      invariant left <= board.Keys && Lists(values, board - left)
      decreases |left|
    {
      var j :| j in left;
      CollectOne(board, values, left, j);
      values, left := values + [board[j]], left - {j};
    }
    CollectAll(board, values);
  }

  /** The highest slot guaranteed on a quorum: the least of the `need` highest match slots and `last`. */
  method CommitCandidate(matches: map<Id, int>, need: nat, last: nat) returns (slot: int)
    requires 1 <= need <= |matches|
    requires forall j :: j in matches ==> matches[j] >= 0
    ensures slot == QuorumSlot(matches, need, last)
  {
    var values := Collect(matches);
    var slots := SortDescending(values);
    forall v ensures slots[need - 1] >= v <==> |AtLeast(matches, v)| >= need {
      CountSort(values, v);
      DescendingRank(slots, need - 1, v);
    }
    slot := Least(slots[..need] + [last]);
    LeastOfHighest(slots, need, last);
    assert AtLeast(matches, 0) == matches.Keys;
    QuorumSlotIs(matches, need, slots[need - 1], last);
  }

  /** The newest time at which `need` members have been in contact, if there are so many members. */
  method QuorumContact(contacts: map<Id, Time>, need: nat) returns (t: Option<Time>)
    requires need >= 1
    ensures t == if |contacts| >= need then Some(QuorumValue(contacts, need)) else None
  {
    var values := Collect(contacts);
    var times := SortDescending(values);
    if need - 1 < |times| {
      RankInSorted(values, contacts, need);
      QuorumValueUnique(contacts, need, times[need - 1], QuorumValue(contacts, need));
      t := Some(times[need - 1]);
    } else {
      t := None;
    }
  }
}
