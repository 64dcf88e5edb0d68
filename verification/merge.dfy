/** Merging uncommitted entries in an election: whatever the order of the promises, the entry of the highest
    term wins each slot; so a value that a quorum holds survives. */
module EntryMerge {
  import opened Types
  import opened Wal
  import opened Quorums
  import opened Views
  import opened CandidateRole

  // ----- The reference definition -----

  // At each slot, the log holds an entry of the highest term among those offered there.
  ghost predicate IsJoin(m: Log, offered: set<LogEntry>) {
    && (forall s :: s in m ==> m[s] in offered && m[s].slot == s)
    && (forall e :: e in offered ==> e.slot in m && e.term <= m[e.slot].term)
  }

  // Slot and term determine the entry, as Log Matching provides.
  ghost predicate SlotTermDetermine(offered: set<LogEntry>) {
    forall e, f :: e in offered && f in offered && e.slot == f.slot && e.term == f.term ==> e == f
  }

  /** The highest-term entry of a slot is unique, so there is only one join. */
  lemma JoinUnique(a: Log, b: Log, offered: set<LogEntry>)
    requires IsJoin(a, offered) && IsJoin(b, offered) && SlotTermDetermine(offered)
    ensures a == b
  {
    assert forall s :: s in a ==> s in b && a[s] == b[s];
    assert forall s :: s in b ==> s in a;
  }

  function Elements(es: seq<LogEntry>): set<LogEntry> { set e | e in es }

  // ----- Merging -----

  /** Merging a promise into a join gives the join of what was offered before and the promise. */
  lemma {:induction false} MergeIsJoin(pending: Log, offered: set<LogEntry>, es: seq<LogEntry>)
    requires IsJoin(pending, offered)
    ensures IsJoin(Merge(pending, es), offered + Elements(es))
    decreases |es|
  {
    if es == [] {
      assert offered + Elements(es) == offered;
    } else {
      assert IsJoin(MergeEntry(pending, es[0]), offered + {es[0]});
      MergeIsJoin(MergeEntry(pending, es[0]), offered + {es[0]}, es[1..]);
      assert offered + {es[0]} + Elements(es[1..]) == offered + Elements(es);
    }
  }

  /** An entry already there gives way only to one of a higher term. */
  lemma {:induction false} MergeKeepsUnlessHigher(pending: Log, es: seq<LogEntry>, s: nat)
    requires s in pending
    ensures var r := Merge(pending, es); s in r && (r[s] == pending[s] || r[s].term > pending[s].term)
    decreases |es|
  {
    if es != [] { MergeKeepsUnlessHigher(MergeEntry(pending, es[0]), es[1..], s); }
  }

  lemma FlushKeepsUnlessHigher(pending: Log, committed: nat, own: Log, s: nat)
    requires s in own
    ensures var r := Flush(pending, committed, own); s in r && (r[s] == own[s] || r[s].term > own[s].term)
  {}

  // All the entries that the promises among `responses` carry.
  function Offered(responses: seq<VoteResponse>): set<LogEntry> {
    set r, e | r in responses && r.outcome.Promise? && e in r.outcome.uncommittedEntries :: e
  }

  // The candidate after it has recorded the responses one by one.
  function Recorded(ctx: ContextView, c: CandidateView, responses: seq<VoteResponse>): (r: CandidateView)
    requires forall k :: 0 <= k < |responses| ==> responses[k].memberId in c.score
    ensures r.score.Keys == c.score.Keys
    decreases |responses|
  {
    if responses == [] then c
    else Recorded(ctx, RecordVote(ctx, c, responses[0]), responses[1..])
  }

  lemma {:induction false} RecordedIsJoin(ctx: ContextView, c: CandidateView, offered: set<LogEntry>,
                                          responses: seq<VoteResponse>)
    requires IsJoin(c.pending, offered)
    requires forall k :: 0 <= k < |responses| ==> responses[k].memberId in c.score
    ensures IsJoin(Recorded(ctx, c, responses).pending, offered + Offered(responses))
    decreases |responses|
  {
    if responses == [] {
      assert offered + Offered(responses) == offered;
    } else {
      var first, rest := responses[0], responses[1..];
      var c1 := RecordVote(ctx, c, first);
      if first.outcome.Promise? {
        MergeIsJoin(c.pending, offered, first.outcome.uncommittedEntries);
        RecordedIsJoin(ctx, c1, offered + Elements(first.outcome.uncommittedEntries), rest);
        assert offered + Elements(first.outcome.uncommittedEntries) + Offered(rest) == offered + Offered(responses);
      } else {
        RecordedIsJoin(ctx, c1, offered, rest);
        assert Offered(rest) == Offered(responses);
      }
    }
  }

  /** A new campaign collects the same entries in whatever order, and however often, the promises arrive. */
  lemma PromiseOrderIsIrrelevant(ctx: ContextView, rs: seq<VoteResponse>, qs: seq<VoteResponse>)
    requires forall k :: 0 <= k < |rs| ==> rs[k].memberId in ctx.peerIds
    requires forall k :: 0 <= k < |qs| ==> qs[k].memberId in ctx.peerIds
    requires forall r :: r in rs <==> r in qs
    requires SlotTermDetermine(Offered(rs))
    ensures Recorded(ctx, NewCandidate(ctx), rs).pending == Recorded(ctx, NewCandidate(ctx), qs).pending
    ensures IsJoin(Recorded(ctx, NewCandidate(ctx), rs).pending, Offered(rs))
  {
    var c := NewCandidate(ctx);
    RecordedIsJoin(ctx, c, {}, rs);
    RecordedIsJoin(ctx, c, {}, qs);
    assert {} + Offered(rs) == Offered(rs);
    assert {} + Offered(qs) == Offered(rs);
    JoinUnique(Recorded(ctx, c, rs).pending, Recorded(ctx, c, qs).pending, Offered(rs));
  }

  // ----- Flushing -----

  // The entries offered at slots above the committed one, by promises or by the candidate's own log.
  function Contested(offered: set<LogEntry>, own: Log, committed: nat): set<LogEntry> {
    (set e | e in offered && e.slot > committed) + (set s | s in own && s > committed :: own[s])
  }

  /** Flushing joins what the promises offered with the candidate's own log, slot by slot, above the
      committed slot; at and below it, the candidate's own log stays. */
  lemma FlushIsJoin(pending: Log, committed: nat, own: Log, offered: set<LogEntry>)
    requires IsJoin(pending, offered) && WellKeyed(own)
    ensures IsJoin(Above(Flush(pending, committed, own), committed), Contested(offered, own, committed))
    ensures forall s :: s <= committed ==>
      (s in Flush(pending, committed, own) <==> s in own)
      && (s in own ==> Flush(pending, committed, own)[s] == own[s])
  {
    var m := Above(Flush(pending, committed, own), committed);
    forall e | e in Contested(offered, own, committed) ensures e.slot in m && e.term <= m[e.slot].term {
      if e in offered { assert e.slot in pending; } else { assert e.slot in own; }
    }
    forall s | s in m ensures m[s] in Contested(offered, own, committed) && m[s].slot == s {
      if !Flushes(pending, committed, own, s) { assert m[s] == own[s]; }
    }
  }

  // ----- Survival -----

  // A member of every quorum is among those who let the candidate win.
  lemma VoterInQuorum(group: set<Id>, ctx: ContextView, c: CandidateView, holders: set<Id>) returns (j: Id)
    requires IsQuorum(group, holders) && HasVoteQuorum(c.votes)
    requires ctx.memberId in group && c.votes.Keys == group - {ctx.memberId}
    ensures j in holders && (j == ctx.memberId || j in Promisers(c.votes))
  {
    var voters := Promisers(c.votes) + {ctx.memberId};
    assert |c.votes| == |c.votes.Keys| == |group| - 1;
    assert voters <= group;
    j := QuorumsMeet(group, voters, holders);
  }

  // What the winner holds at a slot is the join of what was offered there, in its own term.
  lemma TakenOver(ctx: ContextView, c: CandidateView, offered: set<LogEntry>, e: LogEntry)
    requires c.dispatched.Some? && IsJoin(c.pending, offered) && WellKeyed(ctx.uncommitted)
    requires e in Contested(offered, ctx.uncommitted, ctx.committedSlot)
    requires SlotTermDetermine(Contested(offered, ctx.uncommitted, ctx.committedSlot))
    requires forall f :: f in Contested(offered, ctx.uncommitted, ctx.committedSlot) && f.slot == e.slot ==>
      f.term <= e.term
    ensures var next := ElectedContext(ctx, c);
      && e.slot in next.wal && next.wal[e.slot] == e.(term := ctx.term)
      && e.slot in next.uncommitted && next.uncommitted[e.slot] == e.(term := ctx.term)
  {
    var contested := Contested(offered, ctx.uncommitted, ctx.committedSlot);
    FlushIsJoin(c.pending, ctx.committedSlot, ctx.uncommitted, offered);
    var m := Above(Flush(c.pending, ctx.committedSlot, ctx.uncommitted), ctx.committedSlot);
    assert e.slot in m && m[e.slot] in contested && m[e.slot] == e;
  }

  lemma HeldIsOffered(held: Log, e: LogEntry, offered: set<LogEntry>)
    requires WellKeyed(held) && Elements(EntriesFrom(held, 0)) <= offered
    requires e.slot in held && held[e.slot] == e
    ensures e in offered
  {
    RangeIsSortedListing(held, 0, Top(held) + 1);
    assert e in Elements(EntriesFrom(held, 0));
  }
}
