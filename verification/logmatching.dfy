/** Log Matching over whole runs, whether or not logs have gaps: entries of one slot and term are equal, and so is all
    that precedes them; and no log entry above the committed slot is missing from the uncommitted log. */
module LogMatching {
  import opened Types
  import opened TrueTime
  import opened Wal
  import opened Quorums
  import opened Views
  import opened FollowerRole
  import opened LeaderRole
  import opened CandidateRole
  import opened PreCandidateRole
  import opened StateMachine
  import opened Group
  import opened Facts
  import opened ElectionSafety

  // ----- The invariant -----

  // The entry is the one that the leader of its term holds at its slot.
  ghost predicate Known(e: LogEntry, logs: map<nat, Log>) {
    e.slot >= 1 && e.term in logs && e.slot in logs[e.term] && logs[e.term][e.slot] == e
  }

  ghost predicate AllKnown(m: Log, logs: map<nat, Log>) {
    forall s :: s in m ==> m[s].slot == s && Known(m[s], logs)
  }

  ghost predicate SeqKnown(es: seq<LogEntry>, logs: map<nat, Log>) {
    forall e :: e in es ==> Known(e, logs)
  }

  // Up to every entry, the log is that of the leader of the entry's term, gaps included.
  ghost predicate Matched(w: Log, logs: map<nat, Log>) {
    forall s :: s in w ==> s >= 1 && w[s].slot == s && w[s].term in logs && Same(w, logs[w[s].term], s)
  }

  // The uncommitted log covers the write-ahead log above the committed slot, agrees with it, and
  // from its first slot on covers all of it.
  ghost predicate Covers(own: Log, wal: Log, committed: nat) {
    && (forall s :: s in wal && s > committed ==> s in own)
    && (forall s :: s in wal && s in own ==> own[s] == wal[s])
    && (forall a, b :: a in own && b in wal && a <= b ==> b in own)
  }

  // Nothing lies beyond the last slot.
  ghost predicate Within(w: Log, last: nat) { forall s :: s in w ==> s <= last }

  ghost predicate ContextOK(ctx: ContextView, logs: map<nat, Log>) {
    && Matched(ctx.wal, logs) && AllKnown(ctx.uncommitted, logs)
    && Covers(ctx.uncommitted, ctx.wal, ctx.committedSlot) && Within(ctx.wal, ctx.lastLogSlot)
  }

  ghost predicate RoleLogOK(m: Member, logs: map<nat, Log>) {
    match m.role
    case Following(_) => true
    case PreCampaigning(_) => true
    case Campaigning(c) => AllKnown(c.pending, logs)
    case Leading(_) => m.ctx.term in logs && m.ctx.wal == logs[m.ctx.term]
  }

  ghost predicate MemberLogOK(m: Member, logs: map<nat, Log>) {
    ContextOK(m.ctx, logs) && RoleLogOK(m, logs)
  }

  // The last slot of the leader's log when it sent the request.
  function SentTop(sent: Sent): nat { Top(sent.origin.wal) }

  // The request carries everything after an anchor of a log that the leader of its term has held.
  ghost predicate SentOK(sent: Sent, logs: map<nat, Log>) {
    var r := sent.request;
    && r.term in logs
    && Same(sent.origin.wal, logs[r.term], SentTop(sent))
    && (r.prevLogSlot > 0 ==> r.prevLogSlot in sent.origin.wal && r.prevLogTerm == sent.origin.wal[r.prevLogSlot].term)
    && r.entries == EntriesFrom(sent.origin.wal, r.prevLogSlot + 1)
    && r.leaderCommitSlot == sent.origin.committedSlot
  }

  ghost predicate AnswerLogOK(a: Answer, logs: map<nat, Log>) {
    a.response.outcome.Promise? ==> SeqKnown(a.response.outcome.uncommittedEntries, logs)
  }

  ghost predicate TermLogsMatched(logs: map<nat, Log>) { forall c :: c in logs ==> Matched(logs[c], logs) }

  ghost predicate TermLogsOK(logs: map<nat, Log>, wins: set<Win>) {
    TermLogsMatched(logs) && forall c :: c in logs ==> TermWon(wins, c)
  }

  ghost predicate LogInv(s: State) {
    && (forall i :: i in s.members ==> MemberLogOK(s.members[i], s.logs))
    && (forall sent :: sent in s.sents ==> SentOK(sent, s.logs))
    && (forall a :: a in s.answers ==> AnswerLogOK(a, s.logs))
    && TermLogsOK(s.logs, s.wins)
  }

  // The member has the entry, in its log or among its uncommitted ones.
  ghost predicate HasEntry(ctx: ContextView, e: LogEntry) {
    (e.slot in ctx.wal && ctx.wal[e.slot] == e) || (e.slot in ctx.uncommitted && ctx.uncommitted[e.slot] == e)
  }

  lemma HeldIsKnown(s: State, i: Id, e: LogEntry)
    requires LogInv(s) && i in s.members && HasEntry(s.members[i].ctx, e)
    ensures Known(e, s.logs)
  {
    assert MemberLogOK(s.members[i], s.logs);
    if e.slot in s.members[i].ctx.wal && s.members[i].ctx.wal[e.slot] == e {
      assert Same(s.members[i].ctx.wal, s.logs[e.term], e.slot);
    }
  }

  // ----- Log Matching -----

  lemma MatchedSame(a: Log, b: Log, logs: map<nat, Log>, k: nat)
    requires Matched(a, logs) && Matched(b, logs)
    requires k in a && k in b && a[k].term == b[k].term
    ensures Same(a, b, k)
  {
    assert Same(a, logs[a[k].term], k) && Same(b, logs[b[k].term], k);
  }

  /** Log Matching between any two members. */
  lemma LogsMatch(s: State, i: Id, j: Id, k: nat)
    requires LogInv(s) && i in s.members && j in s.members
    requires k in s.members[i].ctx.wal && k in s.members[j].ctx.wal
    requires s.members[i].ctx.wal[k].term == s.members[j].ctx.wal[k].term
    ensures Same(s.members[i].ctx.wal, s.members[j].ctx.wal, k)
  {
    assert MemberLogOK(s.members[i], s.logs) && MemberLogOK(s.members[j], s.logs);
    MatchedSame(s.members[i].ctx.wal, s.members[j].ctx.wal, s.logs, k);
  }

  // A prefix of a matched log is matched.
  lemma PrefixMatched(w: Log, g: Log, logs: map<nat, Log>)
    requires Matched(g, logs) && Same(w, g, Top(w))
    ensures Matched(w, logs)
  {
    forall s | s in w ensures s >= 1 && w[s].slot == s && w[s].term in logs && Same(w, logs[w[s].term], s) {
      assert w[s] == g[s];
      assert Same(g, logs[g[s].term], s);
    }
  }

  lemma SentMatched(s: State, sent: Sent)
    requires LogInv(s) && sent in s.sents
    ensures Matched(sent.origin.wal, s.logs)
  {
    assert SentOK(sent, s.logs);
    PrefixMatched(sent.origin.wal, s.logs[sent.request.term], s.logs);
  }

  lemma MatchedKeyed(w: Log, logs: map<nat, Log>)
    requires Matched(w, logs)
    ensures WellKeyed(w) && 0 !in w
  {}

  /** Log Matching between a member and a request in flight, however old. */
  lemma RequestMatches(s: State, i: Id, sent: Sent, e: LogEntry)
    requires LogInv(s) && i in s.members && sent in s.sents && e in sent.request.entries
    requires e.slot in s.members[i].ctx.wal && s.members[i].ctx.wal[e.slot].term == e.term
    ensures Same(s.members[i].ctx.wal, sent.origin.wal, e.slot)
    ensures s.members[i].ctx.wal[e.slot] == e
  {
    assert MemberLogOK(s.members[i], s.logs) && SentOK(sent, s.logs);
    SentMatched(s, sent);
    CarriedSame(s.members[i].ctx.wal, sent, e, s.logs);
  }

  lemma CarriedSame(w: Log, sent: Sent, e: LogEntry, logs: map<nat, Log>)
    requires Matched(w, logs) && SentOK(sent, logs) && Matched(sent.origin.wal, logs) && e in sent.request.entries
    requires e.slot in w && w[e.slot].term == e.term
    ensures Same(w, sent.origin.wal, e.slot) && w[e.slot] == e
  {
    RequestSame(w, sent.origin.wal, sent.request.prevLogSlot + 1, e, logs);
  }

  lemma RequestSame(w: Log, g: Log, from: nat, e: LogEntry, logs: map<nat, Log>)
    requires Matched(w, logs) && Matched(g, logs) && e in EntriesFrom(g, from)
    requires e.slot in w && w[e.slot].term == e.term
    ensures Same(w, g, e.slot) && w[e.slot] == e
  {
    MatchedKeyed(g, logs);
    RangeIsSortedListing(g, from, Top(g) + 1);
    MatchedSame(w, g, logs, e.slot);
  }

  // ----- Accepting copies the leader's log -----

  // With a matching anchor, both logs are the same through the anchor.
  lemma AnchorSame(w: Log, sent: Sent, logs: map<nat, Log>)
    requires Matched(w, logs) && SentOK(sent, logs) && AnchorMatches(w, sent.request)
    requires Matched(sent.origin.wal, logs)
    ensures Same(w, sent.origin.wal, sent.request.prevLogSlot)
  {
    if sent.request.prevLogSlot > 0 { MatchedSame(w, sent.origin.wal, logs, sent.request.prevLogSlot); }
  }

  // Replacing everything after slot `p` by the rest of `g` turns a log that is the same so far into `g`.
  lemma CopyLog(w: Log, g: Log, p: nat)
    requires Same(w, g, p) && WellKeyed(g)
    ensures AppendAll(TruncateFrom(w, p + 1), EntriesFrom(g, p + 1)) == g
  {
    AppendAllRange(TruncateFrom(w, p + 1), g, p + 1, Top(g) + 1);
  }

  lemma AcceptCopies(ctx: ContextView, sent: Sent, logs: map<nat, Log>)
    requires Matched(ctx.wal, logs) && SentOK(sent, logs) && Matched(sent.origin.wal, logs)
    requires AnchorMatches(ctx.wal, sent.request)
    ensures WriteEntries(ctx, sent.request).wal == sent.origin.wal
  {
    AnchorSame(ctx.wal, sent, logs);
    CopyLog(ctx.wal, sent.origin.wal, sent.request.prevLogSlot);
  }

  // ----- Growth of the term logs -----

  // Term logs are added and extended past their tops, never rewritten.
  ghost predicate Grows(logs: map<nat, Log>, logs': map<nat, Log>) {
    forall c :: c in logs ==> c in logs' && Same(logs[c], logs'[c], Top(logs[c]))
  }

  lemma GrowsSelf(logs: map<nat, Log>)
    ensures Grows(logs, logs)
  {}

  lemma TopGrows(term: nat, logs: map<nat, Log>, logs': map<nat, Log>)
    requires Grows(logs, logs') && term in logs
    ensures term in logs' && Top(logs[term]) <= Top(logs'[term])
  {
    if logs[term] != map[] { assert Top(logs[term]) in logs'[term]; }
  }

  lemma AllKnownMono(m: Log, logs: map<nat, Log>, logs': map<nat, Log>)
    requires AllKnown(m, logs) && Grows(logs, logs')
    ensures AllKnown(m, logs')
  {
    forall s | s in m ensures m[s].slot == s && Known(m[s], logs') { assert Known(m[s], logs); }
  }

  lemma SeqKnownMono(es: seq<LogEntry>, logs: map<nat, Log>, logs': map<nat, Log>)
    requires SeqKnown(es, logs) && Grows(logs, logs')
    ensures SeqKnown(es, logs')
  {
    forall e | e in es ensures Known(e, logs') { assert Known(e, logs); }
  }

  lemma MatchedMono(w: Log, logs: map<nat, Log>, logs': map<nat, Log>)
    requires Matched(w, logs) && Grows(logs, logs')
    ensures Matched(w, logs')
  {
    forall s | s in w ensures s >= 1 && w[s].slot == s && w[s].term in logs' && Same(w, logs'[w[s].term], s) {
      var c := w[s].term;
      assert Same(w, logs[c], s) && s <= Top(logs[c]) && Same(logs[c], logs'[c], Top(logs[c]));
    }
  }

  lemma SentMono(sent: Sent, logs: map<nat, Log>, logs': map<nat, Log>)
    requires SentOK(sent, logs) && Grows(logs, logs') && TermLogsMatched(logs) && TermLogsMatched(logs')
    ensures SentOK(sent, logs')
  {
    var c := sent.request.term;
    assert Matched(logs[c], logs) && Matched(logs'[c], logs');
    MatchedKeyed(logs[c], logs);
    MatchedKeyed(logs'[c], logs');
    PrefixGrows(sent.origin.wal, logs[c], logs'[c]);
  }

  lemma PrefixGrows(w: Log, g: Log, g': Log)
    requires Same(w, g, Top(w)) && Same(g, g', Top(g)) && 0 !in g && 0 !in g'
    ensures Same(w, g', Top(w))
  {
    if w != map[] { assert Top(w) in g; }
  }

  // The terms that other members lead keep their logs.
  ghost predicate OthersLogsStay(s: State, i: Id, logs': map<nat, Log>) {
    forall j :: j in s.members && j != i && s.members[j].role.Leading? ==>
      var c := s.members[j].ctx.term; c in s.logs && c in logs' && logs'[c] == s.logs[c]
  }

  /** The frame of every event: what remains is the changed member, the new messages and the term logs. */
  lemma LogFrame(s: State, i: Id, s': State)
    requires LogInv(s) && i in s.members && i in s'.members
    requires s'.members == s.members[i := s'.members[i]]
    requires Grows(s.logs, s'.logs) && TermLogsOK(s'.logs, s'.wins)
    requires MemberLogOK(s'.members[i], s'.logs)
    requires OthersLogsStay(s, i, s'.logs)
    requires forall sent :: sent in s'.sents - s.sents ==> SentOK(sent, s'.logs)
    requires forall a :: a in s'.answers - s.answers ==> AnswerLogOK(a, s'.logs)
    ensures LogInv(s')
  {
    forall j | j in s'.members ensures MemberLogOK(s'.members[j], s'.logs) {
      if j != i {
        assert MemberLogOK(s.members[j], s.logs);
        MatchedMono(s.members[j].ctx.wal, s.logs, s'.logs);
        AllKnownMono(s.members[j].ctx.uncommitted, s.logs, s'.logs);
        if s.members[j].role.Campaigning? { AllKnownMono(s.members[j].role.c.pending, s.logs, s'.logs); }
      }
    }
    forall sent | sent in s'.sents ensures SentOK(sent, s'.logs) {
      if sent in s.sents { SentMono(sent, s.logs, s'.logs); }
    }
    forall a | a in s'.answers ensures AnswerLogOK(a, s'.logs) {
      if a in s.answers && a.response.outcome.Promise? {
        assert AnswerLogOK(a, s.logs);
        SeqKnownMono(a.response.outcome.uncommittedEntries, s.logs, s'.logs);
      }
    }
  }

  // Events that leave the term logs alone.
  lemma LogUnaffected(s: State, i: Id, s': State)
    requires LogInv(s) && i in s.members && i in s'.members
    requires s'.members == s.members[i := s'.members[i]]
    requires s'.logs == s.logs && s'.wins == s.wins
    requires MemberLogOK(s'.members[i], s.logs)
    requires forall sent :: sent in s'.sents - s.sents ==> SentOK(sent, s.logs)
    requires forall a :: a in s'.answers - s.answers ==> AnswerLogOK(a, s.logs)
    ensures LogInv(s')
  {
    LeadersHaveLogs(s);
    GrowsSelf(s.logs);
    LogFrame(s, i, s');
  }

  lemma LeadersHaveLogs(s: State)
    requires LogInv(s)
    ensures forall j :: j in s.members && s.members[j].role.Leading? ==> s.members[j].ctx.term in s.logs
  {
    forall j | j in s.members && s.members[j].role.Leading? ensures s.members[j].ctx.term in s.logs {
      assert MemberLogOK(s.members[j], s.logs);
    }
  }

  // ----- Events that keep the log -----

  lemma SameLogOK(a: ContextView, b: ContextView, logs: map<nat, Log>)
    requires ContextOK(a, logs) && SameLog(a, b)
    ensures ContextOK(b, logs)
  {}

  lemma KeptLog(s: State, i: Id, m': Member, s': State)
    requires LogInv(s) && i in s.members && SameLog(s.members[i].ctx, m'.ctx)
    requires m'.role.Following? || m'.role.PreCampaigning? || KeptOrFollowing(s.members[i], m')
    requires s'.members == s.members[i := m'] && s'.logs == s.logs && s'.wins == s.wins && s'.sents == s.sents
    requires forall a :: a in s'.answers - s.answers ==> AnswerLogOK(a, s.logs)
    ensures LogInv(s')
  {
    assert MemberLogOK(s.members[i], s.logs);
    SameLogOK(s.members[i].ctx, m'.ctx, s.logs);
    LogUnaffected(s, i, s');
  }

  lemma ListedKnown(m: Log, logs: map<nat, Log>)
    requires AllKnown(m, logs)
    ensures SeqKnown(EntriesFrom(m, 0), logs)
  {
    RangeIsSortedListing(m, 0, Top(m) + 1);
    forall e | e in EntriesFrom(m, 0) ensures Known(e, logs) { assert m[e.slot] == e; }
  }

  lemma VoteLog(s: State, i: Id, ask: Ask, r: VoteOutcomeAt)
    requires LogInv(s) && i in s.members && VoteFacts(s.members[i], ask.request, r, s.now)
    ensures LogInv(VoteAskedNext(s, i, ask, r))
  {
    assert MemberLogOK(s.members[i], s.logs);
    ListedKnown(s.members[i].ctx.uncommitted, s.logs);
    KeptLog(s, i, r.m, VoteAskedNext(s, i, ask, r));
  }

  lemma PreVoteLog(s: State, i: Id, r: PreVoteResult)
    requires LogInv(s) && i in s.members && s.members[i].role.PreCampaigning?
    requires PreVoteFacts(s.members[i], r, s.now)
    ensures LogInv(PreVoteReplyNext(s, i, r))
  {
    var s' := PreVoteReplyNext(s, i, r);
    assert MemberLogOK(s.members[i], s.logs);
    if r.Promoted? {
      SameLogOK(s.members[i].ctx, r.ctx, s.logs);
      LogUnaffected(s, i, s');
    } else {
      KeptLog(s, i, s'.members[i], s');
    }
  }

  // ----- Committing -----

  lemma CommitKeepsContext(ctx: ContextView, slot: nat, logs: map<nat, Log>)
    requires ContextOK(ctx, logs) && slot >= ctx.committedSlot
    ensures ContextOK(CommitThrough(ctx, slot), logs)
  {}

  // ----- Accepting -----

  // The entries just written to both logs keep one covering the other.
  lemma WriteCovers(own: Log, w: Log, committed: nat, g: Log, p: nat)
    requires Covers(own, w, committed) && Same(w, g, p) && WellKeyed(g)
    ensures Covers(AppendAll(own, EntriesFrom(g, p + 1)), g, committed)
  {
    AppendAllRange(own, g, p + 1, Top(g) + 1);
    WrittenCovers(own, w, committed, g, p, AppendAll(own, EntriesFrom(g, p + 1)));
  }

  lemma WrittenCovers(own: Log, w: Log, committed: nat, g: Log, p: nat, r: Log)
    requires Covers(own, w, committed) && Same(w, g, p)
    requires forall s :: s in r <==> s in own || (s in g && p < s)
    requires forall s :: s in r ==> r[s] == if s in g && p < s then g[s] else own[s]
    ensures Covers(r, g, committed)
  {
    forall s | s in g && s in r ensures r[s] == g[s] {
      if s <= p { assert s in w && g[s] == w[s]; }
    }
    forall a, b | a in r && b in g && a <= b ensures b in r {
      if b <= p { assert a in own && b in w; }
    }
  }

  lemma WriteKnown(own: Log, g: Log, p: nat, logs: map<nat, Log>)
    requires AllKnown(own, logs) && Matched(g, logs)
    ensures AllKnown(AppendAll(own, EntriesFrom(g, p + 1)), logs)
  {
    var r := AppendAll(own, EntriesFrom(g, p + 1));
    AppendAllRange(own, g, p + 1, Top(g) + 1);
    forall s | s in r ensures r[s].slot == s && Known(r[s], logs) {
      if s in g && p < s {
        assert r[s] == g[s] && Same(g, logs[g[s].term], s);
      } else {
        assert r[s] == own[s] && Known(own[s], logs);
      }
    }
  }

  lemma SentCovers(ctx: ContextView, sent: Sent, logs: map<nat, Log>)
    requires ContextOK(ctx, logs) && SentOK(sent, logs) && Matched(sent.origin.wal, logs)
    requires AnchorMatches(ctx.wal, sent.request)
    ensures Covers(AppendAll(ctx.uncommitted, sent.request.entries), sent.origin.wal, ctx.committedSlot)
  {
    AnchorSame(ctx.wal, sent, logs);
    WriteCovers(ctx.uncommitted, ctx.wal, ctx.committedSlot, sent.origin.wal, sent.request.prevLogSlot);
  }

  // The last slot is that of the last entry, or the log only loses slots.
  lemma SentWithin(ctx: ContextView, sent: Sent, logs: map<nat, Log>)
    requires ContextOK(ctx, logs) && SentOK(sent, logs) && Matched(sent.origin.wal, logs)
    requires AnchorMatches(ctx.wal, sent.request)
    ensures Within(sent.origin.wal, WriteEntries(ctx, sent.request).lastLogSlot)
  {
    AnchorSame(ctx.wal, sent, logs);
    LastWrittenIsTop(sent, logs);
    if sent.request.entries == [] {
      forall s | s in sent.origin.wal ensures s in ctx.wal { assert s <= sent.request.prevLogSlot; }
    }
  }

  lemma WriteKeepsContext(ctx: ContextView, sent: Sent, logs: map<nat, Log>)
    requires ContextOK(ctx, logs) && SentOK(sent, logs) && Matched(sent.origin.wal, logs)
    requires AnchorMatches(ctx.wal, sent.request)
    ensures ContextOK(WriteEntries(ctx, sent.request), logs)
  {
    var r := sent.request;
    AcceptCopies(ctx, sent, logs);
    SentCovers(ctx, sent, logs);
    SentWithin(ctx, sent, logs);
    WriteKnown(ctx.uncommitted, sent.origin.wal, r.prevLogSlot, logs);
    IsContextOK(WriteEntries(ctx, r), sent.origin.wal, AppendAll(ctx.uncommitted, r.entries), ctx.committedSlot, logs);
  }

  lemma IsContextOK(ctx: ContextView, wal: Log, own: Log, committed: nat, logs: map<nat, Log>)
    requires ctx.wal == wal && ctx.uncommitted == own && ctx.committedSlot == committed
    requires Matched(wal, logs) && AllKnown(own, logs) && Covers(own, wal, committed) && Within(wal, ctx.lastLogSlot)
    ensures ContextOK(ctx, logs)
  {}

  lemma JudgeKeepsContext(ctx: ContextView, sent: Sent, logs: map<nat, Log>)
    requires ContextOK(ctx, logs) && SentOK(sent, logs) && Matched(sent.origin.wal, logs)
    ensures ContextOK(Judge(ctx, sent.request).ctx, logs)
  {
    if AnchorMatches(ctx.wal, sent.request) {
      WriteKeepsContext(ctx, sent, logs);
      LearnKeepsContext(WriteEntries(ctx, sent.request), sent.request, logs);
    }
  }

  lemma LearnKeepsContext(ctx: ContextView, request: AcceptRequest, logs: map<nat, Log>)
    requires ContextOK(ctx, logs)
    ensures ContextOK(LearnCommit(ctx, request), logs)
  {
    var slot := Min(request.leaderCommitSlot, LastWritten(request));
    if slot > ctx.committedSlot {
      CommitKeepsContext(ctx, slot, logs);
    } else {
      SameLogOK(ctx, LearnCommit(ctx, request), logs);
    }
  }

  lemma JudgedLog(s: State, i: Id, sent: Sent, r: AcceptOutcomeAt)
    requires LogInv(s) && i in s.members && sent in s.sents && r.m.role.Following?
    requires SameLog(Judge(s.members[i].ctx.(term := sent.request.term), sent.request).ctx, r.m.ctx)
    ensures LogInv(AcceptAskedNext(s, i, sent, r))
  {
    assert MemberLogOK(s.members[i], s.logs) && SentOK(sent, s.logs);
    SentMatched(s, sent);
    var ctx := s.members[i].ctx.(term := sent.request.term);
    SameLogOK(s.members[i].ctx, ctx, s.logs);
    JudgeKeepsContext(ctx, sent, s.logs);
    SameLogOK(Judge(ctx, sent.request).ctx, r.m.ctx, s.logs);
    LogUnaffected(s, i, AcceptAskedNext(s, i, sent, r));
  }

  lemma AcceptLog(s: State, i: Id, sent: Sent, r: AcceptOutcomeAt)
    requires LogInv(s) && i in s.members && sent in s.sents && AcceptFacts(s.members[i], sent.request, r, s.now)
    ensures LogInv(AcceptAskedNext(s, i, sent, r))
  {
    if r.response.Some? && Judged(s.members[i], sent.request, r.m, r.response.value, s.now) {
      JudgedLog(s, i, sent, r);
    } else {
      KeptLog(s, i, r.m, AcceptAskedNext(s, i, sent, r));
    }
  }

  // ----- Leading -----

  lemma PostedOK(ctx: ContextView, request: AcceptRequest, to: Id, no: nat, logs: map<nat, Log>, now: Time)
    requires WellPosted(ctx, request, now) && ctx.term in logs && ctx.wal == logs[ctx.term]
    ensures SentOK(Sent(to, request, ctx, no), logs)
  {}

  lemma AllPostedOK(step: LeaderStep, no: nat, logs: map<nat, Log>, now: Time)
    requires AllWellPosted(step, now) && step.ctx.term in logs && step.ctx.wal == logs[step.ctx.term]
    ensures forall sent :: sent in Posted(step.requests, step.ctx, no) ==> SentOK(sent, logs)
  {
    forall sent | sent in Posted(step.requests, step.ctx, no) ensures SentOK(sent, logs) {
      PostedOK(step.ctx, step.requests[sent.to], sent.to, no, logs, now);
    }
  }

  // A leader's step that keeps its log and posts requests from it.
  lemma LeaderLog(s: State, i: Id, step: LeaderStep, s': State)
    requires LogInv(s) && i in s.members && s.members[i].role.Leading?
    requires step.ctx.term == s.members[i].ctx.term && step.ctx.wal == s.members[i].ctx.wal
    requires step.ctx.lastLogSlot == s.members[i].ctx.lastLogSlot && ContextOK(step.ctx, s.logs)
    requires AllWellPosted(step, s.now)
    requires s'.members == s.members[i := Member(step.ctx, Leading(step.l))]
    requires s'.sents == s.sents + Posted(step.requests, step.ctx, s.sendNo)
    requires s'.logs == s.logs && s'.wins == s.wins && s'.answers == s.answers
    ensures LogInv(s')
  {
    assert MemberLogOK(s.members[i], s.logs);
    AllPostedOK(step, s.sendNo, s.logs, s.now);
    LogUnaffected(s, i, s');
  }

  // A commit by the leader, if any, only moves entries out of the uncommitted log.
  lemma AckKeepsContext(ctx: ContextView, l: LeaderView, response: AcceptResponse, tSend: Time, logs: map<nat, Log>)
    requires CanHandle(ctx, l, response) && ContextOK(ctx, logs)
    ensures ContextOK(OnAcceptResponse(ctx, l, response, tSend).ctx, logs)
  {
    if !Disregards(ctx, response) {
      var contacts := NoteContact(l.lastContact, response);
      var ctx1 := ctx.(lease := RenewedLease(ctx, contacts));
      var l1 := l.(lastContact := contacts);
      SameLogOK(ctx, ctx1, logs);
      if response.success { SuccessKeepsContext(ctx1, l1, response, logs); }
    }
  }

  lemma SuccessKeepsContext(ctx: ContextView, l: LeaderView, response: AcceptResponse, logs: map<nat, Log>)
    requires ctx.peerIds != {} && response.memberId in l.score && ContextOK(ctx, logs)
    ensures ContextOK(OnSuccess(ctx, l, response).ctx, logs)
  {
    var p := l.score[response.memberId];
    if response.lastWrittenSlot > p.pos.matchSlot {
      var score := l.score[response.memberId := Acknowledge(p, response.lastWrittenSlot)];
      var slot := QuorumSlot(Matches(score), QuorumOf(ctx) - 1, ctx.lastLogSlot);
      if slot > ctx.committedSlot { CommitKeepsContext(ctx, slot, logs); }
    }
  }

  // ----- Client writes -----

  // Appending past everything keeps a matched log matched, in its own extended term log.
  lemma AppendMatched(w: Log, last: nat, e: LogEntry, logs: map<nat, Log>, logs': map<nat, Log>)
    requires Matched(w, logs) && Within(w, last) && e.slot == last + 1
    requires e.term in logs && logs[e.term] == w && logs' == logs[e.term := Append(w, e)]
    ensures Grows(logs, logs') && Matched(Append(w, e), logs') && Within(Append(w, e), last + 1)
  {
    var w' := Append(w, e);
    AppendGrows(w, last, e, logs, logs');
    forall s | s in w' ensures s >= 1 && w'[s].slot == s && w'[s].term in logs' && Same(w', logs'[w'[s].term], s) {
      if s != last + 1 { assert Same(w, logs[w[s].term], s); }
    }
  }

  lemma AppendGrows(w: Log, last: nat, e: LogEntry, logs: map<nat, Log>, logs': map<nat, Log>)
    requires Within(w, last) && e.slot == last + 1
    requires e.term in logs && logs[e.term] == w && logs' == logs[e.term := Append(w, e)]
    ensures Grows(logs, logs')
  {
    assert Same(w, Append(w, e), Top(w));
  }

  lemma WrittenContext(ctx: ContextView, e: LogEntry, logs: map<nat, Log>, logs': map<nat, Log>)
    requires ContextOK(ctx, logs) && e.slot == ctx.lastLogSlot + 1
    requires e.term == ctx.term && ctx.term in logs && logs[ctx.term] == ctx.wal
    requires logs' == logs[ctx.term := Append(ctx.wal, e)]
    ensures AllKnown(Append(ctx.uncommitted, e), logs')
    ensures Covers(Append(ctx.uncommitted, e), Append(ctx.wal, e), ctx.committedSlot)
  {
    AppendGrows(ctx.wal, ctx.lastLogSlot, e, logs, logs');
    AllKnownMono(ctx.uncommitted, logs, logs');
  }

  // Appending to the log of term `term` keeps all term logs right.
  lemma TermLogsAppend(logs: map<nat, Log>, logs': map<nat, Log>, term: nat, wins: set<Win>)
    requires TermLogsOK(logs, wins) && Grows(logs, logs') && TermWon(wins, term)
    requires term in logs' && logs' == logs[term := logs'[term]] && Matched(logs'[term], logs')
    ensures TermLogsOK(logs', wins)
  {
    forall c | c in logs' ensures Matched(logs'[c], logs') && TermWon(wins, c) {
      if c != term { MatchedMono(logs[c], logs, logs'); }
    }
  }

  // Only one member leads the term, so no other leader's log is touched.
  lemma OtherLeaders(s: State, i: Id, logs': map<nat, Log>)
    requires ElectionInv(s) && LogInv(s) && i in s.members && s.members[i].role.Leading?
    requires s.members[i].ctx.term in logs' && logs' == s.logs[s.members[i].ctx.term := logs'[s.members[i].ctx.term]]
    ensures OthersLogsStay(s, i, logs')
  {
    forall j | j in s.members && j != i && s.members[j].role.Leading?
      ensures var c := s.members[j].ctx.term; c in s.logs && c in logs' && logs'[c] == s.logs[c]
    {
      assert MemberLogOK(s.members[j], s.logs);
      if s.members[j].ctx.term == s.members[i].ctx.term { LeadersDiffer(s, i, j); }
    }
  }

  lemma WriteLog(s: State, i: Id, command: nat, value: string, reading: TimeInterval)
    requires ElectionInv(s) && LogInv(s) && ClientWriteEnabled(s, i, command, reading)
    ensures var m := s.members[i];
      LogInv(ClientWriteNext(s, i, command, OnClientWrite(m.ctx, m.role.l, command, value, reading)))
  {
    var m := s.members[i];
    var s' := ClientWriteNext(s, i, command, OnClientWrite(m.ctx, m.role.l, command, value, reading));
    var e := LogEntry(m.ctx.term, m.ctx.lastLogSlot + 1, value, reading.latest);
    assert MemberLogOK(m, s.logs);
    AppendMatched(m.ctx.wal, m.ctx.lastLogSlot, e, s.logs, s'.logs);
    WrittenContext(m.ctx, e, s.logs, s'.logs);
    TermLogsAppend(s.logs, s'.logs, m.ctx.term, s.wins);
    OtherLeaders(s, i, s'.logs);
    LogFrame(s, i, s');
  }

  // ----- Taking over -----

  lemma {:induction false} MergeKnown(pending: Log, es: seq<LogEntry>, logs: map<nat, Log>)
    requires AllKnown(pending, logs) && SeqKnown(es, logs)
    ensures AllKnown(Merge(pending, es), logs)
    decreases |es|
  {
    if es != [] {
      assert Known(es[0], logs);
      assert forall e :: e in es[1..] ==> e in es;
      MergeKnown(MergeEntry(pending, es[0]), es[1..], logs);
    }
  }

  lemma FlushKnown(pending: Log, committed: nat, own: Log, logs: map<nat, Log>)
    requires AllKnown(pending, logs) && AllKnown(own, logs)
    ensures AllKnown(Flush(pending, committed, own), logs)
  {}

  // The winner's log after restamping, as the log of a term that had none.
  lemma RestampMatched(w: Log, own: Log, term: nat, logs: map<nat, Log>, logs': map<nat, Log>)
    requires Matched(w, logs) && AllKnown(own, logs) && term !in logs
    requires forall a, b :: a in own && b in w && a <= b ==> b in own
    requires logs' == logs[term := w + Restamp(own, term)]
    ensures Matched(w + Restamp(own, term), logs')
  {
    var w' := w + Restamp(own, term);
    forall s | s in w' ensures s >= 1 && w'[s].slot == s && w'[s].term in logs' && Same(w', logs'[w'[s].term], s) {
      if s in own {
        assert Known(own[s], logs);
      } else {
        assert Same(w, logs[w[s].term], s);
        assert forall k :: k <= s ==> k !in own && (k in w' <==> k in w);
      }
    }
  }

  lemma RestampKnown(w: Log, own: Log, term: nat, logs: map<nat, Log>, logs': map<nat, Log>)
    requires AllKnown(own, logs) && term in logs' && logs'[term] == w + Restamp(own, term)
    ensures AllKnown(Restamp(own, term), logs')
  {
    forall s | s in own ensures own[s].slot == s && s >= 1 { assert Known(own[s], logs); }
  }

  lemma RestampCovers(w: Log, own: Log, committed: nat, term: nat)
    requires forall s :: s in w && s > committed ==> s in own
    requires forall a, b :: a in own && b in w && a <= b ==> b in own
    ensures Covers(Restamp(own, term), w + Restamp(own, term), committed)
  {}

  // The entries that the winner restamps.
  function Inherited(ctx: ContextView, c1: CandidateView): Log {
    Flush(c1.pending, ctx.committedSlot, ctx.uncommitted)
  }

  // What the winner will restamp is, within its log, everything from some slot on.
  lemma InheritedUpwardClosed(ctx: ContextView, c1: CandidateView, logs: map<nat, Log>)
    requires ContextOK(ctx, logs)
    ensures forall a, b :: a in Inherited(ctx, c1) && b in ctx.wal && a <= b ==> b in Inherited(ctx, c1)
    ensures forall s :: s in ctx.wal && s > ctx.committedSlot ==> s in Inherited(ctx, c1)
  {}

  // The winner's context is right by what it held and was told, gaps or not.
  lemma TakeOverContext(ctx: ContextView, c1: CandidateView, logs: map<nat, Log>, logs': map<nat, Log>)
    requires c1.dispatched.Some? && ContextOK(ctx, logs) && AllKnown(c1.pending, logs) && ctx.term !in logs
    requires logs' == logs[ctx.term := ElectedContext(ctx, c1).wal]
    ensures ContextOK(ElectedContext(ctx, c1), logs') && Matched(logs'[ctx.term], logs')
  {
    var next := ElectedContext(ctx, c1);
    var own := Inherited(ctx, c1);
    assert next.uncommitted == Restamp(own, ctx.term) && next.wal == ctx.wal + Restamp(own, ctx.term);
    TakeOverLogs(ctx, c1, own, logs, logs');
    TakeOverWithin(ctx, c1, own, logs);
    IsContextOK(next, next.wal, next.uncommitted, ctx.committedSlot, logs');
  }

  lemma TakeOverLogs(ctx: ContextView, c1: CandidateView, own: Log, logs: map<nat, Log>, logs': map<nat, Log>)
    requires ContextOK(ctx, logs) && AllKnown(c1.pending, logs) && ctx.term !in logs && own == Inherited(ctx, c1)
    requires logs' == logs[ctx.term := ctx.wal + Restamp(own, ctx.term)]
    ensures Matched(ctx.wal + Restamp(own, ctx.term), logs')
    ensures AllKnown(Restamp(own, ctx.term), logs')
    ensures Covers(Restamp(own, ctx.term), ctx.wal + Restamp(own, ctx.term), ctx.committedSlot)
  {
    FlushKnown(c1.pending, ctx.committedSlot, ctx.uncommitted, logs);
    InheritedUpwardClosed(ctx, c1, logs);
    RestampMatched(ctx.wal, own, ctx.term, logs, logs');
    RestampKnown(ctx.wal, own, ctx.term, logs, logs');
    RestampCovers(ctx.wal, own, ctx.committedSlot, ctx.term);
  }

  lemma TakeOverWithin(ctx: ContextView, c1: CandidateView, own: Log, logs: map<nat, Log>)
    requires c1.dispatched.Some? && ContextOK(ctx, logs) && own == Inherited(ctx, c1)
    ensures Within(ElectedContext(ctx, c1).wal, ElectedContext(ctx, c1).lastLogSlot)
  {
    var stamped := Restamp(own, ctx.term);
    InheritedUpwardClosed(ctx, c1, logs);
    assert stamped.Keys == own.Keys;
    if own != map[] {
      assert Top(stamped) in own;
      assert forall s :: s in ctx.wal && s > Top(stamped) ==> s in stamped;
    }
  }

  // No other member has won the term, and the winner had not won it before.
  lemma FreshTerm(s: State, i: Id, s': State)
    requires ElectionInv(s) && ElectionInv(s') && LogInv(s) && i in s.members && s.members[i].role.Campaigning?
    requires s'.wins == s.wins + {Win(i, s.members[i].ctx.term, s.now)}
    ensures s.members[i].ctx.term !in s.logs
  {
    assert Win(i, s.members[i].ctx.term, s.now) in s'.wins;
    FirstToWin(s, i, s');
    assert !TermWon(s.wins, s.members[i].ctx.term);
  }

  /** A winner whose log reached `top` without a gap, whatever its last slot said, ends up gapless exactly when it takes
      nothing over and its last slot was `top`, or takes over every slot past `top` up to the last one that it takes
      over, which `top` does not exceed. */
  lemma GaplessTakeoverIff(ctx: ContextView, c: CandidateView, top: nat)
    requires c.dispatched.Some? && TopIs(ctx.wal, top)
    ensures var own := Inherited(ctx, c);
      TopIs(ElectedContext(ctx, c).wal, ElectedContext(ctx, c).lastLogSlot) <==>
        || (own == map[] && ctx.lastLogSlot == top)
        || (own != map[] && 0 !in own && Top(own) >= top && forall s :: top < s <= Top(own) ==> s in own)
  {
    var own := Inherited(ctx, c);
    var next := ElectedContext(ctx, c);
    assert next.wal == ctx.wal + Restamp(own, ctx.term);
    assert Restamp(own, ctx.term).Keys == own.Keys;
    if own == map[] {
      assert next.wal == ctx.wal;
      TopOfTopIs(ctx.wal, top);
      if TopIs(ctx.wal, ctx.lastLogSlot) { TopOfTopIs(ctx.wal, ctx.lastLogSlot); }
    } else {
      TakeoverKeys(ctx, own, next, top);
    }
  }

  lemma TakeoverKeys(ctx: ContextView, own: Log, next: ContextView, top: nat)
    requires own != map[] && TopIs(ctx.wal, top) && next.wal.Keys == ctx.wal.Keys + own.Keys
    requires next.lastLogSlot == Top(Restamp(own, ctx.term))
    ensures TopIs(next.wal, next.lastLogSlot) <==>
      0 !in own && Top(own) >= top && forall s :: top < s <= Top(own) ==> s in own
  {
    var stamped := Restamp(own, ctx.term);
    assert stamped.Keys == own.Keys;
    assert Top(own) in stamped && Top(stamped) in own;
    assert next.lastLogSlot == Top(own);
    if TopIs(next.wal, Top(own)) {
      if top > 0 { assert top in next.wal; }
      forall s | top < s <= Top(own) ensures s in own { assert s in next.wal; }
      assert 0 !in next.wal;
    }
  }

  lemma ElectedLog(s: State, i: Id, c1: CandidateView, step: LeaderStep)
    requires ElectionInv(s) && LogInv(s) && i in s.members && s.members[i].role.Campaigning?
    requires ElectedFacts(s.members[i].ctx, c1, step, s.now) && AllKnown(c1.pending, s.logs)
    requires ElectionInv(VoteReplyNext(s, i, Elected(step)))
    ensures LogInv(VoteReplyNext(s, i, Elected(step)))
  {
    var s' := VoteReplyNext(s, i, Elected(step));
    FreshTerm(s, i, s');
    ElectedTermLogs(s, i, c1, step, s'.logs, s'.wins);
    AllPostedOK(step, s.sendNo, s'.logs, s.now);
    NewTermFrame(s, i, s', step.ctx.term);
  }

  // A new term leaves the logs of the others' terms alone.
  lemma NewTermFrame(s: State, i: Id, s': State, term: nat)
    requires LogInv(s) && i in s.members && i in s'.members && s'.members == s.members[i := s'.members[i]]
    requires term !in s.logs && term in s'.logs && s'.logs == s.logs[term := s'.logs[term]]
    requires Grows(s.logs, s'.logs) && TermLogsOK(s'.logs, s'.wins) && MemberLogOK(s'.members[i], s'.logs)
    requires s'.answers == s.answers && forall sent :: sent in s'.sents - s.sents ==> SentOK(sent, s'.logs)
    ensures LogInv(s')
  {
    NewTermApart(s, i, s'.logs, term);
    LogFrame(s, i, s');
  }

  lemma NewTermApart(s: State, i: Id, logs': map<nat, Log>, term: nat)
    requires LogInv(s) && term !in s.logs && term in logs' && logs' == s.logs[term := logs'[term]]
    ensures OthersLogsStay(s, i, logs')
  {
    LeadersHaveLogs(s);
  }

  // The winner's log becomes the log of its term.
  lemma ElectedTermLogs(s: State, i: Id, c1: CandidateView, step: LeaderStep, logs': map<nat, Log>, wins': set<Win>)
    requires LogInv(s) && i in s.members && s.members[i].ctx.term !in s.logs
    requires ElectedFacts(s.members[i].ctx, c1, step, s.now) && AllKnown(c1.pending, s.logs)
    requires logs' == s.logs[step.ctx.term := step.ctx.wal] && wins' == s.wins + {Win(i, step.ctx.term, s.now)}
    ensures Grows(s.logs, logs') && TermLogsOK(logs', wins') && MemberLogOK(Member(step.ctx, Leading(step.l)), logs')
  {
    assert MemberLogOK(s.members[i], s.logs);
    TakeOverContext(s.members[i].ctx, c1, s.logs, logs');
    NewTermGrows(s.logs, logs', step.ctx.term);
    assert Win(i, step.ctx.term, s.now) in wins';
    TermLogsAdd(s.logs, logs', step.ctx.term, s.wins, wins');
    assert RoleLogOK(Member(step.ctx, Leading(step.l)), logs');
  }

  lemma NewTermGrows(logs: map<nat, Log>, logs': map<nat, Log>, term: nat)
    requires term !in logs && term in logs' && logs' == logs[term := logs'[term]]
    ensures Grows(logs, logs')
  {}

  lemma TermLogsAdd(logs: map<nat, Log>, logs': map<nat, Log>, term: nat, wins: set<Win>, wins': set<Win>)
    requires TermLogsOK(logs, wins) && Grows(logs, logs') && wins <= wins' && TermWon(wins', term)
    requires term in logs' && logs' == logs[term := logs'[term]] && Matched(logs'[term], logs')
    ensures TermLogsOK(logs', wins')
  {
    forall c | c in logs' ensures Matched(logs'[c], logs') && TermWon(wins', c) {
      if c != term {
        MatchedMono(logs[c], logs, logs');
        var w :| w in wins && w.term == c;
        assert w in wins';
      }
    }
  }

  lemma RecordedKnown(s: State, i: Id, answer: Answer)
    requires LogInv(s) && i in s.members && answer in s.answers && s.members[i].role.Campaigning?
    requires answer.response.memberId in s.members[i].role.c.score
    ensures AllKnown(RecordVote(s.members[i].ctx, s.members[i].role.c, answer.response).pending, s.logs)
  {
    assert MemberLogOK(s.members[i], s.logs) && AnswerLogOK(answer, s.logs);
    if answer.response.outcome.Promise? {
      MergeKnown(s.members[i].role.c.pending, answer.response.outcome.uncommittedEntries, s.logs);
    }
  }

  lemma VoteReplyLog(s: State, i: Id, answer: Answer, r: VoteResult)
    requires ElectionInv(s) && LogInv(s) && i in s.members && answer in s.answers
    requires s.members[i].role.Campaigning? && answer.response.memberId in s.members[i].role.c.score
    requires ElectFacts(s.members[i], answer.response, r, s.now)
    requires ElectionInv(VoteReplyNext(s, i, r))
    ensures LogInv(VoteReplyNext(s, i, r))
  {
    var m := s.members[i];
    var c1 := RecordVote(m.ctx, m.role.c, answer.response);
    assert MemberLogOK(m, s.logs);
    RecordedKnown(s, i, answer);
    match r
    case Waiting(c) => LogUnaffected(s, i, VoteReplyNext(s, i, r));
    case GivenUp(ctx) => KeptLog(s, i, Member(ctx, Following(FRESH_FOLLOWER)), VoteReplyNext(s, i, r));
    case Elected(step) =>
      assert ElectedFacts(m.ctx, c1, step, s.now);
      ElectedLog(s, i, c1, step);
  }

  // ----- Every event -----

  /** Every event, without assumption, keeps the invariant. */
  lemma LogStep(s: State, e: Event)
    requires ElectionInv(s) && LogInv(s) && Enabled(s, e)
    ensures LogInv(Next(s, e))
  {
    if e.PreVoteReply? || e.VoteReply? {
      ElectionStep(s, e);
      CampaignLogStep(s, e);
    } else if e.VoteAsked? || e.AcceptAsked? {
      RequestLogStep(s, e);
    } else {
      OtherLogStep(s, e);
    }
  }

  lemma CampaignLogStep(s: State, e: Event)
    requires ElectionInv(s) && LogInv(s) && Enabled(s, e) && ElectionInv(Next(s, e))
    requires e.PreVoteReply? || e.VoteReply?
    ensures LogInv(Next(s, e))
  {
    var m := s.members[e.i];
    if e.PreVoteReply? {
      assert MemberOK(m, e.i, s.members.Keys, s.ballots, s.wins, s.now);
      PreVoteReplyFacts(m, e.preVote, e.reading, s.now);
      PreVoteLog(s, e.i, OnPreVoteResponse(m.ctx, m.role.p, e.preVote, e.reading));
    } else {
      VoteReplyFacts(m, e.answer, e.reading, e.tSends, s.now);
      VoteReplyLog(s, e.i, e.answer, OnVoteResponse(m.ctx, m.role.c, e.answer.response, e.reading, e.tSends));
    }
  }

  lemma RequestLogStep(s: State, e: Event)
    requires LogInv(s) && Enabled(s, e) && (e.VoteAsked? || e.AcceptAsked?)
    ensures LogInv(Next(s, e))
  {
    var m := s.members[e.i];
    if e.VoteAsked? {
      VoteRequestFacts(m, e.ask.request, e.roleCheck, e.check, e.extend, s.now);
      VoteLog(s, e.i, e.ask, ProcessVoteRequest(m, e.ask.request, e.roleCheck, e.check, e.extend));
    } else {
      AcceptRequestFacts(m, e.sent.request, e.roleCheck, e.check, e.extend, s.now);
      AcceptLog(s, e.i, e.sent, ProcessAcceptRequest(m, e.sent.request, e.roleCheck, e.check, e.extend));
    }
  }

  lemma OtherLogStep(s: State, e: Event)
    requires ElectionInv(s) && LogInv(s) && Enabled(s, e)
    requires Quiet(e) || Routine(e) || e.AcceptReply? || e.ClientWrite? || e.Answered? || e.Tick?
    ensures LogInv(Next(s, e))
  {
    if Quiet(e) {
      var m' := QuietMember(s.members[e.i], e, s.now);
      QuietMemberFacts(s.members[e.i], e, s.now);
      KeptLog(s, e.i, m', Put(s, e.i, m'));
    } else if Routine(e) {
      RoutineLog(s, e);
    } else if e.AcceptReply? {
      AcceptReplyLog(s, e);
    } else if e.ClientWrite? {
      WriteLog(s, e.i, e.command, e.value, e.reading);
    } else if e.Tick? {
      SameLogs(s, s.(now := e.t));
    } else {
      SameLogs(s, AnsweredNext(s, e.write));
    }
  }

  lemma SameLogs(s: State, s': State)
    requires LogInv(s) && s'.members == s.members && s'.logs == s.logs && s'.wins == s.wins
    requires s'.sents == s.sents && s'.answers == s.answers
    ensures LogInv(s')
  {}

  lemma RoutineLog(s: State, e: Event)
    requires LogInv(s) && Routine(e) && e.i in s.members && RoutineEnabled(s.members[e.i], e, s.now)
    ensures LogInv(Post(s, e.i, RoutineStep(s.members[e.i], e, s.now)))
  {
    var step := RoutineStep(s.members[e.i], e, s.now);
    RoutineStepFacts(s.members[e.i], e, s.now);
    assert MemberLogOK(s.members[e.i], s.logs);
    SameLogOK(s.members[e.i].ctx, step.ctx, s.logs);
    LeaderLog(s, e.i, step, Post(s, e.i, step));
  }

  lemma AcceptReplyLog(s: State, e: Event)
    requires LogInv(s) && e.AcceptReply? && AcceptReplyEnabled(s, e.i, e.ack, e.tSend)
    ensures var m := s.members[e.i];
      LogInv(AcceptReplyNext(s, e.i, OnAcceptResponse(m.ctx, m.role.l, e.ack.response, e.tSend)))
  {
    var m := s.members[e.i];
    var step := OnAcceptResponse(m.ctx, m.role.l, e.ack.response, e.tSend);
    assert MemberLogOK(m, s.logs);
    AcceptReplyFacts(m, e.ack.response, e.tSend, s.now);
    AckKeepsContext(m.ctx, m.role.l, e.ack.response, e.tSend, s.logs);
    LeaderLog(s, e.i, step, AcceptReplyNext(s, e.i, step));
  }

  // ----- How term logs move -----

  // A client write puts one entry past the leader's last slot; otherwise the log of a term stays as it is.
  ghost predicate TermLogMoves(s: State, e: Event, s': State, term: nat)
    requires term in s.logs
  {
    term in s'.logs
    && (|| s'.logs[term] == s.logs[term]
        || (&& e.ClientWrite? && e.i in s.members && s.members[e.i].role.Leading? && s.members[e.i].ctx.term == term
            && var slot := s.members[e.i].ctx.lastLogSlot + 1;
            s'.logs[term] == Append(s.logs[term], LogEntry(term, slot, e.value, e.reading.latest))))
  }

  lemma TermLogsMove(s: State, e: Event, s': State, term: nat)
    requires ElectionInv(s) && LogInv(s) && Enabled(s, e) && s' == Next(s, e) && ElectionInv(s') && term in s.logs
    ensures TermLogMoves(s, e, s', term)
  {
    if e.ClientWrite? {
      WriteMovesLogs(s, e, s', term);
    } else if e.VoteReply? {
      VoteReplyMovesLogs(s, e, s', term);
    } else {
      LogsOtherwiseKept(s, e, s');
    }
  }

  lemma VoteReplyMovesLogs(s: State, e: Event, s': State, term: nat)
    requires ElectionInv(s) && LogInv(s) && Enabled(s, e) && s' == Next(s, e) && ElectionInv(s') && term in s.logs
    requires e.VoteReply?
    ensures term in s'.logs && s'.logs[term] == s.logs[term]
  {
    var m := s.members[e.i];
    VoteReplyFacts(m, e.answer, e.reading, e.tSends, s.now);
    WinMoves(s, e.i, OnVoteResponse(m.ctx, m.role.c, e.answer.response, e.reading, e.tSends), s', term);
  }

  lemma WriteMovesLogs(s: State, e: Event, s': State, term: nat)
    requires LogInv(s) && e.ClientWrite? && Enabled(s, e) && s' == Next(s, e) && term in s.logs
    ensures TermLogMoves(s, e, s', term)
  {
    var ctx := s.members[e.i].ctx;
    assert MemberLogOK(s.members[e.i], s.logs);
    assert s'.logs == s.logs[ctx.term :=
      Append(ctx.wal, LogEntry(ctx.term, ctx.lastLogSlot + 1, e.value, e.reading.latest))];
  }

  lemma WinMoves(s: State, i: Id, r: VoteResult, s': State, term: nat)
    requires i in s.members && s.members[i].role.Campaigning? && ElectionInv(s) && LogInv(s) && term in s.logs
    requires r.Elected? ==> r.step.ctx.term == s.members[i].ctx.term
    requires s' == VoteReplyNext(s, i, r) && ElectionInv(s')
    ensures term in s'.logs && s'.logs[term] == s.logs[term]
  {
    if r.Elected? { FreshTerm(s, i, s'); }
  }

  lemma LogsOtherwiseKept(s: State, e: Event, s': State)
    requires Enabled(s, e) && s' == Next(s, e) && !e.ClientWrite? && !e.VoteReply?
    ensures s'.logs == s.logs
  {
    if e.AcceptReply? { AckKeepsLogs(s, e, s'); }
  }

  lemma AckKeepsLogs(s: State, e: Event, s': State)
    requires Enabled(s, e) && s' == Next(s, e) && e.AcceptReply?
    ensures s'.logs == s.logs
  {}

  lemma StepGrowsLogs(s: State, e: Event, s': State)
    requires ElectionInv(s) && LogInv(s) && Enabled(s, e) && s' == Next(s, e) && ElectionInv(s')
    ensures Grows(s.logs, s'.logs)
  {
    forall c | c in s.logs ensures c in s'.logs && Same(s.logs[c], s'.logs[c], Top(s.logs[c])) {
      TermLogsMove(s, e, s', c);
      if s'.logs[c] != s.logs[c] {
        assert MemberLogOK(s.members[e.i], s.logs);
        PastTop(s.logs[c], s.members[e.i].ctx.lastLogSlot,
                LogEntry(c, s.members[e.i].ctx.lastLogSlot + 1, e.value, e.reading.latest));
      }
    }
  }

  // What is appended past the last slot leaves everything up to there as it is.
  lemma PastTop(w: Log, last: nat, e: LogEntry)
    requires Within(w, last) && e.slot == last + 1
    ensures Same(w, Append(w, e), last) && Top(w) <= last
  {}

  // ----- What accepting means for the follower -----

  lemma LastWrittenIsTop(sent: Sent, logs: map<nat, Log>)
    requires SentOK(sent, logs) && Matched(sent.origin.wal, logs)
    ensures LastWritten(sent.request) == SentTop(sent)
  {
    var g, p := sent.origin.wal, sent.request.prevLogSlot;
    if sent.request.entries != [] {
      LastListedIsTop(g, p + 1);
    } else if g != map[] {
      RangeIsSortedListing(g, p + 1, Top(g) + 1);
      assert Top(g) <= p;
    }
  }

  lemma JudgeCopies(ctx: ContextView, sent: Sent, logs: map<nat, Log>)
    requires Matched(ctx.wal, logs) && SentOK(sent, logs) && Matched(sent.origin.wal, logs)
    ensures var a := Judge(ctx, sent.request);
      && (!a.response.success ==> a.ctx == ctx)
      && (a.response.success ==>
            && a.ctx.wal == sent.origin.wal && a.response.lastWrittenSlot == SentTop(sent)
            && a.ctx.committedSlot == Max(ctx.committedSlot, Min(sent.origin.committedSlot, SentTop(sent))))
  {
    if AnchorMatches(ctx.wal, sent.request) {
      AcceptCopies(ctx, sent, logs);
      LastWrittenIsTop(sent, logs);
    }
  }

  /** Accepting truncates unconditionally: a slot of the follower's log survives exactly when the leader's log at
      dispatch holds it; and a slot of the term's log, exactly when the request, however old, reaches that far. */
  lemma AcceptKeepsSlotIff(ctx: ContextView, sent: Sent, logs: map<nat, Log>, k: nat)
    requires Matched(ctx.wal, logs) && SentOK(sent, logs) && Matched(sent.origin.wal, logs)
    requires AnchorMatches(ctx.wal, sent.request) && k in ctx.wal
    ensures k in Judge(ctx, sent.request).ctx.wal <==> k in sent.origin.wal
    ensures k in logs[sent.request.term] ==> (k in Judge(ctx, sent.request).ctx.wal <==> k <= SentTop(sent))
  {
    JudgeCopies(ctx, sent, logs);
  }

  /** A request that is accepted leaves the follower with exactly the log that the leader had when it
      sent the request; whatever it newly commits, the leader had committed by then. */
  lemma AcceptRefinesCopy(s: State, i: Id, sent: Sent, r: AcceptOutcomeAt)
    requires LogInv(s) && i in s.members && sent in s.sents && AcceptFacts(s.members[i], sent.request, r, s.now)
    ensures r.m.ctx.wal
      == if r.response.Some? && r.response.value.success then sent.origin.wal else s.members[i].ctx.wal
    ensures r.m.ctx.committedSlot != s.members[i].ctx.committedSlot ==>
      && s.members[i].ctx.committedSlot < r.m.ctx.committedSlot <= sent.origin.committedSlot
      && r.m.ctx.wal == sent.origin.wal
    ensures r.m.ctx.committedSlot
      == if r.response.Some? && r.response.value.success
         then Max(s.members[i].ctx.committedSlot, Min(sent.origin.committedSlot, SentTop(sent)))
         else s.members[i].ctx.committedSlot
  {
    assert MemberLogOK(s.members[i], s.logs) && SentOK(sent, s.logs);
    SentMatched(s, sent);
    JudgeCopies(s.members[i].ctx.(term := sent.request.term), sent, s.logs);
  }
}
