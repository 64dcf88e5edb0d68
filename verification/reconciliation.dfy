/** The reject/adjust/redispatch loop between a leader and one follower: it ends, soon, with equal logs. */
module Reconciliation {
  import opened Types
  import opened Wal
  import opened Views
  import opened FollowerRole
  import opened LeaderRole
  import opened Group
  import opened LogMatching

  // ----- Distinct terms -----

  // The terms of the entries at the slots 1 to `k`.
  function TermsUpTo(m: Log, k: nat): set<nat> {
    set s | s in m && 1 <= s <= k :: m[s].term
  }

  lemma TermsShrink(m: Log, a: nat, b: nat)
    requires a <= b
    ensures TermsUpTo(m, a) <= TermsUpTo(m, b) && |TermsUpTo(m, a)| <= |TermsUpTo(m, b)|
  {
    var more := TermsUpTo(m, b) - TermsUpTo(m, a);
    assert TermsUpTo(m, b) == TermsUpTo(m, a) + more;
  }

  // ----- One probe -----

  // Both logs have no gap and match the same logs of terms.
  ghost predicate Comparable(leader: ContextView, follower: ContextView, logs: map<nat, Log>) {
    && TopIs(leader.wal, leader.lastLogSlot) && TopIs(follower.wal, follower.lastLogSlot)
    && Matched(leader.wal, logs) && Matched(follower.wal, logs)
    && leader.term in logs && leader.wal == logs[leader.term]
  }

  // In every state with matching logs, a leader and a follower whose logs have no gap up to their last slots are
  // comparable.
  lemma MembersComparable(s: State, i: Id, j: Id)
    requires LogInv(s) && i in s.members && j in s.members && s.members[i].role.Leading?
    requires TopIs(s.members[i].ctx.wal, s.members[i].ctx.lastLogSlot)
    requires TopIs(s.members[j].ctx.wal, s.members[j].ctx.lastLogSlot)
    ensures Comparable(s.members[i].ctx, s.members[j].ctx, s.logs)
  {
    assert MemberLogOK(s.members[i], s.logs) && MemberLogOK(s.members[j], s.logs);
  }

  // Both logs have no gap; and where they conflict, the leader's entries of the follower's term lie before, and are
  // shared.
  ghost predicate Aligned(leader: ContextView, follower: ContextView) {
    && TopIs(leader.wal, leader.lastLogSlot) && TopIs(follower.wal, follower.lastLogSlot)
    && forall a, h ::
         (a in follower.wal && a in leader.wal && h in leader.wal
          && follower.wal[a].term != leader.wal[a].term && leader.wal[h].term == follower.wal[a].term) ==>
           h < a && h in follower.wal && follower.wal[h] == leader.wal[h]
  }

  lemma ComparableAligned(leader: ContextView, follower: ContextView, logs: map<nat, Log>)
    requires Comparable(leader, follower, logs)
    ensures Aligned(leader, follower)
  {
    forall a, h | a in follower.wal && a in leader.wal && h in leader.wal
      && follower.wal[a].term != leader.wal[a].term && leader.wal[h].term == follower.wal[a].term
      ensures h < a && h in follower.wal && follower.wal[h] == leader.wal[h]
    {
      SharedTermBefore(leader.wal, follower.wal, logs, a, h);
    }
  }

  // A leader that holds the conflicting term has its last entry of it before the conflict, and the follower shares it.
  lemma SharedTermBefore(l: Log, f: Log, logs: map<nat, Log>, a: nat, h: nat)
    requires Matched(l, logs) && Matched(f, logs) && a in f && a in l && h in l
    requires f[a].term != l[a].term && l[h].term == f[a].term
    ensures h < a && h in f && f[h] == l[h]
  {
    assert Same(l, logs[l[h].term], h) && Same(f, logs[l[h].term], a);
  }

  // The follower would accept a request anchored at slot `a` of the leader's log.
  predicate Accepts(leader: ContextView, follower: ContextView, a: nat) {
    a == 0 || (a in follower.wal && a in leader.wal && follower.wal[a].term == leader.wal[a].term)
  }

  // How many different anchors can still be rejected, starting just before `next`.
  function Potential(leader: ContextView, follower: ContextView, next: nat): nat
    requires next >= 1
  {
    if Accepts(leader, follower, next - 1) then 0
    else if next - 1 > follower.lastLogSlot then 1 + |TermsUpTo(follower.wal, follower.lastLogSlot)|
    else |TermsUpTo(follower.wal, next - 1)|
  }

  // The position to which the leader moves when its probe at anchor `a` is rejected.
  function RejectedNext(leader: ContextView, follower: ContextView, a: nat): nat {
    if a !in follower.wal then follower.lastLogSlot + 1
    else
      var term := follower.wal[a].term;
      NextAfter(leader.wal, ConflictHint(term, LowestSlotForTerm(follower.wal, term).value))
  }

  // The request probes at its anchor and carries the leader's log after it.
  ghost predicate Outstanding(leader: ContextView, request: AcceptRequest) {
    var a := request.prevLogSlot;
    && a <= leader.lastLogSlot
    && (a > 0 ==> a in leader.wal && request.prevLogTerm == leader.wal[a].term)
    && request.entries == EntriesFrom(leader.wal, a + 1)
  }

  // The follower's answer depends on the anchor only.
  lemma AnswerToProbe(leader: ContextView, follower: ContextView, request: AcceptRequest)
    requires Outstanding(leader, request)
    ensures var response := Judge(follower, request).response;
      && (response.success <==> Accepts(leader, follower, request.prevLogSlot))
      && response.memberId == follower.memberId
      && (!response.success ==>
            && response.conflictHint.Some?
            && NextAfter(leader.wal, response.conflictHint.value)
                 == RejectedNext(leader, follower, request.prevLogSlot))
  {}

  // ----- What one rejection achieves -----

  // The slots before the follower's first entry of a term have one term less.
  lemma TermEliminated(m: Log, top: nat, a: nat, f: nat)
    requires TopIs(m, top) && 1 <= a <= top && f in m && m[f].term == m[a].term
    requires forall s :: s in m && m[s].term == m[a].term ==> f <= s
    ensures 1 <= f <= a && |TermsUpTo(m, f - 1)| < |TermsUpTo(m, a)|
  {
    var before, upTo := TermsUpTo(m, f - 1), TermsUpTo(m, a);
    TermsShrink(m, f - 1, a);
    assert m[a].term in upTo && m[a].term !in before;
    var rest := upTo - before;
    assert upTo == before + rest && m[a].term in rest;
  }

  lemma PotentialBelow(leader: ContextView, follower: ContextView, next: nat)
    requires TopIs(follower.wal, follower.lastLogSlot) && 1 <= next <= follower.lastLogSlot + 1
    ensures Potential(leader, follower, next) <= |TermsUpTo(follower.wal, next - 1)|
    ensures Potential(leader, follower, next) <= |TermsUpTo(follower.wal, follower.lastLogSlot)|
  {
    TermsShrink(follower.wal, next - 1, follower.lastLogSlot);
  }

  // The follower has no entry at the anchor.
  lemma ShortDrops(leader: ContextView, follower: ContextView, next: nat)
    requires TopIs(follower.wal, follower.lastLogSlot) && next - 1 > follower.lastLogSlot
    ensures Potential(leader, follower, follower.lastLogSlot + 1) < Potential(leader, follower, next)
  {
    PotentialBelow(leader, follower, follower.lastLogSlot + 1);
  }

  // The leader has no entry of the conflicting term, of which `f` is the follower's first.
  lemma FirstOfTermDrops(leader: ContextView, follower: ContextView, next: nat, f: nat)
    requires TopIs(follower.wal, follower.lastLogSlot) && 1 <= next - 1 <= follower.lastLogSlot
    requires !Accepts(leader, follower, next - 1)
    requires f in follower.wal && follower.wal[f].term == follower.wal[next - 1].term
    requires forall s :: s in follower.wal && follower.wal[s].term == follower.wal[next - 1].term ==> f <= s
    ensures 1 <= f < next && Potential(leader, follower, f) < Potential(leader, follower, next)
  {
    TermEliminated(follower.wal, follower.lastLogSlot, next - 1, f);
    PotentialBelow(leader, follower, f);
  }

  // The leader has entries of the conflicting term, the last one at `h`.
  lemma SharedTermDrops(leader: ContextView, follower: ContextView, next: nat, h: nat)
    requires Aligned(leader, follower) && 1 <= next - 1 <= leader.lastLogSlot
    requires next - 1 <= follower.lastLogSlot && !Accepts(leader, follower, next - 1)
    requires h in leader.wal && leader.wal[h].term == follower.wal[next - 1].term
    ensures h + 1 < next && Potential(leader, follower, h + 1) < Potential(leader, follower, next)
  {
    assert Potential(leader, follower, h + 1) == 0;
    assert follower.wal[next - 1].term in TermsUpTo(follower.wal, next - 1);
  }

  /** Each rejection moves the probe back, to an anchor with strictly less left to reject. */
  lemma RejectionDrops(leader: ContextView, follower: ContextView, next: nat, next': nat)
    requires Aligned(leader, follower) && 1 <= next <= leader.lastLogSlot + 1
    requires !Accepts(leader, follower, next - 1) && next' == RejectedNext(leader, follower, next - 1)
    ensures 1 <= next' < next && Potential(leader, follower, next') < Potential(leader, follower, next)
  {
    if next - 1 > follower.lastLogSlot {
      ShortRejected(leader, follower, next, next');
    } else {
      MismatchRejected(leader, follower, next, next');
    }
  }

  lemma ShortRejected(leader: ContextView, follower: ContextView, next: nat, next': nat)
    requires TopIs(follower.wal, follower.lastLogSlot) && next - 1 > follower.lastLogSlot
    requires next' == RejectedNext(leader, follower, next - 1)
    ensures 1 <= next' < next && Potential(leader, follower, next') < Potential(leader, follower, next)
  {
    ShortDrops(leader, follower, next);
  }

  lemma MismatchRejected(leader: ContextView, follower: ContextView, next: nat, next': nat)
    requires Aligned(leader, follower) && 1 <= next - 1 <= leader.lastLogSlot && next - 1 <= follower.lastLogSlot
    requires !Accepts(leader, follower, next - 1) && next' == RejectedNext(leader, follower, next - 1)
    ensures 1 <= next' < next && Potential(leader, follower, next') < Potential(leader, follower, next)
  {
    var h, f := RejectedNextIs(leader, follower, next - 1);
    MismatchDrops(leader, follower, next, h, f, next');
  }

  // The new position is just past the leader's last entry of the conflicting term, or the follower's first.
  lemma RejectedNextIs(leader: ContextView, follower: ContextView, a: nat) returns (h: Option<nat>, f: nat)
    requires a in follower.wal
    ensures RejectedNext(leader, follower, a) == if h.Some? then h.value + 1 else f
    ensures h.Some? ==> h.value in leader.wal && leader.wal[h.value].term == follower.wal[a].term
    ensures f in follower.wal && follower.wal[f].term == follower.wal[a].term
    ensures forall s :: s in follower.wal && follower.wal[s].term == follower.wal[a].term ==> f <= s
  {
    var term := follower.wal[a].term;
    f := LowestSlotForTerm(follower.wal, term).value;
    h := if term == 0 then None else HighestSlotForTerm(leader.wal, term);
  }

  lemma MismatchDrops(leader: ContextView, follower: ContextView, next: nat, h: Option<nat>,
                      f: nat, next': nat)
    requires Aligned(leader, follower) && 1 <= next - 1 <= leader.lastLogSlot
    requires next - 1 <= follower.lastLogSlot && !Accepts(leader, follower, next - 1)
    requires next' == if h.Some? then h.value + 1 else f
    requires h.Some? ==> h.value in leader.wal && leader.wal[h.value].term == follower.wal[next - 1].term
    requires f in follower.wal && follower.wal[f].term == follower.wal[next - 1].term
    requires forall s :: s in follower.wal && follower.wal[s].term == follower.wal[next - 1].term ==> f <= s
    ensures 1 <= next' < next && Potential(leader, follower, next') < Potential(leader, follower, next)
  {
    if h.Some? {
      SharedTermDrops(leader, follower, next, h.value);
    } else {
      FirstOfTermDrops(leader, follower, next, f);
    }
  }

  // ----- The sequence of probes -----

  // The probe sits just before `next`; or it repeats a rejected anchor, whose answer is already `next`.
  ghost predicate ProbeOrRepeat(leader: ContextView, follower: ContextView, a: nat, next: nat) {
    || a == next - 1
    || (a > next && !Accepts(leader, follower, a) && RejectedNext(leader, follower, a) == next)
  }

  function Repeats(a: nat, next: nat): nat { if a == next - 1 then 0 else 1 }

  // Rejections still possible: two for each anchor, one if the present probe is a repeat.
  function RejectionsLeft(leader: ContextView, follower: ContextView, a: nat, next: nat): nat
    requires next >= 1
  {
    Repeats(a, next) + 2 * Potential(leader, follower, next)
  }

  // The anchor after a rejection: just before the new position, unless that is further back than one slot.
  function NextAnchor(next: nat, next': nat): int { if next' < next - 1 then next - 1 else next' - 1 }

  // From one probe to the next, less is left to reject, and the position moves back or a repeat ends.
  ghost predicate Progresses(leader: ContextView, follower: ContextView, a: nat, next: nat, a': nat, next': nat)
    requires next >= 1
  {
    && 1 <= next' <= next && a' <= leader.lastLogSlot
    && ProbeOrRepeat(leader, follower, a', next')
    && RejectionsLeft(leader, follower, a', next') < RejectionsLeft(leader, follower, a, next)
    && 2 * next' + Repeats(a', next') < 2 * next + Repeats(a, next)
  }

  lemma ProbeRejected(leader: ContextView, follower: ContextView, a: nat, next: nat, next': nat)
    requires Aligned(leader, follower) && a <= leader.lastLogSlot && !Accepts(leader, follower, a)
    requires a == next - 1 && next' == RejectedNext(leader, follower, a)
    ensures NextAnchor(next, next') >= 0 && Progresses(leader, follower, a, next, NextAnchor(next, next'), next')
  {
    RejectionDrops(leader, follower, next, next');
    var left, left' := Potential(leader, follower, next), Potential(leader, follower, next');
    assert RejectionsLeft(leader, follower, NextAnchor(next, next'), next') <= 1 + 2 * left';
    assert RejectionsLeft(leader, follower, a, next) == 2 * left;
  }

  lemma RepeatRejected(leader: ContextView, follower: ContextView, a: nat, next: nat, next': nat)
    requires a <= leader.lastLogSlot && 1 <= next < a && next == next' == RejectedNext(leader, follower, a)
    ensures Progresses(leader, follower, a, next, NextAnchor(next, next'), next')
  {}

  lemma ProbesProgress(leader: ContextView, follower: ContextView, a: nat, next: nat, next': nat)
    requires Aligned(leader, follower) && a <= leader.lastLogSlot && 1 <= next <= leader.lastLogSlot + 1
    requires ProbeOrRepeat(leader, follower, a, next) && !Accepts(leader, follower, a)
    requires next' == RejectedNext(leader, follower, a)
    ensures NextAnchor(next, next') >= 0 && Progresses(leader, follower, a, next, NextAnchor(next, next'), next')
  {
    if a == next - 1 {
      ProbeRejected(leader, follower, a, next, next');
    } else {
      RepeatRejected(leader, follower, a, next, next');
    }
  }

  // Where the leader probes next, once it has adjusted to the hint: the new position, or the old anchor again.
  lemma ReprobePosition(leader: ContextView, p: Progress, hint: ConflictHint, tSend: Time)
    requires TopIs(leader.wal, leader.lastLogSlot) && 1 <= p.pos.nextSlot <= leader.lastLogSlot + 1
    requires 1 <= NextAfter(leader.wal, hint) <= p.pos.nextSlot
    ensures var pos := Reprobe(leader.wal, p, hint).pos;
      && pos.nextSlot == NextAfter(leader.wal, hint)
      && AnchorPresent(leader.wal, pos)
      && Outstanding(leader, AcceptFor(leader, pos, tSend, None))
      && AcceptFor(leader, pos, tSend, None).prevLogSlot
           == NextAnchor(p.pos.nextSlot, pos.nextSlot)
  {}

  // ----- Acceptance -----

  lemma AcceptedEqualsLeader(leader: ContextView, follower: ContextView, logs: map<nat, Log>, request: AcceptRequest)
    requires Comparable(leader, follower, logs) && Outstanding(leader, request)
    requires Accepts(leader, follower, request.prevLogSlot)
    ensures Judge(follower, request).ctx.wal == leader.wal
  {
    AnchorShared(leader.wal, follower.wal, logs, request.prevLogSlot);
    CopyLog(follower.wal, leader.wal, request.prevLogSlot);
    AcceptedWrites(follower, request);
  }

  lemma AcceptedWrites(follower: ContextView, request: AcceptRequest)
    requires AnchorMatches(follower.wal, request)
    ensures Judge(follower, request).ctx.wal
      == AppendAll(TruncateFrom(follower.wal, request.prevLogSlot + 1), request.entries)
  {}

  lemma AnchorShared(l: Log, f: Log, logs: map<nat, Log>, a: nat)
    requires Matched(l, logs) && Matched(f, logs)
    requires a == 0 || (a in f && a in l && f[a].term == l[a].term)
    ensures Same(f, l, a) && WellKeyed(l)
  {
    if a > 0 { MatchedSame(f, l, logs, a); }
  }

  // ----- The loop -----

  // What the loop keeps: a position in range, and a probe from it or a repeat.
  ghost predicate Probing(leader: ContextView, follower: ContextView, p: Progress, request: AcceptRequest) {
    && 1 <= p.pos.nextSlot <= leader.lastLogSlot + 1
    && Outstanding(leader, request)
    && ProbeOrRepeat(leader, follower, request.prevLogSlot, p.pos.nextSlot)
  }

  // One round of the loop, on the leader's side.
  lemma Round(leader: ContextView, follower: ContextView, p: Progress, request: AcceptRequest,
              hint: ConflictHint, tSend: Time)
    requires Aligned(leader, follower) && Probing(leader, follower, p, request)
    requires !Accepts(leader, follower, request.prevLogSlot)
    requires NextAfter(leader.wal, hint) == RejectedNext(leader, follower, request.prevLogSlot)
    ensures var q := Reprobe(leader.wal, p, hint);
      && AnchorPresent(leader.wal, q.pos)
      && var again := AcceptFor(leader, q.pos, tSend, None);
      && Probing(leader, follower, NoteSent(q, again), again)
      && NoteSent(q, again).pos.nextSlot == q.pos.nextSlot
      && RejectionsLeft(leader, follower, again.prevLogSlot, q.pos.nextSlot)
           < RejectionsLeft(leader, follower, request.prevLogSlot, p.pos.nextSlot)
      && 2 * q.pos.nextSlot + Repeats(again.prevLogSlot, q.pos.nextSlot)
           < 2 * p.pos.nextSlot + Repeats(request.prevLogSlot, p.pos.nextSlot)
  {
    ProbesProgress(leader, follower, request.prevLogSlot, p.pos.nextSlot, NextAfter(leader.wal, hint));
    ReprobePosition(leader, p, hint, tSend);
  }

  // The follower's part: judging a probe.
  method AnswerProbe(leader: ContextView, follower: ContextView, ghost logs: map<nat, Log>, request: AcceptRequest)
    returns (after: ContextView, response: AcceptResponse)
    requires Comparable(leader, follower, logs) && Outstanding(leader, request)
    ensures response.memberId == follower.memberId
    ensures response.success <==> Accepts(leader, follower, request.prevLogSlot)
    ensures response.success ==> after.wal == leader.wal
    ensures !response.success ==>
      && after == follower && response.conflictHint.Some?
      && NextAfter(leader.wal, response.conflictHint.value) == RejectedNext(leader, follower, request.prevLogSlot)
  {
    AnswerToProbe(leader, follower, request);
    var answer := Judge(follower, request);
    if answer.response.success { AcceptedEqualsLeader(leader, follower, logs, request); }
    after, response := answer.ctx, answer.response;
  }

  // The leader's part: adjusting the position of follower `j` to a rejection, and probing again.
  method ProbeAgain(leader: ContextView, l: LeaderView, follower: ContextView,
                    request: AcceptRequest, response: AcceptResponse, tSend: Time)
    returns (l': LeaderView, again: AcceptRequest)
    requires response.memberId in l.score && response.conflictHint.Some? && Aligned(leader, follower)
    requires Probing(leader, follower, l.score[response.memberId], request)
    requires !Accepts(leader, follower, request.prevLogSlot)
    requires NextAfter(leader.wal, response.conflictHint.value) == RejectedNext(leader, follower, request.prevLogSlot)
    ensures l'.score.Keys == l.score.Keys
    ensures forall i :: i in l.score && i != response.memberId ==> l'.score[i] == l.score[i]
    ensures Probing(leader, follower, l'.score[response.memberId], again)
    ensures var next, next' := l.score[response.memberId].pos.nextSlot, l'.score[response.memberId].pos.nextSlot;
      && RejectionsLeft(leader, follower, again.prevLogSlot, next')
           < RejectionsLeft(leader, follower, request.prevLogSlot, next)
      && 2 * next' + Repeats(again.prevLogSlot, next') < 2 * next + Repeats(request.prevLogSlot, next)
  {
    Round(leader, follower, l.score[response.memberId], request, response.conflictHint.value, tSend);
    var step := OnConflict(leader, l, response, tSend);
    l', again := step.l, step.requests[response.memberId];
  }

  method FirstProbe(leader: ContextView, l: LeaderView, follower: ContextView, tSend: Time)
    returns (l': LeaderView, request: AcceptRequest)
    requires TopIs(leader.wal, leader.lastLogSlot) && TopIs(follower.wal, follower.lastLogSlot)
    requires follower.memberId in l.score
    requires var pos := l.score[follower.memberId].pos;
      1 <= pos.nextSlot <= leader.lastLogSlot + 1 && pos.sentSlot <= pos.nextSlot
    ensures l'.score.Keys == l.score.Keys
    ensures forall i :: i in l.score && i != follower.memberId ==> l'.score[i] == l.score[i]
    ensures Probing(leader, follower, l'.score[follower.memberId], request)
    ensures RejectionsLeft(leader, follower, request.prevLogSlot, l'.score[follower.memberId].pos.nextSlot)
      <= 2 * (1 + |TermsUpTo(follower.wal, follower.lastLogSlot)|)
  {
    var j := follower.memberId;
    PotentialStart(leader, follower, l.score[j].pos.nextSlot);
    request := AcceptFor(leader, l.score[j].pos, tSend, None);
    l' := l.(score := l.score[j := NoteSent(l.score[j], request)]);
  }

  /** From any position in range whose sent slot is not ahead, the loop ends after at most two rejections for each
      distinct term in the follower's log and two more, and leaves the follower with the leader's log. */
  method Reconcile(leader: ContextView, l0: LeaderView, follower0: ContextView, ghost logs: map<nat, Log>)
    returns (l: LeaderView, follower: ContextView, rejections: nat)
    requires Comparable(leader, follower0, logs) && follower0.memberId in l0.score
    requires var pos := l0.score[follower0.memberId].pos;
      1 <= pos.nextSlot <= leader.lastLogSlot + 1 && pos.sentSlot <= pos.nextSlot
    ensures follower.wal == leader.wal
    ensures rejections <= 2 * (1 + |TermsUpTo(follower0.wal, follower0.lastLogSlot)|)
    ensures l.score.Keys == l0.score.Keys
    ensures forall j :: j in l0.score && j != follower0.memberId ==> l.score[j] == l0.score[j]
  {
    var j := follower0.memberId;
    var tSend: Time := *;
    var request, response;
    ComparableAligned(leader, follower0, logs);
    l, request := FirstProbe(leader, l0, follower0, tSend);
    rejections := 0;
    follower, response := AnswerProbe(leader, follower0, logs, request);
    while !response.success
      invariant j in l.score && l.score.Keys == l0.score.Keys
      invariant forall i :: i in l0.score && i != j ==> l.score[i] == l0.score[i]
      invariant Probing(leader, follower0, l.score[j], request)
      invariant response.success ==> follower.wal == leader.wal
      invariant !response.success ==>
        && follower == follower0 && response.memberId == j && response.conflictHint.Some?
        && !Accepts(leader, follower0, request.prevLogSlot)
        && NextAfter(leader.wal, response.conflictHint.value) == RejectedNext(leader, follower0, request.prevLogSlot)
      invariant rejections + RejectionsLeft(leader, follower0, request.prevLogSlot, l.score[j].pos.nextSlot)
        <= 2 * (1 + |TermsUpTo(follower0.wal, follower0.lastLogSlot)|)
      decreases 2 * l.score[j].pos.nextSlot + Repeats(request.prevLogSlot, l.score[j].pos.nextSlot)
    {
      tSend := *;
      l, request := ProbeAgain(leader, l, follower0, request, response, tSend);
      rejections := rejections + 1;
      follower, response := AnswerProbe(leader, follower0, logs, request);
    }
  }

  lemma PotentialStart(leader: ContextView, follower: ContextView, next: nat)
    requires TopIs(follower.wal, follower.lastLogSlot) && next >= 1
    ensures Potential(leader, follower, next) <= 1 + |TermsUpTo(follower.wal, follower.lastLogSlot)|
  {
    if next <= follower.lastLogSlot + 1 { PotentialBelow(leader, follower, next); }
  }
}
