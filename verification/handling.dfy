/** Which responses a leader can act on: those of followers whose last slot does not exceed its own, over whole runs. */
module ResponseHandling {
  import opened Types
  import opened TrueTime
  import opened Wal
  import opened Views
  import opened FollowerRole
  import opened LeaderRole
  import opened StateMachine
  import opened Group
  import opened Facts
  import opened ElectionSafety
  import opened LogMatching
  import opened ProbeAnchors
  import opened Takeovers

  // ----- Which requests are judged -----

  // The lease still runs, and the member follows the sender, whether or not the term rises; or it gives up its role in
  // the term for the sender, a leader only when it has just found its lease over.
  predicate Judges(m: Member, request: AcceptRequest, roleCheck: TimeInterval, check: TimeInterval) {
    && !LeaseExpired(m.ctx, check)
    && match m.role
       case Following(f) => request.term >= m.ctx.term && f.currentLeaderId == Some(request.leaderId)
       case Leading(_) => request.term == m.ctx.term && LeaseExpired(m.ctx, roleCheck)
       case _ => request.term == m.ctx.term
  }

  /** A request is answered with success or a hint exactly when it is judged, and then by the judgement. Only a leader
      whose lease runs leaves one of its term unanswered; every other answer says no more than the member's term. */
  lemma JudgesExactly(m: Member, request: AcceptRequest, roleCheck: TimeInterval, check: TimeInterval,
                      extend: TimeInterval)
    ensures var response := ProcessAcceptRequest(m, request, roleCheck, check, extend).response;
      && (Judges(m, request, roleCheck, check) <==> response.Some? && Confirms(response.value))
      && (Judges(m, request, roleCheck, check) ==>
            response.value == Judge(m.ctx.(term := request.term), request).response)
      && (response.None? <==> m.role.Leading? && request.term <= m.ctx.term && !LeaseExpired(m.ctx, roleCheck))
      && (!Judges(m, request, roleCheck, check) && response.Some? ==>
            response.value
              == AcceptResponse(m.ctx.memberId, Max(m.ctx.term, request.term), false, 0, None, request.tSend))
  {}

  /** Hearing of a higher term first changes nothing in what a follower judges in that term or above, and leaves every
      other role with nothing to judge. */
  lemma AdoptionKeepsJudging(m: Member, term: nat, request: AcceptRequest, roleCheck: TimeInterval, check: TimeInterval)
    requires m.ctx.term < term <= request.term
    ensures Judges(AdoptTerm(m, term), request, roleCheck, check)
      <==> m.role.Following? && Judges(m, request, roleCheck, check)
  {}

  // ----- What a leader can handle -----

  // Whoever leads where the response goes can handle it.
  ghost predicate Handleable(s: State, ack: Ack) {
    ack.to in s.members && s.members[ack.to].role.Leading? && ack.response.term <= s.members[ack.to].ctx.term ==>
      CanHandle(s.members[ack.to].ctx, s.members[ack.to].role.l, ack.response)
  }

  // Every response of the term can be handled.
  ghost predicate AllHandleable(s: State, term: nat) {
    forall ack :: ack in s.acks && ack.response.term == term ==> Handleable(s, ack)
  }

  // A follower that judges a request of the term without having its anchor has a last slot that the leader reaches, if
  // the leader of the term still leads.
  ghost predicate HonestLastSlot(s: State, e: Event, term: nat) {
    && e.AcceptAsked? && e.i in s.members && Judges(s.members[e.i], e.sent.request, e.roleCheck, e.check)
    && ShortLog(s.members[e.i].ctx.wal, e.sent.request)
    && e.sent.request.term == term && LeadsTerm(s, e.sent.request.leaderId, term) ==>
      s.members[e.i].ctx.lastLogSlot <= s.members[e.sent.request.leaderId].ctx.lastLogSlot
  }

  ghost predicate HandlingInv(s: State) { ElectionInv(s) && LogInv(s) && ProgressInv(s) }

  lemma HandleableIff(s: State, ack: Ack)
    requires HandlingInv(s) && ack in s.acks && LeaderTopped(s, ack.response.term)
    ensures Handleable(s, ack) <==>
      (LeadsTerm(s, ack.to, ack.response.term) ==> HintReached(ack.response, s.logs))
  {
    if LeadsTerm(s, ack.to, ack.response.term) { AnchorsAlwaysPresent(s, ack.to, ack); }
  }

  // In its own term, a leader's last slot is how far the term's log reaches.
  lemma LeaderReaches(s: State, i: Id, slot: nat)
    requires LogInv(s) && i in s.members && s.members[i].role.Leading?
    requires TopIs(s.members[i].ctx.wal, s.members[i].ctx.lastLogSlot)
    ensures Reached(s.logs, s.members[i].ctx.term, slot) <==> slot <= s.members[i].ctx.lastLogSlot
  {
    assert MemberLogOK(s.members[i], s.logs);
    TopOfTopIs(s.members[i].ctx.wal, s.members[i].ctx.lastLogSlot);
  }

  /** It holds in particular when the follower's last slot is the top of its log. */
  lemma ToppedIsHonest(s: State, e: Event)
    requires LogInv(s) && e.AcceptAsked? && AcceptAskedEnabled(s, e.i, e.sent, e.roleCheck, e.check, e.extend)
    requires TopIs(s.members[e.i].ctx.wal, s.members[e.i].ctx.lastLogSlot)
    ensures HonestLastSlot(s, e, e.sent.request.term)
  {
    var leaderId := e.sent.request.leaderId;
    assert SentOK(e.sent, s.logs);
    if LeadsTerm(s, leaderId, e.sent.request.term) && e.sent.request.prevLogSlot > 0 {
      assert MemberLogOK(s.members[leaderId], s.logs);
      assert e.sent.request.prevLogSlot in s.members[leaderId].ctx.wal;
    }
  }

  // ----- Responses already on the network -----

  lemma OldStaysHandleable(s: State, e: Event, s': State, ack: Ack)
    requires HandlingInv(s) && HandlingInv(s') && Enabled(s, e) && s' == Next(s, e) && s'.members.Keys == s.members.Keys
    requires s.wins <= s'.wins && Grows(s.logs, s'.logs) && ack in s.acks && ack in s'.acks && Handleable(s, ack)
    requires LeaderTopped(s, ack.response.term) && LeaderTopped(s', ack.response.term)
    ensures Handleable(s', ack)
  {
    HandleableIff(s, ack);
    HandleableIff(s', ack);
    if LeadsTerm(s', ack.to, ack.response.term) {
      LeaderMoves(s, e, ack.to, s');
      if !LeadsTerm(s, ack.to, ack.response.term) {
        CampaignTermIsNew(s, ack.to, s');
        assert AckSound(ack.response, s.logs);
      }
    }
  }

  // ----- The response given now -----

  lemma NewHandleableIff(s: State, e: Event, r: AcceptOutcomeAt, s': State)
    requires HandlingInv(s) && HandlingInv(s') && e.AcceptAsked?
    requires AcceptAskedEnabled(s, e.i, e.sent, e.roleCheck, e.check, e.extend)
    requires r == ProcessAcceptRequest(s.members[e.i], e.sent.request, e.roleCheck, e.check, e.extend)
    requires s' == AcceptAskedNext(s, e.i, e.sent, r) && s'.members.Keys == s.members.Keys && r.response.Some?
    requires LeaderTopped(s, r.response.value.term) && LeaderTopped(s', r.response.value.term)
    ensures Handleable(s', Ack(e.sent.request.leaderId, r.response.value))
      <==> HonestLastSlot(s, e, r.response.value.term)
  {
    var m, request := s.members[e.i], e.sent.request;
    JudgedTerm(m, request, e.roleCheck, e.check, e.extend, r);
    if Judges(m, request, e.roleCheck, e.check) {
      JudgedHonestIff(s, e);
      AnswerChanges(s, e, r, s');
      JudgedHandleableIff(s, e, r.response.value, s');
    }
  }

  // A judged request is answered in its own term, by the judgement; the answer to any other is disregarded.
  lemma JudgedTerm(m: Member, request: AcceptRequest, roleCheck: TimeInterval, check: TimeInterval,
                   extend: TimeInterval, r: AcceptOutcomeAt)
    requires r == ProcessAcceptRequest(m, request, roleCheck, check, extend)
    ensures Judges(m, request, roleCheck, check) ==>
      && r.response.Some? && r.response.value.term == request.term
      && r.response.value == Judge(m.ctx.(term := request.term), request).response
    ensures !Judges(m, request, roleCheck, check) && r.response.Some? ==> !Confirms(r.response.value)
  {
    JudgesExactly(m, request, roleCheck, check, extend);
  }

  lemma AnswerChanges(s: State, e: Event, r: AcceptOutcomeAt, s': State)
    requires e.AcceptAsked? && s' == AcceptAskedNext(s, e.i, e.sent, r) && r.response.Some?
    ensures s'.logs == s.logs && s'.acks == s.acks + {Ack(e.sent.request.leaderId, r.response.value)}
    ensures forall j :: j in s.members && j != e.i ==> j in s'.members && s'.members[j] == s.members[j]
  {}

  // The response to a judged request can be handled exactly when its hint is in reach of the leader, if it still leads.
  lemma JudgedHandleableIff(s: State, e: Event, response: AcceptResponse, s': State)
    requires HandlingInv(s') && e.AcceptAsked? && LeaderTopped(s', response.term)
    requires Ack(e.sent.request.leaderId, response) in s'.acks && response.term == e.sent.request.term
    requires s'.logs == s.logs && e.sent.request.leaderId != e.i
    requires e.sent.request.leaderId in s.members <==> e.sent.request.leaderId in s'.members
    requires forall j :: j in s.members && j != e.i ==> j in s'.members && s'.members[j] == s.members[j]
    ensures Handleable(s', Ack(e.sent.request.leaderId, response)) <==>
      (LeadsTerm(s, e.sent.request.leaderId, e.sent.request.term) ==> HintReached(response, s.logs))
  {
    HandleableIff(s', Ack(e.sent.request.leaderId, response));
  }

  // The hint of a judgement stays within the log of the leader, who is another member, exactly when it is honest.
  lemma JudgedHonestIff(s: State, e: Event)
    requires HandlingInv(s) && e.AcceptAsked? && e.i in s.members && e.sent in s.sents && e.sent.to == e.i
    requires Judges(s.members[e.i], e.sent.request, e.roleCheck, e.check) && LeaderTopped(s, e.sent.request.term)
    ensures e.sent.request.leaderId != e.i
    ensures HonestLastSlot(s, e, e.sent.request.term) <==>
      (LeadsTerm(s, e.sent.request.leaderId, e.sent.request.term) ==>
         HintReached(Judge(s.members[e.i].ctx.(term := e.sent.request.term), e.sent.request).response, s.logs))
  {
    var request := e.sent.request;
    JudgedHintIff(s, e.i, e.sent);
    if LeadsTerm(s, request.leaderId, request.term) {
      LeaderReaches(s, request.leaderId, s.members[e.i].ctx.lastLogSlot);
    }
  }

  lemma JudgedHintIff(s: State, i: Id, sent: Sent)
    requires LogInv(s) && i in s.members && sent in s.sents
    ensures HintReached(Judge(s.members[i].ctx.(term := sent.request.term), sent.request).response, s.logs) <==>
      (ShortLog(s.members[i].ctx.wal, sent.request) ==>
         Reached(s.logs, sent.request.term, s.members[i].ctx.lastLogSlot))
  {
    assert MemberLogOK(s.members[i], s.logs) && SentOK(sent, s.logs);
    SentMatched(s, sent);
    JudgeBoundedIff(s.members[i].ctx.(term := sent.request.term), sent, s.logs);
  }

  // ----- Every event -----

  // Only an answer to an accept request adds a response.
  lemma AcksAre(s: State, e: Event, s': State)
    requires Enabled(s, e) && s' == Next(s, e) && !e.AcceptAsked?
    ensures s'.acks == s.acks
  {
    if e.AcceptReply? { ReplyAddsNone(s, e, s'); }
  }

  lemma ReplyAddsNone(s: State, e: Event, s': State)
    requires Enabled(s, e) && s' == Next(s, e) && e.AcceptReply?
    ensures s'.acks == s.acks
  {}

  lemma AllStayHandleable(s: State, e: Event, s': State, term: nat)
    requires HandlingInv(s) && HandlingInv(s') && Enabled(s, e) && s' == Next(s, e) && AllHandleable(s, term)
    requires s'.members.Keys == s.members.Keys && s.wins <= s'.wins && Grows(s.logs, s'.logs) && s.acks <= s'.acks
    requires LeaderTopped(s, term) && LeaderTopped(s', term)
    ensures forall ack :: ack in s.acks && ack.response.term == term ==> Handleable(s', ack)
  {
    forall ack | ack in s.acks && ack.response.term == term ensures Handleable(s', ack) {
      OldStaysHandleable(s, e, s', ack);
    }
  }

  lemma AnswerHandleableIff(s: State, e: Event, r: AcceptOutcomeAt, s': State, term: nat)
    requires HandlingInv(s) && HandlingInv(s') && e.AcceptAsked?
    requires AcceptAskedEnabled(s, e.i, e.sent, e.roleCheck, e.check, e.extend)
    requires r == ProcessAcceptRequest(s.members[e.i], e.sent.request, e.roleCheck, e.check, e.extend)
    requires s' == AcceptAskedNext(s, e.i, e.sent, r) && s'.members.Keys == s.members.Keys
    requires LeaderTopped(s, term) && LeaderTopped(s', term)
    requires forall ack :: ack in s.acks && ack.response.term == term ==> Handleable(s', ack)
    ensures AllHandleable(s', term) <==> HonestLastSlot(s, e, term)
  {
    if r.response.Some? {
      AnswerChanges(s, e, r, s');
      OneMoreHandleable(s, s', Ack(e.sent.request.leaderId, r.response.value), term);
    }
    if r.response.Some? && r.response.value.term == term {
      NewHandleableIff(s, e, r, s');
    } else {
      OtherTermIsHonest(s, e, r, term);
    }
  }

  lemma OneMoreHandleable(s: State, s': State, ack: Ack, term: nat)
    requires s'.acks == s.acks + {ack}
    requires forall a :: a in s.acks && a.response.term == term ==> Handleable(s', a)
    ensures AllHandleable(s', term) <==> (ack.response.term == term ==> Handleable(s', ack))
  {}

  lemma OtherTermIsHonest(s: State, e: Event, r: AcceptOutcomeAt, term: nat)
    requires e.AcceptAsked? && e.i in s.members && (r.response.Some? ==> r.response.value.term != term)
    requires r == ProcessAcceptRequest(s.members[e.i], e.sent.request, e.roleCheck, e.check, e.extend)
    ensures HonestLastSlot(s, e, term)
  {
    JudgedTerm(s.members[e.i], e.sent.request, e.roleCheck, e.check, e.extend, r);
  }

  /** An event leaves every response of a term, whose leader's log has no gap, one that can be handled exactly when the
      follower that answers in it is honest about its last slot. */
  lemma AllHandleableIff(s: State, e: Event, s': State, term: nat)
    requires HandlingInv(s) && HandlingInv(s') && Enabled(s, e) && s' == Next(s, e) && AllHandleable(s, term)
    requires s'.members.Keys == s.members.Keys && s.wins <= s'.wins && Grows(s.logs, s'.logs)
    requires LeaderTopped(s, term) && LeaderTopped(s', term)
    ensures AllHandleable(s', term) <==> HonestLastSlot(s, e, term)
  {
    if e.AcceptAsked? {
      AllStayHandleable(s, e, s', term);
      AnswerHandleableIff(s, e,
        ProcessAcceptRequest(s.members[e.i], e.sent.request, e.roleCheck, e.check, e.extend), s', term);
    } else {
      AcksAre(s, e, s');
      AllStayHandleable(s, e, s', term);
    }
  }
}
