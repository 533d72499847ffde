/** The early-to-final flow: the first SDP of the called party becomes the caller's answer, and the
    caller is answered at most once. */
module EarlyAnswers {
  import opened SessionState
  import opened SipTypes
  import opened Evolution
  import opened Session
  import opened SessionKeeps
  import opened Stack
  import opened CallKeeps
  import opened Offers
  import opened Runs

  /** A response of the called party that decides the caller's answer. */
  predicate Decisive(r: Reply) {
    (Is18x(r.code) && r.body.WithSDP?) || IsPositive(r.code)
  }

  /** The first response that decides it. */
  function FirstDecisive(rs: seq<Reply>): (r: Option<Reply>)
    ensures r.None? <==> forall k :: 0 <= k < |rs| ==> !Decisive(rs[k])
    ensures r.Some? ==> Decisive(r.value) && r.value in rs
  {
    if rs == [] then None
    else if Decisive(rs[0]) then Some(rs[0])
    else
      assert forall k :: 1 <= k < |rs| ==> rs[k] == rs[1..][k - 1];
      FirstDecisive(rs[1..])
  }

  lemma {:induction false} FirstStaysFirst(a: seq<Reply>, b: seq<Reply>)
    requires a <= b && FirstDecisive(a).Some?
    ensures FirstDecisive(b) == FirstDecisive(a)
  {
    if !Decisive(a[0]) {
      FirstStaysFirst(a[1..], b[1..]);
    }
  }

  lemma {:induction false} FirstIsLast(a: seq<Reply>, r: Reply)
    requires FirstDecisive(a).None?
    ensures FirstDecisive(a + [r]) == if Decisive(r) then Some(r) else None
  {
    if a == [] {
      assert [r][1..] == [];
    } else {
      assert (a + [r])[1..] == a[1..] + [r];
      assert forall k :: 0 <= k < |a| - 1 ==> a[1..][k] == a[k + 1];
      FirstIsLast(a[1..], r);
    }
  }

  // ----- what holds of the two INVITEs

  predicate AnsweredAt(l: Leg, k: nat) {
    |l.txs| > 0 && k < |l.txs[0].responses| && IsPositive(l.txs[0].responses[k].code)
  }

  ghost predicate NeverAnswered(l: Leg) {
    forall k: nat :: !AnsweredAt(l, k)
  }

  ghost predicate AnsweredOnce(l: Leg) {
    forall k: nat, k': nat :: AnsweredAt(l, k) && AnsweredAt(l, k') ==> k == k'
  }

  /** Every 2xx sent to the caller carries the body of the response that decided it. */
  ghost predicate RightAnswer(c: Call) {
    forall k: nat :: AnsweredAt(c.ingress, k) ==>
      && c.egress.state != NotSet && |c.egress.txs| > 0
      && FirstDecisive(c.egress.txs[0].responses).Some?
      && c.ingress.txs[0].responses[k].body == FirstDecisive(c.egress.txs[0].responses).value.body
  }

  /** The leg still waits for the first SDP of the called party. */
  predicate Undecided(e: Leg) {
    && e.state == BeingEstablished && |e.txs| > 0 && !e.txs[0].isFinalized && !e.received18xSDP
  }

  /** The leg turns early answers into final ones exactly until its INVITE has a final response;
      until it decides, the caller has no answer. */
  ghost predicate Deciding(c: Call) {
    && (c.egress.state == BeingEstablished && |c.egress.txs| > 0 ==>
          c.egress.transformEarlyToFinal == !c.egress.txs[0].isFinalized)
    && (Undecided(c.egress) ==> NeverAnswered(c.ingress) && FirstDecisive(c.egress.txs[0].responses).None?)
  }

  ghost predicate EarlyInv(c: Call) {
    c.flow == EarlyToFinal ==> Deciding(c) && RightAnswer(c) && AnsweredOnce(c.ingress)
  }

  // ----- steps that answer nobody

  lemma NoNewAnswer(a: Leg, b: Leg, k: nat)
    requires a.dir == INBOUND && |a.txs| > 0 && Grows(a, b) && Unanswered(a, b) && AnsweredAt(b, k)
    ensures AnsweredAt(a, k) && a.txs[0].responses[k] == b.txs[0].responses[k]
  {
    assert TxGrows(a.txs[0], b.txs[0]);
  }

  lemma DecentKeepsEarly(a: Call, b: Call)
    requires SoundCall(a) && CallDecent(a, b) && EarlyInv(a)
    ensures EarlyInv(b)
  {
    if a.flow == EarlyToFinal {
      forall k: nat | AnsweredAt(b.ingress, k)
        ensures AnsweredAt(a.ingress, k) && a.ingress.txs[0].responses[k] == b.ingress.txs[0].responses[k]
      {
        NoNewAnswer(a.ingress, b.ingress, k);
      }
    }
  }

  /** A change that touches neither INVITE and does not restart the egress leg. */
  lemma SameInvitesKeepEarly(a: Call, b: Call)
    requires EarlyInv(a) && b.flow == a.flow && b.egress == a.egress && b.ingress.txs == a.ingress.txs
    ensures EarlyInv(b)
  {
    if a.flow == EarlyToFinal {
      forall k: nat | AnsweredAt(b.ingress, k)
        ensures AnsweredAt(a.ingress, k)
      {
      }
    }
  }

  /** More responses on the egress INVITE do not change which one was first. */
  lemma MoreResponses(a: Call, b: Call)
    requires RightAnswer(a) && b.ingress == a.ingress && b.egress.state != NotSet
    requires |a.egress.txs| > 0 && |b.egress.txs| > 0 && a.egress.txs[0].responses <= b.egress.txs[0].responses
    ensures RightAnswer(b)
  {
    forall k: nat | AnsweredAt(b.ingress, k)
      ensures FirstDecisive(b.egress.txs[0].responses) == FirstDecisive(a.egress.txs[0].responses)
    {
      assert AnsweredAt(a.ingress, k);
      FirstStaysFirst(a.egress.txs[0].responses, b.egress.txs[0].responses);
    }
  }

  // ----- the ACK of the caller

  lemma ConfirmKeepsEarly(c: Call)
    requires SoundCall(c) && EarlyInv(c)
    ensures EarlyInv(PropagateACK(Finish(c, Ingress), Ingress))
  {
    var c1 := Finish(c, Ingress);
    FinalizeKeeps(c.ingress);
    SameInvitesKeepEarly(c, c1);
    PropagateACKCalm(c1, Ingress);
    DecentKeepsEarly(c1, PropagateACK(c1, Ingress));
  }

  lemma HandledACKKeepsEarly(c: Call, s: Side, i: nat, q: Request, w: World)
    requires SoundCall(c) && EarlyInv(c) && Alive(c, s) && Received(c, s, i, q) && q.kind == ACK
    ensures EarlyInv(HandleRequest(c, s, i, q, w))
  {
    if Confirms(c, s, i, q) {
      assert s == Ingress;
      ConfirmKeepsEarly(c);
    } else {
      HandleRequestKeeps(c, s, i, q, w);
      DecentKeepsEarly(c, HandleRequest(c, s, i, q, w));
    }
  }

  lemma ACKKeepsEarly(c: Call, s: Side, q: Request, w: World)
    requires SoundCall(c) && EarlyInv(c) && Alive(c, s) && q.kind == ACK
    ensures EarlyInv(TakeRequest(c, s, q, w))
  {
    var (l, t) := ReceiveACK(At(c, s), q);
    var c1 := Put(c, s, l);
    ReceiveACKCalm(At(c, s), q);
    PutCalm(c, s, l);
    DecentKeepsEarly(c, c1);
    if t.Some? {
      HandledACKKeepsEarly(c1, s, t.value, q, w);
    }
  }

  // ----- responses to the egress INVITE

  /** The caller, without an answer so far, gets one that the called party's response r decided. */
  lemma FirstAnswer(c: Call, code: Status, r: Reply, w: World)
    requires SoundCall(c) && c.egress.state != NotSet && NeverAnswered(c.ingress)
    requires FirstDecisive(c.egress.txs[0].responses) == Some(r) && IsPositive(code)
    ensures var d := SendReply(c, Ingress, None, code, r.body, w); RightAnswer(d) && AnsweredOnce(d.ingress)
  {
    var d := SendReply(c, Ingress, None, code, r.body, w);
    CallerAnswered(c, code, r.body, w);
    var rs := c.ingress.txs[0].responses;
    forall k: nat | AnsweredAt(d.ingress, k)
      ensures k == |rs| && d.ingress.txs[0].responses[k].body == r.body
    {
      assert AnsweredAt(c.ingress, k) || k == |rs|;
    }
  }

  /** The first 18x with SDP of the waiting egress leg: the caller is sent a 200 with its body, and no
      later one is. */
  lemma SDPBecomesAnswer(c: Call, r: Response, w: World)
    requires SoundCall(c) && c.flow == EarlyToFinal && Deciding(c) && Undecided(c.egress)
    requires Is18x(r.code) && r.body.WithSDP?
    ensures var d := HandleResponse(Noted(c, Egress, 0, r), Egress, 0, r, w);
            && EarlyInv(d)
            && d.ingress == CallerSent(c.ingress, Reply(200, r.body)) && d.egress.received18xSDP
  {
    var c1 := Noted(c, Egress, 0, r);
    var c2 := Put(c1, Egress, c1.egress.(received18xSDP := true));
    RecordQuiet(c, Egress, 0, r);
    assert Sound(c2.egress);
    FirstIsLast(c.egress.txs[0].responses, Reply(r.code, r.body));
    FirstAnswer(c2, 200, Reply(r.code, r.body), w);
    CallerAnswered(c2, 200, r.body, w);
  }

  /** A 2xx without an early answer before it is relayed as it is. */
  lemma FinalBecomesAnswer(c: Call, r: Response, w: World)
    requires SoundCall(c) && c.flow == EarlyToFinal && Deciding(c) && Undecided(c.egress) && IsPositive(r.code)
    ensures var d := HandleResponse(Noted(c, Egress, 0, r), Egress, 0, r, w);
            && EarlyInv(d)
            && d.ingress == CallerSent(c.ingress, Reply(r.code, r.body)) && !d.egress.transformEarlyToFinal
  {
    var c1 := Noted(c, Egress, 0, r);
    var c2 := Put(c1, Egress, c1.egress.(transformEarlyToFinal := false));
    RecordQuiet(c, Egress, 0, r);
    assert Sound(c2.egress);
    FirstIsLast(c.egress.txs[0].responses, Reply(r.code, r.body));
    FirstAnswer(c2, r.code, Reply(r.code, r.body), w);
    CallerAnswered(c2, r.code, r.body, w);
  }

  /** A response that leaves the call undecided as it is, once recorded. */
  lemma IndecisiveNoted(c: Call, r: Response)
    requires SoundCall(c) && c.flow == EarlyToFinal && EarlyInv(c) && c.egress.state != NotSet
    requires c.egress.state == BeingEstablished && !c.egress.txs[0].isFinalized ==>
               r.code < 200 && (c.egress.received18xSDP || !r.body.WithSDP? || !Is18x(r.code))
    ensures EarlyInv(Noted(c, Egress, 0, r))
  {
    var c1 := Noted(c, Egress, 0, r);
    if Undecided(c.egress) {
      FirstIsLast(c.egress.txs[0].responses, Reply(r.code, r.body));
    }
    MoreResponses(c, c1);
  }

  /** A failure of the waiting egress leg ends its setup and answers nobody. */
  lemma FailureEndsSetup(c: Call, r: Response, w: World)
    requires SoundCall(c) && c.egress.state == BeingEstablished && IsNegative(r.code)
    ensures HandleResponse(c, Egress, 0, r, w).egress.state in {Redirected, Rejected}
  {
    hide InviteFailed;
    if r.code > 399 {
      RefusalEndsSetup(c, r, w);
    }
  }

  lemma RefusalEndsSetup(c: Call, r: Response, w: World)
    requires c.egress.dir == OUTBOUND
    ensures InviteFailed(c, Egress, r, w).egress.state == Rejected
  {
    var c1 := Put(c, Egress, Refused(c.egress));
    assert c1.egress.state == Rejected;
    assert FailCaller(c1, Egress, r, w).egress == c1.egress;
    assert Reroute(c1, Ingress, r.code, w).egress == c1.egress;
  }

  lemma FailureKeepsEarly(c: Call, r: Response, w: World)
    requires SoundCall(c) && c.flow == EarlyToFinal && EarlyInv(c)
             && c.egress.state == BeingEstablished && IsNegative(r.code)
    ensures EarlyInv(HandleResponse(Noted(c, Egress, 0, r), Egress, 0, r, w))
  {
    var c1 := Noted(c, Egress, 0, r);
    var d := HandleResponse(c1, Egress, 0, r, w);
    RecordQuiet(c, Egress, 0, r);
    MoreResponses(c, c1);
    HandleResponseKeeps(c1, Egress, 0, r, w);
    FailureEndsSetup(c1, r, w);
    forall k: nat | AnsweredAt(d.ingress, k)
      ensures AnsweredAt(c1.ingress, k) && c1.ingress.txs[0].responses[k] == d.ingress.txs[0].responses[k]
    {
      NoNewAnswer(c1.ingress, d.ingress, k);
    }
    FirstStays(c1, d);
  }

  lemma FirstStays(a: Call, b: Call)
    requires SoundCall(a) && CallDecent(a, b) && RightAnswer(a) && AnsweredOnce(a.ingress)
    ensures RightAnswer(b) && AnsweredOnce(b.ingress)
  {
    forall k: nat | AnsweredAt(b.ingress, k)
      ensures AnsweredAt(a.ingress, k) && a.ingress.txs[0].responses[k] == b.ingress.txs[0].responses[k]
    {
      NoNewAnswer(a.ingress, b.ingress, k);
    }
  }

  /** A 2xx after an early answer: the caller is sent nothing, the called party is sent the ACK of its
      INVITE, and its leg is established. */
  lemma ConfirmedEarly(c: Call, r: Response, w: World)
    requires SoundCall(c) && c.flow == EarlyToFinal && EarlyInv(c) && IsPositive(r.code)
    requires c.egress.state == BeingEstablished && c.egress.transformEarlyToFinal && c.egress.received18xSDP
    ensures var d := HandleResponse(Noted(c, Egress, 0, r), Egress, 0, r, w);
            && EarlyInv(d) && d.ingress == c.ingress
            && d.egress.state == Established && !d.egress.transformEarlyToFinal
            && (!c.egress.txs[0].isACKed ==>
                  d.egress.sent == c.egress.sent + [Sent(ACK, c.egress.txs[0].cseq, INVITE)] && d.egress.txs[0].isACKed)
  {
    var c1 := Noted(c, Egress, 0, r);
    var d := HandleResponse(c1, Egress, 0, r, w);
    RecordQuiet(c, Egress, 0, r);
    ConfirmEarlyKeeps(c1.egress);
    assert d == Put(c1, Egress, ConfirmEarly(c1.egress));
    assert TxGrows(c.egress.txs[0], c1.egress.txs[0]) && TxGrows(c1.egress.txs[0], d.egress.txs[0]);
    MoreResponses(c, d);
  }

  /** A 2xx for the egress INVITE although it already had its final response. */
  predicate SecondFinal(c: Call, e: Event) {
    e.ResponseIn? && IsPositive(e.r.code) &&
    var m := Matched(c, e.s, e.r);
    m.Some? && At(c, e.s).txs[m.value].kind == INVITE && At(c, e.s).txs[m.value].isFinalized
  }

  lemma ResponseKeepsEarly(c: Call, r: Response, w: World)
    requires SoundCall(c) && c.flow == EarlyToFinal && EarlyInv(c) && Matched(c, Egress, r) == Some(0)
    requires c.egress.state != NotSet && !(IsPositive(r.code) && c.egress.txs[0].isFinalized)
    ensures EarlyInv(HandleResponse(Noted(c, Egress, 0, r), Egress, 0, r, w))
  {
    var c1 := Noted(c, Egress, 0, r);
    RecordQuiet(c, Egress, 0, r);
    NotedAnswers(c, Egress, 0, r);
    if c.egress.state == BeingEstablished && IsNegative(r.code) {
      FailureKeepsEarly(c, r, w);
    } else if AnswersCaller(c, Egress, 0, r) {
      if !c.egress.received18xSDP {
        SDPBecomesAnswerOrFinal(c, r, w);
      } else if IsPositive(r.code) {
        ConfirmedEarly(c, r, w);
      } else {
        IndecisiveNoted(c, r);
      }
    } else {
      IndecisiveNoted(c, r);
      HandleResponseKeeps(c1, Egress, 0, r, w);
      DecentKeepsEarly(c1, HandleResponse(c1, Egress, 0, r, w));
    }
  }

  lemma SDPBecomesAnswerOrFinal(c: Call, r: Response, w: World)
    requires SoundCall(c) && c.flow == EarlyToFinal && EarlyInv(c) && Undecided(c.egress)
    requires AnswersCaller(c, Egress, 0, r)
    ensures EarlyInv(HandleResponse(Noted(c, Egress, 0, r), Egress, 0, r, w))
  {
    if IsPositive(r.code) {
      FinalBecomesAnswer(c, r, w);
    } else {
      SDPBecomesAnswer(c, r, w);
    }
  }

  // ----- every step, every run

  lemma StepKeepsEarly(c: Call, e: Event)
    requires LinkInv(c) && EarlyInv(c) && !SecondFinal(c, e)
    ensures EarlyInv(Step(c, e))
  {
    hide TakeRequest;
    StepKeeps(c, e);
    LinksMate(c);
    if c.flow != EarlyToFinal {
    } else if e.ResponseIn? {
      OtherResponsesKeepEarly(c, e);
    } else if MayAnswer(c, e) {
      if e.RequestIn? && !At(c, e.s).disposed && !IsDuplicateRequest(At(c, e.s), e.q) {
        ACKKeepsEarly(c, e.s, e.q, e.w);
      }
    } else {
      DecentKeepsEarly(c, Step(c, e));
    }
  }

  lemma OtherResponsesKeepEarly(c: Call, e: Event)
    requires LinkInv(c) && EarlyInv(c) && !SecondFinal(c, e) && e.ResponseIn? && c.flow == EarlyToFinal
    ensures EarlyInv(Step(c, e))
  {
    var m := Matched(c, e.s, e.r);
    OnResponseUnfolds(c, e.s, e.r, e.w);
    if m.Some? {
      if At(c, e.s).txs[m.value].kind == INVITE {
        InviteSentByEgress(c, e.s, m.value);
        ResponseKeepsEarly(c, e.r, e.w);
      } else {
        StepKeeps(c, e);
        LinksMate(c);
        RecordQuiet(c, e.s, m.value, e.r);
        DecentKeepsEarly(c, Noted(c, e.s, m.value, e.r));
        DecentKeepsEarly(Noted(c, e.s, m.value, e.r), Step(c, e));
      }
    }
  }

  /** The called party of the run gives its INVITE one final answer. */
  ghost predicate OneFinalAnswer(c: Call, es: seq<Event>) {
    forall k :: 0 <= k < |es| ==> !SecondFinal(Run(c, es[..k]), es[k])
  }

  lemma {:induction false} RunKeepsEarly(c: Call, es: seq<Event>)
    requires LinkInv(c) && EarlyInv(c) && OneFinalAnswer(c, es)
    ensures LinkInv(Run(c, es)) && EarlyInv(Run(c, es)) && Run(c, es).flow == c.flow
    decreases |es|
  {
    if es != [] {
      var before := es[..|es| - 1];
      forall k | 0 <= k < |before|
        ensures !SecondFinal(Run(c, before[..k]), before[k])
      {
        assert before[..k] == es[..k];
        assert !SecondFinal(Run(c, es[..k]), es[k]);
      }
      RunKeepsEarly(c, before);
      assert !SecondFinal(Run(c, es[..|es| - 1]), es[|es| - 1]);
      StepKeepsOffers(Run(c, before), es[|es| - 1]);
      StepKeepsEarly(Run(c, before), es[|es| - 1]);
      StepKeeps(Run(c, before), es[|es| - 1]);
    }
  }

  lemma FreshEarly(c: Call)
    requires Fresh(c)
    ensures EarlyInv(c)
  {
  }

  /** For any number and order of 18x with or without SDP, any final response and anything else in
      between: the caller is sent at most one 2xx, and it carries the body of the called party's
      first 18x with SDP or 2xx. */
  lemma FirstSDPAnswersOnce(v: FirstInvite, m: Media, w: World,
                            noTimers: bool, steersMedia: bool, rep: Repeats, es: seq<Event>)
    requires OneFinalAnswer(NewCall(v, Record(EarlyToFinal, noTimers, steersMedia, rep), m, w), es)
    ensures var c := After(v, Record(EarlyToFinal, noTimers, steersMedia, rep), m, w, es);
            AnsweredOnce(c.ingress) && RightAnswer(c)
  {
    var t := Record(EarlyToFinal, noTimers, steersMedia, rep);
    NewCallFresh(v, t, m, w);
    FreshOffers(NewCall(v, t, m, w));
    FreshEarly(NewCall(v, t, m, w));
    RunKeepsEarly(NewCall(v, t, m, w), es);
  }

  // ----- where it fails

  /** A second 2xx finds the leg no longer transforming: it is relayed again. */
  lemma RelayedAgain(c: Call, e: Event)
    requires SoundCall(c) && EarlyInv(c) && c.flow == EarlyToFinal
             && SecondFinal(c, e) && c.egress.state == BeingEstablished
    ensures Step(c, e).ingress == if c.ingress.txs[0].isACKed then c.ingress
                                  else RespondTo(c.ingress, 0, Reply(e.r.code, e.r.body))
  {
    var i := Matched(c, e.s, e.r).value;
    InviteSentByEgress(c, e.s, i);
    OnResponseUnfolds(c, e.s, e.r, e.w);
    var c1 := Noted(c, Egress, 0, e.r);
    assert HandleResponse(c1, Egress, 0, e.r, e.w) == RelayAnswer(c1, Egress, e.r, e.w);
  }

  /** Exactly when a step answers the caller twice: a second 2xx of the called party arrives after the
      first was relayed and before the caller's ACK. */
  lemma AnsweredOnceUnlessAgain(c: Call, e: Event)
    requires LinkInv(c) && EarlyInv(c) && c.flow == EarlyToFinal
    ensures AnsweredOnce(Step(c, e).ingress) <==>
            !(SecondFinal(c, e) && c.egress.state == BeingEstablished
              && !c.ingress.txs[0].isACKed && !NeverAnswered(c.ingress))
  {
    if !SecondFinal(c, e) {
      StepKeepsEarly(c, e);
      StepKeeps(c, e);
    } else if c.egress.state == BeingEstablished {
      var d := Step(c, e);
      var n := |c.ingress.txs[0].responses|;
      RelayedAgain(c, e);
      assert c.ingress.txs[0].isACKed || AnsweredAt(d.ingress, n);
      assert forall k: nat :: k < n ==> AnsweredAt(d.ingress, k) == AnsweredAt(c.ingress, k);
    } else {
      LateSecondAnswer(c, e);
    }
  }

  lemma LateSecondAnswer(c: Call, e: Event)
    requires LinkInv(c) && EarlyInv(c) && c.flow == EarlyToFinal
             && SecondFinal(c, e) && c.egress.state != BeingEstablished
    ensures AnsweredOnce(Step(c, e).ingress)
  {
    var i := Matched(c, e.s, e.r).value;
    var d := Step(c, e);
    InviteSentByEgress(c, e.s, i);
    StepKeeps(c, e);
    LinksMate(c);
    forall k: nat | AnsweredAt(d.ingress, k)
      ensures AnsweredAt(c.ingress, k)
    {
      NoNewAnswer(c.ingress, d.ingress, k);
    }
  }
}
