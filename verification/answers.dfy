/** Who may answer the caller. In the transparent flows, only the called party: an established
    caller has an answered peer, and is answered with nothing but the peer's own answer. */
module Answers {
  import opened SessionState
  import opened SipTypes
  import opened Evolution
  import opened Session
  import opened SessionKeeps
  import opened Stack
  import opened CallKeeps
  import opened Offers
  import opened Runs

  predicate Relaying(c: Call) { c.flow == Plain || c.flow == Transparent }

  /** The called party answered: the egress INVITE has recorded a 2xx. */
  predicate PeerAnswered(c: Call) {
    c.egress.state != NotSet && |c.egress.txs| > 0 && c.egress.txs[0].AnyPositive()
  }

  /** Every 2xx sent to the caller is one the called party sent, with its body. */
  predicate OnlyRelayed(c: Call) {
    |c.ingress.txs| > 0 &&
    forall k :: 0 <= k < |c.ingress.txs[0].responses| && IsPositive(c.ingress.txs[0].responses[k].code) ==>
      c.egress.state != NotSet && |c.egress.txs| > 0 && c.ingress.txs[0].responses[k] in c.egress.txs[0].responses
  }

  predicate AnswerInv(c: Call) {
    Relaying(c) ==>
      && (Phase(c.ingress.state) <= 2 ==> c.ingress.linked && c.egress.state != NotSet)
      && (c.ingress.state == BeingEstablished && c.ingress.txs != [] && c.ingress.txs[0].isFinalized ==>
            PeerAnswered(c))
      && (c.ingress.state == Established ==> PeerAnswered(c) && Phase(c.egress.state) >= 2)
      && OnlyRelayed(c)
  }

  lemma AnsweredStays(a: Call, b: Call)
    requires SoundCall(a) && SoundCall(b) && CallGrows(a, b) && PeerAnswered(a)
    ensures PeerAnswered(b)
  {
    assert TxGrows(a.egress.txs[0], b.egress.txs[0]);
    var k :| 0 <= k < |a.egress.txs[0].responses| && IsPositive(a.egress.txs[0].responses[k].code);
    assert b.egress.txs[0].responses[k] == a.egress.txs[0].responses[k];
  }

  lemma RelayedStays(a: Call, b: Call)
    requires SoundCall(a) && SoundCall(b) && CallGrows(a, b) && Unanswered(a.ingress, b.ingress) && OnlyRelayed(a)
    ensures OnlyRelayed(b)
  {
    var ra, rb := a.ingress.txs[0].responses, b.ingress.txs[0].responses;
    assert TxGrows(a.ingress.txs[0], b.ingress.txs[0]);
    forall k | 0 <= k < |rb| && IsPositive(rb[k].code)
      ensures b.egress.state != NotSet && |b.egress.txs| > 0 && rb[k] in b.egress.txs[0].responses
    {
      assert rb[k] == ra[k];
      assert TxGrows(a.egress.txs[0], b.egress.txs[0]);
    }
  }

  /** A step in which the caller is not answered keeps all of it. */
  lemma UnansweredKeeps(a: Call, b: Call)
    requires SoundCall(a) && SoundCall(b) && CallGrows(a, b)
    requires b.ingress.state == BeingEstablished ==> a.ingress.state == BeingEstablished
    requires Unanswered(a.ingress, b.ingress) && AnswerInv(a)
    ensures AnswerInv(b)
  {
    if Relaying(a) {
      RelayedStays(a, b);
      if PeerAnswered(a) {
        AnsweredStays(a, b);
      }
    }
  }

  // ----- the ACK of the caller

  /** The ACK of the answered caller: its leg is established, the called party's leg is finalized and is
      sent the ACK of its own INVITE. */
  predicate Confirmation(c: Call, d: Call)
    requires |c.egress.txs| > 0
  {
    && d.ingress == Finalize(c.ingress)
    && d.egress.state == FinalizeMe(c.egress.state)
    && (!c.egress.txs[0].isACKed ==>
          |d.egress.txs| > 0 && d.egress.txs[0].isACKed
          && d.egress.sent == c.egress.sent + [Sent(ACK, c.egress.txs[0].cseq, INVITE)])
  }

  lemma ConfirmedSends(c: Call)
    requires SoundCall(c) && c.egress.state != NotSet && c.ingress.state == BeingEstablished && c.ingress.linked
    requires !c.egress.transformEarlyToFinal
    ensures Confirmation(c, PropagateACK(Finish(c, Ingress), Ingress))
    ensures PropagateACK(Finish(c, Ingress), Ingress) == Ack(Finish(Finish(c, Ingress), Egress), Egress, None)
  {
  }

  lemma ConfirmedKeeps(c: Call)
    requires SoundCall(c) && FlowKept(c) && AnswerInv(c) && Relaying(c)
    requires c.ingress.state == BeingEstablished && c.ingress.txs[0].isFinalized
    ensures var d := PropagateACK(Finish(c, Ingress), Ingress);
            AnswerInv(d) && Confirmation(c, d) && d.ingress.state == Established
  {
    hide PropagateACK, Ack, Confirmation;
    var c1 := Finish(c, Ingress);
    var c2 := Finish(c1, Egress);
    ConfirmedSends(c);
    FinalizeKeeps(c.ingress);
    FinalizeMeForward(c.egress.state);
    FinishCalm(c1, Egress);
    AckKeeps(c2, Egress, None);
    CallGrowsTrans(c1, c2, Ack(c2, Egress, None));
    AnsweredStays(c1, Ack(c2, Egress, None));
    RelayedStays(c1, Ack(c2, Egress, None));
  }

  /** The ACK was taken by transaction i. */
  lemma TakenACKKeepsAnswer(c: Call, s: Side, i: nat, q: Request, w: World)
    requires LinkInv(c) && AnswerInv(c) && Alive(c, s) && q.kind == ACK && Received(c, s, i, q)
    ensures AnswerInv(HandleRequest(c, s, i, q, w))
  {
    hide PropagateACK, Confirmation;
    HandleRequestKeeps(c, s, i, q, w);
    if !Confirms(c, s, i, q) {
      UnansweredKeeps(c, HandleRequest(c, s, i, q, w));
    } else if Relaying(c) {
      assert s == Ingress && i == 0;
      ConfirmedKeeps(c);
    }
  }

  lemma ACKReceived(c: Call, s: Side, q: Request)
    requires LinkInv(c) && AnswerInv(c) && Alive(c, s)
    ensures var d := Put(c, s, ReceiveACK(At(c, s), q).0); LinkInv(d) && AnswerInv(d) && Alive(d, s)
  {
    hide AnswerInv, Links;
    var d := Put(c, s, ReceiveACK(At(c, s), q).0);
    ReceiveACKCalm(At(c, s), q);
    PutCalm(c, s, ReceiveACK(At(c, s), q).0);
    UnansweredKeeps(c, d);
    QuietKeepsOffers(c, d);
  }

  lemma ACKKeepsAnswer(c: Call, s: Side, q: Request, w: World)
    requires LinkInv(c) && AnswerInv(c) && Alive(c, s) && q.kind == ACK
    ensures AnswerInv(TakeRequest(c, s, q, w))
  {
    hide HandleRequest, AnswerInv, LinkInv, ReOrInvite;
    ACKReceived(c, s, q);
    var (l, t) := ReceiveACK(At(c, s), q);
    if t.Some? {
      TakenACKKeepsAnswer(Put(c, s, l), s, t.value, q, w);
    }
  }

  // ----- the answer of the called party

  lemma NotedKeeps(c: Call, s: Side, i: nat, r: Response)
    requires SoundCall(c) && AnswerInv(c) && Answered(c, s, i) && Alive(c, s)
    ensures AnswerInv(Noted(c, s, i, r))
  {
    var c1 := Noted(c, s, i, r);
    RecordQuiet(c, s, i, r);
    if s == Ingress {
      UnansweredKeeps(c, c1);
    } else {
      assert Unanswered(c.ingress, c1.ingress);
      UnansweredKeeps(c, c1);
    }
  }

  /** The 2xx of the called party is relayed as it is. */
  lemma RelayKeepsAnswer(c: Call, r: Response, w: World)
    requires SoundCall(c) && AnswerInv(c) && Relaying(c) && IsPositive(r.code)
    requires c.egress.state == BeingEstablished && Reply(r.code, r.body) in c.egress.txs[0].responses
    ensures var d := RelayAnswer(c, Egress, r, w);
            AnswerInv(d) && d.ingress == CallerSent(c.ingress, Reply(r.code, r.body)) && d.egress.txs == c.egress.txs
  {
    var c1 := Put(c, Egress, c.egress.(transformEarlyToFinal := false));
    var d := RelayAnswer(c, Egress, r, w);
    CallerAnswered(c1, r.code, r.body, w);
    var k :| 0 <= k < |c.egress.txs[0].responses| && c.egress.txs[0].responses[k] == Reply(r.code, r.body);
  }

  /** In these flows only the 2xx of a waiting egress INVITE reaches the caller. */
  lemma AnswerStep(c: Call, e: Event)
    requires LinkInv(c) && AnswerInv(c) && Relaying(c) && e.ResponseIn? && MayAnswer(c, e)
    ensures AnswerInv(Step(c, e))
  {
    var i := Matched(c, e.s, e.r).value;
    var c1 := Noted(c, e.s, i, e.r);
    InviteSentByEgress(c, e.s, i);
    NotedKeeps(c, e.s, i, e.r);
    RecordQuiet(c, e.s, i, e.r);
    OnResponseUnfolds(c, e.s, e.r, e.w);
    NotedInvite(c, e.r);
    RelayKeepsAnswer(c1, e.r, e.w);
  }

  lemma NotedInvite(c: Call, r: Response)
    requires SoundCall(c) && FlowKept(c) && Relaying(c) && c.egress.state == BeingEstablished && IsPositive(r.code)
    ensures var c1 := Noted(c, Egress, 0, r);
            && c1.egress.state == BeingEstablished && Reply(r.code, r.body) in c1.egress.txs[0].responses
            && forall w :: HandleResponse(c1, Egress, 0, r, w) == RelayAnswer(c1, Egress, r, w)
  {
    var t := c.egress.txs[0];
    assert t.With(Reply(r.code, r.body)).responses[|t.responses|] == Reply(r.code, r.body);
  }

  // ----- every step, every run

  lemma ACKStep(c: Call, e: Event)
    requires LinkInv(c) && AnswerInv(c) && e.RequestIn? && e.q.kind == ACK
    ensures AnswerInv(Step(c, e))
  {
    hide TakeRequest;
    if !At(c, e.s).disposed && !IsDuplicateRequest(At(c, e.s), e.q) {
      ACKKeepsAnswer(c, e.s, e.q, e.w);
    }
  }

  /** A step that does not answer the caller. */
  lemma OtherStep(c: Call, e: Event)
    requires LinkInv(c) && AnswerInv(c) && !MayAnswer(c, e)
    ensures AnswerInv(Step(c, e))
  {
    hide Step, AnswerInv;
    StepKeeps(c, e);
    LinksMate(c);
    RecordedQuiet(c, e);
    RecordedKeeps(c, e);
    UnansweredKeeps(Recorded(c, e), Step(c, e));
  }

  lemma StepKeepsAnswer(c: Call, e: Event)
    requires LinkInv(c) && AnswerInv(c)
    ensures AnswerInv(Step(c, e))
  {
    if !Relaying(c) {
      StepKeeps(c, e);
    } else if !MayAnswer(c, e) {
      OtherStep(c, e);
    } else if e.RequestIn? {
      ACKStep(c, e);
    } else if e.ResponseIn? {
      AnswerStep(c, e);
    }
  }

  lemma RecordedKeeps(c: Call, e: Event)
    requires SoundCall(c) && AnswerInv(c)
    ensures AnswerInv(Recorded(c, e))
  {
    if e.ResponseIn? && Matched(c, e.s, e.r).Some? {
      NotedKeeps(c, e.s, Matched(c, e.s, e.r).value, e.r);
    }
  }

  lemma {:induction false} RunKeepsAnswer(c: Call, es: seq<Event>)
    requires LinkInv(c) && AnswerInv(c)
    ensures LinkInv(Run(c, es)) && AnswerInv(Run(c, es))
    decreases |es|
  {
    if es != [] {
      RunKeepsAnswer(c, es[..|es| - 1]);
      StepKeepsOffers(Run(c, es[..|es| - 1]), es[|es| - 1]);
      StepKeepsAnswer(Run(c, es[..|es| - 1]), es[|es| - 1]);
    }
  }

  /** No caller is connected to an unanswered call: in the plain and transparent flows, whenever the
      ingress leg is established, the egress INVITE has a 2xx and the egress leg is established or
      was; and every 2xx the caller ever got is one of the called party's, body included. */
  lemma CallerOnlyAnsweredByPeer(v: FirstInvite, t: Target, m: Media, w: World, es: seq<Event>)
    requires t.Record? ==> t.flow == Plain || t.flow == Transparent
    ensures var c := After(v, t, m, w, es);
            && (c.ingress.state == Established ==> PeerAnswered(c) && Phase(c.egress.state) >= 2)
            && OnlyRelayed(c)
  {
    var c := NewCall(v, t, m, w);
    NewCallFresh(v, t, m, w);
    FreshOffers(c);
    RunKeepsAnswer(c, es);
    RunKeepsOffers(c, es);
  }
}
