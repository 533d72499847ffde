/** The final responses to the caller's INVITE: exactly which steps send a second one, and so when at most
    one is sent. */
module Finals {
  import opened SessionState
  import opened SipTypes
  import opened Evolution
  import opened Session
  import opened SessionKeeps
  import opened Stack
  import opened CallKeeps
  import opened Offers
  import opened Runs

  function FinalOnes(rs: seq<Reply>): nat
    decreases |rs|
  {
    if rs == [] then 0 else FinalOnes(rs[..|rs| - 1]) + if rs[|rs| - 1].code >= 200 then 1 else 0
  }

  lemma OneMoreReply(rs: seq<Reply>, r: Reply)
    ensures FinalOnes(rs + [r]) == FinalOnes(rs) + if r.code >= 200 then 1 else 0
  {
    assert (rs + [r])[..|rs|] == rs;
  }

  /** How many final responses the first transaction of a leg has. */
  function Count(l: Leg): nat { if l.txs == [] then 0 else FinalOnes(l.txs[0].responses) }

  predicate Finalized(l: Leg) { l.txs != [] && l.txs[0].isFinalized }

  /** The leg's INVITE is finalized exactly when it has a final response. */
  predicate Tallied(l: Leg) { l.txs != [] && (l.txs[0].isFinalized <==> Count(l) > 0) }

  /** The INVITE of leg b has n more final responses than that of the earlier a. */
  predicate Adds(a: Leg, b: Leg, n: nat) { Count(b) == Count(a) + n && (Tallied(a) ==> Tallied(b)) }

  /** At most one more, and none when there was one. */
  predicate AddsFirst(a: Leg, b: Leg) { Adds(a, b, 0) || (!Finalized(a) && Adds(a, b, 1)) }

  /** At most one more, and when there was one, exactly if `again`. */
  predicate AddsIf(a: Leg, b: Leg, again: bool) {
    (Adds(a, b, 0) || Adds(a, b, 1)) && (Finalized(a) ==> Adds(a, b, One(again)))
  }

  function One(b: bool): nat { if b then 1 else 0 }

  // ----- what the helpers add

  lemma RespondAdds(l: Leg, i: nat, r: Reply)
    requires i < |l.txs|
    ensures Adds(l, RespondTo(l, i, r), One(i == 0 && r.code >= 200))
  {
    OneMoreReply(l.txs[0].responses, r);
  }

  lemma SendAdds(l: Leg, m: Method, link: Option<nat>, probing: bool, d: Draws)
    requires l.txs != []
    ensures Adds(l, SendNew(l, m, link, probing, d), 0)
  {
    SentNew(l, m, link, probing, d);
  }

  /** The transaction that a reply goes to. */
  function ReplyTo(l: Leg, trans: Option<nat>): Option<nat> {
    if trans.Some? then trans else LastUnACKedInvite(l, INBOUND)
  }

  lemma AnswerAdds(l: Leg, trans: Option<nat>, r: Reply, prack: Option<nat>, rep: Repeats, d: Draws)
    requires trans.Some? ==> trans.value < |l.txs|
    ensures Adds(l, Answer(l, trans, r, prack, rep, d), One(ReplyTo(l, trans) == Some(0) && r.code >= 200))
  {
    var i := ReplyTo(l, trans);
    if i.Some? {
      RespondAdds(l, i.value, r);
    }
  }

  lemma HungUpAdds(l: Leg, state: State, link: Option<nat>, d: Draws)
    requires l.txs != []
    ensures AddsFirst(l, EnterAndBye(l, state, link, d))
  {
    hide SendNew, Placeholder;
    OneMoreReply(l.txs[0].responses, Reply(503, NoBody));
    SendAdds(RejectPending(Enter(l, state)), BYE, link, false, d);
  }

  // ----- what the helpers of a call add

  /** The caller's INVITE still waits for its ACK. */
  predicate UnACKed(c: Call) { c.ingress.txs != [] && !c.ingress.txs[0].isACKed }

  /** ... and its leg for its answer. */
  predicate Refusable(c: Call) { c.ingress.state == BeingEstablished && UnACKed(c) }

  lemma CallersInvite(c: Call)
    requires SoundCall(c)
    ensures ReplyTo(c.ingress, None) == if UnACKed(c) then Some(0) else None
    ensures ReplyTo(c.egress, None) == None
  {
  }

  lemma ReplyAdds(c: Call, s: Side, trans: Option<nat>, code: Status, body: Body, w: World)
    requires Has(c, s, trans)
    ensures Adds(c.ingress, SendReply(c, s, trans, code, body, w).ingress,
                 One(s == Ingress && ReplyTo(c.ingress, trans) == Some(0) && code >= 200))
  {
    AnswerAdds(At(c, s), trans, Reply(code, body), None, c.repeats, w.d);
  }

  lemma ForwardAdds(c: Call, s: Side, i: nat, m: Method, w: World)
    requires SoundCall(c) && i < |At(c, s).txs|
    ensures Adds(c.ingress, Forward(c, s, i, m, w).ingress, 0)
  {
    if s == Egress {
      SendAdds(c.ingress, m, Some(i), false, w.d);
    }
  }

  lemma OfferAdds(c: Call, s: Side, i: nat, q: Request, w: World)
    requires SoundCall(c) && i < |At(c, s).txs| && (s == Ingress ==> i != 0)
    ensures Adds(c.ingress, HandleOffer(c, s, i, q, w).ingress, 0)
  {
    hide SendReply, Forward, FinalOnes;
    var c1 := Flag(c, s, true);
    if !At(c, s).linked {
      ReplyAdds(c, s, Some(i), w.answer, if w.answer == 200 then q.body else NoBody, w);
      ReplyAdds(c, s, Some(i), 488, NoBody, w);
    } else {
      ReplyAdds(c1, s, Some(i), 491, NoBody, w);
      ReplyAdds(c1, s, Some(i), 488, NoBody, w);
      ForwardAdds(c1, s, i, UPDATE, w);
      ForwardAdds(c1, s, i, q.kind, w);
    }
  }

  lemma AckAdds(c: Call, s: Side, lt: Option<nat>)
    requires Has(c, s, lt)
    ensures Adds(c.ingress, Ack(c, s, lt).ingress, 0)
  {
  }

  lemma OfferACKAdds(c: Call, s: Side, i: nat)
    requires i < |At(c, s).txs|
    ensures Adds(c.ingress, HandleOfferACK(c, s, i).ingress, 0)
  {
    hide Ack, FinalOnes;
    var o := Other(s);
    if LinkOf(c, s, i, o) {
      AckAdds(c, o, Some(At(c, s).txs[i].link.value.j));
      AckAdds(OfferOver(c), o, Some(At(c, s).txs[i].link.value.j));
    }
  }

  lemma HandleACKAdds(c: Call, s: Side, i: nat)
    requires i < |At(c, s).txs|
    ensures Adds(c.ingress, HandleACK(c, s, i).ingress, 0)
  {
    hide Ack, HandleOfferACK, FinalOnes;
    var o := Other(s);
    if At(c, s).txs[i].kind == INVITE {
      AckAdds(Finish(Finish(c, s), o), o, None);
    } else {
      OfferACKAdds(c, s, i);
    }
  }

  lemma ReleaseLinkedAdds(c: Call, s: Side, i: Option<nat>, w: World)
    requires SoundCall(c) && Has(c, s, i)
    ensures AddsFirst(c.ingress, ReleaseLinked(c, s, i, w).ingress)
  {
    hide EnterAndBye;
    if s == Egress {
      HungUpAdds(c.ingress, BeingCleared, i, w.d);
    }
  }

  lemma ReleaseCallAdds(c: Call, s: Side, w: World)
    requires c.ingress.txs != []
    ensures AddsFirst(c.ingress, ReleaseCall(c, s, w).0.ingress)
  {
    HungUpAdds(c.ingress, BeingDropped, None, w.d);
  }

  /** A leg that waits for its answer is refused. */
  lemma RerouteAdds(c: Call, o: Side, code: Status, w: World)
    requires SoundCall(c) && code >= 300
    ensures Adds(c.ingress, Reroute(c, o, code, w).ingress, One(o == Ingress && Refusable(c)))
  {
    CallersInvite(c);
    if o == Ingress && Refusable(c) {
      RejectAdds(c.ingress.(linked := false), Some(0), code, c.repeats, w.d);
    }
  }

  lemma RejectAdds(l: Leg, trans: Option<nat>, code: Status, rep: Repeats, d: Draws)
    requires (trans.Some? ==> trans.value < |l.txs|) && code >= 300
    ensures Adds(l, RejectMe(l, trans, code, rep, d),
                 One(l.dir == INBOUND && l.state == BeingEstablished && ReplyTo(l, trans) == Some(0)))
  {
    AnswerAdds(Enter(l, BeingFailed), trans, Reply(code, NoBody), None, rep, d);
  }

  // ----- requests

  lemma CancelAdds(c: Call, s: Side, i: nat, w: World)
    requires SoundCall(c) && i < |At(c, s).txs| && (s == Ingress ==> i != 0)
    ensures s == Egress ==> AddsFirst(c.ingress, HandleCancel(c, s, i, w).ingress)
    ensures s == Ingress ==>
              Adds(c.ingress, HandleCancel(c, s, i, w).ingress,
                   One(Refusable(c) && !(c.ingress.linked && c.egress.state == Established)))
  {
    if At(c, s).state != BeingEstablished {
      ReplyAdds(c, s, Some(i), 400, NoBody, w);
    } else {
      var c1 := SendReply(To(c, s, BeingCancelled), s, Some(i), 200, NoBody, w);
      ReplyAdds(To(c, s, BeingCancelled), s, Some(i), 200, NoBody, w);
      CancelledSound(c, s, i, w);
      CancelPeerAdds(c1, s, w);
    }
  }

  lemma CancelledSound(c: Call, s: Side, i: nat, w: World)
    requires SoundCall(c) && i < |At(c, s).txs| && At(c, s).state == BeingEstablished && (s == Ingress ==> i != 0)
    ensures var d := SendReply(To(c, s, BeingCancelled), s, Some(i), 200, NoBody, w);
            && SoundCall(d) && d.egress.state == (if s == Egress then BeingCancelled else c.egress.state)
            && UnACKed(d) == UnACKed(c) && At(d, s).linked == At(c, s).linked
  {
    Replied(To(c, s, BeingCancelled), s, i, 200, w);
  }

  lemma CancelPeerAdds(c: Call, s: Side, w: World)
    requires SoundCall(c)
    ensures s == Egress ==> AddsFirst(c.ingress, CancelPeer(c, s, w).ingress)
    ensures s == Ingress ==>
              Adds(c.ingress, CancelPeer(c, s, w).ingress,
                   One(UnACKed(c) && !(c.ingress.linked && c.egress.state == Established)))
  {
    var o := Other(s);
    CallersInvite(c);
    ReplyAdds(c, s, None, 487, NoBody, w);
    ReplyAdds(Put(c, o, CancelMe(At(c, o))), s, None, 487, NoBody, w);
    ReleaseLinkedAdds(c, s, None, w);
  }

  lemma EndAdds(c: Call, s: Side, state: State, i: nat, code: Status, w: World)
    requires i < |At(c, s).txs| && (s == Ingress ==> i != 0)
    ensures Adds(c.ingress, End(c, s, state, i, code, w).ingress, 0)
  {
    ReplyAdds(To(c, s, state), s, Some(i), code, NoBody, w);
  }

  lemma ByeAdds(c: Call, s: Side, i: nat, w: World)
    requires SoundCall(c) && i < |At(c, s).txs| && (s == Ingress ==> i != 0)
    ensures AddsFirst(c.ingress, HandleBye(c, s, i, w).ingress)
  {
    hide SendNew;
    ReplyAdds(c, s, Some(i), 400, NoBody, w);
    EndAdds(c, s, Cleared, i, 200, w);
    var c1 := End(c, s, Cleared, i, 200, w);
    if At(c, s).state == Established && s == Egress && At(c1, s).linked {
      HungUpAdds(c.ingress, BeingCleared, Some(i), w.d);
    }
  }

  lemma PrackAdds(c: Call, s: Side, i: nat, w: World)
    requires SoundCall(c) && i < |At(c, s).txs| && (s == Ingress ==> i != 0)
    ensures Adds(c.ingress, HandlePrack(c, s, i, w).ingress, 0)
  {
    var c1 := SendReply(c, s, Some(i), 200, NoBody, w);
    ReplyAdds(c, s, Some(i), 400, NoBody, w);
    ReplyAdds(c, s, Some(i), 200, NoBody, w);
    if s == Egress && LinkOf(c1, s, i, Ingress) {
      SentPrack(c.ingress, At(c1, s).txs[i].link.value.j, w.d);
      SendAdds(c.ingress, PRACK, None, false, w.d);
    }
  }

  lemma PlainAdds(c: Call, s: Side, i: nat, q: Request, w: World)
    requires SoundCall(c) && i < |At(c, s).txs| && (s == Ingress ==> i != 0)
    ensures Adds(c.ingress, HandlePlain(c, s, i, q, w).ingress, 0)
  {
    hide SendReply, End, Forward;
    if q.kind == REFER {
      ReplyAdds(c, s, Some(i), 480, NoBody, w);
      ReplyAdds(c, s, Some(i), if w.referOk then 200 else 400, NoBody, w);
    } else if q.kind == INFO {
      ForwardAdds(c, s, i, INFO, w);
    } else if q.kind == NOTIFY {
      ReplyAdds(c, s, Some(i), 405, NoBody, w);
    } else if q.kind == OPTIONS {
      ReplyAdds(c, s, Some(i), 200, NoBody, w);
      EndAdds(c, s, Probed, i, 200, w);
    } else if q.kind == REGISTER {
      EndAdds(c, s, Dropped, i, 400, w);
      EndAdds(c, s, Unregistered, i, 200, w);
      EndAdds(c, s, Registered, i, 200, w);
    } else {
      EndAdds(c, s, Dropped, i, 405, w);
    }
  }

  /** A request that was taken in, other than a CANCEL of the caller or an ACK with an unknown body. */
  lemma RequestAdds(c: Call, s: Side, i: nat, q: Request, w: World)
    requires SoundCall(c) && i < |At(c, s).txs| && q.kind != INVITE && (q.kind != ACK && s == Ingress ==> i != 0)
    requires !(s == Ingress && (q.kind == CANCEL || (q.kind == ACK && q.body == UnknownParts)))
    ensures AddsFirst(c.ingress, HandleRequest(c, s, i, q, w).ingress)
  {
    hide HandleOffer, SendReply;
    if q.body == UnknownParts {
      ReplyAdds(c, s, Some(i), 415, NoBody, w);
    } else if q.kind == ReINVITE {
      var c1 := SendReply(c, s, Some(i), 100, NoBody, w);
      ReplyAdds(c, s, Some(i), 100, NoBody, w);
      Replied(c, s, i, 100, w);
      OfferAdds(c1, s, i, q, w);
    } else if q.kind == UPDATE {
      ReplyAdds(c, s, Some(i), 200, NoBody, w);
      OfferAdds(c, s, i, q, w);
    } else if q.kind == ACK {
      HandleACKAdds(c, s, i);
    } else if q.kind == CANCEL {
      CancelAdds(c, s, i, w);
    } else if q.kind == BYE {
      ByeAdds(c, s, i, w);
    } else if q.kind == PRACK {
      PrackAdds(c, s, i, w);
    } else {
      PlainAdds(c, s, i, q, w);
    }
  }

  // ----- the condition

  /** A request of the caller that has a second final response sent: a CANCEL that comes before the ACK, or
      an ACK with an unknown body. */
  predicate AsksAgain(c: Call, q: Request) {
    if q.kind == CANCEL then
      && q.body != UnknownParts && AddIncomingRequest(c.ingress, q).1.Some?
      && Refusable(c) && !(c.ingress.linked && c.egress.state == Established)
    else q.kind == ACK && q.body == UnknownParts && ReceiveACK(c.ingress, q).1 == Some(0)
  }

  /** A response to the egress INVITE that is passed on to the caller, or answers it, once more. */
  predicate AnswersAgain(c: Call, r: Response) {
    if r.code <= 199 then
      && Is18x(r.code) && r.body.WithSDP? && UnACKed(c)
      && c.egress.state == BeingEstablished && c.egress.transformEarlyToFinal && !c.egress.received18xSDP
    else if r.code <= 299 then
      && c.egress.state == BeingEstablished && UnACKed(c)
      && !(c.egress.transformEarlyToFinal && c.egress.received18xSDP)
    else Refusable(c) && (r.code >= 400 ==> c.egress.state == BeingEstablished)
  }

  predicate FinalAgain(c: Call, e: Event) {
    match e
    case RequestIn(s, q, _) =>
      s == Ingress && !c.ingress.disposed && !IsDuplicateRequest(c.ingress, q) && AsksAgain(c, q)
    case ResponseIn(s, r, _) =>
      var m := Matched(c, s, r);
      m.Some? && At(c, s).txs[m.value].kind == INVITE && AnswersAgain(c, r)
    case TransactionTimeout(s, i, _) =>
      && s == Egress && i < |c.egress.txs| && CanTimeOut(c.egress.txs[i]) && c.egress.txs[i].kind in {INVITE, PRACK}
      && c.egress.linked && Refusable(c)
    case NoProgress(_) => CanLackProgress(c.egress) && Refusable(c)
    case EchoAnswer(_, _) => c.flow == Echo && c.ingress.state == BeingEstablished
    case _ => false
  }

  // ----- messages

  lemma GiveUpAdds(c: Call, s: Side, w: World)
    requires SoundCall(c)
    ensures var d := GiveUpWaitingForACK(c, s, w); SoundCall(d) && Adds(c.ingress, d.ingress, 0)
  {
    GiveUpCalm(c, s, w);
    if s == Ingress {
      TimeoutOfCaller(c, w);
    }
  }

  /** The caller's ACK does not come: its own leg sends nothing. */
  lemma TimeoutOfCaller(c: Call, w: World)
    requires SoundCall(c)
    ensures forall i: nat :: i < |c.ingress.txs| && c.ingress.txs[i].dir == INBOUND ==>
              Adds(c.ingress, OnInviteTimeout(c, Ingress, i, w).ingress, 0)
  {
    hide Reroute, SendBye, CancelMe;
  }

  /** The request is listed, or marks the transaction it belongs to. */
  lemma ACKTakenAdds(l: Leg, q: Request)
    ensures Adds(l, ReceiveACK(l, q).0, 0)
  {
  }

  lemma CANCELTakenAdds(l: Leg, q: Request)
    requires q.kind == CANCEL && l.txs != []
    ensures var m := ReceiveCANCEL(l, q).0; Adds(l, m, 0) && m.txs != [] && m.txs[0] == l.txs[0]
  {
  }

  lemma PRACKTakenAdds(l: Leg, q: Request)
    requires q.kind == PRACK && l.txs != []
    ensures Adds(l, ReceivePRACK(l, q).0, 0)
  {
    hide PrackFor;
  }

  lemma TakenAdds(l: Leg, q: Request)
    requires l.txs != []
    ensures var m := AddIncomingRequest(l, q).0;
            Adds(l, m, 0) && (q.kind == CANCEL ==> m.txs != [] && m.txs[0] == l.txs[0])
  {
    hide ReceiveACK, ReceiveCANCEL, ReceivePRACK, FinalOnes;
    ACKTakenAdds(l, q);
    if q.kind == CANCEL {
      CANCELTakenAdds(l, q);
    } else if q.kind == PRACK {
      PRACKTakenAdds(l, q);
    }
  }

  lemma TakeRequestAdds(c: Call, s: Side, q: Request, w: World)
    requires SoundCall(c) && Alive(c, s) && q.kind != INVITE && Tallied(c.ingress)
    ensures AddsIf(c.ingress, TakeRequest(c, s, q, w).ingress, s == Ingress && AsksAgain(c, q))
  {
    hide ReceiveACK, ReceiveCANCEL, ReceivePRACK, HandleRequest, FinalOnes, IncomingTx;
    var (l, t) := AddIncomingRequest(At(c, s), q);
    var c1 := Put(c, s, l);
    AddIncomingRequestCalm(At(c, s), q);
    PutCalm(c, s, l);
    ReceivedRequest(At(c, s), q);
    TakenAdds(c.ingress, q);
    if t.Some? {
      if s == Ingress && (q.kind == CANCEL || (q.kind == ACK && q.body == UnknownParts)) {
        AskedAdds(c1, q, t.value, w);
      } else {
        RequestAdds(c1, s, t.value, q, w);
      }
    }
  }

  lemma AskedAdds(c: Call, q: Request, i: nat, w: World)
    requires SoundCall(c) && i < |c.ingress.txs|
             && ((q.kind == CANCEL && i != 0) || (q.kind == ACK && q.body == UnknownParts))
    ensures Adds(c.ingress, HandleRequest(c, Ingress, i, q, w).ingress,
                 One(if q.kind == ACK then i == 0
                     else q.body != UnknownParts && Refusable(c)
                          && !(c.ingress.linked && c.egress.state == Established)))
  {
    hide HandleCancel, SendReply;
    ReplyAdds(c, Ingress, Some(i), 415, NoBody, w);
    if q.kind == CANCEL {
      CancelAdds(c, Ingress, i, w);
    }
  }

  lemma ByeTakenAdds(c: Call, s: Side, q: Request, w: World)
    requires SoundCall(c) && Tallied(c.ingress) && Alive(c, s) && q.kind == BYE
    ensures AddsIf(c.ingress, TakeRequest(GiveUpWaitingForACK(c, s, w), s, q, w).ingress, false)
  {
    hide TakeRequest, GiveUpWaitingForACK;
    GiveUpAdds(c, s, w);
    GiveUpCalm(c, s, w);
    TakeRequestAdds(GiveUpWaitingForACK(c, s, w), s, q, w);
  }

  lemma OnRequestAdds(c: Call, s: Side, q: Request, w: World)
    requires SoundCall(c) && Tallied(c.ingress)
    ensures AddsIf(c.ingress, OnRequest(c, s, q, w).ingress,
                   s == Ingress && !c.ingress.disposed && !IsDuplicateRequest(c.ingress, q) && AsksAgain(c, q))
  {
    hide TakeRequest, GiveUpWaitingForACK;
    if !At(c, s).disposed && !IsDuplicateRequest(At(c, s), q) {
      if q.kind == BYE {
        ByeTakenAdds(c, s, q, w);
      } else {
        TakeRequestAdds(c, s, q, w);
      }
    }
  }

  // ----- responses

  lemma RelayBackAdds(c: Call, s: Side, i: nat, r: Response, w: World)
    requires LinkInv(c) && Answered(c, s, i) && At(c, s).txs[i].kind.CarriesOffer()
    ensures Adds(c.ingress, RelayBack(c, s, i, r, w).ingress, 0)
  {
    var j := At(c, s).txs[i].link.value.j;
    assert Mates(At(c, s).txs[i], i, At(c, Other(s)).txs[j], c.flow != EarlyToFinal);
    ReplyAdds(c, Other(s), Some(j), r.code, r.body, w);
  }

  lemma On18xAdds(c: Call, r: Response, w: World)
    requires SoundCall(c) && Is18x(r.code) && c.egress.state != NotSet
    ensures AddsIf(c.ingress, On18x(c, Egress, r, w).ingress, AnswersAgain(c, r))
  {
    CallersInvite(c);
    ReplyAdds(Put(c, Egress, c.egress.(received18xSDP := true)), Ingress, None, 200, r.body, w);
    ReplyAdds(c, Ingress, None, r.code, NoBody, w);
    AnswerAdds(c.ingress, None, Reply(r.code, r.body),
               if r.require100rel then Some(|c.egress.txs|) else None, c.repeats, w.d);
  }

  lemma InviteAnsweredAdds(c: Call, r: Response, w: World)
    requires SoundCall(c) && IsPositive(r.code)
    ensures Adds(c.ingress, InviteAnswered(c, Egress, r, w).ingress, One(AnswersAgain(c, r)))
  {
    CallersInvite(c);
    ReplyAdds(Put(c, Egress, c.egress.(transformEarlyToFinal := false)), Ingress, None, r.code, r.body, w);
  }

  lemma InviteFailedAdds(c: Call, i: nat, r: Response, w: World)
    requires SoundCall(c) && Answered(c, Egress, i) && c.egress.txs[i].kind == INVITE && r.code >= 300
    ensures var d := if r.code <= 399 then OnRedirect(c, Egress, INVITE, r, w) else OnFailure(c, Egress, i, r, w);
            AddsIf(c.ingress, d.ingress, AnswersAgain(c, r))
  {
    if r.code <= 399 {
      var c1 := Put(c, Egress, AckFailure(c.egress, Redirected));
      RedirectedSound(c);
      RerouteAdds(c1, Ingress, r.code, w);
    } else if c.egress.state == BeingEstablished {
      RefusedAdds(c, r, w);
    }
  }

  lemma RedirectedSound(c: Call)
    requires SoundCall(c) && c.egress.state != NotSet
    ensures SoundCall(Put(c, Egress, AckFailure(c.egress, Redirected)))
  {
    AckFailureCalm(c.egress, Redirected);
    PutCalm(c, Egress, AckFailure(c.egress, Redirected));
  }

  lemma RefusedAdds(c: Call, r: Response, w: World)
    requires SoundCall(c) && r.code >= 400 && c.egress.state == BeingEstablished
    ensures AddsIf(c.ingress, InviteFailed(c, Egress, r, w).ingress, Refusable(c))
  {
    var c1 := Put(c, Egress, Refused(c.egress));
    RefusedCalm(c.egress);
    PutCalm(c, Egress, Refused(c.egress));
    CallersInvite(c);
    RerouteAdds(c1, Ingress, r.code, w);
    ReleaseLinkedAdds(c1, Egress, None, w);
    RejectAdds(c.ingress, None, r.code, c.repeats, w.d);
  }

  /** A response to anything but an INVITE; some of them release the call. */
  lemma RedirectedAdds(c: Call, s: Side, kind: Method, r: Response, w: World)
    requires c.ingress.txs != [] && kind != INVITE
    ensures AddsFirst(c.ingress, OnRedirect(c, s, kind, r, w).ingress)
  {
    ReleaseCallAdds(Finish(c, s), s, w);
  }

  lemma UpdateAcceptedAdds(c: Call, s: Side, i: nat, r: Response, w: World)
    requires LinkInv(c) && Answered(c, s, i) && At(c, s).txs[i].kind == UPDATE
    ensures Adds(c.ingress, RelayBack(OfferOver(c), s, i, r, w).ingress, 0)
  {
    hide RelayBack, LinkInv;
    OfferOverKeeps(c);
    RelayBackAdds(OfferOver(c), s, i, r, w);
  }

  lemma AcceptedAdds(c: Call, s: Side, i: nat, r: Response, w: World)
    requires LinkInv(c) && Answered(c, s, i) && At(c, s).txs[i].kind != INVITE
    ensures Adds(c.ingress, OnPositive(c, s, i, r, w).ingress, 0)
  {
    hide RelayBack, InviteAnswered, LinkInv, OfferOver;
    var kind := At(c, s).txs[i].kind;
    if kind == UPDATE {
      UpdateAcceptedAdds(c, s, i, r, w);
    } else if kind == ReINVITE {
      RelayBackAdds(c, s, i, r, w);
    }
  }

  lemma FailedAdds(c: Call, s: Side, i: nat, r: Response, w: World)
    requires LinkInv(c) && Answered(c, s, i) && At(c, s).txs[i].kind != INVITE
    ensures AddsFirst(c.ingress, OnFailure(c, s, i, r, w).ingress)
  {
    if At(c, s).txs[i].kind.CarriesOffer() {
      RelayBackAdds(c, s, i, r, w);
    } else {
      ReleaseCallAdds(c, s, w);
    }
  }

  lemma OtherAnswerAdds(c: Call, s: Side, i: nat, r: Response, w: World)
    requires LinkInv(c) && Answered(c, s, i) && At(c, s).txs[i].kind != INVITE && r.code >= 200
    ensures AddsFirst(c.ingress, HandleResponse(c, s, i, r, w).ingress)
  {
    hide OnPositive, OnRedirect, OnFailure;
    AcceptedAdds(c, s, i, r, w);
    RedirectedAdds(c, s, At(c, s).txs[i].kind, r, w);
    FailedAdds(c, s, i, r, w);
  }

  lemma ResponseAdds(c: Call, s: Side, i: nat, r: Response, w: World)
    requires LinkInv(c) && Answered(c, s, i) && Alive(c, s)
    ensures AddsIf(c.ingress, HandleResponse(c, s, i, r, w).ingress,
                   At(c, s).txs[i].kind == INVITE && AnswersAgain(c, r))
  {
    if At(c, s).txs[i].kind == INVITE {
      InviteSentByEgress(c, s, i);
      if Is18x(r.code) {
        On18xAdds(c, r, w);
      } else if IsPositive(r.code) {
        InviteAnsweredAdds(c, r, w);
      } else if r.code >= 300 {
        InviteFailedAdds(c, i, r, w);
      }
    } else if r.code >= 200 {
      OtherAnswerAdds(c, s, i, r, w);
    }
  }

  lemma OnResponseAdds(c: Call, s: Side, r: Response, w: World)
    requires LinkInv(c)
    ensures AddsIf(c.ingress, OnResponse(c, s, r, w).ingress, FinalAgain(c, ResponseIn(s, r, w)))
  {
    OnResponseUnfolds(c, s, r, w);
    var m := Matched(c, s, r);
    if m.Some? {
      var c1 := Noted(c, s, m.value, r);
      RecordQuiet(c, s, m.value, r);
      QuietKeepsOffers(c, c1);
      NotedAnswers(c, s, m.value, r);
      NotedAdds(c, s, m.value, r);
      ResponseAdds(c1, s, m.value, r, w);
    }
  }

  /** A response belongs to a request that was sent, so not to the caller's INVITE. */
  lemma NotedAdds(c: Call, s: Side, i: nat, r: Response)
    requires SoundCall(c) && Answered(c, s, i)
    ensures var d := Noted(c, s, i, r);
            && Adds(c.ingress, d.ingress, 0) && Finalized(d.ingress) == Finalized(c.ingress)
            && AnswersAgain(d, r) == AnswersAgain(c, r) && At(d, s).txs[i].kind == At(c, s).txs[i].kind
  {
  }

  // ----- timers

  lemma InDialogueTimeoutAdds(c: Call, s: Side, w: World)
    requires SoundCall(c)
    ensures AddsFirst(c.ingress, OnInDialogueTimeout(c, s, w).ingress)
  {
    hide ReleaseCall, FinalOnes;
    ReleaseCallAdds(c, s, w);
  }

  lemma InviteTimeoutAdds(c: Call, i: nat, w: World)
    requires SoundCall(c) && Answered(c, Egress, i)
    ensures Adds(c.ingress, OnInviteTimeout(c, Egress, i, w).ingress, One(c.egress.linked && Refusable(c)))
  {
    var c1 := if IsPending(c.egress.state) then DropMe(To(c, Egress, TimedOut), Egress) else c;
    if IsPending(c.egress.state) {
      TimedOutCalm(c, Egress);
    }
    RerouteAdds(c1, Ingress, 408, w);
  }

  lemma PrackTimeoutAdds(c: Call, s: Side, w: World)
    requires SoundCall(c)
    ensures Adds(c.ingress, OnPrackTimeout(c, s, w).ingress, One(s == Egress && c.egress.linked && Refusable(c)))
  {
    RerouteAdds(c, Other(s), 408, w);
  }

  /** Any other request that is not answered. */
  lemma OtherTimeoutAdds(c: Call, s: Side, i: nat, w: World)
    requires SoundCall(c) && i < |At(c, s).txs| && At(c, s).txs[i].kind !in {INVITE, PRACK}
    ensures AddsFirst(c.ingress, OnTimeout(c, s, i, w).ingress)
  {
    ReleaseCallAdds(c, s, w);
    InDialogueTimeoutAdds(c, s, w);
  }

  lemma TimeoutAdds(c: Call, s: Side, i: nat, w: World)
    requires SoundCall(c) && i < |At(c, s).txs| && CanTimeOut(At(c, s).txs[i])
    ensures AddsIf(c.ingress, OnTimeout(c, s, i, w).ingress, FinalAgain(c, TransactionTimeout(s, i, w)))
  {
    hide OnPrackTimeout, OnInviteTimeout;
    var t := At(c, s).txs[i];
    if t.kind == INVITE {
      if s == Ingress {
        TimeoutOfCaller(c, w);
      } else {
        InviteTimeoutAdds(c, i, w);
      }
    } else if t.kind == PRACK {
      PrackTimeoutAdds(c, s, w);
    } else {
      OtherTimeoutAdds(c, s, i, w);
    }
  }

  lemma NoProgressAdds(c: Call, w: World)
    requires SoundCall(c)
    ensures Adds(c.ingress, OnNoProgress(c, w).ingress, One(Refusable(c)))
  {
    CancelLinkedCalm(c, Egress);
    RerouteAdds(Put(c, Egress, CancelMe(c.egress)), Ingress, 487, w);
  }

  // ----- every step, every run

  /** A step sends the caller's INVITE at most one final response; and when it had one already, exactly if the
      step is one of FinalAgain. */
  lemma StepAdds(c: Call, e: Event)
    requires LinkInv(c) && Tallied(c.ingress)
    ensures AddsIf(c.ingress, Step(c, e).ingress, FinalAgain(c, e))
  {
    hide OnRequest, OnResponse, OnTimeout, OnNoProgress, ReleaseCall, SendNew, SendReply, FinalOnes, AsksAgain;
    match e
    case RequestIn(s, q, w) => OnRequestAdds(c, s, q, w);
    case ResponseIn(s, r, w) => OnResponseAdds(c, s, r, w);
    case TransactionTimeout(s, i, w) =>
      if i < |At(c, s).txs| && CanTimeOut(At(c, s).txs[i]) {
        TimeoutAdds(c, s, i, w);
      }
    case NoProgress(w) => NoProgressAdds(c, w);
    case MaxDuration(w) => ReleaseCallAdds(c, Ingress, w);
    case ProbeTick(w) => SendAdds(c.ingress, OPTIONS, None, true, w.d);
    case EchoAnswer(body, w) => ReplyAdds(c, Ingress, Some(0), 200, body, w);
    case _ =>
  }

  lemma TurnAdds(c: Call, code: Status, w: World)
    requires |c.ingress.txs| > 0 && code >= 300
    ensures Adds(c.ingress, Turn(c, code, w).ingress, 0) || Adds(c.ingress, Turn(c, code, w).ingress, 1)
  {
    RejectAdds(c.ingress, Some(0), code, c.repeats, w.d);
  }

  lemma LinkAdds(c: Call, reliable: bool, steersMedia: bool, m: Media, w: World)
    requires |c.ingress.txs| > 0
    ensures var d := Link(c, reliable, steersMedia, m, w);
            Adds(c.ingress, d.ingress, 0) || Adds(c.ingress, d.ingress, 1)
  {
    TurnAdds(c, 503, w);
    TurnAdds(DropMe(Linked(c, reliable), Egress), 503, w);
  }

  lemma EchoAdds(c: Call, v: FirstInvite, m: Media, w: World)
    requires |c.ingress.txs| > 0
    ensures var d := AnswerEcho(c, v, m, w); Adds(c.ingress, d.ingress, 0) || Adds(c.ingress, d.ingress, 1)
  {
    TurnAdds(c, 488, w);
    TurnAdds(c, 503, w);
    TurnAdds(c, 500, w);
    ReplyAdds(c, Ingress, Some(0), 180, NoBody, w);
  }

  lemma RouteAdds(c: Call, v: FirstInvite, t: Target, m: Media, w: World)
    requires |c.ingress.txs| > 0
    ensures var d := Route(c, v, t, m, w); Adds(c.ingress, d.ingress, 0) || Adds(c.ingress, d.ingress, 1)
  {
    hide Link, Turn, AnswerEcho, FinalOnes;
    match t
    case NoTarget => TurnAdds(c, 404, w);
    case AppServer => LinkAdds(c, v.supports100rel, false, m, w);
    case Phone(registered, reachable, sdpLeft, sentBack) =>
      TurnAdds(c, 480, w);
      TurnAdds(c, 604, w);
      TurnAdds(c, 488, w);
      LinkAdds(c, sentBack && v.supports100rel, false, m, w);
    case Record(flow, noTimers, steersMedia, _) =>
      EchoAdds(c, v, m, w);
      TurnAdds(c, 488, w);
      TurnAdds(c, 503, w);
      LinkAdds(c, flow == Transparent && v.supports100rel, steersMedia, m, w);
  }

  lemma NewCallAdds(v: FirstInvite, t: Target, m: Media, w: World)
    ensures var l := NewCall(v, t, m, w).ingress; Tallied(l) && Count(l) <= 1
  {
    var c := Call(IngressOf(v), Drop(NewLeg(OUTBOUND)), if t.Record? then t.flow else Plain,
                  if t.Record? then t.repeats else Repeats(false, false));
    match Refusal(v)
    case Some(code) => TurnAdds(c, code, w);
    case None =>
      ReplyAdds(c, Ingress, Some(0), 100, NoBody, w);
      Replied(c, Ingress, 0, 100, w);
      RouteAdds(SendReply(c, Ingress, Some(0), 100, NoBody, w), v, t, m, w);
  }

  /** No event of the run has a second final response sent. */
  ghost predicate NeverAgain(c: Call, es: seq<Event>) {
    forall k :: 0 <= k < |es| ==> !(Finalized(Run(c, es[..k]).ingress) && FinalAgain(Run(c, es[..k]), es[k]))
  }

  lemma NeverAgainUnfolds(c: Call, es: seq<Event>)
    requires es != []
    ensures var (before, e) := (es[..|es| - 1], es[|es| - 1]);
            NeverAgain(c, es) <==>
            NeverAgain(c, before) && !(Finalized(Run(c, before).ingress) && FinalAgain(Run(c, before), e))
  {
    var before := es[..|es| - 1];
    assert forall k :: 0 <= k < |before| ==> before[..k] == es[..k] && before[k] == es[k];
    if NeverAgain(c, es) {
      forall k | 0 <= k < |before|
        ensures !(Finalized(Run(c, before[..k]).ingress) && FinalAgain(Run(c, before[..k]), before[k]))
      {
        assert before[..k] == es[..k];
      }
    } else {
      var k :| 0 <= k < |es| && Finalized(Run(c, es[..k]).ingress) && FinalAgain(Run(c, es[..k]), es[k]);
      if k < |before| {
        assert before[..k] == es[..k] && before[k] == es[k];
      }
    }
  }

  lemma {:induction false} RunAdds(c: Call, es: seq<Event>)
    requires LinkInv(c) && Tallied(c.ingress) && Count(c.ingress) <= 1
    ensures LinkInv(Run(c, es)) && Tallied(Run(c, es).ingress)
    ensures Count(Run(c, es).ingress) <= 1 <==> NeverAgain(c, es)
    decreases |es|
  {
    hide Step, FinalAgain, Count;
    if es != [] {
      var before := es[..|es| - 1];
      RunAdds(c, before);
      StepKeepsOffers(Run(c, before), es[|es| - 1]);
      StepAdds(Run(c, before), es[|es| - 1]);
      NeverAgainUnfolds(c, es);
    }
  }

  /** In every reachable state of every flow, the caller's INVITE was sent at most one final response exactly
      if no event of the run was one of FinalAgain when the INVITE already had one. */
  lemma OneFinalResponse(v: FirstInvite, t: Target, m: Media, w: World, es: seq<Event>)
    ensures Count(After(v, t, m, w, es).ingress) <= 1 <==> NeverAgain(NewCall(v, t, m, w), es)
  {
    NewCallFresh(v, t, m, w);
    FreshOffers(NewCall(v, t, m, w));
    NewCallAdds(v, t, m, w);
    RunAdds(NewCall(v, t, m, w), es);
  }
}
