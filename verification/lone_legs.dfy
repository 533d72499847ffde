/** When a call is left with one leg: from two established and linked legs, exactly which messages and
    timers take one down and leave the other up. */
module LoneLegs {
  import opened SessionState
  import opened SipTypes
  import opened Evolution
  import opened Session
  import opened Stack
  import opened CallKeeps
  import opened Runs

  predicate Up(l: Leg) { l.state == Established && !l.disposed }

  predicate BothUp(c: Call) { Up(c.ingress) && Up(c.egress) && c.ingress.linked && c.egress.linked }

  predicate OneUp(c: Call) { Up(c.ingress) != Up(c.egress) }

  // ----- the condition

  /** A request that ends the leg it comes to, and that leg alone. */
  predicate EndsItsLeg(q: Request) {
    && q.body != UnknownParts
    && (q.kind in {REGISTER, SUBSCRIBE, MESSAGE, PUBLISH, NEGOTIATE} || (q.kind == OPTIONS && q.outOfDialogue))
  }

  /** The final response r to transaction t of leg l ends that leg alone: to a BYE; a redirection of the
      INVITE; and where it should release the call, when the BYE for this leg cannot be sent. */
  predicate EndsAlone(l: Leg, t: Tx, r: Response) {
    r.code >= 200 &&
    (|| t.kind == BYE
     || (t.kind == INVITE && 300 <= r.code <= 399)
     || (ByeFails(l) && ReleasesCall(t, r)))
  }

  predicate ReleasesCall(t: Tx, r: Response) {
    || (t.kind !in {INVITE, CANCEL, BYE} && 300 <= r.code <= 399)
    || (t.kind == OPTIONS && t.isProbing && r.code in {408, 481})
  }

  /** Transaction t of leg l is not answered in time: an outgoing BYE or PRACK ends its leg alone, any other
      request but the INVITE should release the call. */
  predicate LapsesAlone(l: Leg, t: Tx) {
    CanTimeOut(t) &&
    (|| t.kind in {BYE, PRACK}
     || (ByeFails(l) && t.kind !in {INVITE, CANCEL} && (t.kind == OPTIONS ==> l.dir == INBOUND && t.isProbing)))
  }

  predicate LeavesOne(c: Call, e: Event) {
    match e
    case RequestIn(s, q, _) => !IsDuplicateRequest(At(c, s), q) && EndsItsLeg(q)
    case ResponseIn(s, r, _) =>
      var m := Matched(c, s, r);
      m.Some? && EndsAlone(At(c, s), At(c, s).txs[m.value], r)
    case TransactionTimeout(s, i, _) => i < |At(c, s).txs| && LapsesAlone(At(c, s), At(c, s).txs[i])
    case MaxDuration(_) => ByeFails(c.ingress)
    case _ => false
  }

  // ----- what leaves both legs as they are

  predicate Same(c: Call, d: Call) {
    && d.ingress.state == c.ingress.state && d.ingress.disposed == c.ingress.disposed
    && d.ingress.linked == c.ingress.linked
    && d.egress.state == c.egress.state && d.egress.disposed == c.egress.disposed && d.egress.linked == c.egress.linked
  }

  lemma ReplySame(c: Call, s: Side, trans: Option<nat>, code: Status, body: Body, w: World)
    requires Has(c, s, trans)
    ensures Same(c, SendReply(c, s, trans, code, body, w))
  {
  }

  lemma ForwardSame(c: Call, s: Side, i: nat, m: Method, w: World)
    requires i < |At(c, s).txs|
    ensures Same(c, Forward(c, s, i, m, w))
  {
    SentNew(At(c, Other(s)), m, Some(i), false, w.d);
  }

  lemma OfferSame(c: Call, s: Side, i: nat, q: Request, w: World)
    requires i < |At(c, s).txs|
    ensures Same(c, HandleOffer(c, s, i, q, w))
  {
    hide SendReply, Forward;
    var c1 := Flag(c, s, true);
    ReplySame(c, s, Some(i), w.answer, if w.answer == 200 then q.body else NoBody, w);
    ReplySame(c, s, Some(i), 488, NoBody, w);
    ReplySame(c1, s, Some(i), 491, NoBody, w);
    ReplySame(c1, s, Some(i), 488, NoBody, w);
    ForwardSame(c1, s, i, UPDATE, w);
    ForwardSame(c1, s, i, q.kind, w);
  }

  /** An established leg is in its final form. */
  lemma FinishSame(c: Call, s: Side)
    requires At(c, s).state == Established
    ensures Finish(c, s) == c
  {
  }

  lemma SendAckSame(c: Call, s: Side, lt: Option<nat>)
    requires Has(c, s, lt)
    ensures Same(c, Ack(c, s, lt))
  {
  }

  lemma OfferACKSame(c: Call, s: Side, i: nat)
    requires i < |At(c, s).txs|
    ensures Same(c, HandleOfferACK(c, s, i))
  {
    hide Ack;
    if LinkOf(c, s, i, Other(s)) {
      SendAckSame(c, Other(s), Some(At(c, s).txs[i].link.value.j));
      SendAckSame(OfferOver(c), Other(s), Some(At(c, s).txs[i].link.value.j));
    }
  }

  lemma ACKSame(c: Call, s: Side, i: nat)
    requires i < |At(c, s).txs| && BothUp(c)
    ensures Same(c, HandleACK(c, s, i))
  {
    FinishSame(c, s);
    FinishSame(c, Other(s));
    SendAckSame(c, Other(s), None);
    OfferACKSame(c, s, i);
  }

  lemma SendPrackSame(l: Leg, i: nat, d: Draws)
    requires i < |l.txs|
    ensures var m := SendPrack(l, i, d); m.state == l.state && m.disposed == l.disposed && m.linked == l.linked
  {
    SentPrack(l, i, d);
    SentNew(l, PRACK, None, false, d);
  }

  lemma RelayPRACKSame(c: Call, s: Side, i: nat, w: World)
    requires i < |At(c, s).txs|
    ensures Same(c, RelayPRACK(c, s, i, w))
  {
    if LinkOf(c, s, i, Other(s)) {
      SendPrackSame(At(c, Other(s)), At(c, s).txs[i].link.value.j, w.d);
    }
  }

  lemma PRACKSame(c: Call, s: Side, i: nat, w: World)
    requires i < |At(c, s).txs|
    ensures Same(c, HandlePrack(c, s, i, w))
  {
    ReplySame(c, s, Some(i), 400, NoBody, w);
    ReplySame(c, s, Some(i), 200, NoBody, w);
    RelayPRACKSame(SendReply(c, s, Some(i), 200, NoBody, w), s, i, w);
  }

  lemma GiveUpSame(c: Call, s: Side, w: World)
    requires SoundCall(c) && BothUp(c)
    ensures GiveUpWaitingForACK(c, s, w) == c
  {
  }

  // ----- requests

  lemma ByeEndsBoth(c: Call, s: Side, i: nat, w: World)
    requires i < |At(c, s).txs| && BothUp(c)
    ensures var d := HandleBye(c, s, i, w); !Up(d.ingress) && !Up(d.egress)
  {
    var c1 := End(c, s, Cleared, i, 200, w);
    ReplySame(To(c, s, Cleared), s, Some(i), 200, NoBody, w);
    ReleaseTakesDown(c1, Other(s), Some(i), w);
  }

  /** ReleaseMe on an established leg: it is no longer up, and the other one is as it was. */
  lemma ReleaseTakesDown(c: Call, o: Side, i: Option<nat>, w: World)
    requires Has(c, Other(o), i) && At(c, o).state == Established
    ensures var d := ReleaseLinked(c, Other(o), i, w); !Up(At(d, o)) && (Up(At(d, Other(o))) == Up(At(c, Other(o))))
  {
    SentNew(RejectPending(Enter(At(c, o), BeingCleared)), BYE, i, false, w.d);
  }

  lemma EndAlone(c: Call, s: Side, state: State, i: nat, code: Status, w: World)
    requires i < |At(c, s).txs| && BothUp(c) && state != Established
    ensures OneUp(End(c, s, state, i, code, w))
  {
    ReplySame(To(c, s, state), s, Some(i), code, NoBody, w);
  }

  lemma RegisterEnds(c: Call, s: Side, i: nat, w: World)
    requires i < |At(c, s).txs| && BothUp(c)
    ensures OneUp(HandleRegister(c, s, i, w))
  {
    match w.registration
    case BadContact => EndAlone(c, s, Dropped, i, 400, w);
    case Expired => EndAlone(c, s, Unregistered, i, 200, w);
    case Refreshed => EndAlone(c, s, Registered, i, 200, w);
  }

  lemma PlainRequestEnds(c: Call, s: Side, i: nat, q: Request, w: World)
    requires i < |At(c, s).txs| && BothUp(c) && EndsItsLeg(q)
    ensures OneUp(HandlePlain(c, s, i, q, w))
  {
    hide End;
    if q.kind == OPTIONS {
      EndAlone(c, s, Probed, i, 200, w);
    } else if q.kind == REGISTER {
      RegisterEnds(c, s, i, w);
    } else {
      EndAlone(c, s, Dropped, i, 405, w);
    }
  }

  lemma PlainRequest(c: Call, s: Side, i: nat, q: Request, w: World)
    requires i < |At(c, s).txs| && BothUp(c) && q.body != UnknownParts
    requires q.kind !in {INVITE, ReINVITE, UPDATE, ACK, CANCEL, BYE, PRACK}
    ensures OneUp(HandlePlain(c, s, i, q, w)) <==> EndsItsLeg(q)
  {
    if EndsItsLeg(q) {
      PlainRequestEnds(c, s, i, q, w);
    } else if q.kind == INFO {
      ForwardSame(c, s, i, INFO, w);
    } else {
      ReplySame(c, s, Some(i), 480, NoBody, w);
      ReplySame(c, s, Some(i), if w.referOk then 200 else 400, NoBody, w);
      ReplySame(c, s, Some(i), 405, NoBody, w);
      ReplySame(c, s, Some(i), 200, NoBody, w);
    }
  }

  lemma RequestLeaves(c: Call, s: Side, i: nat, q: Request, w: World)
    requires i < |At(c, s).txs| && BothUp(c) && q.kind != INVITE
    ensures OneUp(HandleRequest(c, s, i, q, w)) <==> EndsItsLeg(q)
  {
    if q.body == UnknownParts {
      ReplySame(c, s, Some(i), 415, NoBody, w);
    } else if q.kind == ReINVITE {
      ReplySame(c, s, Some(i), 100, NoBody, w);
      OfferSame(SendReply(c, s, Some(i), 100, NoBody, w), s, i, q, w);
    } else if q.kind == UPDATE {
      ReplySame(c, s, Some(i), 200, NoBody, w);
      OfferSame(c, s, i, q, w);
    } else if q.kind == ACK {
      ACKSame(c, s, i);
    } else if q.kind == CANCEL {
      ReplySame(c, s, Some(i), 400, NoBody, w);
    } else if q.kind == BYE {
      ByeEndsBoth(c, s, i, w);
    } else if q.kind == PRACK {
      PRACKSame(c, s, i, w);
    } else {
      PlainRequest(c, s, i, q, w);
    }
  }

  lemma OnRequestLeaves(c: Call, s: Side, q: Request, w: World)
    requires SoundCall(c) && BothUp(c)
    ensures OneUp(OnRequest(c, s, q, w)) <==> !IsDuplicateRequest(At(c, s), q) && EndsItsLeg(q)
  {
    hide TakeRequest, GiveUpWaitingForACK;
    GiveUpSame(c, s, w);
    if !IsDuplicateRequest(At(c, s), q) {
      TakeRequestLeaves(c, s, q, w);
    }
  }

  lemma TakeRequestLeaves(c: Call, s: Side, q: Request, w: World)
    requires BothUp(c) && q.kind != INVITE
    ensures OneUp(TakeRequest(c, s, q, w)) <==> EndsItsLeg(q)
  {
    hide ReceiveACK, ReceiveCANCEL, ReceivePRACK, HandleRequest;
    var (l, t) := AddIncomingRequest(At(c, s), q);
    ReceivedRequest(At(c, s), q);
    if t.Some? {
      RequestLeaves(Put(c, s, l), s, t.value, q, w);
    }
  }

  // ----- releasing both

  lemma ReleaseLeaves(c: Call, s: Side, w: World)
    requires BothUp(c)
    ensures OneUp(ReleaseCall(c, s, w).0) <==> ByeFails(At(c, s))
    ensures !ByeFails(At(c, s)) ==> var d := ReleaseCall(c, s, w).0; !Up(d.ingress) && !Up(d.egress)
    ensures ByeFails(At(c, s)) ==> !ReleaseCall(c, s, w).1
  {
    ByeTakesDown(At(c, s), w.d);
    ByeTakesDown(At(c, Other(s)), w.d);
  }

  lemma ByeTakesDown(l: Leg, d: Draws)
    ensures var m := EnterAndBye(l, BeingDropped, None, d); m.state == BeingDropped && m.linked == l.linked
  {
    SentNew(RejectPending(Enter(l, BeingDropped)), BYE, None, false, d);
  }

  // ----- responses

  lemma NotedSame(c: Call, s: Side, i: nat, r: Response)
    requires Answered(c, s, i)
    ensures var d := Noted(c, s, i, r);
            && Same(c, d) && Answered(d, s, i) && ByeFails(At(d, s)) == ByeFails(At(c, s))
            && At(d, s).txs[i].kind == At(c, s).txs[i].kind && At(d, s).txs[i].isProbing == At(c, s).txs[i].isProbing
  {
    var (a, b) := (At(c, s).txs, At(Noted(c, s, i, r), s).txs);
    assert forall k :: 0 <= k < |a| ==> (b[k].Pending() && !b[k].hasRequest <==> a[k].Pending() && !a[k].hasRequest);
  }

  lemma ProvisionalSame(c: Call, r: Response, w: World)
    requires BothUp(c)
    ensures On18x(c, Egress, r, w) == c && On18x(c, Ingress, r, w) == c
  {
  }

  /** A BYE alone changes no state. */
  lemma ByeSame(l: Leg, d: Draws)
    ensures var m := SendBye(SendAck(l, None), None, d);
            m.state == l.state && m.disposed == l.disposed && m.linked == l.linked
  {
    hide SendNew, FirstNeedingACK;
    SentNew(RejectPending(SendAck(l, None)), BYE, None, false, d);
  }

  lemma AnswerSame(c: Call, s: Side, i: nat, r: Response, w: World)
    requires Answered(c, s, i) && BothUp(c) && At(c, s).txs[i].kind != BYE
    ensures Same(c, OnPositive(c, s, i, r, w))
  {
    hide SendBye, SendAck, RelayBack;
    var kind := At(c, s).txs[i].kind;
    if kind == INVITE {
      ByeSame(At(c, s), w.d);
    } else if kind.CarriesOffer() {
      RelaySame(c, s, i, r, w);
      RelaySame(OfferOver(c), s, i, r, w);
    }
  }

  lemma RelaySame(c: Call, s: Side, i: nat, r: Response, w: World)
    requires i < |At(c, s).txs|
    ensures Same(c, RelayBack(c, s, i, r, w))
  {
    ReplySame(c, Other(s), if LinkOf(c, s, i, Other(s)) then Some(At(c, s).txs[i].link.value.j) else None,
              r.code, r.body, w);
  }

  lemma ResponseLeaves(c: Call, s: Side, i: nat, r: Response, w: World)
    requires SoundCall(c) && Answered(c, s, i) && BothUp(c)
    ensures OneUp(HandleResponse(c, s, i, r, w)) <==> EndsAlone(At(c, s), At(c, s).txs[i], r)
  {
    var t := At(c, s).txs[i];
    assert t.kind != CANCEL;
    if r.code <= 199 {
      ProvisionalSame(c, r, w);
    } else if r.code <= 299 {
      if t.kind != BYE {
        AnswerSame(c, s, i, r, w);
      }
    } else if r.code <= 399 {
      RedirectLeaves(c, s, i, r, w);
    } else {
      FailureLeaves(c, s, i, r, w);
    }
  }

  lemma RedirectLeaves(c: Call, s: Side, i: nat, r: Response, w: World)
    requires SoundCall(c) && Answered(c, s, i) && BothUp(c) && 300 <= r.code <= 399
    ensures OneUp(OnRedirect(c, s, At(c, s).txs[i].kind, r, w)) <==> EndsAlone(At(c, s), At(c, s).txs[i], r)
  {
    hide ReleaseCall;
    var kind := At(c, s).txs[i].kind;
    if kind == INVITE {
      InviteSentByEgress(c, s, i);
    } else if kind != BYE {
      ReleaseLeaves(c, s, w);
      assert Finish(c, s) == c;
    }
  }

  lemma FailureLeaves(c: Call, s: Side, i: nat, r: Response, w: World)
    requires SoundCall(c) && Answered(c, s, i) && BothUp(c) && r.code >= 400
    ensures OneUp(OnFailure(c, s, i, r, w)) <==> EndsAlone(At(c, s), At(c, s).txs[i], r)
  {
    var t := At(c, s).txs[i];
    if t.kind.CarriesOffer() {
      RelaySame(c, s, i, r, w);
    } else if t.kind == OPTIONS {
      ReleaseLeaves(c, s, w);
    }
  }

  lemma OnResponseLeaves(c: Call, s: Side, i: nat, r: Response, w: World)
    requires SoundCall(c) && Answered(c, s, i) && BothUp(c)
    ensures OneUp(HandleResponse(Noted(c, s, i, r), s, i, r, w)) <==> EndsAlone(At(c, s), At(c, s).txs[i], r)
  {
    hide HandleResponse;
    NotedSame(c, s, i, r);
    RecordQuiet(c, s, i, r);
    ResponseLeaves(Noted(c, s, i, r), s, i, r, w);
  }

  // ----- timers

  lemma TimeoutLeaves(c: Call, s: Side, i: nat, w: World)
    requires SoundCall(c) && i < |At(c, s).txs| && BothUp(c) && CanTimeOut(At(c, s).txs[i])
    ensures OneUp(OnTimeout(c, s, i, w)) <==> LapsesAlone(At(c, s), At(c, s).txs[i])
  {
    hide ReleaseCall;
    var t := At(c, s).txs[i];
    ReleaseLeaves(c, s, w);
    InDialogueLeaves(c, s, w);
    if t.kind == INVITE {
      assert TellPeer(c, s, t.dir, w) == c;
    } else if t.kind == PRACK {
      assert Reroute(c, Other(s), 408, w) == c;
    }
  }

  lemma InDialogueLeaves(c: Call, s: Side, w: World)
    requires BothUp(c)
    ensures OneUp(OnInDialogueTimeout(c, s, w)) <==> ByeFails(At(c, s))
  {
    ReleaseLeaves(c, s, w);
  }

  // ----- every step

  /** From two established and linked legs, one is taken down and the other left up exactly by the steps of
      LeavesOne. */
  lemma LeftAloneExactly(c: Call, e: Event)
    requires SoundCall(c) && BothUp(c)
    ensures OneUp(Step(c, e)) <==> LeavesOne(c, e)
  {
    hide OnRequest, OnResponse, OnTimeout, ReleaseCall, SendNew, EndsAlone;
    match e
    case RequestIn(s, q, w) => OnRequestLeaves(c, s, q, w);
    case ResponseIn(s, r, w) =>
      OnResponseUnfolds(c, s, r, w);
      if Matched(c, s, r).Some? {
        OnResponseLeaves(c, s, Matched(c, s, r).value, r, w);
      }
    case TransactionTimeout(s, i, w) =>
      if i < |At(c, s).txs| && CanTimeOut(At(c, s).txs[i]) {
        TimeoutLeaves(c, s, i, w);
      }
    case MaxDuration(w) => ReleaseLeaves(c, Ingress, w);
    case NoProgress(w) => assert OnNoProgress(c, w) == c;
    case ProbeTick(w) => SentNew(c.ingress, OPTIONS, None, true, w.d);
    case _ =>
  }

  /** The same in every reachable state. */
  lemma LeftAloneInRuns(v: FirstInvite, t: Target, m: Media, w: World, es: seq<Event>, e: Event)
    requires BothUp(After(v, t, m, w, es))
    ensures OneUp(After(v, t, m, w, es + [e])) <==> LeavesOne(After(v, t, m, w, es), e)
  {
    NewCallFresh(v, t, m, w);
    RunKeeps(NewCall(v, t, m, w), es);
    OneMore(NewCall(v, t, m, w), es, e);
    LeftAloneExactly(After(v, t, m, w, es), e);
  }
}
