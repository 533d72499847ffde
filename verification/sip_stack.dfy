/** The handlers of a call as methods that update its two session objects. Each does to the pair of
    objects exactly what the step functions of Stack do to a call, so what is proved of every run of
    steps holds of every sequence of these calls. */
module SipStack {
  import opened SessionState
  import opened SipTypes
  import opened Session
  import opened Stack
  import opened SipSessions
  import Runs
  import Answers

  class SipCall {
    const ingress: SipSession
    const egress: SipSession
    const flow: Flow
    const repeats: Repeats

    /** A session is linked to the other one or to none. */
    predicate Valid()
      reads this, ingress, egress
    {
      && ingress != egress
      && (ingress.linkedSession == null || ingress.linkedSession == egress)
      && (egress.linkedSession == null || egress.linkedSession == ingress)
    }

    function Snapshot(): Call
      reads this, ingress, egress
    {
      Call(ingress.Snapshot(), egress.Snapshot(), flow, repeats)
    }

    function LegAt(s: Side): (ss: SipSession)
      ensures ss == if s == Ingress then ingress else egress
    {
      if s == Ingress then ingress else egress
    }

    /** sessionGetter, sipStack and the router on the INVITE that creates the call. */
    constructor (v: FirstInvite, t: Target, m: Media, w: World)
      ensures Valid() && fresh(ingress) && fresh(egress)
      ensures Snapshot() == NewCall(v, t, m, w)
    {
      hide Route, Drop, RejectMe, Refusal, Suppressed, ExpectPRACK;
      ingress := new SipSession(INBOUND);
      egress := new SipSession(OUTBOUND);
      flow := if t.Record? then t.flow else Plain;
      repeats := if t.Record? then t.repeats else Repeats(false, false);
      new;
      ingress.AddTransaction(IncomingTx(Request(INVITE, v.cseq, v.branch, true, true, v.body, BadRAck), None));
      ingress.isPRACKSupported := v.supports100rel;
      ingress.SetState(BeingEstablished);
      egress.DropMe();
      assert ingress.Snapshot() == IngressOf(v);
      match Refusal(v) {
        case Some(code) =>
          ingress.Reject(Some(0), code, repeats, w.d);
        case None =>
          ingress.SendCreatedResponse(Some(0), Reply(100, NoBody), None, repeats, w.d);
          RouteRequest(v, t, m, w);
      }
    }

    // ----- routing

    /** RouteRequestInternal, and RouteRequestExternal when there is an application server. */
    method RouteRequest(v: FirstInvite, t: Target, m: Media, w: World)
      requires Valid() && |ingress.transactions| > 0 && egress.Snapshot() == Drop(NewLeg(OUTBOUND))
      modifies ingress, egress
      ensures Valid() && Snapshot() == Route(old(Snapshot()), v, t, m, w)
    {
      match t {
        case NoTarget => RejectFirst(404, w);
        case AppServer => CreateEgress(v.supports100rel, false, m, w);
        case Phone(registered, reachable, sdpLeft, sentBack) =>
          if !registered {
            RejectFirst(480, w);
          } else if !reachable {
            RejectFirst(604, w);
          } else if !sdpLeft {
            RejectFirst(488, w);
          } else {
            CreateEgress(sentBack && v.supports100rel, false, m, w);
          }
        case Record(rflow, noTimers, steersMedia, _) =>
          if rflow == Echo {
            AnswerEchoCall(v, m, w);
          } else if rflow == EarlyToFinal && !v.body.WithSDP? {
            RejectFirst(488, w);
          } else if noTimers {
            RejectFirst(503, w);
          } else {
            CreateEgress(rflow == Transparent && v.supports100rel, steersMedia, m, w);
          }
      }
    }

    method RejectFirst(code: Status, w: World)
      requires Valid() && |ingress.transactions| > 0
      modifies ingress
      ensures Valid() && Snapshot() == Turn(old(Snapshot()), code, w)
    {
      ingress.Reject(Some(0), code, repeats, w.d);
    }

    method AnswerEchoCall(v: FirstInvite, m: Media, w: World)
      requires Valid() && |ingress.transactions| > 0
      modifies ingress
      ensures Valid() && Snapshot() == AnswerEcho(old(Snapshot()), v, m, w)
    {
      if !v.body.WithSDP? || !m.sdpParses {
        RejectFirst(488, w);
      } else if !m.ingressPort {
        RejectFirst(503, w);
      } else if !m.answerBuilds {
        RejectFirst(500, w);
      } else {
        ingress.SendCreatedResponse(Some(0), Reply(180, NoBody), None, repeats, w.d);
      }
    }

    method CreateEgress(reliable: bool, steersMedia: bool, m: Media, w: World)
      requires Valid() && |ingress.transactions| > 0 && egress.Snapshot() == Drop(NewLeg(OUTBOUND))
      modifies ingress, egress
      ensures Valid() && Snapshot() == Link(old(Snapshot()), reliable, steersMedia, m, w)
    {
      hide SendNew, RejectMe;
      if steersMedia && !m.ingressPort {
        RejectFirst(503, w);
        return;
      }
      egress.isDisposed := false;
      egress.isPRACKSupported := reliable;
      egress.linkedSession := ingress;
      ingress.linkedSession := egress;
      if steersMedia && !m.egressPort {
        egress.DropMe();
        RejectFirst(503, w);
      } else {
        SendINVITE(w);
      }
    }

    method SendINVITE(w: World)
      requires Valid()
      modifies egress
      ensures Valid() && egress.linkedSession == old(egress.linkedSession)
      ensures egress.Snapshot() == SendNew(old(egress.Snapshot()), INVITE, None, false, w.d)
                                     .(state := BeingEstablished, transformEarlyToFinal := flow == EarlyToFinal)
    {
      egress.SendNewRequest(INVITE, None, false, w.d);
      egress.transformEarlyToFinal := flow == EarlyToFinal;
      egress.SetState(BeingEstablished);
    }

    // ----- what handlers share

    /** SendCreatedResponse on one leg. */
    method Respond(s: Side, trans: Option<nat>, code: Status, body: Body, w: World)
      requires Valid() && Has(Snapshot(), s, trans)
      modifies LegAt(s)
      ensures Valid() && Snapshot() == SendReply(old(Snapshot()), s, trans, code, body, w)
    {
      LegAt(s).SendCreatedResponse(trans, Reply(code, body), None, repeats, w.d);
    }

    /** Sends a request on the other leg that forwards transaction i of this one. */
    method ForwardRequest(s: Side, i: nat, m: Method, w: World)
      requires Valid() && i < |LegAt(s).transactions|
      modifies ingress, egress
      ensures Valid() && Snapshot() == Forward(old(Snapshot()), s, i, m, w)
    {
      var (ss, peer) := (LegAt(s), LegAt(Other(s)));
      var j := |peer.transactions|;
      peer.SendNewRequest(m, Some(i), false, w.d);
      ss.transactions := ss.transactions[i := ss.transactions[i].(link := Some(There(j)))];
    }

    /** ReleaseMe on the other leg; the BYE is linked to transaction i of this one. */
    method ReleaseOther(s: Side, i: Option<nat>, w: World)
      requires Valid() && Has(Snapshot(), s, i)
      modifies ingress, egress
      ensures Valid() && Snapshot() == ReleaseLinked(old(Snapshot()), s, i, w)
    {
      hide EnterAndBye;
      var (ss, peer) := (LegAt(s), LegAt(Other(s)));
      var j := |peer.transactions|;
      var released, completed := peer.Release(i, w.d);
      if released && completed && i.Some? {
        ss.transactions := ss.transactions[i.value := ss.transactions[i.value].(link := Some(There(j)))];
      }
    }

    method EnterAndSendBYE(s: Side, state: State, w: World) returns (completed: bool)
      requires Valid()
      modifies LegAt(s)
      ensures Valid() && Snapshot() == ByeAfter(old(Snapshot()), s, state, w)
      ensures completed == !ByeFails(old(At(Snapshot(), s)))
    {
      var ss := LegAt(s);
      ss.SetState(state);
      completed := ss.SendBYE(None, w.d);
    }

    /** ReleaseCall. */
    method ReleaseBoth(s: Side, w: World) returns (completed: bool)
      requires Valid()
      modifies ingress, egress
      ensures Valid() && (Snapshot(), completed) == ReleaseCall(old(Snapshot()), s, w)
    {
      var (ss, peer) := (LegAt(s), LegAt(Other(s)));
      if ss.state == Established {
        completed := EnterAndSendBYE(s, BeingDropped, w);
        if !completed {
          return false;
        }
      }
      completed := true;
      if ss.linkedSession != null && peer.state == Established {
        completed := EnterAndSendBYE(Other(s), BeingDropped, w);
      }
    }

    /** RerouteRequest on leg o. */
    method RerouteRequest(o: Side, code: Status, w: World)
      requires Valid()
      modifies LegAt(o)
      ensures Valid() && Snapshot() == Reroute(old(Snapshot()), o, code, w)
    {
      var ss := LegAt(o);
      var invite := ss.GetLastUnACKedINV(INBOUND);
      if invite.Some? && ss.state == BeingEstablished {
        ss.linkedSession := null;
        ss.Reject(invite, code, repeats, w.d);
      }
    }

    method DialogueChanged()
      requires Valid()
      modifies ingress, egress
      ensures Valid() && Snapshot() == OfferOver(old(Snapshot()))
    {
      var _ := ingress.CheckAndSetDialogueChanging(false);
      var _ := egress.CheckAndSetDialogueChanging(false);
    }

    // ----- requests

    /** sipStack on a request for an existing session. */
    method OnRequestMessage(s: Side, q: Request, w: World)
      requires Valid()
      modifies ingress, egress
      ensures Valid() && Snapshot() == OnRequest(old(Snapshot()), s, q, w)
    {
      var ss := LegAt(s);
      if ss.isDisposed {
        return;
      }
      var duplicate := ss.IsDuplicateRequestMessage(q);
      if duplicate {
        return;
      }
      if q.kind == BYE {
        StopWaitingForACK(s, w);
      }
      var trans := ss.TakeIncomingRequest(q);
      if trans.Some? {
        OnTransaction(s, trans.value, q, w);
      }
    }

    method StopWaitingForACK(s: Side, w: World)
      requires Valid()
      modifies ingress, egress
      ensures Valid() && Snapshot() == GiveUpWaitingForACK(old(Snapshot()), s, w)
    {
      var invite := LegAt(s).Find((t: Tx) => t.dir == INBOUND && t.kind == INVITE && t.isFinalized && !t.isACKed);
      if invite.Some? {
        OnInviteTimedOut(s, invite.value, w);
      }
    }

    method OnTransaction(s: Side, i: nat, q: Request, w: World)
      requires Valid() && i < |LegAt(s).transactions|
      modifies ingress, egress
      ensures Valid() && Snapshot() == HandleRequest(old(Snapshot()), s, i, q, w)
    {
      if q.body == UnknownParts {
        Respond(s, Some(i), 415, NoBody, w);
      } else if q.kind == ReINVITE {
        Respond(s, Some(i), 100, NoBody, w);
        OnOffer(s, i, q, w);
      } else if q.kind == UPDATE {
        if q.body == NoBody {
          Respond(s, Some(i), 200, NoBody, w);
        } else {
          OnOffer(s, i, q, w);
        }
      } else if q.kind == ACK {
        OnACK(s, i);
      } else if q.kind == CANCEL {
        OnCANCEL(s, i, w);
      } else if q.kind == BYE {
        OnBYE(s, i, w);
      } else if q.kind == PRACK {
        OnPRACK(s, i, w);
      } else {
        OnPlain(s, i, q, w);
      }
    }

    method OnPlain(s: Side, i: nat, q: Request, w: World)
      requires Valid() && i < |LegAt(s).transactions|
      modifies ingress, egress
      ensures Valid() && Snapshot() == HandlePlain(old(Snapshot()), s, i, q, w)
    {
      if q.kind == REFER {
        OnREFER(s, i, w);
      } else if q.kind == INFO {
        if LegAt(s).linkedSession != null {
          ForwardRequest(s, i, INFO, w);
        }
      } else if q.kind == NOTIFY {
        Respond(s, Some(i), 405, NoBody, w);
      } else if q.kind == OPTIONS {
        if q.outOfDialogue {
          EndSession(s, Probed, i, 200, w);
        } else {
          Respond(s, Some(i), 200, NoBody, w);
        }
      } else if q.kind == REGISTER {
        match w.registration {
          case BadContact => EndSession(s, Dropped, i, 400, w);
          case Expired => EndSession(s, Unregistered, i, 200, w);
          case Refreshed => EndSession(s, Registered, i, 200, w);
        }
      } else {
        EndSession(s, Dropped, i, 405, w);
      }
    }

    method EndSession(s: Side, state: State, i: nat, code: Status, w: World)
      requires Valid() && i < |LegAt(s).transactions|
      modifies LegAt(s)
      ensures Valid() && Snapshot() == End(old(Snapshot()), s, state, i, code, w)
    {
      LegAt(s).SetState(state);
      Respond(s, Some(i), code, NoBody, w);
      LegAt(s).DropMe();
    }

    method OnREFER(s: Side, i: nat, w: World)
      requires Valid() && i < |LegAt(s).transactions|
      modifies LegAt(s)
      ensures Valid() && Snapshot() == HandleRefer(old(Snapshot()), s, i, w)
    {
      var (ss, peer) := (LegAt(s), LegAt(Other(s)));
      if ss.state != Established {
        Respond(s, Some(i), 480, NoBody, w);
      } else if ss.linkedSession == null {
        return;
      } else if peer.state != Established {
        Respond(s, Some(i), 480, NoBody, w);
      } else {
        Respond(s, Some(i), if w.referOk then 200 else 400, NoBody, w);
      }
    }

    /** The part that re-INVITE and UPDATE share. */
    method OnOffer(s: Side, i: nat, q: Request, w: World)
      requires Valid() && i < |LegAt(s).transactions|
      modifies ingress, egress
      ensures Valid() && Snapshot() == HandleOffer(old(Snapshot()), s, i, q, w)
    {
      var (ss, peer) := (LegAt(s), LegAt(Other(s)));
      if ss.linkedSession == null {
        if q.body.WithSDP? {
          Respond(s, Some(i), w.answer, if w.answer == 200 then q.body else NoBody, w);
        } else {
          Respond(s, Some(i), 488, NoBody, w);
        }
        return;
      }
      var changed := ss.CheckAndSetDialogueChanging(true);
      if !changed || peer.dialogueChanging {
        Respond(s, Some(i), 491, NoBody, w);
        return;
      }
      if q.kind == ReINVITE && peer.transformEarlyToFinal {
        if q.body.WithSDP? {
          ForwardRequest(s, i, UPDATE, w);
        } else {
          Respond(s, Some(i), 488, NoBody, w);
        }
        return;
      }
      ForwardRequest(s, i, q.kind, w);
    }

    method OnACK(s: Side, i: nat)
      requires Valid() && i < |LegAt(s).transactions|
      modifies ingress, egress
      ensures Valid() && Snapshot() == HandleACK(old(Snapshot()), s, i)
    {
      if LegAt(s).transactions[i].kind == INVITE {
        LegAt(s).FinalizeState();
        RelayACK(s);
      } else {
        OnOfferACK(s, i);
      }
    }

    method RelayACK(s: Side)
      requires Valid()
      modifies ingress, egress
      ensures Valid() && Snapshot() == PropagateACK(old(Snapshot()), s)
    {
      var (ss, peer) := (LegAt(s), LegAt(Other(s)));
      if ss.state != Established {
        ss.DropMe();
      } else if ss.linkedSession != null && !peer.transformEarlyToFinal {
        peer.FinalizeState();
        peer.SendACK(None);
      }
    }

    method OnOfferACK(s: Side, i: nat)
      requires Valid() && i < |LegAt(s).transactions|
      modifies ingress, egress
      ensures Valid() && Snapshot() == HandleOfferACK(old(Snapshot()), s, i)
    {
      var (ss, peer) := (LegAt(s), LegAt(Other(s)));
      if ss.linkedSession != null && LinkOf(Snapshot(), s, i, Other(s)) {
        var j := ss.transactions[i].link.value.j;
        if peer.transactions[j].AnyPositive() {
          DialogueChanged();
        }
        if !peer.transformEarlyToFinal {
          peer.SendACK(Some(j));
        }
      }
    }

    method OnCANCEL(s: Side, i: nat, w: World)
      requires Valid() && i < |LegAt(s).transactions|
      modifies ingress, egress
      ensures Valid() && Snapshot() == HandleCancel(old(Snapshot()), s, i, w)
    {
      var ss := LegAt(s);
      if ss.state != BeingEstablished {
        Respond(s, Some(i), 400, NoBody, w);
        return;
      }
      ss.SetState(BeingCancelled);
      Respond(s, Some(i), 200, NoBody, w);
      CancelOther(s, w);
    }

    method CancelOther(s: Side, w: World)
      requires Valid()
      modifies ingress, egress
      ensures Valid() && Snapshot() == CancelPeer(old(Snapshot()), s, w)
    {
      var (ss, peer) := (LegAt(s), LegAt(Other(s)));
      if ss.linkedSession != null {
        if peer.state == Established {
          ReleaseOther(s, None, w);
          return;
        }
        peer.Cancel();
      }
      Respond(s, None, 487, NoBody, w);
    }

    method OnBYE(s: Side, i: nat, w: World)
      requires Valid() && i < |LegAt(s).transactions|
      modifies ingress, egress
      ensures Valid() && Snapshot() == HandleBye(old(Snapshot()), s, i, w)
    {
      if LegAt(s).state != Established {
        Respond(s, Some(i), 400, NoBody, w);
        return;
      }
      EndSession(s, Cleared, i, 200, w);
      ByeOther(s, i, w);
    }

    method ByeOther(s: Side, i: nat, w: World)
      requires Valid() && i < |LegAt(s).transactions|
      modifies ingress, egress
      ensures Valid() && Snapshot() == ByePeer(old(Snapshot()), s, i, w)
    {
      var (ss, peer) := (LegAt(s), LegAt(Other(s)));
      if ss.linkedSession != null {
        if peer.state == Established {
          ReleaseOther(s, Some(i), w);
          return;
        }
        peer.Cancel();
      }
    }

    method OnPRACK(s: Side, i: nat, w: World)
      requires Valid() && i < |LegAt(s).transactions|
      modifies ingress, egress
      ensures Valid() && Snapshot() == HandlePrack(old(Snapshot()), s, i, w)
    {
      var (ss, peer) := (LegAt(s), LegAt(Other(s)));
      if ss.transactions[i].prack != PRACKExpected {
        Respond(s, Some(i), 400, NoBody, w);
        return;
      }
      Respond(s, Some(i), 200, NoBody, w);
      if ss.linkedSession != null && LinkOf(Snapshot(), s, i, Other(s)) {
        var j := ss.transactions[i].link.value.j;
        if peer.transactions[j].kind == PRACK {
          peer.SendPRACK(j, w.d);
        }
      }
    }

    // ----- responses

    /** sipStack on a response. */
    method OnResponseMessage(s: Side, r: Response, w: World)
      requires Valid()
      modifies ingress, egress
      ensures Valid() && Snapshot() == OnResponse(old(Snapshot()), s, r, w)
    {
      var ss := LegAt(s);
      if ss.isDisposed {
        return;
      }
      var duplicate := ss.IsDuplicateResponseMessage(r);
      if duplicate {
        return;
      }
      var trans := ss.TakeIncomingResponse(r);
      if trans.Some? {
        OnAnsweredTransaction(s, trans.value, r, w);
      }
    }

    method OnAnsweredTransaction(s: Side, i: nat, r: Response, w: World)
      requires Valid() && i < |LegAt(s).transactions|
      modifies ingress, egress
      ensures Valid() && Snapshot() == HandleResponse(old(Snapshot()), s, i, r, w)
    {
      var ss := LegAt(s);
      var kind := ss.transactions[i].kind;
      if r.code <= 199 && kind != INVITE {
        return;
      }
      if ss.linkedSession == null {
        if IsPositive(r.code) && kind == BYE {
          ss.FinalizeState();
          ss.DropMe();
        }
      } else if Is18x(r.code) {
        On18xResponse(s, r, w);
      } else if r.code <= 199 {
        return;
      } else if r.code <= 299 {
        OnPositiveResponse(s, i, r, w);
      } else if r.code <= 399 {
        OnRedirectResponse(s, kind, r, w);
      } else {
        OnFailureResponse(s, i, r, w);
      }
    }

    method On18xResponse(s: Side, r: Response, w: World)
      requires Valid()
      modifies ingress, egress
      ensures Valid() && Snapshot() == On18x(old(Snapshot()), s, r, w)
    {
      var (ss, peer, o) := (LegAt(s), LegAt(Other(s)), Other(s));
      if ss.state != BeingEstablished {
        return;
      }
      if ss.transformEarlyToFinal {
        if !ss.received18xSDP {
          if r.body.WithSDP? {
            ss.received18xSDP := true;
            Respond(o, None, 200, r.body, w);
          } else {
            Respond(o, None, r.code, NoBody, w);
          }
        }
        return;
      }
      var owed := None;
      if r.require100rel {
        owed := Some(|ss.transactions|);
        ss.GenerateOutgoingPRACKST(r.rseq);
      }
      if peer.state == BeingEstablished {
        Relay18xResponse(o, Reply(r.code, r.body), owed, w);
      }
    }

    method Relay18xResponse(o: Side, r: Reply, owed: Option<nat>, w: World)
      requires Valid() && Has(Snapshot(), Other(o), owed)
      modifies ingress, egress
      ensures Valid() && Snapshot() == Relay18x(old(Snapshot()), o, r, owed, w)
    {
      var (peer, ss) := (LegAt(o), LegAt(Other(o)));
      var j := |peer.transactions|;
      peer.SendCreatedResponse(None, r, owed, repeats, w.d);
      if owed.Some? && |peer.transactions| > j {
        ss.transactions := ss.transactions[owed.value := ss.transactions[owed.value].(link := Some(There(j)))];
      }
    }

    method RelayToOffer(s: Side, i: nat, r: Response, w: World)
      requires Valid() && i < |LegAt(s).transactions|
      modifies LegAt(Other(s))
      ensures Valid() && Snapshot() == RelayBack(old(Snapshot()), s, i, r, w)
    {
      if LinkOf(Snapshot(), s, i, Other(s)) {
        Respond(Other(s), Some(LegAt(s).transactions[i].link.value.j), r.code, r.body, w);
      } else {
        Respond(Other(s), None, r.code, r.body, w);
      }
    }

    method OnPositiveResponse(s: Side, i: nat, r: Response, w: World)
      requires Valid() && i < |LegAt(s).transactions|
      modifies ingress, egress
      ensures Valid() && Snapshot() == OnPositive(old(Snapshot()), s, i, r, w)
    {
      var ss := LegAt(s);
      var kind := ss.transactions[i].kind;
      if kind == INVITE {
        OnInviteAnswered(s, r, w);
      } else if kind == UPDATE {
        DialogueChanged();
        RelayToOffer(s, i, r, w);
      } else if kind == ReINVITE {
        RelayToOffer(s, i, r, w);
      } else if kind == BYE {
        ss.FinalizeState();
        ss.DropMe();
      }
    }

    method OnInviteAnswered(s: Side, r: Response, w: World)
      requires Valid()
      modifies ingress, egress
      ensures Valid() && Snapshot() == InviteAnswered(old(Snapshot()), s, r, w)
    {
      hide SendBye, SendAck, Answer;
      var ss := LegAt(s);
      if ss.state != BeingEstablished {
        ss.SendACK(None);
        var _ := ss.SendBYE(None, w.d);
        return;
      }
      if ss.transformEarlyToFinal {
        ss.transformEarlyToFinal := false;
        if ss.received18xSDP {
          ss.FinalizeState();
          ss.SendACK(None);
          return;
        }
      }
      Respond(Other(s), None, r.code, r.body, w);
    }

    method OnRedirectResponse(s: Side, kind: Method, r: Response, w: World)
      requires Valid()
      modifies ingress, egress
      ensures Valid() && Snapshot() == OnRedirect(old(Snapshot()), s, kind, r, w)
    {
      hide SendBye;
      var ss := LegAt(s);
      if kind == INVITE {
        ss.Ack3xxTo6xx(Redirected);
        RerouteRequest(Other(s), r.code, w);
      } else if kind == CANCEL || kind == BYE {
        ss.DropMe();
      } else {
        ss.FinalizeState();
        var _ := ReleaseBoth(s, w);
      }
    }

    method OnFailureResponse(s: Side, i: nat, r: Response, w: World)
      requires Valid() && i < |LegAt(s).transactions|
      modifies ingress, egress
      ensures Valid() && Snapshot() == OnFailure(old(Snapshot()), s, i, r, w)
    {
      var ss := LegAt(s);
      var t := ss.transactions[i];
      if t.kind == INVITE {
        if ss.state == BeingEstablished {
          OnInviteFailed(s, r, w);
        } else if ss.state == BeingCancelled {
          ss.Ack3xxTo6xx(FinalizeMe(ss.state));
        }
      } else if t.kind.CarriesOffer() {
        RelayToOffer(s, i, r, w);
      } else if t.kind == BYE {
        ss.FinalizeState();
        ss.DropMe();
      } else if t.kind == OPTIONS && t.isProbing && (r.code == 408 || r.code == 481) {
        var _ := ReleaseBoth(s, w);
      }
    }

    method OnInviteFailed(s: Side, r: Response, w: World)
      requires Valid()
      modifies ingress, egress
      ensures Valid() && Snapshot() == InviteFailed(old(Snapshot()), s, r, w)
    {
      hide FailCaller, Reroute;
      var (ss, o) := (LegAt(s), Other(s));
      ss.Ack3xxTo6xx(Rejected);
      if !ss.transformEarlyToFinal {
        RerouteRequest(o, r.code, w);
        return;
      }
      ss.transformEarlyToFinal := false;
      FailOther(s, r, w);
    }

    method FailOther(s: Side, r: Response, w: World)
      requires Valid()
      modifies ingress, egress
      ensures Valid() && Snapshot() == FailCaller(old(Snapshot()), s, r, w)
    {
      var peer := LegAt(Other(s));
      if peer.state == Established {
        ReleaseOther(s, None, w);
      } else {
        peer.Reject(None, r.code, repeats, w.d);
      }
    }

    // ----- timers

    /** CheckPendingTransaction. */
    method OnTransactionTimedOut(s: Side, i: nat, w: World)
      requires Valid() && i < |LegAt(s).transactions|
      modifies ingress, egress
      ensures Valid() && Snapshot() == OnTimeout(old(Snapshot()), s, i, w)
    {
      hide ReleaseCall, OnInDialogueTimeout;
      var ss := LegAt(s);
      var t := ss.transactions[i];
      if t.kind == OPTIONS {
        if ss.direction == INBOUND && t.dir == OUTBOUND && t.isProbing {
          var _ := ReleaseBoth(s, w);
        }
      } else if t.kind == INVITE {
        OnInviteTimedOut(s, i, w);
      } else if t.kind == CANCEL || t.kind == BYE {
        ss.FinalizeState();
        ss.DropMe();
      } else if t.kind == PRACK {
        if ss.linkedSession != null {
          RerouteRequest(Other(s), 408, w);
        }
        ss.SetState(Failed);
        ss.DropMe();
      } else {
        OnInDialogueTimedOut(s, w);
      }
    }

    method OnInDialogueTimedOut(s: Side, w: World)
      requires Valid()
      modifies ingress, egress
      ensures Valid() && Snapshot() == OnInDialogueTimeout(old(Snapshot()), s, w)
    {
      var (ss, peer) := (LegAt(s), LegAt(Other(s)));
      var (s1, linked, s2) := (ss.state == Established, ss.linkedSession != null, peer.state == Established);
      var completed := ReleaseBoth(s, w);
      if completed {
        if !s1 {
          ss.DropMe();
        }
        if linked && !s2 {
          peer.DropMe();
        }
      }
    }

    method OnInviteTimedOut(s: Side, i: nat, w: World)
      requires Valid() && i < |LegAt(s).transactions|
      modifies ingress, egress
      ensures Valid() && Snapshot() == OnInviteTimeout(old(Snapshot()), s, i, w)
    {
      var ss := LegAt(s);
      var d := ss.transactions[i].dir;
      if IsPending(ss.state) {
        ss.SetState(TimedOut);
        ss.DropMe();
      }
      TellOther(s, d, w);
    }

    method TellOther(s: Side, d: Direction, w: World)
      requires Valid()
      modifies ingress, egress
      ensures Valid() && Snapshot() == TellPeer(old(Snapshot()), s, d, w)
    {
      var (ss, peer, o) := (LegAt(s), LegAt(Other(s)), Other(s));
      if ss.linkedSession == null {
        return;
      }
      if d == OUTBOUND {
        RerouteRequest(o, 408, w);
      } else if peer.direction == OUTBOUND {
        if peer.state == BeingEstablished && |peer.transactions| > 0 && peer.transactions[0].AnyPositive() {
          peer.SendACK(None);
          var _ := EnterAndSendBYE(o, BeingDropped, w);
          return;
        }
        peer.Cancel();
      }
    }

    /** timerHandler. */
    method OnNoProgressTimer(w: World)
      requires Valid()
      modifies ingress, egress
      ensures Valid() && Snapshot() == OnNoProgress(old(Snapshot()), w)
    {
      egress.Cancel();
      RerouteRequest(Ingress, 487, w);
    }

    // ----- every event

    /** Whatever happens next to the call. */
    method Happens(e: Event)
      requires Valid()
      modifies ingress, egress
      ensures Valid() && Snapshot() == Step(old(Snapshot()), e)
    {
      hide OnRequest, OnResponse, OnTimeout, OnNoProgress, ReleaseCall, SendNew;
      match e {
        case RequestIn(s, q, w) => OnRequestMessage(s, q, w);
        case ResponseIn(s, r, w) => OnResponseMessage(s, r, w);
        case TransactionTimeout(s, i, w) =>
          if i < |LegAt(s).transactions| && CanTimeOut(LegAt(s).transactions[i]) {
            OnTransactionTimedOut(s, i, w);
          }
        case NoProgress(w) =>
          if CanLackProgress(egress.Snapshot()) {
            OnNoProgressTimer(w);
          }
        case CancelTimeout =>
          if AwaitsCancelledInvite(egress.Snapshot()) && IsPending(egress.state) {
            egress.FinalizeState();
            egress.DropMe();
          }
        case TimedDrop(s) =>
          if Phase(LegAt(s).state) == 4 {
            LegAt(s).DropMe();
          }
        case MaxDuration(w) =>
          if !ingress.isDisposed {
            var _ := ReleaseBoth(Ingress, w);
          }
        case ProbeTick(w) =>
          if !ingress.isDisposed && ingress.state == Established {
            ingress.SendNewRequest(OPTIONS, None, true, w.d);
          }
        case EchoAnswer(body, w) =>
          if flow == Echo && ingress.state == BeingEstablished && |ingress.transactions| > 0 {
            Respond(Ingress, Some(0), 200, body, w);
          }
      }
    }
  }

  /** A whole call: created by its INVITE, then driven by the events of a run. */
  method Drive(v: FirstInvite, t: Target, m: Media, w: World, es: seq<Event>) returns (call: SipCall)
    ensures fresh(call) && call.Valid() && call.Snapshot() == Run(NewCall(v, t, m, w), es)
    ensures (t.Record? ==> t.flow in {Plain, Transparent}) && call.ingress.state == Established ==>
              && call.egress.transactions != [] && call.egress.transactions[0].AnyPositive()
              && Phase(call.egress.state) >= Phase(Established)
  {
    hide Step, NewCall;
    call := new SipCall(v, t, m, w);
    for n := 0 to |es|
      invariant call.Valid() && fresh(call.ingress) && fresh(call.egress)
      invariant call.Snapshot() == Run(NewCall(v, t, m, w), es[..n])
    {
      assert es[..n + 1][..n] == es[..n];
      call.Happens(es[n]);
    }
    assert es[..|es|] == es;
    if t.Record? ==> t.flow in {Plain, Transparent} {
      Answers.CallerOnlyAnsweredByPeer(v, t, m, w, es);
      assert call.Snapshot() == Runs.After(v, t, m, w, es);
    }
  }
}
