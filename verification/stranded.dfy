/** When a call that is being set up is left with one leg: from two waiting and linked legs, exactly which messages
    and timers end one and leave the other waiting. */
module Stranded {
  import opened SessionState
  import opened SipTypes
  import opened Evolution
  import opened Session
  import opened Stack
  import opened CallKeeps
  import opened Offers
  import opened Runs
  import opened Changes
  import opened Refusals
  import opened Responses
  import opened Hangups
  import opened Lapses
  import opened Requests
  import opened Acks
  import opened Ringing

  predicate BothWait(c: Call) {
    && c.ingress.state == BeingEstablished && !c.ingress.disposed && c.ingress.linked
    && c.egress.state == BeingEstablished && !c.egress.disposed && c.egress.linked
  }

  /** The leg is being ended, has ended, or is dropped. */
  predicate Over(l: Leg) { l.disposed || l.state !in {NotSet, BeingEstablished, Established} }

  predicate OneOver(c: Call) { Over(c.ingress) != Over(c.egress) }

  lemma NoneOver(c: Call)
    requires BothWait(c)
    ensures !OneOver(c)
  {
  }

  // ----- the condition

  /** A request that ends the leg it comes to, and that leg alone: those that belong outside a dialogue, and a CANCEL
      that comes from the called party. */
  predicate StrandsByRequest(l: Leg, s: Side, q: Request) {
    && IsNew(l, q) && q.body != UnknownParts
    && (|| q.kind in {REGISTER, SUBSCRIBE, MESSAGE, PUBLISH, NEGOTIATE}
        || (q.kind == OPTIONS && q.outOfDialogue)
        || (q.kind == CANCEL && s == Egress &&
            forall i :: 0 <= i < |l.txs| && Cancellable(l.txs[i], q.cseq)
                        && (forall k :: 0 <= k < i ==> !Cancellable(l.txs[k], q.cseq)) ==>
              l.txs[i].branch == q.branch))
  }

  /** A response that does so: a redirection of anything but the INVITE and the CANCEL, the end of a BYE; and a
      failure of the INVITE once the caller sent the ACK for an earlier answer, with a body that was not understood,
      unless the call was to be answered early. */
  predicate StrandsByResponse(c: Call, t: Tx, r: Response) {
    || (t.kind == BYE && r.code >= 200)
    || (t.kind !in {INVITE, CANCEL} && 300 <= r.code <= 399)
    || (t.kind == INVITE && r.code >= 300 && !UnACKed(c.ingress)
        && (r.code <= 399 || !c.egress.transformEarlyToFinal))
  }

  /** A lapse that does so. */
  predicate StrandsByLapse(c: Call, s: Side, t: Tx) {
    && InVain(t)
    && (|| t.kind == BYE || (t.kind == PRACK && s == Ingress)
        || (s == Egress && t.kind in {INVITE, PRACK} && !UnACKed(c.ingress)))
  }

  predicate Strands(c: Call, e: Event) {
    match e
    case RequestIn(s, q, _) => StrandsByRequest(At(c, s), s, q)
    case ResponseIn(s, r, _) =>
      exists i :: 0 <= i < |At(c, s).txs| && Answers(At(c, s), r, i) && StrandsByResponse(c, At(c, s).txs[i], r)
    case TransactionTimeout(s, i, _) => i < |At(c, s).txs| && StrandsByLapse(c, s, At(c, s).txs[i])
    case NoProgress(_) => !WasAnswered(c.egress) && !UnACKed(c.ingress)
    case _ => false
  }

  lemma GivenUpIsOver(l: Leg)
    requires l.state == BeingEstablished
    ensures GivenUp(l).state == BeingCancelled
  {
  }

  lemma ToldSame(l: Leg, r: Reply)
    ensures Told(l, r) == l.(txs := Told(l, r).txs)
  {
  }

  // ----- requests

  lemma ByCallersCancel(c: Call, q: Request, i: Option<nat>, w: World)
    requires SoundCall(c) && BothWait(c) && TakesCancel(c.ingress, q, i) && q.body != UnknownParts
    ensures !OneOver(Step(c, RequestIn(Ingress, q, w)))
  {
    hide Step, TakesCancel, Cancelling, HangsUp, IsFor, IsNew, GivenUp, Told;
    var l := c.ingress.(state := BeingCancelled, txs := c.ingress.txs + [Cancelling(q, i, 200)]);
    CallerCancels(c, q, i, w);
    GivenUpIsOver(c.egress);
    ToldSame(l, Bare(487));
  }

  lemma ByCalleesCancel(c: Call, q: Request, i: Option<nat>, w: World)
    requires SoundCall(c) && BothWait(c) && TakesCancel(c.egress, q, i) && q.body != UnknownParts
    ensures OneOver(Step(c, RequestIn(Egress, q, w)))
  {
    hide Step, TakesCancel, Cancelling, HangsUp, IsFor, IsNew;
    CalleeCancels(c, q, i, w);
  }

  lemma ByRefusedCancel(c: Call, s: Side, q: Request, i: Option<nat>, w: World)
    requires BothWait(c) && TakesCancel(At(c, s), q, i) && q.body == UnknownParts
    ensures !OneOver(Step(c, RequestIn(s, q, w)))
  {
    hide Step, TakesCancel, Cancelling, IsFor, IsNew;
    CancelRefused(c, s, q, i, w);
  }

  /** The CANCEL of the condition is the one that is taken. */
  lemma CancelCondition(l: Leg, s: Side, q: Request, i: Option<nat>)
    requires IsNew(l, q) && q.kind == CANCEL && IsFor(l, q, i)
    ensures StrandsByRequest(l, s, q) <==>
            q.body != UnknownParts && s == Egress && (i.Some? ==> l.txs[i.value].branch == q.branch)
  {
    hide IsNew;
  }

  lemma ByCancel(c: Call, s: Side, q: Request, w: World)
    requires SoundCall(c) && BothWait(c) && IsNew(At(c, s), q) && q.kind == CANCEL
    ensures OneOver(Step(c, RequestIn(s, q, w))) <==> StrandsByRequest(At(c, s), s, q)
  {
    hide Step, IsNew, StrandsByRequest, OneOver, SoundCall;
    var l := At(c, s);
    var i := ReOrInvite(l, q.cseq, false);
    assert forall k :: 0 <= k < |l.txs| ==> (Cancellable(l.txs[k], q.cseq) <==> IsReOrInvite(l.txs[k], q.cseq, false));
    assert IsFor(l, q, i);
    CancelCondition(l, s, q, i);
    if i.Some? && l.txs[i.value].branch != q.branch {
      CancelIgnored(c, s, q, i.value, w);
      NoneOver(c);
    } else if q.body == UnknownParts {
      ByRefusedCancel(c, s, q, i, w);
    } else if s == Ingress {
      ByCallersCancel(c, q, i, w);
    } else {
      ByCalleesCancel(c, q, i, w);
    }
  }

  lemma ByBye(c: Call, s: Side, q: Request, w: World)
    requires SoundCall(c) && BothWait(c) && IsNew(At(c, s), q) && q.kind == BYE
    ensures !OneOver(Step(c, RequestIn(s, q, w)))
  {
    hide Step;
    if s == Ingress {
      CallerHangsUp(c, q, w);
    } else {
      CalleeHangsUp(c, q, w);
    }
  }

  lemma ByCallersACK(c: Call, q: Request, w: World)
    requires SoundCall(c) && BothWait(c) && Acks.TakesACK(c.ingress, q, 0) && q.body != UnknownParts
    ensures !OneOver(Step(c, RequestIn(Ingress, q, w)))
  {
    hide Step, Acknowledges;
    CallerAcknowledges(c, q, w);
    if !c.egress.transformEarlyToFinal {
      AcknowledgedSame(c.egress.(state := Established), Step(c, RequestIn(Ingress, q, w)).egress);
    }
  }

  lemma ByACK(c: Call, s: Side, q: Request, w: World)
    requires SoundCall(c) && BothWait(c) && IsNew(At(c, s), q) && q.kind == ACK
    ensures !OneOver(Step(c, RequestIn(s, q, w)))
  {
    hide Step;
    if i: nat :| Acks.TakesACK(At(c, s), q, i) {
      if q.body == UnknownParts {
        ACKWithUnknownBody(c, s, q, i, w);
      } else if At(c, s).txs[i].kind == INVITE {
        ByCallersACK(c, q, w);
      } else {
        OfferAcknowledged(c, s, q, i, w);
      }
    } else {
      ACKIgnored(c, s, q, w);
    }
  }

  lemma ByPRACK(c: Call, s: Side, q: Request, w: World)
    requires SoundCall(c) && BothWait(c) && IsNew(At(c, s), q) && q.kind == PRACK
    ensures !OneOver(Step(c, RequestIn(s, q, w)))
  {
    hide Step;
    var l := At(c, s);
    var i := if q.rack.RAck? then PrackFor(l, q.rack.rseq) else None;
    if i.None? {
      PRACKUnawaited(c, s, q, w);
    } else if q.body == UnknownParts || l.txs[i.value].prack != PRACKExpected {
      PRACKRefused(c, s, q, i.value, w);
    } else {
      PRACKAwaited(c, s, q, i.value, w);
    }
  }

  lemma ByOffer(c: Call, s: Side, q: Request, w: World)
    requires BothWait(c) && IsNew(At(c, s), q) && IsOffer(q)
    ensures !OneOver(Step(c, RequestIn(s, q, w)))
  {
    hide Step, Came, IsNew;
    OfferWithPeer(c, s, q, w);
  }

  lemma ByListed(c: Call, s: Side, q: Request, w: World)
    requires SoundCall(c) && BothWait(c) && IsNew(At(c, s), q) && Listed(q)
    ensures OneOver(Step(c, RequestIn(s, q, w))) <==> StrandsByRequest(At(c, s), s, q)
  {
    hide Step;
    if LocalAnswer(c, s, q, w).Some? {
      AnsweredLocally(c, s, q, w);
    } else if Ending(q, w).Some? {
      EndsItsOwnLeg(c, s, q, w);
    } else if q.kind == INFO {
      InfoForwarded(c, s, q, w);
    } else {
      ByOffer(c, s, q, w);
    }
  }

  lemma ByRequest(c: Call, s: Side, q: Request, w: World)
    requires SoundCall(c) && BothWait(c)
    ensures OneOver(Step(c, RequestIn(s, q, w))) <==> StrandsByRequest(At(c, s), s, q)
  {
    hide Step;
    if !IsNew(At(c, s), q) {
      RepeatedIgnored(c, s, q, w);
    } else if q.kind == CANCEL {
      ByCancel(c, s, q, w);
    } else if q.kind == BYE {
      ByBye(c, s, q, w);
    } else if q.kind == ACK {
      ByACK(c, s, q, w);
    } else if q.kind == PRACK {
      ByPRACK(c, s, q, w);
    } else {
      ByListed(c, s, q, w);
    }
  }

  // ----- responses

  lemma ByRefusal(c: Call, r: Response, w: World)
    requires SoundCall(c) && BothWait(c) && Answers(c.egress, r, 0) && r.code >= 300
    ensures OneOver(Step(c, ResponseIn(Egress, r, w))) <==> StrandsByResponse(c, c.egress.txs[0], r)
  {
    hide Step, Acknowledges, Answers, HangsUp, Gains;
    InviteRefused(c, r, w);
    AcknowledgedSame(Refusing(c.egress, r), Step(c, ResponseIn(Egress, r, w)).egress);
  }

  lemma ByAnswer(c: Call, r: Response, w: World)
    requires SoundCall(c) && BothWait(c) && Answers(c.egress, r, 0) && IsPositive(r.code)
    ensures !OneOver(Step(c, ResponseIn(Egress, r, w)))
  {
    hide Step, Acknowledges, Answers, Gains;
    InviteIsAnswered(c, r, w);
    if c.egress.transformEarlyToFinal && c.egress.received18xSDP {
      AcknowledgedSame(Recording(c, Egress, 0, r).egress.(transformEarlyToFinal := false, state := Established),
                       Step(c, ResponseIn(Egress, r, w)).egress);
    }
  }

  lemma ByInviteResponse(c: Call, r: Response, w: World)
    requires SoundCall(c) && BothWait(c) && Answers(c.egress, r, 0)
    ensures OneOver(Step(c, ResponseIn(Egress, r, w))) <==> StrandsByResponse(c, c.egress.txs[0], r)
  {
    hide Step, Answers, Gains;
    if r.code >= 300 {
      ByRefusal(c, r, w);
    } else if r.code >= 200 {
      ByAnswer(c, r, w);
    } else if !Is18x(r.code) {
      RecordedOnly(c, Egress, r, 0, w);
    } else if c.egress.transformEarlyToFinal {
      RingsEarly(c, r, w);
    } else if r.require100rel {
      RingsReliably(c, r, w);
    } else {
      RingsPlainly(c, r, w);
    }
  }

  lemma ByRelease(c: Call, s: Side, r: Response, i: nat, w: World)
    requires SoundCall(c) && BothWait(c) && Answers(At(c, s), r, i) && Releases(At(c, s).txs[i], r)
    ensures OneOver(Step(c, ResponseIn(s, r, w))) <==> r.code <= 399
  {
    hide Step, Gains, HangsUp;
    var d := Step(c, ResponseIn(s, r, w));
    var l := At(Recording(c, s, i, r), s).(state := Established);
    ReleasedByResponse(c, s, r, i, w);
    if r.code <= 399 {
      HungUpSame(l, At(d, s), BeingDropped, None, w.d);
    }
  }

  lemma ByOfferAnswer(c: Call, s: Side, r: Response, i: nat, w: World)
    requires SoundCall(c) && BothWait(c) && Answers(At(c, s), r, i) && At(c, s).txs[i].kind in {ReINVITE, UPDATE}
    requires r.code >= 200 && !(300 <= r.code <= 399)
    ensures !OneOver(Step(c, ResponseIn(s, r, w)))
  {
    hide Step, Gains;
    OfferAnswered(c, s, r, i, w);
  }

  lemma ByResponse(c: Call, s: Side, r: Response, i: nat, w: World)
    requires SoundCall(c) && BothWait(c) && Answers(At(c, s), r, i)
    ensures OneOver(Step(c, ResponseIn(s, r, w))) <==> StrandsByResponse(c, At(c, s).txs[i], r)
  {
    hide Step, Gains, HangsUp;
    var t := At(c, s).txs[i];
    if t.kind == INVITE {
      assert s == Egress && i == 0;
      ByInviteResponse(c, r, w);
    } else if t.kind == BYE {
      ByeAnswered(c, s, r, i, w);
    } else if OnlyRecorded(At(c, s), t, r) {
      RecordedOnly(c, s, r, i, w);
    } else if Releases(t, r) {
      ByRelease(c, s, r, i, w);
    } else {
      ByOfferAnswer(c, s, r, i, w);
    }
  }

  // ----- timers

  lemma ByInviteLapse(c: Call, s: Side, i: nat, w: World)
    requires SoundCall(c) && BothWait(c) && i < |At(c, s).txs| && InVain(At(c, s).txs[i])
    requires At(c, s).txs[i].kind == INVITE
    ensures OneOver(Step(c, TransactionTimeout(s, i, w))) <==> s == Egress && !UnACKed(c.ingress)
  {
    hide Step, HangsUp, Gains, Acknowledges;
    if s == Ingress {
      ACKLapses(c, w);
      var b' := Step(c, TransactionTimeout(Ingress, 0, w)).egress;
      if WasAnswered(c.egress) {
        var m :| Acknowledges(c.egress, m) && HangsUp(m, b', BeingDropped, None, w.d);
        HungUpSame(m, b', BeingDropped, None, w.d);
      }
    } else {
      InviteUnanswered(c, w);
    }
  }

  lemma ByProbeLapse(c: Call, s: Side, i: nat, w: World)
    requires SoundCall(c) && BothWait(c) && i < |At(c, s).txs| && InVain(At(c, s).txs[i])
    requires At(c, s).txs[i].kind == OPTIONS
    ensures !OneOver(Step(c, TransactionTimeout(s, i, w)))
  {
    hide Step, HangsUp, InVain, HeldUp;
    ProbeLapses(c, s, i, w);
  }

  lemma ByEnding(c: Call, s: Side, i: nat, w: World)
    requires BothWait(c) && i < |At(c, s).txs| && InVain(At(c, s).txs[i]) && At(c, s).txs[i].kind == BYE
    ensures OneOver(Step(c, TransactionTimeout(s, i, w)))
  {
    hide Step, InVain;
    EndingLapses(c, s, i, w);
  }

  lemma ByPrackLapse(c: Call, s: Side, i: nat, w: World)
    requires SoundCall(c) && BothWait(c) && i < |At(c, s).txs| && InVain(At(c, s).txs[i])
    requires At(c, s).txs[i].kind == PRACK
    ensures OneOver(Step(c, TransactionTimeout(s, i, w))) <==> s == Ingress || !UnACKed(c.ingress)
  {
    hide Step, Gains;
    PrackUnanswered(c, s, i, w);
  }

  lemma ByDialogueLapse(c: Call, s: Side, i: nat, w: World)
    requires BothWait(c) && i < |At(c, s).txs| && InVain(At(c, s).txs[i])
    requires At(c, s).txs[i].kind !in {INVITE, CANCEL, BYE, OPTIONS, PRACK}
    ensures !OneOver(Step(c, TransactionTimeout(s, i, w)))
  {
    hide Step, HangsUp, InVain, HeldUp;
    DialogueLapses(c, s, i, w);
  }

  lemma ByLapse(c: Call, s: Side, i: nat, w: World)
    requires SoundCall(c) && BothWait(c) && i < |At(c, s).txs|
    ensures OneOver(Step(c, TransactionTimeout(s, i, w))) <==> StrandsByLapse(c, s, At(c, s).txs[i])
  {
    hide Step, OneOver, ReleasesBoth;
    var t := At(c, s).txs[i];
    if !InVain(t) {
      NothingLapses(c, s, i, w);
      NoneOver(c);
    } else if t.kind == INVITE {
      ByInviteLapse(c, s, i, w);
    } else if t.kind == BYE {
      ByEnding(c, s, i, w);
    } else if t.kind == OPTIONS {
      ByProbeLapse(c, s, i, w);
    } else if t.kind == PRACK {
      ByPrackLapse(c, s, i, w);
    } else {
      ByDialogueLapse(c, s, i, w);
    }
  }

  lemma ByTimer(c: Call, e: Event)
    requires SoundCall(c) && BothWait(c) && !e.RequestIn? && !e.ResponseIn? && !e.TransactionTimeout?
    ensures OneOver(Step(c, e)) <==> Strands(c, e)
  {
    hide Step;
    match e
    case NoProgress(w) => NoProgressOutcome(c, w);
    case CancelTimeout => CancelWithoutEnd(c);
    case TimedDrop(s) => DroppedInTheEnd(c, s);
    case MaxDuration(w) => DurationOver(c, w);
    case ProbeTick(w) => ProbeSent(c, w);
    case EchoAnswer(body, w) => EchoAnswers(c, body, w);
  }

  // ----- every step

  /** From two waiting and linked legs, one is ended and the other left waiting, or established, exactly by the steps
      of Strands. */
  lemma StrandedExactly(c: Call, e: Event)
    requires SoundCall(c) && BothWait(c)
    ensures OneOver(Step(c, e)) <==> Strands(c, e)
  {
    hide Step, StrandsByResponse, OneOver;
    match e
    case RequestIn(s, q, w) => ByRequest(c, s, q, w);
    case ResponseIn(s, r, w) =>
      if i: nat :| Answers(At(c, s), r, i) {
        ByResponse(c, s, r, i, w);
      } else {
        UnmatchedIgnored(c, s, r, w);
        NoneOver(c);
      }
    case TransactionTimeout(s, i, w) =>
      if i < |At(c, s).txs| {
        ByLapse(c, s, i, w);
      } else {
        NothingLapses(c, s, i, w);
        NoneOver(c);
      }
    case _ => ByTimer(c, e);
  }

  /** In every reachable state. */
  lemma StrandedInRuns(v: FirstInvite, t: Target, m: Media, w: World, es: seq<Event>, e: Event)
    requires BothWait(After(v, t, m, w, es))
    ensures OneOver(After(v, t, m, w, es + [e])) <==> Strands(After(v, t, m, w, es), e)
  {
    hide Step, Strands, OneOver;
    var c := NewCall(v, t, m, w);
    NewCallFresh(v, t, m, w);
    RunKeeps(c, es);
    OneMore(c, es, e);
    StrandedExactly(After(v, t, m, w, es), e);
  }
}
