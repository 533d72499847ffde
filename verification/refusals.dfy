/** How a call that could not be set up ends: what the called party's leg does, and which code the caller is
    told, for a response of 300 or more, for silence (408) and for a lack of progress (487). */
module Refusals {
  import opened SessionState
  import opened SipTypes
  import opened Evolution
  import opened Session
  import opened Stack
  import opened CallKeeps
  import opened Changes

  // ----- the caller

  /** A caller that still waits is told the code and cut from the other leg. */
  function TurnedAway(l: Leg, code: Status): Leg {
    if l.state == BeingEstablished && UnACKed(l)
    then l.(state := BeingFailed, linked := false, txs := Gains(l.txs, 0, Bare(code)))
    else l
  }

  lemma RerouteExactly(c: Call, code: Status, w: World)
    requires SoundCall(c) && code > 299
    ensures Reroute(c, Ingress, code, w) == c.(ingress := TurnedAway(c.ingress, code))
  {
    var l := c.ingress;
    if l.state == BeingEstablished && UnACKed(l) {
      assert LastUnACKedInvite(l, INBOUND) == Some(0);
      GainsResponse(l.(linked := false, state := BeingFailed), 0, Bare(code));
    }
  }

  /** The leg of the called party has no caller to turn away. */
  lemma RerouteOfCallee(c: Call, code: Status, w: World)
    requires SoundCall(c)
    ensures Reroute(c, Egress, code, w) == c
  {
  }

  // ----- a refusal

  /** The leg that was refused: the response is recorded, the state says what kind it was, and a refusal ends the
      transformation of early answers. */
  function Refusing(l: Leg, r: Response): Leg
    requires |l.txs| > 0
  {
    var m := l.(txs := Gains(l.txs, 0, Reply(r.code, r.body)));
    if r.code <= 399 then m.(state := Redirected) else m.(state := Rejected, transformEarlyToFinal := false)
  }

  /** The caller of a refused call. It is told the code and cut from the other leg; but a caller that may have been
      answered early is hung up when it was, and stays linked when it was not. */
  predicate CallerRefused(c: Call, d: Call, code: Status, w: World) {
    var (a, b) := (c.ingress, d.ingress);
    if code <= 399 || !c.egress.transformEarlyToFinal then b == TurnedAway(a, code)
    else if a.state == Established then HangsUp(a, b, BeingCleared, None, w.d)
    else if a.state == BeingEstablished then b == Told(a.(state := BeingFailed), Bare(code))
    else b == a
  }

  /** The called party, whose leg is being set up, refuses or redirects: its INVITE is acknowledged with its own
      number, its leg is Redirected or Rejected, and the caller is told the very code. */
  lemma InviteRefused(c: Call, r: Response, w: World)
    requires SoundCall(c) && c.egress.state == BeingEstablished && r.code >= 300 && Answers(c.egress, r, 0)
    ensures var d := Step(c, ResponseIn(Egress, r, w));
            && Acknowledges(Refusing(c.egress, r), d.egress)
            && (UnACKed(c.egress) ==> d.egress == InviteACKed(Refusing(c.egress, r)))
            && CallerRefused(c, d, r.code, w) && d.flow == c.flow && d.repeats == c.repeats
  {
    hide HandleResponse, Reroute, InviteFailed;
    var c1 := Recording(c, Egress, 0, r);
    TakenResponse(c, Egress, 0, r, w);
    if r.code <= 399 {
      Redirected3xx(c1, r, w);
    } else {
      Rejected4xx(c1, r, w);
    }
  }

  lemma Redirected3xx(c: Call, r: Response, w: World)
    requires SoundCall(c) && c.egress.state == BeingEstablished && 300 <= r.code <= 399
    ensures var (d, e) := (HandleResponse(c, Egress, 0, r, w), c.egress.(state := Redirected));
            && Acknowledges(e, d.egress) && (UnACKed(e) ==> d.egress == InviteACKed(e))
            && d == c.(ingress := TurnedAway(c.ingress, r.code), egress := d.egress)
  {
    hide Reroute, SendAck, Acknowledges, InviteFailed, On18x, TurnedAway;
    var e := c.egress.(state := Redirected);
    var c1 := c.(egress := SendAck(e, None));
    AckedSound(c, Redirected);
    RerouteExactly(c1, r.code, w);
    assert HandleResponse(c, Egress, 0, r, w) == Reroute(c1, Ingress, r.code, w);
  }

  /** The leg of the called party enters a final state and acknowledges. */
  lemma AckedSound(c: Call, s: State)
    requires SoundCall(c) && c.egress.state != NotSet && s != NotSet && !HasNoFinalForm(s) && Phase(s) >= 3
    ensures var e := c.egress.(state := s);
            && SoundCall(c.(egress := SendAck(e, None))) && Acknowledges(e, SendAck(e, None))
            && (UnACKed(e) ==> SendAck(e, None) == InviteACKed(e))
  {
    var e := c.egress.(state := s);
    AckExactly(e);
    if UnACKed(e) {
      InviteIsACKed(e);
    }
  }

  lemma Rejected4xx(c: Call, r: Response, w: World)
    requires SoundCall(c) && c.egress.state == BeingEstablished && 400 <= r.code && c.egress.txs != []
    requires c.egress.txs[0].kind == INVITE
    ensures var (d, e) := (HandleResponse(c, Egress, 0, r, w),
                           c.egress.(state := Rejected, transformEarlyToFinal := false));
            && Acknowledges(e, d.egress) && (UnACKed(e) ==> d.egress == InviteACKed(e))
            && CallerRefused(c, d, r.code, w) && d == c.(ingress := d.ingress, egress := d.egress)
  {
    hide Reroute, SendAck, FailCaller;
    var e := c.egress.(state := Rejected, transformEarlyToFinal := false);
    var c0 := c.(egress := c.egress.(transformEarlyToFinal := false));
    AckedSound(c, Rejected);
    AckedSound(c0, Rejected);
    var c1 := c.(egress := SendAck(c.egress.(state := Rejected), None).(transformEarlyToFinal := false));
    AckIgnoresFlow(c.egress.(state := Rejected));
    assert c1.egress == SendAck(e, None);
    assert HandleResponse(c, Egress, 0, r, w) ==
           if c.egress.transformEarlyToFinal then FailCaller(c1, Egress, r, w) else Reroute(c1, Ingress, r.code, w);
    if c.egress.transformEarlyToFinal {
      CallerFailed(c1, r, w);
    } else {
      RerouteExactly(c1, r.code, w);
    }
  }

  lemma AckIgnoresFlow(l: Leg)
    ensures SendAck(l, None).(transformEarlyToFinal := false) == SendAck(l.(transformEarlyToFinal := false), None)
  {
  }

  lemma CallerFailed(c: Call, r: Response, w: World)
    requires SoundCall(c) && r.code >= 400
    ensures var (d, a) := (FailCaller(c, Egress, r, w), c.ingress);
            && d == c.(ingress := d.ingress)
            && if a.state == Established then HangsUp(a, d.ingress, BeingCleared, None, w.d)
               else d.ingress == if a.state == BeingEstablished then Told(a.(state := BeingFailed), Bare(r.code)) else a
  {
    hide EnterAndBye;
    var a := c.ingress;
    ByeExactly(a, BeingCleared, None, w.d);
    if a.state == BeingEstablished {
      var b := a.(state := BeingFailed);
      assert RejectMe(a, None, r.code, c.repeats, w.d) == Answer(b, None, Bare(r.code), None, c.repeats, w.d);
      if UnACKed(a) {
        assert LastUnACKedInvite(b, INBOUND) == Some(0);
        GainsResponse(b, 0, Bare(r.code));
      }
    }
  }

  // ----- silence

  /** Nothing comes for the INVITE of the called party: its leg is given up, and a caller that still waits is told
      408. With any response, or while the INVITE has not been sent, the timer does nothing. */
  lemma InviteUnanswered(c: Call, w: World)
    requires SoundCall(c) && c.egress.txs != [] && c.egress.txs[0].kind == INVITE
    ensures var (t, d) := (c.egress.txs[0], Step(c, TransactionTimeout(Egress, 0, w)));
            if t.hasRequest && t.responses == [] then
              d == c.(ingress := TurnedAway(c.ingress, 408),
                      egress := if IsPending(c.egress.state) then c.egress.(state := TimedOut, disposed := true)
                                else c.egress)
            else d == c
  {
    hide Reroute;
    var t := c.egress.txs[0];
    assert t.dir == OUTBOUND && c.egress.linked;
    var c1 := if IsPending(c.egress.state) then DropMe(To(c, Egress, TimedOut), Egress) else c;
    if t.hasRequest && t.responses == [] {
      assert SoundCall(c1);
      RerouteExactly(c1, 408, w);
      assert OnTimeout(c, Egress, 0, w) == Reroute(c1, Ingress, 408, w);
    }
  }

  /** No response comes for a PRACK that was sent: its leg has failed, and a caller that still waits is told 408. */
  lemma PrackUnanswered(c: Call, s: Side, i: nat, w: World)
    requires SoundCall(c) && i < |At(c, s).txs|
    requires var t := At(c, s).txs[i]; t.kind == PRACK && t.dir == OUTBOUND && t.hasRequest && t.responses == []
    ensures var d := Step(c, TransactionTimeout(s, i, w));
            d == if s == Ingress then c.(ingress := c.ingress.(state := Failed, disposed := true))
                 else c.(egress := c.egress.(state := Failed, disposed := true),
                         ingress := if c.egress.linked then TurnedAway(c.ingress, 408) else c.ingress)
  {
    hide Reroute;
    RerouteExactly(c, 408, w);
    RerouteOfCallee(c, 408, w);
  }

  /** The called party neither rings nor answers in time: its INVITE is cancelled, and a caller that still waits is
      told 487. Once there was a 2xx the timers are stopped. */
  lemma NoProgressOutcome(c: Call, w: World)
    requires SoundCall(c)
    ensures var d := Step(c, NoProgress(w));
            if c.egress.txs == []
               || (exists k :: 0 <= k < |c.egress.txs[0].responses| && 200 <= c.egress.txs[0].responses[k].code <= 299)
            then d == c
            else d == c.(ingress := TurnedAway(c.ingress, 487), egress := GivenUp(c.egress))
  {
    hide Reroute, CancelMe;
    CancelExactly(c.egress);
    CancelLinkedCalm(c, Egress);
    RerouteExactly(c.(egress := CancelMe(c.egress)), 487, w);
    if c.egress.txs != [] {
      var t := c.egress.txs[0];
      assert t.AnyPositive() <==> exists k :: 0 <= k < |t.responses| && 200 <= t.responses[k].code <= 299;
    }
  }
}
