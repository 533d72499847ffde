/** Which first INVITEs are forwarded, and what the caller of any other is told: the reasons to turn a call away as
    a table, in the order in which they are checked, and the call that each INVITE creates. */
module Admission {
  import opened SessionState
  import opened SipTypes
  import opened Session
  import opened Stack
  import opened Changes
  import MaxForwards

  // ----- the reasons

  datatype Reason = Reason(holds: bool, code: Status)

  /** The code of the first reason that holds. */
  function FirstReason(rs: seq<Reason>): Option<Status> {
    if rs == [] then None else if rs[0].holds then Some(rs[0].code) else FirstReason(rs[1..])
  }

  lemma OfTwo(a: Reason, b: Reason)
    ensures FirstReason([a, b]) == if a.holds then Some(a.code) else if b.holds then Some(b.code) else None
  {
    assert [a, b][1..] == [b];
    assert FirstReason([b]) == if b.holds then Some(b.code) else None;
  }

  lemma OfThree(a: Reason, b: Reason, c: Reason)
    ensures FirstReason([a, b, c]) == if a.holds then Some(a.code) else FirstReason([b, c])
  {
    assert [a, b, c][1..] == [b, c];
  }

  lemma OfFour(a: Reason, b: Reason, c: Reason, d: Reason)
    ensures FirstReason([a, b, c, d]) == if a.holds then Some(a.code) else FirstReason([b, c, d])
  {
    assert [a, b, c, d][1..] == [b, c, d];
  }

  lemma OfFive(a: Reason, b: Reason, c: Reason, d: Reason, e: Reason)
    ensures FirstReason([a, b, c, d, e]) == if a.holds then Some(a.code) else FirstReason([b, c, d, e])
  {
    assert [a, b, c, d, e][1..] == [b, c, d, e];
  }

  /** What is wrong with the INVITE itself. */
  function OfInvite(v: FirstInvite): seq<Reason> {
    [Reason(!v.knownScheme, 416),
     Reason(v.body == UnknownParts, 415),
     Reason(v.hasRequire, 420),
     Reason(v.maxForwards <= 1, 483),
     Reason(v.rateExceeded, 503)]
  }

  /** What is wrong with the place it is to go to. */
  function OfTarget(v: FirstInvite, t: Target, m: Media): seq<Reason> {
    match t
    case NoTarget => [Reason(true, 404)]
    case AppServer => []
    case Phone(registered, reachable, sdpLeft, _) =>
      [Reason(!registered, 480), Reason(!reachable, 604), Reason(!sdpLeft, 488)]
    case Record(flow, noTimers, steersMedia, _) =>
      if flow == Echo then
        [Reason(!v.body.WithSDP? || !m.sdpParses, 488), Reason(!m.ingressPort, 503), Reason(!m.answerBuilds, 500)]
      else
        [Reason(flow == EarlyToFinal && !v.body.WithSDP?, 488), Reason(noTimers, 503),
         Reason(steersMedia && !m.ingressPort, 503), Reason(steersMedia && !m.egressPort, 503)]
  }

  // ----- the legs

  /** The leg of the caller: its INVITE, and the responses to it. */
  function CallingLeg(v: FirstInvite, state: State, linked: bool, rs: seq<Reply>): Leg
    requires rs != []
  {
    NewLeg(INBOUND).(
      state := state, linked := linked, prackSupported := v.supports100rel,
      txs := [Tx(INVITE, INBOUND, v.cseq, v.branch, 0, PRACKExpected, None, rs, rs[|rs| - 1].code >= 200,
                 false, true, false)])
  }

  /** The leg of the called party: one INVITE sent, with the number that was drawn. */
  function CalledLeg(reliable: bool, early: bool, w: World): Leg {
    NewLeg(OUTBOUND).(
      state := BeingEstablished, linked := true, transformEarlyToFinal := early, prackSupported := reliable,
      fwdCSeq := w.d.fwd, branches := 1, sent := [Sent(INVITE, w.d.fwd, INVITE)],
      txs := [Tx(INVITE, OUTBOUND, w.d.fwd, 1, 0, PRACKExpected, None, [], false, false, true, false)])
  }

  predicate IsEcho(t: Target) { t.Record? && t.flow == Echo }

  /** The call got as far as the media port of the called party, for which there was none. */
  predicate HalfLinked(v: FirstInvite, t: Target, m: Media) {
    && t.Record? && t.flow != Echo && !t.noTimers && (t.flow == EarlyToFinal ==> v.body.WithSDP?)
    && t.steersMedia && m.ingressPort && !m.egressPort
  }

  /** Whether the leg of the called party supports reliable ringing: when the caller does, and the call goes to the
      application server, comes back from it, or is passed on as it is. */
  predicate OffersReliability(v: FirstInvite, t: Target) {
    v.supports100rel && (t.AppServer? || (t.Phone? && t.sentBack) || (t.Record? && t.flow == Transparent))
  }

  predicate Refused(c: Call, v: FirstInvite, linked: bool, rs: seq<Reply>)
    requires rs != []
  {
    c.ingress == CallingLeg(v, BeingFailed, linked, rs) && c.egress.sent == [] && c.egress.txs == []
    && c.egress.state == NotSet && c.egress.disposed
  }

  // ----- the helpers

  lemma CallerTurned(c: Call, v: FirstInvite, code: Status, linked: bool, rs: seq<Reply>, w: World)
    requires rs != [] && c.ingress == CallingLeg(v, BeingEstablished, linked, rs) && rs[|rs| - 1].code < 200 <= code
    ensures Turn(c, code, w) == c.(ingress := CallingLeg(v, BeingFailed, linked, rs + [Bare(code)]))
  {
  }

  lemma CalledLegSent(reliable: bool, early: bool, w: World)
    ensures SendNew(NewLeg(OUTBOUND).(linked := true, prackSupported := reliable), INVITE, None, false, w.d)
            .(state := BeingEstablished, transformEarlyToFinal := early) == CalledLeg(reliable, early, w)
  {
    var e := NewLeg(OUTBOUND).(linked := true, prackSupported := reliable);
    SentNew(e, INVITE, None, false, w.d);
    assert [] + [OutgoingTx(e, INVITE, None, false, w.d)] == [OutgoingTx(e, INVITE, None, false, w.d)];
    assert [] + [Sending(INVITE, w.d.fwd)] == [Sending(INVITE, w.d.fwd)];
  }

  /** The caller was told 100, and nothing else happened. */
  predicate Trying(c: Call, v: FirstInvite, t: Target) {
    && c == Call(CallingLeg(v, BeingEstablished, false, [Bare(100)]), Drop(NewLeg(OUTBOUND)),
                 if t.Record? then t.flow else Plain, if t.Record? then t.repeats else Repeats(false, false))
  }

  lemma LinkExactly(c: Call, v: FirstInvite, t: Target, reliable: bool, steersMedia: bool, m: Media, w: World)
    requires Trying(c, v, t)
    ensures var d := Link(c, reliable, steersMedia, m, w);
            && d.flow == c.flow && d.repeats == c.repeats
            && if steersMedia && !(m.ingressPort && m.egressPort)
               then Refused(d, v, m.ingressPort, [Bare(100), Bare(503)])
               else && d.ingress == CallingLeg(v, BeingEstablished, true, [Bare(100)])
                    && d.egress == CalledLeg(reliable, c.flow == EarlyToFinal, w)
  {
    hide Turn, SendNew;
    var e := NewLeg(OUTBOUND).(linked := true, prackSupported := reliable);
    var c1 := c.(ingress := c.ingress.(linked := true), egress := e);
    assert [Bare(100)] + [Bare(503)] == [Bare(100), Bare(503)];
    CallerTurned(c, v, 503, false, [Bare(100)], w);
    CallerTurned(DropMe(c1, Egress), v, 503, true, [Bare(100)], w);
    CalledLegSent(reliable, c.flow == EarlyToFinal, w);
  }

  // ----- routing

  /** Where a call goes that is not turned away. */
  predicate Routed(c: Call, v: FirstInvite, t: Target, w: World) {
    if IsEcho(t) then
      c.ingress == CallingLeg(v, BeingEstablished, false, [Bare(100), Bare(180)]) && c.egress == Drop(NewLeg(OUTBOUND))
    else
      && c.ingress == CallingLeg(v, BeingEstablished, true, [Bare(100)])
      && c.egress == CalledLeg(OffersReliability(v, t), t.Record? && t.flow == EarlyToFinal, w)
  }

  predicate RoutedOrNot(d: Call, v: FirstInvite, t: Target, m: Media, w: World) {
    && d.flow == (if t.Record? then t.flow else Plain)
    && d.repeats == (if t.Record? then t.repeats else Repeats(false, false))
    && match FirstReason(OfTarget(v, t, m))
       case Some(code) => Refused(d, v, HalfLinked(v, t, m), [Bare(100), Bare(code)])
       case None => Routed(d, v, t, w)
  }

  lemma RejectedExactly(c: Call, v: FirstInvite, t: Target, code: Status, w: World)
    requires Trying(c, v, t) && code >= 200
    ensures var d := Turn(c, code, w);
            d.flow == c.flow && d.repeats == c.repeats && Refused(d, v, false, [Bare(100), Bare(code)])
  {
    hide Turn;
    CallerTurned(c, v, code, false, [Bare(100)], w);
    assert [Bare(100)] + [Bare(code)] == [Bare(100), Bare(code)];
  }

  lemma EchoExactly(c: Call, v: FirstInvite, t: Target, m: Media, w: World)
    requires Trying(c, v, t) && IsEcho(t)
    ensures RoutedOrNot(AnswerEcho(c, v, m, w), v, t, m, w)
  {
    hide Turn, Refused;
    RejectedExactly(c, v, t, 488, w);
    RejectedExactly(c, v, t, 503, w);
    RejectedExactly(c, v, t, 500, w);
    Rings180(c, v, w);
    var rs := OfTarget(v, t, m);
    OfThree(rs[0], rs[1], rs[2]);
    OfTwo(rs[1], rs[2]);
    assert rs == [rs[0], rs[1], rs[2]];
    assert FirstReason(rs) ==
           if !v.body.WithSDP? || !m.sdpParses then Some(488) else if !m.ingressPort then Some(503)
           else if !m.answerBuilds then Some(500) else None;
  }

  lemma Rings180(c: Call, v: FirstInvite, w: World)
    requires c.ingress == CallingLeg(v, BeingEstablished, false, [Bare(100)])
    requires c.egress == Drop(NewLeg(OUTBOUND))
    ensures SendReply(c, Ingress, Some(0), 180, NoBody, w) ==
            c.(ingress := CallingLeg(v, BeingEstablished, false, [Bare(100), Bare(180)]))
  {
    var t := c.ingress.txs[0];
    assert !Suppressed(t, Bare(180), false, c.repeats);
    assert t.responses + [Bare(180)] == [Bare(100), Bare(180)];
    assert SendReply(c, Ingress, Some(0), 180, NoBody, w).ingress == RespondTo(c.ingress, 0, Bare(180));
    assert RespondTo(c.ingress, 0, Bare(180)).txs == [t.With(Bare(180))];
  }

  lemma RecordExactly(c: Call, v: FirstInvite, t: Target, m: Media, w: World)
    requires Trying(c, v, t) && t.Record? && t.flow != Echo
    ensures RoutedOrNot(Route(c, v, t, m, w), v, t, m, w)
  {
    hide Turn, Refused, Link;
    RejectedExactly(c, v, t, 488, w);
    RejectedExactly(c, v, t, 503, w);
    LinkExactly(c, v, t, OffersReliability(v, t), t.steersMedia, m, w);
    var rs := OfTarget(v, t, m);
    OfFour(rs[0], rs[1], rs[2], rs[3]);
    OfThree(rs[1], rs[2], rs[3]);
    OfTwo(rs[2], rs[3]);
    assert rs == [rs[0], rs[1], rs[2], rs[3]];
    assert FirstReason(rs) ==
           if t.flow == EarlyToFinal && !v.body.WithSDP? then Some(488) else if t.noTimers then Some(503)
           else if t.steersMedia && !m.ingressPort then Some(503)
           else if t.steersMedia && !m.egressPort then Some(503) else None;
  }

  lemma RouteExactly(c: Call, v: FirstInvite, t: Target, m: Media, w: World)
    requires Trying(c, v, t)
    ensures RoutedOrNot(Route(c, v, t, m, w), v, t, m, w)
  {
    hide Turn, Refused, Link, AnswerEcho;
    match t
    case NoTarget => RejectedExactly(c, v, t, 404, w);
    case AppServer => LinkExactly(c, v, t, v.supports100rel, false, m, w);
    case Phone(registered, reachable, sdpLeft, _) =>
      RejectedExactly(c, v, t, 480, w);
      RejectedExactly(c, v, t, 604, w);
      RejectedExactly(c, v, t, 488, w);
      LinkExactly(c, v, t, OffersReliability(v, t), false, m, w);
      var rs := OfTarget(v, t, m);
      OfThree(rs[0], rs[1], rs[2]);
      OfTwo(rs[1], rs[2]);
      assert rs == [rs[0], rs[1], rs[2]];
      assert FirstReason(rs) == if !registered then Some(480) else if !reachable then Some(604)
                                else if !sdpLeft then Some(488) else None;
    case Record(_, _, _, _) =>
      if IsEcho(t) {
        EchoExactly(c, v, t, m, w);
      } else {
        RecordExactly(c, v, t, m, w);
      }
  }

  // ----- the call that an INVITE creates

  /** An INVITE with something wrong is answered with the code of the first such reason, and nothing else: no 100, and
      no leg for the called party. Any other one is told 100, and then the code of the first reason that its
      target gives; or the call goes on. */
  lemma NewCallExactly(v: FirstInvite, t: Target, m: Media, w: World)
    ensures var c := NewCall(v, t, m, w);
            match FirstReason(OfInvite(v))
            case Some(code) => Refused(c, v, false, [Bare(code)])
            case None => RoutedOrNot(c, v, t, m, w)
  {
    hide Route, RejectMe, Refused;
    var c := Call(IngressOf(v), Drop(NewLeg(OUTBOUND)), if t.Record? then t.flow else Plain,
                  if t.Record? then t.repeats else Repeats(false, false));
    ReasonsInOrder(v);
    match FirstReason(OfInvite(v))
    case Some(code) => FirstRefused(c, v, code, w);
    case None =>
      FirstTried(c, v, w);
      RouteExactly(SendReply(c, Ingress, Some(0), 100, NoBody, w), v, t, m, w);
  }

  /** The table is read from its beginning. */
  lemma ReasonsInOrder(v: FirstInvite)
    ensures FirstReason(OfInvite(v)) == Refusal(v)
  {
    var rs := OfInvite(v);
    OfFive(rs[0], rs[1], rs[2], rs[3], rs[4]);
    OfFour(rs[1], rs[2], rs[3], rs[4]);
    OfThree(rs[2], rs[3], rs[4]);
    OfTwo(rs[3], rs[4]);
    assert rs == [rs[0], rs[1], rs[2], rs[3], rs[4]];
  }

  lemma FirstRefused(c: Call, v: FirstInvite, code: Status, w: World)
    requires c.ingress == IngressOf(v) && c.egress == Drop(NewLeg(OUTBOUND)) && code >= 300
    ensures Refused(Turn(c, code, w), v, false, [Bare(code)])
  {
    assert [] + [Bare(code)] == [Bare(code)];
  }

  lemma FirstTried(c: Call, v: FirstInvite, w: World)
    requires c.ingress == IngressOf(v)
    ensures SendReply(c, Ingress, Some(0), 100, NoBody, w) ==
            c.(ingress := CallingLeg(v, BeingEstablished, false, [Bare(100)]))
  {
    assert [] + [Bare(100)] == [Bare(100)];
    assert SendReply(c, Ingress, Some(0), 100, NoBody, w).ingress == RespondTo(c.ingress, 0, Bare(100));
  }

  /** Nothing is wrong with the INVITE, nor with its target. */
  predicate Acceptable(v: FirstInvite, t: Target, m: Media) {
    && v.knownScheme && v.body != UnknownParts && !v.hasRequire && v.maxForwards > 1 && !v.rateExceeded
    && match t
       case NoTarget => false
       case AppServer => true
       case Phone(registered, reachable, sdpLeft, _) => registered && reachable && sdpLeft
       case Record(flow, noTimers, steersMedia, _) =>
         && flow != Echo && !noTimers && (flow == EarlyToFinal ==> v.body.WithSDP?)
         && (steersMedia ==> m.ingressPort && m.egressPort)
  }

  /** The called party is sent an INVITE, one only and with the number that was drawn, exactly when nothing is wrong. */
  lemma ForwardedExactly(v: FirstInvite, t: Target, m: Media, w: World)
    ensures NewCall(v, t, m, w).egress.sent == if Acceptable(v, t, m) then [Sent(INVITE, w.d.fwd, INVITE)] else []
  {
    hide NewCall;
    NewCallExactly(v, t, m, w);
    ReasonsInOrder(v);
    if FirstReason(OfInvite(v)).None? {
      NoReason(v, t, m);
    }
  }

  lemma {:induction false} NoneHolds(rs: seq<Reason>)
    ensures FirstReason(rs).None? <==> forall i :: 0 <= i < |rs| ==> !rs[i].holds
  {
    if rs != [] {
      NoneHolds(rs[1..]);
      assert rs == [rs[0]] + rs[1..];
    }
  }

  lemma NoReason(v: FirstInvite, t: Target, m: Media)
    ensures FirstReason(OfInvite(v)).None? && FirstReason(OfTarget(v, t, m)).None? && !IsEcho(t) <==>
            Acceptable(v, t, m)
  {
    var (a, b) := (OfInvite(v), OfTarget(v, t, m));
    NoneHolds(a);
    NoneHolds(b);
    assert |a| == 5 && (a[0].holds <==> !v.knownScheme) && a[1].holds == (v.body == UnknownParts)
           && a[2].holds == v.hasRequire && a[3].holds == (v.maxForwards <= 1) && a[4].holds == v.rateExceeded;
    match t
    case NoTarget => assert b[0].holds;
    case AppServer =>
    case Phone(_, _, _, _) =>
      assert b[0].holds == !t.registered && b[1].holds == !t.reachable && b[2].holds == !t.sdpLeft;
    case Record(_, _, _, _) =>
      if t.flow != Echo {
        assert b[1].holds == t.noTimers && b[2].holds == (t.steersMedia && !m.ingressPort)
               && b[3].holds == (t.steersMedia && !m.egressPort)
               && b[0].holds == (t.flow == EarlyToFinal && !v.body.WithSDP?);
      }
  }

  // ----- hops

  /** The router of MaxForwards is this one: of the INVITEs that nothing else is wrong with, it forwards exactly those
      that this router forwards, and the others are answered 483 and nothing else. */
  lemma HopsDecide(fields: seq<string>, v: FirstInvite, t: Target, m: Media, w: World)
    requires v.maxForwards == MaxForwards.Taken(fields) && Acceptable(v.(maxForwards := 70), t, m)
    ensures NewCall(v, t, m, w).egress.sent != [] <==> MaxForwards.Hop(fields).Some?
    ensures MaxForwards.Hop(fields).None? ==> Refused(NewCall(v, t, m, w), v, false, [Bare(483)])
  {
    hide NewCall, Refused;
    MaxForwards.HopCounts(fields);
    ForwardedExactly(v, t, m, w);
    NewCallExactly(v, t, m, w);
    ReasonsInOrder(v);
  }
}
