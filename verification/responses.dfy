/** What every response but a provisional one for the INVITE does to the two legs, once it is recorded: answers
    that come too late, the end of a BYE or a CANCEL, the answers to forwarded requests, and the responses that
    release the call. */
module Responses {
  import opened SessionState
  import opened SipTypes
  import opened Evolution
  import opened Session
  import opened Stack
  import opened CallKeeps
  import opened Changes
  import opened Refusals

  // ----- releasing both legs

  /** Leg s and then its peer are hung up where they are established; the first BYE that cannot be sent is the end
      of it. */
  predicate ReleasesBoth(c: Call, d: Call, s: Side, w: World) {
    var (l, p, l', p') := (At(c, s), At(c, Other(s)), At(d, s), At(d, Other(s)));
    && d.flow == c.flow && d.repeats == c.repeats
    && (if l.state == Established then HangsUp(l, l', BeingDropped, None, w.d) else l' == l)
    && (if l.linked && p.state == Established && !(l.state == Established && HeldUp(l))
        then HangsUp(p, p', BeingDropped, None, w.d) else p' == p)
  }

  lemma ReleaseExactly(c: Call, s: Side, w: World)
    ensures ReleasesBoth(c, ReleaseCall(c, s, w).0, s, w)
  {
    hide EnterAndBye, HangsUp, ByeFails, HeldUp;
    var (l, p) := (At(c, s), At(c, Other(s)));
    HeldUpExactly(l);
    HeldUpExactly(p);
    ByeExactly(l, BeingDropped, None, w.d);
    ByeExactly(p, BeingDropped, None, w.d);
    HungUpSame(l, EnterAndBye(l, BeingDropped, None, w.d), BeingDropped, None, w.d);
  }

  // ----- BYE and CANCEL

  /** A final response to a BYE ends the leg, and a redirection drops it as it is; a leg without a peer waits for a
      2xx. */
  lemma ByeAnswered(c: Call, s: Side, r: Response, i: nat, w: World)
    requires Answers(At(c, s), r, i) && At(c, s).txs[i].kind == BYE
    ensures var (c1, d) := (Recording(c, s, i, r), Step(c, ResponseIn(s, r, w)));
            var l := At(c1, s);
            d == if r.code < 200 || (!l.linked && r.code >= 300) then c1
                 else if 300 <= r.code <= 399 then Put(c1, s, l.(disposed := true))
                 else Put(c1, s, l.(state := FinalizeMe(l.state), disposed := true))
  {
    hide On18x, InviteAnswered, RelayBack, ReleaseCall, Reroute, InviteFailed;
    TakenResponse(c, s, i, r, w);
  }

  /** A redirection of a CANCEL drops the leg; any other response to it is only recorded. */
  lemma CancelAnswered(c: Call, s: Side, r: Response, i: nat, w: World)
    requires Answers(At(c, s), r, i) && At(c, s).txs[i].kind == CANCEL
    ensures var (c1, d) := (Recording(c, s, i, r), Step(c, ResponseIn(s, r, w)));
            d == if 300 <= r.code <= 399 && At(c, s).linked then Put(c1, s, At(c1, s).(disposed := true)) else c1
  {
    hide On18x, InviteAnswered, RelayBack, ReleaseCall, Reroute, InviteFailed;
    TakenResponse(c, s, i, r, w);
  }

  // ----- the INVITE

  /** The called party answers a call that is being set up: the caller is told the same code with the same body, or
      nothing when it was answered early, and then the leg is established and the ACK is sent at once. */
  lemma InviteIsAnswered(c: Call, r: Response, w: World)
    requires SoundCall(c) && Answers(c.egress, r, 0) && IsPositive(r.code) && c.egress.state == BeingEstablished
    ensures var (c1, d) := (Recording(c, Egress, 0, r), Step(c, ResponseIn(Egress, r, w)));
            var l := c1.egress.(transformEarlyToFinal := false);
            if c.egress.transformEarlyToFinal && c.egress.received18xSDP then
              && d == c1.(egress := d.egress) && Acknowledges(l.(state := Established), d.egress)
              && (UnACKed(c.egress) ==> d.egress == InviteACKed(l.(state := Established)))
            else d == c1.(ingress := Told(c.ingress, Reply(r.code, r.body)), egress := l)
  {
    hide On18x, RelayBack, ReleaseCall, Reroute, InviteFailed, SendReply, SendAck;
    var c1 := Recording(c, Egress, 0, r);
    var l := c1.egress.(transformEarlyToFinal := false);
    TakenResponse(c, Egress, 0, r, w);
    if c.egress.transformEarlyToFinal && c.egress.received18xSDP {
      var m := l.(state := Established);
      assert Step(c, ResponseIn(Egress, r, w)) == c1.(egress := SendAck(m, None));
      AckExactly(m);
      if UnACKed(c.egress) {
        InviteIsACKed(m);
      }
    } else {
      assert SoundCall(c1.(egress := l));
      CallerIsTold(c1.(egress := l), r.code, r.body, w);
    }
  }

  /** A leg that is no longer being set up acknowledges a 2xx and hangs up; its state stays. */
  lemma AnsweredTooLate(c: Call, r: Response, w: World)
    requires SoundCall(c) && c.egress.state !in {NotSet, BeingEstablished}
    requires Answers(c.egress, r, 0) && IsPositive(r.code)
    ensures var (c1, d) := (Recording(c, Egress, 0, r), Step(c, ResponseIn(Egress, r, w)));
            && d == c1.(egress := d.egress)
            && exists m :: Acknowledges(c1.egress, m) && HangsUp(m, d.egress, m.state, None, w.d)
  {
    hide On18x, RelayBack, ReleaseCall, Reroute, InviteFailed, SendReply, SendAck, SendBye;
    hide Answers, Acknowledges, HangsUp;
    var c1 := Recording(c, Egress, 0, r);
    var m := SendAck(c1.egress, None);
    TakenResponse(c, Egress, 0, r, w);
    AckExactly(c1.egress);
    ByeSentExactly(m, w.d);
  }

  /** A leg that is no longer being set up: a redirection still sends it to Redirected, with its ACK. */
  lemma RedirectedTooLate(c: Call, r: Response, w: World)
    requires SoundCall(c) && c.egress.state !in {NotSet, BeingEstablished}
    requires Answers(c.egress, r, 0) && 300 <= r.code <= 399
    ensures var (c1, d) := (Recording(c, Egress, 0, r), Step(c, ResponseIn(Egress, r, w)));
            && d == c.(ingress := TurnedAway(c.ingress, r.code), egress := d.egress)
            && Acknowledges(c1.egress.(state := Redirected), d.egress)
  {
    hide On18x, RelayBack, ReleaseCall, Reroute, InviteFailed, SendReply, SendAck, TurnedAway;
    var c1 := Recording(c, Egress, 0, r);
    TakenResponse(c, Egress, 0, r, w);
    AckedSound(c1, Redirected);
    RerouteExactly(c1.(egress := SendAck(c1.egress.(state := Redirected), None)), r.code, w);
  }

  /** A refusal completes a cancellation, with its ACK, and else is only recorded. */
  lemma RefusedTooLate(c: Call, r: Response, w: World)
    requires SoundCall(c) && c.egress.state !in {NotSet, BeingEstablished}
    requires Answers(c.egress, r, 0) && r.code >= 400
    ensures var (c1, d) := (Recording(c, Egress, 0, r), Step(c, ResponseIn(Egress, r, w)));
            if c.egress.state == BeingCancelled then
              d == c.(egress := d.egress) && Acknowledges(c1.egress.(state := Cancelled), d.egress)
            else d == c1
  {
    hide On18x, RelayBack, ReleaseCall, Reroute, InviteFailed, SendReply, SendAck;
    var c1 := Recording(c, Egress, 0, r);
    TakenResponse(c, Egress, 0, r, w);
    AckExactly(c1.egress.(state := Cancelled));
  }

  // ----- forwarded offers

  /** The transaction of the other leg that transaction t is linked to gets the response; without a link the caller
      is told, and the called party is not. */
  function PassedBack(t: Tx, o: Side, l: Leg, r: Reply): Leg {
    if t.link.Some? && t.link.value.There? && t.link.value.j < |l.txs| then l.(txs := Gains(l.txs, t.link.value.j, r))
    else if o == Ingress then Told(l, r)
    else l
  }

  lemma RelayExactly(c: Call, s: Side, i: nat, r: Response, w: World)
    requires SoundCall(c) && i < |At(c, s).txs| && !Is18x(r.code)
    ensures RelayBack(c, s, i, r, w) ==
            Put(c, Other(s), PassedBack(At(c, s).txs[i], Other(s), At(c, Other(s)), Reply(r.code, r.body)))
  {
    var o := Other(s);
    if LinkOf(c, s, i, o) {
      var j := At(c, s).txs[i].link.value.j;
      GainsResponse(At(c, o), j, Reply(r.code, r.body));
      assert RelayBack(c, s, i, r, w) == Put(c, o, RespondTo(At(c, o), j, Reply(r.code, r.body)));
    } else if o == Ingress {
      CallerIsTold(c, r.code, r.body, w);
    } else {
      assert LastUnACKedInvite(c.egress, INBOUND) == None;
    }
  }

  /** The call once an offer was answered: a 2xx to an UPDATE ends the change of the dialogue on both legs. */
  function Settling(c: Call, t: Tx, r: Response): Call {
    if t.kind == UPDATE && r.code <= 299
    then c.(ingress := c.ingress.(dialogueChanging := false), egress := c.egress.(dialogueChanging := false))
    else c
  }

  lemma SettledSound(c: Call, s: Side, i: nat, r: Response)
    requires SoundCall(c) && Answers(At(c, s), r, i)
    ensures var (c1, t) := (Recording(c, s, i, r), At(c, s).txs[i]);
            && SoundCall(Settling(c1, t, r)) && At(Settling(c1, t, r), s).txs == At(c1, s).txs
            && At(c1, s).txs[i].link == t.link && At(c1, s).txs[i].kind == t.kind && At(c1, s).linked == At(c, s).linked
            && Settling(c1, At(c1, s).txs[i], r) == Settling(c1, t, r)
  {
    hide FindResponse;
  }

  lemma OfferHandled(c: Call, s: Side, r: Response, i: nat, w: World)
    requires i < |At(c, s).txs| && At(c, s).txs[i].kind in {ReINVITE, UPDATE} && At(c, s).linked
    requires r.code >= 200 && !(300 <= r.code <= 399)
    ensures var c2 := Settling(c, At(c, s).txs[i], r);
            At(c2, s).txs == At(c, s).txs && HandleResponse(c, s, i, r, w) == RelayBack(c2, s, i, r, w)
  {
    hide On18x, InviteAnswered, RelayBack, ReleaseCall, Reroute, InviteFailed;
  }

  /** The answer to a forwarded offer goes back with its code and its body. */
  lemma OfferAnswered(c: Call, s: Side, r: Response, i: nat, w: World)
    requires SoundCall(c) && Answers(At(c, s), r, i) && At(c, s).txs[i].kind in {ReINVITE, UPDATE} && At(c, s).linked
    requires r.code >= 200 && !(300 <= r.code <= 399)
    ensures var c1 := Settling(Recording(c, s, i, r), At(c, s).txs[i], r);
            Step(c, ResponseIn(s, r, w)) ==
            Put(c1, Other(s), PassedBack(At(c, s).txs[i], Other(s), At(c1, Other(s)), Reply(r.code, r.body)))
  {
    hide HandleResponse, RelayBack, Settling, SoundCall, Step;
    var c1 := Recording(c, s, i, r);
    var c2 := Settling(c1, At(c, s).txs[i], r);
    TakenResponse(c, s, i, r, w);
    SettledSound(c, s, i, r);
    OfferHandled(c1, s, r, i, w);
    RelayExactly(c2, s, i, r, w);
  }

  // ----- what is only recorded, and what releases the call

  /** A redirection of any other request, and a probe that is answered 408 or 481, release the call. */
  predicate Releases(t: Tx, r: Response) {
    || (300 <= r.code <= 399 && t.kind !in {INVITE, CANCEL, BYE})
    || (t.kind == OPTIONS && t.isProbing && r.code in {408, 481})
  }

  lemma ReleasedByResponse(c: Call, s: Side, r: Response, i: nat, w: World)
    requires Answers(At(c, s), r, i) && At(c, s).linked && Releases(At(c, s).txs[i], r)
    ensures var (c1, d) := (Recording(c, s, i, r), Step(c, ResponseIn(s, r, w)));
            var l := At(c1, s);
            ReleasesBoth(if r.code <= 399 then Put(c1, s, l.(state := FinalizeMe(l.state))) else c1, d, s, w)
  {
    hide On18x, InviteAnswered, RelayBack, ReleaseCall, Reroute, InviteFailed, ReleasesBoth;
    var c1 := Recording(c, s, i, r);
    TakenResponse(c, s, i, r, w);
    ReleaseExactly(c1, s, w);
    ReleaseExactly(Finish(c1, s), s, w);
  }

  /** Responses that do nothing but stop the retransmissions. */
  predicate OnlyRecorded(l: Leg, t: Tx, r: Response) {
    || (r.code <= 199 && (t.kind != INVITE || !Is18x(r.code)))
    || (t.kind !in {INVITE, CANCEL, BYE} && !(l.linked && (t.kind.CarriesOffer() || Releases(t, r))))
  }

  lemma RecordedOnly(c: Call, s: Side, r: Response, i: nat, w: World)
    requires Answers(At(c, s), r, i) && OnlyRecorded(At(c, s), At(c, s).txs[i], r)
    ensures Step(c, ResponseIn(s, r, w)) == Recording(c, s, i, r)
  {
    hide On18x, InviteAnswered, RelayBack, ReleaseCall, Reroute, InviteFailed;
    TakenResponse(c, s, i, r, w);
  }
}
