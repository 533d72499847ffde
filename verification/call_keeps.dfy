/** Every handler of a call keeps both legs sound, never takes anything back, and only a few
    handlers do more than that. */
module CallKeeps {
  import opened SessionState
  import opened SipTypes
  import opened Moves
  import opened Evolution
  import opened Session
  import opened SessionKeeps
  import opened Stack

  predicate SoundCall(c: Call) {
    && Sound(c.ingress) && Sound(c.egress)
    && c.ingress.dir == INBOUND && c.egress.dir == OUTBOUND
    && c.ingress.state != NotSet
    && (c.egress.state == NotSet ==> c.egress.disposed)
  }

  /** Nothing is taken back on either leg. */
  ghost predicate CallGrows(a: Call, b: Call) {
    Grows(a.ingress, b.ingress) && Grows(a.egress, b.egress) && b.flow == a.flow && b.repeats == a.repeats
  }

  /** ... and nobody is answered. */
  ghost predicate CallDecent(a: Call, b: Call) {
    SoundCall(b) && CallGrows(a, b) && Modest(a.ingress, b.ingress) && Modest(a.egress, b.egress)
  }

  /** ... or no offer is forwarded or declared over. */
  ghost predicate CallQuiet(a: Call, b: Call) {
    SoundCall(b) && CallGrows(a, b) && Quiet(a.ingress, b.ingress) && Quiet(a.egress, b.egress)
  }

  /** ... or both. */
  ghost predicate CallCalm(a: Call, b: Call) {
    CallDecent(a, b) && CallQuiet(a, b)
  }

  lemma CallGrowsTrans(a: Call, b: Call, c: Call)
    requires CallGrows(a, b) && CallGrows(b, c)
    ensures CallGrows(a, c)
  {
    GrowsTrans(a.ingress, b.ingress, c.ingress);
    GrowsTrans(a.egress, b.egress, c.egress);
  }

  lemma CallDecentTrans(a: Call, b: Call, c: Call)
    requires SoundCall(a) && CallDecent(a, b) && CallDecent(b, c)
    ensures CallDecent(a, c)
  {
    DecentTrans(a.ingress, b.ingress, c.ingress);
    DecentTrans(a.egress, b.egress, c.egress);
  }

  lemma CallQuietTrans(a: Call, b: Call, c: Call)
    requires CallQuiet(a, b) && CallQuiet(b, c)
    ensures CallQuiet(a, c)
  {
    CallGrowsTrans(a, b, c);
    QuietTrans(a.ingress, b.ingress, c.ingress);
    QuietTrans(a.egress, b.egress, c.egress);
  }

  lemma CallCalmTrans(a: Call, b: Call, c: Call)
    requires SoundCall(a) && CallCalm(a, b) && CallCalm(b, c)
    ensures CallCalm(a, c)
  {
    CallDecentTrans(a, b, c);
    CallQuietTrans(a, b, c);
  }

  lemma CallCalmRefl(c: Call)
    requires SoundCall(c)
    ensures CallCalm(c, c)
  {
  }

  lemma PutCalm(c: Call, s: Side, l: Leg)
    requires SoundCall(c) && Calm(At(c, s), l)
    ensures CallCalm(c, Put(c, s, l))
  {
  }

  // ----- the helpers

  predicate Alive(c: Call, s: Side) { At(c, s).state != NotSet }

  lemma ToCalm(c: Call, s: Side, state: State)
    requires SoundCall(c) && Alive(c, s)
    requires Phase(state) >= 3 && Phase(state) >= Phase(At(c, s).state) && !HasNoFinalForm(state)
    ensures CallCalm(c, To(c, s, state))
  {
    EnterKeeps(At(c, s), state);
    PutCalm(c, s, Enter(At(c, s), state));
  }

  lemma FinishCalm(c: Call, s: Side)
    requires SoundCall(c) && (s == Ingress ==> c.ingress.state != BeingEstablished)
    ensures CallCalm(c, Finish(c, s))
  {
    FinalizeKeeps(At(c, s));
    PutCalm(c, s, Finalize(At(c, s)));
  }

  lemma DropMeCalm(c: Call, s: Side)
    requires SoundCall(c)
    ensures CallCalm(c, DropMe(c, s))
  {
    DropCalm(At(c, s));
    PutCalm(c, s, Drop(At(c, s)));
  }

  lemma PutDecent(c: Call, s: Side, l: Leg)
    requires SoundCall(c) && Decent(At(c, s), l)
    ensures CallDecent(c, Put(c, s, l))
  {
    hide Reaches;
    CallCalmRefl(c);
  }

  lemma AckKeeps(c: Call, s: Side, lt: Option<nat>)
    requires SoundCall(c) && Has(c, s, lt)
    ensures CallDecent(c, Ack(c, s, lt))
    ensures (lt.Some? ==> TakesACK(At(c, s), lt.value)) ==> CallCalm(c, Ack(c, s, lt))
  {
    hide SendAck, Decent, CallDecent;
    SendAckKeeps(At(c, s), lt);
    PutDecent(c, s, SendAck(At(c, s), lt));
    if lt.Some? ==> TakesACK(At(c, s), lt.value) {
      PutCalm(c, s, SendAck(At(c, s), lt));
    }
  }

  /** A response that does not answer the caller. */
  predicate NoAnswer(c: Call, s: Side, trans: Option<nat>, code: Status) {
    if trans.Some? then Harmless(At(c, s), trans.value, code) else s == Egress || Harmless(c.ingress, 0, code)
  }

  lemma SendReplyCalm(c: Call, s: Side, trans: Option<nat>, code: Status, body: Body, w: World)
    requires SoundCall(c) && Has(c, s, trans) && NoAnswer(c, s, trans, code)
    ensures CallCalm(c, SendReply(c, s, trans, code, body, w))
  {
    AnswerKeeps(At(c, s), trans, Reply(code, body), None, c.repeats, w.d);
    PutCalm(c, s, Answer(At(c, s), trans, Reply(code, body), None, c.repeats, w.d));
  }

  /** The caller's INVITE with one more reply, which is not sent once the caller acknowledged another. */
  function CallerSent(l: Leg, r: Reply): Leg
    requires |l.txs| > 0
  {
    if l.txs[0].isACKed then l else RespondTo(l, 0, r)
  }

  lemma CallerAnswered(c: Call, code: Status, body: Body, w: World)
    requires SoundCall(c) && !Is18x(code)
    ensures SendReply(c, Ingress, None, code, body, w) == Put(c, Ingress, CallerSent(c.ingress, Reply(code, body)))
  {
  }

  lemma ByeAfterCalm(c: Call, s: Side, state: State, w: World)
    requires SoundCall(c) && Phase(At(c, s).state) <= 2 && Alive(c, s) && Phase(state) == 3 && !HasNoFinalForm(state)
    ensures CallCalm(c, ByeAfter(c, s, state, w))
  {
    EnterAndByeCalm(At(c, s), state, None, w.d);
    PutCalm(c, s, EnterAndBye(At(c, s), state, None, w.d));
  }

  lemma ReleasePeerCalm(c: Call, s: Side, w: World)
    requires SoundCall(c)
    ensures CallCalm(c, ReleasePeer(c, s, w).0)
  {
    if At(c, s).linked && At(c, Other(s)).state == Established {
      ByeAfterCalm(c, Other(s), BeingDropped, w);
    } else {
      CallCalmRefl(c);
    }
  }

  lemma ReleaseCallCalm(c: Call, s: Side, w: World)
    requires SoundCall(c)
    ensures CallCalm(c, ReleaseCall(c, s, w).0)
  {
    var s1 := At(c, s).state == Established;
    var c1 := if s1 then ByeAfter(c, s, BeingDropped, w) else c;
    if !s1 {
      ReleasePeerCalm(c, s, w);
    } else {
      ByeAfterCalm(c, s, BeingDropped, w);
      if !ByeFails(At(c, s)) {
        ReleasePeerCalm(c1, s, w);
        CallCalmTrans(c, c1, ReleasePeer(c1, s, w).0);
      }
    }
  }

  lemma ReleaseLinkedCalm(c: Call, s: Side, i: Option<nat>, w: World)
    requires SoundCall(c) && Has(c, s, i)
    requires i.Some? ==> !At(c, s).txs[i.value].kind.CarriesOffer()
    ensures CallCalm(c, ReleaseLinked(c, s, i, w))
  {
    hide EnterAndBye, Reaches;
    var o := Other(s);
    var c1 := Put(c, o, ReleaseMe(At(c, o), i, w.d));
    ReleaseMeCalm(At(c, o), i, w.d);
    PutCalm(c, o, ReleaseMe(At(c, o), i, w.d));
    if i.Some? {
      SetLinkKeeps(At(c1, s), i.value, |At(c, o).txs|);
      PutCalm(c1, s, SetLink(At(c1, s), i.value, |At(c, o).txs|));
      CallCalmTrans(c, c1, Put(c1, s, SetLink(At(c1, s), i.value, |At(c, o).txs|)));
    }
  }

  lemma CancelLinkedCalm(c: Call, s: Side)
    requires SoundCall(c)
    ensures CallCalm(c, Put(c, s, CancelMe(At(c, s))))
  {
    CancelMeCalm(At(c, s));
    PutCalm(c, s, CancelMe(At(c, s)));
  }

  /** The waiting caller is cut from its peer and refused. */
  lemma RefusedCallerCalm(l: Leg, i: nat, code: Status, rep: Repeats, d: Draws)
    requires Sound(l) && l.dir == INBOUND && l.state == BeingEstablished && code > 299
    requires LastUnACKedInvite(l, INBOUND) == Some(i)
    ensures Calm(l, RejectMe(l.(linked := false), Some(i), code, rep, d))
  {
    hide RejectMe;
    RejectMeCalm(l, Some(i), code, rep, d);
    RejectUnlinked(l, i, code, rep, d);
    UnlinkCalm(l, RejectMe(l, Some(i), code, rep, d));
  }

  lemma RerouteCalm(c: Call, o: Side, code: Status, w: World)
    requires SoundCall(c) && code > 299
    ensures CallCalm(c, Reroute(c, o, code, w))
  {
    hide RejectMe;
    var l := At(c, o);
    var found := LastUnACKedInvite(l, INBOUND);
    if found.Some? && l.state == BeingEstablished {
      assert o == Ingress;
      RefusedCallerCalm(l, found.value, code, c.repeats, w.d);
      PutCalm(c, o, RejectMe(l.(linked := false), found, code, c.repeats, w.d));
    }
  }

  /** Cutting the link first or last makes no difference to a refused leg. */
  lemma RejectUnlinked(l: Leg, i: nat, code: Status, rep: Repeats, d: Draws)
    requires l.dir == INBOUND && l.state == BeingEstablished && i < |l.txs|
    ensures var m := RejectMe(l, Some(i), code, rep, d);
            RejectMe(l.(linked := false), Some(i), code, rep, d) ==
              m.(linked := false) && m.state == BeingFailed && m.dir == INBOUND
  {
    var t := Enter(l, BeingFailed);
    assert Enter(l.(linked := false), BeingFailed) == t.(linked := false);
  }

  lemma UnlinkCalm(l: Leg, m: Leg)
    requires Calm(l, m) && m.dir == INBOUND && Phase(m.state) == 3
    ensures Calm(l, m.(linked := false))
  {
    var b := m.(linked := false);
    TouchReaches(m, b);
    ReachesTrans(l, m, b, false);
    ReachesTrans(l, m, b, true);
  }

  lemma RaiseCalm(c: Call, s: Side)
    requires SoundCall(c)
    ensures CallCalm(c, Flag(c, s, true))
  {
    var l := At(c, s).(dialogueChanging := true);
    TouchReaches(At(c, s), l);
    PutCalm(c, s, l);
  }

  lemma FlagKeeps(l: Leg, changing: bool)
    requires Sound(l)
    ensures Decent(l, l.(dialogueChanging := changing)) && Grows(l, l.(dialogueChanging := changing))
    ensures Decent(l, l) && Grows(l, l)
  {
    hide Reaches;
    TouchReaches(l, l.(dialogueChanging := changing));
    TouchReaches(l, l);
  }

  lemma FlagDecent(c: Call, s: Side, changing: bool)
    requires SoundCall(c)
    ensures CallDecent(c, Flag(c, s, changing))
  {
    hide Grown, Reaches, Modest, Sound;
    FlagKeeps(At(c, s), changing);
    FlagKeeps(At(c, Other(s)), changing);
  }

  lemma OfferOverDecent(c: Call)
    requires SoundCall(c)
    ensures CallDecent(c, OfferOver(c))
  {
    FlagDecent(c, Ingress, false);
    FlagDecent(Flag(c, Ingress, false), Egress, false);
    CallDecentTrans(c, Flag(c, Ingress, false), OfferOver(c));
  }

  lemma PutBothDecent(c: Call, s: Side, l: Leg, m: Leg)
    requires SoundCall(c) && Decent(At(c, s), l) && Decent(At(c, Other(s)), m)
    ensures CallDecent(c, Put(Put(c, Other(s), m), s, l))
  {
  }

  lemma ForwardDecent(c: Call, s: Side, i: nat, m: Method, w: World)
    requires SoundCall(c) && i < |At(c, s).txs| && m in {ReINVITE, UPDATE, INFO}
    requires At(c, s).txs[i].kind.CarriesOffer() ==> At(c, s).txs[i].link.None?
    ensures CallDecent(c, Forward(c, s, i, m, w))
  {
    var o := Other(s);
    SendNewKeeps(At(c, o), m, Some(i), false, w.d);
    SetLinkKeeps(At(c, s), i, |At(c, o).txs|);
    PutBothDecent(c, s, SetLink(At(c, s), i, |At(c, o).txs|), SendNew(At(c, o), m, Some(i), false, w.d));
  }

  lemma ForwardInfoCalm(c: Call, s: Side, i: nat, w: World)
    requires SoundCall(c) && i < |At(c, s).txs| && At(c, s).txs[i].kind == INFO
    ensures CallCalm(c, Forward(c, s, i, INFO, w))
  {
    var o := Other(s);
    ForwardDecent(c, s, i, INFO, w);
    SendNewKeeps(At(c, o), INFO, Some(i), false, w.d);
    SetLinkKeeps(At(c, s), i, |At(c, o).txs|);
  }

  // ----- requests

  /** What addIncomingRequest hands to the rest of the handler. */
  predicate Received(c: Call, s: Side, i: nat, q: Request) {
    i < |At(c, s).txs| && Joined(At(c, s).txs[i], q) && q.kind != INVITE
  }

  lemma HungUpLegCalm(l: Leg, d: Draws)
    requires Sound(l) && l.state == BeingEstablished
    ensures Calm(l, EnterAndBye(SendAck(l, None), BeingDropped, None, d))
  {
    hide SendBye, Reaches;
    SendAckCalm(l);
    EnterAndByeCalm(SendAck(l, None), BeingDropped, None, d);
    CalmTrans(l, SendAck(l, None), EnterAndBye(SendAck(l, None), BeingDropped, None, d));
  }

  lemma HangUpCalm(c: Call, s: Side, w: World)
    requires SoundCall(c) && At(c, s).state == BeingEstablished
    ensures CallCalm(c, HangUp(c, s, w))
  {
    hide EnterAndBye, SendAck, Calm;
    HungUpLegCalm(At(c, s), w.d);
    PutCalm(c, s, EnterAndBye(SendAck(At(c, s), None), BeingDropped, None, w.d));
  }

  lemma TellPeerCalm(c: Call, s: Side, d: Direction, w: World)
    requires SoundCall(c)
    ensures CallCalm(c, TellPeer(c, s, d, w))
  {
    var o := Other(s);
    if !At(c, s).linked {
      CallCalmRefl(c);
    } else if d == OUTBOUND {
      RerouteCalm(c, o, 408, w);
    } else if At(c, o).dir == INBOUND {
      CallCalmRefl(c);
    } else if At(c, o).state == BeingEstablished && |At(c, o).txs| > 0 && At(c, o).txs[0].AnyPositive() {
      HangUpCalm(c, o, w);
    } else {
      CancelLinkedCalm(c, o);
    }
  }

  lemma TimedOutCalm(c: Call, s: Side)
    requires SoundCall(c) && IsPending(At(c, s).state)
    ensures CallCalm(c, DropMe(To(c, s, TimedOut), s))
  {
    var c1 := To(c, s, TimedOut);
    ToCalm(c, s, TimedOut);
    DropMeCalm(c1, s);
    CallCalmTrans(c, c1, DropMe(c1, s));
  }

  lemma OnInviteTimeoutCalm(c: Call, s: Side, i: nat, w: World)
    requires SoundCall(c) && i < |At(c, s).txs| && At(c, s).txs[i].kind == INVITE
    ensures CallCalm(c, OnInviteTimeout(c, s, i, w))
  {
    var d := At(c, s).txs[i].dir;
    if IsPending(At(c, s).state) {
      var c1 := DropMe(To(c, s, TimedOut), s);
      TimedOutCalm(c, s);
      TellPeerCalm(c1, s, d, w);
      CallCalmTrans(c, c1, TellPeer(c1, s, d, w));
    } else {
      TellPeerCalm(c, s, d, w);
    }
  }

  lemma GiveUpCalm(c: Call, s: Side, w: World)
    requires SoundCall(c)
    ensures CallCalm(c, GiveUpWaitingForACK(c, s, w))
  {
    var found := First(At(c, s).txs, (t: Tx) => t.dir == INBOUND && t.kind == INVITE && t.isFinalized && !t.isACKed);
    if found.Some? {
      OnInviteTimeoutCalm(c, s, found.value, w);
    }
  }

  lemma HandleOfferDecent(c: Call, s: Side, i: nat, q: Request, w: World)
    requires SoundCall(c) && Alive(c, s) && Received(c, s, i, q) && q.kind.CarriesOffer()
    ensures CallDecent(c, HandleOffer(c, s, i, q, w))
  {
    if !At(c, s).linked {
      AnswerOfferCalm(c, s, i, q, w);
    } else {
      var c1 := Flag(c, s, true);
      RaiseCalm(c, s);
      SendReplyCalm(c1, s, Some(i), 491, NoBody, w);
      ForwardOfferDecent(c1, s, i, q, w);
      CallDecentTrans(c, c1, HandleOffer(c, s, i, q, w));
    }
  }

  lemma AnswerOfferCalm(c: Call, s: Side, i: nat, q: Request, w: World)
    requires SoundCall(c) && Alive(c, s) && Received(c, s, i, q) && q.kind.CarriesOffer()
    ensures CallCalm(c, AnswerOffer(c, s, i, q, w))
  {
    SendReplyCalm(c, s, Some(i), w.answer, if w.answer == 200 then q.body else NoBody, w);
    SendReplyCalm(c, s, Some(i), 488, NoBody, w);
  }

  lemma ForwardOfferDecent(c: Call, s: Side, i: nat, q: Request, w: World)
    requires SoundCall(c) && Alive(c, s) && Received(c, s, i, q) && q.kind.CarriesOffer()
    ensures CallDecent(c, ForwardOffer(c, s, i, q, w))
  {
    if q.kind == ReINVITE && At(c, Other(s)).transformEarlyToFinal {
      SendReplyCalm(c, s, Some(i), 488, NoBody, w);
      ForwardDecent(c, s, i, UPDATE, w);
    } else {
      ForwardDecent(c, s, i, q.kind, w);
    }
  }

  lemma PropagateACKCalm(c: Call, s: Side)
    requires SoundCall(c) && s == Ingress
    ensures CallCalm(c, PropagateACK(c, s))
  {
    DropMeCalm(c, s);
    var c1 := Finish(c, Egress);
    FinishCalm(c, Egress);
    AckKeeps(c1, Egress, None);
    CallCalmTrans(c, c1, Ack(c1, Egress, None));
  }

  lemma HandleOfferACKDecent(c: Call, s: Side, i: nat)
    requires SoundCall(c) && i < |At(c, s).txs|
    ensures CallDecent(c, HandleOfferACK(c, s, i))
  {
    var o := Other(s);
    if At(c, s).linked && LinkOf(c, s, i, o) {
      var j := At(c, s).txs[i].link.value.j;
      if At(c, o).txs[j].AnyPositive() {
        OfferOverDecent(c);
        AckDecent(c, OfferOver(c), o, j);
      } else {
        CallCalmRefl(c);
        AckDecent(c, c, o, j);
      }
    }
  }

  lemma AckDecent(c: Call, c1: Call, s: Side, j: nat)
    requires SoundCall(c) && CallDecent(c, c1) && j < |At(c1, s).txs|
    ensures CallDecent(c, Ack(c1, s, Some(j)))
  {
    AckKeeps(c1, s, Some(j));
    CallDecentTrans(c, c1, Ack(c1, s, Some(j)));
  }

  /** The ACK of the INVITE. */
  lemma InviteACKGrows(c: Call)
    requires SoundCall(c)
    ensures var d := PropagateACK(Finish(c, Ingress), Ingress);
            && SoundCall(d) && CallGrows(c, d) && CallQuiet(c, d)
            && (c.ingress.state != BeingEstablished ==> CallDecent(c, d))
  {
    var c1 := Finish(c, Ingress);
    FinalizeKeeps(c.ingress);
    assert CallQuiet(c, c1);
    PropagateACKCalm(c1, Ingress);
    CallQuietTrans(c, c1, PropagateACK(c1, Ingress));
    if c.ingress.state != BeingEstablished {
      FinishCalm(c, Ingress);
      CallDecentTrans(c, c1, PropagateACK(c1, Ingress));
    }
  }

  lemma HandleACKGrows(c: Call, s: Side, i: nat)
    requires SoundCall(c) && i < |At(c, s).txs| && At(c, s).txs[i].dir == INBOUND
    ensures SoundCall(HandleACK(c, s, i)) && CallGrows(c, HandleACK(c, s, i))
    ensures At(c, s).txs[i].kind != INVITE || c.ingress.state != BeingEstablished ==> CallDecent(c, HandleACK(c, s, i))
  {
    if At(c, s).txs[i].kind == INVITE {
      assert s == Ingress;
      InviteACKGrows(c);
    } else {
      HandleOfferACKDecent(c, s, i);
    }
  }

  lemma HandleACKQuiet(c: Call, s: Side, i: nat)
    requires SoundCall(c) && i < |At(c, s).txs| && At(c, s).txs[i].dir == INBOUND && At(c, s).txs[i].kind == INVITE
    ensures CallQuiet(c, HandleACK(c, s, i))
  {
    assert s == Ingress;
    InviteACKGrows(c);
  }

  lemma CancelPeerCalm(c: Call, s: Side, w: World)
    requires SoundCall(c) && Alive(c, s) && At(c, s).state != BeingEstablished
    ensures CallCalm(c, CancelPeer(c, s, w))
  {
    var o := Other(s);
    SendReplyCalm(c, s, None, 487, NoBody, w);
    ReleaseLinkedCalm(c, s, None, w);
    var c1 := Put(c, o, CancelMe(At(c, o)));
    CancelLinkedCalm(c, o);
    SendReplyCalm(c1, s, None, 487, NoBody, w);
    CallCalmTrans(c, c1, SendReply(c1, s, None, 487, NoBody, w));
  }

  lemma HandleCancelCalm(c: Call, s: Side, i: nat, w: World)
    requires SoundCall(c) && Alive(c, s) && i < |At(c, s).txs| && At(c, s).txs[i].kind == CANCEL
    ensures CallCalm(c, HandleCancel(c, s, i, w))
  {
    hide CancelPeer;
    if At(c, s).state != BeingEstablished {
      SendReplyCalm(c, s, Some(i), 400, NoBody, w);
    } else {
      var c0 := To(c, s, BeingCancelled);
      var c1 := SendReply(c0, s, Some(i), 200, NoBody, w);
      ToCalm(c, s, BeingCancelled);
      SendReplyCalm(c0, s, Some(i), 200, NoBody, w);
      CallCalmTrans(c, c0, c1);
      SendReplyState(c0, s, Some(i), 200, NoBody, w);
      CancelPeerCalm(c1, s, w);
      CallCalmTrans(c, c1, CancelPeer(c1, s, w));
    }
  }

  lemma SendReplyState(c: Call, s: Side, trans: Option<nat>, code: Status, body: Body, w: World)
    requires Has(c, s, trans)
    ensures var r := SendReply(c, s, trans, code, body, w);
            At(r, s).state == At(c, s).state && At(r, s).linked == At(c, s).linked && At(r, Other(s)) == At(c, Other(s))
  {
  }

  lemma LastReplyCalm(c: Call, s: Side, i: nat, code: Status, w: World)
    requires SoundCall(c) && Alive(c, s) && 0 < i < |At(c, s).txs|
    ensures CallCalm(c, DropMe(SendReply(c, s, Some(i), code, NoBody, w), s))
  {
    var c1 := SendReply(c, s, Some(i), code, NoBody, w);
    SendReplyCalm(c, s, Some(i), code, NoBody, w);
    DropMeCalm(c1, s);
    CallCalmTrans(c, c1, DropMe(c1, s));
  }

  lemma EndCalm(c: Call, s: Side, state: State, i: nat, code: Status, w: World)
    requires SoundCall(c) && Alive(c, s) && 0 < i < |At(c, s).txs|
    requires Phase(state) == 4
    ensures CallCalm(c, End(c, s, state, i, code, w))
  {
    var c1 := To(c, s, state);
    ToCalm(c, s, state);
    LastReplyCalm(c1, s, i, code, w);
    CallCalmTrans(c, c1, End(c, s, state, i, code, w));
  }

  lemma ByePeerCalm(c: Call, s: Side, i: nat, w: World)
    requires SoundCall(c) && i < |At(c, s).txs| && At(c, s).txs[i].kind == BYE
    ensures CallCalm(c, ByePeer(c, s, i, w))
  {
    if !At(c, s).linked {
      CallCalmRefl(c);
    } else if At(c, Other(s)).state == Established {
      ReleaseLinkedCalm(c, s, Some(i), w);
    } else {
      CancelLinkedCalm(c, Other(s));
    }
  }

  lemma HandleByeCalm(c: Call, s: Side, i: nat, w: World)
    requires SoundCall(c) && Alive(c, s) && i < |At(c, s).txs| && At(c, s).txs[i].kind == BYE
    ensures CallCalm(c, HandleBye(c, s, i, w))
  {
    if At(c, s).state != Established {
      SendReplyCalm(c, s, Some(i), 400, NoBody, w);
    } else {
      var c1 := End(c, s, Cleared, i, 200, w);
      EndCalm(c, s, Cleared, i, 200, w);
      assert TxGrows(At(c, s).txs[i], At(c1, s).txs[i]);
      ByePeerCalm(c1, s, i, w);
      CallCalmTrans(c, c1, ByePeer(c1, s, i, w));
    }
  }

  lemma RelayPRACKCalm(c: Call, s: Side, i: nat, w: World)
    requires SoundCall(c) && i < |At(c, s).txs|
    ensures CallCalm(c, RelayPRACK(c, s, i, w))
  {
    var o := Other(s);
    if LinkOf(c, s, i, o) && At(c, o).txs[At(c, s).txs[i].link.value.j].kind == PRACK {
      SendPrackCalm(At(c, o), At(c, s).txs[i].link.value.j, w.d);
      PutCalm(c, o, SendPrack(At(c, o), At(c, s).txs[i].link.value.j, w.d));
    }
  }

  lemma HandlePrackCalm(c: Call, s: Side, i: nat, w: World)
    requires SoundCall(c) && Alive(c, s) && i < |At(c, s).txs| && At(c, s).txs[i].kind == PRACK
    ensures CallCalm(c, HandlePrack(c, s, i, w))
  {
    if At(c, s).txs[i].prack != PRACKExpected {
      SendReplyCalm(c, s, Some(i), 400, NoBody, w);
    } else {
      var c1 := SendReply(c, s, Some(i), 200, NoBody, w);
      SendReplyCalm(c, s, Some(i), 200, NoBody, w);
      RelayPRACKCalm(c1, s, i, w);
      CallCalmTrans(c, c1, RelayPRACK(c1, s, i, w));
    }
  }

  lemma HandleReferCalm(c: Call, s: Side, i: nat, w: World)
    requires SoundCall(c) && Alive(c, s) && i < |At(c, s).txs| && At(c, s).txs[i].kind == REFER
    ensures CallCalm(c, HandleRefer(c, s, i, w))
  {
    if At(c, s).state != Established {
      SendReplyCalm(c, s, Some(i), 480, NoBody, w);
    } else if !At(c, s).linked {
      CallCalmRefl(c);
    } else if At(c, Other(s)).state != Established {
      SendReplyCalm(c, s, Some(i), 480, NoBody, w);
    } else {
      SendReplyCalm(c, s, Some(i), if w.referOk then 200 else 400, NoBody, w);
    }
  }

  /** Only the ACK of the INVITE answers the caller. */
  predicate Confirms(c: Call, s: Side, i: nat, q: Request)
    requires i < |At(c, s).txs|
  {
    q.kind == ACK && q.body != UnknownParts && At(c, s).txs[i].kind == INVITE && c.ingress.state == BeingEstablished
  }

  /** Only offers, and the ACKs of re-INVITEs, bear on the dialogue. */
  predicate Bears(q: Request) {
    q.body != UnknownParts && (q.kind == ReINVITE || q.kind == ACK || (q.kind == UPDATE && q.body != NoBody))
  }

  lemma HandleReInviteDecent(c: Call, s: Side, i: nat, q: Request, w: World)
    requires SoundCall(c) && Alive(c, s) && Received(c, s, i, q) && q.kind == ReINVITE
    ensures CallDecent(c, HandleOffer(SendReply(c, s, Some(i), 100, NoBody, w), s, i, q, w))
  {
    var c1 := SendReply(c, s, Some(i), 100, NoBody, w);
    SendReplyCalm(c, s, Some(i), 100, NoBody, w);
    SendReplyLink(c, s, i, 100, NoBody, w);
    HandleOfferDecent(c1, s, i, q, w);
    CallDecentTrans(c, c1, HandleOffer(c1, s, i, q, w));
  }

  lemma HandleRegisterCalm(c: Call, s: Side, i: nat, w: World)
    requires SoundCall(c) && Alive(c, s) && i < |At(c, s).txs| && At(c, s).txs[i].kind == REGISTER
    ensures CallCalm(c, HandleRegister(c, s, i, w))
  {
    match w.registration
    case BadContact => EndCalm(c, s, Dropped, i, 400, w);
    case Expired => EndCalm(c, s, Unregistered, i, 200, w);
    case Refreshed => EndCalm(c, s, Registered, i, 200, w);
  }

  lemma HandleInfoCalm(c: Call, s: Side, i: nat, w: World)
    requires SoundCall(c) && i < |At(c, s).txs| && At(c, s).txs[i].kind == INFO
    ensures CallCalm(c, HandleInfo(c, s, i, w))
  {
    if At(c, s).linked {
      ForwardInfoCalm(c, s, i, w);
    } else {
      CallCalmRefl(c);
    }
  }

  lemma HandlePlainCalm(c: Call, s: Side, i: nat, q: Request, w: World)
    requires SoundCall(c) && Alive(c, s) && Received(c, s, i, q)
    requires q.kind !in {ReINVITE, UPDATE, ACK, CANCEL, BYE, PRACK}
    ensures CallCalm(c, HandlePlain(c, s, i, q, w))
  {
    if q.kind == REFER {
      HandleReferCalm(c, s, i, w);
    } else if q.kind == INFO {
      HandleInfoCalm(c, s, i, w);
    } else if q.kind == NOTIFY {
      SendReplyCalm(c, s, Some(i), 405, NoBody, w);
    } else if q.kind == OPTIONS {
      if q.outOfDialogue {
        EndCalm(c, s, Probed, i, 200, w);
      } else {
        SendReplyCalm(c, s, Some(i), 200, NoBody, w);
      }
    } else if q.kind == REGISTER {
      HandleRegisterCalm(c, s, i, w);
    } else {
      EndCalm(c, s, Dropped, i, 405, w);
    }
  }

  lemma HandleRequestKeeps(c: Call, s: Side, i: nat, q: Request, w: World)
    requires SoundCall(c) && Alive(c, s) && Received(c, s, i, q)
    ensures SoundCall(HandleRequest(c, s, i, q, w)) && CallGrows(c, HandleRequest(c, s, i, q, w))
    ensures !Confirms(c, s, i, q) ==> CallDecent(c, HandleRequest(c, s, i, q, w))
    ensures !Bears(q) ==> CallCalm(c, HandleRequest(c, s, i, q, w))
  {
    if q.body == UnknownParts {
      RefuseBodyCalm(c, s, i, q, w);
    } else if q.kind == ReINVITE {
      HandleReInviteDecent(c, s, i, q, w);
    } else if q.kind == UPDATE {
      if q.body == NoBody {
        SendReplyCalm(c, s, Some(i), 200, NoBody, w);
      } else {
        HandleOfferDecent(c, s, i, q, w);
      }
    } else if q.kind == ACK {
      HandleACKGrows(c, s, i);
    } else if q.kind == CANCEL {
      HandleCancelCalm(c, s, i, w);
    } else if q.kind == BYE {
      HandleByeCalm(c, s, i, w);
    } else if q.kind == PRACK {
      HandlePrackCalm(c, s, i, w);
    } else {
      HandlePlainCalm(c, s, i, q, w);
    }
  }

  lemma SendReplyLink(c: Call, s: Side, i: nat, code: Status, body: Body, w: World)
    requires i < |At(c, s).txs|
    ensures var r := SendReply(c, s, Some(i), code, body, w);
            && i < |At(r, s).txs| && At(r, s).txs[i].link == At(c, s).txs[i].link
            && At(r, s).txs[i].isACKed == At(c, s).txs[i].isACKed
  {
  }

  lemma RefuseBodyCalm(c: Call, s: Side, i: nat, q: Request, w: World)
    requires SoundCall(c) && Alive(c, s) && Received(c, s, i, q)
    ensures CallCalm(c, SendReply(c, s, Some(i), 415, NoBody, w))
  {
    if s == Ingress && i == 0 {
      var l := c.ingress;
      AnswerKeeps(l, Some(0), Reply(415, NoBody), None, c.repeats, w.d);
      var m := Answer(l, Some(0), Reply(415, NoBody), None, c.repeats, w.d);
      assert Modest(l, m);
      PutCalm(c, s, m);
    } else {
      SendReplyCalm(c, s, Some(i), 415, NoBody, w);
    }
  }

  /** A BYE first ends the wait for an ACK. */
  lemma ByeTakenKeeps(c: Call, s: Side, q: Request, w: World)
    requires SoundCall(c) && Alive(c, s) && q.kind == BYE
    ensures CallCalm(c, TakeRequest(GiveUpWaitingForACK(c, s, w), s, q, w))
  {
    hide TakeRequest, GiveUpWaitingForACK, CallCalm;
    var c0 := GiveUpWaitingForACK(c, s, w);
    GiveUpAlive(c, s, w);
    TakeRequestKeeps(c0, s, q, w);
    CallCalmTrans(c, c0, TakeRequest(c0, s, q, w));
  }

  lemma GiveUpAlive(c: Call, s: Side, w: World)
    requires SoundCall(c) && Alive(c, s)
    ensures var d := GiveUpWaitingForACK(c, s, w); CallCalm(c, d) && SoundCall(d) && Alive(d, s)
  {
    hide GiveUpWaitingForACK;
    GiveUpCalm(c, s, w);
  }

  lemma OnRequestKeeps(c: Call, s: Side, q: Request, w: World)
    requires SoundCall(c)
    ensures SoundCall(OnRequest(c, s, q, w)) && CallGrows(c, OnRequest(c, s, q, w))
    ensures q.kind != ACK || c.ingress.state != BeingEstablished ==> CallDecent(c, OnRequest(c, s, q, w))
    ensures !Bears(q) ==> CallCalm(c, OnRequest(c, s, q, w))
  {
    hide TakeRequest, GiveUpWaitingForACK;
    if At(c, s).disposed || IsDuplicateRequest(At(c, s), q) {
      CallCalmRefl(c);
    } else if q.kind == BYE {
      ByeTakenKeeps(c, s, q, w);
    } else {
      TakeRequestKeeps(c, s, q, w);
    }
  }

  lemma TakeRequestKeeps(c: Call, s: Side, q: Request, w: World)
    requires SoundCall(c) && Alive(c, s) && q.kind != INVITE
    ensures SoundCall(TakeRequest(c, s, q, w)) && CallGrows(c, TakeRequest(c, s, q, w))
    ensures q.kind != ACK || c.ingress.state != BeingEstablished ==> CallDecent(c, TakeRequest(c, s, q, w))
    ensures !Bears(q) ==> CallCalm(c, TakeRequest(c, s, q, w))
  {
    hide HandleRequest, Reaches;
    var (l, t) := AddIncomingRequest(At(c, s), q);
    var c1 := Put(c, s, l);
    AddIncomingRequestCalm(At(c, s), q);
    PutCalm(c, s, l);
    if t.Some? {
      HandleRequestKeeps(c1, s, t.value, q, w);
      CallGrowsTrans(c, c1, TakeRequest(c, s, q, w));
      if q.kind != ACK || c.ingress.state != BeingEstablished {
        CallDecentTrans(c, c1, TakeRequest(c, s, q, w));
      }
      if !Bears(q) {
        CallCalmTrans(c, c1, TakeRequest(c, s, q, w));
      }
    }
  }

  // ----- responses

  /** The response belongs to a request sent on leg s, whose transaction is i. */
  predicate Answered(c: Call, s: Side, i: nat) {
    i < |At(c, s).txs| && At(c, s).txs[i].dir == OUTBOUND
  }

  lemma InviteSentByEgress(c: Call, s: Side, i: nat)
    requires SoundCall(c) && Answered(c, s, i) && At(c, s).txs[i].kind == INVITE
    ensures s == Egress && i == 0 && c.egress.linked && Alive(c, Egress)
  {
  }

  lemma PutQuiet(c: Call, s: Side, l: Leg)
    requires SoundCall(c) && Grows(At(c, s), l) && Sound(l) && Quiet(At(c, s), l)
    ensures CallQuiet(c, Put(c, s, l))
  {
  }

  lemma SendReplyQuiet(c: Call, s: Side, trans: Option<nat>, code: Status, body: Body, w: World)
    requires SoundCall(c) && Has(c, s, trans)
    ensures CallQuiet(c, SendReply(c, s, trans, code, body, w))
  {
    AnswerKeeps(At(c, s), trans, Reply(code, body), None, c.repeats, w.d);
    PutQuiet(c, s, Answer(At(c, s), trans, Reply(code, body), None, c.repeats, w.d));
  }

  /** The first SDP of the called party, in the early-to-final flow. */
  lemma On18xEarlyQuiet(c: Call, r: Response, w: World)
    requires SoundCall(c) && Alive(c, Egress)
    ensures CallQuiet(c, SendReply(Put(c, Egress, c.egress.(received18xSDP := true)), Ingress, None, 200, r.body, w))
  {
    hide SendReply;
    var c1 := Put(c, Egress, c.egress.(received18xSDP := true));
    TouchReaches(c.egress, c1.egress);
    SendReplyQuiet(c1, Ingress, None, 200, r.body, w);
    CallQuietTrans(c, c1, SendReply(c1, Ingress, None, 200, r.body, w));
  }

  lemma On18xKeeps(c: Call, r: Response, w: World)
    requires SoundCall(c) && Alive(c, Egress) && Is18x(r.code)
    ensures CallQuiet(c, On18x(c, Egress, r, w))
    ensures !(c.egress.transformEarlyToFinal && r.body.WithSDP?) ==> CallDecent(c, On18x(c, Egress, r, w))
  {
    hide SendReply, OwePRACK;
    var ss := c.egress;
    if ss.state != BeingEstablished || (ss.transformEarlyToFinal && ss.received18xSDP) {
      CallCalmRefl(c);
    } else if ss.transformEarlyToFinal && r.body.WithSDP? {
      On18xEarlyQuiet(c, r, w);
    } else if ss.transformEarlyToFinal {
      SendReplyCalm(c, Ingress, None, r.code, NoBody, w);
    } else {
      On18xPlainCalm(c, r, w);
    }
  }

  lemma On18xPlainCalm(c: Call, r: Response, w: World)
    requires SoundCall(c) && Alive(c, Egress) && Is18x(r.code) && !c.egress.transformEarlyToFinal
    requires c.egress.state == BeingEstablished
    ensures CallCalm(c, On18x(c, Egress, r, w))
  {
    var ss := c.egress;
    if r.require100rel {
      var c1 := Put(c, Egress, OwePRACK(ss, r.rseq));
      OwePRACKCalm(ss, r.rseq);
      PutCalm(c, Egress, OwePRACK(ss, r.rseq));
      if c.ingress.state == BeingEstablished {
        Relay18xCalm(c1, Reply(r.code, r.body), Some(|ss.txs|), w);
        CallCalmTrans(c, c1, Relay18x(c1, Ingress, Reply(r.code, r.body), Some(|ss.txs|), w));
      }
    } else if c.ingress.state == BeingEstablished {
      Relay18xCalm(c, Reply(r.code, r.body), None, w);
    } else {
      CallCalmRefl(c);
    }
  }

  lemma Relay18xCalm(c: Call, r: Reply, owed: Option<nat>, w: World)
    requires SoundCall(c) && Is18x(r.code) && Has(c, Egress, owed)
    requires owed.Some? ==> c.egress.txs[owed.value].kind == PRACK
    ensures CallCalm(c, Relay18x(c, Ingress, r, owed, w))
  {
    var l := Answer(c.ingress, None, r, owed, c.repeats, w.d);
    var c1 := Put(c, Ingress, l);
    AnswerKeeps(c.ingress, None, r, owed, c.repeats, w.d);
    PutCalm(c, Ingress, l);
    if owed.Some? && |l.txs| > |c.ingress.txs| {
      var m := SetLink(c.egress, owed.value, |c.ingress.txs|);
      SetLinkKeeps(c.egress, owed.value, |c.ingress.txs|);
      PutCalm(c1, Egress, m);
      CallCalmTrans(c, c1, Put(c1, Egress, m));
    }
  }

  /** The answered offer names the offer it was forwarded from. */
  predicate MatesWithOffer(c: Call, s: Side, i: nat)
    requires i < |At(c, s).txs|
  {
    && LinkOf(c, s, i, Other(s))
    && (var u := At(c, Other(s)).txs[At(c, s).txs[i].link.value.j]; u.kind.CarriesOffer() && u.dir == INBOUND)
  }

  lemma RelayBackKeeps(c: Call, s: Side, i: nat, r: Response, w: World)
    requires SoundCall(c) && Answered(c, s, i)
    ensures CallQuiet(c, RelayBack(c, s, i, r, w))
    ensures MatesWithOffer(c, s, i) ==> CallCalm(c, RelayBack(c, s, i, r, w))
  {
    var o := Other(s);
    if LinkOf(c, s, i, o) {
      var j := At(c, s).txs[i].link.value.j;
      SendReplyQuiet(c, o, Some(j), r.code, r.body, w);
      if MatesWithOffer(c, s, i) {
        SendReplyCalm(c, o, Some(j), r.code, r.body, w);
      }
    } else {
      SendReplyQuiet(c, o, None, r.code, r.body, w);
    }
  }

  lemma EndedByByeCalm(c: Call, s: Side, i: nat)
    requires SoundCall(c) && Answered(c, s, i) && At(c, s).txs[i].kind in {BYE, CANCEL}
    ensures CallCalm(c, DropMe(Finish(c, s), s))
  {
    FinishCalm(c, s);
    DropMeCalm(Finish(c, s), s);
    CallCalmTrans(c, Finish(c, s), DropMe(Finish(c, s), s));
  }

  lemma LateAnswerCalm(c: Call, w: World)
    requires SoundCall(c) && Alive(c, Egress) && c.egress.state != BeingEstablished
    ensures CallCalm(c, Put(c, Egress, SendBye(SendAck(c.egress, None), None, w.d)))
  {
    var l := SendAck(c.egress, None);
    SendAckCalm(c.egress);
    SendByeCalm(l, None, w.d);
    CalmTrans(c.egress, l, SendBye(l, None, w.d));
    PutCalm(c, Egress, SendBye(l, None, w.d));
  }

  /** The 2xx of the egress INVITE. */
  lemma InviteAnsweredQuiet(c: Call, r: Response, w: World)
    requires SoundCall(c) && Alive(c, Egress)
    ensures CallQuiet(c, InviteAnswered(c, Egress, r, w))
    ensures c.egress.state != BeingEstablished ==> CallDecent(c, InviteAnswered(c, Egress, r, w))
  {
    var ss := c.egress;
    if ss.state != BeingEstablished {
      LateAnswerCalm(c, w);
    } else if ss.transformEarlyToFinal && ss.received18xSDP {
      ConfirmEarlyKeeps(ss);
    } else {
      AnswerRelayedQuiet(c, r, w);
    }
  }

  lemma NoLongerTransforming(l: Leg)
    requires Sound(l)
    ensures var b := l.(transformEarlyToFinal := false); Grows(l, b) && Sound(b) && Quiet(l, b)
    ensures l.state != BeingEstablished ==> Calm(l, l.(transformEarlyToFinal := false))
  {
    TouchReaches(l, l.(transformEarlyToFinal := false));
  }

  lemma AnswerRelayedQuiet(c: Call, r: Response, w: World)
    requires SoundCall(c)
    ensures CallQuiet(c, RelayAnswer(c, Egress, r, w))
  {
    var c1 := Put(c, Egress, c.egress.(transformEarlyToFinal := false));
    NoLongerTransforming(c.egress);
    assert CallQuiet(c, c1);
    SendReplyQuiet(c1, Ingress, None, r.code, r.body, w);
    CallQuietTrans(c, c1, RelayAnswer(c, Egress, r, w));
  }

  lemma ConfirmEarlyKeeps(l: Leg)
    requires Sound(l)
    ensures Grows(l, ConfirmEarly(l)) && Sound(ConfirmEarly(l)) && Quiet(l, ConfirmEarly(l))
  {
    var l1 := l.(transformEarlyToFinal := false);
    var l2 := Finalize(l1);
    NoLongerTransforming(l);
    FinalizeKeeps(l1);
    GrowsTrans(l, l1, l2);
    QuietTrans(l, l1, l2);
    SendAckCalm(l2);
    GrowsTrans(l, l2, ConfirmEarly(l));
    QuietTrans(l, l2, ConfirmEarly(l));
  }

  lemma RelayUpdateAnswerKeeps(c: Call, s: Side, i: nat, r: Response, w: World)
    requires SoundCall(c) && Answered(c, s, i)
    ensures var d := RelayBack(OfferOver(c), s, i, r, w);
            SoundCall(d) && CallGrows(c, d) && (MatesWithOffer(c, s, i) ==> CallDecent(c, d))
  {
    var c1 := OfferOver(c);
    OfferOverDecent(c);
    RelayBackKeeps(c1, s, i, r, w);
    CallGrowsTrans(c, c1, RelayBack(c1, s, i, r, w));
    if MatesWithOffer(c, s, i) {
      CallDecentTrans(c, c1, RelayBack(c1, s, i, r, w));
    }
  }

  lemma OnPositiveKeeps(c: Call, s: Side, i: nat, r: Response, w: World)
    requires SoundCall(c) && Answered(c, s, i) && Alive(c, s)
    ensures SoundCall(OnPositive(c, s, i, r, w)) && CallGrows(c, OnPositive(c, s, i, r, w))
    ensures At(c, s).txs[i].kind != UPDATE ==> CallQuiet(c, OnPositive(c, s, i, r, w))
    ensures (At(c, s).txs[i].kind == INVITE ==> c.egress.state != BeingEstablished) &&
            (At(c, s).txs[i].kind.CarriesOffer() ==> MatesWithOffer(c, s, i)) ==>
              CallDecent(c, OnPositive(c, s, i, r, w))
  {
    var kind := At(c, s).txs[i].kind;
    if kind == INVITE {
      InviteSentByEgress(c, s, i);
      InviteAnsweredQuiet(c, r, w);
    } else if kind == UPDATE {
      RelayUpdateAnswerKeeps(c, s, i, r, w);
    } else if kind == ReINVITE {
      RelayBackKeeps(c, s, i, r, w);
    } else if kind == BYE {
      EndedByByeCalm(c, s, i);
    } else {
      CallCalmRefl(c);
    }
  }

  lemma FinishAndReleaseCalm(c: Call, s: Side, w: World)
    requires SoundCall(c)
    ensures CallCalm(c, ReleaseCall(Finish(c, s), s, w).0)
  {
    var c1 := Finish(c, s);
    if s == Ingress && c.ingress.state == BeingEstablished {
      var c2 := ByeAfter(c, s, BeingDropped, w);
      assert Enter(At(c1, s), BeingDropped) == Enter(At(c, s), BeingDropped);
      assert ByeAfter(c1, s, BeingDropped, w) == c2;
      ByeAfterCalm(c, s, BeingDropped, w);
      if !ByeFails(At(c1, s)) {
        ReleasePeerCalm(c2, s, w);
        CallCalmTrans(c, c2, ReleasePeer(c2, s, w).0);
      }
    } else {
      FinishCalm(c, s);
      ReleaseCallCalm(c1, s, w);
      CallCalmTrans(c, c1, ReleaseCall(c1, s, w).0);
    }
  }

  lemma OnRedirectCalm(c: Call, s: Side, i: nat, r: Response, w: World)
    requires SoundCall(c) && Answered(c, s, i) && Alive(c, s) && 300 <= r.code <= 399
    ensures CallCalm(c, OnRedirect(c, s, At(c, s).txs[i].kind, r, w))
  {
    var kind := At(c, s).txs[i].kind;
    if kind == INVITE {
      InviteSentByEgress(c, s, i);
      var l := AckFailure(c.egress, Redirected);
      AckFailureCalm(c.egress, Redirected);
      PutCalm(c, Egress, l);
      RerouteCalm(Put(c, Egress, l), Ingress, r.code, w);
      CallCalmTrans(c, Put(c, Egress, l), Reroute(Put(c, Egress, l), Ingress, r.code, w));
    } else if kind == CANCEL || kind == BYE {
      DropMeCalm(c, s);
    } else {
      FinishAndReleaseCalm(c, s, w);
    }
  }

  lemma RefusedCalm(l: Leg)
    requires Sound(l) && l.state == BeingEstablished && l.dir == OUTBOUND
    ensures Calm(l, Refused(l))
  {
    var l1 := AckFailure(l, Rejected);
    AckFailureCalm(l, Rejected);
    AckFailureState(l, Rejected);
    NoLongerTransforming(l1);
    CalmTrans(l, l1, Refused(l));
  }

  lemma AckFailureState(l: Leg, s: State)
    requires l.dir == OUTBOUND
    ensures AckFailure(l, s).state == s
  {
  }

  lemma InviteFailedCalm(c: Call, r: Response, w: World)
    requires SoundCall(c) && Alive(c, Egress) && r.code >= 400 && c.egress.state == BeingEstablished
    ensures CallCalm(c, InviteFailed(c, Egress, r, w))
  {
    var c1 := Put(c, Egress, Refused(c.egress));
    RefusedCalm(c.egress);
    PutCalm(c, Egress, Refused(c.egress));
    if c.egress.transformEarlyToFinal {
      FailCallerCalm(c1, r, w);
      CallCalmTrans(c, c1, FailCaller(c1, Egress, r, w));
    } else {
      RerouteCalm(c1, Ingress, r.code, w);
      CallCalmTrans(c, c1, Reroute(c1, Ingress, r.code, w));
    }
  }

  lemma FailCallerCalm(c: Call, r: Response, w: World)
    requires SoundCall(c) && r.code >= 400
    ensures CallCalm(c, FailCaller(c, Egress, r, w))
  {
    if c.ingress.state == Established {
      ReleaseLinkedCalm(c, Egress, None, w);
    } else {
      RejectMeCalm(c.ingress, None, r.code, c.repeats, w.d);
      PutCalm(c, Ingress, RejectMe(c.ingress, None, r.code, c.repeats, w.d));
    }
  }

  lemma OnFailureKeeps(c: Call, s: Side, i: nat, r: Response, w: World)
    requires SoundCall(c) && Answered(c, s, i) && Alive(c, s) && r.code >= 400
    ensures CallQuiet(c, OnFailure(c, s, i, r, w))
    ensures (At(c, s).txs[i].kind.CarriesOffer() ==> MatesWithOffer(c, s, i)) ==>
              CallDecent(c, OnFailure(c, s, i, r, w))
  {
    var ss := At(c, s);
    var kind := ss.txs[i].kind;
    if kind == INVITE {
      InviteSentByEgress(c, s, i);
      if ss.state == BeingEstablished {
        InviteFailedCalm(c, r, w);
      } else if ss.state == BeingCancelled {
        AckFailureCalm(ss, Cancelled);
        PutCalm(c, s, AckFailure(ss, Cancelled));
      } else {
        CallCalmRefl(c);
      }
    } else if kind.CarriesOffer() {
      RelayBackKeeps(c, s, i, r, w);
    } else if kind == BYE {
      EndedByByeCalm(c, s, i);
    } else {
      ReleaseCallCalm(c, s, w);
      CallCalmRefl(c);
    }
  }

  /** The response decides whether the caller is answered. */
  predicate AnswersCaller(c: Call, s: Side, i: nat, r: Response)
    requires i < |At(c, s).txs|
  {
    && At(c, s).txs[i].kind == INVITE && c.egress.state == BeingEstablished
    && (IsPositive(r.code) || (Is18x(r.code) && c.egress.transformEarlyToFinal && r.body.WithSDP?))
  }

  predicate OfferMates(c: Call, s: Side, i: nat)
    requires i < |At(c, s).txs|
  {
    At(c, s).txs[i].kind.CarriesOffer() ==> MatesWithOffer(c, s, i)
  }

  lemma HandleResponseKeeps(c: Call, s: Side, i: nat, r: Response, w: World)
    requires SoundCall(c) && Answered(c, s, i) && Alive(c, s)
    ensures SoundCall(HandleResponse(c, s, i, r, w)) && CallGrows(c, HandleResponse(c, s, i, r, w))
    ensures At(c, s).txs[i].kind != UPDATE || !IsPositive(r.code) ==> CallQuiet(c, HandleResponse(c, s, i, r, w))
    ensures OfferMates(c, s, i) && !AnswersCaller(c, s, i, r) ==> CallDecent(c, HandleResponse(c, s, i, r, w))
  {
    var kind := At(c, s).txs[i].kind;
    if r.code <= 199 && kind != INVITE {
      CallCalmRefl(c);
    } else if !At(c, s).linked {
      if IsPositive(r.code) && kind == BYE {
        EndedByByeCalm(c, s, i);
      } else {
        CallCalmRefl(c);
      }
    } else if Is18x(r.code) {
      InviteSentByEgress(c, s, i);
      On18xKeeps(c, r, w);
      CallCalmRefl(c);
    } else if r.code <= 199 {
      CallCalmRefl(c);
    } else if r.code <= 299 {
      OnPositiveKeeps(c, s, i, r, w);
    } else if r.code <= 399 {
      OnRedirectCalm(c, s, i, r, w);
    } else {
      OnFailureKeeps(c, s, i, r, w);
    }
  }

  /** Every outgoing offer of leg s that a response can match names the offer it came from. */
  predicate AllMate(c: Call, s: Side) {
    forall i :: 0 <= i < |At(c, s).txs| && At(c, s).txs[i].dir == OUTBOUND ==> OfferMates(c, s, i)
  }

  /** The transaction of leg s that a response belongs to, unless it is discarded. */
  function Matched(c: Call, s: Side, r: Response): (m: Option<nat>)
    ensures m.Some? ==> m.value < |At(c, s).txs| && MatchesResponse(At(c, s).txs[m.value], r)
  {
    if At(c, s).disposed || IsDuplicateResponse(At(c, s), r) then None else FindResponse(At(c, s), r)
  }

  /** The response is recorded in its transaction. */
  function Noted(c: Call, s: Side, i: nat, r: Response): Call
    requires i < |At(c, s).txs|
  {
    Put(c, s, RespondTo(At(c, s), i, Reply(r.code, r.body)))
  }

  lemma OnResponseUnfolds(c: Call, s: Side, r: Response, w: World)
    ensures OnResponse(c, s, r, w) ==
            match Matched(c, s, r) case None => c case Some(i) => HandleResponse(Noted(c, s, i, r), s, i, r, w)
  {
  }

  lemma RecordQuiet(c: Call, s: Side, i: nat, r: Response)
    requires SoundCall(c) && Answered(c, s, i) && Alive(c, s)
    ensures CallQuiet(c, Noted(c, s, i, r))
    ensures s == Ingress || i > 0 ==> CallDecent(c, Noted(c, s, i, r))
  {
    RespondToKeeps(At(c, s), i, Reply(r.code, r.body));
    if s == Ingress || i > 0 {
      PutCalm(c, s, RespondTo(At(c, s), i, Reply(r.code, r.body)));
    }
  }

  lemma OnResponseKeeps(c: Call, s: Side, i: nat, r: Response, w: World)
    requires SoundCall(c) && Matched(c, s, r) == Some(i)
    ensures SoundCall(OnResponse(c, s, r, w)) && CallGrows(c, OnResponse(c, s, r, w))
    ensures At(c, s).txs[i].kind != UPDATE || !IsPositive(r.code) ==> CallQuiet(c, OnResponse(c, s, r, w))
    ensures AllMate(c, s) && !AnswersCaller(c, s, i, r) ==> CallDecent(Noted(c, s, i, r), OnResponse(c, s, r, w))
  {
    var c1 := Noted(c, s, i, r);
    OnResponseUnfolds(c, s, r, w);
    RecordQuiet(c, s, i, r);
    NotedAnswers(c, s, i, r);
    HandleResponseKeeps(c1, s, i, r, w);
    CallGrowsTrans(c, c1, OnResponse(c, s, r, w));
    if At(c, s).txs[i].kind != UPDATE || !IsPositive(r.code) {
      CallQuietTrans(c, c1, OnResponse(c, s, r, w));
    }
  }

  lemma NotedAnswers(c: Call, s: Side, i: nat, r: Response)
    requires SoundCall(c) && Answered(c, s, i)
    ensures var d := Noted(c, s, i, r);
            && Answered(d, s, i) && Alive(d, s) == Alive(c, s)
            && d.egress.state == c.egress.state && At(d, s).txs[i].kind == At(c, s).txs[i].kind
            && AnswersCaller(d, s, i, r) == AnswersCaller(c, s, i, r)
            && (AllMate(c, s) ==> OfferMates(d, s, i))
  {
    if AllMate(c, s) {
      assert OfferMates(c, s, i);
    }
  }

  // ----- timers

  lemma InDialogueTimeoutCalm(c: Call, s: Side, w: World)
    requires SoundCall(c)
    ensures CallCalm(c, OnInDialogueTimeout(c, s, w))
  {
    var (c1, completed) := ReleaseCall(c, s, w);
    ReleaseCallCalm(c, s, w);
    var c2 := if At(c, s).state != Established then DropMe(c1, s) else c1;
    DropMeCalm(c1, s);
    CallCalmRefl(c1);
    DropMeCalm(c2, Other(s));
    CallCalmRefl(c2);
    if completed {
      CallCalmTrans(c, c1, c2);
      CallCalmTrans(c, c2, OnInDialogueTimeout(c, s, w));
    }
  }

  lemma OnTimeoutCalm(c: Call, s: Side, i: nat, w: World)
    requires SoundCall(c) && i < |At(c, s).txs| && CanTimeOut(At(c, s).txs[i])
    ensures CallCalm(c, OnTimeout(c, s, i, w))
  {
    var kind := At(c, s).txs[i].kind;
    if kind == OPTIONS {
      ReleaseCallCalm(c, s, w);
      CallCalmRefl(c);
    } else if kind == INVITE {
      OnInviteTimeoutCalm(c, s, i, w);
    } else if kind == CANCEL || kind == BYE {
      EndedByByeCalm(c, s, i);
    } else if kind == PRACK {
      PrackTimeoutCalm(c, s, w);
    } else {
      InDialogueTimeoutCalm(c, s, w);
    }
  }

  lemma FailedAndDropped(c: Call, s: Side)
    requires SoundCall(c) && Alive(c, s)
    ensures CallCalm(c, DropMe(To(c, s, Failed), s))
  {
    ToCalm(c, s, Failed);
    DropMeCalm(To(c, s, Failed), s);
    CallCalmTrans(c, To(c, s, Failed), DropMe(To(c, s, Failed), s));
  }

  lemma PrackTimeoutCalm(c: Call, s: Side, w: World)
    requires SoundCall(c) && Alive(c, s)
    ensures CallCalm(c, OnPrackTimeout(c, s, w))
  {
    hide Reroute;
    RerouteCalm(c, Other(s), 408, w);
    CallCalmRefl(c);
    var c1 := if At(c, s).linked then Reroute(c, Other(s), 408, w) else c;
    FailedAndDropped(c1, s);
    CallCalmTrans(c, c1, OnPrackTimeout(c, s, w));
  }

  lemma NoProgressCalm(c: Call, w: World)
    requires SoundCall(c)
    ensures CallCalm(c, OnNoProgress(c, w))
  {
    var c1 := Put(c, Egress, CancelMe(c.egress));
    CancelLinkedCalm(c, Egress);
    RerouteCalm(c1, Ingress, 487, w);
    CallCalmTrans(c, c1, OnNoProgress(c, w));
  }

  lemma ProbeTickCalm(c: Call, w: World)
    requires SoundCall(c)
    ensures CallCalm(c, c.(ingress := SendNew(c.ingress, OPTIONS, None, true, w.d)))
  {
    SendNewKeeps(c.ingress, OPTIONS, None, true, w.d);
    PutCalm(c, Ingress, SendNew(c.ingress, OPTIONS, None, true, w.d));
  }

  // ----- every step

  /** The step that may answer the caller. */
  predicate MayAnswer(c: Call, e: Event) {
    match e
    case RequestIn(s, q, _) => q.kind == ACK && c.ingress.state == BeingEstablished
    case ResponseIn(s, r, _) =>
      var m := Matched(c, s, r);
      m.Some? && AnswersCaller(c, s, m.value, r)
    case EchoAnswer(_, _) => true
    case _ => false
  }

  /** The step that may bear on an offer. */
  predicate MayBear(c: Call, e: Event) {
    match e
    case RequestIn(_, q, _) => Bears(q)
    case ResponseIn(s, r, _) =>
      var m := Matched(c, s, r);
      m.Some? && At(c, s).txs[m.value].kind == UPDATE && IsPositive(r.code)
    case _ => false
  }

  /** A timer that is not about a transaction. */
  lemma TimerKeeps(c: Call, e: Event)
    requires SoundCall(c) && !e.RequestIn? && !e.ResponseIn? && !e.TransactionTimeout? && !e.EchoAnswer?
    ensures CallCalm(c, Step(c, e))
  {
    hide ReleaseCall, OnNoProgress, SendNew;
    CallCalmRefl(c);
    match e
    case NoProgress(w) => NoProgressCalm(c, w);
    case CancelTimeout =>
      if AwaitsCancelledInvite(c.egress) {
        var i :| 0 <= i < |c.egress.txs| && c.egress.txs[i].kind == CANCEL && c.egress.txs[i].dir == OUTBOUND;
        EndedByByeCalm(c, Egress, i);
      }
    case TimedDrop(s) => DropMeCalm(c, s);
    case MaxDuration(w) => ReleaseCallCalm(c, Ingress, w);
    case ProbeTick(w) => ProbeTickCalm(c, w);
  }

  /** The call when the response of the event, if any, is recorded but not handled yet. */
  function Recorded(c: Call, e: Event): Call {
    if e.ResponseIn? && Matched(c, e.s, e.r).Some? then Noted(c, e.s, Matched(c, e.s, e.r).value, e.r) else c
  }

  lemma RecordedQuiet(c: Call, e: Event)
    requires SoundCall(c)
    ensures CallQuiet(c, Recorded(c, e))
  {
    CallCalmRefl(c);
    if e.ResponseIn? && Matched(c, e.s, e.r).Some? {
      RecordQuiet(c, e.s, Matched(c, e.s, e.r).value, e.r);
    }
  }

  /** Every step keeps the call sound and takes nothing back. */
  lemma StepKeeps(c: Call, e: Event)
    requires SoundCall(c)
    ensures SoundCall(Step(c, e)) && CallGrows(c, Step(c, e))
    ensures AllMate(c, Ingress) && AllMate(c, Egress) && !MayAnswer(c, e) ==> CallDecent(Recorded(c, e), Step(c, e))
    ensures !MayBear(c, e) ==> CallQuiet(c, Step(c, e))
  {
    hide OnRequest, HandleResponse, OnTimeout, Calm;
    match e
    case RequestIn(s, q, w) => OnRequestKeeps(c, s, q, w);
    case ResponseIn(s, r, w) =>
      CallCalmRefl(c);
      OnResponseUnfolds(c, s, r, w);
      if Matched(c, s, r).Some? {
        OnResponseKeeps(c, s, Matched(c, s, r).value, r, w);
      }
    case TransactionTimeout(s, i, w) =>
      if i < |At(c, s).txs| && CanTimeOut(At(c, s).txs[i]) {
        OnTimeoutCalm(c, s, i, w);
      } else {
        CallCalmRefl(c);
      }
    case EchoAnswer(body, w) =>
      CallCalmRefl(c);
      SendReplyQuiet(c, Ingress, Some(0), 200, body, w);
    case _ => TimerKeeps(c, e);
  }
}
