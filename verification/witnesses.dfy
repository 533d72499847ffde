/** Runs, from the first INVITE on, in which a call does what no call should: each of the failures that
    the theorems state exactly does happen. */
module Witnesses {
  import opened SessionState
  import opened SipTypes
  import opened Session
  import opened Stack
  import opened CallKeeps
  import opened Offers
  import opened Runs
  import opened EarlyAnswers
  import opened Blocked
  import opened Following
  import opened Changes
  import opened Refusals
  import opened Acks

  // ----- an UPDATE that is refused

  function Updating(flow: Flow): Call { Offered(Talking(flow), Listed(UPDATE, 2), UPDATE) }

  const UPDATE_2 := RequestIn(Ingress, Offer(UPDATE, 2), WORLD)

  lemma UpdateLeads()
    ensures Leads(Transparent, TALK + [UPDATE_2], Updating(Transparent))
  {
    hide Leads;
    var c := Talking(Transparent);
    TalkLeads(Transparent);
    Unrepeated(c.ingress, Offer(UPDATE, 2));
    IsOffered(c, UPDATE, 2);
    Next(Transparent, TALK, c, UPDATE_2, Updating(Transparent));
  }

  const REFUSED_UPDATE := TALK + [UPDATE_2] + [OfferReply(UPDATE, 2, 488, NoBody)]

  function RefusedUpdate(): Call { Settled(Updating(Transparent), 1, 1, Reply(488, NoBody), true) }

  lemma RefusedUpdateStep()
    ensures Step(Updating(Transparent), OfferReply(UPDATE, 2, 488, NoBody))
            == RefusedUpdate() && IsBlocked(RefusedUpdate())
  {
    var c := Updating(Transparent);
    MatchesLast(c, OfferReply(UPDATE, 2, 488, NoBody).r);
    IsSettled(c, 1, 1, OfferReply(UPDATE, 2, 488, NoBody).r);
    forall s, i: nat
      ensures !OpenAt(RefusedUpdate(), s, i)
    {
    }
  }

  /** INVITE, 200, ACK, UPDATE, 488: no offer is let through any more. */
  lemma RefusedUpdateBlocks()
    ensures IsBlocked(After(FIRST_INVITE, Through(Transparent), MEDIA, WORLD, REFUSED_UPDATE))
  {
    UpdateLeads();
    RefusedUpdateStep();
    Next(Transparent, TALK + [UPDATE_2], Updating(Transparent), OfferReply(UPDATE, 2, 488, NoBody), RefusedUpdate());
  }

  // ----- a re-INVITE that is refused

  const REINVITE_2 := RequestIn(Ingress, Offer(ReINVITE, 2), WORLD)
  const REFUSED_REINVITE := TALK + [REINVITE_2] + [OfferReply(INVITE, 2, 488, NoBody)]
  const ACK_REFUSED := RequestIn(Ingress, Request(ACK, 2, 2, false, true, NoBody, BadRAck), WORLD)

  function Refused488(): Call {
    Settled(Offered(Talking(Transparent), Listed(ReINVITE, 2), ReINVITE), 1, 1, Reply(488, NoBody), true)
  }

  lemma RefusedReInviteLeads()
    ensures Leads(Transparent, REFUSED_REINVITE, Refused488())
  {
    hide Leads;
    var c := Talking(Transparent);
    var c1 := Offered(c, Listed(ReINVITE, 2), ReINVITE);
    var e := OfferReply(INVITE, 2, 488, NoBody);
    TalkLeads(Transparent);
    Unrepeated(c.ingress, Offer(ReINVITE, 2));
    IsOffered(c, ReINVITE, 2);
    Next(Transparent, TALK, c, REINVITE_2, c1);
    MatchesLast(c1, e.r);
    IsSettled(c1, 1, 1, e.r);
    Next(Transparent, TALK + [REINVITE_2], c1, e, Refused488());
  }

  lemma ACKOfRefusal()
    ensures var l := Refused488().ingress;
            && ReceiveACK(l, ACK_REFUSED.q) == (Update(l, 1, l.txs[1].(isACKed := true)), Some(1))
            && !IsDuplicateRequest(l, ACK_REFUSED.q)
  {
    Unrepeated(Refused488().ingress, ACK_REFUSED.q);
    assert Refused488().ingress.txs[1].responses[1].code == 488;
    TakenBy(Refused488().ingress, ACK_REFUSED.q, 1);
  }

  lemma ACKedRefusal()
    ensures IsBlocked(Step(Refused488(), ACK_REFUSED))
  {
    hide Step, ReceiveACK, IsDuplicateRequest, IsBlocked;
    ACKOfRefusal();
    IsACKed(Refused488(), 1, 1, ACK_REFUSED.q);
    ClosedACKed(Step(Refused488(), ACK_REFUSED));
  }

  /** The only offer is a re-INVITE that has its ACK. */
  lemma ClosedACKed(d: Call)
    requires |d.ingress.txs| == 2 && d.ingress.txs[0].kind == INVITE
             && d.ingress.txs[1].kind == ReINVITE && d.ingress.txs[1].isACKed
    requires (forall i :: 0 <= i < |d.egress.txs| ==> d.egress.txs[i].dir == OUTBOUND) && d.ingress.dialogueChanging
    ensures IsBlocked(d)
  {
  }

  /** INVITE, 200, ACK, re-INVITE, 488, ACK: the same. */
  lemma RefusedReInviteBlocks()
    ensures IsBlocked(After(FIRST_INVITE, Through(Transparent), MEDIA, WORLD, REFUSED_REINVITE + [ACK_REFUSED]))
  {
    RefusedReInviteLeads();
    ACKedRefusal();
    Next(Transparent, REFUSED_REINVITE, Refused488(), ACK_REFUSED, Step(Refused488(), ACK_REFUSED));
  }

  // ----- an UPDATE that is answered twice

  const OK_UPDATE := OfferReply(UPDATE, 2, 200, WithSDP(4))
  const ACCEPTED_UPDATE := OfferReply(UPDATE, 2, 202, NoBody)
  const REINVITE_3 := RequestIn(Ingress, Offer(ReINVITE, 3), WORLD)
  const UPDATE_BACK := RequestIn(Egress, Request(UPDATE, 1, 1, false, true, WithSDP(7), BadRAck), WORLD)
  const BUSY := TALK + [UPDATE_2] + [OK_UPDATE] + [REINVITE_3]

  function Updated(): Call { Settled(Updating(Transparent), 1, 1, Reply(200, WithSDP(4)), false) }
  function Busy(): Call { Offered(Updated(), Listed(ReINVITE, 3), ReINVITE) }

  lemma UpdatedLeads()
    ensures Leads(Transparent, TALK + [UPDATE_2] + [OK_UPDATE], Updated())
  {
    hide Leads;
    var c := Updating(Transparent);
    UpdateLeads();
    MatchesLast(c, OK_UPDATE.r);
    IsSettled(c, 1, 1, OK_UPDATE.r);
    Next(Transparent, TALK + [UPDATE_2], c, OK_UPDATE, Updated());
  }

  lemma BusyLeads()
    ensures Leads(Transparent, BUSY, Busy()) && LinkInv(Busy())
  {
    hide Leads;
    var c := Updated();
    UpdatedLeads();
    Unrepeated(c.ingress, Offer(ReINVITE, 3));
    IsOffered(c, ReINVITE, 3);
    Next(Transparent, TALK + [UPDATE_2] + [OK_UPDATE], c, REINVITE_3, Busy());
    InvariantsLead(Transparent, BUSY, Busy());
  }

  function AcceptedToo(): Call { Settled(Busy(), 1, 1, Reply(202, NoBody), false) }

  lemma AcceptedAgain()
    ensures SecondAnswer(Busy(), ACCEPTED_UPDATE) && Step(Busy(), ACCEPTED_UPDATE) == AcceptedToo()
  {
    var (c, r) := (Busy(), ACCEPTED_UPDATE.r);
    FoundAt(c.egress, r, 1);
    assert !c.egress.txs[1].HasCode(202);
    IsSettled(c, 1, 1, r);
  }

  lemma FreeAgain()
    ensures OpenAt(Busy(), Ingress, 2) && Busy().egress.linked && FreeOffer(AcceptedToo(), Egress, UPDATE_BACK.q)
  {
    Unrepeated(AcceptedToo().egress, UPDATE_BACK.q);
  }

  /** INVITE, 200, ACK, UPDATE, 200, re-INVITE, 202 for the UPDATE, UPDATE from the called party: the
      re-INVITE and the second UPDATE are both open. */
  lemma SecondOfferExample()
    ensures !AtMostOneOpen(After(FIRST_INVITE, Through(Transparent), MEDIA, WORLD,
                                  BUSY + [ACCEPTED_UPDATE] + [UPDATE_BACK]))
  {
    BusyLeads();
    AcceptedAgain();
    FreeAgain();
    Next(Transparent, BUSY, Busy(), ACCEPTED_UPDATE, AcceptedToo());
    Next(Transparent, BUSY + [ACCEPTED_UPDATE], AcceptedToo(), UPDATE_BACK, Step(AcceptedToo(), UPDATE_BACK));
    TwoOffersOpen(Busy(), ACCEPTED_UPDATE, Ingress, 2, Egress, UPDATE_BACK.q, WORLD);
  }

  // ----- an INVITE that is answered twice

  const ACCEPTED_INVITE := ResponseIn(Egress, Response(202, 1, 1, INVITE, WithSDP(5), false, 0), WORLD)

  lemma AcceptedInviteFound()
    ensures Matched(Confirmable(EarlyToFinal), Egress, ACCEPTED_INVITE.r) == Some(0)
  {
    FoundAt(Confirmable(EarlyToFinal).egress, ACCEPTED_INVITE.r, 0);
    assert !Confirmable(EarlyToFinal).egress.txs[0].HasCode(202);
  }

  lemma AcceptedInvite()
    ensures !AnsweredOnce(Step(Confirmable(EarlyToFinal), ACCEPTED_INVITE).ingress)
  {
    var (c, r) := (Confirmable(EarlyToFinal), ACCEPTED_INVITE.r);
    AcceptedInviteFound();
    OnResponseUnfolds(c, Egress, r, WORLD);
    var d := Step(c, ACCEPTED_INVITE);
    assert d.ingress.txs[0] == c.ingress.txs[0].With(Reply(202, WithSDP(5)));
    assert AnsweredAt(d.ingress, 1) && AnsweredAt(d.ingress, 2);
  }

  /** INVITE, 200, 202: the caller is answered twice. */
  lemma AnsweredAgainExample()
    ensures !AnsweredOnce(After(FIRST_INVITE, Through(EarlyToFinal), MEDIA, WORLD, RING + [ACCEPTED_INVITE]).ingress)
  {
    hide Step;
    AnswerLeads(EarlyToFinal);
    AcceptedInvite();
    Next(EarlyToFinal, RING, Confirmable(EarlyToFinal), ACCEPTED_INVITE,
         Step(Confirmable(EarlyToFinal), ACCEPTED_INVITE));
  }

  // ----- an ACK that goes astray

  const EARLY := ResponseIn(Egress, Response(183, 1, 1, INVITE, WithSDP(2), false, 0), WORLD)
  const EARLY_TALK := [EARLY] + [ACK_INVITE]
  const ACK_REINVITE := RequestIn(Ingress, Request(ACK, 2, 9, false, true, NoBody, BadRAck), WORLD)

  function AnsweredEarly(): Call {
    Call(Confirmable(EarlyToFinal).ingress,
         Callee(INVITE_OUT.With(Reply(183, WithSDP(2)))).(transformEarlyToFinal := true, received18xSDP := true),
         EarlyToFinal, Repeats(false, false))
  }

  lemma AnsweredEarlyLeads()
    ensures Leads(EarlyToFinal, [] + [EARLY], AnsweredEarly())
  {
    hide Leads;
    var c := Started(EarlyToFinal);
    StartLeads(EarlyToFinal);
    FoundAt(c.egress, EARLY.r, 0);
    OnResponseUnfolds(c, Egress, EARLY.r, WORLD);
    Next(EarlyToFinal, [], c, EARLY, AnsweredEarly());
  }

  function TalkingEarly(): Call { AnsweredEarly().(ingress := Talking(EarlyToFinal).ingress) }

  lemma TalkingEarlyLeads()
    ensures Leads(EarlyToFinal, EARLY_TALK, TalkingEarly())
  {
    hide Leads;
    var c := AnsweredEarly();
    AnsweredEarlyLeads();
    Unrepeated(c.ingress, ACK_INVITE.q);
    assert [] + [EARLY] == [EARLY];
    Next(EarlyToFinal, [EARLY], c, ACK_INVITE, TalkingEarly());
  }

  function OfferedEarly(): Call { Offered(TalkingEarly(), Listed(ReINVITE, 2), UPDATE) }

  function ConfirmedLate(): Call {
    var c := OfferedEarly();
    var t := c.egress.txs[0].With(ANSWER).(isACKed := true);
    c.(egress := Update(c.egress, 0, t).(state := Established, transformEarlyToFinal := false,
                                         sent := c.egress.sent + [Sent(ACK, 1, INVITE)]))
  }

  lemma OfferedEarlyLeads()
    ensures Leads(EarlyToFinal, EARLY_TALK + [REINVITE_2], OfferedEarly())
  {
    hide Leads;
    var c := TalkingEarly();
    TalkingEarlyLeads();
    Unrepeated(c.ingress, Offer(ReINVITE, 2));
    IsOffered(c, ReINVITE, 2);
    Next(EarlyToFinal, EARLY_TALK, c, REINVITE_2, OfferedEarly());
  }

  lemma ConfirmedLateLeads()
    ensures Leads(EarlyToFinal, EARLY_TALK + [REINVITE_2] + [OK_INVITE], ConfirmedLate())
  {
    hide Leads;
    var c := OfferedEarly();
    OfferedEarlyLeads();
    FoundAt(c.egress, OK_INVITE.r, 0);
    assert !c.egress.txs[0].HasCode(200);
    OnResponseUnfolds(c, Egress, OK_INVITE.r, WORLD);
    Next(EarlyToFinal, EARLY_TALK + [REINVITE_2], c, OK_INVITE, ConfirmedLate());
  }

  function ConvertedAnswered(): Call { Settled(ConfirmedLate(), 1, 1, Reply(200, WithSDP(4)), false) }

  const CONVERTED := EARLY_TALK + [REINVITE_2] + [OK_INVITE] + [OK_UPDATE]

  lemma ConvertedLeads()
    ensures Leads(EarlyToFinal, CONVERTED, ConvertedAnswered())
  {
    hide Leads;
    var c := ConfirmedLate();
    ConfirmedLateLeads();
    MatchesLast(c, OK_UPDATE.r);
    IsSettled(c, 1, 1, OK_UPDATE.r);
    Next(EarlyToFinal, EARLY_TALK + [REINVITE_2] + [OK_INVITE], c, OK_UPDATE, ConvertedAnswered());
  }

  lemma StraysThere()
    ensures Step(ConvertedAnswered(), ACK_REINVITE).egress.sent ==
            [Sending(INVITE, 1), Sending(UPDATE, 2), Sent(ACK, 1, INVITE), Sent(ACK, 2, UPDATE)]
  {
    hide Step;
    var c := ConvertedAnswered();
    Unrepeated(c.ingress, ACK_REINVITE.q);
    assert forall k :: 0 <= k < |c.ingress.txs[1].responses| ==> !IsNegative(c.ingress.txs[1].responses[k].code);
    TakenBy(c.ingress, ACK_REINVITE.q, 1);
    IsACKed(c, 1, 1, ACK_REINVITE.q);
  }

  /** INVITE, 183 with SDP, ACK, re-INVITE, 200 for the INVITE, 200 for the UPDATE it was forwarded as, ACK:
      the called party is sent an ACK with the CSeq of the UPDATE. */
  lemma StrayACKExample()
    ensures After(FIRST_INVITE, Through(EarlyToFinal), MEDIA, WORLD, CONVERTED + [ACK_REINVITE]).egress.sent ==
            [Sending(INVITE, 1), Sending(UPDATE, 2), Sent(ACK, 1, INVITE), Sent(ACK, 2, UPDATE)]
  {
    var c := ConvertedAnswered();
    ConvertedLeads();
    StraysThere();
    Next(EarlyToFinal, CONVERTED, c, ACK_REINVITE, Step(c, ACK_REINVITE));
  }

  // ----- an offer that is redirected

  const MOVED_UPDATE := OfferReply(UPDATE, 2, 302, NoBody)

  lemma RedirectedOffer()
    ensures var d := Step(Updating(Transparent), MOVED_UPDATE);
            && |d.ingress.txs| > 1 && d.ingress.txs[1].responses == [Reply(503, NoBody)]
            && d.ingress.state == BeingDropped && d.egress.state == BeingDropped
  {
    hide Step, Matched;
    MatchesLast(Updating(Transparent), MOVED_UPDATE.r);
    RedirectReleases(Updating(Transparent), 1, 1, MOVED_UPDATE.r);
  }

  /** INVITE, 200, ACK, UPDATE, 302: the 302 is not passed on. The caller's UPDATE is answered 503 and both
      legs are hung up. */
  lemma RedirectedOfferExample()
    ensures var c := After(FIRST_INVITE, Through(Transparent), MEDIA, WORLD, TALK + [UPDATE_2] + [MOVED_UPDATE]);
            && |c.ingress.txs| > 1 && c.ingress.txs[1].responses == [Reply(503, NoBody)]
            && c.ingress.state == BeingDropped && c.egress.state == BeingDropped
  {
    UpdateLeads();
    RedirectedOffer();
    Next(Transparent, TALK + [UPDATE_2], Updating(Transparent), MOVED_UPDATE,
         Step(Updating(Transparent), MOVED_UPDATE));
  }

  // ----- a CANCEL after the answer

  const CANCEL_INVITE := RequestIn(Ingress, Request(CANCEL, 1, 1, false, true, NoBody, BadRAck), WORLD)

  lemma CancelledAnswer()
    ensures var l := Step(Confirmable(Transparent), CANCEL_INVITE).ingress;
            |l.txs| > 0 && l.txs[0].responses == [Reply(100, NoBody), ANSWER, Reply(487, NoBody)]
  {
    hide HandleCancel, Step;
    var (c, q) := (Confirmable(Transparent), CANCEL_INVITE.q);
    Unrepeated(c.ingress, q);
    var l := Append(c.ingress, IncomingTx(q, None));
    assert ReOrInvite(c.ingress, 1, false).None?;
    TakenStep(c, Ingress, q, WORLD, l, 1);
    CancelWins(Put(c, Ingress, l));
  }

  /** INVITE, 200, CANCEL: the INVITE is answered 200 and then 487. */
  lemma CancelledAnswerExample()
    ensures var l := After(FIRST_INVITE, Through(Transparent), MEDIA, WORLD, RING + [CANCEL_INVITE]).ingress;
            |l.txs| > 0 && l.txs[0].responses == [Reply(100, NoBody), ANSWER, Reply(487, NoBody)]
  {
    AnswerLeads(Transparent);
    CancelledAnswer();
    Next(Transparent, RING, Confirmable(Transparent), CANCEL_INVITE, Step(Confirmable(Transparent), CANCEL_INVITE));
  }

  // ----- a reliable 183

  const FIRST_RELIABLE := FIRST_INVITE.(supports100rel := true)
  const RELIABLE_183 := ResponseIn(Egress, Response(183, 1, 1, INVITE, NoBody, true, 7), WORLD)
  const PRACK_OUT := BLANK_TX.(kind := PRACK, dir := OUTBOUND, rseq := 7, branch := 2, link := Some(There(1)))
  const PRACK_IN := BLANK_TX.(kind := PRACK, rseq := 1, link := Some(There(1)))
  const BYE_BACK := RequestIn(Egress, Request(BYE, 5, 5, false, true, NoBody, BadRAck), WORLD)

  function StartedReliably(): Call {
    Call(Caller(TRIED).(prackSupported := true), Callee(INVITE_OUT).(prackSupported := true),
         Transparent, Repeats(false, false))
  }

  lemma StartReliablyLeads()
    ensures LeadsFrom(FIRST_RELIABLE, WORLD, Transparent, [], StartedReliably())
  {
    var c := Call(IngressOf(FIRST_RELIABLE), Drop(NewLeg(OUTBOUND)), Transparent, Repeats(false, false));
    Replied(c, Ingress, 0, 100, WORLD);
    assert c.ingress.txs == [INVITE_IN];
    SentNew(NewLeg(OUTBOUND).(linked := true, prackSupported := true), INVITE, None, false, WORLD.d);
  }

  function RungReliably(): Call {
    var c := StartedReliably();
    c.(ingress := c.ingress.(txs := [TRIED.With(Reply(183, NoBody)), PRACK_IN], rseq := 1),
       egress := c.egress.(txs := [INVITE_OUT.With(Reply(183, NoBody)), PRACK_OUT], branches := 2))
  }

  lemma RungReliablyLeads()
    ensures LeadsFrom(FIRST_RELIABLE, WORLD, Transparent, [RELIABLE_183], RungReliably())
  {
    hide LeadsFrom;
    var (c, r) := (StartedReliably(), RELIABLE_183.r);
    StartReliablyLeads();
    FoundAt(c.egress, r, 0);
    OnResponseUnfolds(c, Egress, r, WORLD);
    NextFrom(FIRST_RELIABLE, WORLD, Transparent, [], c, RELIABLE_183, RungReliably());
    assert [] + [RELIABLE_183] == [RELIABLE_183];
  }

  lemma RungOnce()
    ensures !RungReliably().egress.txs[0].HasCode(200) && !RungReliably().ingress.txs[0].AnyNegative()
  {
  }

  lemma ReliablySound(c: Call)
    requires c.ingress == RungReliably().ingress.(txs := c.ingress.txs) && |c.ingress.txs| == 2
    requires c.ingress.txs[0] == RungReliably().ingress.txs[0] && c.ingress.txs[1].kind == PRACK
             && c.ingress.txs[1].dir == INBOUND
    requires c.egress == RungReliably().egress.(txs := c.egress.txs, fwdCSeq := c.egress.fwdCSeq, sent := c.egress.sent)
    requires |c.egress.txs| == 2 && c.egress.txs[0] == RungReliably().egress.txs[0] && c.egress.txs[1].kind == PRACK
    requires c.flow == Transparent
    ensures SoundCall(c)
  {
  }

  lemma ReliablyWaits(c: Call)
    requires c.ingress == RungReliably().ingress.(txs := c.ingress.txs) && |c.ingress.txs| == 2
    requires c.ingress.txs[0] == RungReliably().ingress.txs[0] && c.ingress.txs[1].kind == PRACK
             && c.ingress.txs[1].dir == INBOUND
    requires c.egress == RungReliably().egress.(txs := c.egress.txs, fwdCSeq := c.egress.fwdCSeq, sent := c.egress.sent)
    requires |c.egress.txs| == 2 && c.egress.txs[0] == RungReliably().egress.txs[0] && c.egress.txs[1].kind == PRACK
    requires c.flow == Transparent
    ensures Waits(c)
  {
    hide First, SoundCall;
    ReliablySound(c);
    FoundAt(c.egress, OK_INVITE.r, 0);
    RungOnce();
  }

  const UNPRACKED := [RELIABLE_183] + [OK_INVITE] + [ACK_INVITE]

  lemma UnprackedLeads()
    ensures LeadsFrom(FIRST_RELIABLE, WORLD, Transparent, UNPRACKED, SetUp(RungReliably()))
  {
    hide LeadsFrom;
    RungReliablyLeads();
    ReliablyWaits(RungReliably());
    SetUpLeads(FIRST_RELIABLE, [RELIABLE_183], RungReliably());
  }

  lemma UnprackedHangsUp()
    ensures var d := Step(SetUp(RungReliably()), BYE_BACK);
            d.ingress.state == BeingCleared && d.ingress.sent == [] && d.egress.state == Cleared
  {
    hide Step, ByeFails;
    var d := SetUp(RungReliably());
    Unrepeated(d.egress, BYE_BACK.q);
    WaitsForPRACK(d.ingress, 1);
    ByeGoesNoFurther(d, BYE_BACK.q, WORLD);
  }

  /** INVITE, reliable 183, 200, ACK, BYE from the called party before the caller's PRACK: the caller's leg is
      being cleared, but no BYE was sent on it. */
  lemma UnsentBYEExample()
    ensures var c := After(FIRST_RELIABLE, Through(Transparent), MEDIA, WORLD, UNPRACKED + [BYE_BACK]);
            c.ingress.state == BeingCleared && c.ingress.sent == [] && c.egress.state == Cleared
  {
    var c := SetUp(RungReliably());
    UnprackedLeads();
    UnprackedHangsUp();
    NextFrom(FIRST_RELIABLE, WORLD, Transparent, UNPRACKED, c, BYE_BACK, Step(c, BYE_BACK));
  }

  // ----- a PRACK that is not answered

  const PRACK_1 := RequestIn(Ingress, Request(PRACK, 2, 2, false, true, NoBody, RAck(1, 1)), WORLD)
  const PRACKED := [RELIABLE_183] + [PRACK_1] + [OK_INVITE] + [ACK_INVITE]
  const PRACK_LOST := TransactionTimeout(Egress, 1, WORLD)

  function Pracked(): Call {
    var c := RungReliably();
    c.(ingress := Update(c.ingress, 1, PRACK_IN.(hasRequest := true, cseq := 2, branch := 2).With(Reply(200, NoBody))),
       egress := Update(c.egress, 1, PRACK_OUT.(hasRequest := true, cseq := 2))
                 .(fwdCSeq := 2, sent := [Sending(INVITE, 1), Sending(PRACK, 2)]))
  }

  lemma IsPracked()
    ensures Step(RungReliably(), PRACK_1) == Pracked()
  {
    var (c, q) := (RungReliably(), PRACK_1.q);
    var t := PRACK_IN.(hasRequest := true, cseq := 2, branch := 2);
    var c1 := Put(c, Ingress, Update(c.ingress, 1, t));
    Unrepeated(c.ingress, q);
    PrackAt(c.ingress, 1, 1);
    assert Step(c, PRACK_1) == HandlePrack(c1, Ingress, 1, WORLD);
    PrackPasses(c1);
  }

  lemma PrackedLeads()
    ensures LeadsFrom(FIRST_RELIABLE, WORLD, Transparent, PRACKED, SetUp(Pracked()))
  {
    hide LeadsFrom;
    RungReliablyLeads();
    IsPracked();
    NextFrom(FIRST_RELIABLE, WORLD, Transparent, [RELIABLE_183], RungReliably(), PRACK_1, Pracked());
    ReliablyWaits(Pracked());
    SetUpLeads(FIRST_RELIABLE, [RELIABLE_183] + [PRACK_1], Pracked());
  }

  lemma PrackIsLost()
    ensures var d := Step(SetUp(Pracked()), PRACK_LOST);
            && d.ingress == SetUp(Pracked()).ingress && d.egress.state == Failed && d.egress.disposed
  {
  }

  /** INVITE, reliable 183, PRACK, 200, ACK, and the PRACK sent to the called party gets no answer: the
      called party's leg has failed, the caller is left talking to nobody. */
  lemma LoneCallerExample()
    ensures var c := After(FIRST_RELIABLE, Through(Transparent), MEDIA, WORLD, PRACKED + [PRACK_LOST]);
            && c.ingress.state == Established && !c.ingress.disposed && c.ingress.linked && c.ingress.sent == []
            && c.egress.state == Failed && c.egress.disposed
  {
    PrackedLeads();
    PrackIsLost();
    NextFrom(FIRST_RELIABLE, WORLD, Transparent, PRACKED, SetUp(Pracked()), PRACK_LOST,
             Step(SetUp(Pracked()), PRACK_LOST));
  }

  // ----- a first draw of 0

  const ZERO_WORLD := WORLD.(d := Draws(0, 600, 1))
  const LATER_WORLD := WORLD.(d := Draws(5, 600, 1))
  const INFO_2 := RequestIn(Ingress, Request(INFO, 2, 2, false, true, NoBody, BadRAck), LATER_WORLD)

  function ZeroStarted(): Call {
    var e := Callee(INVITE_OUT.(cseq := 0)).(fwdCSeq := 0, sent := [Sending(INVITE, 0)]);
    Call(Caller(TRIED), e, Transparent, Repeats(false, false))
  }

  lemma ZeroStarts()
    ensures LeadsFrom(FIRST_INVITE, ZERO_WORLD, Transparent, [], ZeroStarted())
  {
    var c := Call(IngressOf(FIRST_INVITE), Drop(NewLeg(OUTBOUND)), Transparent, Repeats(false, false));
    Replied(c, Ingress, 0, 100, ZERO_WORLD);
    assert c.ingress.txs == [INVITE_IN];
    SentNew(NewLeg(OUTBOUND).(linked := true), INVITE, None, false, ZERO_WORLD.d);
  }

  /** INVITE, INFO, with 0 drawn for the first and 5 for the second: the called party sees CSeqs 0 and 5. */
  lemma ZeroDrawExample()
    ensures After(FIRST_INVITE, Through(Transparent), MEDIA, ZERO_WORLD, [] + [INFO_2]).egress.sent ==
            [Sending(INVITE, 0), Sending(INFO, 5)]
  {
    var c := ZeroStarted();
    ZeroStarts();
    Unrepeated(c.ingress, INFO_2.q);
    InfoPasses(c, INFO_2.q, LATER_WORLD);
    NextFrom(FIRST_INVITE, ZERO_WORLD, Transparent, [], c, INFO_2, Step(c, INFO_2));
  }

  // ----- a caller that is left waiting

  const ODD_ACK := RequestIn(Ingress, Request(ACK, 1, 9, false, true, UnknownParts, BadRAck), WORLD)
  const NO_ANSWER := NoProgress(WORLD)
  const STRANDED := [EARLY] + [ODD_ACK] + [NO_ANSWER]

  /** The ACK with the odd body is refused, and the leg still waits. */
  lemma OddACKTaken()
    ensures var (c, d) := (AnsweredEarly(), Step(AnsweredEarly(), ODD_ACK));
            d == c.(ingress := d.ingress) && d.ingress == c.ingress.(txs := d.ingress.txs)
            && |d.ingress.txs| == 1 && d.ingress.txs[0].isACKed
  {
    hide Step;
    ACKWithUnknownBody(AnsweredEarly(), Ingress, ODD_ACK.q, 0, WORLD);
  }

  /** INVITE, 183 with a description, ACK with a body of an unknown kind, and then no answer: the called party is
      cancelled, and the caller, which was answered, is left waiting and told nothing. */
  lemma StrandedCallerExample()
    ensures var c := After(FIRST_INVITE, Through(EarlyToFinal), MEDIA, WORLD, STRANDED);
            && c.ingress.state == BeingEstablished && !c.ingress.disposed && c.ingress.linked && c.ingress.sent == []
            && c.egress.state == BeingCancelled
  {
    hide Step, Leads, LinkInv;
    var (c, d) := (AnsweredEarly(), Step(AnsweredEarly(), ODD_ACK));
    AnsweredEarlyLeads();
    assert [] + [EARLY] == [EARLY];
    OddACKTaken();
    Next(EarlyToFinal, [EARLY], c, ODD_ACK, d);
    InvariantsLead(EarlyToFinal, [EARLY] + [ODD_ACK], d);
    InvIsSound(d);
    NoProgressOutcome(d, WORLD);
    Next(EarlyToFinal, [EARLY] + [ODD_ACK], d, NO_ANSWER, Step(d, NO_ANSWER));
    LedTo(EarlyToFinal, STRANDED, Step(d, NO_ANSWER));
  }
}
