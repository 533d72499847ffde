/** How a concrete run is followed: a call that is set up, offers and their answers, and what a given
    message does to a call of which enough is known. */
module Following {
  import opened SessionState
  import opened SipTypes
  import opened Session
  import opened Stack
  import opened CallKeeps
  import opened Offers
  import opened Runs
  import opened LoneLegs

  const WORLD := World(Draws(1, 600, 1), 200, true, Refreshed)
  const MEDIA := Media(true, true, true, true)
  const FIRST_INVITE := FirstInvite(1, 1, WithSDP(1), false, true, false, 70, false)

  function Through(flow: Flow): Target { Record(flow, false, false, Repeats(false, false)) }

  // ----- how a step is followed

  /** The response is found by its branch and CSeq. */
  lemma FoundAt(l: Leg, r: Response, i: nat)
    requires i < |l.txs| && MatchesResponse(l.txs[i], r) && forall k :: 0 <= k < i ==> !MatchesResponse(l.txs[k], r)
    ensures FindResponse(l, r) == Some(i)
  {
  }

  lemma Unrepeated(l: Leg, q: Request)
    requires q.kind != INVITE && forall k :: 0 <= k < |l.txs| ==> !MatchesRequest(l.txs[k], q)
    ensures !IsDuplicateRequest(l, q)
  {
  }

  /** A request that is taken in by transaction i. */
  lemma TakenStep(c: Call, s: Side, q: Request, w: World, l: Leg, i: nat)
    requires !At(c, s).disposed && !IsDuplicateRequest(At(c, s), q) && q.kind != BYE
    requires AddIncomingRequest(At(c, s), q) == (l, Some(i))
    ensures i < |l.txs| && Step(c, RequestIn(s, q, w)) == HandleRequest(Put(c, s, l), s, i, q, w)
  {
    hide HandleRequest;
  }

  // ----- a call that is set up

  const INVITE_IN := BLANK_TX.(kind := INVITE, cseq := 1, branch := 1, hasRequest := true)
  const INVITE_OUT := INVITE_IN.(dir := OUTBOUND)
  const TRIED := INVITE_IN.With(Reply(100, NoBody))
  const ANSWER := Reply(200, WithSDP(2))

  function Caller(t: Tx): Leg { NewLeg(INBOUND).(state := BeingEstablished, linked := true, txs := [t]) }

  function Callee(t: Tx): Leg {
    NewLeg(OUTBOUND).(state := BeingEstablished, linked := true, branches := 1, fwdCSeq := 1, txs := [t],
                      sent := [Sending(INVITE, 1)])
  }

  function Started(flow: Flow): Call {
    Call(Caller(TRIED), Callee(INVITE_OUT).(transformEarlyToFinal := flow == EarlyToFinal), flow, Repeats(false, false))
  }

  lemma Starts(flow: Flow)
    requires flow != Echo
    ensures NewCall(FIRST_INVITE, Through(flow), MEDIA, WORLD) == Started(flow)
  {
    var c := Call(IngressOf(FIRST_INVITE), Drop(NewLeg(OUTBOUND)), flow, Repeats(false, false));
    Replied(c, Ingress, 0, 100, WORLD);
    assert c.ingress.txs == [INVITE_IN];
    SentNew(NewLeg(OUTBOUND).(linked := true), INVITE, None, false, WORLD.d);
  }

  const OK_INVITE := ResponseIn(Egress, Response(200, 1, 1, INVITE, WithSDP(2), false, 0), WORLD)
  const ACK_INVITE := RequestIn(Ingress, Request(ACK, 1, 9, false, true, NoBody, BadRAck), WORLD)

  function Confirmable(flow: Flow): Call {
    Call(Caller(TRIED.With(ANSWER)), Callee(INVITE_OUT.With(ANSWER)), flow, Repeats(false, false))
  }

  lemma IsAnswered(flow: Flow)
    ensures Step(Started(flow), OK_INVITE) == Confirmable(flow)
  {
    hide OnRedirect, OnFailure, SendBye;
    var c := Started(flow);
    FoundAt(c.egress, OK_INVITE.r, 0);
    OnResponseUnfolds(c, Egress, OK_INVITE.r, WORLD);
  }

  function Talking(flow: Flow): Call {
    var a := Caller(TRIED.With(ANSWER).(isACKed := true));
    var b := Callee(INVITE_OUT.With(ANSWER).(isACKed := true));
    Call(a.(state := Established),
         b.(state := Established, sent := [Sending(INVITE, 1), Sent(ACK, 1, INVITE)]),
         flow, Repeats(false, false))
  }

  lemma IsTalking(flow: Flow)
    ensures Step(Confirmable(flow), ACK_INVITE) == Talking(flow)
  {
    var c := Confirmable(flow);
    Unrepeated(c.ingress, ACK_INVITE.q);
  }

  // ----- where a run leads

  predicate LeadsFrom(v: FirstInvite, w: World, flow: Flow, es: seq<Event>, c: Call) {
    After(v, Through(flow), MEDIA, w, es) == c
  }

  lemma NextFrom(v: FirstInvite, w: World, flow: Flow, es: seq<Event>, c: Call, e: Event, d: Call)
    requires LeadsFrom(v, w, flow, es, c) && Step(c, e) == d
    ensures LeadsFrom(v, w, flow, es + [e], d)
  {
    OneMore(NewCall(v, Through(flow), MEDIA, w), es, e);
  }

  predicate Leads(flow: Flow, es: seq<Event>, c: Call) { LeadsFrom(FIRST_INVITE, WORLD, flow, es, c) }

  lemma LedTo(flow: Flow, es: seq<Event>, c: Call)
    requires Leads(flow, es, c)
    ensures After(FIRST_INVITE, Through(flow), MEDIA, WORLD, es) == c
  {
  }

  lemma Next(flow: Flow, es: seq<Event>, c: Call, e: Event, d: Call)
    requires Leads(flow, es, c) && Step(c, e) == d
    ensures Leads(flow, es + [e], d)
  {
    NextFrom(FIRST_INVITE, WORLD, flow, es, c, e, d);
  }

  lemma StartLeads(flow: Flow)
    requires flow != Echo
    ensures Leads(flow, [], Started(flow))
  {
    Starts(flow);
  }

  const RING: seq<Event> := [] + [OK_INVITE]
  const TALK := RING + [ACK_INVITE]

  lemma AnswerLeads(flow: Flow)
    requires flow != Echo
    ensures Leads(flow, RING, Confirmable(flow))
  {
    hide Leads;
    StartLeads(flow);
    IsAnswered(flow);
    Next(flow, [], Started(flow), OK_INVITE, Confirmable(flow));
  }

  lemma TalkLeads(flow: Flow)
    requires flow != Echo
    ensures Leads(flow, TALK, Talking(flow))
  {
    hide Leads;
    AnswerLeads(flow);
    IsTalking(flow);
    Next(flow, RING, Confirmable(flow), ACK_INVITE, Talking(flow));
  }

  // ----- offers of the caller

  function Offer(m: Method, n: nat): Request { Request(m, n, n, false, true, WithSDP(n), BadRAck) }

  /** The offer as it is listed. */
  function Listed(m: Method, n: nat): Tx {
    var t := IncomingTx(Offer(m, n), None);
    if m == ReINVITE then t.With(Reply(100, NoBody)) else t
  }

  /** The caller's offer is forwarded as m; its number and branch happen to be the next ones of the other
      leg. */
  function Offered(c: Call, t: Tx, m: Method): Call {
    var copy := BLANK_TX.(kind := m, dir := OUTBOUND, cseq := t.cseq, branch := t.branch,
                          link := Some(There(|c.ingress.txs|)), hasRequest := true);
    c.(ingress := c.ingress.(txs := c.ingress.txs + [t.(link := Some(There(|c.egress.txs|)))],
                             dialogueChanging := true),
       egress := c.egress.(txs := c.egress.txs + [copy], branches := t.branch, fwdCSeq := t.cseq,
                           sent := c.egress.sent + [Sending(m, t.cseq)]))
  }

  lemma IsForwarded(c: Call, c2: Call, t: Tx, q: Request)
    requires c2 == c.(ingress := c.ingress.(txs := c.ingress.txs + [t])) && q.kind.CarriesOffer() && q.body.WithSDP?
    requires c.ingress.linked && !c.ingress.dialogueChanging && !c.egress.dialogueChanging && c.egress.dir == OUTBOUND
    requires c.egress.branches + 1 == t.branch == t.cseq && 0 < c.egress.fwdCSeq == t.cseq - 1 && t.cseq < WRAP
    ensures HandleOffer(c2, Ingress, |c.ingress.txs|, q, WORLD) ==
            Offered(c, t, if c.egress.transformEarlyToFinal then UPDATE else q.kind)
  {
    SentNew(c.egress, if c.egress.transformEarlyToFinal then UPDATE else q.kind, Some(|c.ingress.txs|), false, WORLD.d);
  }

  lemma IsOffered(c: Call, m: Method, n: nat)
    requires m.CarriesOffer() && c.ingress.linked && !c.ingress.disposed && !IsDuplicateRequest(c.ingress, Offer(m, n))
    requires !c.ingress.dialogueChanging && !c.egress.dialogueChanging && c.egress.dir == OUTBOUND
    requires c.egress.branches + 1 == n && 0 < c.egress.fwdCSeq == n - 1 && n < WRAP
    ensures Step(c, RequestIn(Ingress, Offer(m, n), WORLD)) ==
            Offered(c, Listed(m, n), if c.egress.transformEarlyToFinal then UPDATE else m)
  {
    var q := Offer(m, n);
    var k := |c.ingress.txs|;
    var c1 := c.(ingress := Append(c.ingress, IncomingTx(q, None)));
    Replied(c1, Ingress, k, 100, WORLD);
    var c2 := if m == ReINVITE then SendReply(c1, Ingress, Some(k), 100, NoBody, WORLD) else c1;
    assert c2.ingress.txs == c.ingress.txs + [Listed(m, n)];
    assert Step(c, RequestIn(Ingress, q, WORLD)) == HandleOffer(c2, Ingress, k, q, WORLD);
    IsForwarded(c, c2, Listed(m, n), q);
  }

  // ----- answers to them

  function OfferReply(m: Method, n: nat, code: Status, body: Body): Event {
    ResponseIn(Egress, Response(code, n, n, m, body, false, 0), WORLD)
  }

  /** The egress leg's transaction k is answered, and so is the caller's j. */
  function Settled(c: Call, k: nat, j: nat, r: Reply, changing: bool): Call
    requires k < |c.egress.txs| && j < |c.ingress.txs|
  {
    var (a, b) := (RespondTo(c.ingress, j, r), RespondTo(c.egress, k, r));
    c.(ingress := if changing then a else a.(dialogueChanging := false),
       egress := if changing then b else b.(dialogueChanging := false))
  }

  lemma IsSettled(c: Call, k: nat, j: nat, r: Response)
    requires Matched(c, Egress, r) == Some(k) && c.egress.linked
             && r.code >= 200 && !Is18x(r.code) && !(300 <= r.code <= 399)
    requires var t := c.egress.txs[k]; t.kind.CarriesOffer() && t.link == Some(There(j)) && j < |c.ingress.txs|
    ensures Step(c, ResponseIn(Egress, r, WORLD)) ==
            Settled(c, k, j, Reply(r.code, r.body), !(c.egress.txs[k].kind == UPDATE && IsPositive(r.code)))
  {
    OnResponseUnfolds(c, Egress, r, WORLD);
  }

  /** The last request that was sent is the one that is answered. */
  lemma MatchesLast(c: Call, r: Response)
    requires c.egress.txs != [] && !c.egress.disposed
    requires var t := c.egress.txs[|c.egress.txs| - 1]; MatchesResponse(t, r) && t.responses == []
    requires forall i :: 0 <= i < |c.egress.txs| - 1 ==> c.egress.txs[i].branch != r.branch
    ensures Matched(c, Egress, r) == Some(|c.egress.txs| - 1)
  {
    FoundAt(c.egress, r, |c.egress.txs| - 1);
  }

  // ----- an ACK for a re-INVITE

  /** The ACK of the caller's re-INVITE i, forwarded as transaction j. */
  lemma IsACKed(c: Call, i: nat, j: nat, q: Request)
    requires q.kind == ACK && q.body == NoBody && !c.ingress.disposed && !IsDuplicateRequest(c.ingress, q)
    requires c.ingress.linked && i < |c.ingress.txs| && j < |c.egress.txs|
    requires ReceiveACK(c.ingress, q) == (Update(c.ingress, i, c.ingress.txs[i].(isACKed := true)), Some(i))
    requires c.ingress.txs[i].kind == ReINVITE && c.ingress.txs[i].link == Some(There(j))
    requires !c.egress.transformEarlyToFinal
    ensures var d := if c.egress.txs[j].AnyPositive() then OfferOver(c) else c;
            Step(c, RequestIn(Ingress, q, WORLD)) ==
            d.(ingress := Update(d.ingress, i, c.ingress.txs[i].(isACKed := true)),
               egress := SendAck(d.egress, Some(j)))
  {
  }

  lemma TakenBy(l: Leg, q: Request, i: nat)
    requires i < |l.txs| && IsReOrInvite(l.txs[i], q.cseq, true) && !l.txs[i].isACKed
    requires l.txs[i].AnyNegative() == (l.txs[i].branch == q.branch)
    requires forall k :: 0 <= k < i ==> l.txs[k].cseq != q.cseq
    ensures ReceiveACK(l, q) == (Update(l, i, l.txs[i].(isACKed := true)), Some(i))
  {
    assert ReOrInvite(l, q.cseq, true) == Some(i);
  }

  lemma InvariantsLead(flow: Flow, es: seq<Event>, c: Call)
    requires Leads(flow, es, c)
    ensures LinkInv(c)
  {
    NewCallFresh(FIRST_INVITE, Through(flow), MEDIA, WORLD);
    FreshOffers(NewCall(FIRST_INVITE, Through(flow), MEDIA, WORLD));
    RunKeepsOffers(NewCall(FIRST_INVITE, Through(flow), MEDIA, WORLD), es);
  }

  // ----- a call that is released

  lemma RedirectReleases(c: Call, k: nat, j: nat, r: Response)
    requires Matched(c, Egress, r) == Some(k) && 300 <= r.code <= 399 && c.egress.txs[k].kind.CarriesOffer()
    requires c.egress.state == Established && c.ingress.state == Established && c.egress.linked
    requires forall i :: 0 <= i < |c.egress.txs| ==> c.egress.txs[i].dir == OUTBOUND
    requires j < |c.ingress.txs| && c.ingress.txs[j].Pending()
             && forall i :: 0 <= i < |c.ingress.txs| ==> c.ingress.txs[i].hasRequest
    ensures var d := Step(c, ResponseIn(Egress, r, WORLD));
            && |d.ingress.txs| > j && d.ingress.txs[j] == c.ingress.txs[j].With(Reply(503, NoBody))
            && d.ingress.state == BeingDropped && d.egress.state == BeingDropped
  {
    hide Step, ReleaseCall, EnterAndBye, ByeFails, Finish;
    IsRedirected(c, k, r);
    HungUpAnswers(c.ingress, j);
    NothingWaits(Noted(c, Egress, k, r).egress);
    BothHungUp(Noted(c, Egress, k, r));
  }

  lemma BothHungUp(c: Call)
    requires c.egress.state == Established && c.ingress.state == Established && c.egress.linked && !ByeFails(c.egress)
    ensures var d := ReleaseCall(Finish(c, Egress), Egress, WORLD).0;
            d.ingress == EnterAndBye(c.ingress, BeingDropped, None, WORLD.d) && d.egress.state == BeingDropped
  {
    FinishSame(c, Egress);
    ByeTakesDown(c.egress, WORLD.d);
  }

  lemma IsRedirected(c: Call, k: nat, r: Response)
    requires Matched(c, Egress, r) == Some(k) && 300 <= r.code <= 399 && c.egress.txs[k].kind.CarriesOffer()
    requires c.egress.linked
    ensures Step(c, ResponseIn(Egress, r, WORLD)) ==
            ReleaseCall(Finish(Noted(c, Egress, k, r), Egress), Egress, WORLD).0
  {
    OnResponseUnfolds(c, Egress, r, WORLD);
  }

  lemma NothingWaits(l: Leg)
    requires forall k :: 0 <= k < |l.txs| ==> l.txs[k].dir == OUTBOUND
    ensures !ByeFails(l)
  {
  }

  lemma HungUpAnswers(l: Leg, i: nat)
    requires i < |l.txs| && l.txs[i].Pending() && forall k :: 0 <= k < |l.txs| ==> l.txs[k].hasRequest
    ensures var m := EnterAndBye(l, BeingDropped, None, WORLD.d);
            |m.txs| > i && m.txs[i] == l.txs[i].With(Reply(503, NoBody)) && m.state == BeingDropped
  {
    SentNew(RejectPending(Enter(l, BeingDropped)), BYE, None, false, WORLD.d);
  }

  lemma CancelWins(c: Call)
    requires c.ingress.state == BeingEstablished && c.ingress.linked && c.egress.state == BeingEstablished
    requires |c.ingress.txs| == 2 && c.ingress.txs[1].kind == CANCEL && IsUnACKedInvite(c.ingress.txs[0], INBOUND)
    ensures var l := HandleCancel(c, Ingress, 1, WORLD).ingress;
            |l.txs| == 2 && l.txs[0] == c.ingress.txs[0].With(Reply(487, NoBody))
  {
    hide CancelMe;
    var c1 := Put(c, Ingress, RespondTo(Enter(c.ingress, BeingCancelled), 1, Reply(200, NoBody)));
    Replied(To(c, Ingress, BeingCancelled), Ingress, 1, 200, WORLD);
    assert LastUnACKedInvite(c1.ingress, INBOUND) == Some(0);
    assert HandleCancel(c, Ingress, 1, WORLD) == CancelPeer(c1, Ingress, WORLD);
  }

  // ----- a call that is set up, whatever else it carries

  /** The call is answered, and the caller acknowledges it. */
  function SetUp(c: Call): Call
    requires |c.ingress.txs| > 0 && |c.egress.txs| > 0
  {
    var (t, u) := (c.ingress.txs[0].With(ANSWER), c.egress.txs[0].With(ANSWER));
    c.(ingress := Update(c.ingress, 0, t.(isACKed := true)).(state := Established),
       egress := Log(Update(c.egress, 0, u.(isACKed := true)).(state := Established), Sent(ACK, u.cseq, INVITE)))
  }

  /** A call of the transparent flow that waits for its answer, with no other INVITE. */
  predicate Waits(c: Call) {
    && SoundCall(c) && c.ingress.txs != [] && c.egress.txs != []
    && c.flow == Transparent && c.ingress.linked && c.egress.linked
    && c.ingress.state == BeingEstablished && c.egress.state == BeingEstablished
    && !c.ingress.disposed && !c.egress.disposed && !c.egress.transformEarlyToFinal
    && !c.ingress.txs[0].isACKed && !c.egress.txs[0].isACKed && Matched(c, Egress, OK_INVITE.r) == Some(0)
    && c.ingress.txs[0].cseq == 1 && c.ingress.txs[0].branch == 1 && !c.ingress.txs[0].AnyNegative()
    && forall i :: 0 < i < |c.ingress.txs| ==> c.ingress.txs[i].kind == PRACK
  }

  function AnswerNoted(c: Call): Call
    requires |c.ingress.txs| > 0 && |c.egress.txs| > 0
  {
    c.(ingress := RespondTo(c.ingress, 0, ANSWER), egress := RespondTo(c.egress, 0, ANSWER))
  }

  lemma AnswerPasses(c: Call)
    requires Waits(c)
    ensures Step(c, OK_INVITE) == AnswerNoted(c)
  {
    var c1 := Noted(c, Egress, 0, OK_INVITE.r);
    OnResponseUnfolds(c, Egress, OK_INVITE.r, WORLD);
    RecordQuiet(c, Egress, 0, OK_INVITE.r);
    CallerAnswered(c1, 200, WithSDP(2), WORLD);
  }

  lemma Confirmed(c: Call)
    requires c.ingress.state == BeingEstablished && c.egress.state == BeingEstablished
    requires c.ingress.txs != [] && c.ingress.txs[0].kind == INVITE && c.egress.txs != [] && NeedsACK(c.egress.txs[0])
    requires c.ingress.linked && !c.egress.transformEarlyToFinal && c.egress.txs[0].kind == INVITE
    ensures HandleACK(c, Ingress, 0) ==
            c.(ingress := c.ingress.(state := Established),
               egress := Log(Update(c.egress, 0, c.egress.txs[0].(isACKed := true)).(state := Established),
                             Sent(ACK, c.egress.txs[0].cseq, INVITE)))
  {
    assert FirstNeedingACK(c.egress) == Some(0);
  }

  lemma StaysPositive(t: Tx)
    requires !t.AnyNegative()
    ensures !t.With(ANSWER).AnyNegative()
  {
    var u := t.With(ANSWER);
    assert forall k :: 0 <= k < |t.responses| ==> u.responses[k] == t.responses[k];
  }

  lemma ACKTaken(c: Call)
    requires Waits(c)
    ensures |c.ingress.txs| > 0 && |c.egress.txs| > 0
    ensures var l := AnswerNoted(c).ingress;
            && ReceiveACK(l, ACK_INVITE.q) == (Update(l, 0, l.txs[0].(isACKed := true)), Some(0))
            && !IsDuplicateRequest(l, ACK_INVITE.q)
            && l.txs[0].kind == INVITE && c.egress.txs[0].kind == INVITE && NeedsACK(AnswerNoted(c).egress.txs[0])
            && c.ingress.state == BeingEstablished && c.egress.state == BeingEstablished
            && !c.ingress.disposed && c.ingress.linked && !c.egress.transformEarlyToFinal
  {
    StaysPositive(c.ingress.txs[0]);
    Unrepeated(AnswerNoted(c).ingress, ACK_INVITE.q);
    TakenBy(AnswerNoted(c).ingress, ACK_INVITE.q, 0);
  }

  lemma ACKHandled(c: Call)
    requires Waits(c)
    ensures var c1 := AnswerNoted(c);
            var l := Update(c1.ingress, 0, c1.ingress.txs[0].(isACKed := true));
            Step(c1, ACK_INVITE) == HandleACK(Put(c1, Ingress, l), Ingress, 0)
  {
    hide HandleACK, Step, ReceiveACK, IsDuplicateRequest, Waits;
    ACKTaken(c);
    var c1 := AnswerNoted(c);
    TakenStep(c1, Ingress, ACK_INVITE.q, WORLD, Update(c1.ingress, 0, c1.ingress.txs[0].(isACKed := true)), 0);
  }

  lemma ACKPasses(c: Call)
    requires Waits(c)
    ensures Step(AnswerNoted(c), ACK_INVITE) == SetUp(c)
  {
    hide HandleACK, Step, ReceiveACK, IsDuplicateRequest, Waits;
    ACKTaken(c);
    var c1 := AnswerNoted(c);
    ACKHandled(c);
    Confirmed(Put(c1, Ingress, Update(c1.ingress, 0, c1.ingress.txs[0].(isACKed := true))));
  }

  lemma SetUpLeads(v: FirstInvite, es: seq<Event>, c: Call)
    requires LeadsFrom(v, WORLD, Transparent, es, c) && Waits(c)
    ensures LeadsFrom(v, WORLD, Transparent, es + [OK_INVITE] + [ACK_INVITE], SetUp(c))
  {
    hide LeadsFrom;
    AnswerPasses(c);
    ACKPasses(c);
    NextFrom(v, WORLD, Transparent, es, c, OK_INVITE, AnswerNoted(c));
    NextFrom(v, WORLD, Transparent, es + [OK_INVITE], AnswerNoted(c), ACK_INVITE, SetUp(c));
  }

  // ----- other requests

  /** The called party hangs up while the caller's leg waits for a PRACK: no BYE can be sent there. */
  lemma ByeGoesNoFurther(c: Call, q: Request, w: World)
    requires SoundCall(c) && c.ingress.state == Established && c.egress.state == Established && c.egress.linked
    requires !c.egress.disposed && q.kind == BYE && q.body == NoBody && !IsDuplicateRequest(c.egress, q)
    requires ByeFails(c.ingress)
    ensures var d := Step(c, RequestIn(Egress, q, w));
            && d.ingress == RejectPending(Enter(c.ingress, BeingCleared)) && d.egress.state == Cleared
  {
    hide RejectPending;
    assert GiveUpWaitingForACK(c, Egress, w) == c;
  }

  lemma WaitsForPRACK(l: Leg, i: nat)
    requires i < |l.txs| && l.txs[i].Pending() && !l.txs[i].hasRequest
    ensures ByeFails(l)
  {
  }

  lemma PrackAt(l: Leg, rseq: nat, i: nat)
    requires i < |l.txs| && l.txs[i].dir == INBOUND && l.txs[i].rseq == rseq && l.txs[i].kind == PRACK
    requires forall k :: 0 <= k < i ==> l.txs[k].kind != PRACK
    ensures PrackFor(l, rseq) == Some(i)
  {
  }

  lemma PrackPasses(c: Call)
    requires c.ingress.linked && |c.ingress.txs| == 2 && |c.egress.txs| == 2
             && c.egress.dir == OUTBOUND && c.egress.fwdCSeq == 1
    requires c.ingress.txs[1].link == Some(There(1)) && c.ingress.txs[1].prack == PRACKExpected
             && c.egress.txs[1].kind == PRACK
    ensures HandlePrack(c, Ingress, 1, WORLD) ==
            c.(ingress := RespondTo(c.ingress, 1, Reply(200, NoBody)),
               egress := Update(c.egress, 1, c.egress.txs[1].(hasRequest := true, cseq := 2))
                         .(fwdCSeq := 2, sent := c.egress.sent + [Sending(PRACK, 2)]))
  {
    Replied(c, Ingress, 1, 200, WORLD);
    SentPrack(c.egress, 1, WORLD.d);
  }

  lemma InfoPasses(c: Call, q: Request, w: World)
    requires c.ingress.linked && !c.ingress.disposed && !IsDuplicateRequest(c.ingress, q)
             && q.kind == INFO && q.body == NoBody
    ensures Step(c, RequestIn(Ingress, q, w)).egress.sent == c.egress.sent + [Sending(INFO, NextCSeq(c.egress, w.d))]
  {
    SentNew(c.egress, INFO, Some(|c.ingress.txs|), false, w.d);
  }
}
