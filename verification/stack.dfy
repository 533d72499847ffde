/** A call: an ingress leg and the egress leg it was routed to. Every message or timer is one
    atomic step (sip/stack.go, sip/session.go, sip/routing.go). */
module Stack {
  import opened SessionState
  import opened SipTypes
  import opened Session

  datatype Side = Ingress | Egress

  datatype Flow = Plain | Transparent | EarlyToFinal | Echo

  datatype Call = Call(ingress: Leg, egress: Leg, flow: Flow, repeats: Repeats)

  function Other(s: Side): Side { if s == Ingress then Egress else Ingress }
  function At(c: Call, s: Side): Leg { if s == Ingress then c.ingress else c.egress }
  function Put(c: Call, s: Side, l: Leg): Call {
    if s == Ingress then c.(ingress := l) else c.(egress := l)
  }

  /** What the world decides in one step: random draws, the answer built for an offer that ends
      here, whether REFER is well formed, what a REGISTER does. */
  datatype Registration = BadContact | Expired | Refreshed
  datatype World = World(d: Draws, answer: Status, referOk: bool, registration: Registration)

  // ----- the helpers of Session, on one side of a call

  predicate Has(c: Call, s: Side, i: Option<nat>) { i.Some? ==> i.value < |At(c, s).txs| }

  function To(c: Call, s: Side, state: State): Call { Put(c, s, Enter(At(c, s), state)) }
  function Finish(c: Call, s: Side): Call { Put(c, s, Finalize(At(c, s))) }
  function DropMe(c: Call, s: Side): Call { Put(c, s, Drop(At(c, s))) }
  function Flag(c: Call, s: Side, changing: bool): Call { Put(c, s, At(c, s).(dialogueChanging := changing)) }
  function Ack(c: Call, s: Side, lt: Option<nat>): Call
    requires Has(c, s, lt)
  { Put(c, s, SendAck(At(c, s), lt)) }

  function SendReply(c: Call, s: Side, trans: Option<nat>, code: Status, body: Body, w: World): Call
    requires Has(c, s, trans)
  { Put(c, s, Answer(At(c, s), trans, Reply(code, body), None, c.repeats, w.d)) }

  /** Send a request on the other leg that forwards transaction i of this one; both are linked. */
  function Forward(c: Call, s: Side, i: nat, m: Method, w: World): Call
    requires i < |At(c, s).txs|
  {
    var o := Other(s);
    var j := |At(c, o).txs|;
    Put(Put(c, o, SendNew(At(c, o), m, Some(i), false, w.d)), s, SetLink(At(c, s), i, j))
  }

  /** ReleaseMe on the other leg, with the BYE linked to transaction i of this one. */
  function ReleaseLinked(c: Call, s: Side, i: Option<nat>, w: World): Call
    requires Has(c, s, i)
  {
    var o := Other(s);
    var l := ReleaseMe(At(c, o), i, w.d);
    var c1 := Put(c, o, l);
    if i.Some? && At(c, o).state == Established && !ByeFails(At(c, o))
    then Put(c1, s, SetLink(At(c, s), i.value, |At(c, o).txs|))
    else c1
  }

  /** Enter a state and send a BYE. */
  function ByeAfter(c: Call, s: Side, state: State, w: World): Call {
    Put(c, s, EnterAndBye(At(c, s), state, None, w.d))
  }

  /** ReleaseCall: BYE on each established leg; it is cut short when a BYE cannot be sent. */
  function ReleaseCall(c: Call, s: Side, w: World): (Call, bool) {
    var ss := At(c, s);
    var s1 := ss.state == Established;
    var c1 := if s1 then ByeAfter(c, s, BeingDropped, w) else c;
    if s1 && ByeFails(ss) then (c1, false) else ReleasePeer(c1, s, w)
  }

  function ReleasePeer(c: Call, s: Side, w: World): (Call, bool) {
    var o := Other(s);
    if At(c, s).linked && At(c, o).state == Established
    then (ByeAfter(c, o, BeingDropped, w), !ByeFails(At(c, o)))
    else (c, true)
  }

  /** RerouteRequest on leg o: fail the waiting INVITE and cut the leg from its peer. */
  function Reroute(c: Call, o: Side, code: Status, w: World): Call {
    var l := At(c, o);
    match LastUnACKedInvite(l, INBOUND)
    case None => c
    case Some(i) =>
      if l.state == BeingEstablished
      then Put(c, o, RejectMe(l.(linked := false), Some(i), code, c.repeats, w.d))
      else c
  }

  // ----- a request on an existing leg

  function OnRequest(c: Call, s: Side, q: Request, w: World): Call {
    var ss := At(c, s);
    if ss.disposed || IsDuplicateRequest(ss, q) then c
    else TakeRequest(if q.kind == BYE then GiveUpWaitingForACK(c, s, w) else c, s, q, w)
  }

  function TakeRequest(c: Call, s: Side, q: Request, w: World): Call {
    var (l, t) := AddIncomingRequest(At(c, s), q);
    match t
    case None => Put(c, s, l)
    case Some(i) => HandleRequest(Put(c, s, l), s, i, q, w)
  }

  /** A BYE ends the wait for the ACK of an answered INVITE. */
  function GiveUpWaitingForACK(c: Call, s: Side, w: World): Call {
    match First(At(c, s).txs, (t: Tx) => t.dir == INBOUND && t.kind == INVITE && t.isFinalized && !t.isACKed)
    case None => c
    case Some(i) => OnInviteTimeout(c, s, i, w)
  }

  function HandleRequest(c: Call, s: Side, i: nat, q: Request, w: World): Call
    requires i < |At(c, s).txs|
  {
    if q.body == UnknownParts then SendReply(c, s, Some(i), 415, NoBody, w)
    else if q.kind == ReINVITE then HandleOffer(SendReply(c, s, Some(i), 100, NoBody, w), s, i, q, w)
    else if q.kind == UPDATE then
      if q.body == NoBody then SendReply(c, s, Some(i), 200, NoBody, w) else HandleOffer(c, s, i, q, w)
    else if q.kind == ACK then HandleACK(c, s, i)
    else if q.kind == CANCEL then HandleCancel(c, s, i, w)
    else if q.kind == BYE then HandleBye(c, s, i, w)
    else if q.kind == PRACK then HandlePrack(c, s, i, w)
    else HandlePlain(c, s, i, q, w)
  }

  function HandlePlain(c: Call, s: Side, i: nat, q: Request, w: World): Call
    requires i < |At(c, s).txs|
  {
    if q.kind == REFER then HandleRefer(c, s, i, w)
    else if q.kind == INFO then HandleInfo(c, s, i, w)
    else if q.kind == NOTIFY then SendReply(c, s, Some(i), 405, NoBody, w)
    else if q.kind == OPTIONS then
      if q.outOfDialogue then End(c, s, Probed, i, 200, w) else SendReply(c, s, Some(i), 200, NoBody, w)
    else if q.kind == REGISTER then HandleRegister(c, s, i, w)
    else End(c, s, Dropped, i, 405, w)
  }

  function HandleRegister(c: Call, s: Side, i: nat, w: World): Call
    requires i < |At(c, s).txs|
  {
    match w.registration
    case BadContact => End(c, s, Dropped, i, 400, w)
    case Expired => End(c, s, Unregistered, i, 200, w)
    case Refreshed => End(c, s, Registered, i, 200, w)
  }

  function HandleInfo(c: Call, s: Side, i: nat, w: World): Call
    requires i < |At(c, s).txs|
  {
    if At(c, s).linked then Forward(c, s, i, INFO, w) else c
  }

  /** Enter a final state, answer, drop the session. */
  function End(c: Call, s: Side, state: State, i: nat, code: Status, w: World): Call
    requires i < |At(c, s).txs|
  {
    DropMe(SendReply(To(c, s, state), s, Some(i), code, NoBody, w), s)
  }

  function HandleRefer(c: Call, s: Side, i: nat, w: World): Call
    requires i < |At(c, s).txs|
  {
    if At(c, s).state != Established then SendReply(c, s, Some(i), 480, NoBody, w)
    else if !At(c, s).linked then c   // the missing peer stops the handler
    else if At(c, Other(s)).state != Established then SendReply(c, s, Some(i), 480, NoBody, w)
    else SendReply(c, s, Some(i), if w.referOk then 200 else 400, NoBody, w)
  }

  /** A re-INVITE or an UPDATE with a body: answered here when there is no other leg, refused
      while either leg is already changing the dialogue, otherwise forwarded. */
  function HandleOffer(c: Call, s: Side, i: nat, q: Request, w: World): Call
    requires i < |At(c, s).txs|
  {
    if !At(c, s).linked then AnswerOffer(c, s, i, q, w)
    else
      var c1 := Flag(c, s, true);
      if At(c, s).dialogueChanging || At(c1, Other(s)).dialogueChanging
      then SendReply(c1, s, Some(i), 491, NoBody, w)
      else ForwardOffer(c1, s, i, q, w)
  }

  function AnswerOffer(c: Call, s: Side, i: nat, q: Request, w: World): Call
    requires i < |At(c, s).txs|
  {
    if q.body.WithSDP? then SendReply(c, s, Some(i), w.answer, if w.answer == 200 then q.body else NoBody, w)
    else SendReply(c, s, Some(i), 488, NoBody, w)
  }

  function ForwardOffer(c: Call, s: Side, i: nat, q: Request, w: World): Call
    requires i < |At(c, s).txs|
  {
    if q.kind == ReINVITE && At(c, Other(s)).transformEarlyToFinal then
      if q.body.WithSDP? then Forward(c, s, i, UPDATE, w) else SendReply(c, s, Some(i), 488, NoBody, w)
    else Forward(c, s, i, q.kind, w)
  }

  function HandleACK(c: Call, s: Side, i: nat): Call
    requires i < |At(c, s).txs|
  {
    if At(c, s).txs[i].kind == INVITE then PropagateACK(Finish(c, s), s) else HandleOfferACK(c, s, i)
  }

  /** The INVITE of leg s has its ACK: an answered call is confirmed on the other leg. */
  function PropagateACK(c: Call, s: Side): Call {
    var o := Other(s);
    if At(c, s).state != Established then DropMe(c, s)
    else if At(c, s).linked && !At(c, o).transformEarlyToFinal then Ack(Finish(c, o), o, None)
    else c
  }

  function HandleOfferACK(c: Call, s: Side, i: nat): Call
    requires i < |At(c, s).txs|
  {
    var o := Other(s);
    if At(c, s).linked && LinkOf(c, s, i, o) then
      var j := At(c, s).txs[i].link.value.j;
      var c1 := if At(c, o).txs[j].AnyPositive() then OfferOver(c) else c;
      if At(c, o).transformEarlyToFinal then c1 else Ack(c1, o, Some(j))
    else c
  }

  /** Transaction i of leg s is linked to one of leg o. */
  predicate LinkOf(c: Call, s: Side, i: nat, o: Side)
    requires i < |At(c, s).txs|
  {
    var link := At(c, s).txs[i].link;
    link.Some? && link.value.There? && link.value.j < |At(c, o).txs|
  }

  function OfferOver(c: Call): Call { Flag(Flag(c, Ingress, false), Egress, false) }

  function HandleCancel(c: Call, s: Side, i: nat, w: World): Call
    requires i < |At(c, s).txs|
  {
    if At(c, s).state != BeingEstablished then SendReply(c, s, Some(i), 400, NoBody, w)
    else CancelPeer(SendReply(To(c, s, BeingCancelled), s, Some(i), 200, NoBody, w), s, w)
  }

  function CancelPeer(c: Call, s: Side, w: World): Call {
    var o := Other(s);
    if !At(c, s).linked then SendReply(c, s, None, 487, NoBody, w)
    else if At(c, o).state == Established then ReleaseLinked(c, s, None, w)
    else SendReply(Put(c, o, CancelMe(At(c, o))), s, None, 487, NoBody, w)
  }

  function HandleBye(c: Call, s: Side, i: nat, w: World): Call
    requires i < |At(c, s).txs|
  {
    if At(c, s).state != Established then SendReply(c, s, Some(i), 400, NoBody, w)
    else ByePeer(End(c, s, Cleared, i, 200, w), s, i, w)
  }

  function ByePeer(c: Call, s: Side, i: nat, w: World): Call
    requires i < |At(c, s).txs|
  {
    var o := Other(s);
    if !At(c, s).linked then c
    else if At(c, o).state == Established then ReleaseLinked(c, s, Some(i), w)
    else Put(c, o, CancelMe(At(c, o)))
  }

  function HandlePrack(c: Call, s: Side, i: nat, w: World): Call
    requires i < |At(c, s).txs|
  {
    if At(c, s).txs[i].prack != PRACKExpected then SendReply(c, s, Some(i), 400, NoBody, w)
    else RelayPRACK(SendReply(c, s, Some(i), 200, NoBody, w), s, i, w)
  }

  function RelayPRACK(c: Call, s: Side, i: nat, w: World): Call
    requires i < |At(c, s).txs|
  {
    var o := Other(s);
    if At(c, s).linked && LinkOf(c, s, i, o) && At(c, o).txs[At(c, s).txs[i].link.value.j].kind == PRACK
    then Put(c, o, SendPrack(At(c, o), At(c, s).txs[i].link.value.j, w.d))
    else c
  }

  // ----- a response on an existing leg

  function OnResponse(c: Call, s: Side, r: Response, w: World): Call {
    var ss := At(c, s);
    if ss.disposed || IsDuplicateResponse(ss, r) then c
    else
      var (l, t) := AddIncomingResponse(ss, r);
      match t
      case None => c
      case Some(i) => HandleResponse(Put(c, s, l), s, i, r, w)
  }

  function HandleResponse(c: Call, s: Side, i: nat, r: Response, w: World): Call
    requires i < |At(c, s).txs|
  {
    var kind := At(c, s).txs[i].kind;
    if r.code <= 199 && kind != INVITE then c
    else if !At(c, s).linked then
      if IsPositive(r.code) && kind == BYE then DropMe(Finish(c, s), s) else c
    else if Is18x(r.code) then On18x(c, s, r, w)
    else if r.code <= 199 then c
    else if r.code <= 299 then OnPositive(c, s, i, r, w)
    else if r.code <= 399 then OnRedirect(c, s, kind, r, w)
    else OnFailure(c, s, i, r, w)
  }

  function On18x(c: Call, s: Side, r: Response, w: World): Call {
    var ss := At(c, s);
    var o := Other(s);
    if ss.state != BeingEstablished then c
    else if ss.transformEarlyToFinal then
      if ss.received18xSDP then c
      else if r.body.WithSDP? then
        SendReply(Put(c, s, ss.(received18xSDP := true)), o, None, 200, r.body, w)
      else SendReply(c, o, None, r.code, NoBody, w)
    else
      var owed := if r.require100rel then Some(|ss.txs|) else None;
      var c1 := if r.require100rel then Put(c, s, OwePRACK(ss, r.rseq)) else c;
      if At(c1, o).state == BeingEstablished
      then Relay18x(c1, o, Reply(r.code, r.body), owed, w)
      else c1
  }

  /** The 18x on the waiting leg; a reliable one links the two PRACK transactions. */
  function Relay18x(c: Call, o: Side, r: Reply, owed: Option<nat>, w: World): Call
    requires Has(c, Other(o), owed)
  {
    var l := Answer(At(c, o), None, r, owed, c.repeats, w.d);
    var c1 := Put(c, o, l);
    if owed.Some? && |l.txs| > |At(c, o).txs|
    then Put(c1, Other(o), SetLink(At(c, Other(o)), owed.value, |At(c, o).txs|))
    else c1
  }

  /** The answer to a forwarded offer goes to the transaction it was forwarded from. */
  function RelayBack(c: Call, s: Side, i: nat, r: Response, w: World): Call
    requires i < |At(c, s).txs|
  {
    var o := Other(s);
    if LinkOf(c, s, i, o) then SendReply(c, o, Some(At(c, s).txs[i].link.value.j), r.code, r.body, w)
    else SendReply(c, o, None, r.code, r.body, w)
  }

  function OnPositive(c: Call, s: Side, i: nat, r: Response, w: World): Call
    requires i < |At(c, s).txs|
  {
    var kind := At(c, s).txs[i].kind;
    if kind == INVITE then InviteAnswered(c, s, r, w)
    else if kind == UPDATE then RelayBack(OfferOver(c), s, i, r, w)
    else if kind == ReINVITE then RelayBack(c, s, i, r, w)
    else if kind == BYE then DropMe(Finish(c, s), s)
    else c
  }

  /** The called party answered: relay it, unless the caller was already answered with the SDP of
      an 18x, or the leg was given up and is hung up at once. */
  function InviteAnswered(c: Call, s: Side, r: Response, w: World): Call {
    var ss := At(c, s);
    if ss.state != BeingEstablished then Put(c, s, SendBye(SendAck(ss, None), None, w.d))
    else if ss.transformEarlyToFinal && ss.received18xSDP then Put(c, s, ConfirmEarly(ss))
    else RelayAnswer(c, s, r, w)
  }

  function RelayAnswer(c: Call, s: Side, r: Response, w: World): Call {
    SendReply(Put(c, s, At(c, s).(transformEarlyToFinal := false)), Other(s), None, r.code, r.body, w)
  }

  function ConfirmEarly(l: Leg): Leg {
    SendAck(Finalize(l.(transformEarlyToFinal := false)), None)
  }

  function OnRedirect(c: Call, s: Side, kind: Method, r: Response, w: World): Call {
    if kind == INVITE then Reroute(Put(c, s, AckFailure(At(c, s), Redirected)), Other(s), r.code, w)
    else if kind == CANCEL || kind == BYE then DropMe(c, s)
    else ReleaseCall(Finish(c, s), s, w).0
  }

  function OnFailure(c: Call, s: Side, i: nat, r: Response, w: World): Call
    requires i < |At(c, s).txs|
  {
    var ss := At(c, s);
    var kind := ss.txs[i].kind;
    if kind == INVITE then
      if ss.state == BeingEstablished then InviteFailed(c, s, r, w)
      else if ss.state == BeingCancelled then Put(c, s, AckFailure(ss, FinalizeMe(ss.state)))
      else c
    else if kind.CarriesOffer() then RelayBack(c, s, i, r, w)
    else if kind == BYE then DropMe(Finish(c, s), s)
    else if kind == OPTIONS && ss.txs[i].isProbing && (r.code == 408 || r.code == 481)
    then ReleaseCall(c, s, w).0
    else c
  }

  /** The called party refused: so does the router, or it hangs up a caller answered early. */
  function InviteFailed(c: Call, s: Side, r: Response, w: World): Call {
    var c1 := Put(c, s, Refused(At(c, s)));
    if At(c, s).transformEarlyToFinal then FailCaller(c1, s, r, w) else Reroute(c1, Other(s), r.code, w)
  }

  function Refused(l: Leg): Leg {
    AckFailure(l, Rejected).(transformEarlyToFinal := false)
  }

  function FailCaller(c: Call, s: Side, r: Response, w: World): Call {
    var o := Other(s);
    if At(c, o).state == Established then ReleaseLinked(c, s, None, w)
    else Put(c, o, RejectMe(At(c, o), None, r.code, c.repeats, w.d))
  }

  // ----- timers

  function OnInviteTimeout(c: Call, s: Side, i: nat, w: World): Call
    requires i < |At(c, s).txs|
  {
    TellPeer(if IsPending(At(c, s).state) then DropMe(To(c, s, TimedOut), s) else c, s, At(c, s).txs[i].dir, w)
  }

  function TellPeer(c: Call, s: Side, d: Direction, w: World): Call {
    var o := Other(s);
    if !At(c, s).linked then c
    else if d == OUTBOUND then Reroute(c, o, 408, w)
    else if At(c, o).dir == INBOUND then c
    else if At(c, o).state == BeingEstablished && |At(c, o).txs| > 0 && At(c, o).txs[0].AnyPositive()
    then HangUp(c, o, w)
    else Put(c, o, CancelMe(At(c, o)))
  }

  function HangUp(c: Call, s: Side, w: World): Call {
    Put(c, s, EnterAndBye(SendAck(At(c, s), None), BeingDropped, None, w.d))
  }

  /** CheckPendingTransaction: transaction i of leg s was retransmitted to no avail. */
  function OnTimeout(c: Call, s: Side, i: nat, w: World): Call
    requires i < |At(c, s).txs|
  {
    var t := At(c, s).txs[i];
    if t.kind == OPTIONS then
      if At(c, s).dir == INBOUND && t.dir == OUTBOUND && t.isProbing then ReleaseCall(c, s, w).0 else c
    else if t.kind == INVITE then OnInviteTimeout(c, s, i, w)
    else if t.kind == CANCEL || t.kind == BYE then DropMe(Finish(c, s), s)
    else if t.kind == PRACK then OnPrackTimeout(c, s, w)
    else OnInDialogueTimeout(c, s, w)
  }

  function OnPrackTimeout(c: Call, s: Side, w: World): Call {
    DropMe(To(if At(c, s).linked then Reroute(c, Other(s), 408, w) else c, s, Failed), s)
  }

  function OnInDialogueTimeout(c: Call, s: Side, w: World): Call {
    var o := Other(s);
    var (c1, completed) := ReleaseCall(c, s, w);
    if !completed then c1
    else
      var c2 := if At(c, s).state != Established then DropMe(c1, s) else c1;
      if At(c, s).linked && At(c, o).state != Established then DropMe(c2, o) else c2
  }

  /** The no-answer and no-18x timers of the egress leg. */
  function OnNoProgress(c: Call, w: World): Call {
    Reroute(Put(c, Egress, CancelMe(c.egress)), Ingress, 487, w)
  }

  /** Which transactions may be waiting in vain: requests sent here without any response, and INVITEs
      answered here without an ACK. What arrives stops the retransmissions for good. */
  predicate CanTimeOut(t: Tx) {
    if t.dir == OUTBOUND then t.hasRequest && t.responses == []
    else t.kind.RequiresACK() && t.responses != [] && !t.isACKed
  }

  /** The no-answer and no-18x timers are stopped for good by a 2xx. */
  predicate CanLackProgress(l: Leg) { l.txs != [] && !l.txs[0].AnyPositive() }

  /** The egress INVITE of a cancelled call gets no final response although its CANCEL did. */
  predicate AwaitsCancelledInvite(l: Leg) {
    exists i :: 0 <= i < |l.txs| && l.txs[i].kind == CANCEL && l.txs[i].dir == OUTBOUND && l.txs[i].isFinalized
  }

  // ----- the first INVITE

  datatype FirstInvite = FirstInvite(
    cseq: nat, branch: nat, body: Body, supports100rel: bool, knownScheme: bool, hasRequire: bool,
    maxForwards: int, rateExceeded: bool)

  /** What the phone book or the routing table says about the called number; whether it was the application server
      that sent the call to the phone. */
  datatype Target =
    | NoTarget
    | AppServer
    | Phone(registered: bool, reachable: bool, sdpLeft: bool, sentBack: bool)
    | Record(flow: Flow, noTimers: bool, steersMedia: bool, repeats: Repeats)

  /** Outcomes of the media pool and of the SDP library. */
  datatype Media = Media(ingressPort: bool, egressPort: bool, sdpParses: bool, answerBuilds: bool)

  /** The reason for which sessionGetter turns an INVITE away, in the order of its checks. */
  function Refusal(v: FirstInvite): Option<Status> {
    if !v.knownScheme then Some(416)
    else if v.body == UnknownParts then Some(415)
    else if v.hasRequire then Some(420)
    else if TooFewHops(v.maxForwards) then Some(483)
    else if v.rateExceeded then Some(503)
    else None
  }

  /** The leg of an INVITE that has just arrived, with its transaction. */
  function IngressOf(v: FirstInvite): Leg {
    var q := Request(INVITE, v.cseq, v.branch, true, true, v.body, BadRAck);
    NewLeg(INBOUND).(state := BeingEstablished, prackSupported := v.supports100rel, txs := [IncomingTx(q, None)])
  }

  /** sessionGetter and sipStack on the INVITE that creates the call. */
  function NewCall(v: FirstInvite, t: Target, m: Media, w: World): Call {
    var c := Call(IngressOf(v), Drop(NewLeg(OUTBOUND)), if t.Record? then t.flow else Plain,
                  if t.Record? then t.repeats else Repeats(false, false));
    match Refusal(v)
    case Some(code) => Turn(c, code, w)
    case None => Route(SendReply(c, Ingress, Some(0), 100, NoBody, w), v, t, m, w)
  }

  /** RejectMe on the INVITE of the ingress leg. */
  function Turn(c: Call, code: Status, w: World): Call
    requires |c.ingress.txs| > 0
  {
    c.(ingress := RejectMe(c.ingress, Some(0), code, c.repeats, w.d))
  }

  /** RouteRequestInternal, and RouteRequestExternal when there is an application server. */
  function Route(c: Call, v: FirstInvite, t: Target, m: Media, w: World): Call
    requires |c.ingress.txs| > 0
  {
    match t
    case NoTarget => Turn(c, 404, w)
    case AppServer => Link(c, v.supports100rel, false, m, w)
    case Phone(registered, reachable, sdpLeft, sentBack) =>
      if !registered then Turn(c, 480, w)
      else if !reachable then Turn(c, 604, w)
      else if !sdpLeft then Turn(c, 488, w)
      else Link(c, sentBack && v.supports100rel, false, m, w)
    case Record(flow, noTimers, steersMedia, _) =>
      if flow == Echo then AnswerEcho(c, v, m, w)
      else if flow == EarlyToFinal && !v.body.WithSDP? then Turn(c, 488, w)
      else if noTimers then Turn(c, 503, w)
      else Link(c, flow == Transparent && v.supports100rel, steersMedia, m, w)
  }

  /** answerEchoCall up to its delay; the 200 is the event EchoAnswer. */
  function AnswerEcho(c: Call, v: FirstInvite, m: Media, w: World): Call
    requires |c.ingress.txs| > 0
  {
    if !v.body.WithSDP? || !m.sdpParses then Turn(c, 488, w)
    else if !m.ingressPort then Turn(c, 503, w)
    else if !m.answerBuilds then Turn(c, 500, w)
    else SendReply(c, Ingress, Some(0), 180, NoBody, w)
  }

  /** Create the egress leg, link the two and send the INVITE on. */
  function Link(c: Call, reliable: bool, steersMedia: bool, m: Media, w: World): Call
    requires |c.ingress.txs| > 0
  {
    if steersMedia && !m.ingressPort then Turn(c, 503, w)
    else
      var e := NewLeg(OUTBOUND).(linked := true, prackSupported := reliable);
      var c1 := c.(ingress := c.ingress.(linked := true), egress := e);
      if steersMedia && !m.egressPort then Turn(DropMe(c1, Egress), 503, w)
      else
        c1.(egress := SendNew(e, INVITE, None, false, w.d)
                      .(state := BeingEstablished, transformEarlyToFinal := c.flow == EarlyToFinal))
  }

  // ----- the events of a call

  datatype Event =
    | RequestIn(s: Side, q: Request, w: World)
    | ResponseIn(s: Side, r: Response, w: World)
    | TransactionTimeout(s: Side, i: nat, w: World)
    | NoProgress(w: World)
    | CancelTimeout
    | TimedDrop(s: Side)
    | MaxDuration(w: World)
    | ProbeTick(w: World)
    | EchoAnswer(body: Body, w: World)

  /** One step. An event that cannot happen in this state changes nothing. */
  function Step(c: Call, e: Event): Call {
    match e
    case RequestIn(s, q, w) => OnRequest(c, s, q, w)
    case ResponseIn(s, r, w) => OnResponse(c, s, r, w)
    case TransactionTimeout(s, i, w) =>
      if i < |At(c, s).txs| && CanTimeOut(At(c, s).txs[i]) then OnTimeout(c, s, i, w) else c
    case NoProgress(w) => if CanLackProgress(c.egress) then OnNoProgress(c, w) else c
    case CancelTimeout =>
      if AwaitsCancelledInvite(c.egress) && IsPending(c.egress.state)
      then DropMe(Finish(c, Egress), Egress) else c
    case TimedDrop(s) => if Phase(At(c, s).state) == 4 then DropMe(c, s) else c
    case MaxDuration(w) => if c.ingress.disposed then c else ReleaseCall(c, Ingress, w).0
    case ProbeTick(w) =>
      if c.ingress.disposed || c.ingress.state != Established then c
      else c.(ingress := SendNew(c.ingress, OPTIONS, None, true, w.d))
    case EchoAnswer(body, w) =>
      if c.flow == Echo && c.ingress.state == BeingEstablished && |c.ingress.txs| > 0
      then SendReply(c, Ingress, Some(0), 200, body, w)
      else c
  }

  function Run(c: Call, es: seq<Event>): Call
    decreases |es|
  {
    if es == [] then c else Step(Run(c, es[..|es| - 1]), es[|es| - 1])
  }
}
