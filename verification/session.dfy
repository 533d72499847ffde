/** The bookkeeping of one call leg: its transaction list, its counters and the helpers that
    start, answer and end transactions (sip/session.go, sip/sessionHelper.go,
    sip/transaction.go, sip/sessionResponses.go, sip/sessionRequests.go). */
module Session {
  import opened SessionState
  import opened SipTypes

  // ----- searching the list

  function First(txs: seq<Tx>, p: Tx -> bool): (r: Option<nat>)
    ensures r.Some? ==> r.value < |txs| && p(txs[r.value]) && forall k :: 0 <= k < r.value ==> !p(txs[k])
    ensures r.None? ==> forall k :: 0 <= k < |txs| ==> !p(txs[k])
  {
    if txs == [] then None
    else if p(txs[0]) then Some(0)
    else match First(txs[1..], p)
      case None => None
      case Some(i) => Some(i + 1)
  }

  function Last(txs: seq<Tx>, p: Tx -> bool): (r: Option<nat>)
    ensures r.Some? ==> r.value < |txs| && p(txs[r.value]) && forall k :: r.value < k < |txs| ==> !p(txs[k])
    ensures r.None? ==> forall k :: 0 <= k < |txs| ==> !p(txs[k])
  {
    if txs == [] then None
    else if p(txs[|txs| - 1]) then Some(|txs| - 1)
    else Last(txs[..|txs| - 1], p)
  }

  predicate MatchesRequest(t: Tx, q: Request) {
    && t.dir == INBOUND && t.cseq == q.cseq
    && (|| (t.kind == q.kind && t.branch == q.branch)
        || (q.kind == ACK && t.kind.RequiresACK() && t.isACKed && q.tagsMatch))
  }

  predicate MatchesResponse(t: Tx, r: Response) {
    && t.dir == OUTBOUND && t.branch == r.branch && t.cseq == r.cseq
    && (t.kind == r.cseqMethod || (r.cseqMethod == INVITE && t.kind == ReINVITE))
  }

  predicate IsReOrInvite(t: Tx, cseq: nat, finalized: bool) {
    t.dir == INBOUND && t.cseq == cseq && t.kind.RequiresACK() && t.isFinalized == finalized
  }

  predicate IsUnACKedInvite(t: Tx, d: Direction) {
    t.dir == d && t.kind == INVITE && !t.isACKed
  }

  predicate NeedsACK(t: Tx) {
    t.dir == OUTBOUND && t.kind.RequiresACK() && !t.isACKed
  }

  function FindRequest(l: Leg, q: Request): Option<nat> { First(l.txs, t => MatchesRequest(t, q)) }
  function FindResponse(l: Leg, r: Response): Option<nat> { First(l.txs, t => MatchesResponse(t, r)) }
  function ReOrInvite(l: Leg, cseq: nat, finalized: bool): Option<nat> {
    First(l.txs, t => IsReOrInvite(t, cseq, finalized))
  }
  function PrackFor(l: Leg, rseq: nat): Option<nat> {
    First(l.txs, (t: Tx) => t.dir == INBOUND && t.rseq == rseq && t.kind == PRACK)
  }
  function LastUnACKedInvite(l: Leg, d: Direction): Option<nat> { Last(l.txs, t => IsUnACKedInvite(t, d)) }
  function FirstNeedingACK(l: Leg): Option<nat> { First(l.txs, NeedsACK) }

  /** IsDuplicateMessage, for requests and for responses. */
  predicate IsDuplicateRequest(l: Leg, q: Request) {
    q.kind == INVITE || FindRequest(l, q).Some?
  }

  predicate IsDuplicateResponse(l: Leg, r: Response) {
    && r.code > 199
    && match FindResponse(l, r)
       case None => true
       case Some(i) => l.txs[i].HasCode(r.code)
  }

  // ----- small updates

  const BLANK_TX := Tx(UPDATE, INBOUND, 0, 0, 0, PRACKExpected, None, [], false, false, false, false)

  function NewLeg(d: Direction): Leg {
    Leg(d, NotSet, false, false, false, false, false, false, 0, 0, 0, 0, [], [])
  }

  function Enter(l: Leg, s: State): Leg {
    l.(state := s)
  }

  function Finalize(l: Leg): Leg {
    Enter(l, FinalizeMe(l.state))
  }

  /** Replace transaction i. */
  function Update(l: Leg, i: nat, t: Tx): Leg
    requires i < |l.txs|
  {
    l.(txs := l.txs[i := t])
  }

  function Append(l: Leg, t: Tx): Leg {
    l.(txs := l.txs + [t])
  }

  function Log(l: Leg, e: Sent): Leg {
    l.(sent := l.sent + [e])
  }

  function RespondTo(l: Leg, i: nat, r: Reply): Leg
    requires i < |l.txs|
  {
    Update(l, i, l.txs[i].With(r))
  }

  function SetLink(l: Leg, i: nat, j: nat): Leg
    requires i < |l.txs|
  {
    Update(l, i, l.txs[i].(link := Some(There(j))))
  }

  // ----- incoming messages

  function IncomingTx(q: Request, link: Option<Ref>): Tx {
    BLANK_TX.(kind := q.kind, cseq := q.cseq, branch := q.branch, link := link, hasRequest := true)
  }

  /** An ACK goes to the first answered INVITE or re-INVITE with its CSeq, once, and on the
      INVITE's own branch exactly when the answer was negative. */
  function ReceiveACK(l: Leg, q: Request): (r: (Leg, Option<nat>))
    ensures r.1.Some? ==>
              && r.1.value < |r.0.txs|
              && (var t := r.0.txs[r.1.value]; t.dir == INBOUND && t.kind.RequiresACK() && t.isFinalized && t.isACKed)
  {
    match ReOrInvite(l, q.cseq, true)
    case None => (l, None)
    case Some(i) =>
      var t := l.txs[i];
      if !t.isACKed && t.AnyNegative() == (t.branch == q.branch)
      then (Update(l, i, t.(isACKed := true)), Some(i))
      else (l, None)
  }

  function ReceiveCANCEL(l: Leg, q: Request): (r: (Leg, Option<nat>))
    requires q.kind == CANCEL
    ensures r.1.Some? ==>
              r.1.value < |r.0.txs| && r.0.txs[r.1.value].dir == INBOUND && r.0.txs[r.1.value].kind == CANCEL
  {
    match ReOrInvite(l, q.cseq, false)
    case None => (Append(l, IncomingTx(q, None)), Some(|l.txs|))
    case Some(i) =>
      if l.txs[i].branch == q.branch
      then (Append(l, IncomingTx(q, Some(Here(i)))), Some(|l.txs|))
      else (l, None)
  }

  /** A PRACK joins the transaction that waits for its RSeq; the CSeq in its RAck is not compared. */
  function ReceivePRACK(l: Leg, q: Request): (r: (Leg, Option<nat>))
    requires q.kind == PRACK
    ensures r.1.Some? && r.1.value < |r.0.txs|
    ensures r.0.txs[r.1.value].dir == INBOUND && r.0.txs[r.1.value].kind == PRACK
  {
    match if q.rack.RAck? then PrackFor(l, q.rack.rseq) else None
    case Some(i) =>
      (Update(l, i, l.txs[i].(hasRequest := true, cseq := q.cseq, branch := q.branch)), Some(i))
    case None =>
      var t := IncomingTx(q, None).(prack := if q.rack.RAck? then PRACKUnexpected else PRACKMissingBadRAck);
      (Append(l, t), Some(|l.txs|))
  }

  /** The transaction that took in a request. */
  predicate Joined(t: Tx, q: Request) {
    && t.dir == INBOUND
    && (if q.kind == ACK then t.kind.RequiresACK() && t.isFinalized && t.isACKed else t.kind == q.kind)
    && (q.kind.CarriesOffer() ==> t.link.None?)
  }

  /** addIncomingRequest, without the clean-up that a BYE brings; the transaction the
      request belongs to, or None when the request is discarded. */
  function AddIncomingRequest(l: Leg, q: Request): (r: (Leg, Option<nat>))
    ensures r.1.Some? ==> r.1.value < |r.0.txs| && Joined(r.0.txs[r.1.value], q)
  {
    if q.kind == ACK then ReceiveACK(l, q)
    else if q.kind == CANCEL then ReceiveCANCEL(l, q)
    else if q.kind == PRACK then ReceivePRACK(l, q)
    else (Append(l, IncomingTx(q, None)), Some(|l.txs|))
  }

  /** A request changes the list and nothing else. */
  lemma ReceivedACK(l: Leg, q: Request)
    ensures ReceiveACK(l, q).0 == l.(txs := ReceiveACK(l, q).0.txs)
  {
  }

  lemma ReceivedCANCEL(l: Leg, q: Request)
    requires q.kind == CANCEL
    ensures ReceiveCANCEL(l, q).0 == l.(txs := ReceiveCANCEL(l, q).0.txs)
  {
  }

  lemma ReceivedPRACK(l: Leg, q: Request)
    requires q.kind == PRACK
    ensures ReceivePRACK(l, q).0 == l.(txs := ReceivePRACK(l, q).0.txs)
  {
  }

  lemma ReceivedRequest(l: Leg, q: Request)
    ensures AddIncomingRequest(l, q).0 == l.(txs := AddIncomingRequest(l, q).0.txs)
  {
    hide ReceiveACK, ReceiveCANCEL, ReceivePRACK;
    ReceivedACK(l, q);
    if q.kind == CANCEL {
      ReceivedCANCEL(l, q);
    } else if q.kind == PRACK {
      ReceivedPRACK(l, q);
    }
  }

  function AddIncomingResponse(l: Leg, r: Response): (p: (Leg, Option<nat>))
    ensures p.1.Some? ==> p.1.value < |p.0.txs|
  {
    match FindResponse(l, r)
    case None => (l, None)
    case Some(i) => (RespondTo(l, i, Reply(r.code, r.body)), Some(i))
  }

  // ----- responses

  /** SendCreatedResponseDetailed leaves out an 18x that repeats what the routing record forbids. */
  datatype Repeats = Repeats(noSimilar: bool, noDifferent: bool)

  predicate Suppressed(t: Tx, r: Reply, reliable: bool, rep: Repeats) {
    && Is18x(r.code) && !reliable && !r.body.WithSDP?
    && (|| (rep.noSimilar && t.HasCode(r.code))
        || (rep.noDifferent && exists k :: 0 <= k < |t.responses| &&
                                  Is18x(t.responses[k].code) && t.responses[k].code != r.code))
  }

  function NextRSeq(l: Leg, d: Draws): nat {
    if l.rseq == 0 then d.rseq else (l.rseq + 1) % WRAP
  }

  /** GenerateRSeqCreatePRACKSTSYNC: a new RSeq and the PRACK transaction that waits for it. */
  function ExpectPRACK(l: Leg, j: nat, d: Draws): Leg {
    var n := NextRSeq(l, d);
    Append(l.(rseq := n), BLANK_TX.(kind := PRACK, rseq := n, link := Some(There(j))))
  }

  /** `prack` is the PRACK transaction of the linked leg when the 18x is to be reliable. */
  function SendResponse(l: Leg, i: nat, r: Reply, prack: Option<nat>, rep: Repeats, d: Draws): Leg
    requires i < |l.txs|
  {
    if Suppressed(l.txs[i], r, prack.Some?, rep) then l
    else
      var l1 := RespondTo(l, i, r);
      if Is18x(r.code) && l.prackSupported && l.dir == INBOUND && prack.Some?
      then ExpectPRACK(l1, prack.value, d)
      else l1
  }

  // ----- requests

  function NextCSeq(l: Leg, d: Draws): nat {
    if l.dir == OUTBOUND
    then if l.fwdCSeq == 0 then d.fwd else (l.fwdCSeq + 1) % WRAP
    else if l.bwdCSeq == 0 then d.bwd else (l.bwdCSeq + 1) % WRAP
  }

  /** Take the next CSeq and log a request that carries it. */
  function CountRequest(l: Leg, m: Method, d: Draws): Leg {
    var n := NextCSeq(l, d);
    Log(if l.dir == OUTBOUND then l.(fwdCSeq := n) else l.(bwdCSeq := n), Sending(m, n))
  }

  function TakeBranch(l: Leg): Leg { l.(branches := l.branches + 1) }

  function OutgoingTx(l: Leg, m: Method, link: Option<nat>, probing: bool, d: Draws): Tx {
    BLANK_TX.(kind := m, dir := OUTBOUND, cseq := NextCSeq(l, d), branch := l.branches + 1,
             link := if link.Some? then Some(There(link.value)) else None, hasRequest := true, isProbing := probing)
  }

  /** A new outgoing request; `link` is the transaction of the linked leg it forwards. */
  function SendNew(l: Leg, m: Method, link: Option<nat>, probing: bool, d: Draws): Leg {
    Append(TakeBranch(CountRequest(l, m, d)), OutgoingTx(l, m, link, probing, d))
  }

  /** What a leg is after it sent a new request. */
  lemma SentNew(l: Leg, m: Method, link: Option<nat>, probing: bool, d: Draws)
    ensures SendNew(l, m, link, probing, d) ==
            l.(txs := l.txs + [OutgoingTx(l, m, link, probing, d)], sent := l.sent + [Sending(m, NextCSeq(l, d))],
               branches := l.branches + 1,
               fwdCSeq := if l.dir == OUTBOUND then NextCSeq(l, d) else l.fwdCSeq,
               bwdCSeq := if l.dir == OUTBOUND then l.bwdCSeq else NextCSeq(l, d))
  {
  }

  /** The PRACK forwarded to this leg reuses the transaction made for its 18x. */
  function SendPrack(l: Leg, i: nat, d: Draws): Leg
    requires i < |l.txs|
  {
    if l.dir == OUTBOUND then
      Update(CountRequest(l, PRACK, d), i, l.txs[i].(cseq := NextCSeq(l, d), hasRequest := true))
    else SendNew(l, PRACK, None, false, d)
  }

  lemma SentPrack(l: Leg, i: nat, d: Draws)
    requires i < |l.txs|
    ensures SendPrack(l, i, d) ==
            if l.dir == INBOUND then SendNew(l, PRACK, None, false, d)
            else l.(txs := l.txs[i := l.txs[i].(cseq := NextCSeq(l, d), hasRequest := true)],
                    sent := l.sent + [Sending(PRACK, NextCSeq(l, d))], fwdCSeq := NextCSeq(l, d))
  {
  }

  /** GenerateOutgoingPRACKST: the PRACK owed for a reliable 18x received here. */
  function OwePRACK(l: Leg, rseq: nat): Leg {
    Append(TakeBranch(l),
           BLANK_TX.(kind := PRACK, dir := OUTBOUND, rseq := rseq, branch := l.branches + 1))
  }

  /** An ACK for the given transaction, or for the first one that needs it. ACKs are not listed. */
  function SendAck(l: Leg, lt: Option<nat>): Leg
    requires lt.Some? ==> lt.value < |l.txs|
  {
    match if lt.Some? then lt else FirstNeedingACK(l)
    case None => l
    case Some(i) =>
      Log(Update(l, i, l.txs[i].(isACKed := true)), Sent(ACK, l.txs[i].cseq, l.txs[i].kind))
  }

  /** A CANCEL shares the branch and CSeq of the INVITE it cancels. */
  function SendCancel(l: Leg): Leg {
    match LastUnACKedInvite(l, OUTBOUND)
    case None => l
    case Some(i) =>
      var t := l.txs[i];
      var cancel := BLANK_TX.(kind := CANCEL, dir := OUTBOUND, cseq := t.cseq, branch := t.branch,
                             link := Some(Here(i)), hasRequest := true);
      Log(Append(Update(l, i, t.(link := Some(Here(|l.txs|)))), cancel), Sent(CANCEL, t.cseq, t.kind))
  }

  /** Before a BYE every pending incoming request is answered 503. The first PRACK placeholder
      among them has no request to answer: the program stops there and no BYE goes out. */
  function Placeholder(l: Leg): Option<nat> {
    First(l.txs, (t: Tx) => t.Pending() && !t.hasRequest)
  }

  predicate ByeFails(l: Leg) { Placeholder(l).Some? }

  /** The list once the first n transactions were gone through. */
  function RejectUpTo(txs: seq<Tx>, n: nat): (r: seq<Tx>)
    ensures |r| == |txs|
    ensures forall k :: 0 <= k < |r| ==>
              r[k] == if k < n && txs[k].Pending() then txs[k].With(Reply(503, NoBody)) else txs[k]
  {
    seq(|txs|, k requires 0 <= k < |txs| =>
                 if k < n && txs[k].Pending() then txs[k].With(Reply(503, NoBody)) else txs[k])
  }

  function RejectPending(l: Leg): Leg {
    l.(txs := RejectUpTo(l.txs, match Placeholder(l) case None => |l.txs| case Some(i) => i + 1))
  }

  function SendBye(l: Leg, link: Option<nat>, d: Draws): Leg {
    if ByeFails(l) then RejectPending(l) else SendNew(RejectPending(l), BYE, link, false, d)
  }

  // ----- ending a leg

  function EnterAndBye(l: Leg, s: State, link: Option<nat>, d: Draws): Leg {
    SendBye(Enter(l, s), link, d)
  }

  function Drop(l: Leg): Leg {
    l.(disposed := true)
  }

  function ReleaseMe(l: Leg, link: Option<nat>, d: Draws): Leg {
    if l.state == Established then EnterAndBye(l, BeingCleared, link, d) else l
  }

  function CancelMe(l: Leg): Leg {
    if l.dir == OUTBOUND && l.state == BeingEstablished then SendCancel(Enter(l, BeingCancelled)) else l
  }

  /** Answer the given transaction, or the last INVITE still without an ACK. */
  function Answer(l: Leg, trans: Option<nat>, r: Reply, prack: Option<nat>, rep: Repeats, d: Draws): Leg
    requires trans.Some? ==> trans.value < |l.txs|
  {
    match if trans.Some? then trans else LastUnACKedInvite(l, INBOUND)
    case None => l
    case Some(i) => SendResponse(l, i, r, prack, rep, d)
  }

  function RejectMe(l: Leg, trans: Option<nat>, code: Status, rep: Repeats, d: Draws): Leg
    requires trans.Some? ==> trans.value < |l.txs|
  {
    if l.dir == INBOUND && l.state == BeingEstablished
    then Answer(Enter(l, BeingFailed), trans, Reply(code, NoBody), None, rep, d)
    else l
  }

  /** Ack3xxTo6xx and Ack3xxTo6xxFinalize; the timed drop that follows is a later event. */
  function AckFailure(l: Leg, s: State): Leg {
    if l.dir == OUTBOUND then SendAck(Enter(l, s), None) else l
  }
}
