/** Methods, messages, transactions and the state of one call leg
    (global/enums.go, sip/transaction.go, sip/session.go). */
module SipTypes {
  import opened SessionState

  datatype Option<+T> = None | Some(value: T)

  datatype Method =
    | INVITE | ReINVITE | REFER | ACK | CANCEL | BYE | OPTIONS | NOTIFY | UPDATE | PRACK | INFO
    | REGISTER | SUBSCRIBE | MESSAGE | PUBLISH | NEGOTIATE
  {
    predicate RequiresACK() { this in {INVITE, ReINVITE} }

    /** The two methods that carry an offer to the other leg of an established call. */
    predicate CarriesOffer() { this in {ReINVITE, UPDATE} }
  }

  datatype Direction = INBOUND | OUTBOUND

  datatype PrackStatus = PRACKExpected | PRACKUnexpected | PRACKMissingBadRAck

  /** A message body as the call logic sees it; a session description is an opaque value. */
  datatype Body = NoBody | WithSDP(sdp: int) | NonSDP | UnknownParts

  /** The parser lets no other status code through. */
  type Status = c: int | 100 <= c <= 699 witness 100

  predicate Is18x(c: int) { 180 <= c <= 189 }
  predicate IsPositive(c: int) { 200 <= c <= 299 }
  predicate IsNegative(c: int) { 300 <= c <= 699 }

  datatype Reply = Reply(code: Status, body: Body)

  /** A transaction named by its position, in this leg's list or in the linked leg's. */
  datatype Ref = Here(i: nat) | There(j: nat)

  /** One entry of a session's transaction list. `responses` also keeps the bodies. */
  datatype Tx = Tx(
    kind: Method, dir: Direction, cseq: nat, branch: nat, rseq: nat, prack: PrackStatus,
    link: Option<Ref>, responses: seq<Reply>, isFinalized: bool, isACKed: bool,
    hasRequest: bool, isProbing: bool)
  {
    predicate AnyPositive() { exists k :: 0 <= k < |responses| && IsPositive(responses[k].code) }
    predicate AnyNegative() { exists k :: 0 <= k < |responses| && IsNegative(responses[k].code) }
    predicate HasCode(c: int) { exists k :: 0 <= k < |responses| && responses[k].code == c }

    function With(r: Reply): Tx {
      this.(responses := responses + [r], isFinalized := isFinalized || r.code >= 200)
    }

    predicate Pending() { dir == INBOUND && !isFinalized }

    /** A reliable 1xx was sent and its PRACK has not come. */
    predicate UnPRACKed() { dir == INBOUND && kind == PRACK && !hasRequest }

    /** The transaction that waits, or waited, for the PRACK of a reliable 1xx. */
    predicate Issued() { dir == INBOUND && kind == PRACK && prack == PRACKExpected }

    /** A PRACK that nothing waited for. */
    predicate Unexpected() { dir == INBOUND && kind == PRACK && prack != PRACKExpected }
  }

  const MIN_MAX_FORWARDS := 1

  /** An INVITE with no more left is refused. */
  predicate TooFewHops(maxForwards: int) { maxForwards <= MIN_MAX_FORWARDS }

  /** A request this router put on the wire, and the method of the transaction it belongs to: that of an
      ACK or a CANCEL is the one it acknowledges or cancels. */
  datatype Sent = Sent(kind: Method, cseq: nat, of: Method)

  function Sending(m: Method, cseq: nat): Sent { Sent(m, cseq, m) }

  const WRAP := 0x1_0000_0000

  datatype Leg = Leg(
    dir: Direction, state: State, linked: bool, disposed: bool,
    dialogueChanging: bool, received18xSDP: bool, transformEarlyToFinal: bool, prackSupported: bool,
    rseq: nat, fwdCSeq: nat, bwdCSeq: nat, branches: nat, txs: seq<Tx>, sent: seq<Sent>)

  datatype RAck = BadRAck | RAck(rseq: nat, cseq: nat)

  /** An incoming request. `tagsMatch` says whether its tags are those of the session. */
  datatype Request = Request(
    kind: Method, cseq: nat, branch: nat, outOfDialogue: bool, tagsMatch: bool, body: Body, rack: RAck)

  /** An incoming response. */
  datatype Response = Response(
    code: Status, cseq: nat, branch: nat, cseqMethod: Method, body: Body, require100rel: bool, rseq: nat)

  /** The first draws of the three random counters. */
  type FwdDraw = n: nat | n <= 500
  type BwdDraw = n: nat | 600 <= n <= 1000 witness 600
  type RSeqDraw = n: nat | 1 <= n <= 999 witness 1
  datatype Draws = Draws(fwd: FwdDraw, bwd: BwdDraw, rseq: RSeqDraw)
}
