/** The moves of a leg. Whatever a handler does to a leg is a sequence of these, so what every move
    keeps holds along every run. */
module Moves {
  import opened SipTypes
  import opened Session

  /** Touch changes the state and the flags, Edit transactions that are there already, Receive lists an
      incoming one. The others send something. A stray ACK is one for a request that takes none. */
  datatype Move =
    | Touch(to: Leg) | Edit(txs: seq<Tx>) | Receive(t: Tx)
    | Expect(j: nat, d: Draws)
    | Send(m: Method, link: Option<nat>, probing: bool, d: Draws)
    | Prack(i: nat, d: Draws) | Owe(n: nat) | Acknowledge(i: nat) | Stray(i: nat) | Cancel

  /** Only state and flags differ. */
  predicate SameBooks(a: Leg, b: Leg) {
    && b.dir == a.dir && b.txs == a.txs && b.sent == a.sent && b.branches == a.branches
    && b.fwdCSeq == a.fwdCSeq && b.bwdCSeq == a.bwdCSeq && b.rseq == a.rseq
  }

  /** What a transaction keeps from its creation. */
  predicate Edited(a: Tx, b: Tx) {
    && b.kind == a.kind && b.dir == a.dir && b.rseq == a.rseq && b.prack == a.prack
    && (a.dir == OUTBOUND ==> b.branch == a.branch)
    && (a.dir == OUTBOUND && a.kind != PRACK ==> b.cseq == a.cseq)
    && (a.hasRequest ==> b.hasRequest)
  }

  predicate AllEdited(a: seq<Tx>, b: seq<Tx>) {
    |a| == |b| && forall i :: 0 <= i < |a| ==> Edited(a[i], b[i])
  }

  predicate TakesACK(l: Leg, i: nat) { i < |l.txs| && l.txs[i].dir == OUTBOUND && l.txs[i].kind.RequiresACK() }

  /** The first transaction is the INVITE sent, the only one, and it was not cancelled. */
  predicate CanCancel(l: Leg) {
    && LastUnACKedInvite(l, OUTBOUND) == Some(0)
    && forall i :: 0 < i < |l.txs| && l.txs[i].dir == OUTBOUND ==> l.txs[i].kind != CANCEL && l.txs[i].kind != INVITE
  }

  /** Listed on arrival: not the placeholder of a PRACK, unless it came unexpected. */
  predicate Arrives(t: Tx) {
    t.dir == INBOUND && (t.kind == PRACK ==> t.Unexpected() && t.rseq == 0 && t.hasRequest)
  }

  predicate Allowed(l: Leg, m: Move) {
    match m
    case Touch(to) => SameBooks(l, to)
    case Edit(txs) => AllEdited(l.txs, txs)
    case Receive(t) => Arrives(t)
    case Expect(_, _) => true
    case Send(k, _, _, _) => k != ACK && k != CANCEL
    case Prack(i, _) => i < |l.txs| && l.txs[i].kind == PRACK
    case Owe(_) => true
    case Acknowledge(i) => TakesACK(l, i)
    case Stray(i) => i < |l.txs|
    case Cancel => CanCancel(l)
  }

  function Moved(l: Leg, m: Move): Leg
    requires Allowed(l, m)
  {
    match m
    case Touch(to) => to
    case Edit(txs) => l.(txs := txs)
    case Receive(t) => Append(l, t)
    case Expect(j, d) => ExpectPRACK(l, j, d)
    case Send(k, link, probing, d) => SendNew(l, k, link, probing, d)
    case Prack(i, d) => SendPrack(l, i, d)
    case Owe(n) => OwePRACK(l, n)
    case Acknowledge(i) => SendAck(l, Some(i))
    case Stray(i) => SendAck(l, Some(i))
    case Cancel => SendCancel(l)
  }

  /** Leg b is leg a after the moves; strictly: none of them a stray ACK. */
  ghost predicate MovesTo(a: Leg, ms: seq<Move>, b: Leg, strict: bool)
    decreases |ms|
  {
    if ms == [] then a == b
    else Allowed(a, ms[0]) && !(strict && ms[0].Stray?) && MovesTo(Moved(a, ms[0]), ms[1..], b, strict)
  }

  ghost predicate Reaches(a: Leg, b: Leg, strict: bool) {
    a == b || exists ms :: MovesTo(a, ms, b, strict)
  }

  lemma {:induction false} MovesJoin(a: Leg, ms: seq<Move>, b: Leg, ns: seq<Move>, c: Leg, strict: bool)
    requires MovesTo(a, ms, b, strict) && MovesTo(b, ns, c, strict)
    ensures MovesTo(a, ms + ns, c, strict)
    decreases |ms|
  {
    if ms == [] {
      assert ms + ns == ns;
    } else {
      MovesJoin(Moved(a, ms[0]), ms[1..], b, ns, c, strict);
      assert (ms + ns)[1..] == ms[1..] + ns;
    }
  }

  lemma ReachesTrans(a: Leg, b: Leg, c: Leg, strict: bool)
    requires Reaches(a, b, strict) && Reaches(b, c, strict)
    ensures Reaches(a, c, strict)
  {
    if a != b && b != c {
      var ms :| MovesTo(a, ms, b, strict);
      var ns :| MovesTo(b, ns, c, strict);
      MovesJoin(a, ms, b, ns, c, strict);
    }
  }

  lemma OneMove(l: Leg, m: Move)
    requires Allowed(l, m)
    ensures Reaches(l, Moved(l, m), false) && (!m.Stray? ==> Reaches(l, Moved(l, m), true))
  {
    assert [m][1..] == [];
    assert MovesTo(l, [m], Moved(l, m), false);
    if !m.Stray? {
      assert MovesTo(l, [m], Moved(l, m), true);
    }
  }

  lemma TouchReaches(l: Leg, to: Leg)
    requires SameBooks(l, to)
    ensures Reaches(l, to, true) && Reaches(l, to, false)
  {
    OneMove(l, Touch(to));
  }
}
