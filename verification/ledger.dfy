/** The numbers a leg hands out: the CSeq of each request it sends and the RSeq of each reliable
    provisional response (sections 9.1 and 12.2.1.1 of RFC 3261, section 3 of RFC 3262). */
module Ledger {
  import opened SipTypes

  // ----- CSeq

  /** ACK and CANCEL take the number of another request; every other request takes the next one. */
  predicate Counted(m: Method) { m != ACK && m != CANCEL }

  /** The number handed out last, 0 when there is none. */
  function LastCSeq(sent: seq<Sent>): nat
    decreases |sent|
  {
    if sent == [] then 0
    else
      var e := sent[|sent| - 1];
      if Counted(e.kind) then e.cseq else LastCSeq(sent[..|sent| - 1])
  }

  /** n may be handed out after prev; 0 says that no number was drawn yet. */
  predicate NextNumber(prev: nat, n: nat, lo: nat, hi: nat) {
    if prev == 0 then lo <= n <= hi else n == (prev + 1) % WRAP
  }

  /** Each counted request has the number after its predecessor's, the first one a drawn number; and a
      CANCEL has the number of an INVITE sent before it. */
  predicate Numbered(sent: seq<Sent>, lo: nat, hi: nat)
    decreases |sent|
  {
    sent == [] ||
    var (before, e) := (sent[..|sent| - 1], sent[|sent| - 1]);
    && Numbered(before, lo, hi)
    && (Counted(e.kind) ==> NextNumber(LastCSeq(before), e.cseq, lo, hi))
    && (e.kind == CANCEL ==> e.of == INVITE && Sending(INVITE, e.cseq) in before)
  }

  /** Every ACK has the number of a request sent before it, the one it acknowledges. */
  predicate ProperACKs(sent: seq<Sent>)
    decreases |sent|
  {
    sent == [] ||
    var (before, e) := (sent[..|sent| - 1], sent[|sent| - 1]);
    && ProperACKs(before)
    && (e.kind == ACK ==> Sending(e.of, e.cseq) in before)
  }

  /** Every ACK acknowledges a request that takes one. */
  predicate OnlyInvitesACKed(sent: seq<Sent>) {
    forall k :: 0 <= k < |sent| && sent[k].kind == ACK ==> sent[k].of.RequiresACK()
  }

  /** A longer log is as good in both respects. */
  predicate KeepsACKs(a: seq<Sent>, b: seq<Sent>) {
    (ProperACKs(a) ==> ProperACKs(b)) && (OnlyInvitesACKed(a) ==> OnlyInvitesACKed(b))
  }

  /** What an ACK is like that may be logged next. */
  predicate MayFollow(sent: seq<Sent>, e: Sent) {
    e.kind == ACK ==> e.of.RequiresACK() && Sending(e.of, e.cseq) in sent
  }

  function LowestDraw(d: Direction): nat { if d == OUTBOUND then 0 else 600 }
  function HighestDraw(d: Direction): nat { if d == OUTBOUND then 500 else 1000 }
  function Counter(l: Leg): nat { if l.dir == OUTBOUND then l.fwdCSeq else l.bwdCSeq }

  /** A CANCEL is logged as the INVITE's; a PRACK is listed when it is owed and sent when it came. */
  predicate SentAtOnce(m: Method) { m != CANCEL && m != PRACK }

  /** The leg's counter and its log of requests agree. */
  predicate CSeqs(l: Leg) {
    && Counter(l) == LastCSeq(l.sent) && Numbered(l.sent, LowestDraw(l.dir), HighestDraw(l.dir))
    && forall i :: 0 <= i < |l.txs| && l.txs[i].dir == OUTBOUND && SentAtOnce(l.txs[i].kind) ==>
         Sending(l.txs[i].kind, l.txs[i].cseq) in l.sent
  }

  lemma LogNext(sent: seq<Sent>, e: Sent, lo: nat, hi: nat)
    requires Numbered(sent, lo, hi)
    requires Counted(e.kind) ==> NextNumber(LastCSeq(sent), e.cseq, lo, hi)
    requires e.kind == CANCEL ==> e.of == INVITE && Sending(INVITE, e.cseq) in sent
    ensures Numbered(sent + [e], lo, hi)
    ensures LastCSeq(sent + [e]) == if Counted(e.kind) then e.cseq else LastCSeq(sent)
    ensures MayFollow(sent, e) ==> KeepsACKs(sent, sent + [e])
  {
    assert (sent + [e])[..|sent|] == sent;
  }

  // ----- RSeq

  function LastRSeq(txs: seq<Tx>): nat
    decreases |txs|
  {
    if txs == [] then 0
    else
      var t := txs[|txs| - 1];
      if t.Issued() then t.rseq else LastRSeq(txs[..|txs| - 1])
  }

  /** RSeqs are handed out one after the other; a PRACK that came unexpected holds none, and is
      there only because it came. */
  predicate Reliable(txs: seq<Tx>)
    decreases |txs|
  {
    txs == [] ||
    var (before, t) := (txs[..|txs| - 1], txs[|txs| - 1]);
    && Reliable(before)
    && (t.Issued() ==> NextNumber(LastRSeq(before), t.rseq, 1, 999))
    && (t.Unexpected() ==> t.rseq == 0 && t.hasRequest)
  }

  predicate RSeqs(l: Leg) { l.rseq == LastRSeq(l.txs) && Reliable(l.txs) }

  /** All of this looks only at what a transaction keeps from its creation. */
  lemma {:induction false} ReliableKept(a: seq<Tx>, b: seq<Tx>)
    requires |a| == |b|
    requires forall i :: 0 <= i < |a| ==>
               && b[i].kind == a[i].kind && b[i].dir == a[i].dir && b[i].rseq == a[i].rseq && b[i].prack == a[i].prack
               && (a[i].hasRequest ==> b[i].hasRequest)
    ensures LastRSeq(b) == LastRSeq(a) && (Reliable(a) ==> Reliable(b))
    decreases |a|
  {
    if a != [] {
      ReliableKept(a[..|a| - 1], b[..|b| - 1]);
    }
  }

  lemma ListNext(txs: seq<Tx>, t: Tx)
    requires Reliable(txs)
    requires if t.Issued() then NextNumber(LastRSeq(txs), t.rseq, 1, 999)
             else t.Unexpected() ==> t.rseq == 0 && t.hasRequest
    ensures Reliable(txs + [t]) && LastRSeq(txs + [t]) == if t.Issued() then t.rseq else LastRSeq(txs)
  {
    assert (txs + [t])[..|txs|] == txs;
  }
}
