/** The books of a leg, kept by every move: which branch belongs to which request, and the numbers that
    were handed out. */
module Books {
  import opened SipTypes
  import opened Session
  import opened Ledger
  import opened Moves

  /** Of two transactions, t the older. */
  predicate Distinct(t: Tx, u: Tx) {
    t.dir == OUTBOUND && u.dir == OUTBOUND ==>
      && !(t.kind == CANCEL && u.kind == CANCEL)
      && (t.branch == u.branch ==> t.kind == INVITE && u.kind == CANCEL && t.cseq == u.cseq)
  }

  /** Two outgoing transactions share a branch only as an INVITE and its CANCEL do. */
  predicate Branches(l: Leg) {
    && (forall i :: 0 <= i < |l.txs| && l.txs[i].dir == OUTBOUND ==> 0 < l.txs[i].branch <= l.branches)
    && (forall i, j :: 0 <= i < j < |l.txs| ==> Distinct(l.txs[i], l.txs[j]))
  }

  // ----- branches

  lemma EditKeepsBranches(l: Leg, txs: seq<Tx>)
    requires Branches(l) && AllEdited(l.txs, txs)
    ensures Branches(l.(txs := txs))
  {
    forall i, j | 0 <= i < j < |txs|
      ensures Distinct(txs[i], txs[j])
    {
      assert Distinct(l.txs[i], l.txs[j]);
      assert Edited(l.txs[i], txs[i]) && Edited(l.txs[j], txs[j]);
    }
  }

  /** A transaction joins the list: an incoming one, or one with a branch of its own. */
  lemma ListKeepsBranches(l: Leg, t: Tx, b: Leg)
    requires Branches(l) && b.txs == l.txs + [t] && l.branches <= b.branches
    requires t.dir == OUTBOUND ==> l.branches < t.branch <= b.branches && t.kind != CANCEL
    ensures Branches(b)
  {
    forall i, j | 0 <= i < j < |b.txs|
      ensures Distinct(b.txs[i], b.txs[j])
    {
      assert j < |l.txs| ==> Distinct(l.txs[i], l.txs[j]);
    }
  }

  /** The CANCEL joins the list with the branch of the INVITE, which is the first transaction. */
  lemma CancelKeepsBranches(l: Leg, cancel: Tx)
    requires Branches(l) && CanCancel(l) && cancel.dir == OUTBOUND && cancel.kind == CANCEL
    requires cancel.branch == l.txs[0].branch && cancel.cseq == l.txs[0].cseq
    ensures Branches(Append(l, cancel))
  {
    var b := Append(l, cancel);
    forall i, j | 0 <= i < j < |b.txs|
      ensures Distinct(b.txs[i], b.txs[j])
    {
      if j < |l.txs| {
        assert Distinct(l.txs[i], l.txs[j]);
      } else {
        assert i > 0 ==> Distinct(l.txs[0], l.txs[i]);
      }
    }
  }

  lemma SendKeepsBranches(l: Leg, m: Method, link: Option<nat>, probing: bool, d: Draws)
    requires Branches(l) && m != CANCEL
    ensures Branches(SendNew(l, m, link, probing, d))
  {
    SentNew(l, m, link, probing, d);
    ListKeepsBranches(l, OutgoingTx(l, m, link, probing, d), SendNew(l, m, link, probing, d));
  }

  /** A PRACK is no INVITE, so its CSeq does not matter. */
  lemma PrackKeepsBranches(l: Leg, i: nat, d: Draws)
    requires Branches(l) && i < |l.txs| && l.txs[i].kind == PRACK
    ensures Branches(SendPrack(l, i, d))
  {
    SentPrack(l, i, d);
    if l.dir == OUTBOUND {
      ProofOfPrack(l.txs, i, l.txs[i].(cseq := NextCSeq(l, d), hasRequest := true));
    } else {
      SendKeepsBranches(l, PRACK, None, false, d);
    }
  }

  lemma ProofOfPrack(txs: seq<Tx>, i: nat, t: Tx)
    requires i < |txs| && txs[i].kind == t.kind == PRACK && t.dir == txs[i].dir && t.branch == txs[i].branch
    requires forall j, k :: 0 <= j < k < |txs| ==> Distinct(txs[j], txs[k])
    ensures var u := txs[i := t]; forall j, k :: 0 <= j < k < |u| ==> Distinct(u[j], u[k])
  {
    var u := txs[i := t];
    forall j, k | 0 <= j < k < |u|
      ensures Distinct(u[j], u[k])
    {
      assert Distinct(txs[j], txs[k]);
    }
  }

  lemma CancelKeepsAllBranches(l: Leg)
    requires Branches(l) && CanCancel(l)
    ensures Branches(SendCancel(l))
  {
    var b := SendCancel(l);
    var l1 := l.(txs := l.txs[0 := b.txs[0]]);
    EditKeepsBranches(l, l1.txs);
    CancelKeepsBranches(l1, b.txs[|l.txs|]);
  }

  lemma MoveKeepsBranches(l: Leg, m: Move)
    requires Branches(l) && Allowed(l, m)
    ensures Branches(Moved(l, m))
  {
    var b := Moved(l, m);
    match m
    case Touch(_) =>
    case Edit(txs) => EditKeepsBranches(l, txs);
    case Receive(t) => ListKeepsBranches(l, t, b);
    case Expect(_, _) => ListKeepsBranches(l, b.txs[|l.txs|], b);
    case Send(k, link, probing, d) => SendKeepsBranches(l, k, link, probing, d);
    case Prack(i, d) => PrackKeepsBranches(l, i, d);
    case Owe(_) => ListKeepsBranches(l, b.txs[|l.txs|], b);
    case Acknowledge(i) => EditKeepsBranches(l, b.txs);
    case Stray(i) => EditKeepsBranches(l, b.txs);
    case Cancel => CancelKeepsAllBranches(l);
  }

  // ----- numbers

  lemma InLonger(s: seq<Sent>, t: seq<Sent>, e: Sent)
    requires s <= t && e in s
    ensures e in t
  {
    var k :| 0 <= k < |s| && s[k] == e;
    assert t[k] == e;
  }

  /** The log grows by one entry, the list by edits and perhaps one transaction. */
  lemma LogKeepsCSeqs(l: Leg, e: Sent, b: Leg)
    requires CSeqs(l) && b.dir == l.dir && b.sent == l.sent + [e]
    requires Counter(b) == if Counted(e.kind) then e.cseq else Counter(l)
    requires Counted(e.kind) ==> NextNumber(Counter(l), e.cseq, LowestDraw(l.dir), HighestDraw(l.dir))
    requires e.kind == CANCEL ==> e.of == INVITE && Sending(INVITE, e.cseq) in l.sent
    requires |l.txs| <= |b.txs| <= |l.txs| + 1 && AllEdited(l.txs, b.txs[..|l.txs|])
    requires |b.txs| > |l.txs| && b.txs[|l.txs|].dir == OUTBOUND && SentAtOnce(b.txs[|l.txs|].kind) ==>
               Sending(b.txs[|l.txs|].kind, b.txs[|l.txs|].cseq) == e
    ensures CSeqs(b)
    ensures MayFollow(l.sent, e) ==> KeepsACKs(l.sent, b.sent)
  {
    LogNext(l.sent, e, LowestDraw(l.dir), HighestDraw(l.dir));
    assert b.sent[|l.sent|] == e;
    forall i | 0 <= i < |b.txs| && b.txs[i].dir == OUTBOUND && SentAtOnce(b.txs[i].kind)
      ensures Sending(b.txs[i].kind, b.txs[i].cseq) in b.sent
    {
      if i < |l.txs| {
        assert Edited(l.txs[i], b.txs[..|l.txs|][i]);
        InLonger(l.sent, b.sent, Sending(l.txs[i].kind, l.txs[i].cseq));
      }
    }
  }

  /** The log stays, the list changes by edits and perhaps one transaction that is no INVITE sent. */
  lemma ListKeepsCSeqs(l: Leg, b: Leg)
    requires CSeqs(l) && b.dir == l.dir && b.sent == l.sent && Counter(b) == Counter(l)
    requires |l.txs| <= |b.txs| <= |l.txs| + 1 && AllEdited(l.txs, b.txs[..|l.txs|])
    requires |b.txs| > |l.txs| ==> b.txs[|l.txs|].dir == INBOUND || !SentAtOnce(b.txs[|l.txs|].kind)
    ensures CSeqs(b)
  {
    forall i | 0 <= i < |b.txs| && b.txs[i].dir == OUTBOUND && SentAtOnce(b.txs[i].kind)
      ensures Sending(b.txs[i].kind, b.txs[i].cseq) in b.sent
    {
      assert Edited(l.txs[i], b.txs[..|l.txs|][i]);
    }
  }

  lemma SendKeepsCSeqs(l: Leg, m: Method, link: Option<nat>, probing: bool, d: Draws)
    requires CSeqs(l) && Counted(m)
    ensures var b := SendNew(l, m, link, probing, d); CSeqs(b) && KeepsACKs(l.sent, b.sent)
  {
    var b := SendNew(l, m, link, probing, d);
    SentNew(l, m, link, probing, d);
    assert b.txs[..|l.txs|] == l.txs;
    LogKeepsCSeqs(l, Sending(m, NextCSeq(l, d)), b);
  }

  lemma PrackKeepsCSeqs(l: Leg, i: nat, d: Draws)
    requires CSeqs(l) && i < |l.txs| && l.txs[i].kind == PRACK
    ensures var b := SendPrack(l, i, d); CSeqs(b) && KeepsACKs(l.sent, b.sent)
  {
    if l.dir == OUTBOUND {
      var l1 := CountRequest(l, PRACK, d);
      assert l1.txs[..|l.txs|] == l.txs;
      LogKeepsCSeqs(l, Sending(PRACK, NextCSeq(l, d)), l1);
      var b := SendPrack(l, i, d);
      assert forall k :: 0 <= k < |l.txs| && SentAtOnce(l.txs[k].kind) ==> b.txs[k] == l1.txs[k];
    } else {
      SendKeepsCSeqs(l, PRACK, None, false, d);
    }
  }

  lemma AckKeepsCSeqs(l: Leg, i: nat)
    requires CSeqs(l) && i < |l.txs|
    ensures var b := SendAck(l, Some(i)); CSeqs(b) && (TakesACK(l, i) ==> KeepsACKs(l.sent, b.sent))
  {
    var b := SendAck(l, Some(i));
    assert b.txs[..|l.txs|] == b.txs;
    LogKeepsCSeqs(l, Sent(ACK, l.txs[i].cseq, l.txs[i].kind), b);
  }

  lemma CancelKeepsCSeqs(l: Leg)
    requires CSeqs(l) && CanCancel(l)
    ensures CSeqs(SendCancel(l)) && KeepsACKs(l.sent, SendCancel(l).sent)
  {
    var b := SendCancel(l);
    assert b.txs[..|l.txs|] == l.txs[0 := b.txs[0]];
    assert Sending(INVITE, l.txs[0].cseq) in l.sent;
    LogKeepsCSeqs(l, Sent(CANCEL, l.txs[0].cseq, INVITE), b);
  }

  lemma MoveKeepsCSeqs(l: Leg, m: Move)
    requires CSeqs(l) && Allowed(l, m)
    ensures CSeqs(Moved(l, m))
    ensures !m.Stray? ==> KeepsACKs(l.sent, Moved(l, m).sent)
  {
    var b := Moved(l, m);
    match m
    case Touch(_) =>
    case Edit(txs) =>
      assert txs[..|l.txs|] == txs;
      ListKeepsCSeqs(l, b);
    case Receive(t) =>
      assert b.txs[..|l.txs|] == l.txs;
      ListKeepsCSeqs(l, b);
    case Expect(_, _) =>
      assert b.txs[..|l.txs|] == l.txs;
      ListKeepsCSeqs(l, b);
    case Send(k, link, probing, d) => SendKeepsCSeqs(l, k, link, probing, d);
    case Prack(i, d) => PrackKeepsCSeqs(l, i, d);
    case Owe(_) =>
      assert b.txs[..|l.txs|] == l.txs;
      ListKeepsCSeqs(l, b);
    case Acknowledge(i) => AckKeepsCSeqs(l, i);
    case Stray(i) => AckKeepsCSeqs(l, i);
    case Cancel => CancelKeepsCSeqs(l);
  }

  lemma ListKeepsRSeqs(l: Leg, t: Tx, b: Leg)
    requires RSeqs(l) && b.txs == l.txs + [t]
    requires if t.Issued() then b.rseq == t.rseq && NextNumber(l.rseq, t.rseq, 1, 999)
             else b.rseq == l.rseq && (t.Unexpected() ==> t.rseq == 0 && t.hasRequest)
    ensures RSeqs(b)
  {
    ListNext(l.txs, t);
  }

  lemma EditKeepsRSeqs(l: Leg, b: Leg)
    requires RSeqs(l) && AllEdited(l.txs, b.txs) && b.rseq == l.rseq
    ensures RSeqs(b)
  {
    ReliableKept(l.txs, b.txs);
  }

  lemma SendKeepsRSeqs(l: Leg, m: Method, link: Option<nat>, probing: bool, d: Draws)
    requires RSeqs(l)
    ensures RSeqs(SendNew(l, m, link, probing, d))
  {
    SentNew(l, m, link, probing, d);
    ListKeepsRSeqs(l, OutgoingTx(l, m, link, probing, d), SendNew(l, m, link, probing, d));
  }

  lemma PrackKeepsRSeqs(l: Leg, i: nat, d: Draws)
    requires RSeqs(l) && i < |l.txs| && l.txs[i].kind == PRACK
    ensures RSeqs(SendPrack(l, i, d))
  {
    SentPrack(l, i, d);
    if l.dir == OUTBOUND {
      ReliableKept(l.txs, l.txs[i := l.txs[i].(cseq := NextCSeq(l, d), hasRequest := true)]);
    } else {
      SendKeepsRSeqs(l, PRACK, None, false, d);
    }
  }

  lemma CancelKeepsRSeqs(l: Leg)
    requires RSeqs(l) && CanCancel(l)
    ensures RSeqs(SendCancel(l))
  {
    var b := SendCancel(l);
    var l1 := l.(txs := l.txs[0 := b.txs[0]]);
    EditKeepsRSeqs(l, l1);
    ListKeepsRSeqs(l1, b.txs[|l.txs|], b);
  }

  lemma MoveKeepsRSeqs(l: Leg, m: Move)
    requires RSeqs(l) && Allowed(l, m)
    ensures RSeqs(Moved(l, m))
  {
    var b := Moved(l, m);
    match m
    case Touch(_) =>
    case Edit(txs) => EditKeepsRSeqs(l, b);
    case Receive(t) => ListKeepsRSeqs(l, t, b);
    case Expect(_, _) => ListKeepsRSeqs(l, b.txs[|l.txs|], b);
    case Send(k, link, probing, d) => SendKeepsRSeqs(l, k, link, probing, d);
    case Prack(i, d) => PrackKeepsRSeqs(l, i, d);
    case Owe(_) => ListKeepsRSeqs(l, b.txs[|l.txs|], b);
    case Acknowledge(i) => EditKeepsRSeqs(l, b);
    case Stray(i) => EditKeepsRSeqs(l, b);
    case Cancel => CancelKeepsRSeqs(l);
  }

  // ----- all of it, along any moves

  predicate InOrder(l: Leg) { Branches(l) && CSeqs(l) && RSeqs(l) }

  lemma {:induction false} MovesKeepBooks(a: Leg, ms: seq<Move>, b: Leg, strict: bool)
    requires InOrder(a) && MovesTo(a, ms, b, strict)
    ensures InOrder(b) && (strict ==> KeepsACKs(a.sent, b.sent))
    decreases |ms|
  {
    if ms != [] {
      MoveKeepsBranches(a, ms[0]);
      MoveKeepsCSeqs(a, ms[0]);
      MoveKeepsRSeqs(a, ms[0]);
      MovesKeepBooks(Moved(a, ms[0]), ms[1..], b, strict);
    }
  }

  lemma BooksKept(a: Leg, b: Leg, strict: bool)
    requires InOrder(a) && Reaches(a, b, strict)
    ensures InOrder(b) && (strict ==> KeepsACKs(a.sent, b.sent))
  {
    if a != b {
      var ms :| MovesTo(a, ms, b, strict);
      MovesKeepBooks(a, ms, b, strict);
    }
  }

  lemma NewLegInOrder(d: Direction)
    ensures InOrder(NewLeg(d)) && ProperACKs(NewLeg(d).sent) && OnlyInvitesACKed(NewLeg(d).sent)
  {
  }
}
