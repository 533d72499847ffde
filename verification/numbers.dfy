/** The numbers of a call, in every reachable state: CSeqs rise by one in sending order, an ACK or a
    CANCEL has the number of its INVITE, RSeqs rise by one, and a PRACK is expected exactly when its
    RSeq was issued. */
module Numbers {
  import opened SessionState
  import opened SipTypes
  import opened Ledger
  import opened Moves
  import opened Books
  import opened Evolution
  import opened Session
  import opened Stack
  import opened CallKeeps
  import opened Offers
  import opened Runs
  import opened Relays

  // ----- sequences of numbers

  /** Each number follows the one before it. */
  ghost predicate Follow(ns: seq<nat>, lo: nat, hi: nat) {
    && (ns != [] ==> NextNumber(0, ns[0], lo, hi))
    && forall i, j :: 0 <= i < j < |ns| && j == i + 1 ==> NextNumber(ns[i], ns[j], lo, hi)
  }

  predicate Consecutive(ns: seq<nat>) {
    forall k :: 0 <= k < |ns| ==> ns[k] == ns[0] + k
  }

  lemma {:induction false} RiseFrom(ns: seq<nat>, lo: nat, hi: nat, k: nat)
    requires Follow(ns, lo, hi) && k < |ns| && 0 < ns[0] <= hi && hi + |ns| < WRAP
    ensures ns[k] == ns[0] + k
    decreases k
  {
    if k > 0 {
      RiseFrom(ns, lo, hi, k - 1);
      assert NextNumber(ns[k - 1], ns[k], lo, hi);
    }
  }

  /** Below the wrap the numbers are consecutive, unless the first draw was 0 and the draw made in its
      place was not 1. */
  lemma ConsecutiveExactly(ns: seq<nat>, lo: nat, hi: nat)
    requires Follow(ns, lo, hi) && hi + |ns| < WRAP
    ensures Consecutive(ns) <==> |ns| <= 1 || ns[0] != 0 || ns[1] == 1
  {
    if |ns| > 1 {
      if ns[0] != 0 {
        forall k | 0 <= k < |ns| ensures ns[k] == ns[0] + k { RiseFrom(ns, lo, hi, k); }
      } else if ns[1] == 1 {
        forall k | 0 < k < |ns| ensures ns[k] == k { RiseFromSecond(ns, lo, hi, k); }
      } else {
        assert ns[1] != ns[0] + 1;
      }
    }
  }

  lemma {:induction false} RiseFromSecond(ns: seq<nat>, lo: nat, hi: nat, k: nat)
    requires Follow(ns, lo, hi) && 0 < k < |ns| && ns[1] == 1 && |ns| < WRAP
    ensures ns[k] == k
    decreases k
  {
    if k > 1 {
      RiseFromSecond(ns, lo, hi, k - 1);
      assert NextNumber(ns[k - 1], ns[k], lo, hi);
    }
  }

  // ----- CSeq

  /** The CSeqs of the counted requests of a log, in sending order. */
  function CSeqsSent(sent: seq<Sent>): seq<nat>
    decreases |sent|
  {
    if sent == [] then []
    else
      var (before, e) := (sent[..|sent| - 1], sent[|sent| - 1]);
      CSeqsSent(before) + if Counted(e.kind) then [e.cseq] else []
  }

  lemma {:induction false} SentFollow(sent: seq<Sent>, lo: nat, hi: nat)
    requires Numbered(sent, lo, hi)
    ensures Follow(CSeqsSent(sent), lo, hi)
    ensures LastCSeq(sent) == var ns := CSeqsSent(sent); if ns == [] then 0 else ns[|ns| - 1]
    decreases |sent|
  {
    if sent != [] {
      SentFollow(sent[..|sent| - 1], lo, hi);
    }
  }

  lemma CSeqsOfLeg(l: Leg)
    requires CSeqs(l) && |CSeqsSent(l.sent)| < WRAP - 1000
    ensures var ns := CSeqsSent(l.sent);
            Consecutive(ns) <==> l.dir == INBOUND || |ns| <= 1 || ns[0] != 0 || ns[1] == 1
  {
    SentFollow(l.sent, LowestDraw(l.dir), HighestDraw(l.dir));
    ConsecutiveExactly(CSeqsSent(l.sent), LowestDraw(l.dir), HighestDraw(l.dir));
  }

  lemma DirectionKept(v: FirstInvite, t: Target, m: Media, w: World, es: seq<Event>, s: Side)
    ensures At(After(v, t, m, w, es), s).dir == if s == Ingress then INBOUND else OUTBOUND
  {
    NewCallFresh(v, t, m, w);
    RunKeeps(NewCall(v, t, m, w), es);
  }

  predicate OnlyInvite(sent: seq<Sent>, w: World) { sent == [] || sent == [Sending(INVITE, w.d.fwd)] }

  /** A routed call has sent the INVITE, with the number that was drawn, and nothing else. */
  lemma LinkDraws(c: Call, reliable: bool, steersMedia: bool, m: Media, w: World)
    requires |c.ingress.txs| > 0 && c.egress.sent == []
    ensures OnlyInvite(Link(c, reliable, steersMedia, m, w).egress.sent, w)
  {
    SentNew(NewLeg(OUTBOUND).(linked := true, prackSupported := reliable), INVITE, None, false, w.d);
    assert [] + [Sending(INVITE, w.d.fwd)] == [Sending(INVITE, w.d.fwd)];
  }

  lemma NewCallDraws(v: FirstInvite, t: Target, m: Media, w: World)
    ensures OnlyInvite(NewCall(v, t, m, w).egress.sent, w)
  {
    var c := Call(IngressOf(v), Drop(NewLeg(OUTBOUND)), if t.Record? then t.flow else Plain,
                  if t.Record? then t.repeats else Repeats(false, false));
    Replied(c, Ingress, 0, 100, w);
    var c1 := SendReply(c, Ingress, Some(0), 100, NoBody, w);
    match t
    case NoTarget =>
    case AppServer => LinkDraws(c1, v.supports100rel, false, m, w);
    case Phone(_, _, _, sentBack) => LinkDraws(c1, sentBack && v.supports100rel, false, m, w);
    case Record(flow, _, steersMedia, _) => LinkDraws(c1, flow == Transparent && v.supports100rel, steersMedia, m, w);
  }

  lemma {:induction false} CSeqsExtend(a: seq<Sent>, b: seq<Sent>)
    requires a <= b
    ensures CSeqsSent(a) <= CSeqsSent(b)
    decreases |b|
  {
    if a != b {
      CSeqsExtend(a, b[..|b| - 1]);
    } else {
      assert a == b;
    }
  }

  lemma FirstDraw(v: FirstInvite, t: Target, m: Media, w: World, es: seq<Event>)
    requires NewCall(v, t, m, w).egress.sent != []
    ensures var ns := CSeqsSent(After(v, t, m, w, es).egress.sent); ns != [] && ns[0] == w.d.fwd
  {
    hide NewCall, Run;
    var c := NewCall(v, t, m, w);
    NewCallDraws(v, t, m, w);
    NewCallFresh(v, t, m, w);
    RunKeeps(c, es);
    CSeqsExtend(c.egress.sent, Run(c, es).egress.sent);
    assert CSeqsSent(c.egress.sent[..0]) == [];
    assert CSeqsSent(c.egress.sent) == [w.d.fwd];
  }

  /** Requests sent on an ingress leg have consecutive CSeqs. Those of the egress leg of a routed call have,
      exactly unless 0 was drawn for its INVITE and the next draw was not 1. */
  lemma CSeqsRise(v: FirstInvite, t: Target, m: Media, w: World, es: seq<Event>)
    ensures var ns := CSeqsSent(After(v, t, m, w, es).ingress.sent); |ns| < WRAP - 1000 ==> Consecutive(ns)
    ensures var ns := CSeqsSent(After(v, t, m, w, es).egress.sent);
            NewCall(v, t, m, w).egress.sent != [] && |ns| < WRAP - 1000 ==>
              (Consecutive(ns) <==> |ns| <= 1 || w.d.fwd != 0 || ns[1] == 1)
  {
    BooksInOrder(v, t, m, w, es, Ingress);
    BooksInOrder(v, t, m, w, es, Egress);
    DirectionKept(v, t, m, w, es, Ingress);
    DirectionKept(v, t, m, w, es, Egress);
    var c := After(v, t, m, w, es);
    if |CSeqsSent(c.ingress.sent)| < WRAP - 1000 {
      CSeqsOfLeg(c.ingress);
    }
    if NewCall(v, t, m, w).egress.sent != [] && |CSeqsSent(c.egress.sent)| < WRAP - 1000 {
      CSeqsOfLeg(c.egress);
      FirstDraw(v, t, m, w, es);
    }
  }

  lemma {:induction false} CancelNumber(sent: seq<Sent>, lo: nat, hi: nat, k: nat)
    requires Numbered(sent, lo, hi) && k < |sent| && sent[k].kind == CANCEL
    ensures Sending(INVITE, sent[k].cseq) in sent[..k]
    decreases |sent|
  {
    var before := sent[..|sent| - 1];
    if k < |sent| - 1 {
      CancelNumber(before, lo, hi, k);
      assert before[..k] == sent[..k];
    }
  }

  lemma {:induction false} ACKNumber(sent: seq<Sent>, k: nat)
    requires ProperACKs(sent) && k < |sent| && sent[k].kind == ACK
    ensures Sending(sent[k].of, sent[k].cseq) in sent[..k]
    decreases |sent|
  {
    var before := sent[..|sent| - 1];
    if k < |sent| - 1 {
      ACKNumber(before, k);
      assert before[..k] == sent[..k];
    }
  }

  // ----- ACKs

  /** What a stray ACK does: the other leg sends it with the number of the UPDATE. */
  lemma StrayStep(c: Call, e: Event)
    requires LinkInv(c) && StrayACK(c, e)
    ensures var o := Other(e.s);
            var t := At(c, o).txs[MateOf(At(c, e.s).txs[ReceiveACK(At(c, e.s), e.q).1.value])];
            && t in At(c, o).txs && t.dir == OUTBOUND && t.kind == UPDATE && c.flow == EarlyToFinal
            && At(Step(c, e), o).sent == At(c, o).sent + [Sent(ACK, t.cseq, UPDATE)]
            && At(Step(c, e), e.s).sent == At(c, e.s).sent
  {
    var i := ReceiveACK(At(c, e.s), e.q).1.value;
    var c1 := Put(c, e.s, ReceiveACK(At(c, e.s), e.q).0);
    assert Mates(At(c, e.s).txs[i], i, At(c, Other(e.s)).txs[At(c, e.s).txs[i].link.value.j], c.flow != EarlyToFinal);
    assert Step(c, e) == HandleOfferACK(c1, e.s, i);
  }

  lemma StepKeepsACKs(c: Call, e: Event, s: Side)
    requires LinkInv(c) && InOrder(At(c, s)) && ProperACKs(At(c, s).sent)
    ensures InOrder(At(Step(c, e), s)) && ProperACKs(At(Step(c, e), s).sent)
    ensures OnlyInvitesACKed(At(Step(c, e), s).sent) <==>
            OnlyInvitesACKed(At(c, s).sent) && !(StrayACK(c, e) && s == Other(e.s))
  {
    var (a, b) := (At(c, s), At(Step(c, e), s));
    StepKeeps(c, e);
    BooksKept(a, b, false);
    if StrayACK(c, e) {
      StrayStep(c, e);
      if s == Other(e.s) {
        StrayLogged(a, b, MateOf(At(c, e.s).txs[ReceiveACK(At(c, e.s), e.q).1.value]));
      }
    } else {
      StepKeepsOffers(c, e);
      BooksKept(a, b, true);
      OnlyInvitesBefore(a.sent, b.sent);
    }
  }

  lemma StrayLogged(a: Leg, b: Leg, j: nat)
    requires CSeqs(a) && ProperACKs(a.sent) && j < |a.txs| && a.txs[j].dir == OUTBOUND && a.txs[j].kind == UPDATE
    requires b.sent == a.sent + [Sent(ACK, a.txs[j].cseq, UPDATE)]
    ensures ProperACKs(b.sent) && !OnlyInvitesACKed(b.sent)
  {
    assert b.sent[..|a.sent|] == a.sent;
    assert b.sent[|a.sent|].of == UPDATE;
  }

  lemma OnlyInvitesBefore(a: seq<Sent>, b: seq<Sent>)
    requires a <= b
    ensures OnlyInvitesACKed(b) ==> OnlyInvitesACKed(a)
  {
    assert forall k :: 0 <= k < |a| ==> a[k] == b[k];
  }

  /** No ACK of the run went astray on leg s. */
  ghost predicate NoneAstray(c: Call, es: seq<Event>, s: Side) {
    forall k :: 0 <= k < |es| ==> !(StrayACK(Run(c, es[..k]), es[k]) && s == Other(es[k].s))
  }

  lemma NoneAstrayUnfolds(c: Call, es: seq<Event>, s: Side)
    requires es != []
    ensures var (before, e) := (es[..|es| - 1], es[|es| - 1]);
            NoneAstray(c, es, s) <==> NoneAstray(c, before, s) && !(StrayACK(Run(c, before), e) && s == Other(e.s))
  {
    var before := es[..|es| - 1];
    assert forall k :: 0 <= k < |before| ==> before[..k] == es[..k] && before[k] == es[k];
    if NoneAstray(c, es, s) {
      forall k | 0 <= k < |before|
        ensures !(StrayACK(Run(c, before[..k]), before[k]) && s == Other(before[k].s))
      {
        assert before[..k] == es[..k];
      }
    } else {
      var k :| 0 <= k < |es| && StrayACK(Run(c, es[..k]), es[k]) && s == Other(es[k].s);
      if k < |before| {
        assert before[..k] == es[..k] && before[k] == es[k];
      }
    }
  }

  lemma {:induction false} RunKeepsACKs(c: Call, es: seq<Event>, s: Side)
    requires LinkInv(c) && InOrder(At(c, s)) && ProperACKs(At(c, s).sent) && OnlyInvitesACKed(At(c, s).sent)
    ensures var l := At(Run(c, es), s);
            && LinkInv(Run(c, es)) && InOrder(l) && ProperACKs(l.sent)
            && (OnlyInvitesACKed(l.sent) <==> NoneAstray(c, es, s))
    decreases |es|
  {
    if es != [] {
      RunKeepsACKs(c, es[..|es| - 1], s);
      RunKeepsOffers(c, es);
      StepKeepsACKs(Run(c, es[..|es| - 1]), es[|es| - 1], s);
      NoneAstrayUnfolds(c, es, s);
    }
  }

  /** In every reachable state of every flow: all ACKs that leg s sent are for INVITEs and re-INVITEs
      exactly if none went astray, which none does outside the early-to-final flow. */
  lemma ACKsExactly(v: FirstInvite, t: Target, m: Media, w: World, es: seq<Event>, s: Side)
    ensures var c := NewCall(v, t, m, w);
            && ProperACKs(At(Run(c, es), s).sent)
            && (OnlyInvitesACKed(At(Run(c, es), s).sent) <==> NoneAstray(c, es, s))
            && ((t.Record? ==> t.flow != EarlyToFinal) ==> NoneAstray(c, es, s))
  {
    var c := NewCall(v, t, m, w);
    NewCallFresh(v, t, m, w);
    FreshOffers(c);
    NewLegInOrder(At(c, s).dir);
    BooksKept(NewLeg(At(c, s).dir), At(c, s), true);
    RunKeepsACKs(c, es, s);
    if t.Record? ==> t.flow != EarlyToFinal {
      forall k | 0 <= k < |es|
        ensures !StrayACK(Run(c, es[..k]), es[k])
      {
        RunKeepsOffers(c, es[..k]);
        if StrayACK(Run(c, es[..k]), es[k]) {
          StrayStep(Run(c, es[..k]), es[k]);
        }
      }
    }
  }

  /** In every flow, every CANCEL carries the CSeq of an INVITE sent before it on its leg, and every ACK
      that of the request it acknowledges; outside the early-to-final flow that is an INVITE or a
      re-INVITE. */
  lemma SharedNumbers(v: FirstInvite, t: Target, m: Media, w: World, es: seq<Event>, s: Side, k: nat)
    ensures var sent := At(After(v, t, m, w, es), s).sent;
            k < |sent| ==>
              && (sent[k].kind == CANCEL ==> Sending(INVITE, sent[k].cseq) in sent[..k])
              && (sent[k].kind == ACK ==>
                    && Sending(sent[k].of, sent[k].cseq) in sent[..k]
                    && ((t.Record? ==> t.flow != EarlyToFinal) ==> sent[k].of.RequiresACK()))
  {
    BooksInOrder(v, t, m, w, es, s);
    ACKsExactly(v, t, m, w, es, s);
    var l := At(After(v, t, m, w, es), s);
    if k < |l.sent| {
      if l.sent[k].kind == CANCEL {
        CancelNumber(l.sent, LowestDraw(l.dir), HighestDraw(l.dir), k);
      } else if l.sent[k].kind == ACK {
        ACKNumber(l.sent, k);
      }
    }
  }

  // ----- RSeq

  /** The RSeqs issued by a leg, in order. */
  function RSeqsIssued(txs: seq<Tx>): seq<nat>
    decreases |txs|
  {
    if txs == [] then []
    else
      var (before, t) := (txs[..|txs| - 1], txs[|txs| - 1]);
      RSeqsIssued(before) + if t.Issued() then [t.rseq] else []
  }

  lemma {:induction false} IssuedFollow(txs: seq<Tx>)
    requires Reliable(txs)
    ensures Follow(RSeqsIssued(txs), 1, 999)
    ensures LastRSeq(txs) == var ns := RSeqsIssued(txs); if ns == [] then 0 else ns[|ns| - 1]
    decreases |txs|
  {
    if txs != [] {
      IssuedFollow(txs[..|txs| - 1]);
    }
  }

  lemma {:induction false} IssuedExactly(txs: seq<Tx>, n: nat)
    ensures n in RSeqsIssued(txs) <==> exists i :: 0 <= i < |txs| && txs[i].Issued() && txs[i].rseq == n
    decreases |txs|
  {
    if txs != [] {
      var before := txs[..|txs| - 1];
      IssuedExactly(before, n);
      assert forall i :: 0 <= i < |before| ==> txs[i] == before[i];
    }
  }

  /** The RSeqs whose PRACK has come. */
  function Acknowledged(txs: seq<Tx>): set<nat> {
    set t | t in txs && t.Issued() && t.hasRequest :: t.rseq
  }

  /** UnPRACKed18xCountSYNC. */
  function UnPRACKedCount(txs: seq<Tx>): nat
    decreases |txs|
  {
    if txs == [] then 0
    else UnPRACKedCount(txs[..|txs| - 1]) + if txs[|txs| - 1].UnPRACKed() then 1 else 0
  }

  /** No RSeq is issued twice. */
  predicate Unique(ns: seq<nat>) { forall i, j :: 0 <= i < j < |ns| ==> ns[i] != ns[j] }

  lemma {:induction false} CountIsConserved(txs: seq<Tx>)
    requires Reliable(txs) && Unique(RSeqsIssued(txs))
    ensures UnPRACKedCount(txs) == |RSeqsIssued(txs)| - |Acknowledged(txs)|
    ensures forall n :: n in Acknowledged(txs) ==> n in RSeqsIssued(txs)
    decreases |txs|
  {
    if txs != [] {
      var (before, t) := (txs[..|txs| - 1], txs[|txs| - 1]);
      var ns := RSeqsIssued(before);
      assert txs == before + [t];
      assert Unique(ns) by {
        assert forall i :: 0 <= i < |ns| ==> RSeqsIssued(txs)[i] == ns[i];
      }
      CountIsConserved(before);
      if t.Issued() {
        assert RSeqsIssued(txs)[|ns|] == t.rseq;
        assert t.rseq !in ns by {
          assert forall i :: 0 <= i < |ns| ==> RSeqsIssued(txs)[i] == ns[i];
        }
        if t.hasRequest {
          assert Acknowledged(txs) == Acknowledged(before) + {t.rseq};
        } else {
          assert Acknowledged(txs) == Acknowledged(before);
        }
      } else {
        assert Acknowledged(txs) == Acknowledged(before);
      }
    }
  }

  lemma ConsecutiveIsUnique(ns: seq<nat>)
    requires Consecutive(ns)
    ensures Unique(ns)
  {
    forall i, j | 0 <= i < j < |ns|
      ensures ns[i] != ns[j]
    {
      assert ns[i] == ns[0] + i && ns[j] == ns[0] + j;
    }
  }

  lemma RSeqsOfLeg(txs: seq<Tx>)
    requires Reliable(txs) && |RSeqsIssued(txs)| < WRAP - 999
    ensures Consecutive(RSeqsIssued(txs)) && Unique(RSeqsIssued(txs))
    ensures UnPRACKedCount(txs) == |RSeqsIssued(txs)| - |Acknowledged(txs)|
  {
    IssuedFollow(txs);
    ConsecutiveExactly(RSeqsIssued(txs), 1, 999);
    ConsecutiveIsUnique(RSeqsIssued(txs));
    CountIsConserved(txs);
  }

  /** Section 3 of RFC 3262: until the wrap, the RSeqs a leg issues are consecutive and unique, and the
      reliable responses still waiting for their PRACK are those issued minus the distinct ones
      acknowledged. */
  lemma RSeqsRise(v: FirstInvite, t: Target, m: Media, w: World, es: seq<Event>, s: Side)
    ensures var txs := At(After(v, t, m, w, es), s).txs;
            |RSeqsIssued(txs)| < WRAP - 999 ==>
              && Consecutive(RSeqsIssued(txs)) && Unique(RSeqsIssued(txs))
              && UnPRACKedCount(txs) == |RSeqsIssued(txs)| - |Acknowledged(txs)|
  {
    BooksInOrder(v, t, m, w, es, s);
    var txs := At(After(v, t, m, w, es), s).txs;
    if |RSeqsIssued(txs)| < WRAP - 999 {
      RSeqsOfLeg(txs);
    }
  }

  // ----- an incoming PRACK

  lemma {:induction false} ReliableAt(txs: seq<Tx>, i: nat)
    requires Reliable(txs) && i < |txs| && txs[i].Unexpected()
    ensures txs[i].rseq == 0
    decreases |txs|
  {
    if i < |txs| - 1 {
      ReliableAt(txs[..|txs| - 1], i);
    }
  }

  lemma IssuedIsPositive(txs: seq<Tx>)
    requires Reliable(txs) && |RSeqsIssued(txs)| < WRAP - 999
    ensures 0 !in RSeqsIssued(txs)
  {
    RSeqsOfLeg(txs);
    IssuedFollow(txs);
  }

  /** The PRACK found by its RSeq is one that is expected. */
  lemma FoundIsExpected(l: Leg, n: nat)
    requires RSeqs(l) && |RSeqsIssued(l.txs)| < WRAP - 999
    ensures var found := PrackFor(l, n);
            n in RSeqsIssued(l.txs) <==> found.Some? && l.txs[found.value].prack == PRACKExpected
  {
    var found := PrackFor(l, n);
    IssuedExactly(l.txs, n);
    IssuedIsPositive(l.txs);
    if found.Some? && l.txs[found.value].Unexpected() {
      ReliableAt(l.txs, found.value);
    }
  }

  lemma {:induction false} SameIssued(a: seq<Tx>, b: seq<Tx>)
    requires |a| == |b|
    requires forall k :: 0 <= k < |a| ==> b[k].Issued() == a[k].Issued() && b[k].rseq == a[k].rseq
    ensures RSeqsIssued(b) == RSeqsIssued(a)
    decreases |a|
  {
    if a != [] {
      SameIssued(a[..|a| - 1], b[..|b| - 1]);
    }
  }

  lemma AcknowledgedUpdate(txs: seq<Tx>, i: nat, t: Tx)
    requires i < |txs| && txs[i].Issued() && t.Issued() && t.rseq == txs[i].rseq && t.hasRequest
    ensures Acknowledged(txs[i := t]) == Acknowledged(txs) + {t.rseq}
  {
    var b := txs[i := t];
    forall n | n in Acknowledged(txs)
      ensures n in Acknowledged(b)
    {
      var k :| 0 <= k < |txs| && txs[k].Issued() && txs[k].hasRequest && txs[k].rseq == n;
      assert b[k] in b;
    }
    assert b[i] == t;
    forall n | n in Acknowledged(b)
      ensures n in Acknowledged(txs) + {t.rseq}
    {
      var k :| 0 <= k < |b| && b[k].Issued() && b[k].hasRequest && b[k].rseq == n;
      assert k != i ==> b[k] == txs[k];
    }
  }

  /** It joins a transaction, which then has its request. */
  lemma PRACKJoins(l: Leg, q: Request)
    requires q.kind == PRACK && q.rack.RAck? && PrackFor(l, q.rack.rseq).Some?
    ensures var (b, i) := (ReceivePRACK(l, q).0, PrackFor(l, q.rack.rseq).value);
            && RSeqsIssued(b.txs) == RSeqsIssued(l.txs) && b.txs[i].prack == l.txs[i].prack
            && (l.txs[i].Issued() <==> l.txs[i].prack == PRACKExpected)
            && Acknowledged(b.txs) == Acknowledged(l.txs) + (if l.txs[i].Issued() then {q.rack.rseq} else {})
  {
    hide Acknowledged, RSeqsIssued;
    var (b, i) := (ReceivePRACK(l, q).0, PrackFor(l, q.rack.rseq).value);
    SameIssued(l.txs, b.txs);
    if l.txs[i].Issued() {
      AcknowledgedUpdate(l.txs, i, b.txs[i]);
    } else {
      SameAcknowledged(l.txs, i, b.txs[i]);
    }
  }

  lemma PRACKListed(l: Leg, q: Request)
    requires q.kind == PRACK && q.rack.RAck? && PrackFor(l, q.rack.rseq).None?
    ensures var b := ReceivePRACK(l, q).0;
            RSeqsIssued(b.txs) == RSeqsIssued(l.txs) && Acknowledged(b.txs) == Acknowledged(l.txs)
  {
    hide Acknowledged, RSeqsIssued;
    ListedUnexpected(l.txs, ReceivePRACK(l, q).0.txs[|l.txs|]);
  }

  lemma PRACKTaken(l: Leg, q: Request)
    requires RSeqs(l) && |RSeqsIssued(l.txs)| < WRAP - 999 && q.kind == PRACK && q.rack.RAck?
    ensures var (b, i) := ReceivePRACK(l, q);
            var issued := q.rack.rseq in RSeqsIssued(l.txs);
            && (b.txs[i.value].prack == PRACKExpected <==> issued)
            && RSeqsIssued(b.txs) == RSeqsIssued(l.txs)
            && Acknowledged(b.txs) == Acknowledged(l.txs) + (if issued then {q.rack.rseq} else {})
  {
    hide Acknowledged, RSeqsIssued, RSeqs, PrackFor;
    FoundIsExpected(l, q.rack.rseq);
    if PrackFor(l, q.rack.rseq).Some? {
      PRACKJoins(l, q);
    } else {
      PRACKListed(l, q);
    }
  }

  lemma ListedUnexpected(txs: seq<Tx>, t: Tx)
    requires !t.Issued()
    ensures RSeqsIssued(txs + [t]) == RSeqsIssued(txs) && Acknowledged(txs + [t]) == Acknowledged(txs)
  {
    var b := txs + [t];
    assert b[..|txs|] == txs;
    forall n | n in Acknowledged(b)
      ensures n in Acknowledged(txs)
    {
      var k :| 0 <= k < |b| && b[k].Issued() && b[k].hasRequest && b[k].rseq == n;
      assert b[k] == txs[k];
    }
    forall n | n in Acknowledged(txs)
      ensures n in Acknowledged(b)
    {
      var k :| 0 <= k < |txs| && txs[k].Issued() && txs[k].hasRequest && txs[k].rseq == n;
      assert b[k] in b;
    }
  }

  lemma SameAcknowledged(txs: seq<Tx>, i: nat, t: Tx)
    requires i < |txs| && t.Issued() == txs[i].Issued()
             && !(t.Issued() && t.hasRequest) && !(t.Issued() && txs[i].hasRequest)
    ensures Acknowledged(txs[i := t]) == Acknowledged(txs)
  {
    var b := txs[i := t];
    forall n | n in Acknowledged(txs)
      ensures n in Acknowledged(b)
    {
      var k :| 0 <= k < |txs| && txs[k].Issued() && txs[k].hasRequest && txs[k].rseq == n;
      assert b[k] in b;
    }
    forall n | n in Acknowledged(b)
      ensures n in Acknowledged(txs)
    {
      var k :| 0 <= k < |b| && b[k].Issued() && b[k].hasRequest && b[k].rseq == n;
      assert b[k] == txs[k];
    }
  }

  /** Leg b is leg a after the PRACK q: when the RSeq of its RAck was issued here it is expected,
      acknowledged and answered 200, otherwise nothing is acknowledged and the answer is 400. */
  predicate PRACKHandled(a: Leg, b: Leg, q: Request)
    requires q.kind == PRACK && q.rack.RAck?
  {
    var i := ReceivePRACK(a, q).1.value;
    var issued := q.rack.rseq in RSeqsIssued(a.txs);
    && i < |b.txs| && (b.txs[i].prack == PRACKExpected <==> issued)
    && b.txs[i].responses != [] && b.txs[i].responses[|b.txs[i].responses| - 1].code == (if issued then 200 else 400)
    && RSeqsIssued(b.txs) == RSeqsIssued(a.txs)
    && Acknowledged(b.txs) == Acknowledged(a.txs) + (if issued then {q.rack.rseq} else {})
  }

  lemma PRACKAnswered(c: Call, s: Side, q: Request, w: World)
    requires q.kind == PRACK && q.body != UnknownParts && !At(c, s).disposed && !IsDuplicateRequest(At(c, s), q)
    ensures var (b, i) := (ReceivePRACK(At(c, s), q).0, ReceivePRACK(At(c, s), q).1.value);
            At(Step(c, RequestIn(s, q, w)), s) ==
            RespondTo(b, i, Reply(if b.txs[i].prack == PRACKExpected then 200 else 400, NoBody))
  {
  }

  lemma AnsweredKeepsRSeqs(l: Leg, i: nat, r: Reply)
    requires i < |l.txs|
    ensures RSeqsIssued(RespondTo(l, i, r).txs) == RSeqsIssued(l.txs)
    ensures Acknowledged(RespondTo(l, i, r).txs) == Acknowledged(l.txs)
  {
    var b := RespondTo(l, i, r).txs;
    SameIssued(l.txs, b);
    if l.txs[i].Issued() && l.txs[i].hasRequest {
      AcknowledgedUpdate(l.txs, i, b[i]);
      assert l.txs[i] in l.txs;
    } else {
      SameAcknowledged(l.txs, i, b[i]);
    }
  }

  lemma PRACKStep(c: Call, s: Side, q: Request, w: World)
    requires RSeqs(At(c, s)) && |RSeqsIssued(At(c, s).txs)| < WRAP - 999
    requires q.kind == PRACK && q.rack.RAck? && q.body != UnknownParts
    requires !At(c, s).disposed && !IsDuplicateRequest(At(c, s), q)
    ensures PRACKHandled(At(c, s), At(Step(c, RequestIn(s, q, w)), s), q)
  {
    var (b, i) := (ReceivePRACK(At(c, s), q).0, ReceivePRACK(At(c, s), q).1.value);
    PRACKTaken(At(c, s), q);
    PRACKAnswered(c, s, q, w);
    AnsweredKeepsRSeqs(b, i, Reply(if b.txs[i].prack == PRACKExpected then 200 else 400, NoBody));
  }

  /** In every reachable state, until the wrap, a PRACK is expected exactly when the RSeq of its RAck
      was issued by this leg. */
  lemma PRACKExpectedExactly(v: FirstInvite, t: Target, m: Media, w: World, es: seq<Event>,
                            s: Side, q: Request, w': World)
    requires q.kind == PRACK && q.rack.RAck? && q.body != UnknownParts
    ensures var a := At(After(v, t, m, w, es), s);
            |RSeqsIssued(a.txs)| < WRAP - 999 && !a.disposed && !IsDuplicateRequest(a, q) ==>
              PRACKHandled(a, At(After(v, t, m, w, es + [RequestIn(s, q, w')]), s), q)
  {
    BooksInOrder(v, t, m, w, es, s);
    OneMore(NewCall(v, t, m, w), es, RequestIn(s, q, w'));
    var a := At(After(v, t, m, w, es), s);
    if |RSeqsIssued(a.txs)| < WRAP - 999 && !a.disposed && !IsDuplicateRequest(a, q) {
      PRACKStep(After(v, t, m, w, es), s, q, w');
    }
  }
}
