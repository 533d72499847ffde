/** What an ACK and a PRACK do: to which transaction of their own leg they belong, and what goes out on the other
    leg. */
module Acks {
  import opened SessionState
  import opened SipTypes
  import opened Evolution
  import opened Session
  import opened Stack
  import opened CallKeeps
  import opened Changes

  // ----- which transaction an ACK belongs to

  /** An INVITE or re-INVITE with this number that had its final response. */
  predicate Finished(t: Tx, cseq: nat) {
    t.dir == INBOUND && t.kind in {INVITE, ReINVITE} && t.cseq == cseq && t.isFinalized
  }

  predicate FirstFinished(l: Leg, q: Request, i: nat) {
    i < |l.txs| && Finished(l.txs[i], q.cseq) && forall k :: 0 <= k < i ==> !Finished(l.txs[k], q.cseq)
  }

  /** The ACK of a refusal comes on the branch of the request, that of an answer on another one. */
  predicate OnItsBranch(t: Tx, q: Request) {
    (exists k :: 0 <= k < |t.responses| && 300 <= t.responses[k].code) <==> t.branch == q.branch
  }

  predicate TakesACK(l: Leg, q: Request, i: nat) {
    q.kind == ACK && IsNew(l, q) && FirstFinished(l, q, i) && !l.txs[i].isACKed && OnItsBranch(l.txs[i], q)
  }

  lemma ReceivedExactly(l: Leg, q: Request, i: nat)
    requires FirstFinished(l, q, i)
    ensures ReceiveACK(l, q) == if !l.txs[i].isACKed && OnItsBranch(l.txs[i], q)
                                then (l.(txs := l.txs[i := l.txs[i].(isACKed := true)]), Some(i)) else (l, None)
  {
    var t := l.txs[i];
    assert forall k :: 0 <= k < |l.txs| ==> (Finished(l.txs[k], q.cseq) <==> IsReOrInvite(l.txs[k], q.cseq, true));
    assert ReOrInvite(l, q.cseq, true) == Some(i);
    assert t.AnyNegative() <==> exists k :: 0 <= k < |t.responses| && 300 <= t.responses[k].code;
  }

  lemma NoneReceived(l: Leg, q: Request)
    requires ReOrInvite(l, q.cseq, true).None?
    ensures ReceiveACK(l, q) == (l, None)
  {
  }

  /** Any other ACK is ignored. */
  lemma ACKIgnored(c: Call, s: Side, q: Request, w: World)
    requires q.kind == ACK && forall i: nat :: !TakesACK(At(c, s), q, i)
    ensures Step(c, RequestIn(s, q, w)) == c
  {
    hide HandleRequest, ReceiveACK;
    var l := At(c, s);
    NewExactly(l, q);
    match ReOrInvite(l, q.cseq, true)
    case None => NoneReceived(l, q);
    case Some(i) =>
      assert forall k :: 0 <= k < |l.txs| ==> (Finished(l.txs[k], q.cseq) <==> IsReOrInvite(l.txs[k], q.cseq, true));
      assert FirstFinished(l, q, i);
      ReceivedExactly(l, q, i);
      assert !TakesACK(l, q, i);
  }

  lemma ACKTaken(c: Call, s: Side, q: Request, i: nat, w: World)
    requires TakesACK(At(c, s), q, i)
    ensures var l := At(c, s);
            Step(c, RequestIn(s, q, w)) ==
            HandleRequest(Put(c, s, l.(txs := l.txs[i := l.txs[i].(isACKed := true)])), s, i, q, w)
  {
    hide HandleRequest, ReceiveACK;
    NewExactly(At(c, s), q);
    ReceivedExactly(At(c, s), q, i);
  }

  /** An ACK with a body of an unknown kind is answered, on the transaction it belongs to. */
  lemma ACKWithUnknownBody(c: Call, s: Side, q: Request, i: nat, w: World)
    requires TakesACK(At(c, s), q, i) && q.body == UnknownParts
    ensures var l := At(c, s);
            Step(c, RequestIn(s, q, w)) ==
            Put(c, s, l.(txs := Gains(l.txs[i := l.txs[i].(isACKed := true)], i, Bare(415))))
  {
    var l := At(c, s);
    var acked := l.(txs := l.txs[i := l.txs[i].(isACKed := true)]);
    ACKTaken(c, s, q, i, w);
    GainsResponse(acked, i, Bare(415));
  }

  // ----- the ACK of an INVITE

  /** The caller acknowledges. Its leg reaches the final form of its state; unless that is the established one, the
      leg is dropped; if it is, the called party's leg is established and acknowledged too, but in a flow that still
      waits for the called party's answer. */
  lemma CallerAcknowledges(c: Call, q: Request, w: World)
    requires SoundCall(c) && TakesACK(c.ingress, q, 0) && q.body != UnknownParts
    ensures var (a, b, d) := (c.ingress, c.egress, Step(c, RequestIn(Ingress, q, w)));
            var l := a.(txs := a.txs[0 := a.txs[0].(isACKed := true)]);
            && d == c.(ingress := d.ingress, egress := d.egress)
            && if FinalizeMe(a.state) != Established then
                 d.ingress == l.(state := FinalizeMe(a.state), disposed := true) && d.egress == b
               else
                 && d.ingress == l.(state := Established)
                 && if a.linked && !b.transformEarlyToFinal
                    then Acknowledges(b.(state := FinalizeMe(b.state)), d.egress)
                    else d.egress == b
  {
    hide SendAck, HandleOffer, HandlePlain;
    var a := c.ingress;
    var l := a.(txs := a.txs[0 := a.txs[0].(isACKed := true)]);
    ACKTaken(c, Ingress, q, 0, w);
    AckExactly(c.egress.(state := FinalizeMe(c.egress.state)));
  }

  // ----- the ACK of a re-INVITE

  predicate HadAnswer(t: Tx) { exists k :: 0 <= k < |t.responses| && 200 <= t.responses[k].code <= 299 }

  /** The copy of the request on the other leg. */
  function CopyOf(t: Tx, p: Leg): Option<nat> {
    if t.link.Some? && t.link.value.There? && t.link.value.j < |p.txs| then Some(t.link.value.j) else None
  }

  /** The ACK of a re-INVITE goes on to the copy of it, unless the other leg cannot take it; and once the copy had a
      2xx, the change of the dialogue is over on both legs. */
  lemma OfferAcknowledged(c: Call, s: Side, q: Request, i: nat, w: World)
    requires TakesACK(At(c, s), q, i) && At(c, s).txs[i].kind == ReINVITE && q.body != UnknownParts
    ensures var (l, p, d) := (At(c, s), At(c, Other(s)), Step(c, RequestIn(s, q, w)));
            var (j, acked) := (CopyOf(l.txs[i], p), l.(txs := l.txs[i := l.txs[i].(isACKed := true)]));
            if !l.linked || j.None? then d == Put(c, s, acked)
            else
              var t := p.txs[j.value];
              var over := HadAnswer(t);
              var p1 := if over then p.(dialogueChanging := false) else p;
              && At(d, s) == (if over then acked.(dialogueChanging := false) else acked)
              && At(d, Other(s)) == (if p.transformEarlyToFinal then p1
                                     else p1.(txs := p.txs[j.value := t.(isACKed := true)],
                                              sent := p.sent + [Sent(ACK, t.cseq, t.kind)]))
              && d == c.(ingress := d.ingress, egress := d.egress)
  {
    hide HandleRequest, HandleOfferACK, Step;
    var (l, p) := (At(c, s), At(c, Other(s)));
    ACKTaken(c, s, q, i, w);
    var c1 := Put(c, s, l.(txs := l.txs[i := l.txs[i].(isACKed := true)]));
    OfferACKHandled(c1, s, i, q, w);
    OfferACKExactly(c1, s, i);
  }

  lemma OfferACKHandled(c: Call, s: Side, i: nat, q: Request, w: World)
    requires i < |At(c, s).txs| && At(c, s).txs[i].kind == ReINVITE && q.kind == ACK && q.body != UnknownParts
    ensures HandleRequest(c, s, i, q, w) == HandleOfferACK(c, s, i)
  {
    hide HandleOfferACK, HandleOffer;
  }

  lemma OfferACKExactly(c: Call, s: Side, i: nat)
    requires i < |At(c, s).txs|
    ensures var (l, p, d) := (At(c, s), At(c, Other(s)), HandleOfferACK(c, s, i));
            var j := CopyOf(l.txs[i], p);
            if !l.linked || j.None? then d == c
            else
              var t := p.txs[j.value];
              var over := HadAnswer(t);
              var p1 := if over then p.(dialogueChanging := false) else p;
              && At(d, s) == (if over then l.(dialogueChanging := false) else l)
              && At(d, Other(s)) == (if p.transformEarlyToFinal then p1
                                     else p1.(txs := p.txs[j.value := t.(isACKed := true)],
                                              sent := p.sent + [Sent(ACK, t.cseq, t.kind)]))
              && d == c.(ingress := d.ingress, egress := d.egress)
  {
    hide SendAck, HadAnswer, OfferOver, Put, HandleOfferACK;
    var p := At(c, Other(s));
    var j := CopyOf(At(c, s).txs[i], p);
    OfferACKUnfolds(c, s, i);
    if j.Some? {
      OverExactly(c, s);
      var c1 := if HadAnswer(p.txs[j.value]) then OfferOver(c) else c;
      AckOfCopy(At(c1, Other(s)), j.value);
      PutExactly(c1, s, SendAck(At(c1, Other(s)), Some(j.value)));
    }
  }

  lemma OfferACKUnfolds(c: Call, s: Side, i: nat)
    requires i < |At(c, s).txs|
    ensures var (p, j) := (At(c, Other(s)), CopyOf(At(c, s).txs[i], At(c, Other(s))));
            HandleOfferACK(c, s, i) ==
            if !At(c, s).linked || j.None? then c
            else
              var c1 := if HadAnswer(p.txs[j.value]) then OfferOver(c) else c;
              if p.transformEarlyToFinal then c1 else Put(c1, Other(s), SendAck(At(c1, Other(s)), Some(j.value)))
  {
    hide SendAck, HadAnswer, Put;
    var j := CopyOf(At(c, s).txs[i], At(c, Other(s)));
    OverExactly(c, s);
    if j.Some? {
      HadAnswerExactly(At(c, Other(s)).txs[j.value]);
    }
  }

  lemma PutExactly(c: Call, s: Side, p: Leg)
    ensures var d := Put(c, Other(s), p);
            At(d, s) == At(c, s) && At(d, Other(s)) == p && d == c.(ingress := d.ingress, egress := d.egress)
  {
  }

  lemma OverExactly(c: Call, s: Side)
    ensures var d := OfferOver(c);
            && At(d, s) == At(c, s).(dialogueChanging := false) && d == c.(ingress := d.ingress, egress := d.egress)
            && At(d, Other(s)) == At(c, Other(s)).(dialogueChanging := false)
  {
  }

  lemma HadAnswerExactly(t: Tx)
    ensures t.AnyPositive() <==> HadAnswer(t)
  {
  }

  lemma AckOfCopy(p: Leg, j: nat)
    requires j < |p.txs|
    ensures SendAck(p, Some(j)) == p.(txs := p.txs[j := p.txs[j].(isACKed := true)],
                                      sent := p.sent + [Sent(ACK, p.txs[j].cseq, p.txs[j].kind)])
  {
  }

  // ----- PRACK

  predicate Names(t: Tx, rack: RAck) { rack.RAck? && t.dir == INBOUND && t.kind == PRACK && t.rseq == rack.rseq }

  predicate FirstNamed(l: Leg, q: Request, i: nat) {
    i < |l.txs| && Names(l.txs[i], q.rack) && forall k :: 0 <= k < i ==> !Names(l.txs[k], q.rack)
  }

  /** A PRACK that nothing waits for joins the list and is refused. */
  lemma PRACKUnawaited(c: Call, s: Side, q: Request, w: World)
    requires IsNew(At(c, s), q) && q.kind == PRACK
    requires forall k :: 0 <= k < |At(c, s).txs| ==> !Names(At(c, s).txs[k], q.rack)
    ensures var l := At(c, s);
            var t := Came(q, None, [Bare(if q.body == UnknownParts then 415 else 400)])
                     .(prack := if q.rack.RAck? then PRACKUnexpected else PRACKMissingBadRAck);
            Step(c, RequestIn(s, q, w)) == Put(c, s, l.(txs := l.txs + [t]))
  {
    hide HandleRequest;
    var l := At(c, s);
    var u := IncomingTx(q, None).(prack := if q.rack.RAck? then PRACKUnexpected else PRACKMissingBadRAck);
    PRACKUntaken(c, s, q, w);
    UnawaitedAnswered(Put(c, s, l.(txs := l.txs + [u])), s, q, l.txs, u,
                      if q.body == UnknownParts then 415 else 400, w);
  }

  lemma PRACKUntaken(c: Call, s: Side, q: Request, w: World)
    requires IsNew(At(c, s), q) && q.kind == PRACK
    requires forall k :: 0 <= k < |At(c, s).txs| ==> !Names(At(c, s).txs[k], q.rack)
    ensures var l := At(c, s);
            var u := IncomingTx(q, None).(prack := if q.rack.RAck? then PRACKUnexpected else PRACKMissingBadRAck);
            Step(c, RequestIn(s, q, w)) == HandleRequest(Put(c, s, l.(txs := l.txs + [u])), s, |l.txs|, q, w)
  {
    hide HandleRequest;
    var l := At(c, s);
    NewExactly(l, q);
    assert q.rack.RAck? ==> PrackFor(l, q.rack.rseq) == None by {
      assert forall k :: 0 <= k < |l.txs| ==> !Names(l.txs[k], q.rack);
    }
  }

  lemma UnawaitedAnswered(c: Call, s: Side, q: Request, txs: seq<Tx>, u: Tx, code: Status, w: World)
    requires At(c, s).txs == txs + [u] && u.prack != PRACKExpected && u.responses == [] && !u.isFinalized
    requires q.kind == PRACK && code == if q.body == UnknownParts then 415 else 400
    ensures HandleRequest(c, s, |txs|, q, w) ==
            Put(c, s, At(c, s).(txs := txs + [u.(responses := [Bare(code)], isFinalized := true)]))
  {
    var l := At(c, s);
    assert HandleRequest(c, s, |txs|, q, w) == Put(c, s, RespondTo(l, |txs|, Bare(code)));
    assert [] + [Bare(code)] == [Bare(code)];
    assert RespondTo(l, |txs|, Bare(code)).txs == txs + [u.With(Bare(code))];
  }

  /** The PRACK owed to a called party goes out with the next number; a PRACK for the caller is a new request. */
  function PRACKSent(p: Leg, j: nat, d: Draws): Leg
    requires j < |p.txs|
  {
    var n := NextOf(p, d);
    if p.dir == OUTBOUND then
      p.(txs := p.txs[j := p.txs[j].(cseq := n, hasRequest := true)], sent := p.sent + [Sent(PRACK, n, PRACK)],
         fwdCSeq := n)
    else
      p.(txs := p.txs + [Tx(PRACK, OUTBOUND, n, p.branches + 1, 0, PRACKExpected, None, [], false, false, true, false)],
         sent := p.sent + [Sent(PRACK, n, PRACK)], branches := p.branches + 1, bwdCSeq := n)
  }

  /** The transaction that waits takes the PRACK in and answers it. */
  function Took(t: Tx, q: Request, code: Status): Tx {
    t.(hasRequest := true, cseq := q.cseq, branch := q.branch, isFinalized := t.isFinalized || code >= 200,
       responses := t.responses + [Bare(code)])
  }

  lemma PRACKTaken(c: Call, s: Side, q: Request, i: nat, w: World)
    requires IsNew(At(c, s), q) && q.kind == PRACK && FirstNamed(At(c, s), q, i)
    ensures var l := At(c, s);
            var t := l.txs[i].(hasRequest := true, cseq := q.cseq, branch := q.branch);
            Step(c, RequestIn(s, q, w)) == HandleRequest(Put(c, s, l.(txs := l.txs[i := t])), s, i, q, w)
  {
    hide HandleRequest;
    NewExactly(At(c, s), q);
    NamedFirst(At(c, s), q, i);
  }

  lemma TookExactly(c: Call, s: Side, q: Request, i: nat, code: Status, w: World)
    requires i < |At(c, s).txs| && !Is18x(code)
    ensures var l := At(c, s);
            var t := l.txs[i].(hasRequest := true, cseq := q.cseq, branch := q.branch);
            SendReply(Put(c, s, l.(txs := l.txs[i := t])), s, Some(i), code, NoBody, w) ==
            Put(c, s, l.(txs := l.txs[i := Took(l.txs[i], q, code)]))
  {
    var l := At(c, s);
    var b := l.(txs := l.txs[i := l.txs[i].(hasRequest := true, cseq := q.cseq, branch := q.branch)]);
    assert SendReply(Put(c, s, b), s, Some(i), code, NoBody, w) == Put(c, s, RespondTo(b, i, Bare(code)));
    assert RespondTo(b, i, Bare(code)).txs == l.txs[i := Took(l.txs[i], q, code)];
  }

  /** One that came unawaited before is refused again, and so is a body of an unknown kind. */
  lemma PRACKRefused(c: Call, s: Side, q: Request, i: nat, w: World)
    requires IsNew(At(c, s), q) && q.kind == PRACK && FirstNamed(At(c, s), q, i)
    requires q.body == UnknownParts || At(c, s).txs[i].prack != PRACKExpected
    ensures var l := At(c, s);
            Step(c, RequestIn(s, q, w)) ==
            Put(c, s, l.(txs := l.txs[i := Took(l.txs[i], q, if q.body == UnknownParts then 415 else 400)]))
  {
    hide SendReply;
    PRACKTaken(c, s, q, i, w);
    TookExactly(c, s, q, i, if q.body == UnknownParts then 415 else 400, w);
  }

  /** A PRACK that is awaited is answered 200, and the PRACK that is owed to the other party is sent. */
  lemma PRACKAwaited(c: Call, s: Side, q: Request, i: nat, w: World)
    requires IsNew(At(c, s), q) && q.kind == PRACK && FirstNamed(At(c, s), q, i)
    requires q.body != UnknownParts && At(c, s).txs[i].prack == PRACKExpected
    ensures var (l, p) := (At(c, s), At(c, Other(s)));
            var j := CopyOf(l.txs[i], p);
            Step(c, RequestIn(s, q, w)) ==
            Put(Put(c, s, l.(txs := l.txs[i := Took(l.txs[i], q, 200)])), Other(s),
                if l.linked && j.Some? && p.txs[j.value].kind == PRACK then PRACKSent(p, j.value, w.d) else p)
  {
    hide SendReply, RelayPRACK, PRACKSent, IsNew;
    PRACKTaken(c, s, q, i, w);
    TookExactly(c, s, q, i, 200, w);
    var l := At(c, s);
    PRACKRelayed(Put(c, s, l.(txs := l.txs[i := Took(l.txs[i], q, 200)])), s, i, w);
  }

  lemma PRACKRelayed(c: Call, s: Side, i: nat, w: World)
    requires i < |At(c, s).txs|
    ensures var (l, p) := (At(c, s), At(c, Other(s)));
            var j := CopyOf(l.txs[i], p);
            RelayPRACK(c, s, i, w) ==
            Put(c, Other(s),
                if l.linked && j.Some? && p.txs[j.value].kind == PRACK then PRACKSent(p, j.value, w.d) else p)
  {
    hide SendPrack, PRACKSent;
    var p := At(c, Other(s));
    var j := CopyOf(At(c, s).txs[i], p);
    if j.Some? {
      SentExactly(p, j.value, w.d);
    }
  }

  lemma NamedFirst(l: Leg, q: Request, i: nat)
    requires FirstNamed(l, q, i)
    ensures q.rack.RAck? && PrackFor(l, q.rack.rseq) == Some(i)
  {
    assert forall k :: 0 <= k < i ==> !Names(l.txs[k], q.rack);
  }

  lemma SentExactly(p: Leg, j: nat, d: Draws)
    requires j < |p.txs|
    ensures SendPrack(p, j, d) == PRACKSent(p, j, d)
  {
    SentPrack(p, j, d);
    SentNew(p, PRACK, None, false, d);
  }
}
