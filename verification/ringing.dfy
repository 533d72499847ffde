/** What the caller hears while the called party rings: an 18x is passed on as it came, unless the routing record
    forbids its repetition; a reliable one is made reliable for a caller that supports it; and a flow that answers
    early passes on ringing without a body until a session description came. */
module Ringing {
  import opened SessionState
  import opened SipTypes
  import opened Evolution
  import opened Session
  import opened Stack
  import opened CallKeeps
  import opened Changes

  // ----- repeated ringing

  /** An unreliable 18x without a session description is not passed on again: not with the same code when the
      record forbids that, and not after an 18x with another code when it forbids that. */
  predicate NotAgain(rs: seq<Reply>, r: Reply, reliable: bool, rep: Repeats) {
    && !reliable && !r.body.WithSDP?
    && (|| (rep.noSimilar && exists k :: 0 <= k < |rs| && rs[k].code == r.code)
        || (rep.noDifferent && exists k :: 0 <= k < |rs| && 180 <= rs[k].code <= 189 && rs[k].code != r.code))
  }

  /** The caller waits for a final response. */
  predicate Hears(l: Leg) { l.state == BeingEstablished && UnACKed(l) }

  lemma SuppressedExactly(t: Tx, r: Reply, reliable: bool, rep: Repeats)
    requires Is18x(r.code)
    ensures Suppressed(t, r, reliable, rep) <==> NotAgain(t.responses, r, reliable, rep)
  {
    assert t.HasCode(r.code) <==> exists k :: 0 <= k < |t.responses| && t.responses[k].code == r.code;
  }

  // ----- plain ringing

  /** The caller's leg once it was told r, whether or not it had to be. */
  function Rung(l: Leg, r: Reply, rep: Repeats): Leg {
    if UnACKed(l) && !NotAgain(l.txs[0].responses, r, false, rep) then l.(txs := Gains(l.txs, 0, r)) else l
  }

  lemma RungExactly(c: Call, r: Reply, w: World)
    requires SoundCall(c) && Is18x(r.code)
    ensures SendReply(c, Ingress, None, r.code, r.body, w) == c.(ingress := Rung(c.ingress, r, c.repeats))
  {
    var l := c.ingress;
    if UnACKed(l) {
      assert LastUnACKedInvite(l, INBOUND) == Some(0);
      SuppressedExactly(l.txs[0], r, false, c.repeats);
      GainsResponse(l, 0, r);
    }
  }

  lemma RelaysPlainly(c: Call, r: Response, w: World)
    ensures Relay18x(c, Ingress, Reply(r.code, r.body), None, w) == SendReply(c, Ingress, None, r.code, r.body, w)
  {
  }

  /** The called party rings and asks for no PRACK. Exactly the ringing is passed on, with its code and its body, to
      a caller that waits. */
  lemma RingsPlainly(c: Call, r: Response, w: World)
    requires SoundCall(c) && c.egress.state == BeingEstablished && !c.egress.transformEarlyToFinal
    requires Answers(c.egress, r, 0) && 180 <= r.code <= 189 && !r.require100rel
    ensures Step(c, ResponseIn(Egress, r, w)) ==
            Recording(c, Egress, 0, r)
            .(ingress := if c.ingress.state == BeingEstablished then Rung(c.ingress, Reply(r.code, r.body), c.repeats)
                         else c.ingress)
  {
    hide OnPositive, OnRedirect, OnFailure, SendReply, SendResponse;
    var c1 := Recording(c, Egress, 0, r);
    TakenResponse(c, Egress, 0, r, w);
    assert SoundCall(c1);
    RungExactly(c1, Reply(r.code, r.body), w);
    RelaysPlainly(c1, r, w);
  }

  // ----- early answers

  /** In a flow that answers early, ringing without a session description is passed on without any body, and only
      until one with a session description came; that one is the caller's answer. */
  lemma RingsEarly(c: Call, r: Response, w: World)
    requires SoundCall(c) && c.egress.state == BeingEstablished && c.egress.transformEarlyToFinal
    requires Answers(c.egress, r, 0) && 180 <= r.code <= 189
    ensures var (c1, d) := (Recording(c, Egress, 0, r), Step(c, ResponseIn(Egress, r, w)));
            if c.egress.received18xSDP then d == c1
            else if r.body.WithSDP? then
              d == c1.(ingress := Told(c.ingress, Reply(200, r.body)), egress := c1.egress.(received18xSDP := true))
            else d == c1.(ingress := Rung(c.ingress, Bare(r.code), c.repeats))
  {
    hide OnPositive, OnRedirect, OnFailure, SendReply;
    var c1 := Recording(c, Egress, 0, r);
    var c2 := c1.(egress := c1.egress.(received18xSDP := true));
    TakenResponse(c, Egress, 0, r, w);
    assert SoundCall(c1) && SoundCall(c2);
    RungExactly(c1, Bare(r.code), w);
    CallerIsTold(c2, 200, r.body, w);
  }

  /** A leg that is not being set up passes no ringing on. */
  lemma RingsInVain(c: Call, r: Response, w: World)
    requires SoundCall(c) && c.egress.state !in {NotSet, BeingEstablished}
    requires Answers(c.egress, r, 0) && 180 <= r.code <= 189
    ensures Step(c, ResponseIn(Egress, r, w)) == Recording(c, Egress, 0, r)
  {
    hide OnPositive, OnRedirect, OnFailure;
    TakenResponse(c, Egress, 0, r, w);
  }

  // ----- reliable ringing

  /** A caller that supports it is told r reliably: its INVITE has the response, and a transaction waits for the
      PRACK with the next RSeq, linked to the one of the other leg. */
  function RungReliably(l: Leg, r: Reply, owed: nat, d: Draws): Leg {
    if !UnACKed(l) then l
    else if !l.prackSupported then l.(txs := Gains(l.txs, 0, r))
    else l.(rseq := Following(l.rseq, d.rseq),
            txs := Gains(l.txs, 0, r) + [Tx(PRACK, INBOUND, 0, 0, Following(l.rseq, d.rseq), PRACKExpected,
                                            Some(There(owed)),
                                            [], false, false, false, false)])
  }

  /** The PRACK that this router owes the called party, to be sent once the caller's came. */
  function Owed(l: Leg, rseq: nat, link: Option<Ref>): Tx {
    Tx(PRACK, OUTBOUND, 0, l.branches + 1, rseq, PRACKExpected, link, [], false, false, false, false)
  }

  /** The called party rings and asks for a PRACK. One is owed to it, whoever hears of it; a caller that waits is told
      the ringing, repeated or not, with its code and its body; and when it supports reliable ringing, the PRACK
      it is to send and the one that is owed name each other. */
  lemma RingsReliably(c: Call, r: Response, w: World)
    requires SoundCall(c) && c.egress.state == BeingEstablished && !c.egress.transformEarlyToFinal
    requires Answers(c.egress, r, 0) && 180 <= r.code <= 189 && r.require100rel
    ensures var (a, b, c1) := (c.ingress, c.egress, Recording(c, Egress, 0, r));
            var named := Hears(a) && a.prackSupported;
            Step(c, ResponseIn(Egress, r, w)) ==
            c1.(ingress := if a.state == BeingEstablished
                           then RungReliably(a, Reply(r.code, r.body), |b.txs|, w.d) else a,
                egress := c1.egress.(branches := b.branches + 1,
                                     txs := c1.egress.txs +
                                            [Owed(b, r.rseq, if named then Some(There(|a.txs|)) else None)]))
  {
    hide Step, Relay18x, Answers;
    var c1 := Recording(c, Egress, 0, r);
    var c2 := c1.(egress := OwePRACK(c1.egress, r.rseq));
    PRACKIsOwed(c, r, w);
    if c.ingress.state == BeingEstablished {
      RelayedReliably(c2, Reply(r.code, r.body), c.egress, c1.egress.txs, r.rseq, w);
    }
  }

  lemma OwedExactly(l: Leg, rseq: nat)
    requires Sound(l) && l.state != NotSet
    ensures var m := OwePRACK(l, rseq);
            Sound(m) && m == l.(branches := l.branches + 1, txs := l.txs + [Owed(l, rseq, None)])
  {
  }

  lemma PRACKIsOwed(c: Call, r: Response, w: World)
    requires SoundCall(c) && c.egress.state == BeingEstablished && !c.egress.transformEarlyToFinal
    requires Answers(c.egress, r, 0) && 180 <= r.code <= 189 && r.require100rel
    ensures var c1 := Recording(c, Egress, 0, r);
            var c2 := c1.(egress := OwePRACK(c1.egress, r.rseq));
            && SoundCall(c2) && c2.egress.txs == c1.egress.txs + [Owed(c.egress, r.rseq, None)]
            && Step(c, ResponseIn(Egress, r, w)) ==
               if c.ingress.state == BeingEstablished
               then Relay18x(c2, Ingress, Reply(r.code, r.body), Some(|c.egress.txs|), w) else c2
  {
    hide HandleResponse, Relay18x, OwePRACK, Step, Answers, Gains;
    var c1 := Recording(c, Egress, 0, r);
    TakenResponse(c, Egress, 0, r, w);
    RecordedSound(c, r);
    OwedExactly(c1.egress, r.rseq);
    HandledReliably(c1, r, w);
  }

  lemma RecordedSound(c: Call, r: Response)
    requires SoundCall(c) && c.egress.state == BeingEstablished && c.egress.txs != []
    ensures var e := Recording(c, Egress, 0, r).egress;
            SoundCall(Recording(c, Egress, 0, r)) && e == c.egress.(txs := e.txs)
            && |e.txs| == |c.egress.txs| && e.txs[0].kind == c.egress.txs[0].kind
  {
  }

  lemma HandledReliably(c: Call, r: Response, w: World)
    requires c.egress.state == BeingEstablished && !c.egress.transformEarlyToFinal && c.egress.linked
    requires c.egress.txs != [] && c.egress.txs[0].kind == INVITE && 180 <= r.code <= 189 && r.require100rel
    ensures var c2 := c.(egress := OwePRACK(c.egress, r.rseq));
            HandleResponse(c, Egress, 0, r, w) ==
            if c.ingress.state == BeingEstablished
            then Relay18x(c2, Ingress, Reply(r.code, r.body), Some(|c.egress.txs|), w) else c2
  {
    hide Relay18x, OnPositive, OnRedirect, OnFailure;
  }

  lemma RungReliablyExactly(c: Call, r: Reply, owed: nat, w: World)
    requires SoundCall(c) && Is18x(r.code)
    ensures Answer(c.ingress, None, r, Some(owed), c.repeats, w.d) == RungReliably(c.ingress, r, owed, w.d)
  {
    hide RespondTo;
    var l := c.ingress;
    if UnACKed(l) {
      assert LastUnACKedInvite(l, INBOUND) == Some(0);
      GainsResponse(l, 0, r);
      assert !Suppressed(l.txs[0], r, true, c.repeats);
    }
  }

  lemma RelayedReliably(c: Call, r: Reply, b: Leg, txs: seq<Tx>, rseq: nat, w: World)
    requires Sound(c.ingress) && c.ingress.dir == INBOUND && Is18x(r.code) && SoundCall(c)
    requires c.egress.txs == txs + [Owed(b, rseq, None)]
    ensures var a := c.ingress;
            Relay18x(c, Ingress, r, Some(|txs|), w) ==
            c.(ingress := RungReliably(a, r, |txs|, w.d),
               egress := c.egress.(txs := txs + [Owed(b, rseq, if UnACKed(a) && a.prackSupported
                                                               then Some(There(|a.txs|)) else None)]))
  {
    hide Answer, RungReliably, SoundCall, Sound;
    RungReliablyExactly(c, r, |txs|, w);
    OneMoreWaits(c.ingress, r, |txs|, w.d);
    if UnACKed(c.ingress) && c.ingress.prackSupported {
      OwedIsNamed(txs, Owed(b, rseq, None), There(|c.ingress.txs|));
    }
  }

  lemma OneMoreWaits(a: Leg, r: Reply, owed: nat, d: Draws)
    ensures |RungReliably(a, r, owed, d).txs| > |a.txs| <==> UnACKed(a) && a.prackSupported
  {
  }

  lemma OwedIsNamed(txs: seq<Tx>, t: Tx, ref: Ref)
    ensures (txs + [t])[|txs| := t.(link := Some(ref))] == txs + [t.(link := Some(ref))]
  {
  }
}
