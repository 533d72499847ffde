/** What holds of a leg at every moment, and how a leg may change from one moment to a later one. */
module Evolution {
  import opened SessionState
  import opened SipTypes
  import opened Moves

  // ----- what holds at every moment

  /** The requests that can be forwarded to an egress leg that was given up before its INVITE. */
  predicate ForwardedAnyway(t: Tx) {
    t.dir == OUTBOUND && t.kind in {ReINVITE, UPDATE, INFO}
  }

  /** A leg is in a state that has a final form. Its INVITE is its first transaction and its only
      one. A leg has sent a CANCEL, and an ingress leg a BYE, only once it is being ended. Nothing
      cuts the egress leg's link. */
  predicate Sound(l: Leg) {
    && !HasNoFinalForm(l.state)
    && (if l.state == NotSet then forall i :: 0 <= i < |l.txs| ==> ForwardedAnyway(l.txs[i])
        else l.txs != [] && l.txs[0].kind == INVITE && l.txs[0].dir == l.dir)
    && (forall i :: 0 < i < |l.txs| ==> l.txs[i].kind != INVITE)
    && (forall i :: 0 <= i < |l.txs| && l.txs[i].dir == OUTBOUND ==>
          && (l.txs[i].kind == CANCEL ==> l.dir == OUTBOUND && Phase(l.state) >= 3)
          && (l.txs[i].kind == BYE ==> l.dir == OUTBOUND || Phase(l.state) >= 3))
    && (l.dir == OUTBOUND && l.state != NotSet ==> l.linked)
  }

  // ----- how it changes

  predicate TxGrows(a: Tx, b: Tx) {
    && Edited(a, b)
    && a.responses <= b.responses
    && (a.isFinalized ==> b.isFinalized) && (a.isACKed ==> b.isACKed)
    && (a.kind.CarriesOffer() && a.link.Some? ==> b.link == a.link)
  }

  /** Nothing a leg has done is undone, and it never goes back to an earlier phase. */
  predicate Grown(a: Leg, b: Leg) {
    && b.dir == a.dir && Phase(a.state) <= Phase(b.state)
    && (a.disposed ==> b.disposed)
    && (a.received18xSDP ==> b.received18xSDP)
    && (b.transformEarlyToFinal ==> a.transformEarlyToFinal)
    && a.sent <= b.sent
    && |a.txs| <= |b.txs|
    && forall i :: 0 <= i < |a.txs| ==> TxGrows(a.txs[i], b.txs[i])
  }

  /** ... and it got there by moves. */
  ghost predicate Grows(a: Leg, b: Leg) { Grown(a, b) && Reaches(a, b, false) }

  /** No offer is forwarded and no dialogue change is declared over. */
  predicate Still(a: Leg, b: Leg) {
    && (a.dialogueChanging ==> b.dialogueChanging)
    && |a.txs| <= |b.txs|
    && (forall i :: 0 <= i < |a.txs| && a.txs[i].kind.CarriesOffer() ==> b.txs[i].link == a.txs[i].link)
    && (forall i :: |a.txs| <= i < |b.txs| && b.txs[i].kind.CarriesOffer() ==>
          b.txs[i].dir == INBOUND && b.txs[i].link.None?)
  }

  /** ... and no ACK is sent astray. */
  ghost predicate Quiet(a: Leg, b: Leg) { Still(a, b) && Reaches(a, b, true) }

  /** The ingress leg is not answered: its INVITE gets no 2xx, gets no final response while the
      leg is being established, and the leg does not become established. Nor is it cut from its
      peer before it is being ended. */
  predicate Unanswered(a: Leg, b: Leg)
    requires |a.txs| <= |b.txs|
  {
    && (b.state == Established ==> a.state == Established)
    && (Phase(b.state) <= 2 ==> b.linked == a.linked)
    && (|a.txs| > 0 ==>
          && (forall k :: |a.txs[0].responses| <= k < |b.txs[0].responses| ==> !IsPositive(b.txs[0].responses[k].code))
          && (b.state == BeingEstablished && b.txs[0].isFinalized ==> a.txs[0].isFinalized))
  }

  /** The INVITE of the egress leg gets no response, and none has an effect. */
  predicate Idle(a: Leg, b: Leg)
    requires |a.txs| <= |b.txs|
  {
    && b.received18xSDP == a.received18xSDP
    && (b.state == BeingEstablished ==> b.transformEarlyToFinal == a.transformEarlyToFinal)
    && (a.state != NotSet && |a.txs| > 0 ==>
          b.txs[0].responses == a.txs[0].responses && b.txs[0].isFinalized == a.txs[0].isFinalized)
  }

  /** Nobody is answered. */
  predicate Modest(a: Leg, b: Leg) {
    && (b.state == BeingEstablished ==> a.state == BeingEstablished)
    && |a.txs| <= |b.txs|
    && (if a.dir == INBOUND then Unanswered(a, b) else Idle(a, b))
  }

  /** The everyday step of a leg. */
  ghost predicate Calm(a: Leg, b: Leg) {
    Grows(a, b) && Sound(b) && Quiet(a, b) && Modest(a, b)
  }

  /** The same, when an offer may be forwarded. */
  ghost predicate Decent(a: Leg, b: Leg) {
    Grows(a, b) && Sound(b) && Modest(a, b)
  }

  // ----- one change after another

  lemma GrownTrans(a: Leg, b: Leg, c: Leg)
    requires Grown(a, b) && Grown(b, c)
    ensures Grown(a, c)
  {
    forall i | 0 <= i < |a.txs|
      ensures TxGrows(a.txs[i], c.txs[i])
    {
      assert TxGrows(a.txs[i], b.txs[i]) && TxGrows(b.txs[i], c.txs[i]);
    }
  }

  lemma GrowsTrans(a: Leg, b: Leg, c: Leg)
    requires Grows(a, b) && Grows(b, c)
    ensures Grows(a, c)
  {
    GrownTrans(a, b, c);
    ReachesTrans(a, b, c, false);
  }

  lemma StillTrans(a: Leg, b: Leg, c: Leg)
    requires Still(a, b) && Still(b, c) && Grown(a, b) && Grown(b, c)
    ensures Still(a, c)
  {
    forall i | 0 <= i < |a.txs| && a.txs[i].kind.CarriesOffer()
      ensures c.txs[i].link == a.txs[i].link
    {
      assert TxGrows(a.txs[i], b.txs[i]);
    }
    forall i | |a.txs| <= i < |c.txs| && c.txs[i].kind.CarriesOffer()
      ensures c.txs[i].dir == INBOUND && c.txs[i].link.None?
    {
      if i < |b.txs| {
        assert TxGrows(b.txs[i], c.txs[i]);
      }
    }
  }

  lemma QuietTrans(a: Leg, b: Leg, c: Leg)
    requires Quiet(a, b) && Quiet(b, c) && Grown(a, b) && Grown(b, c)
    ensures Quiet(a, c)
  {
    StillTrans(a, b, c);
    ReachesTrans(a, b, c, true);
  }

  lemma ModestTrans(a: Leg, b: Leg, c: Leg)
    requires Grown(a, b) && Grown(b, c) && Modest(a, b) && Modest(b, c)
    ensures Modest(a, c)
  {
    if |a.txs| > 0 {
      assert TxGrows(a.txs[0], b.txs[0]) && TxGrows(b.txs[0], c.txs[0]);
    }
  }

  lemma DecentTrans(a: Leg, b: Leg, c: Leg)
    requires Decent(a, b) && Decent(b, c)
    ensures Decent(a, c)
  {
    GrowsTrans(a, b, c);
    ModestTrans(a, b, c);
  }

  lemma CalmTrans(a: Leg, b: Leg, c: Leg)
    requires Calm(a, b) && Calm(b, c)
    ensures Calm(a, c)
  {
    DecentTrans(a, b, c);
    QuietTrans(a, b, c);
  }
}
