/** Mid-dialogue offers: forwarded transactions are linked both ways, and at most one forwarded
    offer is open at a time (section 14.2 of RFC 3261, section 5.2 of RFC 3311). */
module Offers {
  import opened SessionState
  import opened SipTypes
  import opened Moves
  import opened Evolution
  import opened Session
  import opened SessionKeeps
  import opened Stack
  import opened CallKeeps

  // ----- links

  /** Transaction u of the linked leg is the other end of transaction i, which is t. */
  predicate Mates(t: Tx, i: nat, u: Tx, sameKind: bool) {
    u.kind.CarriesOffer() && u.dir != t.dir && u.link == Some(There(i)) && (sameKind ==> u.kind == t.kind)
  }

  predicate LinksFrom(a: Leg, b: Leg, sameKind: bool) {
    forall i :: 0 <= i < |a.txs| && a.txs[i].kind.CarriesOffer() ==>
      && (a.txs[i].dir == OUTBOUND ==> a.txs[i].link.Some?)
      && (a.txs[i].link.Some? ==>
            && a.txs[i].link.value.There? && a.txs[i].link.value.j < |b.txs|
            && Mates(a.txs[i], i, b.txs[a.txs[i].link.value.j], sameKind))
  }

  predicate Links(c: Call) {
    && LinksFrom(c.ingress, c.egress, c.flow != EarlyToFinal)
    && LinksFrom(c.egress, c.ingress, c.flow != EarlyToFinal)
  }

  lemma LinksMate(c: Call)
    requires Links(c)
    ensures AllMate(c, Ingress) && AllMate(c, Egress)
  {
  }

  lemma LinksFromKept(a: Leg, b: Leg, a': Leg, b': Leg, sameKind: bool)
    requires LinksFrom(a, b, sameKind) && LinksFrom(b, a, sameKind)
    requires Grows(a, a') && Quiet(a, a') && Grows(b, b') && Quiet(b, b')
    ensures LinksFrom(a', b', sameKind)
  {
    forall i | 0 <= i < |a'.txs| && a'.txs[i].kind.CarriesOffer()
      ensures a'.txs[i].dir == OUTBOUND ==> a'.txs[i].link.Some?
      ensures a'.txs[i].link.Some? ==>
                && a'.txs[i].link.value.There? && a'.txs[i].link.value.j < |b'.txs|
                && Mates(a'.txs[i], i, b'.txs[a'.txs[i].link.value.j], sameKind)
    {
      if i < |a.txs| {
        assert TxGrows(a.txs[i], a'.txs[i]);
        if a.txs[i].link.Some? {
          var j := a.txs[i].link.value.j;
          assert TxGrows(b.txs[j], b'.txs[j]);
        }
      }
    }
  }

  lemma QuietKeepsLinks(c: Call, d: Call)
    requires Links(c) && CallQuiet(c, d)
    ensures Links(d)
  {
    LinksFromKept(c.ingress, c.egress, d.ingress, d.egress, c.flow != EarlyToFinal);
    LinksFromKept(c.egress, c.ingress, d.egress, d.ingress, c.flow != EarlyToFinal);
  }

  // ----- open offers

  /** A forwarded offer is open from its arrival until its ACK (re-INVITE) or until the final
      response to the request it was forwarded as (UPDATE). */
  predicate Open(a: Leg, b: Leg, i: nat) {
    && i < |a.txs| && a.txs[i].dir == INBOUND && a.txs[i].kind.CarriesOffer()
    && a.txs[i].link.Some? && a.txs[i].link.value.There? && a.txs[i].link.value.j < |b.txs|
    && (if a.txs[i].kind == ReINVITE then !a.txs[i].isACKed else !b.txs[a.txs[i].link.value.j].isFinalized)
  }

  predicate OpenAt(c: Call, s: Side, i: nat) { Open(At(c, s), At(c, Other(s)), i) }

  ghost predicate AtMostOneOpen(c: Call) {
    forall s, i, s', i' :: OpenAt(c, s, i) && OpenAt(c, s', i') ==> s == s' && i == i'
  }

  /** While an offer is open, the leg it came from is marked as changing the dialogue. */
  ghost predicate Guarded(c: Call) {
    forall s, i :: OpenAt(c, s, i) ==> At(c, s).dialogueChanging
  }

  ghost predicate NoneOpen(c: Call) {
    forall s, i :: !OpenAt(c, s, i)
  }

  /** The flow fixes whether the egress leg may turn an early answer into a final one. */
  predicate FlowKept(c: Call) {
    !c.ingress.transformEarlyToFinal && (c.flow != EarlyToFinal ==> !c.egress.transformEarlyToFinal)
  }

  ghost predicate LinkInv(c: Call) { SoundCall(c) && FlowKept(c) && Links(c) }

  lemma InvIsSound(c: Call)
    requires LinkInv(c)
    ensures SoundCall(c)
  {
  }

  /** Outside the early-to-final flow at most one offer is open, and it is guarded. */
  ghost predicate Exclusive(c: Call) {
    c.flow != EarlyToFinal ==> Guarded(c) && AtMostOneOpen(c)
  }

  /** A quiet step opens nothing. */
  lemma QuietOpensNothing(c: Call, d: Call, s: Side, i: nat)
    requires Links(c) && CallQuiet(c, d) && OpenAt(d, s, i)
    ensures OpenAt(c, s, i)
  {
    var a, a', b, b' := At(c, s), At(d, s), At(c, Other(s)), At(d, Other(s));
    assert i < |a.txs|;
    assert TxGrows(a.txs[i], a'.txs[i]);
    var j := a.txs[i].link.value.j;
    assert TxGrows(b.txs[j], b'.txs[j]);
  }

  /** No ACK was sent astray. */
  ghost predicate Neat(c: Call, d: Call) {
    Reaches(c.ingress, d.ingress, true) && Reaches(c.egress, d.egress, true)
  }

  lemma NeatTrans(c: Call, c1: Call, d: Call)
    requires Neat(c, c1) && Neat(c1, d)
    ensures Neat(c, d)
  {
    ReachesTrans(c.ingress, c1.ingress, d.ingress, true);
    ReachesTrans(c.egress, c1.egress, d.egress, true);
  }

  lemma QuietKeepsOffers(c: Call, d: Call)
    requires LinkInv(c) && CallQuiet(c, d)
    ensures LinkInv(d) && Neat(c, d) && d.flow == c.flow
    ensures Exclusive(c) ==> Exclusive(d)
    ensures NoneOpen(c) ==> NoneOpen(d)
  {
    QuietKeepsLinks(c, d);
    forall s, i: nat | OpenAt(d, s, i)
      ensures OpenAt(c, s, i)
    {
      QuietOpensNothing(c, d, s, i);
    }
  }

  // ----- forwarding

  /** A forwarded transaction and its copy name each other; all other links stay. */
  lemma ForwardedEnds(c: Call, s: Side, i: nat, m: Method, w: World)
    requires i < |At(c, s).txs|
    ensures var d, j := Forward(c, s, i, m, w), |At(c, Other(s)).txs|;
            && |At(d, s).txs| == |At(c, s).txs| && |At(d, Other(s)).txs| == j + 1
            && At(d, s).txs[i] == At(c, s).txs[i].(link := Some(There(j)))
            && At(d, Other(s)).txs[j].link == Some(There(i))
            && At(d, Other(s)).txs[j].kind == m && At(d, Other(s)).txs[j].dir == OUTBOUND
            && (forall k :: 0 <= k < |At(c, s).txs| && k != i ==> At(d, s).txs[k] == At(c, s).txs[k])
            && (forall k :: 0 <= k < j ==> At(d, Other(s)).txs[k] == At(c, Other(s)).txs[k])
            && d.flow == c.flow && At(d, s).dialogueChanging == At(c, s).dialogueChanging
  {
    hide SendNew, NextCSeq;
    SentNew(At(c, Other(s)), m, Some(i), false, w.d);
  }

  /** An offer that has just come in. */
  predicate NewOffer(c: Call, s: Side, i: nat) {
    i < |At(c, s).txs| && At(c, s).txs[i].dir == INBOUND && At(c, s).txs[i].kind.CarriesOffer()
    && At(c, s).txs[i].link.None?
  }

  lemma ForwardLinks(c: Call, s: Side, i: nat, m: Method, w: World)
    requires Links(c) && NewOffer(c, s, i) && m.CarriesOffer()
    requires c.flow != EarlyToFinal ==> m == At(c, s).txs[i].kind
    ensures Links(Forward(c, s, i, m, w))
  {
    var d := Forward(c, s, i, m, w);
    var o := Other(s);
    var same := c.flow != EarlyToFinal;
    ForwardedEnds(c, s, i, m, w);
    LinkedByForward(At(c, s), At(c, o), At(d, s), At(d, o), i, same);
    CopiedByForward(At(c, s), At(c, o), At(d, s), At(d, o), i, same);
  }

  /** What forwarding transaction i of leg a to leg b does to the two lists. */
  predicate Forwarding(a: Leg, b: Leg, a': Leg, b': Leg, i: nat) {
    && i < |a.txs| == |a'.txs| && |b'.txs| == |b.txs| + 1
    && a'.txs[i] == a.txs[i].(link := Some(There(|b.txs|)))
    && b'.txs[|b.txs|].link == Some(There(i)) && b'.txs[|b.txs|].dir == OUTBOUND && b'.txs[|b.txs|].kind.CarriesOffer()
    && (forall k :: 0 <= k < |a.txs| && k != i ==> a'.txs[k] == a.txs[k])
    && (forall k :: 0 <= k < |b.txs| ==> b'.txs[k] == b.txs[k])
  }

  lemma LinkedByForward(a: Leg, b: Leg, a': Leg, b': Leg, i: nat, same: bool)
    requires LinksFrom(a, b, same) && Forwarding(a, b, a', b', i) && a.txs[i].dir == INBOUND
    requires same ==> b'.txs[|b.txs|].kind == a.txs[i].kind
    ensures LinksFrom(a', b', same)
  {
  }

  lemma CopiedByForward(a: Leg, b: Leg, a': Leg, b': Leg, i: nat, same: bool)
    requires LinksFrom(b, a, same) && Forwarding(a, b, a', b', i)
    requires a.txs[i].dir == INBOUND && a.txs[i].kind.CarriesOffer() && a.txs[i].link.None?
    requires same ==> b'.txs[|b.txs|].kind == a.txs[i].kind
    ensures LinksFrom(b', a', same)
  {
  }

  lemma ForwardNeat(c: Call, s: Side, i: nat, m: Method, w: World)
    requires SoundCall(c) && NewOffer(c, s, i) && m in {ReINVITE, UPDATE}
    ensures Neat(c, Forward(c, s, i, m, w)) && Forward(c, s, i, m, w).flow == c.flow
  {
    SendNewKeeps(At(c, Other(s)), m, Some(i), false, w.d);
    SetLinkKeeps(At(c, s), i, |At(c, Other(s)).txs|);
  }

  lemma ForwardOpens(c: Call, s: Side, i: nat, m: Method, w: World)
    requires Links(c) && NoneOpen(c) && NewOffer(c, s, i) && m.CarriesOffer()
    ensures forall s', k: nat :: OpenAt(Forward(c, s, i, m, w), s', k) ==> s' == s && k == i
  {
    forall s', k: nat | OpenAt(Forward(c, s, i, m, w), s', k)
      ensures s' == s && k == i
    {
      if s' != s || k != i {
        OthersStayClosed(c, s, i, m, w, s', k);
      }
    }
  }

  lemma OthersStayClosed(c: Call, s: Side, i: nat, m: Method, w: World, s': Side, k: nat)
    requires Links(c) && NewOffer(c, s, i) && m.CarriesOffer() && (s' != s || k != i)
    ensures OpenAt(Forward(c, s, i, m, w), s', k) ==> OpenAt(c, s', k)
  {
    hide Forward;
    ForwardedEnds(c, s, i, m, w);
    var d := Forward(c, s, i, m, w);
    if OpenAt(d, s', k) {
      assert At(d, s').txs[k] == At(c, s').txs[k];
    }
  }

  /** Neither leg was changing the dialogue, so no offer was open; now this one may be. */
  lemma ForwardedKeeps(c: Call, s: Side, i: nat, q: Request, m: Method, w: World)
    requires LinkInv(c) && Received(c, s, i, q) && q.kind.CarriesOffer()
             && At(c, s).dialogueChanging && m.CarriesOffer()
    requires c.flow != EarlyToFinal ==> m == q.kind
    ensures var d := Forward(c, s, i, m, w);
            LinkInv(d) && Neat(c, d) && d.flow == c.flow && (c.flow != EarlyToFinal && NoneOpen(c) ==> Exclusive(d))
  {
    ForwardDecent(c, s, i, m, w);
    ForwardNeat(c, s, i, m, w);
    ForwardLinks(c, s, i, m, w);
    if c.flow != EarlyToFinal && NoneOpen(c) {
      ForwardOpens(c, s, i, m, w);
      ForwardedEnds(c, s, i, m, w);
    }
  }

  lemma ForwardOfferKeeps(c: Call, s: Side, i: nat, q: Request, w: World)
    requires LinkInv(c) && Received(c, s, i, q) && q.kind.CarriesOffer() && At(c, s).dialogueChanging
    ensures var d := ForwardOffer(c, s, i, q, w);
            && LinkInv(d) && Neat(c, d) && d.flow == c.flow
            && (Exclusive(c) && (c.flow != EarlyToFinal ==> NoneOpen(c)) ==> Exclusive(d))
  {
    if q.kind == ReINVITE && At(c, Other(s)).transformEarlyToFinal {
      if q.body.WithSDP? {
        ForwardedKeeps(c, s, i, q, UPDATE, w);
      } else {
        SendReplyQuiet(c, s, Some(i), 488, NoBody, w);
        QuietKeepsOffers(c, SendReply(c, s, Some(i), 488, NoBody, w));
      }
    } else {
      ForwardedKeeps(c, s, i, q, q.kind, w);
    }
  }

  lemma LinkedOfferKeeps(c: Call, s: Side, i: nat, q: Request, w: World)
    requires LinkInv(c) && Received(c, s, i, q) && q.kind.CarriesOffer() && Alive(c, s) && At(c, s).linked
    ensures var d := HandleOffer(c, s, i, q, w);
            LinkInv(d) && Neat(c, d) && d.flow == c.flow && (Exclusive(c) ==> Exclusive(d))
  {
    var c1 := Flag(c, s, true);
    RaiseCalm(c, s);
    QuietKeepsOffers(c, c1);
    if At(c, s).dialogueChanging || At(c1, Other(s)).dialogueChanging {
      SendReplyQuiet(c1, s, Some(i), 491, NoBody, w);
      QuietKeepsOffers(c1, SendReply(c1, s, Some(i), 491, NoBody, w));
    } else {
      assert Exclusive(c) && c.flow != EarlyToFinal ==> NoneOpen(c);
      ForwardOfferKeeps(c1, s, i, q, w);
    }
    NeatTrans(c, c1, HandleOffer(c, s, i, q, w));
  }

  lemma HandleOfferKeeps(c: Call, s: Side, i: nat, q: Request, w: World)
    requires LinkInv(c) && Received(c, s, i, q) && q.kind.CarriesOffer() && Alive(c, s)
    ensures var d := HandleOffer(c, s, i, q, w);
            LinkInv(d) && Neat(c, d) && d.flow == c.flow && (Exclusive(c) ==> Exclusive(d))
  {
    if !At(c, s).linked {
      AnswerOfferCalm(c, s, i, q, w);
      QuietKeepsOffers(c, AnswerOffer(c, s, i, q, w));
    } else {
      LinkedOfferKeeps(c, s, i, q, w);
    }
  }

  /** The call lets an offer of leg s through, and as what. */
  predicate LetsThrough(c: Call, s: Side, q: Request) {
    && At(c, s).linked && !c.ingress.dialogueChanging && !c.egress.dialogueChanging
    && (q.kind == ReINVITE && At(c, Other(s)).transformEarlyToFinal ==> q.body.WithSDP?)
  }

  function ForwardedAs(c: Call, s: Side, q: Request): Method {
    if q.kind == ReINVITE && At(c, Other(s)).transformEarlyToFinal then UPDATE else q.kind
  }

  /** The offer is copied to the other leg and sent there; both name each other, and its leg is marked. */
  predicate PassedOn(a: Leg, b: Leg, a': Leg, b': Leg, i: nat, m: Method)
    requires i < |a.txs|
  {
    && a' == SetLink(a.(dialogueChanging := true), i, |b.txs|)
    && |b'.txs| == |b.txs| + 1 && b'.txs[..|b.txs|] == b.txs
    && (var t := b'.txs[|b.txs|];
        t.kind == m && t.dir == OUTBOUND && t.link == Some(There(i)) && b'.sent == b.sent + [Sending(m, t.cseq)])
  }

  /** An incoming offer is passed on exactly if the call lets it through. Otherwise the other leg is left
      alone and the offer is answered here: 491 when either leg is changing the dialogue. */
  lemma OfferOutcome(c: Call, s: Side, i: nat, q: Request, w: World)
    requires i < |At(c, s).txs| && q.kind.CarriesOffer()
    ensures var (a, b) := (At(c, s), At(c, Other(s)));
            var d := HandleOffer(c, s, i, q, w);
            var (a', b') := (At(d, s), At(d, Other(s)));
            && (PassedOn(a, b, a', b', i, ForwardedAs(c, s, q)) <==> LetsThrough(c, s, q))
            && (!LetsThrough(c, s, q) ==> b' == b)
            && (a.linked && (a.dialogueChanging || b.dialogueChanging) ==>
                  a' == RespondTo(a.(dialogueChanging := true), i, Reply(491, NoBody)))
  {
    var c1 := Flag(c, s, true);
    Replied(c1, s, i, 491, w);
    if LetsThrough(c, s, q) {
      OfferPassedOn(c, s, i, q, w);
    }
  }

  lemma OfferPassedOn(c: Call, s: Side, i: nat, q: Request, w: World)
    requires i < |At(c, s).txs| && q.kind.CarriesOffer() && LetsThrough(c, s, q)
    ensures var d := HandleOffer(c, s, i, q, w);
            PassedOn(At(c, s), At(c, Other(s)), At(d, s), At(d, Other(s)), i, ForwardedAs(c, s, q))
  {
    hide SendNew, SendReply, NextCSeq;
    SentNew(At(c, Other(s)), ForwardedAs(c, s, q), Some(i), false, w.d);
  }

  lemma Replied(c: Call, s: Side, i: nat, code: Status, w: World)
    requires i < |At(c, s).txs| && !Is18x(code)
    ensures SendReply(c, s, Some(i), code, NoBody, w) == Put(c, s, RespondTo(At(c, s), i, Reply(code, NoBody)))
  {
  }

  // ----- closing

  lemma OfferOverKeeps(c: Call)
    requires LinkInv(c)
    ensures LinkInv(OfferOver(c)) && Neat(c, OfferOver(c))
    ensures NoneOpen(c) ==> NoneOpen(OfferOver(c))
  {
    var d := OfferOver(c);
    OfferOverDecent(c);
    TouchReaches(c.ingress, d.ingress);
    TouchReaches(c.egress, d.egress);
    forall s, i: nat | OpenAt(d, s, i)
      ensures OpenAt(c, s, i)
    {
    }
  }

  /** A quiet step that closes the one open offer leaves none. */
  lemma NoneOpenAfter(c: Call, d: Call, s: Side, i: nat)
    requires LinkInv(c) && Exclusive(c) && c.flow != EarlyToFinal && CallQuiet(c, d)
    requires OpenAt(c, s, i) && !OpenAt(d, s, i)
    ensures NoneOpen(d)
  {
    forall s', k: nat
      ensures !OpenAt(d, s', k)
    {
      if OpenAt(d, s', k) {
        QuietOpensNothing(c, d, s', k);
      }
    }
  }

  /** The ACK of re-INVITE i is passed on to an UPDATE, which takes none. */
  predicate Astray(c: Call, s: Side, i: nat)
    requires i < |At(c, s).txs|
  {
    && At(c, s).linked && LinkOf(c, s, i, Other(s)) && !At(c, Other(s)).transformEarlyToFinal
    && At(c, Other(s)).txs[At(c, s).txs[i].link.value.j].kind == UPDATE
  }

  /** The forwarded re-INVITE was answered with a 2xx. */
  predicate AnsweredWell(c: Call, s: Side, i: nat)
    requires i < |At(c, s).txs|
  {
    At(c, s).linked && LinkOf(c, s, i, Other(s)) && At(c, Other(s)).txs[At(c, s).txs[i].link.value.j].AnyPositive()
  }

  /** The flags are lowered, then the ACK is passed on. */
  lemma LoweringACKKeeps(c: Call, s: Side, i: nat)
    requires LinkInv(c) && i < |At(c, s).txs| && LinkOf(c, s, i, Other(s))
    requires At(c, s).txs[i].kind == ReINVITE && At(c, s).txs[i].dir == INBOUND
    ensures var c1 := OfferOver(c);
            var d := if At(c, Other(s)).transformEarlyToFinal then c1
                     else Ack(c1, Other(s), Some(At(c, s).txs[i].link.value.j));
            && LinkInv(d) && d.flow == c.flow
            && (At(c, Other(s)).txs[At(c, s).txs[i].link.value.j].kind != UPDATE
                || At(c, Other(s)).transformEarlyToFinal ==>
                  Neat(c, d))
            && (c.flow != EarlyToFinal && NoneOpen(c) ==> NoneOpen(d))
  {
    hide SoundCall, SendAck, Links, Exclusive;
    var (c1, j) := (OfferOver(c), At(c, s).txs[i].link.value.j);
    OfferOverKeeps(c);
    MateACKKeeps(c1, s, i);
    if At(c, Other(s)).txs[j].kind != UPDATE {
      NeatTrans(c, c1, Ack(c1, Other(s), Some(j)));
    }
  }

  lemma ClosingACKKeeps(c: Call, s: Side, i: nat)
    requires LinkInv(c) && i < |At(c, s).txs| && At(c, s).txs[i].kind == ReINVITE && At(c, s).txs[i].dir == INBOUND
    ensures var d := HandleOfferACK(c, s, i);
            && LinkInv(d) && (!Astray(c, s, i) ==> Neat(c, d))
            && (Exclusive(c) && (At(c, s).linked && LinkOf(c, s, i, Other(s)) && c.flow != EarlyToFinal
                                ==> NoneOpen(c)) ==>
                  Exclusive(d))
  {
    hide Ack, SoundCall;
    if At(c, s).linked && LinkOf(c, s, i, Other(s)) {
      if AnsweredWell(c, s, i) {
        LoweringACKKeeps(c, s, i);
      } else {
        MateACKKeeps(c, s, i);
      }
    }
  }

  /** The ACK goes to the copy of the re-INVITE; in the early-to-final flow the copy may be an UPDATE. */
  lemma MateACKKeeps(c: Call, s: Side, i: nat)
    requires LinkInv(c) && i < |At(c, s).txs| && LinkOf(c, s, i, Other(s))
    requires At(c, s).txs[i].kind == ReINVITE && At(c, s).txs[i].dir == INBOUND
    ensures var d := Ack(c, Other(s), Some(At(c, s).txs[i].link.value.j));
            && LinkInv(d)
            && (At(c, Other(s)).txs[At(c, s).txs[i].link.value.j].kind != UPDATE ==> Neat(c, d))
            && (Exclusive(c) ==> Exclusive(d)) && (c.flow != EarlyToFinal && NoneOpen(c) ==> NoneOpen(d))
  {
    var o, j := Other(s), At(c, s).txs[i].link.value.j;
    assert Mates(At(c, s).txs[i], i, At(c, o).txs[j], c.flow != EarlyToFinal);
    AckKeeps(c, o, Some(j));
    if c.flow == EarlyToFinal {
      AckKeepsLinks(c, o, j);
    } else {
      QuietKeepsOffers(c, Ack(c, o, Some(j)));
    }
  }

  /** What the ACK of a forwarded re-INVITE becomes: an ACK with the CSeq of the request it was
      forwarded as. In the early-to-final flow that request can be an UPDATE, which takes no ACK. */
  lemma ForwardedACK(c: Call, s: Side, i: nat)
    requires LinkInv(c) && i < |At(c, s).txs| && At(c, s).linked && LinkOf(c, s, i, Other(s))
    requires At(c, s).txs[i].kind == ReINVITE && At(c, s).txs[i].dir == INBOUND
    ensures var t := At(c, Other(s)).txs[At(c, s).txs[i].link.value.j];
            && t.dir == OUTBOUND && (t.kind == ReINVITE || (t.kind == UPDATE && c.flow == EarlyToFinal))
            && At(HandleOfferACK(c, s, i), Other(s)).sent ==
               At(c, Other(s)).sent + if At(c, Other(s)).transformEarlyToFinal then [] else [Sent(ACK, t.cseq, t.kind)]
  {
    assert Mates(At(c, s).txs[i], i, At(c, Other(s)).txs[At(c, s).txs[i].link.value.j], c.flow != EarlyToFinal);
  }

  /** The ACK of a re-INVITE lowers both flags exactly if the re-INVITE was forwarded and answered with a
      2xx; otherwise both stay as they are. */
  lemma ACKLowersFlags(c: Call, s: Side, i: nat)
    requires i < |At(c, s).txs|
    ensures var d := HandleOfferACK(c, s, i);
            && d.ingress.dialogueChanging == (c.ingress.dialogueChanging && !AnsweredWell(c, s, i))
            && d.egress.dialogueChanging == (c.egress.dialogueChanging && !AnsweredWell(c, s, i))
  {
    hide SendAck;
    if LinkOf(c, s, i, Other(s)) {
      var j := At(c, s).txs[i].link.value.j;
      AckKeepsFlag(At(c, Other(s)), j);
      AckKeepsFlag(At(OfferOver(c), Other(s)), j);
    }
  }

  lemma AckKeepsFlag(l: Leg, j: nat)
    requires j < |l.txs|
    ensures SendAck(l, Some(j)).dialogueChanging == l.dialogueChanging
  {
  }

  lemma AckKeepsLinks(c: Call, s: Side, j: nat)
    requires Links(c) && j < |At(c, s).txs|
    ensures Links(Ack(c, s, Some(j)))
  {
    var same := c.flow != EarlyToFinal;
    var (a, b, b') := (At(c, Other(s)), At(c, s), At(Ack(c, s, Some(j)), s));
    assert LinksFrom(a, b, same) && LinksFrom(b, a, same);
    assert LinksFrom(a, b', same);
    assert LinksFrom(b', a, same);
  }

  /** The ACK goes to a re-INVITE of leg s and from there astray. */
  predicate GoesAstray(c: Call, s: Side, q: Request) {
    q.kind == ACK &&
    var t := ReceiveACK(At(c, s), q).1;
    t.Some? && t.value < |At(c, s).txs| && At(c, s).txs[t.value].kind == ReINVITE && Astray(c, s, t.value)
  }

  /** The ACK of a re-INVITE: the transaction was open until this very ACK. */
  lemma OfferACKKeeps(c: Call, s: Side, q: Request)
    requires LinkInv(c) && Alive(c, s) && q.kind == ACK && ReceiveACK(At(c, s), q).1.Some?
    requires At(c, s).txs[ReceiveACK(At(c, s), q).1.value].kind == ReINVITE
    ensures var d := HandleOfferACK(Put(c, s, ReceiveACK(At(c, s), q).0), s, ReceiveACK(At(c, s), q).1.value);
            LinkInv(d) && (!GoesAstray(c, s, q) ==> Neat(c, d)) && (Exclusive(c) ==> Exclusive(d))
  {
    hide HandleOfferACK, Sound;
    var (l, t) := ReceiveACK(At(c, s), q);
    var i := t.value;
    var c1 := Put(c, s, l);
    ReceiveACKCalm(At(c, s), q);
    PutCalm(c, s, l);
    QuietKeepsOffers(c, c1);
    if At(c1, s).linked && LinkOf(c1, s, i, Other(s)) && c.flow != EarlyToFinal && Exclusive(c) {
      assert OpenAt(c, s, i);
      NoneOpenAfter(c, c1, s, i);
    }
    ClosingACKKeeps(c1, s, i);
    if !GoesAstray(c, s, q) {
      NeatTrans(c, c1, HandleOfferACK(c1, s, i));
    }
  }

  lemma RelayAfterOfferKeeps(c: Call, s: Side, i: nat, r: Response, w: World)
    requires LinkInv(c) && Answered(c, s, i)
    ensures var d := RelayBack(OfferOver(c), s, i, r, w);
            LinkInv(d) && Neat(c, d) && d.flow == c.flow && (NoneOpen(c) ==> NoneOpen(d))
  {
    OfferOverKeeps(c);
    RelayBackKeeps(OfferOver(c), s, i, r, w);
    QuietKeepsOffers(OfferOver(c), RelayBack(OfferOver(c), s, i, r, w));
    NeatTrans(c, OfferOver(c), RelayBack(OfferOver(c), s, i, r, w));
  }

  lemma OpenUntilAnswered(c: Call, s: Side, i: nat)
    requires LinkInv(c) && c.flow != EarlyToFinal && Answered(c, s, i)
    requires At(c, s).txs[i].kind == UPDATE && !At(c, s).txs[i].isFinalized
    ensures At(c, s).txs[i].link.Some? && At(c, s).txs[i].link.value.There?
    ensures OpenAt(c, Other(s), At(c, s).txs[i].link.value.j)
  {
  }

  lemma RecordedCloses(c: Call, s: Side, i: nat, r: Response)
    requires LinkInv(c) && Exclusive(c) && c.flow != EarlyToFinal && Answered(c, s, i) && Alive(c, s)
    requires At(c, s).txs[i].kind == UPDATE && !At(c, s).txs[i].isFinalized && r.code >= 200
    ensures NoneOpen(Noted(c, s, i, r))
  {
    RecordQuiet(c, s, i, r);
    OpenUntilAnswered(c, s, i);
    NoneOpenAfter(c, Noted(c, s, i, r), Other(s), At(c, s).txs[i].link.value.j);
  }

  lemma UpdateAnsweredUnfolds(c: Call, s: Side, i: nat, r: Response, w: World)
    requires Answered(c, s, i) && At(c, s).txs[i].kind == UPDATE && IsPositive(r.code)
    ensures HandleResponse(c, s, i, r, w) == if At(c, s).linked then RelayBack(OfferOver(c), s, i, r, w) else c
  {
  }

  /** The 2xx of a forwarded UPDATE that had no final response yet. */
  lemma UpdateAnsweredKeeps(c: Call, s: Side, i: nat, r: Response, w: World)
    requires LinkInv(c) && Answered(c, s, i) && Alive(c, s) && At(c, s).txs[i].kind == UPDATE && IsPositive(r.code)
    ensures var d := HandleResponse(Noted(c, s, i, r), s, i, r, w);
            LinkInv(d) && Neat(c, d) && (Exclusive(c) && !At(c, s).txs[i].isFinalized ==> Exclusive(d))
  {
    hide HandleResponse, RelayBack, Links;
    var c1 := Noted(c, s, i, r);
    RecordQuiet(c, s, i, r);
    QuietKeepsOffers(c, c1);
    NotedAnswers(c, s, i, r);
    UpdateAnsweredUnfolds(c1, s, i, r, w);
    if At(c1, s).linked {
      RelayAfterOfferKeeps(c1, s, i, r, w);
      NeatTrans(c, c1, RelayBack(OfferOver(c1), s, i, r, w));
      if c.flow != EarlyToFinal && Exclusive(c) && !At(c, s).txs[i].isFinalized {
        RecordedCloses(c, s, i, r);
      }
    }
  }

  /** The 2xx of an UPDATE declares every dialogue change over, whichever offer is open. */
  lemma FlagsAreLowered(c: Call, s: Side, i: nat, r: Response, w: World)
    requires i < |At(c, s).txs|
    ensures var d := RelayBack(OfferOver(c), s, i, r, w);
            !d.ingress.dialogueChanging && !d.egress.dialogueChanging && d.flow == c.flow
  {
  }

  /** The 2xx of a forwarded UPDATE on a leg with a peer: both flags are lowered, the UPDATE it answers
      has its final response, and the offer it came from is sent the same 2xx. When it is the first,
      no offer is open any more. */
  lemma UpdateAnsweredOutcome(c: Call, s: Side, i: nat, r: Response, w: World)
    requires LinkInv(c) && Answered(c, s, i) && Alive(c, s) && At(c, s).txs[i].kind == UPDATE && IsPositive(r.code)
    requires At(c, s).linked
    ensures var (d, o) := (HandleResponse(Noted(c, s, i, r), s, i, r, w), Other(s));
            var j := At(c, s).txs[i].link.value.j;
            && !d.ingress.dialogueChanging && !d.egress.dialogueChanging && At(d, s).txs[i].isFinalized
            && j < |At(c, o).txs| && At(d, o).txs == At(c, o).txs[j := At(c, o).txs[j].With(Reply(r.code, r.body))]
            && (Exclusive(c) && c.flow != EarlyToFinal && !At(c, s).txs[i].isFinalized ==> NoneOpen(d))
  {
    hide HandleResponse;
    var c1 := Noted(c, s, i, r);
    var j := At(c, s).txs[i].link.value.j;
    assert Mates(At(c, s).txs[i], i, At(c, Other(s)).txs[j], c.flow != EarlyToFinal);
    UpdateAnsweredUnfolds(c1, s, i, r, w);
    FlagsAreLowered(c1, s, i, r, w);
    RelayedToOffer(OfferOver(c1), s, i, j, r, w);
    if Exclusive(c) && c.flow != EarlyToFinal && !At(c, s).txs[i].isFinalized {
      UpdateLeavesNone(c, s, i, r, w);
    }
  }

  lemma RelayedToOffer(c: Call, s: Side, i: nat, j: nat, r: Response, w: World)
    requires i < |At(c, s).txs| && At(c, s).txs[i].link == Some(There(j)) && j < |At(c, Other(s)).txs| && !Is18x(r.code)
    ensures var d := RelayBack(c, s, i, r, w);
            && At(d, Other(s)).txs == At(c, Other(s)).txs[j := At(c, Other(s)).txs[j].With(Reply(r.code, r.body))]
            && At(d, s).txs == At(c, s).txs
  {
  }

  lemma UpdateLeavesNone(c: Call, s: Side, i: nat, r: Response, w: World)
    requires LinkInv(c) && Answered(c, s, i) && Alive(c, s) && At(c, s).txs[i].kind == UPDATE && IsPositive(r.code)
    requires At(c, s).linked && Exclusive(c) && c.flow != EarlyToFinal && !At(c, s).txs[i].isFinalized
    ensures NoneOpen(HandleResponse(Noted(c, s, i, r), s, i, r, w))
  {
    hide HandleResponse, RelayBack, OfferOver, Exclusive, Links;
    var c1 := Noted(c, s, i, r);
    UpdateAnsweredUnfolds(c1, s, i, r, w);
    RecordedCloses(c, s, i, r);
    RecordQuiet(c, s, i, r);
    QuietKeepsOffers(c, c1);
    NotedAnswers(c, s, i, r);
    RelayAfterOfferKeeps(c1, s, i, r, w);
  }

  // ----- every step

  lemma TakeACKKeepsOffers(c: Call, s: Side, q: Request)
    requires LinkInv(c) && Alive(c, s) && q.kind == ACK && ReceiveACK(At(c, s), q).1.Some?
    ensures var d := HandleACK(Put(c, s, ReceiveACK(At(c, s), q).0), s, ReceiveACK(At(c, s), q).1.value);
            LinkInv(d) && (!GoesAstray(c, s, q) ==> Neat(c, d)) && (Exclusive(c) ==> Exclusive(d))
  {
    var (l, t) := ReceiveACK(At(c, s), q);
    var c1 := Put(c, s, l);
    if l.txs[t.value].kind == INVITE {
      ReceiveACKCalm(At(c, s), q);
      PutCalm(c, s, l);
      HandleACKQuiet(c1, s, t.value);
      QuietKeepsOffers(c, c1);
      QuietKeepsOffers(c1, HandleACK(c1, s, t.value));
      NeatTrans(c, c1, HandleACK(c1, s, t.value));
    } else {
      OfferACKKeeps(c, s, q);
    }
  }

  lemma TakeReInviteKeepsOffers(c: Call, s: Side, i: nat, q: Request, w: World)
    requires LinkInv(c) && Alive(c, s) && Received(c, s, i, q) && q.kind == ReINVITE
    ensures var d := HandleOffer(SendReply(c, s, Some(i), 100, NoBody, w), s, i, q, w);
            LinkInv(d) && Neat(c, d) && d.flow == c.flow && (Exclusive(c) ==> Exclusive(d))
  {
    var c1 := SendReply(c, s, Some(i), 100, NoBody, w);
    SendReplyQuiet(c, s, Some(i), 100, NoBody, w);
    SendReplyLink(c, s, i, 100, NoBody, w);
    QuietKeepsOffers(c, c1);
    HandleOfferKeeps(c1, s, i, q, w);
    NeatTrans(c, c1, HandleOffer(c1, s, i, q, w));
  }

  /** An offer that was just taken in. */
  lemma TakeOfferKeepsOffers(c: Call, s: Side, i: nat, q: Request, w: World)
    requires LinkInv(c) && Alive(c, s) && Received(c, s, i, q) && Bears(q) && q.kind.CarriesOffer()
    ensures var d := HandleRequest(c, s, i, q, w); LinkInv(d) && Neat(c, d) && (Exclusive(c) ==> Exclusive(d))
  {
    if q.kind == ReINVITE {
      TakeReInviteKeepsOffers(c, s, i, q, w);
    } else {
      HandleOfferKeeps(c, s, i, q, w);
    }
  }

  lemma TakeRequestKeepsOffers(c: Call, s: Side, q: Request, w: World)
    requires LinkInv(c) && Alive(c, s) && q.kind != INVITE && Bears(q)
    ensures var d := TakeRequest(c, s, q, w);
            LinkInv(d) && (!GoesAstray(c, s, q) ==> Neat(c, d)) && (Exclusive(c) ==> Exclusive(d))
  {
    hide HandleOffer, SendReply, Reaches;
    var (l, t) := AddIncomingRequest(At(c, s), q);
    var c1 := Put(c, s, l);
    AddIncomingRequestCalm(At(c, s), q);
    PutCalm(c, s, l);
    QuietKeepsOffers(c, c1);
    if t.Some? {
      if q.kind == ACK {
        TakeACKKeepsOffers(c, s, q);
      } else {
        TakeOfferKeepsOffers(c1, s, t.value, q, w);
        NeatTrans(c, c1, TakeRequest(c, s, q, w));
      }
    }
  }

  /** A 2xx for an UPDATE that already had its final response: the peer sends a second one. */
  predicate SecondAnswer(c: Call, e: Event) {
    e.ResponseIn? && IsPositive(e.r.code) &&
    var m := Matched(c, e.s, e.r);
    m.Some? && At(c, e.s).txs[m.value].kind == UPDATE && At(c, e.s).txs[m.value].isFinalized
  }

  /** The ACK of a re-INVITE that was forwarded as an UPDATE, when the other leg no longer turns early
      answers into final ones. */
  predicate StrayACK(c: Call, e: Event) {
    && e.RequestIn? && e.q.body != UnknownParts && !At(c, e.s).disposed && !IsDuplicateRequest(At(c, e.s), e.q)
    && GoesAstray(c, e.s, e.q)
  }

  lemma RequestKeepsOffers(c: Call, s: Side, q: Request, w: World)
    requires LinkInv(c) && Bears(q)
    ensures var d := Step(c, RequestIn(s, q, w));
            LinkInv(d) && (!StrayACK(c, RequestIn(s, q, w)) ==> Neat(c, d)) && (Exclusive(c) ==> Exclusive(d))
  {
    hide TakeRequest, Links, FlowKept;
    if !At(c, s).disposed && !IsDuplicateRequest(At(c, s), q) {
      TakeRequestKeepsOffers(c, s, q, w);
    }
  }

  lemma ResponseKeepsOffers(c: Call, s: Side, r: Response, w: World)
    requires LinkInv(c) && MayBear(c, ResponseIn(s, r, w))
    ensures var d := Step(c, ResponseIn(s, r, w));
            LinkInv(d) && Neat(c, d) && (Exclusive(c) && !SecondAnswer(c, ResponseIn(s, r, w)) ==> Exclusive(d))
  {
    hide HandleResponse, Links, FlowKept;
    OnResponseUnfolds(c, s, r, w);
    UpdateAnsweredKeeps(c, s, Matched(c, s, r).value, r, w);
  }

  /** Every step keeps the links mutual, and sends no ACK astray but a stray one; and outside the
      early-to-final flow it keeps the offers exclusive, unless an UPDATE is answered with a second,
      different 2xx. */
  lemma StepKeepsOffers(c: Call, e: Event)
    requires LinkInv(c)
    ensures LinkInv(Step(c, e)) && (!StrayACK(c, e) ==> Neat(c, Step(c, e)))
    ensures Exclusive(c) && !SecondAnswer(c, e) ==> Exclusive(Step(c, e))
  {
    hide Step, LinkInv, Exclusive, Neat;
    if !MayBear(c, e) {
      InvIsSound(c);
      StepKeeps(c, e);
      QuietKeepsOffers(c, Step(c, e));
    } else if e.RequestIn? {
      RequestKeepsOffers(c, e.s, e.q, e.w);
    } else {
      ResponseKeepsOffers(c, e.s, e.r, e.w);
    }
  }

  // ----- where exclusion fails

  lemma NotedOpen(c: Call, s: Side, i: nat, r: Response, s': Side, k: nat)
    requires Answered(c, s, i) && At(c, s).txs[i].isFinalized && OpenAt(c, s', k)
    ensures OpenAt(Noted(c, s, i, r), s', k)
  {
  }

  lemma RelayedOpen(c: Call, s: Side, i: nat, r: Response, w: World, s': Side, k: nat)
    requires LinkInv(c) && Answered(c, s, i) && At(c, s).txs[i].kind.CarriesOffer() && OpenAt(c, s', k)
             && !Is18x(r.code)
    ensures OpenAt(RelayBack(c, s, i, r, w), s', k)
  {
    hide RelayBack;
    var j := At(c, s).txs[i].link.value.j;
    assert Mates(At(c, s).txs[i], i, At(c, Other(s)).txs[j], c.flow != EarlyToFinal);
    RelayedToOffer(c, s, i, j, r, w);
  }

  /** The step of a 2xx that answers an UPDATE. */
  lemma UpdateAnsweredStep(c: Call, e: Event)
    requires LinkInv(c) && e.ResponseIn? && IsPositive(e.r.code) && Matched(c, e.s, e.r).Some?
    requires At(c, e.s).txs[Matched(c, e.s, e.r).value].kind == UPDATE
    ensures var i := Matched(c, e.s, e.r).value;
            var c1 := Noted(c, e.s, i, e.r);
            && LinkInv(c1) && CallQuiet(c, c1) && Answered(c1, e.s, i) && At(c1, e.s).txs[i].kind == UPDATE
            && Step(c, e) == if At(c, e.s).linked then RelayBack(OfferOver(c1), e.s, i, e.r, e.w) else c1
  {
    var i := Matched(c, e.s, e.r).value;
    OnResponseUnfolds(c, e.s, e.r, e.w);
    RecordQuiet(c, e.s, i, e.r);
    QuietKeepsOffers(c, Noted(c, e.s, i, e.r));
    NotedAnswers(c, e.s, i, e.r);
    UpdateAnsweredUnfolds(Noted(c, e.s, i, e.r), e.s, i, e.r, e.w);
  }

  /** Exactly when exclusion survives a step: always, except when an UPDATE gets a second 2xx
      while another offer is open. */
  lemma ExclusiveUnlessAnsweredTwice(c: Call, e: Event)
    requires LinkInv(c) && Exclusive(c) && c.flow != EarlyToFinal
    ensures Exclusive(Step(c, e)) <==> !(SecondAnswer(c, e) && At(c, e.s).linked && !NoneOpen(c))
  {
    StepKeepsOffers(c, e);
    if SecondAnswer(c, e) {
      if !At(c, e.s).linked || NoneOpen(c) {
        HarmlessSecondAnswer(c, e);
      } else {
        ExclusionLost(c, e);
      }
    }
  }

  lemma ExclusionLost(c: Call, e: Event)
    requires LinkInv(c) && c.flow != EarlyToFinal && SecondAnswer(c, e) && At(c, e.s).linked && !NoneOpen(c)
    ensures !Exclusive(Step(c, e))
  {
    var s, k :| OpenAt(c, s, k);
    AnsweredTwice(c, e, s, k);
    assert !Guarded(Step(c, e));
  }

  lemma HarmlessSecondAnswer(c: Call, e: Event)
    requires LinkInv(c) && Exclusive(c) && SecondAnswer(c, e) && (!At(c, e.s).linked || NoneOpen(c))
    ensures Exclusive(Step(c, e))
  {
    var i := Matched(c, e.s, e.r).value;
    var c1 := Noted(c, e.s, i, e.r);
    UpdateAnsweredStep(c, e);
    QuietKeepsOffers(c, c1);
    if At(c, e.s).linked {
      RelayAfterOfferKeeps(c1, e.s, i, e.r, e.w);
    }
  }

  lemma OverStillOpen(c: Call, s: Side, k: nat)
    requires OpenAt(c, s, k)
    ensures OpenAt(OfferOver(c), s, k)
  {
  }

  lemma AnsweredTwice(c: Call, e: Event, s: Side, k: nat)
    requires LinkInv(c) && SecondAnswer(c, e) && At(c, e.s).linked && OpenAt(c, s, k)
    ensures var d := Step(c, e);
            d.flow == c.flow && OpenAt(d, s, k) && !d.ingress.dialogueChanging && !d.egress.dialogueChanging
  {
    hide Step, RelayBack, OpenAt;
    var i := Matched(c, e.s, e.r).value;
    var c1 := Noted(c, e.s, i, e.r);
    UpdateAnsweredStep(c, e);
    NotedOpen(c, e.s, i, e.r, s, k);
    OfferOverKeeps(c1);
    OverStillOpen(c1, s, k);
    RelayedOpen(OfferOver(c1), e.s, i, e.r, e.w, s, k);
    FlagsAreLowered(c1, e.s, i, e.r, e.w);
  }

  /** An UPDATE that the leg takes in and forwards when nothing is marked as changing. */
  predicate FreeOffer(c: Call, s: Side, q: Request) {
    && q.kind == UPDATE && (q.body.WithSDP? || q.body.NonSDP?)
    && At(c, s).linked && !At(c, s).disposed && !IsDuplicateRequest(At(c, s), q)
    && !c.ingress.dialogueChanging && !c.egress.dialogueChanging
  }

  lemma FreeOfferStep(c: Call, s: Side, q: Request, w: World)
    requires FreeOffer(c, s, q)
    ensures var c1 := Flag(Put(c, s, Append(At(c, s), IncomingTx(q, None))), s, true);
            Step(c, RequestIn(s, q, w)) == Forward(c1, s, |At(c, s).txs|, UPDATE, w)
  {
  }

  /** The failure in full: with an offer open on either leg, an UPDATE answered twice lets the next
      offer through beside it. */
  lemma TwoOffersOpen(c: Call, e: Event, s: Side, k: nat, s': Side, q: Request, w: World)
    requires LinkInv(c) && SecondAnswer(c, e) && At(c, e.s).linked && OpenAt(c, s, k)
    requires FreeOffer(Step(c, e), s', q)
    ensures !AtMostOneOpen(Step(Step(c, e), RequestIn(s', q, w)))
  {
    AnsweredTwice(c, e, s, k);
    StepKeepsOffers(c, e);
    FreeOfferStep(Step(c, e), s', q, w);
    ForwardedBesides(Step(c, e), s, k, s', q, w);
  }

  lemma ForwardedBesides(c: Call, s: Side, k: nat, s': Side, q: Request, w: World)
    requires OpenAt(c, s, k) && FreeOffer(c, s', q)
    ensures var d := Step(c, RequestIn(s', q, w));
            OpenAt(d, s, k) && OpenAt(d, s', |At(c, s').txs|) && k < |At(c, s).txs|
  {
    var c1 := Flag(Put(c, s', Append(At(c, s'), IncomingTx(q, None))), s', true);
    assert OpenAt(c1, s, k) && k < |At(c, s).txs|;
    hide Step, Forward, OpenAt;
    FreeOfferStep(c, s', q, w);
    StaysOpenBeside(c1, s, k, s', |At(c, s').txs|, w);
    OpenOnceForwarded(c1, s', |At(c, s').txs|, w);
  }

  lemma StaysOpenBeside(c: Call, s: Side, k: nat, s': Side, i: nat, w: World)
    requires OpenAt(c, s, k) && i < |At(c, s').txs| && (s != s' || k != i)
    ensures OpenAt(Forward(c, s', i, UPDATE, w), s, k)
  {
    hide Forward;
    ForwardedEnds(c, s', i, UPDATE, w);
  }

  lemma OpenOnceForwarded(c: Call, s: Side, i: nat, w: World)
    requires i < |At(c, s).txs| && At(c, s).txs[i].dir == INBOUND && At(c, s).txs[i].kind == UPDATE
    ensures OpenAt(Forward(c, s, i, UPDATE, w), s, i)
  {
    SentNew(At(c, Other(s)), UPDATE, Some(i), false, w.d);
  }
}
