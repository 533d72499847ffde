/** Responses find their request: a response belongs to at most one transaction, and the answer to a
    forwarded offer goes to the offer it was forwarded from (section 17.1.3 of RFC 3261). */
module Relays {
  import opened SessionState
  import opened SipTypes
  import opened Moves
  import opened Books
  import opened Evolution
  import opened Session
  import opened SessionKeeps
  import opened Stack
  import opened CallKeeps
  import opened Offers
  import opened Runs

  /** In every reachable state the books of both legs are in order. */
  lemma BooksInOrder(v: FirstInvite, t: Target, m: Media, w: World, es: seq<Event>, s: Side)
    ensures InOrder(At(After(v, t, m, w, es), s))
  {
    var c := NewCall(v, t, m, w);
    NewCallFresh(v, t, m, w);
    RunKeeps(c, es);
    NewLegInOrder(At(c, s).dir);
    BooksKept(NewLeg(At(c, s).dir), At(c, s), true);
    BooksKept(At(c, s), At(Run(c, es), s), false);
  }

  lemma NotBothMatch(l: Leg, r: Response, i: nat, j: nat)
    requires Branches(l) && i < j < |l.txs|
    ensures !(MatchesResponse(l.txs[i], r) && MatchesResponse(l.txs[j], r))
  {
    assert Distinct(l.txs[i], l.txs[j]);
  }

  /** In every reachable state, on either leg, at most one request that was sent matches a response,
      although a CANCEL has the branch and the CSeq of its INVITE. So taking the first match is
      taking the only one. */
  lemma OneTransactionPerResponse(v: FirstInvite, t: Target, m: Media, w: World, es: seq<Event>,
                                  s: Side, r: Response, i: nat)
    ensures var l := At(After(v, t, m, w, es), s);
            i < |l.txs| && MatchesResponse(l.txs[i], r) ==>
              FindResponse(l, r) == Some(i) && forall j :: 0 <= j < |l.txs| && MatchesResponse(l.txs[j], r) ==> j == i
  {
    hide Run, NewCall, Distinct;
    BooksInOrder(v, t, m, w, es, s);
    var l := At(After(v, t, m, w, es), s);
    if i < |l.txs| && MatchesResponse(l.txs[i], r) {
      forall j: nat | j < |l.txs| && j != i
        ensures !MatchesResponse(l.txs[j], r)
      {
        NotBothMatch(l, r, if i < j then i else j, if i < j then j else i);
      }
    }
  }

  // ----- the answer to a forwarded offer

  /** The response is a final one for a forwarded offer. */
  predicate AnswersOffer(c: Call, s: Side, r: Response) {
    Matched(c, s, r).Some? && At(c, s).txs[Matched(c, s, r).value].kind.CarriesOffer() && r.code >= 200
  }

  predicate Redirects(r: Response) { 300 <= r.code <= 399 }

  /** The position of the linked transaction. */
  function MateOf(t: Tx): nat {
    if t.link.Some? && t.link.value.There? then t.link.value.j else 0
  }

  /** The offer that transaction i of leg s forwards, and which names i in turn. */
  predicate ForwardedFrom(c: Call, s: Side, i: nat, j: nat) {
    && i < |At(c, s).txs| && At(c, s).txs[i].link == Some(There(j)) && j < |At(c, Other(s)).txs|
    && (var u := At(c, Other(s)).txs[j];
        u.kind.CarriesOffer() && u.dir == INBOUND && u.link == Some(There(i)) && At(c, s).txs[i].dir == OUTBOUND
        && (c.flow != EarlyToFinal ==> u.kind == At(c, s).txs[i].kind))
  }

  lemma OfferHasMate(c: Call, s: Side, i: nat)
    requires LinkInv(c) && Answered(c, s, i) && At(c, s).txs[i].kind.CarriesOffer()
    ensures ForwardedFrom(c, s, i, MateOf(At(c, s).txs[i]))
  {
    var j := At(c, s).txs[i].link.value.j;
    assert Mates(At(c, s).txs[i], i, At(c, Other(s)).txs[j], c.flow != EarlyToFinal);
  }

  lemma RelayedToMate(c: Call, s: Side, i: nat, j: nat, r: Response, w: World)
    requires ForwardedFrom(c, s, i, j) && r.code >= 200
    ensures At(RelayBack(c, s, i, r, w), Other(s)) == RespondTo(At(c, Other(s)), j, Reply(r.code, r.body))
  {
  }

  lemma NotedForwarded(c: Call, s: Side, i: nat, j: nat, r: Response)
    requires ForwardedFrom(c, s, i, j)
    ensures var d := Noted(c, s, i, r);
            ForwardedFrom(d, s, i, j) && ForwardedFrom(OfferOver(d), s, i, j) && At(d, Other(s)) == At(c, Other(s))
  {
  }

  /** What the response of leg s does to leg o when it answers the offer that transaction j holds. */
  predicate Delivered(c: Call, d: Call, o: Side, j: nat, r: Response) {
    j < |At(c, o).txs| && At(d, o).txs == At(c, o).txs[j := At(c, o).txs[j].With(Reply(r.code, r.body))]
  }

  lemma AnswerTaken(c: Call, s: Side, i: nat, j: nat, r: Response, w: World)
    requires AnswersOffer(c, s, r) && Matched(c, s, r) == Some(i) && ForwardedFrom(c, s, i, j)
    requires At(c, s).linked && !Redirects(r)
    ensures Delivered(c, Step(c, ResponseIn(s, r, w)), Other(s), j, r)
  {
    var c1 := Noted(c, s, i, r);
    OnResponseUnfolds(c, s, r, w);
    NotedForwarded(c, s, i, j, r);
    RelayedToMate(c1, s, i, j, r, w);
    RelayedToMate(OfferOver(c1), s, i, j, r, w);
  }

  /** A leg that is hung up answers nothing but 503, and only what it was still asked. */
  lemma HungUpTxs(l: Leg, state: State, d: Draws)
    ensures var m := EnterAndBye(l, state, None, d);
            && |m.txs| == |l.txs| + (if ByeFails(l) then 0 else 1)
            && forall k :: 0 <= k < |l.txs| ==> m.txs[k] == l.txs[k] || m.txs[k] == l.txs[k].With(Reply(503, NoBody))
  {
    hide SendNew;
    SentNew(RejectPending(Enter(l, state)), BYE, None, false, d);
  }

  lemma ReleasedNotDelivered(c: Call, d: Call, o: Side, j: nat, r: Response, state: State, w: World)
    requires j < |At(c, o).txs| && Redirects(r)
    requires At(d, o).txs == At(c, o).txs || At(d, o) == EnterAndBye(At(c, o), state, None, w.d)
    ensures !Delivered(c, d, o, j, r)
  {
    hide EnterAndBye;
    var (t, rep) := (At(c, o).txs[j], Reply(r.code, r.body));
    assert t.With(rep).responses[|t.responses|] == rep;
    HungUpTxs(At(c, o), state, w.d);
  }

  /** Releasing a call hangs up the other leg or leaves it alone. */
  lemma ReleasedOther(c: Call, s: Side, w: World)
    ensures var d := ReleaseCall(c, s, w).0;
            At(d, Other(s)) == At(c, Other(s))
            || At(d, Other(s)) == EnterAndBye(At(c, Other(s)), BeingDropped, None, w.d)
  {
    hide EnterAndBye;
  }

  /** A redirection of a forwarded offer releases the call instead of being passed on. */
  lemma RedirectReleases(c: Call, s: Side, i: nat, r: Response, w: World)
    requires AnswersOffer(c, s, r) && Matched(c, s, r) == Some(i) && Redirects(r)
    ensures var c1 := Noted(c, s, i, r);
            Step(c, ResponseIn(s, r, w)) == if At(c, s).linked then ReleaseCall(Finish(c1, s), s, w).0 else c1
  {
    hide ReleaseCall;
    OnResponseUnfolds(c, s, r, w);
  }

  lemma RedirectNotDelivered(c: Call, s: Side, i: nat, j: nat, r: Response, w: World)
    requires AnswersOffer(c, s, r) && Matched(c, s, r) == Some(i) && ForwardedFrom(c, s, i, j) && Redirects(r)
    ensures !Delivered(c, Step(c, ResponseIn(s, r, w)), Other(s), j, r)
  {
    hide Step, ReleaseCall, EnterAndBye, Delivered;
    RedirectReleases(c, s, i, r, w);
    ReleasedOther(Finish(Noted(c, s, i, r), s), s, w);
    ReleasedNotDelivered(c, Step(c, ResponseIn(s, r, w)), Other(s), j, r, BeingDropped, w);
  }

  lemma UnlinkedNotDelivered(c: Call, s: Side, i: nat, j: nat, r: Response, w: World)
    requires AnswersOffer(c, s, r) && Matched(c, s, r) == Some(i) && ForwardedFrom(c, s, i, j) && !At(c, s).linked
    ensures !Delivered(c, Step(c, ResponseIn(s, r, w)), Other(s), j, r)
  {
    var t := At(c, Other(s)).txs[j];
    OnResponseUnfolds(c, s, r, w);
    assert |t.With(Reply(r.code, r.body)).responses| == |t.responses| + 1;
  }

  /** In every reachable state, the final answer to a forwarded re-INVITE or UPDATE is sent, code and
      body, as the answer to the offer it was forwarded from, and to no other request: exactly if the
      leg still has its peer and the answer is no redirection. */
  lemma AnswerReachesItsOffer(v: FirstInvite, t: Target, m: Media, w: World, es: seq<Event>,
                              s: Side, r: Response, w': World)
    requires AnswersOffer(After(v, t, m, w, es), s, r)
    ensures var c := After(v, t, m, w, es);
            var d := After(v, t, m, w, es + [ResponseIn(s, r, w')]);
            var i := Matched(c, s, r).value;
            var j := MateOf(At(c, s).txs[i]);
            && ForwardedFrom(c, s, i, j)
            && (Delivered(c, d, Other(s), j, r) <==> At(c, s).linked && !Redirects(r))
  {
    var c := After(v, t, m, w, es);
    var i := Matched(c, s, r).value;
    var j := MateOf(At(c, s).txs[i]);
    NewCallFresh(v, t, m, w);
    FreshOffers(NewCall(v, t, m, w));
    RunKeepsOffers(NewCall(v, t, m, w), es);
    OfferHasMate(c, s, i);
    OneMore(NewCall(v, t, m, w), es, ResponseIn(s, r, w'));
    if !At(c, s).linked {
      UnlinkedNotDelivered(c, s, i, j, r, w');
    } else if Redirects(r) {
      RedirectNotDelivered(c, s, i, j, r, w');
    } else {
      AnswerTaken(c, s, i, j, r, w');
    }
  }
}
