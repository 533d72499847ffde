/** What every request within a dialogue, but CANCEL and BYE, does to the two legs. */
module Requests {
  import opened SessionState
  import opened SipTypes
  import opened Evolution
  import opened Session
  import opened Stack
  import opened CallKeeps
  import opened Changes

  // ----- requests that join the list

  /** The requests that are listed as they come. */
  predicate Listed(q: Request) { q.kind !in {INVITE, ACK, CANCEL, BYE, PRACK} }

  /** The leg with the new request and the responses to it. */
  function Answering(l: Leg, q: Request, rs: seq<Reply>): Leg { l.(txs := l.txs + [Came(q, None, rs)]) }

  lemma ListedRequest(c: Call, s: Side, q: Request, w: World)
    requires IsNew(At(c, s), q) && Listed(q)
    ensures var l := At(c, s);
            Step(c, RequestIn(s, q, w)) ==
            HandleRequest(Put(c, s, l.(txs := l.txs + [IncomingTx(q, None)])), s, |l.txs|, q, w)
  {
    hide HandleRequest;
    NewExactly(At(c, s), q);
  }

  lemma AnswersIt(c: Call, s: Side, q: Request, code: Status, w: World)
    requires !Is18x(code)
    ensures var l := At(c, s);
            SendReply(Put(c, s, l.(txs := l.txs + [IncomingTx(q, None)])), s, Some(|l.txs|), code, NoBody, w) ==
            Put(c, s, Answering(l, q, [Bare(code)]))
  {
    var l := At(c, s);
    CameAnswered(Put(c, s, l.(txs := l.txs + [IncomingTx(q, None)])), s, q, None, l.txs, code, w);
  }

  // ----- requests that are answered here

  /** The code a request gets that neither ends its leg nor concerns the other one; a REFER to a leg that has no peer
      any more gets none. */
  function LocalAnswer(c: Call, s: Side, q: Request, w: World): Option<Status> {
    var (l, p) := (At(c, s), At(c, Other(s)));
    if q.body == UnknownParts then Some(415)
    else match q.kind
      case UPDATE => if q.body == NoBody then Some(200) else None
      case NOTIFY => Some(405)
      case OPTIONS => if q.outOfDialogue then None else Some(200)
      case REFER =>
        if l.state != Established then Some(480)
        else if !l.linked then None
        else if p.state != Established then Some(480)
        else Some(if w.referOk then 200 else 400)
      case _ => None
  }

  lemma AnsweredLocally(c: Call, s: Side, q: Request, w: World)
    requires IsNew(At(c, s), q) && Listed(q) && LocalAnswer(c, s, q, w).Some?
    ensures Step(c, RequestIn(s, q, w)) == Put(c, s, Answering(At(c, s), q, [Bare(LocalAnswer(c, s, q, w).value)]))
  {
    hide SendReply, HandleOffer, AddIncomingRequest;
    ListedRequest(c, s, q, w);
    AnswersIt(c, s, q, LocalAnswer(c, s, q, w).value, w);
  }

  /** A REFER to an established leg without a peer, and an INFO without one, get no answer. */
  lemma LeftUnanswered(c: Call, s: Side, q: Request, w: World)
    requires IsNew(At(c, s), q) && q.body != UnknownParts && !At(c, s).linked
    requires q.kind == INFO || (q.kind == REFER && At(c, s).state == Established)
    ensures Step(c, RequestIn(s, q, w)) == Put(c, s, Answering(At(c, s), q, []))
  {
    ListedRequest(c, s, q, w);
  }

  // ----- requests that end their leg

  /** The state in which a request leaves the leg it ends, and its answer. */
  function Ending(q: Request, w: World): Option<(State, Status)> {
    if q.body == UnknownParts then None
    else match q.kind
      case OPTIONS => if q.outOfDialogue then Some((Probed, 200)) else None
      case REGISTER =>
        (match w.registration
         case BadContact => Some((Dropped, 400))
         case Expired => Some((Unregistered, 200))
         case Refreshed => Some((Registered, 200)))
      case SUBSCRIBE => Some((Dropped, 405))
      case MESSAGE => Some((Dropped, 405))
      case PUBLISH => Some((Dropped, 405))
      case NEGOTIATE => Some((Dropped, 405))
      case _ => None
  }

  lemma EndExactly(c: Call, s: Side, q: Request, state: State, code: Status, w: World)
    requires code >= 200
    ensures var l := At(c, s);
            End(Put(c, s, l.(txs := l.txs + [IncomingTx(q, None)])), s, state, |l.txs|, code, w) ==
            Put(c, s, Answering(l, q, [Bare(code)]).(state := state, disposed := true))
  {
    hide SendReply;
    AnswersIt(Put(c, s, At(c, s).(state := state)), s, q, code, w);
  }

  lemma EndsItsOwnLeg(c: Call, s: Side, q: Request, w: World)
    requires IsNew(At(c, s), q) && Ending(q, w).Some?
    ensures var (state, code) := Ending(q, w).value;
            Step(c, RequestIn(s, q, w)) ==
            Put(c, s, Answering(At(c, s), q, [Bare(code)]).(state := state, disposed := true))
  {
    hide End, Answering, Step;
    var (state, code) := Ending(q, w).value;
    ListedRequest(c, s, q, w);
    EndExactly(c, s, q, state, code, w);
  }

  // ----- requests that are forwarded

  /** A request on leg p that forwards transaction i of the other one: the next number, a new branch. */
  function Forwards(p: Leg, m: Method, i: nat, d: Draws): Leg {
    var n := NextOf(p, d);
    p.(txs := p.txs + [Tx(m, OUTBOUND, n, p.branches + 1, 0, PRACKExpected, Some(There(i)), [],
                          false, false, true, false)],
       sent := p.sent + [Sent(m, n, m)], branches := p.branches + 1,
       fwdCSeq := if p.dir == OUTBOUND then n else p.fwdCSeq,
       bwdCSeq := if p.dir == OUTBOUND then p.bwdCSeq else n)
  }

  lemma ForwardExactly(c: Call, s: Side, q: Request, rs: seq<Reply>, m: Method, w: World)
    ensures var (l, p) := (At(c, s), At(c, Other(s)));
            Forward(Put(c, s, Answering(l, q, rs)), s, |l.txs|, m, w) ==
            Put(Put(c, s, l.(txs := l.txs + [Came(q, Some(There(|p.txs|)), rs)])),
                Other(s), Forwards(p, m, |l.txs|, w.d))
  {
    hide SendNew;
    SentNew(At(c, Other(s)), m, Some(|At(c, s).txs|), false, w.d);
  }

  /** An INFO goes on to the other leg; nothing answers it. */
  lemma InfoForwarded(c: Call, s: Side, q: Request, w: World)
    requires IsNew(At(c, s), q) && q.kind == INFO && q.body != UnknownParts && At(c, s).linked
    ensures var (l, p) := (At(c, s), At(c, Other(s)));
            Step(c, RequestIn(s, q, w)) ==
            Put(Put(c, s, l.(txs := l.txs + [Came(q, Some(There(|p.txs|)), [])])),
                Other(s), Forwards(p, INFO, |l.txs|, w.d))
  {
    hide Forward;
    ListedRequest(c, s, q, w);
    assert Came(q, None, []) == IncomingTx(q, None);
    ForwardExactly(c, s, q, [], INFO, w);
  }

  // ----- offers

  /** A re-INVITE, or an UPDATE that has a body. */
  predicate IsOffer(q: Request) {
    q.body != UnknownParts && (q.kind == ReINVITE || (q.kind == UPDATE && q.body != NoBody))
  }

  /** What precedes the answer: a re-INVITE is told 100 at once. */
  function Tried(q: Request): seq<Reply> { if q.kind == ReINVITE then [Bare(100)] else [] }

  lemma OfferListed(c: Call, s: Side, q: Request, w: World)
    requires IsNew(At(c, s), q) && IsOffer(q)
    ensures Step(c, RequestIn(s, q, w)) ==
            HandleOffer(Put(c, s, Answering(At(c, s), q, Tried(q))), s, |At(c, s).txs|, q, w)
  {
    hide HandleOffer, SendReply, AddIncomingRequest;
    ListedRequest(c, s, q, w);
    assert Came(q, None, []) == IncomingTx(q, None);
    AnswersIt(c, s, q, 100, w);
  }

  lemma AnswersOffer(c: Call, s: Side, q: Request, r: Reply, w: World)
    requires !Is18x(r.code)
    ensures var l := At(c, s);
            SendReply(Put(c, s, Answering(l, q, Tried(q))), s, Some(|l.txs|), r.code, r.body, w) ==
            Put(c, s, Answering(l, q, Tried(q) + [r]))
  {
    var l := At(c, s);
    var b := Answering(l, q, Tried(q));
    assert SendReply(Put(c, s, b), s, Some(|l.txs|), r.code, r.body, w) == Put(c, s, RespondTo(b, |l.txs|, r));
    assert b.txs[|l.txs|].With(r) == Came(q, None, Tried(q) + [r]);
    assert RespondTo(b, |l.txs|, r).txs == l.txs + [Came(q, None, Tried(q) + [r])];
  }

  /** An offer on a leg without a peer is answered here: with its own description when the answer can be built, and
      else with the code of what went wrong. */
  lemma OfferWithoutPeer(c: Call, s: Side, q: Request, w: World)
    requires IsNew(At(c, s), q) && IsOffer(q) && !At(c, s).linked && w.answer in {200, 400, 488}
    ensures var r := if !q.body.WithSDP? then Bare(488) else if w.answer == 200 then Reply(200, q.body)
                     else Bare(w.answer);
            Step(c, RequestIn(s, q, w)) == Put(c, s, Answering(At(c, s), q, Tried(q) + [r]))
  {
    assert At(Put(c, s, Answering(At(c, s), q, Tried(q))), s).linked == At(c, s).linked;
    hide SendReply, Answering;
    OfferListed(c, s, q, w);
    AnswersOffer(c, s, q, if !q.body.WithSDP? then Bare(488) else if w.answer == 200 then Reply(200, q.body)
                          else Bare(w.answer), w);
  }

  /** An offer is refused with 491 while either leg changes the dialogue; and a re-INVITE without a description with
      488 when the other leg cannot take one. Otherwise it is forwarded, as an UPDATE when a re-INVITE cannot be. The
      flag of its leg is raised in every case. */
  lemma OfferWithPeer(c: Call, s: Side, q: Request, w: World)
    requires IsNew(At(c, s), q) && IsOffer(q) && At(c, s).linked
    ensures var (l, p) := (At(c, s), At(c, Other(s)));
            var (a, d) := (l.(dialogueChanging := true), Step(c, RequestIn(s, q, w)));
            if l.dialogueChanging || p.dialogueChanging then
              d == Put(c, s, Answering(a, q, Tried(q) + [Bare(491)]))
            else if q.kind == ReINVITE && p.transformEarlyToFinal && !q.body.WithSDP? then
              d == Put(c, s, Answering(a, q, Tried(q) + [Bare(488)]))
            else
              d == Put(Put(c, s, a.(txs := l.txs + [Came(q, Some(There(|p.txs|)), Tried(q))])), Other(s),
                       Forwards(p, if p.transformEarlyToFinal then UPDATE else q.kind, |l.txs|, w.d))
  {
    hide SendReply, Forward, Forwards, Came;
    var (l, p) := (At(c, s), At(c, Other(s)));
    var c1 := Put(c, s, l.(dialogueChanging := true));
    OfferListed(c, s, q, w);
    AnswersOffer(c1, s, q, Bare(491), w);
    AnswersOffer(c1, s, q, Bare(488), w);
    ForwardExactly(c1, s, q, Tried(q), if p.transformEarlyToFinal then UPDATE else q.kind, w);
    assert Put(c1, s, Answering(l.(dialogueChanging := true), q, Tried(q))) ==
           Flag(Put(c, s, Answering(l, q, Tried(q))), s, true);
  }
}
