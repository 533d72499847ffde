/** How a call is given up: what a CANCEL and a BYE of either party, the responses to them, an answer that comes
    too late and the timers do to each of the two legs. */
module Hangups {
  import opened SessionState
  import opened SipTypes
  import opened Evolution
  import opened Session
  import opened SessionKeeps
  import opened Stack
  import opened CallKeeps
  import opened Changes

  // ----- CANCEL

  /** What a CANCEL with this number can be for. */
  predicate Cancellable(t: Tx, cseq: nat) {
    t.dir == INBOUND && t.cseq == cseq && t.kind in {INVITE, ReINVITE} && !t.isFinalized
  }

  /** The CANCEL is for transaction i, or for none that is there. */
  predicate IsFor(l: Leg, q: Request, i: Option<nat>) {
    match i
    case None => forall k :: 0 <= k < |l.txs| ==> !Cancellable(l.txs[k], q.cseq)
    case Some(n) =>
      n < |l.txs| && Cancellable(l.txs[n], q.cseq) && forall k :: 0 <= k < n ==> !Cancellable(l.txs[k], q.cseq)
  }

  /** The CANCEL as it is listed, answered with the code. */
  function Cancelling(q: Request, i: Option<nat>, code: Status): Tx {
    Came(q, if i.Some? then Some(Here(i.value)) else None, [Bare(code)])
  }

  /** A CANCEL on another branch than what it is for is ignored. */
  lemma CancelIgnored(c: Call, s: Side, q: Request, i: nat, w: World)
    requires q.kind == CANCEL && IsFor(At(c, s), q, Some(i)) && At(c, s).txs[i].branch != q.branch
    ensures Step(c, RequestIn(s, q, w)) == c
  {
    AimedAt(At(c, s), q, Some(i));
  }

  lemma AimedAt(l: Leg, q: Request, i: Option<nat>)
    requires IsFor(l, q, i)
    ensures ReOrInvite(l, q.cseq, false) == i
  {
    assert forall k :: 0 <= k < |l.txs| ==> (Cancellable(l.txs[k], q.cseq) <==> IsReOrInvite(l.txs[k], q.cseq, false));
  }

  predicate TakesCancel(l: Leg, q: Request, i: Option<nat>) {
    q.kind == CANCEL && IsNew(l, q) && IsFor(l, q, i) && (i.Some? ==> l.txs[i.value].branch == q.branch)
  }

  lemma CancelTaken(c: Call, s: Side, q: Request, i: Option<nat>, w: World)
    requires TakesCancel(At(c, s), q, i)
    ensures var l := At(c, s);
            Step(c, RequestIn(s, q, w)) ==
            HandleRequest(Put(c, s, l.(txs := l.txs + [IncomingTx(q, if i.Some? then Some(Here(i.value)) else None)])),
                          s, |l.txs|, q, w)
  {
    hide HandleRequest;
    NewExactly(At(c, s), q);
    AimedAt(At(c, s), q, i);
  }

  /** A CANCEL after the setup is refused and changes nothing else; so is one with a body of an unknown kind. */
  lemma CancelRefused(c: Call, s: Side, q: Request, i: Option<nat>, w: World)
    requires TakesCancel(At(c, s), q, i) && (q.body == UnknownParts || At(c, s).state != BeingEstablished)
    ensures var l := At(c, s);
            Step(c, RequestIn(s, q, w)) ==
            Put(c, s, l.(txs := l.txs + [Cancelling(q, i, if q.body == UnknownParts then 415 else 400)]))
  {
    hide SendReply, Came, HandleOffer, HandlePlain, IsNew;
    var l := At(c, s);
    var link := if i.Some? then Some(Here(i.value)) else None;
    CancelTaken(c, s, q, i, w);
    var c1 := Put(c, s, l.(txs := l.txs + [IncomingTx(q, link)]));
    CameAnswered(c1, s, q, link, l.txs, if q.body == UnknownParts then 415 else 400, w);
  }

  /** The caller gives up while it waits. The CANCEL is answered 200. A called party that is being set up has its
      INVITE cancelled; one that answered already is hung up, and then the caller's INVITE is not answered; else it
      is, with 487. */
  lemma CallerCancels(c: Call, q: Request, i: Option<nat>, w: World)
    requires SoundCall(c) && c.ingress.state == BeingEstablished
    requires TakesCancel(c.ingress, q, i) && q.body != UnknownParts
    ensures var (a, b, d) := (c.ingress, c.egress, Step(c, RequestIn(Ingress, q, w)));
            var l := a.(state := BeingCancelled, txs := a.txs + [Cancelling(q, i, 200)]);
            && d == c.(ingress := d.ingress, egress := d.egress)
            && (if a.linked && b.state == Established
                then d.ingress == l && HangsUp(b, d.egress, BeingCleared, None, w.d)
                else d.ingress == Told(l, Bare(487)) && d.egress == if a.linked then GivenUp(b) else b)
  {
    hide HandleRequest, CancelPeer, EnterAndBye, GivenUp;
    var a := c.ingress;
    CancelTaken(c, Ingress, q, i, w);
    CancelHandled(c, Ingress, q, i, w);
    CancelListed(a, q, i);
    PeerOfCaller(c.(ingress := a.(state := BeingCancelled, txs := a.txs + [Cancelling(q, i, 200)])), w);
  }

  lemma CancelListed(l: Leg, q: Request, i: Option<nat>)
    requires Sound(l) && q.kind == CANCEL && l.state == BeingEstablished
    ensures Sound(l.(state := BeingCancelled, txs := l.txs + [Cancelling(q, i, 200)]))
  {
  }

  /** The leg whose setup is cancelled. */
  lemma CancelHandled(c: Call, s: Side, q: Request, i: Option<nat>, w: World)
    requires q.kind == CANCEL && q.body != UnknownParts && At(c, s).state == BeingEstablished
    ensures var l := At(c, s);
            var link := if i.Some? then Some(Here(i.value)) else None;
            HandleRequest(Put(c, s, l.(txs := l.txs + [IncomingTx(q, link)])), s, |l.txs|, q, w) ==
            CancelPeer(Put(c, s, l.(state := BeingCancelled, txs := l.txs + [Cancelling(q, i, 200)])), s, w)
  {
    hide HandleCancel, CancelPeer;
    var l := At(c, s);
    var link := if i.Some? then Some(Here(i.value)) else None;
    var c1 := Put(c, s, l.(txs := l.txs + [IncomingTx(q, link)]));
    assert HandleRequest(c1, s, |l.txs|, q, w) == HandleCancel(c1, s, |l.txs|, w);
    CancelAccepted(c, s, q, i, w);
  }

  lemma CancelAccepted(c: Call, s: Side, q: Request, i: Option<nat>, w: World)
    requires At(c, s).state == BeingEstablished
    ensures var l := At(c, s);
            var link := if i.Some? then Some(Here(i.value)) else None;
            HandleCancel(Put(c, s, l.(txs := l.txs + [IncomingTx(q, link)])), s, |l.txs|, w) ==
            CancelPeer(Put(c, s, l.(state := BeingCancelled, txs := l.txs + [Cancelling(q, i, 200)])), s, w)
  {
    hide CancelPeer, SendReply, Came;
    var l := At(c, s);
    var link := if i.Some? then Some(Here(i.value)) else None;
    var c1 := Put(c, s, l.(txs := l.txs + [IncomingTx(q, link)]));
    CameAnswered(To(c1, s, BeingCancelled), s, q, link, l.txs, 200, w);
  }

  /** The other leg when the caller cancelled. */
  lemma PeerOfCaller(c: Call, w: World)
    requires SoundCall(c)
    ensures var (a, b, d) := (c.ingress, c.egress, CancelPeer(c, Ingress, w));
            && d == c.(ingress := d.ingress, egress := d.egress)
            && (if a.linked && b.state == Established
                then d.ingress == a && HangsUp(b, d.egress, BeingCleared, None, w.d)
                else d.ingress == Told(a, Bare(487)) && d.egress == if a.linked then GivenUp(b) else b)
  {
    hide SendReply, EnterAndBye, CancelMe;
    CancelExactly(c.egress);
    CancelLinkedCalm(c, Egress);
    ByeExactly(c.egress, BeingCleared, None, w.d);
    CallerIsTold(c, 487, NoBody, w);
    CallerIsTold(c.(egress := CancelMe(c.egress)), 487, NoBody, w);
  }

  /** A CANCEL that comes from the called party's side ends the setup of that leg; nobody is told 487. The caller
      is hung up when it was answered early. */
  lemma CalleeCancels(c: Call, q: Request, i: Option<nat>, w: World)
    requires SoundCall(c) && c.egress.state == BeingEstablished
    requires TakesCancel(c.egress, q, i) && q.body != UnknownParts
    ensures var (a, b, d) := (c.ingress, c.egress, Step(c, RequestIn(Egress, q, w)));
            && d == c.(ingress := d.ingress,
                       egress := b.(state := BeingCancelled, txs := b.txs + [Cancelling(q, i, 200)]))
            && (if a.state == Established then HangsUp(a, d.ingress, BeingCleared, None, w.d) else d.ingress == a)
  {
    hide HandleRequest, CancelPeer, EnterAndBye;
    var b := c.egress;
    CancelTaken(c, Egress, q, i, w);
    CancelHandled(c, Egress, q, i, w);
    CancelListed(b, q, i);
    PeerOfCallee(c.(egress := b.(state := BeingCancelled, txs := b.txs + [Cancelling(q, i, 200)])), w);
  }

  lemma PeerOfCallee(c: Call, w: World)
    requires SoundCall(c) && c.egress.state != NotSet
    ensures var (a, d) := (c.ingress, CancelPeer(c, Egress, w));
            && d == c.(ingress := d.ingress)
            && (if a.state == Established then HangsUp(a, d.ingress, BeingCleared, None, w.d) else d.ingress == a)
  {
    hide EnterAndBye;
    ByeExactly(c.ingress, BeingCleared, None, w.d);
    assert LastUnACKedInvite(c.egress, INBOUND) == None;
  }

  // ----- BYE

  /** The INVITE of the caller was answered, and the ACK has not come. */
  predicate AwaitsACK(l: Leg) { |l.txs| > 0 && l.txs[0].isFinalized && !l.txs[0].isACKed }

  /** The INVITE of the called party got a 2xx. */
  predicate WasAnswered(l: Leg) {
    |l.txs| > 0 && exists k :: 0 <= k < |l.txs[0].responses| && 200 <= l.txs[0].responses[k].code <= 299
  }

  /** The wait for the caller's ACK is over without one. The leg has timed out if anything was pending. The called
      party, when its leg is still being set up, is acknowledged and hung up if it had answered, and cancelled if
      it had not. */
  ghost predicate NeverACKed(c: Call, d: Call, w: World) {
    var (a, b) := (c.ingress, c.egress);
    && d == c.(ingress := d.ingress, egress := d.egress)
    && d.ingress == (if IsPending(a.state) then a.(state := TimedOut, disposed := true) else a)
    && CalleeGivenUp(a, b, d.egress, w)
  }

  ghost predicate CalleeGivenUp(a: Leg, b: Leg, b': Leg, w: World) {
    if !a.linked || b.state != BeingEstablished then b' == b
    else if !WasAnswered(b) then b' == GivenUp(b)
    else exists m :: Acknowledges(b, m) && HangsUp(m, b', BeingDropped, None, w.d)
  }

  lemma CalleeTold(c: Call, w: World)
    requires SoundCall(c)
    ensures var d := TellPeer(c, Ingress, INBOUND, w);
            d == c.(egress := d.egress) && CalleeGivenUp(c.ingress, c.egress, d.egress, w)
  {
    hide EnterAndBye, SendAck, CancelMe, GivenUp, HangsUp, Acknowledges;
    var b := c.egress;
    CancelExactly(b);
    AckExactly(b);
    ByeExactly(SendAck(b, None), BeingDropped, None, w.d);
    if b.state == BeingEstablished {
      assert WasAnswered(b) <==> b.txs[0].AnyPositive();
    } else {
      NothingToGiveUp(b);
    }
  }

  lemma NeverACKedExactly(c: Call, w: World)
    requires SoundCall(c)
    ensures NeverACKed(c, OnInviteTimeout(c, Ingress, 0, w), w)
  {
    hide TellPeer, HangsUp, Acknowledges, GivenUp, WasAnswered;
    OnlyStateEnded(c.ingress);
    CalleeTold(if IsPending(c.ingress.state) then DropMe(To(c, Ingress, TimedOut), Ingress) else c, w);
  }

  lemma OnlyStateEnded(l: Leg)
    requires Sound(l) && l.dir == INBOUND && l.state != NotSet
    ensures Sound(l.(state := TimedOut, disposed := true))
  {
  }

  /** The link to the BYE that goes out on the other leg. */
  function ByeLink(l: Leg, other: Leg): Option<Ref> {
    if l.linked && other.state == Established && !HeldUp(other) then Some(There(|other.txs|)) else None
  }

  /** A BYE on leg s when nothing awaits an ACK there. */
  predicate ByeDone(c: Call, d: Call, s: Side, q: Request, w: World) {
    var (l, p, p') := (At(c, s), At(c, Other(s)), At(d, Other(s)));
    && d.flow == c.flow && d.repeats == c.repeats
    && if q.body == UnknownParts || l.state != Established then
         && At(d, s) == l.(txs := l.txs + [Came(q, None, [Bare(if q.body == UnknownParts then 415 else 400)])])
         && p' == p
       else
         && At(d, s) == l.(state := Cleared, disposed := true, txs := l.txs + [Came(q, ByeLink(l, p), [Bare(200)])])
         && if l.linked && p.state == Established then HangsUp(p, p', BeingCleared, Some(|l.txs|), w.d)
            else p' == if l.linked && s == Ingress then GivenUp(p) else p
  }

  lemma ByeTaken(c: Call, s: Side, q: Request, w: World)
    requires SoundCall(c) && q.kind == BYE
    ensures ByeDone(c, TakeRequest(c, s, q, w), s, q, w)
  {
    hide TakeRequest, HangsUp, GivenUp;
    if q.body == UnknownParts || At(c, s).state != Established {
      ByeRefused(c, s, q, w);
    } else {
      ByeAccepted(c, s, q, w);
      var l := At(c, s);
      var ended := l.(state := Cleared, disposed := true, txs := l.txs + [Came(q, None, [Bare(200)])]);
      PeerOfBye(Put(c, s, ended), s, q, l.txs, w);
    }
  }

  lemma ByeListed(c: Call, s: Side, q: Request, w: World)
    requires q.kind == BYE
    ensures var l := At(c, s);
            TakeRequest(c, s, q, w) ==
            HandleRequest(Put(c, s, l.(txs := l.txs + [IncomingTx(q, None)])), s, |l.txs|, q, w)
  {
    hide HandleRequest;
  }

  lemma ByeRefused(c: Call, s: Side, q: Request, w: World)
    requires q.kind == BYE && (q.body == UnknownParts || At(c, s).state != Established)
    ensures var l := At(c, s);
            TakeRequest(c, s, q, w) ==
            Put(c, s, l.(txs := l.txs + [Came(q, None, [Bare(if q.body == UnknownParts then 415 else 400)])]))
  {
    hide SendReply, TakeRequest, Came;
    var l := At(c, s);
    var c1 := Put(c, s, l.(txs := l.txs + [IncomingTx(q, None)]));
    ByeListed(c, s, q, w);
    CameAnswered(c1, s, q, None, l.txs, if q.body == UnknownParts then 415 else 400, w);
  }

  lemma ByeAccepted(c: Call, s: Side, q: Request, w: World)
    requires q.kind == BYE && q.body != UnknownParts && At(c, s).state == Established
    ensures var l := At(c, s);
            var ended := l.(state := Cleared, disposed := true, txs := l.txs + [Came(q, None, [Bare(200)])]);
            TakeRequest(c, s, q, w) == ByePeer(Put(c, s, ended), s, |l.txs|, w)
  {
    hide SendReply, ByePeer;
    var l := At(c, s);
    var c1 := Put(c, s, l.(txs := l.txs + [IncomingTx(q, None)]));
    CameAnswered(To(c1, s, Cleared), s, q, None, l.txs, 200, w);
  }

  lemma PeerOfBye(c: Call, s: Side, q: Request, txs: seq<Tx>, w: World)
    requires Sound(At(c, Other(s))) && c.ingress.dir == INBOUND && c.egress.dir == OUTBOUND
    requires At(c, s).txs == txs + [Came(q, None, [Bare(200)])]
    ensures var (l, p, d) := (At(c, s), At(c, Other(s)), ByePeer(c, s, |txs|, w));
            && d == c.(ingress := d.ingress, egress := d.egress)
            && At(d, s) == l.(txs := txs + [Came(q, ByeLink(l, p), [Bare(200)])])
            && if l.linked && p.state == Established then HangsUp(p, At(d, Other(s)), BeingCleared, Some(|txs|), w.d)
               else At(d, Other(s)) == if l.linked && s == Ingress then GivenUp(p) else p
  {
    hide ReleaseLinked, CancelMe, HangsUp, HeldUp, GivenUp, Came;
    var (l, p) := (At(c, s), At(c, Other(s)));
    if l.linked && p.state == Established {
      ByeReleases(c, s, q, txs, w);
    } else {
      assert ByeLink(l, p) == None;
      assert l.(txs := txs + [Came(q, None, [Bare(200)])]) == l;
      if s == Ingress {
        CancelExactly(p);
      } else {
        CallerNotCancelled(p);
      }
    }
  }

  lemma ByeReleases(c: Call, s: Side, q: Request, txs: seq<Tx>, w: World)
    requires At(c, s).txs == txs + [Came(q, None, [Bare(200)])] && At(c, Other(s)).state == Established
    ensures var (l, p, d) := (At(c, s), At(c, Other(s)), ReleaseLinked(c, s, Some(|txs|), w));
            && d == c.(ingress := d.ingress, egress := d.egress)
            && At(d, s) == l.(txs := txs + [Came(q, if HeldUp(p) then None else Some(There(|p.txs|)), [Bare(200)])])
            && HangsUp(p, At(d, Other(s)), BeingCleared, Some(|txs|), w.d)
  {
    hide EnterAndBye, HangsUp, HeldUp, ByeFails;
    var p := At(c, Other(s));
    HeldUpExactly(p);
    ByeExactly(p, BeingCleared, Some(|txs|), w.d);
  }

  /** A BYE of the called party ends its leg and hangs up the caller; before its leg is established it is refused. */
  lemma CalleeHangsUp(c: Call, q: Request, w: World)
    requires SoundCall(c) && q.kind == BYE && IsNew(c.egress, q)
    ensures ByeDone(c, Step(c, RequestIn(Egress, q, w)), Egress, q, w)
  {
    hide TakeRequest, ByeDone;
    NewExactly(c.egress, q);
    assert GiveUpWaitingForACK(c, Egress, w) == c;
    ByeTaken(c, Egress, q, w);
  }

  /** The legs after a BYE of a caller whose ACK was awaited: a leg of which anything is pending has timed out and
      refuses the BYE, an established one ends; the called party is hung up by the BYE when it is established, and
      given up if not. */
  ghost predicate ByeInsteadOfACK(c: Call, d: Call, q: Request, w: World) {
    var (a, b) := (c.ingress, c.egress);
    var ends := a.state == Established && q.body != UnknownParts;
    && d == c.(ingress := d.ingress, egress := d.egress)
    && (!ends ==>
          && d.ingress.txs == a.txs + [Came(q, None, [Bare(if q.body == UnknownParts then 415 else 400)])]
          && d.ingress == (if IsPending(a.state) then a.(state := TimedOut, disposed := true) else a)
                          .(txs := d.ingress.txs))
    && (ends ==> d.ingress == a.(state := Cleared, disposed := true,
                                 txs := a.txs + [Came(q, ByeLink(a, b), [Bare(200)])]))
    && if ends && a.linked && b.state == Established
       then HangsUp(b, d.egress, BeingCleared, Some(|a.txs|), w.d)
       else CalleeGivenUp(a, b, d.egress, w)
  }

  lemma GivenUpThenBye(c: Call, c1: Call, d: Call, q: Request, w: World)
    requires AwaitsACK(c.ingress) && NeverACKed(c, c1, w) && ByeDone(c1, d, Ingress, q, w)
    ensures ByeInsteadOfACK(c, d, q, w)
  {
    hide HangsUp, GivenUp, HeldUp, CalleeGivenUp;
    GivenUpPeer(c.ingress, c.egress, c1.egress, w);
  }

  /** A BYE of the caller does the same, and it ends the wait for the ACK of the caller. */
  lemma CallerHangsUp(c: Call, q: Request, w: World)
    requires SoundCall(c) && q.kind == BYE && IsNew(c.ingress, q)
    ensures var (a, d) := (c.ingress, Step(c, RequestIn(Ingress, q, w)));
            if AwaitsACK(a) then ByeInsteadOfACK(c, d, q, w) else ByeDone(c, d, Ingress, q, w)
  {
    hide TakeRequest, OnInviteTimeout, HangsUp, GivenUp, HeldUp, ByeDone, NeverACKed, CalleeGivenUp;
    var a := c.ingress;
    NewExactly(a, q);
    if AwaitsACK(a) {
      var c1 := OnInviteTimeout(c, Ingress, 0, w);
      NeverACKedExactly(c, w);
      OnInviteTimeoutCalm(c, Ingress, 0, w);
      GivesUp(c, w);
      ByeTaken(c1, Ingress, q, w);
      GivenUpThenBye(c, c1, TakeRequest(c1, Ingress, q, w), q, w);
    } else {
      assert GiveUpWaitingForACK(c, Ingress, w) == c;
      ByeTaken(c, Ingress, q, w);
    }
  }

  lemma GivesUp(c: Call, w: World)
    requires SoundCall(c) && AwaitsACK(c.ingress)
    ensures GiveUpWaitingForACK(c, Ingress, w) == OnInviteTimeout(c, Ingress, 0, w)
  {
    hide OnInviteTimeout;
  }

  lemma GivenUpPeer(a: Leg, b: Leg, b': Leg, w: World)
    requires CalleeGivenUp(a, b, b', w)
    ensures b.state != BeingEstablished ==> b' == b
    ensures b'.state == Established <==> b.state == Established
    ensures a.linked ==> GivenUp(b') == b'
  {
    hide Acknowledges, Refused503, WasAnswered;
    if a.linked && b.state == BeingEstablished && WasAnswered(b) {
      var m :| Acknowledges(b, m) && HangsUp(m, b', BeingDropped, None, w.d);
    } else if a.linked && b.state == BeingEstablished {
      assert b'.state == BeingCancelled;
    }
  }
}
