/** What a step does to a leg, in terms of the leg's own fields: the words in which the outcome of every
    request, response and timer is stated, and the helpers of a leg described in them. */
module Changes {
  import opened SessionState
  import opened SipTypes
  import opened Evolution
  import opened Session
  import opened SessionKeeps
  import opened Stack
  import opened CallKeeps

  // ----- responses

  /** Transaction i has one more response; a final one completes it. */
  function Gains(txs: seq<Tx>, i: nat, r: Reply): seq<Tx>
    requires i < |txs|
  {
    txs[i := txs[i].(responses := txs[i].responses + [r], isFinalized := txs[i].isFinalized || 200 <= r.code)]
  }

  lemma GainsResponse(l: Leg, i: nat, r: Reply)
    requires i < |l.txs|
    ensures RespondTo(l, i, r) == l.(txs := Gains(l.txs, i, r))
  {
  }

  /** The caller still waits for a final response to its INVITE, or for the ACK to reach the router. */
  predicate UnACKed(l: Leg) { |l.txs| > 0 && !l.txs[0].isACKed }

  /** The caller is told r, unless it acknowledged another final response already. */
  function Told(l: Leg, r: Reply): Leg {
    if UnACKed(l) then l.(txs := Gains(l.txs, 0, r)) else l
  }

  lemma CallerIsTold(c: Call, code: Status, body: Body, w: World)
    requires SoundCall(c) && !Is18x(code)
    ensures SendReply(c, Ingress, None, code, body, w) == c.(ingress := Told(c.ingress, Reply(code, body)))
  {
    hide SendReply;
    CallerAnswered(c, code, body, w);
    if UnACKed(c.ingress) {
      GainsResponse(c.ingress, 0, Reply(code, body));
    }
  }

  /** A request that has just come, and the responses to it. */
  function Came(q: Request, link: Option<Ref>, rs: seq<Reply>): Tx {
    Tx(q.kind, INBOUND, q.cseq, q.branch, 0, PRACKExpected, link, rs, rs != [] && 200 <= rs[|rs| - 1].code,
       false, true, false)
  }

  function Bare(code: Status): Reply { Reply(code, NoBody) }

  lemma CameAnswered(c: Call, s: Side, q: Request, link: Option<Ref>, txs: seq<Tx>, code: Status, w: World)
    requires At(c, s).txs == txs + [IncomingTx(q, link)] && !Is18x(code)
    ensures SendReply(c, s, Some(|txs|), code, NoBody, w) ==
            Put(c, s, At(c, s).(txs := txs + [Came(q, link, [Bare(code)])]))
  {
    var l := At(c, s);
    assert [] + [Bare(code)] == [Bare(code)];
    assert SendReply(c, s, Some(|txs|), code, NoBody, w) == Put(c, s, RespondTo(l, |txs|, Bare(code)));
    assert l.txs[|txs|].With(Bare(code)) == Came(q, link, [Bare(code)]);
    assert RespondTo(l, |txs|, Bare(code)).txs == txs + [Came(q, link, [Bare(code)])];
  }

  // ----- which requests are taken in, and which responses

  /** A request that repeats nothing; an INVITE within a dialogue would be a re-INVITE. */
  predicate IsNew(l: Leg, q: Request) {
    && !l.disposed && q.kind != INVITE
    && forall k :: 0 <= k < |l.txs| && l.txs[k].dir == INBOUND && l.txs[k].cseq == q.cseq ==>
         && !(l.txs[k].kind == q.kind && l.txs[k].branch == q.branch)
         && !(q.kind == ACK && l.txs[k].kind in {INVITE, ReINVITE} && l.txs[k].isACKed && q.tagsMatch)
  }

  lemma NewExactly(l: Leg, q: Request)
    ensures IsNew(l, q) <==> !l.disposed && !IsDuplicateRequest(l, q)
  {
  }

  /** Anything else is ignored. */
  lemma RepeatedIgnored(c: Call, s: Side, q: Request, w: World)
    ensures !IsNew(At(c, s), q) ==> Step(c, RequestIn(s, q, w)) == c
  {
    NewExactly(At(c, s), q);
  }

  /** The request that response r answers: the branch and the number are the same, and so is the method, but that
      the answer to a re-INVITE says INVITE. */
  predicate Fits(t: Tx, r: Response) {
    && t.dir == OUTBOUND && t.branch == r.branch && t.cseq == r.cseq
    && (t.kind == r.cseqMethod || (t.kind == ReINVITE && r.cseqMethod == INVITE))
  }

  /** Response r is the next one of transaction i: it is not the same final response again. */
  predicate Answers(l: Leg, r: Response, i: nat) {
    && !l.disposed && i < |l.txs| && Fits(l.txs[i], r) && (forall k :: 0 <= k < i ==> !Fits(l.txs[k], r))
    && (r.code >= 200 ==> forall k :: 0 <= k < |l.txs[i].responses| ==> l.txs[i].responses[k].code != r.code)
  }

  lemma AnswersExactly(c: Call, s: Side, r: Response, i: nat)
    ensures Answers(At(c, s), r, i) <==> Matched(c, s, r) == Some(i)
  {
    var l := At(c, s);
    assert forall k :: 0 <= k < |l.txs| ==> (Fits(l.txs[k], r) <==> MatchesResponse(l.txs[k], r));
    if i < |l.txs| {
      assert l.txs[i].HasCode(r.code) <==>
             exists k :: 0 <= k < |l.txs[i].responses| && l.txs[i].responses[k].code == r.code;
    }
  }

  /** A response to nothing, or the same final response again, is ignored. */
  lemma UnmatchedIgnored(c: Call, s: Side, r: Response, w: World)
    requires forall i: nat :: !Answers(At(c, s), r, i)
    ensures Step(c, ResponseIn(s, r, w)) == c
  {
    OnResponseUnfolds(c, s, r, w);
    var m := Matched(c, s, r);
    if m.Some? {
      AnswersExactly(c, s, r, m.value);
    }
  }

  /** The call once the response is recorded. */
  function Recording(c: Call, s: Side, i: nat, r: Response): Call
    requires i < |At(c, s).txs|
  {
    Put(c, s, At(c, s).(txs := Gains(At(c, s).txs, i, Reply(r.code, r.body))))
  }

  lemma TakenResponse(c: Call, s: Side, i: nat, r: Response, w: World)
    requires Answers(At(c, s), r, i)
    ensures Step(c, ResponseIn(s, r, w)) == HandleResponse(Recording(c, s, i, r), s, i, r, w)
  {
    hide HandleResponse;
    AnswersExactly(c, s, r, i);
    OnResponseUnfolds(c, s, r, w);
    GainsResponse(At(c, s), i, Reply(r.code, r.body));
  }

  // ----- ACK

  predicate TakesAnACK(t: Tx) { t.dir == OUTBOUND && t.kind in {INVITE, ReINVITE} && !t.isACKed }

  /** The first INVITE or re-INVITE that still takes an ACK gets one, with its own number. */
  predicate Acknowledges(a: Leg, b: Leg) {
    && (forall i :: 0 <= i < |a.txs| && TakesAnACK(a.txs[i]) && (forall k :: 0 <= k < i ==> !TakesAnACK(a.txs[k])) ==>
          b == a.(txs := a.txs[i := a.txs[i].(isACKed := true)],
                  sent := a.sent + [Sent(ACK, a.txs[i].cseq, a.txs[i].kind)]))
    && ((forall i :: 0 <= i < |a.txs| ==> !TakesAnACK(a.txs[i])) ==> b == a)
  }

  lemma AckExactly(l: Leg)
    ensures Acknowledges(l, SendAck(l, None))
  {
    hide First;
    assert forall k :: 0 <= k < |l.txs| ==> (TakesAnACK(l.txs[k]) <==> NeedsACK(l.txs[k]));
  }

  lemma AcknowledgedSame(a: Leg, b: Leg)
    requires Acknowledges(a, b)
    ensures b == a.(txs := b.txs, sent := b.sent) && |b.txs| == |a.txs|
  {
    hide First;
    var i := First(a.txs, TakesAnACK);
    if i.Some? {
      assert TakesAnACK(a.txs[i.value]);
      assert b == a.(txs := a.txs[i.value := a.txs[i.value].(isACKed := true)],
                     sent := a.sent + [Sent(ACK, a.txs[i.value].cseq, a.txs[i.value].kind)]);
    }
  }

  /** The INVITE of the leg gets its ACK. */
  function InviteACKed(l: Leg): Leg
    requires |l.txs| > 0
  {
    l.(txs := l.txs[0 := l.txs[0].(isACKed := true)], sent := l.sent + [Sent(ACK, l.txs[0].cseq, INVITE)])
  }

  lemma InviteIsACKed(l: Leg)
    requires Sound(l) && l.dir == OUTBOUND && l.state != NotSet && UnACKed(l)
    ensures SendAck(l, None) == InviteACKed(l)
  {
    AckExactly(l);
    assert TakesAnACK(l.txs[0]);
  }

  // ----- CANCEL

  /** The INVITE is cancelled: the CANCEL has its number and its branch, and the two name each other. */
  function InviteCancelled(l: Leg): Leg
    requires |l.txs| > 0
  {
    var t := l.txs[0];
    l.(state := BeingCancelled, sent := l.sent + [Sent(CANCEL, t.cseq, INVITE)],
       txs := l.txs[0 := t.(link := Some(Here(|l.txs|)))] +
              [Tx(CANCEL, OUTBOUND, t.cseq, t.branch, 0, PRACKExpected, Some(Here(0)), [], false, false, true, false)])
  }

  /** What giving up does to the leg of the called party: nothing unless it is being set up, and no CANCEL once
      the INVITE had its ACK. */
  function GivenUp(l: Leg): Leg {
    if l.state != BeingEstablished then l
    else if UnACKed(l) then InviteCancelled(l)
    else l.(state := BeingCancelled)
  }

  lemma CancelExactly(l: Leg)
    requires Sound(l) && l.dir == OUTBOUND
    ensures CancelMe(l) == GivenUp(l)
  {
    var m := Enter(l, BeingCancelled);
    if l.state == BeingEstablished && UnACKed(l) {
      assert IsUnACKedInvite(m.txs[0], OUTBOUND);
      SentCancel(m);
    }
  }

  lemma NothingToGiveUp(l: Leg)
    requires l.state != BeingEstablished
    ensures GivenUp(l) == l
  {
  }

  /** The leg of the caller has no INVITE to cancel. */
  lemma CallerNotCancelled(l: Leg)
    requires l.dir == INBOUND
    ensures CancelMe(l) == l
  {
  }

  // ----- numbers

  /** The number after n, of 32 bits; the first one is drawn. */
  function Following(n: nat, draw: nat): nat { if n == 0 then draw else (n + 1) % 0x1_0000_0000 }

  /** The number of the next request that a leg sends. */
  function NextOf(l: Leg, d: Draws): nat {
    if l.dir == OUTBOUND then Following(l.fwdCSeq, d.fwd) else Following(l.bwdCSeq, d.bwd)
  }

  // ----- BYE

  /** A PRACK is awaited and has not come. */
  predicate AwaitsPRACK(t: Tx) { t.dir == INBOUND && !t.isFinalized && !t.hasRequest }

  /** No BYE can be sent: the wait for a PRACK stops the program before it. */
  predicate HeldUp(l: Leg) { exists i :: 0 <= i < |l.txs| && AwaitsPRACK(l.txs[i]) }

  lemma HeldUpExactly(l: Leg)
    ensures HeldUp(l) <==> ByeFails(l)
  {
    assert forall k :: 0 <= k < |l.txs| ==> (AwaitsPRACK(l.txs[k]) <==> l.txs[k].Pending() && !l.txs[k].hasRequest);
  }

  /** Every request of the peer that has no final response is answered 503, up to the first PRACK that is awaited;
      that one is marked the same way, and nothing after it. */
  predicate Refused503(a: seq<Tx>, b: seq<Tx>) {
    |b| >= |a| &&
    forall k :: 0 <= k < |a| ==>
      b[k] == if a[k].dir == INBOUND && !a[k].isFinalized && (forall j :: 0 <= j < k ==> !AwaitsPRACK(a[j]))
              then a[k].(responses := a[k].responses + [Bare(503)], isFinalized := true) else a[k]
  }

  /** Leg a is hung up and becomes b: it enters state s, its open requests are refused, and exactly one BYE with
      the next number is sent, or none while a PRACK is awaited. */
  predicate HangsUp(a: Leg, b: Leg, s: State, link: Option<nat>, d: Draws) {
    && b == a.(state := s, txs := b.txs, sent := b.sent, branches := b.branches,
               fwdCSeq := b.fwdCSeq, bwdCSeq := b.bwdCSeq)
    && Refused503(a.txs, b.txs)
    && if HeldUp(a) then
         |b.txs| == |a.txs| && b.sent == a.sent && b.branches == a.branches
         && b.fwdCSeq == a.fwdCSeq && b.bwdCSeq == a.bwdCSeq
       else
         var n := NextOf(a, d);
         && |b.txs| == |a.txs| + 1 && b.sent == a.sent + [Sent(BYE, n, BYE)]
         && b.txs[|a.txs|] == Tx(BYE, OUTBOUND, n, a.branches + 1, 0, PRACKExpected,
                                 if link.Some? then Some(There(link.value)) else None,
                                 [], false, false, true, false)
         && b.branches == a.branches + 1
         && (if a.dir == OUTBOUND then b.fwdCSeq == n && b.bwdCSeq == a.bwdCSeq
             else b.bwdCSeq == n && b.fwdCSeq == a.fwdCSeq)
  }

  lemma HungUpSame(a: Leg, b: Leg, s: State, link: Option<nat>, d: Draws)
    requires HangsUp(a, b, s, link, d)
    ensures b.state == s && b.linked == a.linked && b.disposed == a.disposed
  {
  }

  lemma RejectedExactly(l: Leg)
    ensures var b := RejectPending(l); b == l.(txs := b.txs) && |b.txs| == |l.txs| && Refused503(l.txs, b.txs)
  {
    HeldUpExactly(l);
    assert forall k :: 0 <= k < |l.txs| ==> (AwaitsPRACK(l.txs[k]) <==> l.txs[k].Pending() && !l.txs[k].hasRequest);
    var b := RejectPending(l).txs;
    forall k | 0 <= k < |l.txs|
      ensures b[k] == if l.txs[k].dir == INBOUND && !l.txs[k].isFinalized
                         && (forall j :: 0 <= j < k ==> !AwaitsPRACK(l.txs[j]))
                      then l.txs[k].(responses := l.txs[k].responses + [Bare(503)], isFinalized := true)
                      else l.txs[k]
    {
    }
  }

  lemma ByeExactly(l: Leg, s: State, link: Option<nat>, d: Draws)
    ensures HangsUp(l, EnterAndBye(l, s, link, d), s, link, d)
  {
    hide RejectPending, SendNew, Refused503, Placeholder;
    var m := Enter(l, s);
    HeldUpExactly(m);
    assert HeldUp(m) == HeldUp(l);
    RejectedExactly(m);
    if !HeldUp(l) {
      SentNew(RejectPending(m), BYE, link, false, d);
      StillRefused(l.txs, RejectPending(m).txs, OutgoingTx(RejectPending(m), BYE, link, false, d));
    }
  }

  lemma StillRefused(a: seq<Tx>, b: seq<Tx>, t: Tx)
    requires Refused503(a, b)
    ensures Refused503(a, b + [t])
  {
  }

  /** A BYE alone, the state staying as it is. */
  lemma ByeSentExactly(l: Leg, d: Draws)
    ensures HangsUp(l, SendBye(l, None, d), l.state, None, d)
  {
    ByeExactly(l, l.state, None, d);
  }
}
