/** What the timers of a call do: transactions that are retransmitted in vain, the longest duration of a call, the
    probes, the delays before a leg is dropped. */
module Lapses {
  import opened SessionState
  import opened SipTypes
  import opened Evolution
  import opened Session
  import opened Stack
  import opened CallKeeps
  import opened Changes
  import opened Responses
  import opened Hangups

  /** A request that was sent and got no response at all, or an INVITE or re-INVITE that was answered in some way
      and got no ACK. */
  predicate InVain(t: Tx) {
    if t.dir == OUTBOUND then t.hasRequest && t.responses == []
    else t.kind in {INVITE, ReINVITE} && t.responses != [] && !t.isACKed
  }

  /** Any other transaction has no timer that runs. */
  lemma NothingLapses(c: Call, s: Side, i: nat, w: World)
    requires i >= |At(c, s).txs| || !InVain(At(c, s).txs[i])
    ensures Step(c, TransactionTimeout(s, i, w)) == c
  {
  }

  /** The ACK of the caller does not come. */
  lemma ACKLapses(c: Call, w: World)
    requires SoundCall(c) && InVain(c.ingress.txs[0])
    ensures NeverACKed(c, Step(c, TransactionTimeout(Ingress, 0, w)), w)
  {
    hide OnInviteTimeout, NeverACKed;
    NeverACKedExactly(c, w);
  }

  /** A CANCEL or a BYE without a response ends its leg. */
  lemma EndingLapses(c: Call, s: Side, i: nat, w: World)
    requires i < |At(c, s).txs| && InVain(At(c, s).txs[i]) && At(c, s).txs[i].kind in {CANCEL, BYE}
    ensures var l := At(c, s);
            Step(c, TransactionTimeout(s, i, w)) == Put(c, s, l.(state := FinalizeMe(l.state), disposed := true))
  {
  }

  /** A probe of the caller without a response releases the call; any other OPTIONS is of no account. */
  lemma ProbeLapses(c: Call, s: Side, i: nat, w: World)
    requires i < |At(c, s).txs| && InVain(At(c, s).txs[i]) && At(c, s).txs[i].kind == OPTIONS
    requires At(c, s).dir == if s == Ingress then INBOUND else OUTBOUND
    ensures var d := Step(c, TransactionTimeout(s, i, w));
            if s == Ingress && At(c, s).txs[i].isProbing then ReleasesBoth(c, d, s, w) else d == c
  {
    hide ReleaseCall, ReleasesBoth;
    ReleaseExactly(c, s, w);
  }

  /** The two legs after a request within the dialogue lapsed: the call is released, and then a leg that was not
      established is dropped; unless the BYE for leg s could not be sent. */
  predicate DialogueOver(c: Call, d: Call, s: Side, w: World) {
    var (l, p, l', p') := (At(c, s), At(c, Other(s)), At(d, s), At(d, Other(s)));
    && d.flow == c.flow && d.repeats == c.repeats
    && (if l.state == Established then HangsUp(l, l', BeingDropped, None, w.d)
        else l' == if l.linked && p.state == Established && HeldUp(p) then l else l.(disposed := true))
    && (if !l.linked || (l.state == Established && HeldUp(l)) then p' == p
        else if p.state == Established then HangsUp(p, p', BeingDropped, None, w.d)
        else p' == p.(disposed := true))
  }

  lemma ReleaseCompleted(c: Call, s: Side, w: World)
    ensures var (l, p) := (At(c, s), At(c, Other(s)));
            ReleaseCall(c, s, w).1 <==>
            !(l.state == Established && HeldUp(l)) && !(l.linked && p.state == Established && HeldUp(p))
  {
    hide EnterAndBye, HangsUp, ByeFails, HeldUp;
    var (l, p) := (At(c, s), At(c, Other(s)));
    HeldUpExactly(l);
    HeldUpExactly(p);
    ByeExactly(l, BeingDropped, None, w.d);
    HungUpSame(l, EnterAndBye(l, BeingDropped, None, w.d), BeingDropped, None, w.d);
  }

  lemma DialogueTimedOut(c: Call, s: Side, w: World)
    ensures DialogueOver(c, OnInDialogueTimeout(c, s, w), s, w)
  {
    hide ReleaseCall, HangsUp, HeldUp;
    ReleaseExactly(c, s, w);
    ReleaseCompleted(c, s, w);
  }

  /** A re-INVITE, an UPDATE or an INFO without a response, or a re-INVITE without its ACK. */
  lemma DialogueLapses(c: Call, s: Side, i: nat, w: World)
    requires i < |At(c, s).txs| && InVain(At(c, s).txs[i])
    requires At(c, s).txs[i].kind !in {INVITE, CANCEL, BYE, OPTIONS, PRACK}
    ensures DialogueOver(c, Step(c, TransactionTimeout(s, i, w)), s, w)
  {
    hide OnInDialogueTimeout, DialogueOver;
    DialogueTimedOut(c, s, w);
  }

  /** The longest duration of the call is over: both legs are released. */
  lemma DurationOver(c: Call, w: World)
    ensures var d := Step(c, MaxDuration(w)); if c.ingress.disposed then d == c else ReleasesBoth(c, d, Ingress, w)
  {
    hide ReleaseCall, ReleasesBoth;
    ReleaseExactly(c, Ingress, w);
  }

  /** An established caller is probed with an OPTIONS that has the next number. */
  lemma ProbeSent(c: Call, w: World)
    requires c.ingress.dir == INBOUND
    ensures var (a, d) := (c.ingress, Step(c, ProbeTick(w)));
            var n := NextOf(a, w.d);
            if a.disposed || a.state != Established then d == c
            else d == c.(ingress := a.(
                    txs := a.txs + [Tx(OPTIONS, OUTBOUND, n, a.branches + 1, 0, PRACKExpected, None, [],
                                       false, false, true, true)],
                    sent := a.sent + [Sent(OPTIONS, n, OPTIONS)], branches := a.branches + 1, bwdCSeq := n))
  {
    SentNew(c.ingress, OPTIONS, None, true, w.d);
  }

  /** A leg that has ended is dropped in the end, and no other one is. */
  lemma DroppedInTheEnd(c: Call, s: Side)
    ensures var l := At(c, s);
            Step(c, TimedDrop(s)) ==
            if IsPending(l.state) || l.state in {NotSet, Established} then c else Put(c, s, l.(disposed := true))
  {
  }

  /** A CANCEL had its final response, and the INVITE never gets one: the leg of the called party is dropped. */
  lemma CancelWithoutEnd(c: Call)
    ensures var b := c.egress;
            Step(c, CancelTimeout) ==
            if IsPending(b.state) && exists i :: 0 <= i < |b.txs| && b.txs[i].kind == CANCEL && b.txs[i].dir == OUTBOUND
                                                 && b.txs[i].isFinalized
            then c.(egress := b.(state := FinalizeMe(b.state), disposed := true)) else c
  {
  }

  /** The echo responder answers a caller that still waits, after its delay. */
  lemma EchoAnswers(c: Call, body: Body, w: World)
    requires SoundCall(c)
    ensures Step(c, EchoAnswer(body, w)) ==
            if c.flow == Echo && c.ingress.state == BeingEstablished
            then c.(ingress := c.ingress.(txs := Gains(c.ingress.txs, 0, Reply(200, body)))) else c
  {
    if c.flow == Echo && c.ingress.state == BeingEstablished {
      GainsResponse(c.ingress, 0, Reply(200, body));
    }
  }
}
