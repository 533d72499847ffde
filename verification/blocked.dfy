/** What an offer leaves behind when it ends without a 2xx: a leg still marked as changing the
    dialogue, with no offer open. From then on no offer is let through, in any run. */
module Blocked {
  import opened SessionState
  import opened SipTypes
  import opened Evolution
  import opened Session
  import opened SessionKeeps
  import opened Stack
  import opened CallKeeps
  import opened Offers
  import opened Runs

  predicate Flagged(c: Call) { c.ingress.dialogueChanging || c.egress.dialogueChanging }

  ghost predicate IsBlocked(c: Call) { Flagged(c) && NoneOpen(c) }

  /** Outside the early-to-final flow every offer is forwarded as what it is. */
  predicate Relayed(c: Call) { c.flow != EarlyToFinal }

  lemma QuietKeepsBlocked(c: Call, d: Call)
    requires LinkInv(c) && CallQuiet(c, d)
    ensures NoneOpen(c) ==> NoneOpen(d)
    ensures Flagged(c) ==> Flagged(d)
  {
    QuietKeepsOffers(c, d);
  }

  // ----- how it comes about

  /** The final response to the open UPDATE: it blocks the call unless it is a 2xx that is relayed. */
  lemma UpdateEndBlocks(c: Call, e: Event)
    requires LinkInv(c) && Exclusive(c) && Relayed(c)
    requires e.ResponseIn? && e.r.code >= 200 && Matched(c, e.s, e.r).Some?
    requires var t := At(c, e.s).txs[Matched(c, e.s, e.r).value]; t.kind == UPDATE && !t.isFinalized
    ensures IsBlocked(Step(c, e)) <==> !(IsPositive(e.r.code) && At(c, e.s).linked)
  {
    var i := Matched(c, e.s, e.r).value;
    var c1 := Noted(c, e.s, i, e.r);
    OpenUntilAnswered(c, e.s, i);
    RecordQuiet(c, e.s, i, e.r);
    QuietKeepsOffers(c, c1);
    RecordedCloses(c, e.s, i, e.r);
    if IsPositive(e.r.code) {
      UpdateAnsweredStep(c, e);
      FlagsAreLowered(c1, e.s, i, e.r, e.w);
    } else {
      OnResponseUnfolds(c, e.s, e.r, e.w);
      NotedAnswers(c, e.s, i, e.r);
      HandleResponseKeeps(c1, e.s, i, e.r, e.w);
      QuietKeepsBlocked(c1, Step(c, e));
    }
  }

  /** The ACK of a re-INVITE that was forwarded as transaction j of the other leg. */
  predicate EndsReInvite(c: Call, s: Side, q: Request, i: nat, j: nat) {
    && q.kind == ACK && q.body != UnknownParts
    && !At(c, s).disposed && At(c, s).linked && !IsDuplicateRequest(At(c, s), q)
    && ReceiveACK(At(c, s), q).1 == Some(i) && i < |At(c, s).txs| && At(c, s).txs[i].kind == ReINVITE
    && At(c, s).txs[i].link == Some(There(j)) && j < |At(c, Other(s)).txs|
  }

  lemma ReInviteEndUnfolds(c: Call, s: Side, q: Request, w: World, i: nat, j: nat)
    requires EndsReInvite(c, s, q, i, j)
    ensures var c1 := Put(c, s, ReceiveACK(At(c, s), q).0);
            && i < |At(c1, s).txs| && At(c1, Other(s)) == At(c, Other(s))
            && At(c1, s).txs[i] == At(c, s).txs[i].(isACKed := true)
            && Step(c, RequestIn(s, q, w)) == HandleOfferACK(c1, s, i)
  {
  }

  /** The ACK of the open re-INVITE: it blocks the call unless the re-INVITE got a 2xx. */
  lemma ReInviteEndBlocks(c: Call, s: Side, q: Request, w: World, i: nat, j: nat)
    requires LinkInv(c) && Exclusive(c) && Relayed(c)
    requires EndsReInvite(c, s, q, i, j)
    ensures IsBlocked(Step(c, RequestIn(s, q, w))) <==> !At(c, Other(s)).txs[j].AnyPositive()
  {
    var c1 := Put(c, s, ReceiveACK(At(c, s), q).0);
    ReInviteEndUnfolds(c, s, q, w, i, j);
    ReceiveACKCalm(At(c, s), q);
    PutCalm(c, s, ReceiveACK(At(c, s), q).0);
    QuietKeepsOffers(c, c1);
    assert OpenAt(c, s, i);
    NoneOpenAfter(c, c1, s, i);
    if !At(c, Other(s)).txs[j].AnyPositive() {
      MateACKKeeps(c1, s, i);
      assert Flagged(c1);
    }
  }

  // ----- no way out

  lemma BlockedOffer(c: Call, s: Side, i: nat, q: Request, w: World)
    requires LinkInv(c) && Flagged(c) && Received(c, s, i, q) && q.kind.CarriesOffer() && Alive(c, s)
    ensures CallQuiet(c, HandleOffer(c, s, i, q, w))
  {
    if At(c, s).linked {
      var c1 := Flag(c, s, true);
      RaiseCalm(c, s);
      SendReplyQuiet(c1, s, Some(i), 491, NoBody, w);
      CallQuietTrans(c, c1, HandleOffer(c, s, i, q, w));
    } else {
      AnswerOfferCalm(c, s, i, q, w);
    }
  }

  lemma BlockedReInvite(c: Call, s: Side, i: nat, q: Request, w: World)
    requires LinkInv(c) && Flagged(c) && Received(c, s, i, q) && q.kind == ReINVITE && Alive(c, s)
    ensures CallQuiet(c, HandleOffer(SendReply(c, s, Some(i), 100, NoBody, w), s, i, q, w))
  {
    var c1 := SendReply(c, s, Some(i), 100, NoBody, w);
    SendReplyQuiet(c, s, Some(i), 100, NoBody, w);
    SendReplyLink(c, s, i, 100, NoBody, w);
    QuietKeepsOffers(c, c1);
    QuietKeepsBlocked(c, c1);
    BlockedOffer(c1, s, i, q, w);
    CallQuietTrans(c, c1, HandleOffer(c1, s, i, q, w));
  }

  /** An ACK that belongs to no open re-INVITE. */
  lemma BlockedACK(c: Call, s: Side, q: Request)
    requires LinkInv(c) && NoneOpen(c) && Relayed(c) && Alive(c, s) && q.kind == ACK && ReceiveACK(At(c, s), q).1.Some?
    ensures var d := HandleACK(Put(c, s, ReceiveACK(At(c, s), q).0), s, ReceiveACK(At(c, s), q).1.value);
            CallQuiet(c, d)
  {
    var (l, t) := ReceiveACK(At(c, s), q);
    var c1 := Put(c, s, l);
    ReceiveACKCalm(At(c, s), q);
    PutCalm(c, s, l);
    if l.txs[t.value].kind == INVITE {
      HandleACKQuiet(c1, s, t.value);
      CallQuietTrans(c, c1, HandleACK(c1, s, t.value));
    } else {
      assert !OpenAt(c, s, t.value);
    }
  }

  lemma BlockedRequest(c: Call, s: Side, q: Request, w: World)
    requires LinkInv(c) && IsBlocked(c) && Relayed(c) && Alive(c, s) && q.kind != INVITE && Bears(q)
    ensures CallQuiet(c, TakeRequest(c, s, q, w))
  {
    hide HandleOffer, SendReply, HandleACK;
    var (l, t) := AddIncomingRequest(At(c, s), q);
    var c1 := Put(c, s, l);
    AddIncomingRequestCalm(At(c, s), q);
    PutCalm(c, s, l);
    QuietKeepsOffers(c, c1);
    QuietKeepsBlocked(c, c1);
    if t.Some? {
      if q.kind == ACK {
        BlockedACK(c, s, q);
      } else if q.kind == ReINVITE {
        BlockedReInvite(c1, s, t.value, q, w);
        CallQuietTrans(c, c1, TakeRequest(c, s, q, w));
      } else {
        BlockedOffer(c1, s, t.value, q, w);
        CallQuietTrans(c, c1, TakeRequest(c, s, q, w));
      }
    }
  }

  /** In a blocked call no event forwards an offer or declares a dialogue change over, except a
      second 2xx for an UPDATE. */
  lemma BlockedStep(c: Call, e: Event)
    requires LinkInv(c) && IsBlocked(c) && Relayed(c) && !SecondAnswer(c, e)
    ensures CallQuiet(c, Step(c, e))
  {
    hide TakeRequest, HandleResponse, OnTimeout;
    StepKeeps(c, e);
    CallCalmRefl(c);
    if MayBear(c, e) {
      if e.RequestIn? {
        if !At(c, e.s).disposed && !IsDuplicateRequest(At(c, e.s), e.q) {
          BlockedRequest(c, e.s, e.q, e.w);
        }
      } else {
        OpenUntilAnswered(c, e.s, Matched(c, e.s, e.r).value);
      }
    }
  }

  /** Exactly when a step ends the blockage. */
  lemma BlockedUnlessAnsweredTwice(c: Call, e: Event)
    requires LinkInv(c) && IsBlocked(c) && Relayed(c)
    ensures IsBlocked(Step(c, e)) <==> !(SecondAnswer(c, e) && At(c, e.s).linked)
  {
    if !SecondAnswer(c, e) {
      BlockedStep(c, e);
      QuietKeepsBlocked(c, Step(c, e));
    } else {
      SecondAnswerUnblocks(c, e);
    }
  }

  lemma SecondAnswerUnblocks(c: Call, e: Event)
    requires LinkInv(c) && IsBlocked(c) && SecondAnswer(c, e)
    ensures IsBlocked(Step(c, e)) <==> !At(c, e.s).linked
  {
    var i := Matched(c, e.s, e.r).value;
    var c1 := Noted(c, e.s, i, e.r);
    UpdateAnsweredStep(c, e);
    QuietKeepsBlocked(c, c1);
    FlagsAreLowered(c1, e.s, i, e.r, e.w);
  }

  /** Once blocked, a call stays so: whatever follows, no offer of either party is forwarded again. */
  lemma {:induction false} BlockedForGood(c: Call, es: seq<Event>)
    requires LinkInv(c) && IsBlocked(c) && Relayed(c) && AnswersOnce(c, es)
    ensures IsBlocked(Run(c, es)) && Still(c.ingress, Run(c, es).ingress) && Still(c.egress, Run(c, es).egress)
    ensures LinkInv(Run(c, es)) && Relayed(Run(c, es)) && CallQuiet(c, Run(c, es))
    decreases |es|
  {
    if es == [] {
      CallCalmRefl(c);
    } else {
      var before := es[..|es| - 1];
      var d := Run(c, before);
      AnswersOnceBefore(c, es);
      BlockedForGood(c, before);
      BlockedStep(d, es[|es| - 1]);
      QuietKeepsBlocked(d, Run(c, es));
      QuietKeepsOffers(d, Run(c, es));
      CallQuietTrans(c, d, Run(c, es));
    }
  }

  lemma AnswersOnceAfter(c: Call, es: seq<Event>, n: nat)
    requires n <= |es| && AnswersOnce(c, es)
    ensures AnswersOnce(Run(c, es[..n]), es[n..])
  {
    forall k | 0 <= k < |es[n..]|
      ensures !SecondAnswer(Run(Run(c, es[..n]), es[n..][..k]), es[n..][k])
    {
      RunSplits(c, es[..n + k], n);
      assert es[..n + k][..n] == es[..n] && es[..n + k][n..] == es[n..][..k];
      assert !SecondAnswer(Run(c, es[..n + k]), es[n + k]);
    }
  }

  /** ... between any two moments of any run. */
  lemma NoOfferGetsThrough(v: FirstInvite, t: Target, m: Media, w: World, es: seq<Event>, n: nat)
    requires n <= |es| && (t.Record? ==> t.flow != EarlyToFinal) && AnswersOnce(NewCall(v, t, m, w), es)
    requires IsBlocked(After(v, t, m, w, es[..n]))
    ensures var c, d := After(v, t, m, w, es[..n]), After(v, t, m, w, es);
            IsBlocked(d) && Still(c.ingress, d.ingress) && Still(c.egress, d.egress)
  {
    var c := NewCall(v, t, m, w);
    NewCallFresh(v, t, m, w);
    FreshOffers(c);
    RunKeepsOffers(c, es[..n]);
    RunSplits(c, es, n);
    AnswersOnceAfter(c, es, n);
    BlockedForGood(Run(c, es[..n]), es[n..]);
  }

  /** What the party sees: each of its offers is refused with 491. */
  lemma BlockedIsRefused(c: Call, s: Side, q: Request, w: World)
    requires Flagged(c) && At(c, s).linked && !At(c, s).disposed && !IsDuplicateRequest(At(c, s), q)
    requires q.body != UnknownParts && (q.kind == ReINVITE || (q.kind == UPDATE && q.body != NoBody))
    ensures var t := IncomingTx(q, None);
            At(Step(c, RequestIn(s, q, w)), s).txs ==
              At(c, s).txs + [(if q.kind == ReINVITE then t.With(Reply(100, NoBody)) else t).With(Reply(491, NoBody))]
  {
    var n := |At(c, s).txs|;
    var c1 := Put(c, s, Append(At(c, s), IncomingTx(q, None)));
    Replied(c1, s, n, 100, w);
    var c2 := if q.kind == ReINVITE then SendReply(c1, s, Some(n), 100, NoBody, w) else c1;
    OfferOutcome(c2, s, n, q, w);
  }
}
