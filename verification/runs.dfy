/** What holds along every run of a call: it starts sound, no leg goes backwards, and at most one
    forwarded offer is open. */
module Runs {
  import opened SessionState
  import opened SipTypes
  import opened Moves
  import opened Evolution
  import opened Session
  import opened SessionKeeps
  import opened Stack
  import opened CallKeeps
  import opened Offers

  // ----- the start

  /** A leg that came about by moves, none of them a stray ACK. */
  ghost predicate Born(l: Leg) { Reaches(NewLeg(l.dir), l, true) }

  lemma StillBorn(a: Leg, b: Leg)
    requires Born(a) && Reaches(a, b, true) && b.dir == a.dir
    ensures Born(b)
  {
    ReachesTrans(NewLeg(a.dir), a, b, true);
  }

  lemma IngressOfSound(v: FirstInvite)
    ensures Sound(IngressOf(v)) && Born(IngressOf(v))
  {
    var l := Append(NewLeg(INBOUND), IngressOf(v).txs[0]);
    OneMove(NewLeg(INBOUND), Receive(IngressOf(v).txs[0]));
    TouchReaches(l, IngressOf(v));
    StillBorn(l, IngressOf(v));
  }

  /** The egress leg once its INVITE is sent. */
  lemma InviteSentSound(reliable: bool, early: bool, d: Draws)
    ensures var e := NewLeg(OUTBOUND).(linked := true, prackSupported := reliable);
            var l := SendNew(e, INVITE, None, false, d).(state := BeingEstablished, transformEarlyToFinal := early);
            Sound(l) && Born(l)
  {
    var e := NewLeg(OUTBOUND).(linked := true, prackSupported := reliable);
    var l := SendNew(e, INVITE, None, false, d);
    TouchReaches(NewLeg(OUTBOUND), e);
    OneMove(e, Send(INVITE, None, false, d));
    SentNew(e, INVITE, None, false, d);
    StillBorn(e, l);
    var l1 := l.(state := BeingEstablished, transformEarlyToFinal := early);
    TouchReaches(l, l1);
    StillBorn(l, l1);
  }

  /** No leg carries an offer yet. */
  predicate NoOffers(c: Call) {
    && (forall i :: 0 <= i < |c.ingress.txs| ==> !c.ingress.txs[i].kind.CarriesOffer())
    && (forall i :: 0 <= i < |c.egress.txs| ==> !c.egress.txs[i].kind.CarriesOffer())
  }

  /** How a new call looks: turned away, answered by the echo responder, or waiting for the
      called party. */
  ghost predicate Fresh(c: Call) {
    && SoundCall(c) && FlowKept(c) && NoOffers(c) && Born(c.ingress) && Born(c.egress)
    && |c.ingress.txs| == 1 && !c.ingress.dialogueChanging && !c.egress.dialogueChanging
    && (if c.ingress.state == BeingEstablished
        then !c.ingress.txs[0].isFinalized && (if c.flow == Echo then c.egress.state == NotSet else Waiting(c))
        else c.ingress.state == BeingFailed && c.egress.state == NotSet)
    && forall k :: 0 <= k < |c.ingress.txs[0].responses| ==> !IsPositive(c.ingress.txs[0].responses[k].code)
  }

  predicate Waiting(c: Call) {
    && c.ingress.linked
    && c.egress.state == BeingEstablished && c.egress.linked && |c.egress.txs| == 1 && c.egress.txs[0].responses == []
    && !c.egress.txs[0].isFinalized && !c.egress.received18xSDP
    && c.egress.transformEarlyToFinal == (c.flow == EarlyToFinal)
  }

  /** A call on its way: the caller waits, the egress leg is not set up. */
  ghost predicate Arrived(c: Call) {
    && SoundCall(c) && FlowKept(c) && NoOffers(c) && Born(c.ingress) && Born(c.egress)
    && |c.ingress.txs| == 1 && c.ingress.state == BeingEstablished && !c.ingress.txs[0].isFinalized
    && c.egress.state == NotSet
    && !c.ingress.dialogueChanging && !c.egress.dialogueChanging
    && forall k :: 0 <= k < |c.ingress.txs[0].responses| ==> !IsPositive(c.ingress.txs[0].responses[k].code)
  }

  lemma TurnedFresh(c: Call, code: Status, w: World)
    requires Arrived(c) && code > 299
    ensures Fresh(Turn(c, code, w))
  {
    var l := c.ingress;
    RejectMeCalm(l, Some(0), code, c.repeats, w.d);
    RejectedAlone(l, code, c.repeats, w.d);
    StillBorn(l, RejectMe(l, Some(0), code, c.repeats, w.d));
    PutCalm(c, Ingress, RejectMe(l, Some(0), code, c.repeats, w.d));
  }

  lemma RejectedAlone(l: Leg, code: Status, rep: Repeats, d: Draws)
    requires l.dir == INBOUND && l.state == BeingEstablished && |l.txs| == 1 && code > 299
    ensures var m := RejectMe(l, Some(0), code, rep, d);
            && m.state == BeingFailed && m.txs == [l.txs[0].With(Reply(code, NoBody))]
            && m.dialogueChanging == l.dialogueChanging && m.transformEarlyToFinal == l.transformEarlyToFinal
  {
  }

  lemma RingingArrived(c: Call, code: Status, w: World)
    requires Arrived(c) && code < 200
    ensures Arrived(SendReply(c, Ingress, Some(0), code, NoBody, w))
  {
    var d := SendReply(c, Ingress, Some(0), code, NoBody, w);
    SendReplyCalm(c, Ingress, Some(0), code, NoBody, w);
    StillBorn(c.ingress, d.ingress);
    assert d.ingress == c.ingress || d.ingress == RespondTo(c.ingress, 0, Reply(code, NoBody));
  }

  /** Both legs are there and linked, but nothing was sent on the egress leg yet. */
  function Linked(c: Call, reliable: bool): Call {
    c.(ingress := c.ingress.(linked := true), egress := NewLeg(OUTBOUND).(linked := true, prackSupported := reliable))
  }

  lemma LinkedArrived(c: Call, reliable: bool)
    requires Arrived(c)
    ensures Arrived(DropMe(Linked(c, reliable), Egress))
  {
    var d := DropMe(Linked(c, reliable), Egress);
    TouchReaches(c.ingress, d.ingress);
    StillBorn(c.ingress, d.ingress);
    TouchReaches(NewLeg(OUTBOUND), d.egress);
  }

  lemma LinkedFresh(c: Call, reliable: bool, steersMedia: bool, m: Media, w: World)
    requires Arrived(c) && c.flow != Echo
    ensures Fresh(Link(c, reliable, steersMedia, m, w))
  {
    hide SendNew, Turn, Arrived;
    if steersMedia && !m.ingressPort {
      TurnedFresh(c, 503, w);
    } else {
      LinkedArrived(c, reliable);
      if steersMedia && !m.egressPort {
        TurnedFresh(DropMe(Linked(c, reliable), Egress), 503, w);
      } else {
        InvitedFresh(c, reliable, w);
      }
    }
  }

  /** The egress leg sends its INVITE. */
  lemma InvitedFresh(c: Call, reliable: bool, w: World)
    requires Arrived(c) && c.flow != Echo
    ensures var d := Linked(c, reliable);
            Fresh(d.(egress := SendNew(d.egress, INVITE, None, false, w.d)
                               .(state := BeingEstablished, transformEarlyToFinal := c.flow == EarlyToFinal)))
  {
    hide SendNew;
    var e := Linked(c, reliable).egress;
    InviteSentSound(reliable, c.flow == EarlyToFinal, w.d);
    SentNew(e, INVITE, None, false, w.d);
    TouchReaches(c.ingress, Linked(c, reliable).ingress);
    StillBorn(c.ingress, Linked(c, reliable).ingress);
  }

  lemma EchoFresh(c: Call, v: FirstInvite, m: Media, w: World)
    requires Arrived(c) && c.flow == Echo
    ensures Fresh(AnswerEcho(c, v, m, w))
  {
    if !v.body.WithSDP? || !m.sdpParses {
      TurnedFresh(c, 488, w);
    } else if !m.ingressPort {
      TurnedFresh(c, 503, w);
    } else if !m.answerBuilds {
      TurnedFresh(c, 500, w);
    } else {
      RingingArrived(c, 180, w);
    }
  }

  lemma RoutedFresh(c: Call, v: FirstInvite, t: Target, m: Media, w: World)
    requires Arrived(c) && c.flow == (if t.Record? then t.flow else Plain)
    ensures Fresh(Route(c, v, t, m, w))
  {
    match t
    case NoTarget => TurnedFresh(c, 404, w);
    case AppServer => LinkedFresh(c, v.supports100rel, false, m, w);
    case Phone(registered, reachable, sdpLeft, sentBack) =>
      TurnedFresh(c, 480, w);
      TurnedFresh(c, 604, w);
      TurnedFresh(c, 488, w);
      LinkedFresh(c, sentBack && v.supports100rel, false, m, w);
    case Record(flow, noTimers, steersMedia, _) =>
      if flow == Echo {
        EchoFresh(c, v, m, w);
      } else if flow == EarlyToFinal && !v.body.WithSDP? {
        TurnedFresh(c, 488, w);
      } else if noTimers {
        TurnedFresh(c, 503, w);
      } else {
        LinkedFresh(c, flow == Transparent && v.supports100rel, steersMedia, m, w);
      }
  }

  lemma IngressArrived(v: FirstInvite, flow: Flow, rep: Repeats)
    ensures Arrived(Call(IngressOf(v), Drop(NewLeg(OUTBOUND)), flow, rep))
  {
    IngressOfSound(v);
    TouchReaches(NewLeg(OUTBOUND), Drop(NewLeg(OUTBOUND)));
  }

  /** Routing decides everything but the flow, which the routing record gives. */
  lemma RoutedFlow(c: Call, v: FirstInvite, t: Target, m: Media, w: World)
    requires |c.ingress.txs| > 0
    ensures Route(c, v, t, m, w).flow == c.flow
  {
  }

  lemma NewCallFresh(v: FirstInvite, t: Target, m: Media, w: World)
    ensures Fresh(NewCall(v, t, m, w))
    ensures NewCall(v, t, m, w).flow == if t.Record? then t.flow else Plain
  {
    hide Route, Fresh;
    var c := Call(IngressOf(v), Drop(NewLeg(OUTBOUND)), if t.Record? then t.flow else Plain,
                  if t.Record? then t.repeats else Repeats(false, false));
    IngressArrived(v, c.flow, c.repeats);
    RoutedFlow(c, v, t, m, w);
    match Refusal(v)
    case Some(code) => TurnedFresh(c, code, w);
    case None =>
      var c1 := SendReply(c, Ingress, Some(0), 100, NoBody, w);
      RingingArrived(c, 100, w);
      RoutedFlow(c1, v, t, m, w);
      RoutedFresh(c1, v, t, m, w);
  }

  // ----- runs

  /** The call after the events of a run. */
  function After(v: FirstInvite, t: Target, m: Media, w: World, es: seq<Event>): Call {
    Run(NewCall(v, t, m, w), es)
  }

  lemma {:induction false} RunKeeps(c: Call, es: seq<Event>)
    requires SoundCall(c)
    ensures SoundCall(Run(c, es)) && CallGrows(c, Run(c, es))
    decreases |es|
  {
    if es == [] {
      CallCalmRefl(c);
    } else {
      var before := es[..|es| - 1];
      RunKeeps(c, before);
      StepKeeps(Run(c, before), es[|es| - 1]);
      CallGrowsTrans(c, Run(c, before), Run(c, es));
    }
  }

  lemma OneMore(c: Call, es: seq<Event>, e: Event)
    ensures Run(c, es + [e]) == Step(Run(c, es), e)
  {
    assert (es + [e])[..|es|] == es;
  }

  lemma {:induction false} RunSplits(c: Call, es: seq<Event>, n: nat)
    requires n <= |es|
    ensures Run(c, es) == Run(Run(c, es[..n]), es[n..])
    decreases |es|
  {
    hide Step;
    if n < |es| {
      var before := es[..|es| - 1];
      RunSplits(c, before, n);
      assert before[..n] == es[..n];
      assert es[n..][..|es| - n - 1] == before[n..];
      assert es[n..][|es| - n - 1] == es[|es| - 1];
    } else {
      assert es[..n] == es && es[n..] == [];
    }
  }

  /** A call that some run leads to. */
  ghost predicate Reachable(c: Call) { exists v, t, m, w, es :: c == After(v, t, m, w, es) }

  /** Leg b is a later a: never in an earlier phase, nor in a state that FinalizeMe maps to NotSet;
      a disposed leg stays disposed, and nothing sent or recorded is taken back. */
  predicate Later(a: Leg, b: Leg) {
    && Phase(a.state) <= Phase(b.state) && !HasNoFinalForm(b.state)
    && (a.disposed ==> b.disposed) && a.sent <= b.sent && |a.txs| <= |b.txs|
    && forall i :: 0 <= i < |a.txs| ==>
         b.txs[i].kind == a.txs[i].kind && b.txs[i].dir == a.txs[i].dir && a.txs[i].responses <= b.txs[i].responses
  }

  lemma GrownIsLater(a: Leg, b: Leg)
    requires Grows(a, b) && Sound(b)
    ensures Later(a, b)
  {
    forall i | 0 <= i < |a.txs|
      ensures b.txs[i].kind == a.txs[i].kind && b.txs[i].dir == a.txs[i].dir && a.txs[i].responses <= b.txs[i].responses
    {
      assert TxGrows(a.txs[i], b.txs[i]);
    }
  }

  /** Between any two moments of any run, both legs only move on. */
  lemma NeverBackwards(v: FirstInvite, t: Target, m: Media, w: World, es: seq<Event>, n: nat, s: Side)
    requires n <= |es|
    ensures Later(At(After(v, t, m, w, es[..n]), s), At(After(v, t, m, w, es), s))
  {
    var c := NewCall(v, t, m, w);
    NewCallFresh(v, t, m, w);
    RunKeeps(c, es[..n]);
    RunSplits(c, es, n);
    RunKeeps(Run(c, es[..n]), es[n..]);
    GrownIsLater(At(Run(c, es[..n]), s), At(Run(c, es), s));
  }

  // ----- offers

  /** No peer of the run answers an UPDATE with a second, different 2xx. */
  ghost predicate AnswersOnce(c: Call, es: seq<Event>) {
    forall k :: 0 <= k < |es| ==> !SecondAnswer(Run(c, es[..k]), es[k])
  }

  lemma {:induction false} RunKeepsOffers(c: Call, es: seq<Event>)
    requires LinkInv(c)
    ensures LinkInv(Run(c, es)) && Run(c, es).flow == c.flow
    ensures Exclusive(c) && AnswersOnce(c, es) ==> Exclusive(Run(c, es))
    decreases |es|
  {
    if es != [] {
      var before := es[..|es| - 1];
      RunKeepsOffers(c, before);
      StepKeepsOffers(Run(c, before), es[|es| - 1]);
      StepKeeps(Run(c, before), es[|es| - 1]);
      if AnswersOnce(c, es) {
        AnswersOnceBefore(c, es);
      }
    }
  }

  lemma AnswersOnceBefore(c: Call, es: seq<Event>)
    requires es != [] && AnswersOnce(c, es)
    ensures AnswersOnce(c, es[..|es| - 1]) && !SecondAnswer(Run(c, es[..|es| - 1]), es[|es| - 1])
  {
    var before := es[..|es| - 1];
    forall k | 0 <= k < |before|
      ensures !SecondAnswer(Run(c, before[..k]), before[k])
    {
      assert before[..k] == es[..k];
      assert !SecondAnswer(Run(c, es[..k]), es[k]);
    }
  }

  lemma FreshOffers(c: Call)
    requires Fresh(c)
    ensures LinkInv(c) && Exclusive(c)
  {
  }

  /** Whatever the interleaving of competing offers from both sides, outside the early-to-final
      flow at most one forwarded offer is open, and the leg it came from says so. In every flow a
      forwarded offer and its copy on the other leg name each other. */
  lemma OneOfferAtATime(v: FirstInvite, t: Target, m: Media, w: World, es: seq<Event>)
    ensures Links(After(v, t, m, w, es))
    ensures (t.Record? ==> t.flow != EarlyToFinal) && AnswersOnce(NewCall(v, t, m, w), es) ==>
              AtMostOneOpen(After(v, t, m, w, es)) && Guarded(After(v, t, m, w, es))
  {
    NewCallFresh(v, t, m, w);
    FreshOffers(NewCall(v, t, m, w));
    RunKeepsOffers(NewCall(v, t, m, w), es);
  }

  /** Every reachable call is one of those that the outcomes of the single steps are stated for. */
  lemma ReachableIsSound(c: Call)
    requires Reachable(c)
    ensures LinkInv(c) && SoundCall(c)
  {
    hide Fresh, LinkInv;
    var v, t, m, w, es :| c == After(v, t, m, w, es);
    NewCallFresh(v, t, m, w);
    FreshOffers(NewCall(v, t, m, w));
    RunKeepsOffers(NewCall(v, t, m, w), es);
    InvIsSound(c);
  }
}
