/** Every helper of a leg keeps what holds of it, and what each changes. */
module SessionKeeps {
  import opened SessionState
  import opened SipTypes
  import opened Moves
  import opened Evolution
  import opened Session

  // ----- changes without their moves

  /** Calm and Decent but for the moves. */
  predicate Calmly(a: Leg, b: Leg) { Grown(a, b) && Sound(b) && Still(a, b) && Modest(a, b) }
  predicate Decently(a: Leg, b: Leg) { Grown(a, b) && Sound(b) && Modest(a, b) }

  /** Neither the state nor a flag differs. */
  predicate SameState(a: Leg, b: Leg) {
    && b.dir == a.dir && b.state == a.state && b.linked == a.linked && b.disposed == a.disposed
    && b.dialogueChanging == a.dialogueChanging && b.received18xSDP == a.received18xSDP
    && b.transformEarlyToFinal == a.transformEarlyToFinal
  }

  /** What a transaction must be like to join the list. */
  predicate Listable(l: Leg, t: Tx) {
    && (l.state == NotSet ==> ForwardedAnyway(t)) && t.kind != INVITE
    && (t.dir == OUTBOUND ==>
          && (t.kind == CANCEL ==> l.dir == OUTBOUND && Phase(l.state) >= 3)
          && (t.kind == BYE ==> l.dir == OUTBOUND || Phase(l.state) >= 3))
  }

  /** A transaction joins the list. */
  lemma ListedKeeps(l: Leg, t: Tx, b: Leg)
    requires Sound(l) && Listable(l, t) && b.txs == l.txs + [t] && SameState(l, b) && l.sent <= b.sent
    ensures Decently(l, b)
    ensures (t.kind.CarriesOffer() ==> t.dir == INBOUND && t.link.None?) ==> Calmly(l, b)
  {
  }

  /** Transactions get new versions with no new response; an offer's link may be set. */
  lemma RevisedKeeps(l: Leg, i: nat, t: Tx, b: Leg)
    requires Sound(l) && i < |l.txs| && TxGrows(l.txs[i], t)
    requires t.responses == l.txs[i].responses && t.isFinalized == l.txs[i].isFinalized
    requires b.txs == l.txs[i := t] && SameState(l, b) && l.sent <= b.sent
    ensures Decently(l, b)
    ensures !t.kind.CarriesOffer() || t.link == l.txs[i].link ==> Calmly(l, b)
  {
  }

  // ----- small updates

  lemma EnterKeeps(l: Leg, s: State)
    requires Sound(l) && l.state != NotSet
    requires Phase(s) >= Phase(l.state) && !HasNoFinalForm(s)
    ensures Grows(l, Enter(l, s)) && Sound(Enter(l, s)) && Quiet(l, Enter(l, s))
    ensures Phase(s) >= 3 ==> Calm(l, Enter(l, s))
  {
    TouchReaches(l, Enter(l, s));
  }

  lemma FinalizeKeeps(l: Leg)
    requires Sound(l)
    ensures Grows(l, Finalize(l)) && Sound(Finalize(l)) && Quiet(l, Finalize(l))
    ensures l.state != BeingEstablished || l.dir == OUTBOUND ==> Calm(l, Finalize(l))
  {
    hide Reaches;
    TouchReaches(l, Finalize(l));
  }

  lemma UpdateKeeps(l: Leg, i: nat, t: Tx)
    requires Sound(l) && i < |l.txs| && TxGrows(l.txs[i], t)
    ensures Grows(l, Update(l, i, t)) && Sound(Update(l, i, t))
    ensures !t.kind.CarriesOffer() || t.link == l.txs[i].link ==> Quiet(l, Update(l, i, t))
  {
    OneMove(l, Edit(l.txs[i := t]));
  }

  /** A new version with no new response. */
  lemma ReviseKeeps(l: Leg, i: nat, t: Tx)
    requires Sound(l) && i < |l.txs| && TxGrows(l.txs[i], t)
    requires t.responses == l.txs[i].responses && t.isFinalized == l.txs[i].isFinalized
    ensures Decent(l, Update(l, i, t)) && Reaches(l, Update(l, i, t), true)
    ensures !t.kind.CarriesOffer() || t.link == l.txs[i].link ==> Calm(l, Update(l, i, t))
  {
    OneMove(l, Edit(l.txs[i := t]));
    RevisedKeeps(l, i, t, Update(l, i, t));
  }

  lemma ReceiveCalm(l: Leg, t: Tx)
    requires Sound(l) && l.state != NotSet && Arrives(t) && t.kind != INVITE && (t.kind.CarriesOffer() ==> t.link.None?)
    ensures Calm(l, Append(l, t))
  {
    OneMove(l, Receive(t));
    ListedKeeps(l, t, Append(l, t));
  }

  /** A response that answers nobody. */
  predicate Harmless(l: Leg, i: nat, code: Status) {
    i > 0 || (l.dir == INBOUND && (code < 200 || (l.state != BeingEstablished && code > 299)))
  }

  lemma RespondToKeeps(l: Leg, i: nat, r: Reply)
    requires Sound(l) && i < |l.txs|
    ensures Grows(l, RespondTo(l, i, r)) && Sound(RespondTo(l, i, r)) && Quiet(l, RespondTo(l, i, r))
    ensures Harmless(l, i, r.code) ==> Calm(l, RespondTo(l, i, r))
  {
    UpdateKeeps(l, i, l.txs[i].With(r));
    if Harmless(l, i, r.code) {
      HarmlessIsModest(l, i, r);
    }
  }

  lemma HarmlessIsModest(l: Leg, i: nat, r: Reply)
    requires Sound(l) && i < |l.txs| && Harmless(l, i, r.code)
    ensures Modest(l, RespondTo(l, i, r))
  {
  }

  lemma SetLinkKeeps(l: Leg, i: nat, j: nat)
    requires Sound(l) && i < |l.txs| && (l.txs[i].kind.CarriesOffer() ==> l.txs[i].link.None?)
    ensures Decent(l, SetLink(l, i, j)) && Reaches(l, SetLink(l, i, j), true)
    ensures !l.txs[i].kind.CarriesOffer() ==> Calm(l, SetLink(l, i, j))
  {
    ReviseKeeps(l, i, l.txs[i].(link := Some(There(j))));
  }

  // ----- incoming messages

  lemma ReceiveACKCalm(l: Leg, q: Request)
    requires Sound(l)
    ensures Calm(l, ReceiveACK(l, q).0)
  {
    var found := ReOrInvite(l, q.cseq, true);
    if found.Some? {
      ReviseKeeps(l, found.value, l.txs[found.value].(isACKed := true));
    }
  }

  lemma ReceiveCANCELCalm(l: Leg, q: Request)
    requires Sound(l) && l.state != NotSet && q.kind == CANCEL
    ensures Calm(l, ReceiveCANCEL(l, q).0)
  {
    var found := ReOrInvite(l, q.cseq, false);
    ReceiveCalm(l, IncomingTx(q, if found.None? then None else Some(Here(found.value))));
  }

  lemma ReceivePRACKCalm(l: Leg, q: Request)
    requires Sound(l) && l.state != NotSet && q.kind == PRACK
    ensures Calm(l, ReceivePRACK(l, q).0)
  {
    var found := if q.rack.RAck? then PrackFor(l, q.rack.rseq) else None;
    match found
    case Some(i) =>
      ReviseKeeps(l, i, l.txs[i].(hasRequest := true, cseq := q.cseq, branch := q.branch));
    case None =>
      ReceiveCalm(l, IncomingTx(q, None).(prack := if q.rack.RAck? then PRACKUnexpected else PRACKMissingBadRAck));
  }

  lemma AddIncomingRequestCalm(l: Leg, q: Request)
    requires Sound(l) && l.state != NotSet && q.kind != INVITE
    ensures Calm(l, AddIncomingRequest(l, q).0)
  {
    if q.kind == ACK {
      ReceiveACKCalm(l, q);
    } else if q.kind == CANCEL {
      ReceiveCANCELCalm(l, q);
    } else if q.kind == PRACK {
      ReceivePRACKCalm(l, q);
    } else {
      ReceiveCalm(l, IncomingTx(q, None));
    }
  }

  // ----- responses

  lemma ExpectPRACKCalm(l: Leg, j: nat, d: Draws)
    requires Sound(l) && l.state != NotSet
    ensures Calm(l, ExpectPRACK(l, j, d))
  {
    var b := ExpectPRACK(l, j, d);
    OneMove(l, Expect(j, d));
    ListedKeeps(l, b.txs[|l.txs|], b);
  }

  lemma SendResponseKeeps(l: Leg, i: nat, r: Reply, prack: Option<nat>, rep: Repeats, d: Draws)
    requires Sound(l) && (prack.Some? ==> l.state != NotSet) && i < |l.txs|
    ensures var b := SendResponse(l, i, r, prack, rep, d); Grows(l, b) && Sound(b) && Quiet(l, b)
    ensures Harmless(l, i, r.code) ==> Calm(l, SendResponse(l, i, r, prack, rep, d))
  {
    hide ExpectPRACK;
    var l1 := RespondTo(l, i, r);
    RespondToKeeps(l, i, r);
    if Is18x(r.code) && l.dir == INBOUND && prack.Some? {
      ExpectPRACKCalm(l1, prack.value, d);
      CalmTrans(l, l1, ExpectPRACK(l1, prack.value, d));
    }
  }

  // ----- requests

  predicate CanSend(l: Leg, m: Method) {
    && (l.state == NotSet ==> m in {ReINVITE, UPDATE, INFO}) && m !in {INVITE, CANCEL, ACK}
    && (m == BYE ==> l.dir == OUTBOUND || Phase(l.state) >= 3)
  }

  lemma SendNewKeeps(l: Leg, m: Method, link: Option<nat>, probing: bool, d: Draws)
    requires Sound(l) && CanSend(l, m)
    ensures Decent(l, SendNew(l, m, link, probing, d))
    ensures Reaches(l, SendNew(l, m, link, probing, d), true)
    ensures !m.CarriesOffer() ==> Quiet(l, SendNew(l, m, link, probing, d))
  {
    OneMove(l, Send(m, link, probing, d));
    SentNew(l, m, link, probing, d);
    ListedKeeps(l, OutgoingTx(l, m, link, probing, d), SendNew(l, m, link, probing, d));
  }

  lemma SendPrackCalm(l: Leg, i: nat, d: Draws)
    requires Sound(l) && i < |l.txs| && l.txs[i].kind == PRACK
    ensures Calm(l, SendPrack(l, i, d))
  {
    OneMove(l, Prack(i, d));
    if l.dir == OUTBOUND {
      RevisedKeeps(l, i, l.txs[i].(cseq := NextCSeq(l, d), hasRequest := true), SendPrack(l, i, d));
    } else {
      SendNewKeeps(l, PRACK, None, false, d);
    }
  }

  lemma OwePRACKCalm(l: Leg, rseq: nat)
    requires Sound(l) && l.state != NotSet
    ensures Calm(l, OwePRACK(l, rseq))
  {
    OneMove(l, Owe(rseq));
    ListedKeeps(l, OwePRACK(l, rseq).txs[|l.txs|], OwePRACK(l, rseq));
  }

  /** The acknowledged transaction is marked, and the ACK is logged. */
  lemma AckedKeeps(l: Leg, i: nat)
    requires Sound(l) && i < |l.txs|
    ensures Decent(l, SendAck(l, Some(i)))
    ensures TakesACK(l, i) ==> Calm(l, SendAck(l, Some(i)))
  {
    hide Reaches;
    OneMove(l, if TakesACK(l, i) then Acknowledge(i) else Stray(i));
    RevisedKeeps(l, i, l.txs[i].(isACKed := true), SendAck(l, Some(i)));
  }

  lemma SendAckKeeps(l: Leg, lt: Option<nat>)
    requires Sound(l) && (lt.Some? ==> lt.value < |l.txs|)
    ensures Decent(l, SendAck(l, lt))
    ensures (lt.Some? ==> TakesACK(l, lt.value)) ==> Calm(l, SendAck(l, lt))
  {
    hide Decent, Calm;
    var found := if lt.Some? then lt else FirstNeedingACK(l);
    if found.Some? {
      assert SendAck(l, lt) == SendAck(l, found);
      AckedKeeps(l, found.value);
    } else {
      NothingKeeps(l);
    }
  }

  lemma NothingKeeps(l: Leg)
    requires Sound(l)
    ensures Decent(l, l) && Calm(l, l)
  {
    hide Reaches;
    TouchReaches(l, l);
  }

  lemma SendAckCalm(l: Leg)
    requires Sound(l)
    ensures Calm(l, SendAck(l, None))
  {
    SendAckKeeps(l, None);
  }

  /** The CANCEL joins the list, and the INVITE, which is the first transaction, names it. */
  lemma SentCancel(l: Leg)
    requires Sound(l) && LastUnACKedInvite(l, OUTBOUND).Some?
    ensures var t := l.txs[0].(link := Some(Here(|l.txs|)));
            var cancel := BLANK_TX.(kind := CANCEL, dir := OUTBOUND, cseq := t.cseq, branch := t.branch,
                                    link := Some(Here(0)), hasRequest := true);
            && LastUnACKedInvite(l, OUTBOUND) == Some(0)
            && SendCancel(l) == Log(Append(Update(l, 0, t), cancel), Sent(CANCEL, t.cseq, INVITE))
  {
  }

  lemma SendCancelCalm(l: Leg)
    requires Sound(l) && l.dir == OUTBOUND && Phase(l.state) >= 3
    requires forall i :: 0 <= i < |l.txs| ==> !(l.txs[i].kind == CANCEL && l.txs[i].dir == OUTBOUND)
    ensures Calm(l, SendCancel(l))
  {
    if LastUnACKedInvite(l, OUTBOUND).Some? {
      CancelSentCalm(l);
    }
  }

  lemma CancelSentGrown(l: Leg)
    requires Sound(l) && l.dir == OUTBOUND && Phase(l.state) >= 3 && LastUnACKedInvite(l, OUTBOUND).Some?
    ensures var m := SendCancel(l); Grown(l, m) && Sound(m) && Still(l, m) && Modest(l, m)
  {
    hide SendCancel, LastUnACKedInvite, Reaches;
    var t := l.txs[0].(link := Some(Here(|l.txs|)));
    var l1 := Update(l, 0, t);
    SentCancel(l);
    RevisedKeeps(l, 0, t, l1);
    ListedKeeps(l1, SendCancel(l).txs[|l.txs|], SendCancel(l));
    GrownTrans(l, l1, SendCancel(l));
    StillTrans(l, l1, SendCancel(l));
    ModestTrans(l, l1, SendCancel(l));
  }

  lemma CancelSentCalm(l: Leg)
    requires Sound(l) && l.dir == OUTBOUND && Phase(l.state) >= 3 && LastUnACKedInvite(l, OUTBOUND).Some?
    requires forall i :: 0 <= i < |l.txs| ==> !(l.txs[i].kind == CANCEL && l.txs[i].dir == OUTBOUND)
    ensures Calm(l, SendCancel(l))
  {
    hide SendCancel, Grown, Still, Modest;
    SentCancel(l);
    OneMove(l, Cancel);
    CancelSentGrown(l);
  }

  lemma RejectPendingGrown(l: Leg)
    requires Sound(l)
    ensures Grown(l, RejectPending(l)) && Sound(RejectPending(l)) && Still(l, RejectPending(l))
    ensures AllEdited(l.txs, RejectPending(l).txs)
  {
  }

  lemma RejectPendingKeeps(l: Leg)
    requires Sound(l)
    ensures Grows(l, RejectPending(l)) && Sound(RejectPending(l)) && Quiet(l, RejectPending(l))
    ensures l.state != BeingEstablished || l.dir == OUTBOUND ==> Calm(l, RejectPending(l))
  {
    RejectPendingGrown(l);
    OneMove(l, Edit(RejectPending(l).txs));
  }

  lemma SendByeCalm(l: Leg, link: Option<nat>, d: Draws)
    requires Sound(l) && CanSend(l, BYE) && l.state != BeingEstablished
    ensures Calm(l, SendBye(l, link, d))
  {
    var l1 := RejectPending(l);
    RejectPendingKeeps(l);
    if !ByeFails(l) {
      SendNewKeeps(l1, BYE, link, false, d);
      CalmTrans(l, l1, SendBye(l, link, d));
    }
  }

  // ----- ending a leg

  lemma DropCalm(l: Leg)
    requires Sound(l)
    ensures Calm(l, Drop(l))
  {
    TouchReaches(l, Drop(l));
  }

  lemma EnterAndByeCalm(l: Leg, s: State, link: Option<nat>, d: Draws)
    requires Sound(l) && l.state != NotSet && Phase(l.state) <= 2 && Phase(s) == 3 && !HasNoFinalForm(s)
    ensures Calm(l, EnterAndBye(l, s, link, d))
  {
    var l1 := Enter(l, s);
    EnterKeeps(l, s);
    SendByeCalm(l1, link, d);
    CalmTrans(l, l1, SendBye(l1, link, d));
  }

  lemma ReleaseMeCalm(l: Leg, link: Option<nat>, d: Draws)
    requires Sound(l)
    ensures Calm(l, ReleaseMe(l, link, d))
  {
    if l.state == Established {
      EnterAndByeCalm(l, BeingCleared, link, d);
    }
  }

  lemma CancelMeCalm(l: Leg)
    requires Sound(l)
    ensures Calm(l, CancelMe(l))
  {
    if l.dir == OUTBOUND && l.state == BeingEstablished {
      var l1 := Enter(l, BeingCancelled);
      EnterKeeps(l, BeingCancelled);
      SendCancelCalm(l1);
      CalmTrans(l, l1, SendCancel(l1));
    }
  }

  lemma AnswerKeeps(l: Leg, trans: Option<nat>, r: Reply, prack: Option<nat>, rep: Repeats, d: Draws)
    requires Sound(l) && (prack.Some? ==> l.state != NotSet) && (trans.Some? ==> trans.value < |l.txs|)
    ensures var b := Answer(l, trans, r, prack, rep, d); Grows(l, b) && Sound(b) && Quiet(l, b)
    ensures (if trans.Some? then Harmless(l, trans.value, r.code) else l.dir == OUTBOUND || Harmless(l, 0, r.code)) ==>
              Calm(l, Answer(l, trans, r, prack, rep, d))
  {
    var found := if trans.Some? then trans else LastUnACKedInvite(l, INBOUND);
    if found.Some? {
      SendResponseKeeps(l, found.value, r, prack, rep, d);
    }
  }

  lemma RejectMeCalm(l: Leg, trans: Option<nat>, code: Status, rep: Repeats, d: Draws)
    requires Sound(l) && (trans.Some? ==> trans.value < |l.txs|) && code > 299
    ensures Calm(l, RejectMe(l, trans, code, rep, d))
  {
    if l.dir == INBOUND && l.state == BeingEstablished {
      var l1 := Enter(l, BeingFailed);
      EnterKeeps(l, BeingFailed);
      AnswerKeeps(l1, trans, Reply(code, NoBody), None, rep, d);
      CalmTrans(l, l1, RejectMe(l, trans, code, rep, d));
    }
  }

  lemma AckFailureCalm(l: Leg, s: State)
    requires Sound(l) && l.state != NotSet
    requires Phase(s) >= 3 && Phase(s) >= Phase(l.state) && !HasNoFinalForm(s)
    ensures Calm(l, AckFailure(l, s))
  {
    if l.dir == OUTBOUND {
      var l1 := Enter(l, s);
      EnterKeeps(l, s);
      SendAckCalm(l1);
      CalmTrans(l, l1, SendAck(l1, None));
    }
  }
}
