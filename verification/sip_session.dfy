/** A session object and its methods, updating the transaction list, the counters and the flags in
    place. Each method does to the object what the function of the same step in Session does to a
    leg. */
module SipSessions {
  import opened SessionState
  import opened SipTypes
  import opened Session

  class SipSession {
    const direction: Direction
    var state: State
    var linkedSession: SipSession?
    var isDisposed: bool
    var dialogueChanging: bool
    var received18xSDP: bool
    var transformEarlyToFinal: bool
    var isPRACKSupported: bool
    var rSeq: nat
    var fwdCSeq: nat
    var bwdCSeq: nat
    var branches: nat
    var transactions: seq<Tx>
    var sent: seq<Sent>

    /** The leg this session is at the moment. */
    function Snapshot(): Leg
      reads this
    {
      Leg(direction, state, linkedSession != null, isDisposed, dialogueChanging, received18xSDP,
          transformEarlyToFinal, isPRACKSupported, rSeq, fwdCSeq, bwdCSeq, branches, transactions, sent)
    }

    constructor (d: Direction)
      ensures Snapshot() == NewLeg(d) && linkedSession == null
    {
      direction, state, linkedSession := d, NotSet, null;
      isDisposed, dialogueChanging, received18xSDP := false, false, false;
      transformEarlyToFinal, isPRACKSupported := false, false;
      rSeq, fwdCSeq, bwdCSeq, branches := 0, 0, 0, 0;
      transactions, sent := [], [];
    }

    // ----- state and flags

    method SetState(s: State)
      modifies this`state
      ensures Snapshot() == Enter(old(Snapshot()), s)
    {
      state := s;
    }

    method FinalizeState()
      modifies this`state
      ensures Snapshot() == Finalize(old(Snapshot()))
    {
      state := FinalizeMe(state);
    }

    /** Sets the flag and says whether that changed it. */
    method CheckAndSetDialogueChanging(flag: bool) returns (changed: bool)
      modifies this`dialogueChanging
      ensures Snapshot() == old(Snapshot()).(dialogueChanging := flag)
      ensures changed == (old(dialogueChanging) != flag)
    {
      changed := flag != dialogueChanging;
      if changed {
        dialogueChanging := flag;
      }
    }

    method DropMe()
      modifies this`isDisposed
      ensures Snapshot() == Drop(old(Snapshot()))
    {
      if isDisposed {
        return;
      }
      isDisposed := true;
    }

    // ----- searching the list

    /** Find: the first transaction of the list that the predicate accepts. */
    method Find(p: Tx -> bool) returns (r: Option<nat>)
      ensures r == First(transactions, p)
    {
      var i := 0;
      while i < |transactions|
        invariant 0 <= i <= |transactions|
        invariant forall k :: 0 <= k < i ==> !p(transactions[k])
      {
        if p(transactions[i]) {
          FirstIs(transactions, p, i);
          return Some(i);
        }
        i := i + 1;
      }
      return None;
    }

    method GetRequestTransaction(q: Request) returns (r: Option<nat>)
      ensures r == FindRequest(Snapshot(), q)
    {
      r := Find(t => MatchesRequest(t, q));
    }

    method GetResponseTransaction(m: Response) returns (r: Option<nat>)
      ensures r == FindResponse(Snapshot(), m)
    {
      r := Find(t => MatchesResponse(t, m));
    }

    method GetReOrInviteTransaction(cseq: nat, finalized: bool) returns (r: Option<nat>)
      ensures r == ReOrInvite(Snapshot(), cseq, finalized)
    {
      r := Find(t => IsReOrInvite(t, cseq, finalized));
    }

    method GetPRACKTransaction(rseq: nat) returns (r: Option<nat>)
      ensures r == PrackFor(Snapshot(), rseq)
    {
      r := Find((t: Tx) => t.dir == INBOUND && t.rseq == rseq && t.kind == PRACK);
    }

    method GetUnACKedINVorReINV() returns (r: Option<nat>)
      ensures r == FirstNeedingACK(Snapshot())
    {
      r := Find(NeedsACK);
    }

    /** Searches backwards from the end of the list. */
    method GetLastUnACKedINV(d: Direction) returns (r: Option<nat>)
      ensures r == LastUnACKedInvite(Snapshot(), d)
    {
      var p := t => IsUnACKedInvite(t, d);
      var i := |transactions|;
      while i > 0
        invariant 0 <= i <= |transactions|
        invariant forall k :: i <= k < |transactions| ==> !p(transactions[k])
      {
        i := i - 1;
        if p(transactions[i]) {
          LastIs(transactions, p, i);
          return Some(i);
        }
      }
      return None;
    }

    method IsDuplicateRequestMessage(q: Request) returns (duplicate: bool)
      ensures duplicate == IsDuplicateRequest(Snapshot(), q)
    {
      if q.kind == INVITE {
        return true;
      }
      var t := GetRequestTransaction(q);
      return t.Some?;
    }

    method IsDuplicateResponseMessage(m: Response) returns (duplicate: bool)
      ensures duplicate == IsDuplicateResponse(Snapshot(), m)
    {
      if m.code <= 199 {
        return false;
      }
      var t := GetResponseTransaction(m);
      if t.None? {
        return true;
      }
      return transactions[t.value].HasCode(m.code);
    }

    // ----- incoming messages

    method AddTransaction(t: Tx)
      modifies this`transactions
      ensures Snapshot() == Append(old(Snapshot()), t)
    {
      transactions := transactions + [t];
    }

    method AddIncomingACK(q: Request) returns (r: Option<nat>)
      modifies this`transactions
      ensures (Snapshot(), r) == ReceiveACK(old(Snapshot()), q)
    {
      r := GetReOrInviteTransaction(q.cseq, true);
      if r.Some? {
        var t := transactions[r.value];
        if t.isACKed || t.AnyNegative() != (t.branch == q.branch) {
          return None;
        }
        transactions := transactions[r.value := t.(isACKed := true)];
      }
    }

    method AddIncomingCANCEL(q: Request) returns (r: Option<nat>)
      requires q.kind == CANCEL
      modifies this`transactions
      ensures (Snapshot(), r) == ReceiveCANCEL(old(Snapshot()), q)
    {
      var invite := GetReOrInviteTransaction(q.cseq, false);
      if invite.None? {
        r := Some(|transactions|);
        AddTransaction(IncomingTx(q, None));
      } else if transactions[invite.value].branch == q.branch {
        r := Some(|transactions|);
        AddTransaction(IncomingTx(q, Some(Here(invite.value))));
      } else {
        r := None;
      }
    }

    method AddIncomingPRACK(q: Request) returns (r: Option<nat>)
      requires q.kind == PRACK
      modifies this`transactions
      ensures (Snapshot(), r) == ReceivePRACK(old(Snapshot()), q)
    {
      r := None;
      if q.rack.RAck? {
        r := GetPRACKTransaction(q.rack.rseq);
      }
      if r.None? {
        r := Some(|transactions|);
        AddTransaction(IncomingTx(q, None).(prack := if q.rack.RAck? then PRACKUnexpected else PRACKMissingBadRAck));
      } else {
        var t := transactions[r.value];
        transactions := transactions[r.value := t.(hasRequest := true, cseq := q.cseq, branch := q.branch)];
      }
    }

    /** addIncomingRequest, once a BYE has stopped the timers. */
    method TakeIncomingRequest(q: Request) returns (r: Option<nat>)
      modifies this`transactions
      ensures (Snapshot(), r) == AddIncomingRequest(old(Snapshot()), q)
    {
      if q.kind == ACK {
        r := AddIncomingACK(q);
      } else if q.kind == CANCEL {
        r := AddIncomingCANCEL(q);
      } else if q.kind == PRACK {
        r := AddIncomingPRACK(q);
      } else {
        r := Some(|transactions|);
        AddTransaction(IncomingTx(q, None));
      }
    }

    method TakeIncomingResponse(m: Response) returns (r: Option<nat>)
      modifies this`transactions
      ensures (Snapshot(), r) == AddIncomingResponse(old(Snapshot()), m)
    {
      r := GetResponseTransaction(m);
      if r.Some? {
        transactions := transactions[r.value := transactions[r.value].With(Reply(m.code, m.body))];
      }
    }

    // ----- responses

    method GenerateRSeqCreatePRACKST(j: nat, d: Draws)
      modifies this`rSeq, this`transactions
      ensures Snapshot() == ExpectPRACK(old(Snapshot()), j, d)
    {
      if rSeq == 0 {
        rSeq := d.rseq;
      } else {
        rSeq := (rSeq + 1) % WRAP;
      }
      AddTransaction(BLANK_TX.(kind := PRACK, rseq := rSeq, link := Some(There(j))));
    }

    /** SendCreatedResponseDetailed; without a transaction, on the last INVITE that has no ACK. */
    method SendCreatedResponse(trans: Option<nat>, r: Reply, prack: Option<nat>, rep: Repeats, d: Draws)
      requires trans.Some? ==> trans.value < |transactions|
      modifies this`transactions, this`rSeq
      ensures Snapshot() == Answer(old(Snapshot()), trans, r, prack, rep, d)
    {
      var found := trans;
      if found.None? {
        found := GetLastUnACKedINV(INBOUND);
        if found.None? {
          return;
        }
      }
      var t := transactions[found.value];
      if Suppressed(t, r, prack.Some?, rep) {
        return;
      }
      transactions := transactions[found.value := t.With(r)];
      if Is18x(r.code) && isPRACKSupported && direction == INBOUND && prack.Some? {
        GenerateRSeqCreatePRACKST(prack.value, d);
      }
    }

    // ----- requests

    /** Draws or increments the CSeq of this direction and logs the request. */
    method TakeCSeq(m: Method, d: Draws) returns (n: nat)
      modifies this`fwdCSeq, this`bwdCSeq, this`sent
      ensures n == NextCSeq(old(Snapshot()), d)
      ensures Snapshot() == CountRequest(old(Snapshot()), m, d)
    {
      if direction == OUTBOUND {
        fwdCSeq := if fwdCSeq == 0 then d.fwd else (fwdCSeq + 1) % WRAP;
        n := fwdCSeq;
      } else {
        bwdCSeq := if bwdCSeq == 0 then d.bwd else (bwdCSeq + 1) % WRAP;
        n := bwdCSeq;
      }
      sent := sent + [Sending(m, n)];
    }

    method SendNewRequest(m: Method, link: Option<nat>, probing: bool, d: Draws)
      modifies this`fwdCSeq, this`bwdCSeq, this`sent, this`branches, this`transactions
      ensures Snapshot() == SendNew(old(Snapshot()), m, link, probing, d)
    {
      var n := TakeCSeq(m, d);
      branches := branches + 1;
      AddTransaction(BLANK_TX.(kind := m, dir := OUTBOUND, cseq := n, branch := branches,
                              link := if link.Some? then Some(There(link.value)) else None,
                              hasRequest := true, isProbing := probing));
    }

    method SendPRACK(i: nat, d: Draws)
      requires i < |transactions|
      modifies this`fwdCSeq, this`bwdCSeq, this`sent, this`branches, this`transactions
      ensures Snapshot() == SendPrack(old(Snapshot()), i, d)
    {
      if direction == OUTBOUND {
        var n := TakeCSeq(PRACK, d);
        transactions := transactions[i := transactions[i].(cseq := n, hasRequest := true)];
      } else {
        SendNewRequest(PRACK, None, false, d);
      }
    }

    method GenerateOutgoingPRACKST(rseq: nat)
      modifies this`branches, this`transactions
      ensures Snapshot() == OwePRACK(old(Snapshot()), rseq)
    {
      branches := branches + 1;
      AddTransaction(BLANK_TX.(kind := PRACK, dir := OUTBOUND, rseq := rseq, branch := branches));
    }

    method SendACK(lt: Option<nat>)
      requires lt.Some? ==> lt.value < |transactions|
      modifies this`sent, this`transactions
      ensures Snapshot() == SendAck(old(Snapshot()), lt)
    {
      var found := lt;
      if found.None? {
        found := GetUnACKedINVorReINV();
      }
      if found.Some? {
        var t := transactions[found.value];
        transactions := transactions[found.value := t.(isACKed := true)];
        sent := sent + [Sent(ACK, t.cseq, t.kind)];
      }
    }

    method SendCANCEL()
      modifies this`sent, this`transactions
      ensures Snapshot() == SendCancel(old(Snapshot()))
    {
      var found := GetLastUnACKedINV(OUTBOUND);
      if found.Some? {
        var t := transactions[found.value];
        transactions := transactions[found.value := t.(link := Some(Here(|transactions|)))];
        AddTransaction(BLANK_TX.(kind := CANCEL, dir := OUTBOUND, cseq := t.cseq, branch := t.branch,
                                link := Some(Here(found.value)), hasRequest := true));
        sent := sent + [Sent(CANCEL, t.cseq, t.kind)];
      }
    }

    /** Answers 503 to every pending incoming request; stops at the first that has no request. */
    method RejectPendingRequests() returns (completed: bool)
      modifies this`transactions
      ensures Snapshot() == RejectPending(old(Snapshot()))
      ensures completed == !ByeFails(old(Snapshot()))
    {
      ghost var txs := transactions;
      var i := 0;
      while i < |transactions|
        invariant 0 <= i <= |txs| && transactions == RejectUpTo(txs, i)
        invariant forall k :: 0 <= k < i ==> !(txs[k].Pending() && !txs[k].hasRequest)
      {
        var t := transactions[i];
        if t.Pending() {
          transactions := transactions[i := t.With(Reply(503, NoBody))];
          if !t.hasRequest {
            FirstIs(txs, (t: Tx) => t.Pending() && !t.hasRequest, i);
            assert transactions == RejectUpTo(txs, i + 1);
            return false;
          }
        }
        assert transactions == RejectUpTo(txs, i + 1);
        i := i + 1;
      }
      return true;
    }

    method SendBYE(link: Option<nat>, d: Draws) returns (completed: bool)
      modifies this`fwdCSeq, this`bwdCSeq, this`sent, this`branches, this`transactions
      ensures Snapshot() == SendBye(old(Snapshot()), link, d)
      ensures completed == !ByeFails(old(Snapshot()))
    {
      completed := RejectPendingRequests();
      if completed {
        SendNewRequest(BYE, link, false, d);
      }
    }

    // ----- ending a session

    /** ReleaseMe; also says whether the BYE went out. */
    method Release(link: Option<nat>, d: Draws) returns (released: bool, completed: bool)
      modifies this
      ensures Snapshot() == ReleaseMe(old(Snapshot()), link, d)
      ensures released == (old(state) == Established) && (released ==> completed == !ByeFails(old(Snapshot())))
      ensures linkedSession == old(linkedSession)
    {
      released, completed := state == Established, true;
      if released {
        SetState(BeingCleared);
        completed := SendBYE(link, d);
      }
    }

    method Cancel()
      modifies this
      ensures Snapshot() == CancelMe(old(Snapshot()))
      ensures linkedSession == old(linkedSession)
    {
      if direction == OUTBOUND && state == BeingEstablished {
        SetState(BeingCancelled);
        SendCANCEL();
      }
    }

    method Reject(trans: Option<nat>, code: Status, rep: Repeats, d: Draws)
      requires trans.Some? ==> trans.value < |transactions|
      modifies this
      ensures Snapshot() == RejectMe(old(Snapshot()), trans, code, rep, d)
      ensures linkedSession == old(linkedSession)
    {
      if direction == INBOUND && state == BeingEstablished {
        SetState(BeingFailed);
        SendCreatedResponse(trans, Reply(code, NoBody), None, rep, d);
      }
    }

    method Ack3xxTo6xx(s: State)
      modifies this
      ensures Snapshot() == AckFailure(old(Snapshot()), s)
      ensures linkedSession == old(linkedSession)
    {
      if direction == OUTBOUND {
        SetState(s);
        SendACK(None);
      }
    }
  }

  // ----- what the searches find

  lemma {:induction false} FirstIs(txs: seq<Tx>, p: Tx -> bool, i: nat)
    requires i < |txs| && p(txs[i]) && forall k :: 0 <= k < i ==> !p(txs[k])
    ensures First(txs, p) == Some(i)
  {
  }

  lemma {:induction false} LastIs(txs: seq<Tx>, p: Tx -> bool, i: nat)
    requires i < |txs| && p(txs[i]) && forall k :: i < k < |txs| ==> !p(txs[k])
    ensures Last(txs, p) == Some(i)
  {
  }
}
