/** The retransmission timer of a transaction (sip/transaction.go), against a clock that counts
    milliseconds. */
module Retransmission {

  function Pow2(n: nat): (p: nat)
    ensures p >= 1
  {
    if n == 0 then 1 else 2 * Pow2(n - 1)
  }

  /** The time of the n-th retransmission, counted from the first transmission: the intervals before it,
      each twice the one before. */
  function SendTime(t1: nat, n: nat): nat {
    if n == 0 then 0 else SendTime(t1, n - 1) + t1 * Pow2(n - 1)
  }

  lemma {:induction false} SendTimeClosed(t1: nat, n: nat)
    ensures SendTime(t1, n) == t1 * (Pow2(n) - 1)
  {
    if n > 0 {
      SendTimeClosed(t1, n - 1);
      Doubled(t1, Pow2(n - 1));
    }
  }

  lemma Doubled(t: nat, p: nat)
    ensures t * (p - 1) + t * p == t * (2 * p - 1)
    ensures t * p * 2 == t * (2 * p)
  {
  }

  /** A transaction as the timer sees it. `deadline` is when the timer fires next, if it is armed;
      `sends` are the times of transmission; `timeouts` those at which the timeout handler ran. */
  class Transaction {
    const t1: nat
    const limit: nat
    var timer: bool
    var armed: bool
    var deadline: nat
    var interval: nat
    var reTXCount: nat
    ghost var started: nat
    ghost var sends: seq<nat>
    ghost var timeouts: seq<nat>

    /** While the timer runs, the interval is t1 doubled once per retransmission, and the transmissions
        so far were where the schedule has them. */
    ghost predicate OnSchedule()
      reads this
    {
      && timer && armed && timeouts == [] && reTXCount <= limit
      && interval == t1 * Pow2(reTXCount)
      && |sends| == reTXCount + 1
      && (forall k :: 0 <= k < |sends| ==> sends[k] == started + SendTime(t1, k))
      && deadline == started + SendTime(t1, reTXCount + 1)
    }

    constructor (t1: nat, limit: nat)
      ensures this.t1 == t1 && this.limit == limit && !timer && !armed && sends == [] && timeouts == []
    {
      this.t1, this.limit := t1, limit;
      timer, armed, deadline, interval, reTXCount := false, false, 0, 0, 0;
      started, sends, timeouts := 0, [], [];
    }

    /** SendSTMessage: the message goes out and the timer starts, if it never ran before. */
    method Start(now: nat)
      requires sends == [] && timeouts == [] && !timer
      modifies this
      ensures OnSchedule() && started == now && reTXCount == 0
    {
      sends, started := sends + [now], now;
      StartTransTimer(now);
    }

    method StartTransTimer(now: nat)
      modifies this`timer, this`armed, this`deadline, this`interval, this`reTXCount
      ensures old(timer) ==> timer && armed == old(armed) && deadline == old(deadline) && interval == old(interval)
                             && reTXCount == old(reTXCount)
      ensures !old(timer) ==> timer && armed && reTXCount == 0 && interval == t1 && deadline == now + t1
    {
      if !timer {
        reTXCount := 0;
        interval := t1;
        timer, armed, deadline := true, true, now + interval;
      }
    }

    /** A response came, or the call is being cleared: the timer stops, but is not forgotten, so a later
        transmission does not start it again. */
    method StopTransTimer()
      modifies this`armed
      ensures old(timer) ==> !armed
      ensures !old(timer) ==> armed == old(armed)
    {
      if timer {
        armed := false;
      }
    }

    /** The message goes out once more, as SendSTMessage sends it. */
    method SendAgain(now: nat)
      modifies this
      ensures sends == old(sends) + [now] && timeouts == old(timeouts)
      ensures old(timer) ==> timer && armed == old(armed)
    {
      sends := sends + [now];
      StartTransTimer(now);
    }

    /** transTimerHandler, when the timer fires. */
    method Fire()
      requires OnSchedule()
      modifies this
      ensures started == old(started)
      ensures old(reTXCount) < limit ==> OnSchedule() && reTXCount == old(reTXCount) + 1
      ensures old(reTXCount) == limit ==>
                && !timer && !armed && sends == old(sends) && timeouts == [old(deadline)]
    {
      var now := deadline;
      if reTXCount >= limit {
        timer, armed := false, false;
        timeouts := timeouts + [now];
        return;
      }
      Doubled(t1, Pow2(reTXCount));
      sends := sends + [now];
      reTXCount := reTXCount + 1;
      interval := interval * 2;
      deadline := now + interval;
    }
  }

  /** A message that is never answered: it is sent limit + 1 times, at intervals that double, and the
      timeout handler runs once, t1 * (2^(limit + 1) - 1) after the first transmission. */
  method NeverAnswered(t: Transaction, now: nat)
    requires t.sends == [] && t.timeouts == [] && !t.timer
    modifies t
    ensures |t.sends| == t.limit + 1
    ensures forall k :: 0 <= k < |t.sends| ==> t.sends[k] == now + SendTime(t.t1, k)
    ensures t.timeouts == [now + t.t1 * (Pow2(t.limit + 1) - 1)] && !t.armed
  {
    t.Start(now);
    while t.reTXCount < t.limit
      invariant t.OnSchedule() && t.started == now
      decreases t.limit - t.reTXCount
    {
      t.Fire();
    }
    t.Fire();
    SendTimeClosed(t.t1, t.limit + 1);
  }

  /** A message that is answered after n retransmissions: it was sent n + 1 times and the timeout handler
      never runs, not even when the message is sent again later. */
  method AnsweredAfter(t: Transaction, now: nat, n: nat, later: nat)
    requires t.sends == [] && t.timeouts == [] && !t.timer && n <= t.limit
    modifies t
    ensures |t.sends| == n + 2 && t.sends[n + 1] == later
    ensures forall k :: 0 <= k <= n ==> t.sends[k] == now + SendTime(t.t1, k)
    ensures t.timeouts == [] && !t.armed
  {
    t.Start(now);
    while t.reTXCount < n
      invariant t.OnSchedule() && t.started == now && t.reTXCount <= n
      decreases n - t.reTXCount
    {
      t.Fire();
    }
    t.StopTransTimer();
    t.SendAgain(later);
  }
}
