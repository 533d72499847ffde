/** Smooth weighted round robin over a list of hosts (global/loadshare.go): the imperative pick over
    the shared list, and what any number of picks add up to. */
module LoadShare {

  // ----- one pick, on values

  function Sum(s: seq<int>): int
    decreases |s|
  {
    if s == [] then 0 else Sum(s[..|s| - 1]) + s[|s| - 1]
  }

  /** The host with the greatest accumulated weight: the first of them after host 0, or host 0 when no
      other is as great. */
  function Pick(acc: seq<int>): (p: nat)
    requires acc != []
    ensures p < |acc|
  {
    PickFrom(acc, 1)
  }

  /** The same among host 0 and the hosts from n on. */
  function PickFrom(acc: seq<int>, n: nat): (p: nat)
    requires 0 < n <= |acc|
    ensures p < |acc| && (p == 0 || n <= p) && acc[0] <= acc[p]
    decreases |acc| - n
  {
    if n == |acc| then 0
    else
      var p := PickFrom(acc, n + 1);
      if acc[n] >= acc[p] then n else p
  }

  lemma {:induction false} PickFromGreatest(acc: seq<int>, n: nat, j: nat)
    requires 0 < n <= j < |acc|
    ensures acc[j] <= acc[PickFrom(acc, n)]
    ensures acc[j] == acc[PickFrom(acc, n)] ==> 0 < PickFrom(acc, n) <= j
    decreases |acc| - n
  {
    if n < j {
      PickFromGreatest(acc, n + 1, j);
    }
  }

  /** Host p is picked exactly when no host has accumulated more, and p is the first such host after
      host 0, or host 0 and the only one. */
  lemma PickExactly(acc: seq<int>, p: nat)
    requires p < |acc|
    ensures p == Pick(acc) <==>
            && (forall j :: 0 <= j < |acc| ==> acc[j] <= acc[p])
            && (forall j :: 0 < j < |acc| && acc[j] == acc[p] ==> 0 < p <= j)
  {
    forall j: nat | 0 < j < |acc|
      ensures acc[j] <= acc[Pick(acc)] && (acc[j] == acc[Pick(acc)] ==> 0 < Pick(acc) <= j)
    {
      PickFromGreatest(acc, 1, j);
    }
  }

  function Charge(acc: int, weight: int, total: int, picked: bool): int {
    acc + weight - if picked then total else 0
  }

  /** The accumulated weights after a pick: the picked host pays the total, then every host earns its
      weight. */
  function Next(w: seq<int>, acc: seq<int>): (r: seq<int>)
    requires |w| == |acc| && acc != []
    ensures |r| == |acc|
  {
    var (p, total) := (Pick(acc), Sum(w));
    seq(|acc|, i requires 0 <= i < |acc| => Charge(acc[i], w[i], total, i == p))
  }

  // ----- the list of hosts

  class WeightedHost {
    const hostId: string
    const weight: int
    var accumulatedWeight: int
    var hitsCount: int

    /** NewHW. */
    constructor (hn: string, wt: int)
      ensures hostId == hn && weight == wt && accumulatedWeight == wt && hitsCount == 0
    {
      hostId, weight, accumulatedWeight, hitsCount := hn, wt, wt, 0;
    }
  }

  predicate AllDifferent(hosts: seq<WeightedHost>) {
    forall i, j :: 0 <= i < j < |hosts| ==> hosts[i] != hosts[j]
  }

  function Weights(hosts: seq<WeightedHost>): (w: seq<int>)
    ensures |w| == |hosts| && forall i :: 0 <= i < |w| ==> w[i] == hosts[i].weight
  {
    seq(|hosts|, i requires 0 <= i < |hosts| => hosts[i].weight)
  }

  function Accumulated(hosts: seq<WeightedHost>): (acc: seq<int>)
    reads hosts
    ensures |acc| == |hosts| && forall i :: 0 <= i < |acc| ==> acc[i] == hosts[i].accumulatedWeight
  {
    seq(|hosts|, i requires 0 <= i < |hosts| reads hosts => hosts[i].accumulatedWeight)
  }

  method GetTotalWeight(hosts: seq<WeightedHost>) returns (total: int)
    ensures total == Sum(Weights(hosts))
  {
    total := 0;
    var w := Weights(hosts);
    for i := 0 to |hosts|
      invariant total == Sum(w[..i])
    {
      assert w[..i + 1][..i] == w[..i];
      total := total + hosts[i].weight;
    }
    assert w[..|hosts|] == w;
  }

  /** The search for the host with the greatest accumulated weight, from the end of the list. */
  method Choose(hosts: seq<WeightedHost>) returns (chosen: nat)
    requires hosts != []
    ensures chosen == Pick(Accumulated(hosts))
  {
    chosen := 0;
    var i := |hosts| - 1;
    while i > 0
      invariant 0 <= i < |hosts| && chosen == PickFrom(Accumulated(hosts), i + 1)
    {
      if hosts[i].accumulatedWeight >= hosts[chosen].accumulatedWeight {
        chosen := i;
      }
      i := i - 1;
    }
  }

  /** How often the list names a host; a list may name one more than once. */
  ghost function Times(hosts: seq<WeightedHost>, h: WeightedHost): nat { multiset(hosts)[h] }

  lemma {:induction false} NamedOnce(hosts: seq<WeightedHost>, h: WeightedHost)
    requires AllDifferent(hosts) && h in hosts
    ensures Times(hosts, h) == 1
  {
    var (before, last) := (hosts[..|hosts| - 1], hosts[|hosts| - 1]);
    assert hosts == before + [last];
    if h in before {
      NamedOnce(before, h);
    }
  }

  lemma OneMoreTime(hosts: seq<WeightedHost>, k: nat)
    requires k < |hosts|
    ensures forall h :: h in hosts ==>
              Times(hosts[..k + 1], h) * h.weight ==
                Times(hosts[..k], h) * h.weight + if h == hosts[k] then h.weight else 0
  {
    assert hosts[..k + 1] == hosts[..k] + [hosts[k]];
  }

  /** Every host earns its weight, each time the list names it. */
  method EarnWeights(hosts: seq<WeightedHost>)
    modifies hosts
    ensures forall h :: h in hosts ==>
              h.accumulatedWeight == old(h.accumulatedWeight) + Times(hosts, h) * h.weight
              && h.hitsCount == old(h.hitsCount)
  {
    for k := 0 to |hosts|
      invariant forall h :: h in hosts ==>
                  && h.accumulatedWeight == old(h.accumulatedWeight) + Times(hosts[..k], h) * h.weight
                  && h.hitsCount == old(h.hitsCount)
    {
      OneMoreTime(hosts, k);
      hosts[k].accumulatedWeight := hosts[k].weight + hosts[k].accumulatedWeight;
    }
    assert hosts[..|hosts|] == hosts;
  }

  /** Picks a host and brings the accumulated weights up to date, in place. When no host is named twice,
      the list is the next one. */
  method GetRoutedHost(hosts: seq<WeightedHost>) returns (host: WeightedHost)
    requires hosts != []
    modifies hosts
    ensures host == hosts[Pick(old(Accumulated(hosts)))]
    ensures forall h :: h in hosts ==>
              && h.accumulatedWeight == old(h.accumulatedWeight) + Times(hosts, h) * h.weight
                                        - (if h == host then Sum(Weights(hosts)) else 0)
              && h.hitsCount == old(h.hitsCount)
    ensures AllDifferent(hosts) ==> Accumulated(hosts) == Next(Weights(hosts), old(Accumulated(hosts)))
  {
    hide Pick, Sum, Next;
    ghost var acc := Accumulated(hosts);
    var grandWeight := GetTotalWeight(hosts);
    var chosen := Choose(hosts);
    host := hosts[chosen];
    host.accumulatedWeight := host.accumulatedWeight - grandWeight;
    EarnWeights(hosts);
    if AllDifferent(hosts) {
      forall j | 0 <= j < |hosts|
        ensures hosts[j].accumulatedWeight == Charge(acc[j], hosts[j].weight, grandWeight, j == chosen)
      {
        NamedOnce(hosts, hosts[j]);
      }
      IsNext(Weights(hosts), acc, Accumulated(hosts), chosen);
    }
  }

  lemma IsNext(w: seq<int>, acc: seq<int>, r: seq<int>, chosen: nat)
    requires |w| == |acc| == |r| && acc != [] && chosen == Pick(acc)
    requires forall i :: 0 <= i < |r| ==> r[i] == Charge(acc[i], w[i], Sum(w), i == chosen)
    ensures r == Next(w, acc)
  {
  }

  // ----- any number of picks

  /** The accumulated weights after n picks from a new list. */
  function State(w: seq<int>, n: nat): (acc: seq<int>)
    requires w != []
    ensures |acc| == |w|
  {
    if n == 0 then w else Next(w, State(w, n - 1))
  }

  /** How often host i was among the first n picks. */
  function Hits(w: seq<int>, n: nat, i: nat): nat
    requires w != []
  {
    if n == 0 then 0 else Hits(w, n - 1, i) + if Pick(State(w, n - 1)) == i then 1 else 0
  }

  /** Weights as a routing table has them. */
  predicate Usable(w: seq<int>) {
    (forall i :: 0 <= i < |w| ==> w[i] >= 0) && Sum(w) > 0
  }

  lemma {:induction false} SumPointwise(a: seq<int>, b: seq<int>, c: seq<int>, p: nat, d: int)
    requires |a| == |b| == |c|
    requires forall i :: 0 <= i < |a| ==> c[i] == Charge(a[i], b[i], d, i == p)
    ensures Sum(c) == Sum(a) + Sum(b) - if p < |a| then d else 0
    decreases |a|
  {
    if a != [] {
      SumPointwise(a[..|a| - 1], b[..|b| - 1], c[..|c| - 1], p, d);
    }
  }

  /** The accumulated weights always add up to the total weight. */
  lemma {:induction false} SumIsKept(w: seq<int>, n: nat)
    requires w != []
    ensures Sum(State(w, n)) == Sum(w)
  {
    if n > 0 {
      var acc := State(w, n - 1);
      SumIsKept(w, n - 1);
      SumPointwise(acc, w, Next(w, acc), Pick(acc), Sum(w));
    }
  }

  lemma Distribute(a: int, b: int, c: int)
    ensures (a + b) * c == a * c + b * c
  {
  }

  lemma {:induction false} SumBound(s: seq<int>, m: int)
    requires forall i :: 0 <= i < |s| ==> s[i] <= m
    ensures Sum(s) <= |s| * m
    decreases |s|
  {
    if s != [] {
      SumBound(s[..|s| - 1], m);
      Distribute(|s| - 1, 1, m);
    }
  }

  /** When the total is positive, so is what the picked host has accumulated. */
  lemma PickedIsPositive(acc: seq<int>)
    requires acc != [] && Sum(acc) > 0
    ensures acc[Pick(acc)] > 0
  {
    var m := acc[Pick(acc)];
    PickExactly(acc, Pick(acc));
    SumBound(acc, m);
    if m <= 0 {
      NonPositive(|acc|, m);
    }
  }

  lemma NonPositive(n: nat, m: int)
    requires m <= 0
    ensures n * m <= 0
  {
  }

  lemma EarnAndPay(n: nat, weight: int, h: nat, total: int, picked: bool)
    ensures Charge(n * weight - h * total, weight, total, picked) ==
            (n + 1) * weight - (h + if picked then 1 else 0) * total
  {
    Distribute(n, 1, weight);
    Distribute(h, 1, total);
  }

  /** What a host has earned and paid is what it has accumulated. */
  lemma {:induction false} Balance(w: seq<int>, n: nat, i: nat, total: int)
    requires w != [] && i < |w| && total == Sum(w)
    ensures State(w, n)[i] == (n + 1) * w[i] - Hits(w, n, i) * total
  {
    hide Pick;
    if n > 0 {
      var acc := State(w, n - 1);
      Balance(w, n - 1, i, total);
      EarnAndPay(n, w[i], Hits(w, n - 1, i), total, Pick(acc) == i);
      assert State(w, n)[i] == Charge(acc[i], w[i], total, i == Pick(acc));
    }
  }

  /** No host ever owes as much as the total, once its next weight is taken off. */
  lemma {:induction false} NeverDeepInDebt(w: seq<int>, n: nat, i: nat)
    requires w != [] && Usable(w) && i < |w|
    ensures State(w, n)[i] > w[i] - Sum(w)
  {
    hide Pick;
    if n > 0 {
      var acc := State(w, n - 1);
      NeverDeepInDebt(w, n - 1, i);
      SumIsKept(w, n - 1);
      PickedIsPositive(acc);
      assert State(w, n)[i] == Charge(acc[i], w[i], Sum(w), Pick(acc) == i);
    }
  }

  /** After any number of picks, no host has been picked more than its share, rounded up; a host
      without weight never. */
  lemma NeverAheadOfShare(w: seq<int>, n: nat, i: nat)
    requires w != [] && Usable(w) && i < |w|
    ensures Hits(w, n, i) * Sum(w) < n * w[i] + Sum(w)
    ensures w[i] == 0 ==> Hits(w, n, i) == 0
  {
    Balance(w, n, i, Sum(w));
    NeverDeepInDebt(w, n, i);
    Distribute(n, 1, w[i]);
    if w[i] == 0 {
      LessThanOne(Hits(w, n, i), Sum(w), 0);
    }
  }

  lemma LessThanOne(h: nat, total: nat, k: nat)
    requires h * total < k * total + total
    ensures h <= k
  {
    if h > k {
      Distribute(k + 1, h - k - 1, total);
      Distribute(k, 1, total);
      NonPositive(h - k - 1, -total);
    }
  }

  // ----- a whole round

  function HitList(w: seq<int>, n: nat): (h: seq<int>)
    requires w != []
    ensures |h| == |w| && forall i :: 0 <= i < |h| ==> h[i] == Hits(w, n, i)
  {
    seq(|w|, i requires 0 <= i < |w| => Hits(w, n, i))
  }

  lemma {:induction false} HitsAddUp(w: seq<int>, n: nat)
    requires w != []
    ensures Sum(HitList(w, n)) == n
  {
    if n == 0 {
      var zeros := HitList(w, 0);
      SumPointwise(zeros, zeros, zeros, |w|, 0);
    } else {
      HitsAddUp(w, n - 1);
      var zeros := seq(|w|, i => 0);
      SumPointwise(zeros, zeros, zeros, |w|, 0);
      SumPointwise(HitList(w, n - 1), zeros, HitList(w, n), Pick(State(w, n - 1)), -1);
    }
  }

  lemma {:induction false} EqualByTotal(a: seq<int>, b: seq<int>)
    requires |a| == |b| && Sum(a) == Sum(b) && forall i :: 0 <= i < |a| ==> a[i] <= b[i]
    ensures a == b
    decreases |a|
  {
    if a != [] {
      SumLeq(a[..|a| - 1], b[..|b| - 1]);
      EqualByTotal(a[..|a| - 1], b[..|b| - 1]);
      assert a == a[..|a| - 1] + [a[|a| - 1]] && b == b[..|b| - 1] + [b[|b| - 1]];
    }
  }

  lemma {:induction false} SumLeq(a: seq<int>, b: seq<int>)
    requires |a| == |b| && forall i :: 0 <= i < |a| ==> a[i] <= b[i]
    ensures Sum(a) <= Sum(b)
    decreases |a|
  {
    if a != [] {
      SumLeq(a[..|a| - 1], b[..|b| - 1]);
    }
  }

  /** As many picks as the total weight choose every host exactly as often as its weight says. */
  lemma {:induction false} ARoundIsExact(w: seq<int>)
    requires w != [] && Usable(w)
    ensures HitList(w, Sum(w)) == w
  {
    var total := Sum(w);
    forall i: nat | i < |w|
      ensures HitList(w, total)[i] <= w[i]
    {
      NeverAheadOfShare(w, total, i);
      LessThanOne(HitList(w, total)[i], total, w[i]);
    }
    HitsAddUp(w, total);
    EqualByTotal(HitList(w, total), w);
  }

  /** ... and leave the list as new. */
  lemma ARoundRestores(w: seq<int>)
    requires w != [] && Usable(w)
    ensures State(w, Sum(w)) == w
  {
    forall i: nat | i < |w|
      ensures State(w, Sum(w))[i] == w[i]
    {
      ARoundIsExact(w);
      assert HitList(w, Sum(w))[i] == w[i];
      Repaid(w, Sum(w), i);
    }
  }

  lemma Repaid(w: seq<int>, n: nat, i: nat)
    requires w != [] && i < |w| && n == Sum(w) && Hits(w, n, i) == w[i]
    ensures State(w, n)[i] == w[i]
  {
    Balance(w, n, i, n);
    Settle(State(w, n)[i], n, w[i]);
  }

  lemma Settle(balance: int, n: int, weight: int)
    requires balance == (n + 1) * weight - weight * n
    ensures balance == weight
  {
  }

  /** The picks repeat after every round. */
  lemma {:induction false} Periodic(w: seq<int>, n: nat, total: nat)
    requires w != [] && Usable(w) && total == Sum(w)
    ensures State(w, n + total) == State(w, n)
  {
    if n == 0 {
      ARoundRestores(w);
    } else {
      Periodic(w, n - 1, total);
      assert n + total - 1 == n - 1 + total;
    }
  }

  lemma SameBalance(n: nat, total: nat, weight: int, h: int, h': int)
    requires (n + 1) * weight - h * total == (n + total + 1) * weight - h' * total && total > 0
    ensures h' - h == weight
  {
    Distribute(n + 1, total, weight);
    Distribute(h, weight, total);
    Cancel(h', h + weight, total);
  }

  /** Any picks in a row that are as many as the total weight choose host i exactly weight i times. */
  lemma EveryWindowIsExact(w: seq<int>, n: nat, i: nat)
    requires w != [] && Usable(w) && i < |w|
    ensures Hits(w, n + Sum(w), i) - Hits(w, n, i) == w[i]
  {
    hide State, Hits;
    var total := Sum(w);
    Periodic(w, n, total);
    Balance(w, n, i, total);
    Balance(w, n + total, i, total);
    SameBalance(n, total, w[i], Hits(w, n, i), Hits(w, n + total, i));
  }

  lemma Cancel(a: int, b: int, c: int)
    requires a * c == b * c && c > 0
    ensures a == b
  {
  }

  /** The next pick, counted as the caller does. */
  method RouteOne(hosts: seq<WeightedHost>, ghost n: nat)
    requires hosts != [] && AllDifferent(hosts) && Accumulated(hosts) == State(Weights(hosts), n)
    requires forall i :: 0 <= i < |hosts| ==> hosts[i].hitsCount == Hits(Weights(hosts), n, i)
    modifies hosts
    ensures Accumulated(hosts) == State(Weights(hosts), n + 1)
    ensures forall i :: 0 <= i < |hosts| ==> hosts[i].hitsCount == Hits(Weights(hosts), n + 1, i)
  {
    ghost var (w, p) := (Weights(hosts), Pick(Accumulated(hosts)));
    var host := GetRoutedHost(hosts);
    host.hitsCount := host.hitsCount + 1;
    forall i: nat | i < |hosts|
      ensures hosts[i].hitsCount == Hits(w, n + 1, i)
    {
      assert Hits(w, n + 1, i) == Hits(w, n, i) + if p == i then 1 else 0;
    }
  }

  /** The picks themselves: n of them on a list that is as new, counting hits as the caller does. */
  method RouteMany(hosts: seq<WeightedHost>, n: nat)
    requires hosts != [] && AllDifferent(hosts)
    requires Accumulated(hosts) == Weights(hosts) && forall h :: h in hosts ==> h.hitsCount == 0
    modifies hosts
    ensures Accumulated(hosts) == State(Weights(hosts), n)
    ensures forall i :: 0 <= i < |hosts| ==> hosts[i].hitsCount == Hits(Weights(hosts), n, i)
  {
    var w := Weights(hosts);
    for k := 0 to n
      invariant Accumulated(hosts) == State(w, k)
      invariant forall i :: 0 <= i < |hosts| ==> hosts[i].hitsCount == Hits(w, k, i)
    {
      RouteOne(hosts, k);
    }
  }

  /** A whole round on a list that is as new: each host is hit as often as its weight says, and the
      list is as new again. */
  method RouteARound(hosts: seq<WeightedHost>)
    requires hosts != [] && AllDifferent(hosts) && Usable(Weights(hosts))
    requires Accumulated(hosts) == Weights(hosts) && forall h :: h in hosts ==> h.hitsCount == 0
    modifies hosts
    ensures forall i :: 0 <= i < |hosts| ==> hosts[i].hitsCount == hosts[i].weight
    ensures Accumulated(hosts) == Weights(hosts)
  {
    var total := GetTotalWeight(hosts);
    ghost var w := Weights(hosts);
    RouteMany(hosts, total);
    ARoundIsExact(w);
    ARoundRestores(w);
    forall i | 0 <= i < |hosts|
      ensures hosts[i].hitsCount == hosts[i].weight
    {
      assert HitList(w, total)[i] == w[i];
    }
  }
}
