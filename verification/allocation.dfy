/** Allocation of a remote record budget across scored peers (membrane/allocation.rs).
    Scores are exact reals. */
module Allocation {
  import opened Wrappers
  import opened Sums

  datatype PeerAllocation<+P> = PeerAllocation(member: P, budget: nat)

  const EPSILON: real := 0.001

  // ---- proportional shares ----

  predicate Positive(w: seq<real>) { forall i :: 0 <= i < |w| ==> w[i] > 0.0 }

  predicate Descending(s: seq<real>) { forall i, j :: 0 <= i <= j < |s| ==> s[i] >= s[j] }

  predicate NonIncreasing(v: seq<nat>) { forall i, j :: 0 <= i <= j < |v| ==> v[i] >= v[j] }

  function MinScore(s: seq<real>): (m: real)
    requires s != []
    ensures m in s && forall i :: 0 <= i < |s| ==> m <= s[i]
  {
    if |s| == 1 then s[0] else
      var n := |s| - 1;
      var m := MinScore(s[..n]);
      assert forall i :: 0 <= i < n ==> s[..n][i] == s[i];
      if s[n] < m then s[n] else m
  }

  /** The scores moved so that the least is a small positive number. */
  function Shifted(s: seq<real>): (w: seq<real>)
    requires s != []
    ensures |w| == |s| && Positive(w)
    ensures forall i, j :: 0 <= i < |s| && 0 <= j < |s| ==> w[i] - w[j] == s[i] - s[j]
  {
    var m := MinScore(s);
    seq(|s|, i requires 0 <= i < |s| => s[i] - m + EPSILON)
  }

  /** `w` is `s` moved so that the least is 0.001. */
  ghost predicate ShiftOf(s: seq<real>, w: seq<real>) {
    && |w| == |s|
    && (forall i, j :: 0 <= i < |s| && 0 <= j < |s| ==> w[i] - w[j] == s[i] - s[j])
    && (forall i :: 0 <= i < |w| ==> w[i] >= 0.001)
    && 0.001 in w
  }

  lemma ShiftUnique(s: seq<real>, v: seq<real>, w: seq<real>)
    requires ShiftOf(s, v) && ShiftOf(s, w)
    ensures v == w
  {
    var i :| 0 <= i < |v| && v[i] == 0.001;
    var j :| 0 <= j < |w| && w[j] == 0.001;
    assert v[j] - v[i] == w[j] - w[i];
    forall k | 0 <= k < |v| ensures v[k] == w[k] {
      assert v[k] - v[i] == w[k] - w[i];
    }
  }

  lemma ShiftedIs(s: seq<real>)
    requires s != []
    ensures ShiftOf(s, Shifted(s))
  {
    var i :| 0 <= i < |s| && s[i] == MinScore(s);
    assert Shifted(s)[i] == 0.001;
  }

  /** The exact proportional share of weight `x` in `sum`. */
  function Exact(x: real, sum: real, total: nat): real
    requires sum > 0.0
  {
    x / sum * total as real
  }

  lemma ExactAdds(x: real, y: real, sum: real, total: nat)
    requires sum > 0.0
    ensures Exact(x + y, sum, total) == Exact(x, sum, total) + Exact(y, sum, total)
  {
    assert (x + y) / sum == x / sum + y / sum;
    Distributes(x / sum, y / sum, total as real);
  }

  lemma Distributes(a: real, b: real, t: real)
    ensures (a + b) * t == a * t + b * t
  {
  }

  lemma QuotientOrder(x: real, y: real, sum: real)
    requires 0.0 <= x <= y && sum > 0.0
    ensures 0.0 <= x / sum <= y / sum
  {
  }

  lemma ProductOrder(a: real, b: real, t: real)
    requires 0.0 <= a <= b && 0.0 <= t
    ensures 0.0 <= a * t <= b * t
  {
  }

  lemma ExactOrder(x: real, y: real, sum: real, total: nat)
    requires 0.0 <= x <= y && sum > 0.0
    ensures 0.0 <= Exact(x, sum, total) <= Exact(y, sum, total)
  {
    QuotientOrder(x, y, sum);
    ProductOrder(x / sum, y / sum, total as real);
  }

  lemma WeightsHavePositiveSum(w: seq<real>)
    requires w != [] && Positive(w)
    ensures Prefix(w, |w|) > 0.0
  {
    PrefixNonNegative(w, 0, |w| - 1);
  }

  function Share(w: seq<real>, total: nat, i: nat): nat
    requires Positive(w) && i < |w|
  {
    WeightsHavePositiveSum(w);
    var sum := Prefix(w, |w|);
    ExactOrder(0.0, w[i], sum, total);
    Exact(w[i], sum, total).Floor
  }

  /** `v` is what `w[i]` is entitled to of the total, in proportion to all weights and rounded
      down. */
  predicate RoundedShare(w: seq<real>, total: nat, i: nat, v: int)
    requires i < |w|
  {
    v as real * Prefix(w, |w|) <= w[i] * total as real < (v + 1) as real * Prefix(w, |w|)
  }

  lemma Scaled(x: real, y: real, sum: real)
    requires sum > 0.0 && x <= y
    ensures x * sum <= y * sum && (x < y ==> x * sum < y * sum)
  {
  }

  lemma Unscaled(x: real, sum: real, t: real)
    requires sum > 0.0
    ensures x / sum * t * sum == x * t
  {
    var q := x / sum;
    assert q * sum == x;
    assert q * t * sum == (q * sum) * t;
  }

  lemma FloorScaled(e: real, sum: real)
    requires sum > 0.0
    ensures e.Floor as real * sum <= e * sum < (e.Floor + 1) as real * sum
  {
    Scaled(e.Floor as real, e, sum);
    Scaled(e, (e.Floor + 1) as real, sum);
  }

  lemma ShareIs(w: seq<real>, total: nat, i: nat)
    requires Positive(w) && i < |w|
    ensures RoundedShare(w, total, i, Share(w, total, i))
  {
    WeightsHavePositiveSum(w);
    var sum := Prefix(w, |w|);
    var e := Exact(w[i], sum, total);
    Unscaled(w[i], sum, total as real);
    assert e * sum == w[i] * total as real;
    assert Share(w, total, i) == e.Floor;
    FloorScaled(e, sum);
    hide Prefix, Exact, Share;
  }

  function Shares(w: seq<real>, total: nat): (v: seq<nat>)
    requires Positive(w)
    ensures |v| == |w| && forall i :: 0 <= i < |w| ==> v[i] == Share(w, total, i)
  {
    seq(|w|, i requires 0 <= i < |w| => Share(w, total, i))
  }

  lemma {:induction false} SharesUpTo(w: seq<real>, total: nat, k: nat)
    requires w != [] && Positive(w) && k <= |w|
    ensures Prefix(w, |w|) > 0.0
    ensures var e := Exact(Prefix(w, k), Prefix(w, |w|), total);
      var s := Sum(Shares(w, total)[..k]) as real;
      s <= e && (if k == 0 then e == 0.0 else e < s + k as real)
  {
    WeightsHavePositiveSum(w);
    if k > 0 {
      SharesUpTo(w, total, k - 1);
      var v := Shares(w, total);
      assert v[..k][..k - 1] == v[..k - 1];
      ExactAdds(Prefix(w, k - 1), w[k - 1], Prefix(w, |w|), total);
    }
  }

  /** The floored shares fall short of the total by less than one record a peer. */
  lemma SharesNearlyFill(w: seq<real>, total: nat)
    requires w != [] && Positive(w)
    ensures Sum(Shares(w, total)) <= total < Sum(Shares(w, total)) + |w|
  {
    SharesUpTo(w, total, |w|);
    var v := Shares(w, total);
    assert v[..|w|] == v;
    var sum := Prefix(w, |w|);
    assert sum / sum == 1.0;
  }

  lemma SharesDescend(w: seq<real>, total: nat)
    requires Positive(w) && Descending(w)
    ensures NonIncreasing(Shares(w, total))
  {
    hide Exact;
    forall i, j | 0 <= i <= j < |w| ensures Share(w, total, i) >= Share(w, total, j) {
      WeightsHavePositiveSum(w);
      ExactOrder(w[j], w[i], Prefix(w, |w|), total);
    }
  }

  // ---- trimming ----

  /** How many of `n` peers the total can serve. */
  function Survivors(n: nat, min: nat, total: nat): nat {
    if min == 0 || n <= total / min then n else total / min
  }

  predicate AtLeast(v: seq<nat>, min: nat) { forall i :: 0 <= i < |v| ==> v[i] >= min }

  /** `t` is `v` before `c`, at most `v` at `c`, and at the floor after it. */
  predicate CutAt(v: seq<nat>, t: seq<nat>, min: nat, c: nat) {
    && |t| == |v| && c < |v|
    && (forall i :: 0 <= i < c ==> t[i] == v[i])
    && t[c] <= v[c]
    && (forall i :: c < i < |t| ==> t[i] == min)
  }

  /** What trimming `v` to the total leaves: the survivors, none below the floor, taken from
      the back only, and no more than needed. */
  ghost predicate Trimmed(v: seq<nat>, t: seq<nat>, min: nat, total: nat) {
    && |t| == Survivors(|v|, min, total) <= |v|
    && AtLeast(t, min)
    && (Sum(v) <= total ==> t == v)
    && (|t| == |v| && Sum(v) > total ==> Sum(t) == total && exists c: nat :: CutAt(v, t, min, c))
    && (|t| < |v| ==> forall i :: 0 <= i < |t| ==> t[i] == min)
  }

  /** That description leaves one result. */
  lemma TrimmedUnique(v: seq<nat>, t: seq<nat>, u: seq<nat>, min: nat, total: nat)
    requires AtLeast(v, min) && Trimmed(v, t, min, total) && Trimmed(v, u, min, total)
    ensures t == u
  {
    if |t| == |v| && Sum(v) > total {
      var c: nat :| CutAt(v, t, min, c);
      var d: nat :| CutAt(v, u, min, d);
      if c <= d {
        CutsOrdered(v, t, u, min, c, d);
      } else {
        CutsOrdered(v, u, t, min, d, c);
      }
    }
  }

  lemma {:induction false} CutsOrdered(v: seq<nat>, t: seq<nat>, u: seq<nat>, min: nat, c: nat, d: nat)
    requires c <= d && CutAt(v, t, min, c) && CutAt(v, u, min, d) && AtLeast(t, min) && AtLeast(u, min)
    requires Sum(t) == Sum(u)
    ensures t == u
  {
    hide Sum;
    if c < d || t[c] <= u[c] {
      assert forall i :: 0 <= i < |t| ==> t[i] <= u[i];
      SumMonotone(t, u);
    } else {
      assert forall i :: 0 <= i < |t| ==> u[i] <= t[i];
      SumMonotone(u, t);
    }
  }

  lemma {:induction false} SumAtLeast(t: seq<nat>, min: nat)
    requires AtLeast(t, min)
    ensures Sum(t) >= |t| * min
    ensures (forall i :: 0 <= i < |t| ==> t[i] == min) ==> Sum(t) == |t| * min
  {
    if t == [] {
    } else {
      SumAtLeast(t[..|t| - 1], min);
      assert |t| * min == (|t| - 1) * min + min;
    }
  }

  lemma QuotientIs(k: nat, min: nat, total: nat)
    requires min > 0
    ensures k * min <= total <==> k <= total / min
  {
    var q := total / min;
    assert q * min <= total < (q + 1) * min;
    if k <= q {
      Multiples(k, q, min);
    } else {
      Multiples(q + 1, k, min);
    }
  }

  lemma Multiples(a: nat, b: nat, m: nat)
    requires a <= b
    ensures a * m <= b * m
  {
  }

  /** The last slot above the floor, if any. */
  method LastAbove(t: seq<nat>, min: nat) returns (slot: Option<nat>)
    ensures slot.None? ==> forall i :: 0 <= i < |t| ==> t[i] <= min
    ensures slot.Some? ==> slot.value < |t| && t[slot.value] > min && forall i :: slot.value < i < |t| ==> t[i] <= min
  {
    var i := |t|;
    while i > 0
      invariant 0 <= i <= |t|
      invariant forall j :: i <= j < |t| ==> t[j] <= min
    {
      i := i - 1;
      if t[i] > min {
        return Some(i);
      }
    }
    return None;
  }

  /** The state of the trim loop: everything `Trimmed` says except that it is finished. */
  ghost predicate Trimming(v: seq<nat>, t: seq<nat>, min: nat, total: nat) {
    && Survivors(|v|, min, total) <= |t| <= |v|
    && AtLeast(t, min)
    && (|t| == |v| ==> t == v || (Sum(t) >= total && exists c: nat :: CutAt(v, t, min, c)))
    && (|t| < |v| ==> Sum(v) > total && forall i :: 0 <= i < |t| ==> t[i] == min)
    && (t != v ==> Sum(v) > total)
  }

  lemma DecrementKeeps(v: seq<nat>, t: seq<nat>, min: nat, total: nat, i: nat)
    requires Trimming(v, t, min, total) && Sum(t) > total
    requires i < |t| && t[i] > min && forall j :: i < j < |t| ==> t[j] <= min
    ensures Trimming(v, t[i := t[i] - 1], min, total) && Sum(t[i := t[i] - 1]) == Sum(t) - 1
  {
    SumUpdate(t, i, t[i] - 1);
    hide Sum, Survivors;
    assert CutAt(v, t[i := t[i] - 1], min, i);
  }

  lemma {:induction false} DropKeeps(v: seq<nat>, t: seq<nat>, min: nat, total: nat)
    requires Trimming(v, t, min, total) && Sum(t) > total && forall i :: 0 <= i < |t| ==> t[i] <= min
    ensures t != []
    ensures Trimming(v, t[..|t| - 1], min, total)
    ensures Sum(t[..|t| - 1]) == Sum(t) - t[|t| - 1]
  {
    SumAtLeast(t, min);
    assert min == 0 ==> |t| * min == 0;
    QuotientIs(|t|, min, total);
  }

  lemma TrimEnds(v: seq<nat>, t: seq<nat>, min: nat, total: nat)
    requires Trimming(v, t, min, total) && (Sum(t) <= total || t == [])
    ensures Trimmed(v, t, min, total) && Sum(t) <= total
  {
    assert t == [] ==> Sum(t) == 0;
    SumAtLeast(t, min);
    if min > 0 {
      QuotientIs(|t|, min, total);
    }
  }

  method Trim(v: seq<nat>, min: nat, total: nat) returns (alloc: seq<nat>, spent: nat)
    requires AtLeast(v, min)
    ensures Trimmed(v, alloc, min, total)
    ensures spent == Sum(alloc) <= total
  {
    alloc, spent := v, Sum(v);
    hide Sum, Trimming, Trimmed;
    TrimStarts(v, min, total);
    while spent > total && alloc != []
      invariant Trimming(v, alloc, min, total) && spent == Sum(alloc)
      decreases |alloc|, spent
    {
      var slot := LastAbove(alloc, min);
      match slot
      case Some(i) =>
        DecrementKeeps(v, alloc, min, total, i);
        alloc, spent := alloc[i := alloc[i] - 1], spent - 1;
      case None =>
        DropKeeps(v, alloc, min, total);
        alloc, spent := alloc[..|alloc| - 1], spent - alloc[|alloc| - 1];
    }
    TrimEnds(v, alloc, min, total);
  }

  lemma TrimStarts(v: seq<nat>, min: nat, total: nat)
    requires AtLeast(v, min)
    ensures Trimming(v, v, min, total)
  {
  }

  // ---- filling ----

  /** `extra` records dealt one at a time from the front. */
  function Dealt(t: seq<nat>, extra: nat): (r: seq<nat>)
    requires t != []
    ensures |r| == |t| && forall i :: 0 <= i < |t| ==> r[i] >= t[i]
  {
    seq(|t|, i requires 0 <= i < |t| => t[i] + extra / |t| + if i < extra % |t| then 1 else 0)
  }

  lemma DivStep(x: nat, n: nat)
    requires n > 0
    ensures (x + 1) / n == x / n + (if x % n == n - 1 then 1 else 0)
    ensures (x + 1) % n == if x % n == n - 1 then 0 else x % n + 1
  {
    var q, r := x / n, x % n;
    assert x == q * n + r;
    if r == n - 1 {
      assert x + 1 == (q + 1) * n;
      QuotientUnique(x + 1, n, q + 1, 0);
    } else {
      QuotientUnique(x + 1, n, q, r + 1);
    }
  }

  lemma QuotientUnique(x: nat, n: nat, q: nat, r: nat)
    requires n > 0 && r < n && x == q * n + r
    ensures x / n == q && x % n == r
  {
    var q' := x / n;
    assert x == q' * n + x % n;
    assert (q + 1) * n == q * n + n && (q' + 1) * n == q' * n + n;
    if q < q' {
      Multiples(q + 1, q', n);
    } else if q' < q {
      Multiples(q' + 1, q, n);
    }
  }

  lemma DealOne(t: seq<nat>, extra: nat)
    requires t != []
    ensures var r, i := Dealt(t, extra), extra % |t|;
      Dealt(t, extra + 1) == r[i := r[i] + 1]
  {
    DivStep(extra, |t|);
  }

  lemma DealNone(t: seq<nat>)
    requires t != []
    ensures Dealt(t, 0) == t
  {
  }

  lemma {:induction false} DealtSum(t: seq<nat>, extra: nat)
    requires t != []
    ensures Sum(Dealt(t, extra)) == Sum(t) + extra
  {
    hide Sum, Dealt;
    if extra == 0 {
      DealNone(t);
    } else {
      DealtSum(t, extra - 1);
      DealOne(t, extra - 1);
      var r, i := Dealt(t, extra - 1), (extra - 1) % |t|;
      SumUpdate(r, i, r[i] + 1);
    }
  }

  lemma DealtAtLeast(t: seq<nat>, extra: nat, min: nat)
    requires t != [] && AtLeast(t, min)
    ensures AtLeast(Dealt(t, extra), min)
  {
    hide Dealt;
    assert forall i :: 0 <= i < |t| ==> Dealt(t, extra)[i] >= t[i] >= min;
  }

  /** Fewer records than slots: one each to the first slots. */
  lemma DealtFew(t: seq<nat>, extra: nat)
    requires extra < |t|
    ensures forall i :: 0 <= i < |t| ==> Dealt(t, extra)[i] == t[i] + if i < extra then 1 else 0
  {
    QuotientUnique(extra, |t|, 0, extra);
  }

  method Fill(t: seq<nat>, spent: nat, total: nat) returns (alloc: seq<nat>)
    requires spent <= total
    ensures alloc == if t == [] then [] else Dealt(t, total - spent)
  {
    hide Dealt;
    alloc := t;
    if t != [] {
      DealNone(t);
    }
    var idx, s := 0, spent;
    while s < total && alloc != []
      invariant |alloc| == |t| && s == spent + idx <= total
      invariant t != [] ==> alloc == Dealt(t, idx)
      decreases total - s
    {
      var n := |alloc|;
      DealOne(t, idx);
      alloc := alloc[idx % n := alloc[idx % n] + 1];
      s := s + 1;
      idx := idx + 1;
    }
  }

  // ---- the allocation ----

  function Floored(v: seq<nat>, min: nat): (r: seq<nat>)
    ensures |r| == |v| && AtLeast(r, min)
  {
    seq(|v|, i requires 0 <= i < |v| => if v[i] < min then min else v[i])
  }

  function Scores<P>(scored: seq<(P, real)>): (s: seq<real>)
    ensures |s| == |scored| && forall i :: 0 <= i < |s| ==> s[i] == scored[i].1
  {
    seq(|scored|, i requires 0 <= i < |scored| => scored[i].1)
  }

  function Budgets<P>(a: seq<PeerAllocation<P>>): (b: seq<nat>)
    ensures |b| == |a| && forall i :: 0 <= i < |b| ==> b[i] == a[i].budget
  {
    seq(|a|, i requires 0 <= i < |a| => a[i].budget)
  }

  /** The peers that may be queried at all. */
  function Eligible<P>(scored: seq<(P, real)>, total: nat, maxPeers: nat): seq<(P, real)> {
    if total == 0 then [] else if |scored| <= maxPeers then scored else scored[..maxPeers]
  }

  /** The floored shares of the eligible peers. */
  function Wanted(s: seq<real>, total: nat, min: nat): seq<nat>
    requires s != []
  {
    Floored(Shares(Shifted(s), total), min)
  }

  /** The budgets: the wanted shares trimmed to the total, the remainder dealt out. */
  ghost predicate Allocated(s: seq<real>, total: nat, min: nat, budgets: seq<nat>) {
    if s == [] then budgets == []
    else exists t ::
      && Trimmed(Wanted(s, total, min), t, min, total)
      && Sum(t) <= total
      && budgets == if t == [] then [] else Dealt(t, total - Sum(t))
  }

  method ProportionalAllocation<P>(scored: seq<(P, real)>, total: nat, min: nat, maxPeers: nat)
    returns (result: seq<PeerAllocation<P>>)
    ensures var peers := Eligible(scored, total, maxPeers);
      && |result| <= |peers|
      && (forall i :: 0 <= i < |result| ==> result[i].member == peers[i].0)
      && Allocated(Scores(peers), total, min, Budgets(result))
    ensures var n := if |scored| <= maxPeers then |scored| else maxPeers;
      if total == 0 then result == [] else Served(n, min, total, |result|)
    ensures forall i :: 0 <= i < |result| ==>
      i < |scored| && result[i].member == scored[i].0 && result[i].budget >= min
    ensures result != [] ==> Sum(Budgets(result)) == total
  {
    hide Sum, Trimmed, Dealt, Shares, Shifted, Survivors, Served;
    SurvivorsServed(if |scored| <= maxPeers then |scored| else maxPeers, min, total);
    if scored == [] || total == 0 || maxPeers == 0 {
      return [];
    }
    var trimmed := if |scored| <= maxPeers then scored else scored[..maxPeers];
    ghost var s := Scores(trimmed);
    var shifted := Shifted(Scores(trimmed));
    var wanted := Floored(Shares(shifted, total), min);
    assert wanted == Wanted(s, total, min);
    var t, spent := Trim(wanted, min, total);
    var alloc := Fill(t, spent, total);
    assert Allocated(s, total, min, alloc);
    hide Allocated, Wanted, Floored;
    AllocationExact(s, total, min, alloc);
    result := seq(|alloc|, i requires 0 <= i < |alloc| => PeerAllocation(trimmed[i].0, alloc[i]));
    assert Budgets(result) == alloc;
  }

  /** Of `n` peers `k` get a budget: all of them, or as many as the total has floors for. */
  predicate Served(n: nat, min: nat, total: nat, k: nat) {
    k == if min == 0 || n <= total / min then n else total / min
  }

  lemma SurvivorsServed(n: nat, min: nat, total: nat)
    ensures Survivors(n, min, total) <= n && Served(n, min, total, Survivors(n, min, total))
  {
  }

  lemma TrimmedFits(v: seq<nat>, t: seq<nat>, min: nat, total: nat)
    requires Trimmed(v, t, min, total)
    ensures |t| == Survivors(|v|, min, total) <= |v| && AtLeast(t, min)
    ensures Sum(v) <= total ==> t == v
  {
  }

  /** The trimmed shares the remainder was dealt onto. */
  lemma Before(s: seq<real>, total: nat, min: nat, budgets: seq<nat>) returns (t: seq<nat>)
    requires s != [] && Allocated(s, total, min, budgets)
    ensures Trimmed(Wanted(s, total, min), t, min, total) && Sum(t) <= total
    ensures budgets == if t == [] then [] else Dealt(t, total - Sum(t))
  {
    var v := Wanted(s, total, min);
    hide Sum, Trimmed, Dealt, Wanted;
    t :| Trimmed(v, t, min, total) && Sum(t) <= total && budgets == if t == [] then [] else Dealt(t, total - Sum(t));
  }

  /** The scores, total and floor determine the budgets. */
  lemma AllocatedUnique(s: seq<real>, total: nat, min: nat, a: seq<nat>, b: seq<nat>)
    requires Allocated(s, total, min, a) && Allocated(s, total, min, b)
    ensures a == b
  {
    hide Sum, Trimmed, Dealt, Shares, Shifted;
    if s != [] {
      var v := Wanted(s, total, min);
      var t := Before(s, total, min, a);
      var u := Before(s, total, min, b);
      TrimmedUnique(v, t, u, min, total);
    }
  }

  /** Allocation is exact: as many peers survive as the total can give the floor to, and if
      any does, their budgets sum to exactly the total with none below the floor. */
  lemma AllocationExact(s: seq<real>, total: nat, min: nat, budgets: seq<nat>)
    requires s != [] && Allocated(s, total, min, budgets)
    ensures |budgets| == Survivors(|s|, min, total)
    ensures budgets != [] ==> Sum(budgets) == total
    ensures AtLeast(budgets, min)
  {
    hide Sum, Shares, Shifted, Trimmed, Dealt, Survivors;
    var v := Wanted(s, total, min);
    var t := Before(s, total, min, budgets);
    TrimmedFits(v, t, min, total);
    if t != [] {
      DealtSum(t, total - Sum(t));
      DealtAtLeast(t, total - Sum(t), min);
    }
  }

  lemma TrimmedDescends(v: seq<nat>, t: seq<nat>, min: nat, total: nat)
    requires NonIncreasing(v) && AtLeast(v, min) && Trimmed(v, t, min, total)
    ensures NonIncreasing(t)
  {
    hide Sum, Survivors;
    if |t| == |v| && Sum(v) > total {
      var c: nat :| CutAt(v, t, min, c);
    }
  }

  lemma DealtDescends(t: seq<nat>, extra: nat)
    requires t != [] && NonIncreasing(t)
    ensures NonIncreasing(Dealt(t, extra))
  {
  }

  lemma WantedDescends(s: seq<real>, total: nat, min: nat)
    requires s != [] && Descending(s)
    ensures NonIncreasing(Wanted(s, total, min))
  {
    var w := Shifted(s);
    forall i, j | 0 <= i <= j < |w| ensures w[i] >= w[j] {
      assert w[i] - w[j] == s[i] - s[j];
    }
    hide Shares, Shifted;
    SharesDescend(w, total);
  }

  /** A better-scored peer never gets a smaller budget. */
  lemma AllocationOrdered(s: seq<real>, total: nat, min: nat, budgets: seq<nat>)
    requires Descending(s) && Allocated(s, total, min, budgets)
    ensures NonIncreasing(budgets)
  {
    hide Sum, Shares, Shifted, Trimmed, Dealt;
    if s != [] {
      var v := Wanted(s, total, min);
      var t := Before(s, total, min, budgets);
      WantedDescends(s, total, min);
      TrimmedDescends(v, t, min, total);
      if t != [] {
        DealtDescends(t, total - Sum(t));
      }
    }
  }

  lemma WantedUnfloored(s: seq<real>, total: nat, min: nat)
    requires s != [] && AtLeast(Shares(Shifted(s), total), min)
    ensures Positive(Shifted(s)) && Wanted(s, total, min) == Shares(Shifted(s), total)
  {
    FloorFree(Shares(Shifted(s), total), min);
  }

  lemma FairShares(s: seq<real>, total: nat, min: nat, budgets: seq<nat>)
    requires s != [] && Allocated(s, total, min, budgets)
    requires AtLeast(Shares(Shifted(s), total), min)
    ensures |budgets| == |s|
    ensures var extras := total - Sum(Shares(Shifted(s), total));
      && 0 <= extras < |s|
      && forall i :: 0 <= i < |s| ==> budgets[i] == Share(Shifted(s), total, i) + if i < extras then 1 else 0
  {
    var v := Shares(Shifted(s), total);
    WantedUnfloored(s, total, min);
    hide *;
    SharesNearlyFill(Shifted(s), total);
    var t := Before(s, total, min, budgets);
    TrimmedFits(v, t, min, total);
    DealtFew(v, total - Sum(v));
  }

  /** Every peer's exact share is at least the floor. */
  predicate NoFloorBinds(w: seq<real>, total: nat, min: nat) {
    forall i :: 0 <= i < |w| ==> min as real * Prefix(w, |w|) <= w[i] * total as real
  }

  /** Every peer has its rounded share, and the first `extras` have one more. */
  predicate SharedOut(w: seq<real>, total: nat, budgets: seq<nat>, extras: nat) {
    && |budgets| == |w| && extras < |w|
    && (forall i :: 0 <= i < extras ==> RoundedShare(w, total, i, budgets[i] as int - 1))
    && (forall i :: extras <= i < |w| ==> RoundedShare(w, total, i, budgets[i]))
  }

  lemma SharesAre(w: seq<real>, total: nat, min: nat, i: nat)
    requires Positive(w) && NoFloorBinds(w, total, min) && i < |w|
    ensures RoundedShare(w, total, i, Share(w, total, i)) && Share(w, total, i) >= min
  {
    WeightsHavePositiveSum(w);
    ShareIs(w, total, i);
    hide Prefix, Share;
    NotBelow(min, Share(w, total, i), Prefix(w, |w|), w[i] * total as real);
  }

  /** Where no floor binds, every peer gets its proportional share rounded down, or one more,
      and the extra records go to the first peers. The weights are the scores moved so that the
      least is 0.001. */
  lemma AllocationFair(s: seq<real>, total: nat, min: nat, budgets: seq<nat>, w: seq<real>) returns (extras: nat)
    requires s != [] && Allocated(s, total, min, budgets) && ShiftOf(s, w) && NoFloorBinds(w, total, min)
    ensures SharedOut(w, total, budgets, extras)
  {
    ShiftedIs(s);
    ShiftUnique(s, w, Shifted(s));
    EveryShare(w, total, min);
    hide *;
    FairShares(s, total, min, budgets);
    extras := total - Sum(Shares(w, total));
    SharedOutIs(w, total, budgets, extras);
  }

  lemma SharedOutIs(w: seq<real>, total: nat, budgets: seq<nat>, extras: nat)
    requires Positive(w) && |budgets| == |w| && extras < |w|
    requires forall i :: 0 <= i < |w| ==> RoundedShare(w, total, i, Share(w, total, i))
    requires forall i :: 0 <= i < |w| ==> budgets[i] == Share(w, total, i) + if i < extras then 1 else 0
    ensures SharedOut(w, total, budgets, extras)
  {
    hide RoundedShare, Share;
    forall i | 0 <= i < |w| ensures RoundedShare(w, total, i, if i < extras then budgets[i] - 1 else budgets[i]) {
      assert RoundedShare(w, total, i, Share(w, total, i));
      assert budgets[i] == Share(w, total, i) + if i < extras then 1 else 0;
    }
  }

  lemma EveryShare(w: seq<real>, total: nat, min: nat)
    requires Positive(w) && NoFloorBinds(w, total, min)
    ensures AtLeast(Shares(w, total), min)
    ensures forall i :: 0 <= i < |w| ==> RoundedShare(w, total, i, Share(w, total, i))
  {
    hide RoundedShare, NoFloorBinds, Share, Prefix;
    forall i | 0 <= i < |w| ensures RoundedShare(w, total, i, Share(w, total, i)) && Share(w, total, i) >= min {
      SharesAre(w, total, min, i);
    }
  }

  lemma NotBelow(min: nat, v: nat, sum: real, x: real)
    requires sum > 0.0 && min as real * sum <= x < (v + 1) as real * sum
    ensures min <= v
  {
    if min > v { Scaled((v + 1) as real, min as real, sum); }
  }

  lemma RoundedOnce(w: seq<real>, total: nat, i: nat, u: nat, v: nat)
    requires i < |w| && Prefix(w, |w|) > 0.0 && RoundedShare(w, total, i, u) && RoundedShare(w, total, i, v)
    ensures u == v
  {
    hide Prefix;
    NotBelow(u, v, Prefix(w, |w|), w[i] * total as real);
    NotBelow(v, u, Prefix(w, |w|), w[i] * total as real);
  }

  /** What each peer is to get before trimming: its share, or the floor if that is more. */
  lemma WantedIs(s: seq<real>, total: nat, min: nat, w: seq<real>, i: nat, v: nat)
    requires s != [] && ShiftOf(s, w) && i < |s| && RoundedShare(w, total, i, v)
    ensures Wanted(s, total, min)[i] == if v < min then min else v
  {
    ShiftedIs(s);
    ShiftUnique(s, w, Shifted(s));
    WeightsHavePositiveSum(w);
    hide ShiftOf, RoundedShare, Share, Prefix, Shifted;
    ShareIs(w, total, i);
    RoundedOnce(w, total, i, Share(w, total, i), v);
  }

  lemma FloorFree(v: seq<nat>, min: nat)
    requires AtLeast(v, min)
    ensures Floored(v, min) == v
  {
  }
}
