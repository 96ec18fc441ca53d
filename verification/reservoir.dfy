/** Reservoir sampling (saga/build.rs) and its uniformity, by counting over every sequence
    of draws the generator could make. */
module Reservoir {
  import opened Seqs

  /** The draw made for position `target + k` lies in 0..=target + k. */
  predicate ValidDraws(target: nat, draws: seq<nat>) {
    forall k :: 0 <= k < |draws| ==> draws[k] <= target + k
  }

  /** Which source position each slot of the full reservoir holds after `draws`. */
  function Slots(target: nat, draws: seq<nat>): (s: seq<nat>)
    ensures |s| == target
  {
    if draws == [] then seq(target, i => i) else
      var s, j := Slots(target, draws[..|draws| - 1]), draws[|draws| - 1];
      if j < target then s[j := target + |draws| - 1] else s
  }

  /** The reservoir holds the source read at its slots. */
  ghost predicate Holds<T>(out: seq<T>, src: seq<T>, slots: seq<nat>) {
    && |out| == |slots|
    && forall k :: 0 <= k < |slots| ==> slots[k] < |src| && out[k] == src[slots[k]]
  }

  lemma HoldsFirst<T>(out: seq<T>, src: seq<T>, draws: seq<nat>)
    requires |out| <= |src| && out == src[..|out|]
    ensures Holds(out, src, Slots(|out|, draws[..0]))
  {
  }

  lemma HoldsNext<T>(out: seq<T>, src: seq<T>, target: nat, draws: seq<nat>, seen: nat)
    requires target <= seen < |src| && seen - target < |draws|
    requires Holds(out, src, Slots(target, draws[..seen - target]))
    ensures var j := draws[seen - target];
      Holds(if j < target then out[j := src[seen]] else out, src, Slots(target, draws[..seen + 1 - target]))
  {
    SliceSnoc(draws, 0, seen + 1 - target);
    SlotsNext(target, draws[..seen - target], draws[seen - target]);
    hide Slots;
  }

  /** One pass: fill the reservoir, then let each later item displace a random slot. */
  method ReservoirSample<T>(src: seq<T>, target: nat, draws: seq<nat>) returns (out: seq<T>)
    requires |draws| >= |src| - target && ValidDraws(target, draws)
    ensures |src| <= target ==> out == src
    ensures |src| >= target ==> Holds(out, src, Slots(target, draws[..|src| - target]))
  {
    hide Slots, ValidDraws, Holds;
    out := [];
    var seen := 0;
    if target == 0 { HoldsFirst(out, src, draws); }
    while seen < |src|
      invariant 0 <= seen <= |src|
      invariant |out| == if seen < target then seen else target
      invariant seen <= target ==> out == src[..seen]
      invariant seen >= target ==> Holds(out, src, Slots(target, draws[..seen - target]))
    {
      if |out| < target {
        SliceSnoc(src, 0, seen + 1);
        out := out + [src[seen]];
        if |out| == target { HoldsFirst(out, src, draws); }
      } else {
        var j := draws[seen - target];
        HoldsNext(out, src, target, draws, seen);
        if j < target {
          out := out[j := src[seen]];
        }
      }
      seen := seen + 1;
    }
  }

  /** Every slot holds a different source position. */
  lemma {:induction false} SlotsDistinct(target: nat, draws: seq<nat>)
    ensures Distinct(Slots(target, draws))
    ensures forall k :: 0 <= k < target ==> Slots(target, draws)[k] < target + |draws|
  {
    if draws == [] {
    } else {
      SlotsDistinct(target, draws[..|draws| - 1]);
    }
  }

  lemma SlotsNext(target: nat, d: seq<nat>, j: nat)
    ensures Slots(target, d + [j]) == if j < target then Slots(target, d)[j := target + |d|] else Slots(target, d)
  {
    PrefixOfSnoc(d, j);
  }

  // ---- counting ----

  function Below(n: nat): set<nat> { if n == 0 then {} else Below(n - 1) + {n - 1} }

  lemma {:induction false} BelowHas(n: nat, i: nat)
    ensures i in Below(n) <==> i < n
  {
    if n == 0 {
    } else {
      BelowHas(n - 1, i);
    }
  }

  lemma {:induction false} BelowSize(n: nat)
    ensures |Below(n)| == n
  {
    if n == 0 {
    } else {
      BelowSize(n - 1);
      BelowHas(n - 1, n - 1);
    }
  }

  /** Every sequence of `m` draws. */
  ghost function Draws(target: nat, m: nat): set<seq<nat>> {
    if m == 0 then {[]} else Extensions(Draws(target, m - 1), d => Below(target + m))
  }

  /** Each sequence of `a` extended by each of its own next draws. */
  ghost function Extensions(a: set<seq<nat>>, next: seq<nat> -> set<nat>): set<seq<nat>> {
    set d, j | d in a && j in next(d) :: d + [j]
  }

  lemma SnocInjective(d: seq<nat>, i: nat, e: seq<nat>, j: nat)
    ensures d + [i] == e + [j] <==> d == e && i == j
  {
    PrefixOfSnoc(d, i);
    PrefixOfSnoc(e, j);
    if d + [i] == e + [j] {
      assert |d| + 1 == |d + [i]| == |e| + 1;
    }
  }

  lemma InExtensions(a: set<seq<nat>>, next: seq<nat> -> set<nat>, d: seq<nat>, j: nat)
    ensures d + [j] in Extensions(a, next) <==> d in a && j in next(d)
  {
    if d + [j] in Extensions(a, next) {
      var e, i :| e in a && i in next(e) && d + [j] == e + [i];
      SnocInjective(d, j, e, i);
    }
  }

  lemma {:induction false} DrawsAreValid(target: nat, m: nat, d: seq<nat>)
    ensures d in Draws(target, m) <==> |d| == m && ValidDraws(target, d)
  {
    if m > 0 && d != [] {
      var e, j := d[..|d| - 1], d[|d| - 1];
      InitSnoc(d);
      InExtensions(Draws(target, m - 1), x => Below(target + m), e, j);
      BelowHas(target + m, j);
      DrawsAreValid(target, m - 1, e);
      ValidSnoc(target, e, j);
    }
  }

  lemma ValidSnoc(target: nat, e: seq<nat>, j: nat)
    ensures ValidDraws(target, e + [j]) <==> ValidDraws(target, e) && j <= target + |e|
  {
    if ValidDraws(target, e + [j]) {
      forall k | 0 <= k < |e| ensures e[k] <= target + k { assert (e + [j])[k] == e[k]; }
      assert (e + [j])[|e|] == j;
    }
  }

  lemma {:induction false} OneExtended(d: seq<nat>, js: set<nat>)
    ensures |set j | j in js :: d + [j]| == |js|
  {
    if js == {} {
    } else {
      var x :| x in js;
      OneExtended(d, js - {x});
      var rest := set j | j in js - {x} :: d + [j];
      forall j | j in js - {x} ensures d + [j] != d + [x] {
        SnocInjective(d, j, d, x);
      }
      assert (set j | j in js :: d + [j]) == rest + {d + [x]};
    }
  }

  /** If every sequence has `n` next draws, there are `n` times as many extensions. */
  lemma {:induction false} ExtensionCount(a: set<seq<nat>>, next: seq<nat> -> set<nat>, n: nat)
    requires forall d :: d in a ==> |next(d)| == n
    ensures |Extensions(a, next)| == n * |a|
    decreases |a|
  {
    if a != {} {
      var d :| d in a;
      var b := a - {d};
      ExtensionCount(b, next, n);
      OneExtended(d, next(d));
      SplitExtensions(a, next, d);
      assert |b| + 1 == |a|;
      Distribute(n, |b|);
    } else {
      assert Extensions(a, next) == {};
    }
  }

  lemma Distribute(n: nat, k: nat)
    ensures n * k + n == n * (k + 1)
  {
  }

  lemma SplitExtensions(a: set<seq<nat>>, next: seq<nat> -> set<nat>, d: seq<nat>)
    requires d in a
    ensures var b, one := Extensions(a - {d}, next), set j | j in next(d) :: d + [j];
      Extensions(a, next) == b + one && b !! one && |Extensions(a, next)| == |b| + |one|
  {
    var b, one := Extensions(a - {d}, next), set j | j in next(d) :: d + [j];
    forall x | x in b ensures x !in one {
      var e, i :| e in a - {d} && i in next(e) && x == e + [i];
      forall j | j in next(d) ensures d + [j] != x { SnocInjective(d, j, e, i); }
    }
    assert Extensions(a, next) == b + one;
  }

  lemma DrawCount(target: nat, m: nat)
    requires m > 0
    ensures |Draws(target, m)| == (target + m) * |Draws(target, m - 1)|
  {
    BelowSize(target + m);
    ExtensionCount(Draws(target, m - 1), d => Below(target + m), target + m);
  }

  /** The draw sequences that leave source position `i` in the sample. */
  ghost function Keeping(target: nat, m: nat, i: nat): set<seq<nat>> {
    set d | d in Draws(target, m) && i in Slots(target, d)
  }

  /** The next draws that do not evict position `i`. */
  ghost function Sparing(target: nat, m: nat, i: nat, d: seq<nat>): set<nat> {
    set j | j in Below(target + m) && !(j < target && Slots(target, d)[j] == i)
  }

  lemma SparingCount(target: nat, m: nat, i: nat, d: seq<nat>)
    requires i in Slots(target, d)
    ensures |Sparing(target, m, i, d)| == target + m - 1
  {
    SlotsDistinct(target, d);
    var k :| 0 <= k < target && Slots(target, d)[k] == i;
    hide Slots, Below;
    BelowSize(target + m);
    BelowHas(target + m, k);
    assert Sparing(target, m, i, d) == Below(target + m) - {k};
  }

  /** A sequence of `m` draws is one of `m - 1` draws and a last one. */
  lemma DrawsSplit(target: nat, m: nat, d: seq<nat>, j: nat)
    requires m > 0
    ensures d + [j] in Draws(target, m) <==> d in Draws(target, m - 1) && j < target + m
    ensures d in Draws(target, m - 1) ==> |d| == m - 1
  {
    DrawsAreValid(target, m - 1, d);
    InExtensions(Draws(target, m - 1), x => Below(target + m), d, j);
    BelowHas(target + m, j);
  }

  lemma DrawsNonempty(target: nat, m: nat, e: seq<nat>)
    requires m > 0 && e in Draws(target, m)
    ensures e != [] && e == e[..|e| - 1] + [e[|e| - 1]]
  {
    DrawsAreValid(target, m, e);
    InitSnoc(e);
  }

  /** Two sets of nonempty sequences agree if they agree on every extension. */
  lemma SameExtensions(x: set<seq<nat>>, y: set<seq<nat>>)
    requires forall e :: e in x || e in y ==> e != []
    requires forall d: seq<nat>, j: nat :: d + [j] in x <==> d + [j] in y
    ensures x == y
  {
    forall e ensures e in x <==> e in y {
      if e in x || e in y {
        InitSnoc(e);
        assert e[..|e| - 1] + [e[|e| - 1]] in x <==> e[..|e| - 1] + [e[|e| - 1]] in y;
      }
    }
  }

  lemma ExtensionsNonempty(a: set<seq<nat>>, next: seq<nat> -> set<nat>, e: seq<nat>)
    requires e in Extensions(a, next)
    ensures e != []
  {
  }

  lemma {:induction false} KeptAfter(target: nat, d: seq<nat>, j: nat, i: nat)
    ensures i in Slots(target, d + [j])
       <==> (i in Slots(target, d) && !(j < target && Slots(target, d)[j] == i)) || (j < target && i == target + |d|)
  {
    SlotsNext(target, d, j);
    SlotsDistinct(target, d);
    var s, s' := Slots(target, d), Slots(target, d + [j]);
    if i in s && !(j < target && s[j] == i) {
      var k :| 0 <= k < target && s[k] == i;
      assert s'[k] == i;
    }
    if j < target { assert s'[j] == target + |d|; }
  }

  lemma KeepingOld(target: nat, m: nat, i: nat)
    requires m > 0 && i < target + m - 1
    ensures |Keeping(target, m, i)| == (target + m - 1) * |Keeping(target, m - 1, i)|
  {
    hide Slots, Draws, Extensions, Below;
    var a, next := Keeping(target, m - 1, i), d => Sparing(target, m, i, d);
    forall d | d in a ensures |next(d)| == target + m - 1 { SparingCount(target, m, i, d); }
    ExtensionCount(a, next, target + m - 1);
    var x, y := Keeping(target, m, i), Extensions(a, next);
    forall d: seq<nat>, j: nat ensures d + [j] in x <==> d + [j] in y {
      DrawsSplit(target, m, d, j);
      InExtensions(a, next, d, j);
      KeptAfter(target, d, j, i);
      BelowHas(target + m, j);
    }
    forall e | e in x || e in y ensures e != [] {
      if e in x { DrawsNonempty(target, m, e); } else { ExtensionsNonempty(a, next, e); }
    }
    SameExtensions(x, y);
  }

  lemma NotYetSampled(target: nat, d: seq<nat>, i: nat)
    requires i >= target + |d|
    ensures i !in Slots(target, d)
  {
    SlotsDistinct(target, d);
  }

  lemma NewIsKept(target: nat, m: nat, d: seq<nat>, j: nat)
    requires m > 0
    ensures d + [j] in Keeping(target, m, target + m - 1) <==> d in Draws(target, m - 1) && j < target
  {
    hide Draws, Slots;
    DrawsSplit(target, m, d, j);
    KeptAfter(target, d, j, target + m - 1);
    if d in Draws(target, m - 1) {
      NotYetSampled(target, d, target + m - 1);
    }
  }

  /** Whatever was drawn before, the next draw may be any number below the target. */
  function AnyBelow(target: nat): seq<nat> -> set<nat> { (d: seq<nat>) => Below(target) }

  lemma KeepingExtends(target: nat, m: nat)
    requires m > 0
    ensures Keeping(target, m, target + m - 1) == Extensions(Draws(target, m - 1), AnyBelow(target))
  {
    var a, next := Draws(target, m - 1), AnyBelow(target);
    forall d ensures next(d) == Below(target) { }
    var x, y := Keeping(target, m, target + m - 1), Extensions(a, next);
    forall e | e in x || e in y ensures e != [] {
      if e in x { DrawsNonempty(target, m, e); }
    }
    hide Draws, Extensions, Slots, Below, Keeping, AnyBelow;
    forall d: seq<nat>, j: nat ensures d + [j] in x <==> d + [j] in y {
      InExtensions(a, next, d, j);
      NewIsKept(target, m, d, j);
      BelowHas(target, j);
    }
    SameExtensions(x, y);
  }

  lemma KeepingNew(target: nat, m: nat)
    requires m > 0
    ensures |Keeping(target, m, target + m - 1)| == target * |Draws(target, m - 1)|
  {
    var a, next := Draws(target, m - 1), AnyBelow(target);
    forall d ensures next(d) == Below(target) && |next(d)| == target { BelowSize(target); }
    hide Draws, Extensions, Slots, Below, Keeping, AnyBelow;
    ExtensionCount(a, next, target);
    KeepingExtends(target, m);
  }

  lemma OldStaysUniform(target: nat, m: nat, i: nat)
    requires m > 0 && i < target + m - 1
    requires |Keeping(target, m - 1, i)| * (target + m - 1) == target * |Draws(target, m - 1)|
    ensures |Keeping(target, m, i)| * (target + m) == target * |Draws(target, m)|
  {
    hide Keeping, Draws;
    DrawCount(target, m);
    KeepingOld(target, m, i);
    Rescale(|Keeping(target, m - 1, i)|, |Draws(target, m - 1)|, |Keeping(target, m, i)|, |Draws(target, m)|,
            target, target + m - 1);
  }

  lemma {:induction false} NewIsUniform(target: nat, m: nat)
    requires m > 0
    ensures |Keeping(target, m, target + m - 1)| * (target + m) == target * |Draws(target, m)|
  {
    hide Keeping, Draws;
    DrawCount(target, m);
    KeepingNew(target, m);
    Regroup(|Draws(target, m - 1)|, |Keeping(target, m, target + m - 1)|, |Draws(target, m)|, target, target + m);
  }

  /** Reservoir sampling is uniform: over all draw sequences for a source of `target + m`
      items, each position ends in the sample in exactly target / (target + m) of them. */
  lemma {:induction false} EachPositionEquallyLikely(target: nat, m: nat, i: nat)
    requires i < target + m
    ensures |Keeping(target, m, i)| * (target + m) == target * |Draws(target, m)|
  {
    hide Keeping, Draws;
    if m == 0 {
      KeepingAll(target, i);
    } else if i < target + m - 1 {
      EachPositionEquallyLikely(target, m - 1, i);
      OldStaysUniform(target, m, i);
    } else {
      NewIsUniform(target, m);
    }
  }

  lemma KeepingAll(target: nat, i: nat)
    requires i < target
    ensures |Keeping(target, 0, i)| == 1 && |Draws(target, 0)| == 1
  {
    assert Slots(target, [])[i] == i;
    assert Keeping(target, 0, i) == {[]};
  }

  lemma Rescale(k: nat, a: nat, k': nat, a': nat, t: nat, n: nat)
    requires k * n == t * a && k' == n * k && a' == (n + 1) * a
    ensures k' * (n + 1) == t * a'
  {
    assert k' == t * a;
    Regroup(a, k', a', t, n + 1);
  }

  lemma Regroup(a: nat, k': nat, a': nat, t: nat, n: nat)
    requires k' == t * a && a' == n * a
    ensures k' * n == t * a'
  {
    assert (t * a) * n == t * (a * n);
  }

  // ---- which set of positions is sampled ----

  function SlotSet(target: nat, d: seq<nat>): set<nat> { set p | p in Slots(target, d) }

  function Factorial(n: nat): nat { if n == 0 then 1 else n * Factorial(n - 1) }

  /** The draw sequences that sample exactly the positions `s`. */
  ghost function Landing(target: nat, m: nat, s: set<nat>): set<seq<nat>> {
    set d | d in Draws(target, m) && SlotSet(target, d) == s
  }

  /** A draw below the target swaps one sampled position for the new one. */
  lemma SlotSetNext(target: nat, d: seq<nat>, j: nat)
    ensures j >= target ==> SlotSet(target, d + [j]) == SlotSet(target, d)
    ensures j < target ==>
      SlotSet(target, d + [j]) == SlotSet(target, d) - {Slots(target, d)[j]} + {target + |d|}
    ensures target + |d| !in SlotSet(target, d)
  {
    SlotsDistinct(target, d);
    forall i: nat ensures i in SlotSet(target, d + [j])
        <==> (i in SlotSet(target, d) && !(j < target && Slots(target, d)[j] == i)) || (j < target && i == target + |d|)
    {
      KeptAfter(target, d, j, i);
    }
  }

  ghost function Pooled(xs: set<nat>, f: nat -> set<seq<nat>>): set<seq<nat>> {
    set x, d | x in xs && d in f(x) :: d
  }

  lemma PooledSplit(xs: set<nat>, f: nat -> set<seq<nat>>, x: nat)
    requires x in xs
    requires forall y :: y in xs && y != x ==> f(y) !! f(x)
    ensures |Pooled(xs, f)| == |Pooled(xs - {x}, f)| + |f(x)|
  {
    assert Pooled(xs, f) == Pooled(xs - {x}, f) + f(x);
    assert Pooled(xs - {x}, f) !! f(x);
  }

  lemma {:induction false} PooledCount(xs: set<nat>, f: nat -> set<seq<nat>>, n: nat)
    requires forall x :: x in xs ==> |f(x)| == n
    requires forall x, y :: x in xs && y in xs && x != y ==> f(x) !! f(y)
    ensures |Pooled(xs, f)| == |xs| * n
    decreases |xs|
  {
    if xs == {} {
      assert Pooled(xs, f) == {};
    } else {
      hide Pooled;
      var x :| x in xs;
      PooledSplit(xs, f, x);
      PooledCount(xs - {x}, f, n);
      Counted(|xs - {x}|, |xs|, n);
    }
  }

  lemma Counted(k: nat, k': nat, n: nat)
    requires k' == k + 1
    ensures k' * n == k * n + n
  {
  }

  predicate Within(s: set<nat>, n: nat) { forall i :: i in s ==> i < n }

  /** The positions below `n` that are not in `r`. */
  function Outside(n: nat, r: set<nat>): set<nat> { Below(n) - r }

  lemma OutsideSize(n: nat, r: set<nat>)
    requires Within(r, n)
    ensures |Outside(n, r)| + |r| == n
  {
    BelowSize(n);
    forall i | i in r ensures i in Below(n) { BelowHas(n, i); }
    assert Outside(n, r) + r == Below(n);
  }

  lemma BelowWithin(k: nat)
    ensures Within(Below(k), k)
  {
    forall i | i in Below(k) ensures i < k { BelowHas(k, i); }
  }

  lemma LateDraws(target: nat, m: nat, j: nat)
    ensures |Outside(target + m, Below(target))| == m
    ensures j in Outside(target + m, Below(target)) <==> target <= j < target + m
  {
    BelowHas(target, j);
    BelowHas(target + m, j);
    BelowWithin(target);
    BelowSize(target);
    OutsideSize(target + m, Below(target));
  }

  lemma LandingOld(target: nat, m: nat, s: set<nat>, k: nat)
    requires m > 0 && target + m - 1 !in s && |Landing(target, m - 1, s)| == k
    ensures |Landing(target, m, s)| == m * k
  {
    hide Draws, Extensions, Slots, SlotSet, Outside, Below;
    var late := Outside(target + m, Below(target));
    LateDraws(target, m, 0);
    var a, next := Landing(target, m - 1, s), (d: seq<nat>) => late;
    ExtensionCount(a, next, m);
    var x, y := Landing(target, m, s), Extensions(a, next);
    forall d: seq<nat>, j: nat ensures d + [j] in x <==> d + [j] in y {
      DrawsSplit(target, m, d, j);
      InExtensions(a, next, d, j);
      SlotSetNext(target, d, j);
      LateDraws(target, m, j);
    }
    forall e | e in x || e in y ensures e != [] {
      if e in x { DrawsNonempty(target, m, e); } else { ExtensionsNonempty(a, next, e); }
    }
    SameExtensions(x, y);
  }

  /** The draws that put the new position in the place of the one outside `r`. */
  ghost function Swapping(target: nat, r: set<nat>, d: seq<nat>): set<nat> {
    set j: nat | j < target && Slots(target, d)[j] !in r
  }

  lemma SwapIsUnique(target: nat, r: set<nat>, x: nat, d: seq<nat>)
    requires x !in r && SlotSet(target, d) == r + {x}
    ensures |Swapping(target, r, d)| == 1
  {
    SlotsDistinct(target, d);
    assert x in SlotSet(target, d);
    var k :| 0 <= k < target && Slots(target, d)[k] == x;
    forall j: nat | j < target && j != k ensures Slots(target, d)[j] in r {
      assert Slots(target, d)[j] in SlotSet(target, d);
    }
    assert Swapping(target, r, d) == {k};
  }

  lemma SwapSets(t: set<nat>, r: set<nat>, x: nat, n: nat)
    requires x in t && n !in t && n !in r
    ensures t - {x} + {n} == r + {n} <==> x !in r && t == r + {x}
  {
    if t - {x} + {n} == r + {n} {
      assert t - {x} == (t - {x} + {n}) - {n} == (r + {n}) - {n} == r;
      assert t == r + {x};
    }
    if x !in r && t == r + {x} {
      assert t - {x} == r;
    }
  }

  lemma SwapLands(target: nat, m: nat, r: set<nat>, d: seq<nat>, j: nat)
    requires m > 0 && d in Draws(target, m - 1) && j < target + m && target + m - 1 !in r
    ensures SlotSet(target, d + [j]) == r + {target + m - 1}
       <==> j < target && Slots(target, d)[j] !in r && SlotSet(target, d) == r + {Slots(target, d)[j]}
  {
    hide Draws, Slots;
    DrawsAreValid(target, m - 1, d);
    SlotSetNext(target, d, j);
    var n := target + m - 1;
    if j < target {
      SwapSets(SlotSet(target, d), r, Slots(target, d)[j], n);
    } else {
      assert n in r + {n};
    }
  }

  /** The sequences one draw earlier whose sample misses one position of `r` plus another. */
  ghost function NearLanding(target: nat, m: nat, r: set<nat>, xs: set<nat>): set<seq<nat>> {
    set x, d | x in xs && d in Landing(target, m, r + {x}) :: d
  }

  lemma NearLandingCount(target: nat, m: nat, r: set<nat>, xs: set<nat>, k: nat)
    requires xs !! r
    requires forall x :: x in xs ==> |Landing(target, m, r + {x})| == k
    ensures |NearLanding(target, m, r, xs)| == |xs| * k
  {
    var f := (x: nat) => Landing(target, m, r + {x});
    forall x, y | x in xs && y in xs && x != y ensures f(x) !! f(y) {
      assert x in r + {x} && x !in r + {y};
    }
    PooledCount(xs, f, k);
    assert NearLanding(target, m, r, xs) == Pooled(xs, f);
  }

  lemma SwapReaches(target: nat, m: nat, r: set<nat>, n: nat, d: seq<nat>, j: nat)
    requires m > 0 && n == target + m - 1 && n !in r
    requires d + [j] in Landing(target, m, r + {n})
    ensures d in NearLanding(target, m - 1, r, Outside(n, r)) && j in Swapping(target, r, d)
  {
    hide Draws, Slots, SlotSet, Below;
    DrawsSplit(target, m, d, j);
    SlotsDistinct(target, d);
    SwapLands(target, m, r, d, j);
    var x := Slots(target, d)[j];
    BelowHas(n, x);
    assert d in Landing(target, m - 1, r + {x});
  }

  lemma SwapComesFrom(target: nat, m: nat, r: set<nat>, n: nat, d: seq<nat>, j: nat, x: nat)
    requires m > 0 && n == target + m - 1 && n !in r
    requires x !in r && d in Landing(target, m - 1, r + {x}) && j in Swapping(target, r, d)
    ensures d + [j] in Landing(target, m, r + {n})
  {
    hide Draws, Slots, Below;
    var y := Slots(target, d)[j];
    assert y in SlotSet(target, d);
    assert y in r + {x} && y !in r;
    assert y == x;
    DrawsSplit(target, m, d, j);
    SwapLands(target, m, r, d, j);
  }

  lemma LandingNew(target: nat, m: nat, r: set<nat>, n: nat, k: nat)
    requires m > 0 && n == target + m - 1 && Within(r, n) && |r| + 1 == target
    requires forall x :: x in Outside(n, r) ==> |Landing(target, m - 1, r + {x})| == k
    ensures |Landing(target, m, r + {n})| == m * k
  {
    var xs := Outside(n, r);
    OutsideSize(n, r);
    NearLandingCount(target, m - 1, r, xs, k);
    var a, next := NearLanding(target, m - 1, r, xs), d => Swapping(target, r, d);
    assert n !in r;
    hide Draws, Extensions, Slots, Below, SlotSet, Within;
    forall d | d in a ensures |next(d)| == 1 {
      var x :| x in xs && d in Landing(target, m - 1, r + {x});
      SwapIsUnique(target, r, x, d);
    }
    ExtensionCount(a, next, 1);
    var u, v := Landing(target, m, r + {n}), Extensions(a, next);
    forall d: seq<nat>, j: nat ensures d + [j] in u <==> d + [j] in v {
      InExtensions(a, next, d, j);
      if d + [j] in u { SwapReaches(target, m, r, n, d, j); }
      if d in a && j in next(d) {
        var x :| x in xs && d in Landing(target, m - 1, r + {x});
        SwapComesFrom(target, m, r, n, d, j, x);
      }
    }
    forall e | e in u || e in v ensures e != [] {
      if e in u { DrawsNonempty(target, m, e); } else { ExtensionsNonempty(a, next, e); }
    }
    SameExtensions(u, v);
  }

  lemma SwapMember(s: set<nat>, n: nat, x: nat)
    requires n in s && Within(s, n + 1) && x < n && x !in s
    ensures Within(s - {n} + {x}, n) && |s - {n} + {x}| == |s|
  {
  }

  lemma SubsetWithNew(target: nat, m: nat, s: set<nat>, n: nat, f: nat)
    requires m > 0 && n == target + m - 1 && n in s && Within(s, n + 1) && |s| == target
    requires forall t: set<nat> :: Within(t, n) && |t| == target ==> |Landing(target, m - 1, t)| == f
    ensures |Landing(target, m, s)| == m * f
  {
    var r := s - {n};
    assert Within(r, n) && |r| + 1 == target && r + {n} == s;
    hide Landing, Below, Within;
    forall x | x in Outside(n, r) ensures |Landing(target, m - 1, r + {x})| == f {
      BelowHas(n, x);
      SwapMember(s, n, x);
    }
    LandingNew(target, m, r, n, f);
  }

  lemma WithinLess(s: set<nat>, n: nat)
    requires Within(s, n + 1) && n !in s
    ensures Within(s, n)
  {
  }

  /** The sample is a uniformly random subset: whichever `target` positions of the source
      are named, exactly m! of the draw sequences sample them and no others. */
  lemma {:induction false} EachSubsetEquallyLikely(target: nat, m: nat, s: set<nat>)
    requires Within(s, target + m) && |s| == target
    ensures |Landing(target, m, s)| == Factorial(m)
    decreases m
  {
    if m == 0 {
      LandingAll(target, s);
    } else {
      var n, f := target + m - 1, Factorial(m - 1);
      assert Factorial(m) == m * f;
      hide Landing, Factorial, Within;
      forall t: set<nat> | Within(t, n) && |t| == target ensures |Landing(target, m - 1, t)| == f {
        EachSubsetEquallyLikely(target, m - 1, t);
      }
      if n in s {
        SubsetWithNew(target, m, s, n, f);
      } else {
        WithinLess(s, n);
        LandingOld(target, m, s, f);
      }
    }
  }

  lemma LandingAll(target: nat, s: set<nat>)
    requires Within(s, target) && |s| == target
    ensures |Landing(target, 0, s)| == 1
  {
    OutsideSize(target, s);
    assert |Outside(target, s)| == 0;
    forall i: nat ensures i in SlotSet(target, []) <==> i in s {
      BelowHas(target, i);
      if i < target { assert Slots(target, [])[i] == i; assert i !in Outside(target, s); }
    }
    assert Landing(target, 0, s) == {[]};
  }
}
