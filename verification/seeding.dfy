/** k-means++ seeding (saga/build.rs): each new centroid is drawn with probability
    proportional to its squared distance from the ones already chosen. */
module Seeding {
  import opened Seqs
  import opened Sums
  import opened Wrappers
  import opened KMeans

  /** The squared distance from `p` to the nearest of `cs`. */
  function MinDist(p: Point, cs: seq<Point>): real
    requires cs != [] && Uniform(cs, |p|)
  {
    Dist(p, cs[Nearest(p, cs)])
  }

  function Weights(sample: seq<Point>, dim: nat, cs: seq<Point>): (w: seq<real>)
    requires Uniform(sample, dim) && Uniform(cs, dim) && cs != []
    ensures |w| == |sample| && forall i :: 0 <= i < |w| ==> w[i] == MinDist(sample[i], cs)
  {
    seq(|sample|, i requires 0 <= i < |sample| => MinDist(sample[i], cs))
  }

  /** The first position whose prefix sum reaches the threshold; 0 if none does. */
  function Pick(w: seq<real>, t: real, n: nat): (i: nat)
    requires n <= |w|
    ensures w != [] ==> i < |w|
  {
    if n == 0 then 0
    else if Reaches(w, t, n - 1) then Pick(w, t, n - 1)
    else if Prefix(w, n) >= t then n - 1 else 0
  }

  predicate Reaches(w: seq<real>, t: real, n: nat)
    requires n <= |w|
  {
    exists i :: 0 < i <= n && Prefix(w, i) >= t
  }

  /** The threshold a draw places the fraction `u` along the total. */
  function Along(u: real, total: real): real { u * total }

  /** The centroid added to `cs` for a draw that falls the fraction `u` along the total. */
  function NextSeed(sample: seq<Point>, dim: nat, cs: seq<Point>, u: real): (c: Point)
    requires sample != [] && Uniform(sample, dim) && Uniform(cs, dim) && cs != []
    ensures |c| == dim
  {
    var w := Weights(sample, dim, cs);
    var total := Prefix(w, |w|);
    if total == 0.0 then cs[|cs| - 1]
    else sample[Pick(w, Along(u, total), |w|)]
  }

  function Extended(cs: seq<Point>, c: Point, dim: nat): (r: seq<Point>)
    requires Uniform(cs, dim) && |c| == dim
    ensures |r| == |cs| + 1 && Uniform(r, dim)
  {
    cs + [c]
  }

  /** The seeds grown to `k` centroids. */
  function Grown(sample: seq<Point>, dim: nat, first: Point, us: seq<real>, k: nat): (cs: seq<Point>)
    requires sample != [] && Uniform(sample, dim) && |first| == dim && 0 < k <= |us| + 1
    ensures |cs| == k && Uniform(cs, dim)
  {
    if k == 1 then [first] else
      var cs := Grown(sample, dim, first, us, k - 1);
      Extended(cs, NextSeed(sample, dim, cs, us[k - 2]), dim)
  }

  // ---- the weights ----

  lemma MinDistNonNegative(p: Point, cs: seq<Point>)
    requires cs != [] && Uniform(cs, |p|)
    ensures MinDist(p, cs) >= 0.0
    ensures MinDist(p, cs) == 0.0 <==> p in cs
  {
    var i := Nearest(p, cs);
    DistSeparates(p, cs[i]);
    hide Dist, Nearest;
    forall j | 0 <= j < |cs| && cs[j] == p ensures MinDist(p, cs) == 0.0 {
      DistSeparates(p, cs[j]);
    }
  }

  /** A new centroid can only lower the distance, to its own. */
  lemma MinDistSnoc(p: Point, cs: seq<Point>, c: Point)
    requires cs != [] && Uniform(cs, |p|) && |c| == |p|
    ensures Uniform(cs + [c], |p|)
    ensures MinDist(p, cs + [c]) == if Dist(p, c) < MinDist(p, cs) then Dist(p, c) else MinDist(p, cs)
  {
    hide Dist;
    var n := |cs|;
    PrefixOfSnoc(cs, c);
    assert forall j :: 0 <= j < n ==> (cs + [c])[j] == cs[j];
    var i := Nearest(p, cs);
    NearestUnique(p, cs + [c], Nearest(p, cs + [c]), if Dist(p, c) < Dist(p, cs[i]) then n else i);
  }

  /** A zero total means every weight is zero. */
  lemma ZeroTotal(w: seq<real>, i: nat)
    requires NonNegative(w) && i < |w| && Prefix(w, |w|) == 0.0
    ensures w[i] == 0.0
  {
    PrefixNonNegative(w, i + 1, |w|);
    PrefixNonNegative(w, 0, i);
  }

  lemma {:induction false} PickIs(w: seq<real>, t: real, n: nat)
    requires n <= |w| && Reaches(w, t, n)
    ensures var i := Pick(w, t, n); i < n && Prefix(w, i + 1) >= t && !Reaches(w, t, i)
  {
    if n > 0 && Reaches(w, t, n - 1) {
      PickIs(w, t, n - 1);
    } else {
      assert Prefix(w, n) >= t;
    }
  }

  /** Position `i` is picked exactly when the threshold falls in its own stretch of the
      total, a stretch as long as its weight; a zero threshold picks position 0. */
  lemma {:induction false} PickedByWeight(w: seq<real>, t: real, i: nat)
    requires NonNegative(w) && i < |w| && 0.0 <= t <= Prefix(w, |w|)
    ensures Pick(w, t, |w|) == i <==>
      Prefix(w, i) <= t <= Prefix(w, i) + w[i] && (i == 0 || Prefix(w, i) < t)
  {
    var k := Pick(w, t, |w|);
    assert Reaches(w, t, |w|);
    PickIs(w, t, |w|);
    hide Pick;
    if k > 0 {
      assert !(Prefix(w, k) >= t);
    }
    PrefixNonNegative(w, 0, |w|);
    if i < k {
      assert !(Prefix(w, i + 1) >= t);
    } else if k < i {
      PrefixNonNegative(w, k + 1, i);
    }
  }

  /** The picked point lies apart from every centroid already chosen, unless the draw is
      exactly zero and the first point is itself a centroid. */
  lemma PickedApart(w: seq<real>, t: real)
    requires NonNegative(w) && w != [] && 0.0 <= t <= Prefix(w, |w|)
    ensures w[Pick(w, t, |w|)] > 0.0 <==> t > 0.0 || w[0] > 0.0
  {
    var i := Pick(w, t, |w|);
    PickedByWeight(w, t, i);
    hide Pick;
    assert Prefix(w, 0) == 0.0;
    PrefixNonNegative(w, 0, i);
  }

  /** A weight is zero exactly on the centroids, and so is the total on their cover. */
  lemma WeightsOf(sample: seq<Point>, dim: nat, cs: seq<Point>)
    requires Uniform(sample, dim) && Uniform(cs, dim) && cs != []
    ensures var w := Weights(sample, dim, cs);
      && NonNegative(w)
      && (forall i :: 0 <= i < |w| ==> (w[i] == 0.0 <==> sample[i] in cs))
      && 0.0 <= Prefix(w, |w|)
      && (Prefix(w, |w|) == 0.0 <==> forall i :: 0 <= i < |sample| ==> sample[i] in cs)
  {
    var w := Weights(sample, dim, cs);
    forall i | 0 <= i < |w| ensures w[i] >= 0.0 && (w[i] == 0.0 <==> sample[i] in cs) {
      MinDistNonNegative(sample[i], cs);
    }
    hide Weights, MinDist, Prefix;
    PrefixNonNegative(w, 0, |w|);
    if Prefix(w, |w|) == 0.0 {
      forall i | 0 <= i < |w| ensures sample[i] in cs { ZeroTotal(w, i); }
    } else if forall i :: 0 <= i < |sample| ==> sample[i] in cs {
      AllZero(w, |w|);
    }
  }

  /** The next seed is a new point exactly when some sample point is not yet a centroid and
      the draw is not the one value that lands on an already chosen first point. */
  lemma NextSeedIsNew(sample: seq<Point>, dim: nat, cs: seq<Point>, u: real)
    requires sample != [] && Uniform(sample, dim) && Uniform(cs, dim) && cs != [] && 0.0 <= u < 1.0
    ensures NextSeed(sample, dim, cs, u) !in cs
       <==> (exists i :: 0 <= i < |sample| && sample[i] !in cs) && (u > 0.0 || sample[0] !in cs)
    ensures NextSeed(sample, dim, cs, u) in cs || NextSeed(sample, dim, cs, u) in sample
  {
    var w := Weights(sample, dim, cs);
    var total := Prefix(w, |w|);
    WeightsOf(sample, dim, cs);
    hide Weights, Pick, MinDist, Prefix, Along;
    if total != 0.0 {
      var t := Along(u, total);
      Fraction(u, total);
      PickedApart(w, t);
      assert NextSeed(sample, dim, cs, u) == sample[Pick(w, t, |w|)];
    }
  }

  /** `w` holds each sample point's least squared distance to the centroids. */
  ghost predicate LeastDistances(sample: seq<Point>, dim: nat, cs: seq<Point>, w: seq<real>)
    requires Uniform(sample, dim) && Uniform(cs, dim)
  {
    && |w| == |sample|
    && (forall i, j :: 0 <= i < |w| && 0 <= j < |cs| ==> w[i] <= Dist(sample[i], cs[j]))
    && (forall i :: 0 <= i < |w| ==> exists j :: 0 <= j < |cs| && w[i] == Dist(sample[i], cs[j]))
  }

  lemma LeastUnique(sample: seq<Point>, dim: nat, cs: seq<Point>, v: seq<real>, w: seq<real>)
    requires Uniform(sample, dim) && Uniform(cs, dim)
    requires LeastDistances(sample, dim, cs, v) && LeastDistances(sample, dim, cs, w)
    ensures v == w
  {
    hide Dist;
    forall i | 0 <= i < |v| ensures v[i] == w[i] {
      var j :| 0 <= j < |cs| && v[i] == Dist(sample[i], cs[j]);
      var k :| 0 <= k < |cs| && w[i] == Dist(sample[i], cs[k]);
    }
  }

  lemma WeightsAreLeast(sample: seq<Point>, dim: nat, cs: seq<Point>)
    requires Uniform(sample, dim) && Uniform(cs, dim) && cs != []
    ensures LeastDistances(sample, dim, cs, Weights(sample, dim, cs))
  {
    hide Dist;
  }

  /** Position `i` owns the stretch of the running total that its weight adds, and the
      fraction `u` of the whole total falls in it. */
  predicate FallsAt(w: seq<real>, u: real, i: nat) {
    && i < |w|
    && Prefix(w, i) <= u * Prefix(w, |w|) <= Prefix(w, i) + w[i]
    && (i == 0 || Prefix(w, i) < u * Prefix(w, |w|))
  }

  /** `c` is the next seed after `cs`: the last one again if all distances are zero, else the
      sample point whose stretch the draw falls in. */
  ghost predicate Drawn(sample: seq<Point>, dim: nat, cs: seq<Point>, u: real, c: Point)
    requires Uniform(sample, dim) && Uniform(cs, dim) && cs != []
  {
    forall w: seq<real> :: LeastDistances(sample, dim, cs, w) ==>
      if Prefix(w, |w|) == 0.0 then c == cs[|cs| - 1]
      else exists i: nat :: i < |sample| && FallsAt(w, u, i) && c == sample[i]
  }

  lemma PickFalls(w: seq<real>, u: real)
    requires NonNegative(w) && w != [] && Prefix(w, |w|) > 0.0 && 0.0 <= u < 1.0
    ensures FallsAt(w, u, Pick(w, Along(u, Prefix(w, |w|)), |w|))
  {
    var total := Prefix(w, |w|);
    var t := Along(u, total);
    assert t == u * total;
    Fraction(u, total);
    PickedByWeight(w, t, Pick(w, t, |w|));
    hide Pick, Prefix, Along;
  }

  /** The next seed is the one point the draw determines. */
  lemma NextSeedDrawn(sample: seq<Point>, dim: nat, cs: seq<Point>, u: real)
    requires sample != [] && Uniform(sample, dim) && Uniform(cs, dim) && cs != [] && 0.0 <= u < 1.0
    ensures Drawn(sample, dim, cs, u, NextSeed(sample, dim, cs, u))
  {
    var w := Weights(sample, dim, cs);
    var total := Prefix(w, |w|);
    WeightsOf(sample, dim, cs);
    WeightsAreLeast(sample, dim, cs);
    hide Weights, Pick, MinDist, Prefix, Along, LeastDistances, FallsAt, Uniform;
    forall v | LeastDistances(sample, dim, cs, v) ensures v == w { LeastUnique(sample, dim, cs, v, w); }
    if total != 0.0 { PickFalls(w, u); }
  }

  lemma Fraction(u: real, total: real)
    requires 0.0 <= u < 1.0 && total > 0.0
    ensures 0.0 <= Along(u, total) <= total && (Along(u, total) > 0.0 <==> u > 0.0)
  {
    if u > 0.0 { ProductPositive(u, total, Along(u, total)); }
    ProductPositive(1.0 - u, total, (1.0 - u) * total);
    assert (1.0 - u) * total == total - Along(u, total);
  }

  /** A zero draw repeats a centroid although another point remains. */
  lemma ZeroDrawRepeats()
    ensures var sample, cs: seq<Point> := [[0.0], [1.0]], [[0.0]];
      NextSeed(sample, 1, cs, 0.0) in cs && sample[1] !in cs
  {
    var sample, cs: seq<Point> := [[0.0], [1.0]], [[0.0]];
    assert [1.0] != [0.0] by { assert [1.0][0] != [0.0][0]; }
    hide NextSeed;
    NextSeedIsNew(sample, 1, cs, 0.0);
  }

  /** Every seed is a sample point. With positive draws no seed repeats as long as some
      sample point remains that is not a seed. */
  lemma {:induction false} SeedsSpread(sample: seq<Point>, dim: nat, first: Point, us: seq<real>, k: nat)
    requires sample != [] && Uniform(sample, dim) && first in sample && 0 < k <= |us| + 1
    requires forall i :: 0 <= i < |us| ==> 0.0 <= us[i] < 1.0
    ensures var r := Grown(sample, dim, first, us, k);
      && (forall j :: 0 <= j < k ==> r[j] in sample)
      && ((forall i :: 0 <= i < |us| ==> us[i] > 0.0) && (exists p :: p in sample && p !in r) ==> Distinct(r))
  {
    hide NextSeed;
    if k > 1 {
      SeedsSpread(sample, dim, first, us, k - 1);
      var cs := Grown(sample, dim, first, us, k - 1);
      assert Uniform(cs, dim);
      NextSeedIsNew(sample, dim, cs, us[k - 2]);
      var c := NextSeed(sample, dim, cs, us[k - 2]);
      var r := Grown(sample, dim, first, us, k);
      assert r == cs + [c];
      if (forall i :: 0 <= i < |us| ==> us[i] > 0.0) && (exists p :: p in sample && p !in r) {
        var p :| p in sample && p !in r;
        assert p !in cs;
        var i :| 0 <= i < |sample| && sample[i] == p;
        assert sample[i] !in cs;
      }
    }
  }

  // ---- the loop ----

  method Refresh(sample: seq<Point>, dim: nat, cs: seq<Point>, dists: array<Option<real>>)
    requires Uniform(sample, dim) && Uniform(cs, dim) && cs != [] && dists.Length == |sample|
    requires forall i :: 0 <= i < |sample| ==>
      dists[i] == if |cs| == 1 then None else Some(MinDist(sample[i], cs[..|cs| - 1]))
    modifies dists
    ensures forall i :: 0 <= i < |sample| ==> dists[i] == Some(MinDist(sample[i], cs))
  {
    hide Dist, MinDist;
    var last := cs[|cs| - 1];
    for i := 0 to |sample|
      invariant forall j :: 0 <= j < i ==> dists[j] == Some(MinDist(sample[j], cs))
      invariant forall j :: i <= j < |sample| ==> dists[j] == old(dists[j])
    {
      var d := SquaredDistance(sample[i], last);
      if dists[i].None? || d < dists[i].value {
        dists[i] := Some(d);
      }
      MinDistLast(sample[i], cs);
    }
  }

  lemma MinDistLast(p: Point, cs: seq<Point>)
    requires cs != [] && Uniform(cs, |p|)
    ensures var d := Dist(p, cs[|cs| - 1]);
      MinDist(p, cs) ==
        if |cs| == 1 || d < MinDist(p, cs[..|cs| - 1]) then d else MinDist(p, cs[..|cs| - 1])
  {
    hide Dist;
    if |cs| > 1 {
      InitSnoc(cs);
      MinDistSnoc(p, cs[..|cs| - 1], cs[|cs| - 1]);
    }
  }

  method Total(dists: array<Option<real>>, ghost w: seq<real>) returns (total: real)
    requires dists.Length == |w| && forall i :: 0 <= i < |w| ==> dists[i] == Some(w[i])
    ensures total == Prefix(w, |w|)
  {
    total := 0.0;
    for i := 0 to dists.Length
      invariant total == Prefix(w, i)
    {
      total := total + dists[i].value;
    }
  }

  method Choose(dists: array<Option<real>>, t: real, ghost w: seq<real>) returns (chosen: nat)
    requires dists.Length == |w| && forall i :: 0 <= i < |w| ==> dists[i] == Some(w[i])
    ensures chosen == Pick(w, t, |w|)
  {
    var threshold := t;
    chosen := 0;
    var i := 0;
    while i < dists.Length
      invariant 0 <= i <= |w| && chosen == 0
      invariant threshold == t - Prefix(w, i)
      invariant !Reaches(w, t, i)
    {
      threshold := threshold - dists[i].value;
      if threshold <= 0.0 {
        chosen := i;
        break;
      }
      i := i + 1;
    }
    PickFirst(w, t, |w|, i);
  }

  lemma {:induction false} PickFirst(w: seq<real>, t: real, n: nat, i: nat)
    requires i <= n <= |w| && !Reaches(w, t, i)
    requires i < n ==> Prefix(w, i + 1) >= t
    ensures Pick(w, t, n) == if i < n then i else 0
  {
    if n > 0 && i < n - 1 {
      PickFirst(w, t, n - 1, i);
    }
  }

  /** One round: refresh the distances to include the last centroid, then draw. */
  method DrawNext(sample: seq<Point>, dim: nat, cs: seq<Point>, u: real, dists: array<Option<real>>) returns (c: Point)
    requires sample != [] && Uniform(sample, dim) && Uniform(cs, dim) && cs != [] && dists.Length == |sample|
    requires forall i :: 0 <= i < |sample| ==>
      dists[i] == if |cs| == 1 then None else Some(MinDist(sample[i], cs[..|cs| - 1]))
    modifies dists
    ensures forall i :: 0 <= i < |sample| ==> dists[i] == Some(MinDist(sample[i], cs))
    ensures c == NextSeed(sample, dim, cs, u)
  {
    hide MinDist, Prefix, Pick, Along;
    Refresh(sample, dim, cs, dists);
    ghost var w := Weights(sample, dim, cs);
    var total := Total(dists, w);
    if total == 0.0 {
      c := cs[|cs| - 1];
    } else {
      var chosen := Choose(dists, Along(u, total), w);
      c := sample[chosen];
    }
  }

  /** If the draws are fractions, each seed after the first is the one its draw determines. */
  ghost predicate AllDrawn(sample: seq<Point>, dim: nat, cs: seq<Point>, us: seq<real>)
    requires Uniform(sample, dim) && Uniform(cs, dim) && |cs| <= |us| + 1
  {
    (forall i :: 0 <= i < |us| ==> 0.0 <= us[i] < 1.0) ==>
      forall j :: 0 < j < |cs| ==> Drawn(sample, dim, cs[..j], us[j - 1], cs[j])
  }

  lemma NothingDrawn(sample: seq<Point>, dim: nat, cs: seq<Point>, us: seq<real>)
    requires Uniform(sample, dim) && Uniform(cs, dim) && |cs| == 1
    ensures AllDrawn(sample, dim, cs, us)
  {
  }

  lemma OneMoreDrawn(sample: seq<Point>, dim: nat, cs: seq<Point>, us: seq<real>, c: Point)
    requires sample != [] && Uniform(sample, dim) && Uniform(cs, dim) && 0 < |cs| <= |us| && |c| == dim
    requires AllDrawn(sample, dim, cs, us) && c == NextSeed(sample, dim, cs, us[|cs| - 1])
    ensures AllDrawn(sample, dim, cs + [c], us)
  {
    hide Drawn, NextSeed;
    var r := cs + [c];
    if forall i :: 0 <= i < |us| ==> 0.0 <= us[i] < 1.0 {
      NextSeedDrawn(sample, dim, cs, us[|cs| - 1]);
      forall j | 0 < j < |r| ensures Drawn(sample, dim, r[..j], us[j - 1], r[j]) {
        assert r[..j] == if j < |cs| then cs[..j] else cs;
      }
    }
  }

  /** k-means++ from the point `first`; `us[j]` says how far along the total the draw for
      centroid `j + 1` falls. */
  method PlusPlus(sample: seq<Point>, dim: nat, k: nat, first: nat, us: seq<real>) returns (centroids: seq<Point>)
    requires first < |sample| && Uniform(sample, dim) && k <= |us| + 1
    ensures centroids == Grown(sample, dim, sample[first], us, if k == 0 then 1 else k)
    ensures |centroids| == (if k == 0 then 1 else k) && centroids[0] == sample[first] && Uniform(centroids, dim)
    ensures AllDrawn(sample, dim, centroids, us)
  {
    hide MinDist, NextSeed, AllDrawn;
    NothingDrawn(sample, dim, [sample[first]], us);
    centroids := [sample[first]];
    var dists := new Option<real>[|sample|](_ => None);
    while |centroids| < k
      invariant 0 < |centroids| <= if k == 0 then 1 else k
      invariant centroids == Grown(sample, dim, sample[first], us, |centroids|)
      invariant centroids[0] == sample[first]
      invariant AllDrawn(sample, dim, centroids, us)
      invariant forall i :: 0 <= i < |sample| ==>
        dists[i] == if |centroids| == 1 then None else Some(MinDist(sample[i], centroids[..|centroids| - 1]))
    {
      var c := DrawNext(sample, dim, centroids, us[|centroids| - 1], dists);
      PrefixOfSnoc(centroids, c);
      OneMoreDrawn(sample, dim, centroids, us, c);
      centroids := centroids + [c];
    }
  }
}
