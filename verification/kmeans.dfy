/** k-means over a saga's sample (saga/build.rs), in exact arithmetic: distances, Lloyd
    iteration and k-means++ seeding. */
module KMeans {
  import opened Seqs
  import opened Wrappers

  type Point = seq<real>

  function Sq(x: real): real { x * x }

  lemma ProductPositive(x: real, y: real, s: real)
    requires s == x * y && ((x > 0.0 && y > 0.0) || (x < 0.0 && y < 0.0))
    ensures s > 0.0
  {
  }

  lemma SqZero(x: real)
    ensures Sq(x) >= 0.0 && (Sq(x) == 0.0 <==> x == 0.0)
  {
    if x != 0.0 {
      ProductPositive(x, x, Sq(x));
    }
  }

  /** The squared distance over the first `n` coordinates. */
  function PartialDist(a: Point, b: Point, n: nat): real
    requires n <= |a| && n <= |b|
  {
    if n == 0 then 0.0 else PartialDist(a, b, n - 1) + Sq(a[n - 1] - b[n - 1])
  }

  function Dist(a: Point, b: Point): real
    requires |a| <= |b|
  {
    PartialDist(a, b, |a|)
  }

  method SquaredDistance(a: Point, b: Point) returns (s: real)
    requires |a| <= |b|
    ensures s == Dist(a, b)
  {
    s := 0.0;
    for i := 0 to |a|
      invariant s == PartialDist(a, b, i)
    {
      var d := a[i] - b[i];
      s := s + d * d;
    }
  }

  lemma {:induction false} PartialDistNonNegative(a: Point, b: Point, n: nat)
    requires n <= |a| && n <= |b|
    ensures PartialDist(a, b, n) >= 0.0
    ensures PartialDist(a, b, n) == 0.0 <==> a[..n] == b[..n]
  {
    if n == 0 {
    } else {
      PartialDistNonNegative(a, b, n - 1);
      SliceSnoc(a, 0, n);
      SliceSnoc(b, 0, n);
      var x := a[n - 1] - b[n - 1];
      SqZero(x);
      PrefixOfSnoc(a[..n - 1], a[n - 1]);
      PrefixOfSnoc(b[..n - 1], b[n - 1]);
    }
  }

  /** Squared distance is zero exactly between equal points. */
  lemma DistSeparates(a: Point, b: Point)
    requires |a| == |b|
    ensures Dist(a, b) >= 0.0 && (Dist(a, b) == 0.0 <==> a == b)
  {
    PartialDistNonNegative(a, b, |a|);
    assert a[..|a|] == a && b[..|b|] == b;
  }

  /** All points and centroids have the tenant's dimension. */
  predicate Uniform(ps: seq<Point>, dim: nat) { forall i :: 0 <= i < |ps| ==> |ps[i]| == dim }

  /** The first centroid at the least distance. */
  predicate IsNearest(p: Point, cs: seq<Point>, i: nat)
    requires Uniform(cs, |p|)
  {
    && i < |cs|
    && (forall j :: 0 <= j < |cs| ==> Dist(p, cs[i]) <= Dist(p, cs[j]))
    && (forall j :: 0 <= j < i ==> Dist(p, cs[i]) < Dist(p, cs[j]))
  }

  lemma NearestUnique(p: Point, cs: seq<Point>, i: nat, j: nat)
    requires Uniform(cs, |p|) && IsNearest(p, cs, i) && IsNearest(p, cs, j)
    ensures i == j
  {
    hide Dist;
    var di, dj := Dist(p, cs[i]), Dist(p, cs[j]);
    assert i < j ==> dj < di;
    assert j < i ==> di < dj;
    assert di <= dj <= di;
  }

  function Nearest(p: Point, cs: seq<Point>): (i: nat)
    requires cs != [] && Uniform(cs, |p|)
    ensures IsNearest(p, cs, i)
  {
    if |cs| == 1 then 0 else
      var n := |cs| - 1;
      var b := Nearest(p, cs[..n]);
      assert forall j :: 0 <= j < n ==> cs[..n][j] == cs[j];
      if Dist(p, cs[n]) < Dist(p, cs[b]) then n else b
  }

  /** `None` stands for the infinite distance the search starts from. */
  method NearestCentroid(p: Point, cs: seq<Point>) returns (best: nat, bestDist: Option<real>)
    requires Uniform(cs, |p|)
    ensures cs == [] ==> best == 0 && bestDist == None
    ensures cs != [] ==> best == Nearest(p, cs) && bestDist == Some(Dist(p, cs[best]))
  {
    best, bestDist := 0, None;
    for i := 0 to |cs|
      invariant i == 0 ==> best == 0 && bestDist == None
      invariant i > 0 ==> best < i && bestDist == Some(Dist(p, cs[best]))
      invariant forall j :: 0 <= j < i ==> Dist(p, cs[best]) <= Dist(p, cs[j])
      invariant forall j :: 0 <= j < best ==> Dist(p, cs[best]) < Dist(p, cs[j])
    {
      var d := SquaredDistance(p, cs[i]);
      if bestDist.None? || d < bestDist.value {
        best, bestDist := i, Some(d);
      }
    }
    if cs != [] {
      NearestUnique(p, cs, best, Nearest(p, cs));
    }
  }

  // ---- inertia ----

  predicate Assigns(a: seq<nat>, sample: seq<Point>, k: nat) {
    |a| == |sample| && forall i :: 0 <= i < |a| ==> a[i] < k
  }

  /** The sum of the distances of the first `n` points to their centroids. */
  function Inertia(sample: seq<Point>, cs: seq<Point>, a: seq<nat>, dim: nat, n: nat): real
    requires Uniform(sample, dim) && Uniform(cs, dim) && Assigns(a, sample, |cs|) && n <= |sample|
  {
    if n == 0 then 0.0 else Inertia(sample, cs, a, dim, n - 1) + Dist(sample[n - 1], cs[a[n - 1]])
  }

  function AssignAll(sample: seq<Point>, cs: seq<Point>, dim: nat): (a: seq<nat>)
    requires Uniform(sample, dim) && Uniform(cs, dim) && cs != []
    ensures Assigns(a, sample, |cs|)
    ensures forall i :: 0 <= i < |sample| ==> a[i] == Nearest(sample[i], cs)
  {
    seq(|sample|, i requires 0 <= i < |sample| => Nearest(sample[i], cs))
  }

  /** No assignment beats the nearest one. */
  lemma {:induction false} NearestIsBest(sample: seq<Point>, cs: seq<Point>, a: seq<nat>, dim: nat, n: nat)
    requires Uniform(sample, dim) && Uniform(cs, dim) && cs != [] && Assigns(a, sample, |cs|) && n <= |sample|
    ensures Inertia(sample, cs, AssignAll(sample, cs, dim), dim, n) <= Inertia(sample, cs, a, dim, n)
  {
    if n == 0 {
    } else {
      NearestIsBest(sample, cs, a, dim, n - 1);
    }
  }

  // ---- moving centroids to their means ----

  function Count(a: seq<nat>, c: nat, n: nat): nat
    requires n <= |a|
  {
    if n == 0 then 0 else Count(a, c, n - 1) + (if a[n - 1] == c then 1 else 0)
  }

  function CoordSum(sample: seq<Point>, a: seq<nat>, dim: nat, c: nat, d: nat, n: nat): real
    requires Uniform(sample, dim) && |a| == |sample| && d < dim && n <= |sample|
  {
    if n == 0 then 0.0 else
      CoordSum(sample, a, dim, c, d, n - 1) + (if a[n - 1] == c then sample[n - 1][d] else 0.0)
  }

  function Mean(sample: seq<Point>, a: seq<nat>, dim: nat, c: nat, d: nat): real
    requires Uniform(sample, dim) && |a| == |sample| && d < dim && Count(a, c, |a|) > 0
  {
    CoordSum(sample, a, dim, c, d, |sample|) / Count(a, c, |a|) as real
  }

  /** Centroid `c` with its first `d` coordinates moved to the mean. */
  function MoveCluster(sample: seq<Point>, a: seq<nat>, dim: nat, cs: seq<Point>, c: nat, d: nat): (r: seq<Point>)
    requires Uniform(sample, dim) && Uniform(cs, dim) && Assigns(a, sample, |cs|)
    requires c < |cs| && d <= dim && Count(a, c, |a|) > 0
    ensures |r| == |cs| && Uniform(r, dim)
  {
    if d == 0 then cs else
      var r := MoveCluster(sample, a, dim, cs, c, d - 1);
      r[c := r[c][d - 1 := Mean(sample, a, dim, c, d - 1)]]
  }

  /** The first `k` centroids moved; an empty cluster stays where it was. */
  function MoveAll(sample: seq<Point>, a: seq<nat>, dim: nat, cs: seq<Point>, k: nat): (r: seq<Point>)
    requires Uniform(sample, dim) && Uniform(cs, dim) && Assigns(a, sample, |cs|) && k <= |cs|
    ensures |r| == |cs| && Uniform(r, dim)
  {
    if k == 0 then cs else
      var r := MoveAll(sample, a, dim, cs, k - 1);
      if Count(a, k - 1, |a|) == 0 then r else MoveCluster(sample, a, dim, r, k - 1, dim)
  }

  lemma {:induction false} MoveClusterIs(sample: seq<Point>, a: seq<nat>, dim: nat, cs: seq<Point>, c: nat, d: nat)
    requires Uniform(sample, dim) && Uniform(cs, dim) && Assigns(a, sample, |cs|)
    requires c < |cs| && d <= dim && Count(a, c, |a|) > 0
    ensures var r := MoveCluster(sample, a, dim, cs, c, d);
      && (forall j :: 0 <= j < |cs| && j != c ==> r[j] == cs[j])
      && (forall e :: 0 <= e < dim ==> r[c][e] == if e < d then Mean(sample, a, dim, c, e) else cs[c][e])
  {
    if d == 0 {
    } else {
      MoveClusterIs(sample, a, dim, cs, c, d - 1);
    }
  }

  /** Each non-empty cluster's centroid becomes the mean of its points. */
  lemma {:induction false} MovedToMeans(sample: seq<Point>, a: seq<nat>, dim: nat, cs: seq<Point>, k: nat)
    requires Uniform(sample, dim) && Uniform(cs, dim) && Assigns(a, sample, |cs|) && k <= |cs|
    ensures var r := MoveAll(sample, a, dim, cs, k);
      forall c :: 0 <= c < |cs| ==>
        if c < k && Count(a, c, |a|) > 0
        then forall e :: 0 <= e < dim ==> r[c][e] == Mean(sample, a, dim, c, e)
        else r[c] == cs[c]
  {
    if k == 0 {
    } else {
      MovedToMeans(sample, a, dim, cs, k - 1);
      if Count(a, k - 1, |a|) > 0 {
        MoveClusterIs(sample, a, dim, MoveAll(sample, a, dim, cs, k - 1), k - 1, dim);
      }
    }
  }

  // ---- the mean minimises the squared distances ----

  /** Sum over cluster `c` of the squared differences of coordinate `d` from `v`. */
  function Spread(sample: seq<Point>, a: seq<nat>, dim: nat, c: nat, d: nat, v: real, n: nat): real
    requires Uniform(sample, dim) && |a| == |sample| && d < dim && n <= |sample|
  {
    if n == 0 then 0.0 else
      Spread(sample, a, dim, c, d, v, n - 1) + (if a[n - 1] == c then Sq(sample[n - 1][d] - v) else 0.0)
  }

  function SquareSum(sample: seq<Point>, a: seq<nat>, dim: nat, c: nat, d: nat, n: nat): real
    requires Uniform(sample, dim) && |a| == |sample| && d < dim && n <= |sample|
  {
    if n == 0 then 0.0 else
      SquareSum(sample, a, dim, c, d, n - 1) + (if a[n - 1] == c then Sq(sample[n - 1][d]) else 0.0)
  }

  function Quadratic(s2: real, s1: real, n: real, v: real): real { s2 - 2.0 * v * s1 + n * Sq(v) }

  lemma QuadraticStep(s2: real, s1: real, n: real, v: real, x: real)
    ensures Quadratic(s2 + Sq(x), s1 + x, n + 1.0, v) == Quadratic(s2, s1, n, v) + Sq(x - v)
  {
  }

  lemma {:induction false} SpreadIsQuadratic(sample: seq<Point>, a: seq<nat>, dim: nat, c: nat, d: nat, v: real, n: nat)
    requires Uniform(sample, dim) && |a| == |sample| && d < dim && n <= |sample|
    ensures Spread(sample, a, dim, c, d, v, n)
         == Quadratic(SquareSum(sample, a, dim, c, d, n), CoordSum(sample, a, dim, c, d, n), Count(a, c, n) as real, v)
  {
    if n == 0 {
    } else {
      SpreadIsQuadratic(sample, a, dim, c, d, v, n - 1);
      if a[n - 1] == c {
        QuadraticStep(SquareSum(sample, a, dim, c, d, n - 1), CoordSum(sample, a, dim, c, d, n - 1),
                      Count(a, c, n - 1) as real, v, sample[n - 1][d]);
      }
    }
  }

  lemma VertexIsLeast(s2: real, s1: real, n: real, m: real, v: real)
    requires n > 0.0 && n * m == s1
    ensures Quadratic(s2, s1, n, m) <= Quadratic(s2, s1, n, v)
  {
    var e := v - m;
    assert Quadratic(s2, s1, n, v) - Quadratic(s2, s1, n, m) == n * (e * e) by {
      assert v == m + e;
      assert 2.0 * v * s1 == 2.0 * m * s1 + 2.0 * e * s1;
      assert Sq(v) == m * m + 2.0 * m * e + e * e;
      assert n * Sq(v) == n * (m * m) + 2.0 * ((n * m) * e) + n * (e * e);
    }
    assert e * e >= 0.0;
    assert n * (e * e) >= 0.0;
  }

  lemma MeanIsLeast(sample: seq<Point>, a: seq<nat>, dim: nat, c: nat, d: nat, v: real)
    requires Uniform(sample, dim) && |a| == |sample| && d < dim && Count(a, c, |a|) > 0
    ensures Spread(sample, a, dim, c, d, Mean(sample, a, dim, c, d), |sample|)
         <= Spread(sample, a, dim, c, d, v, |sample|)
  {
    var n := |sample|;
    var m := Mean(sample, a, dim, c, d);
    var k := Count(a, c, n) as real;
    assert k * m == CoordSum(sample, a, dim, c, d, n);
    SpreadIsQuadratic(sample, a, dim, c, d, m, n);
    SpreadIsQuadratic(sample, a, dim, c, d, v, n);
    VertexIsLeast(SquareSum(sample, a, dim, c, d, n), CoordSum(sample, a, dim, c, d, n), k, m, v);
  }

  lemma {:induction false} DistMoved(p: Point, q: Point, d: nat, v: real, n: nat)
    requires |p| == |q| && d < |q| && n <= |p|
    ensures PartialDist(p, q[d := v], n)
         == PartialDist(p, q, n) + (if d < n then Sq(p[d] - v) - Sq(p[d] - q[d]) else 0.0)
  {
    if n == 0 {
    } else {
      DistMoved(p, q, d, v, n - 1);
    }
  }

  /** Moving one coordinate of one centroid changes the inertia by the change in spread. */
  lemma {:induction false} InertiaMoved(sample: seq<Point>, cs: seq<Point>, a: seq<nat>, dim: nat, c: nat, d: nat,
                                        v: real, n: nat)
    requires Uniform(sample, dim) && Uniform(cs, dim) && Assigns(a, sample, |cs|) && n <= |sample|
    requires c < |cs| && d < dim
    ensures Uniform(cs[c := cs[c][d := v]], dim)
    ensures Inertia(sample, cs[c := cs[c][d := v]], a, dim, n) - Inertia(sample, cs, a, dim, n)
         == Spread(sample, a, dim, c, d, v, n) - Spread(sample, a, dim, c, d, cs[c][d], n)
  {
    if n == 0 {
    } else {
      InertiaMoved(sample, cs, a, dim, c, d, v, n - 1);
      if a[n - 1] == c {
        DistMoved(sample[n - 1], cs[c], d, v, dim);
      }
    }
  }

  lemma {:induction false} ClusterDescends(sample: seq<Point>, a: seq<nat>, dim: nat, cs: seq<Point>, c: nat, d: nat)
    requires Uniform(sample, dim) && Uniform(cs, dim) && Assigns(a, sample, |cs|)
    requires c < |cs| && d <= dim && Count(a, c, |a|) > 0
    ensures Inertia(sample, MoveCluster(sample, a, dim, cs, c, d), a, dim, |sample|)
         <= Inertia(sample, cs, a, dim, |sample|)
  {
    if d == 0 {
    } else {
      ClusterDescends(sample, a, dim, cs, c, d - 1);
      var r := MoveCluster(sample, a, dim, cs, c, d - 1);
      var m := Mean(sample, a, dim, c, d - 1);
      InertiaMoved(sample, r, a, dim, c, d - 1, m, |sample|);
      MeanIsLeast(sample, a, dim, c, d - 1, r[c][d - 1]);
    }
  }

  /** Moving every centroid to its mean does not raise the inertia. */
  lemma {:induction false} MeansDescend(sample: seq<Point>, a: seq<nat>, dim: nat, cs: seq<Point>, k: nat)
    requires Uniform(sample, dim) && Uniform(cs, dim) && Assigns(a, sample, |cs|) && k <= |cs|
    ensures Inertia(sample, MoveAll(sample, a, dim, cs, k), a, dim, |sample|) <= Inertia(sample, cs, a, dim, |sample|)
  {
    if k == 0 {
    } else {
      MeansDescend(sample, a, dim, cs, k - 1);
      if Count(a, k - 1, |a|) > 0 {
        ClusterDescends(sample, a, dim, MoveAll(sample, a, dim, cs, k - 1), k - 1, dim);
      }
    }
  }
}
