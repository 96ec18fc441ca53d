/** Lloyd iteration (saga/build.rs): the loop, and the descent it performs. */
module Lloyd {
  import opened Wrappers
  import opened KMeans
  import opened Seeding

  const MAX_ITERATIONS: nat := 20
  const TOLERANCE: real := 0.001

  datatype Run = Run(centroids: seq<Point>, assignments: seq<nat>)

  datatype Centroid = Centroid(clusterSize: nat, vector: Point)

  ghost predicate Clusterable(sample: seq<Point>, dim: nat, cs: seq<Point>) {
    Uniform(sample, dim) && Uniform(cs, dim) && cs != []
  }

  /** The inertia an assignment step computes. */
  function Cost(sample: seq<Point>, dim: nat, cs: seq<Point>): real
    requires Clusterable(sample, dim, cs)
  {
    Inertia(sample, cs, AssignAll(sample, cs, dim), dim, |sample|)
  }

  /** The centroids after an update step. */
  function Improved(sample: seq<Point>, dim: nat, cs: seq<Point>): (r: seq<Point>)
    requires Clusterable(sample, dim, cs)
    ensures Clusterable(sample, dim, r) && |r| == |cs|
  {
    MoveAll(sample, AssignAll(sample, cs, dim), dim, cs, |cs|)
  }

  function Abs(x: real): real { if x < 0.0 then -x else x }

  /** The exit test; `None` is the infinite inertia of the start. */
  predicate Converged(prev: Option<real>, inertia: real) {
    prev.Some? && prev.value > 0.0 && Abs(prev.value - inertia) / prev.value < TOLERANCE
  }

  /** What the loop returns when at most `left` iterations remain. */
  function Iterate(sample: seq<Point>, dim: nat, cs: seq<Point>, prev: Option<real>, left: nat): Run
    requires Clusterable(sample, dim, cs) && left > 0
    decreases left
  {
    var a := AssignAll(sample, cs, dim);
    if Converged(prev, Cost(sample, dim, cs)) then Run(cs, a)
    else if left == 1 then Run(Improved(sample, dim, cs), a)
    else Iterate(sample, dim, Improved(sample, dim, cs), Some(Cost(sample, dim, cs)), left - 1)
  }

  /** The centroids after `n` update steps, wherever the loop stops. */
  function Stepped(sample: seq<Point>, dim: nat, cs: seq<Point>, n: nat): (r: seq<Point>)
    requires Clusterable(sample, dim, cs)
    ensures Clusterable(sample, dim, r) && |r| == |cs|
  {
    if n == 0 then cs else Improved(sample, dim, Stepped(sample, dim, cs, n - 1))
  }

  /** One update and reassignment never raises the inertia. */
  lemma ImprovedCostsNoMore(sample: seq<Point>, dim: nat, cs: seq<Point>)
    requires Clusterable(sample, dim, cs)
    ensures Cost(sample, dim, Improved(sample, dim, cs)) <= Cost(sample, dim, cs)
  {
    var a, r := AssignAll(sample, cs, dim), Improved(sample, dim, cs);
    MeansDescend(sample, a, dim, cs, |cs|);
    NearestIsBest(sample, r, a, dim, |sample|);
  }

  /** Lloyd descent: the inertias of successive iterations never increase. */
  lemma {:induction false} InertiaNeverIncreases(sample: seq<Point>, dim: nat, cs: seq<Point>, i: nat, j: nat)
    requires Clusterable(sample, dim, cs) && i <= j
    ensures Cost(sample, dim, Stepped(sample, dim, cs, j)) <= Cost(sample, dim, Stepped(sample, dim, cs, i))
  {
    hide Cost, Improved, Clusterable;
    if i < j {
      InertiaNeverIncreases(sample, dim, cs, i, j - 1);
      ImprovedCostsNoMore(sample, dim, Stepped(sample, dim, cs, j - 1));
    }
  }

  /** The loop makes `n` updates: at most 20, and fewer exactly when two consecutive inertias
      p and q, the last two and no two before, have p positive and |p - q| below a thousandth
      of p. */
  ghost predicate StopsAfter(sample: seq<Point>, dim: nat, cs: seq<Point>, n: nat)
    requires Clusterable(sample, dim, cs)
  {
    && n <= 20
    && (n < 20 ==>
          && n > 0
          && var p := Cost(sample, dim, Stepped(sample, dim, cs, n - 1));
             var q := Cost(sample, dim, Stepped(sample, dim, cs, n));
             p > 0.0 && 1000.0 * (p - q) < p && 1000.0 * (q - p) < p)
    && (forall i :: 0 < i < n ==>
          var p := Cost(sample, dim, Stepped(sample, dim, cs, i - 1));
          var q := Cost(sample, dim, Stepped(sample, dim, cs, i));
          !(p > 0.0 && 1000.0 * (p - q) < p && 1000.0 * (q - p) < p))
  }

  /** A loop makes one number of updates only. */
  lemma StopsOnce(sample: seq<Point>, dim: nat, cs: seq<Point>, m: nat, n: nat)
    requires Clusterable(sample, dim, cs) && StopsAfter(sample, dim, cs, m) && StopsAfter(sample, dim, cs, n)
    ensures m == n
  {
    hide Cost, Stepped;
  }

  /** The exit test as the numbers have it. */
  lemma ConvergedMeans(p: real, q: real)
    ensures Converged(Some(p), q) <==> p > 0.0 && 1000.0 * (p - q) < p && 1000.0 * (q - p) < p
  {
    if p > 0.0 { QuotientBelow(Abs(p - q), p); }
  }

  lemma QuotientBelow(x: real, p: real)
    requires p > 0.0 && x >= 0.0
    ensures x / p < TOLERANCE <==> 1000.0 * x < p
  {
    var y := x / p;
    assert y * p == x;
    if y < TOLERANCE {
      ProductPositive(TOLERANCE - y, p, (TOLERANCE - y) * p);
    } else if y > TOLERANCE {
      ProductPositive(y - TOLERANCE, p, (y - TOLERANCE) * p);
    }
    assert (TOLERANCE - y) * p == TOLERANCE * p - y * p;
  }

  /** From the assignment step after `m` updates on. */
  lemma {:induction false} LoopEndsFrom(sample: seq<Point>, dim: nat, cs: seq<Point>, m: nat, prev: Option<real>)
      returns (n: nat)
    requires Clusterable(sample, dim, cs) && m < 20
    requires prev == if m == 0 then None else Some(Cost(sample, dim, Stepped(sample, dim, cs, m - 1)))
    requires forall i :: 0 < i < m ==>
      !Converged(Some(Cost(sample, dim, Stepped(sample, dim, cs, i - 1))),
                 Cost(sample, dim, Stepped(sample, dim, cs, i)))
    ensures m <= n && StopsAfter(sample, dim, cs, n)
    ensures Iterate(sample, dim, Stepped(sample, dim, cs, m), prev, 20 - m)
         == Run(Stepped(sample, dim, cs, n), AssignAll(sample, Stepped(sample, dim, cs, if n < 20 then n else 19), dim))
    decreases 20 - m
  {
    hide Cost, Improved, Converged, Clusterable;
    var here := Stepped(sample, dim, cs, m);
    forall p, q ensures Converged(Some(p), q) <==> p > 0.0 && 1000.0 * (p - q) < p && 1000.0 * (q - p) < p {
      ConvergedMeans(p, q);
    }
    if m > 0 && Converged(prev, Cost(sample, dim, here)) {
      n := m;
    } else if m == 19 {
      n := 20;
    } else {
      NotAtStart(Cost(sample, dim, here));
      n := LoopEndsFrom(sample, dim, cs, m + 1, Some(Cost(sample, dim, here)));
    }
  }

  lemma NotAtStart(inertia: real)
    ensures !Converged(None, inertia)
  {
  }

  /** How the loop ends, told by the inertias alone. */
  lemma LoopEnds(sample: seq<Point>, dim: nat, cs: seq<Point>) returns (n: nat)
    requires Clusterable(sample, dim, cs)
    ensures StopsAfter(sample, dim, cs, n)
    ensures Iterate(sample, dim, cs, None, MAX_ITERATIONS)
         == Run(Stepped(sample, dim, cs, n), AssignAll(sample, Stepped(sample, dim, cs, if n < 20 then n else 19), dim))
  {
    hide Iterate, Cost, Improved, Converged, StopsAfter;
    n := LoopEndsFrom(sample, dim, cs, 0, None);
  }

  /** The returned centroids are at least as good as the seeds. */
  lemma NeverWorseThanSeeds(sample: seq<Point>, dim: nat, cs: seq<Point>)
    requires Clusterable(sample, dim, cs)
    ensures var r := Iterate(sample, dim, cs, None, MAX_ITERATIONS);
      && Clusterable(sample, dim, r.centroids) && |r.centroids| == |cs|
      && Assigns(r.assignments, sample, |cs|)
      && Cost(sample, dim, r.centroids) <= Cost(sample, dim, cs)
      && Inertia(sample, r.centroids, r.assignments, dim, |sample|) <= Cost(sample, dim, cs)
  {
    var n := LoopEnds(sample, dim, cs);
    var m := if n < 20 then n else 19;
    var last := Stepped(sample, dim, cs, m);
    assert Stepped(sample, dim, cs, 0) == cs;
    assert n == 20 ==> Stepped(sample, dim, cs, 20) == Improved(sample, dim, last);
    hide Iterate, Converged, Uniform, AssignAll, MoveAll, Inertia, Stepped, StopsAfter;
    InertiaNeverIncreases(sample, dim, cs, 0, m);
    InertiaNeverIncreases(sample, dim, cs, 0, n);
    MeansDescend(sample, AssignAll(sample, last, dim), dim, last, |last|);
  }

  // ---- cluster sizes ----

  function Report(r: Run): seq<Centroid> {
    seq(|r.centroids|, c requires 0 <= c < |r.centroids| =>
      Centroid(Count(r.assignments, c, |r.assignments|), r.centroids[c]))
  }

  function SizeSum(a: seq<nat>, k: nat, n: nat): nat
    requires n <= |a|
  {
    if k == 0 then 0 else SizeSum(a, k - 1, n) + Count(a, k - 1, n)
  }

  lemma {:induction false} SizeSumStep(a: seq<nat>, k: nat, n: nat)
    requires 0 < n <= |a|
    ensures SizeSum(a, k, n) == SizeSum(a, k, n - 1) + (if a[n - 1] < k then 1 else 0)
  {
    if k == 0 {
    } else {
      SizeSumStep(a, k - 1, n);
    }
  }

  /** Every sample point is counted in exactly one cluster. */
  lemma {:induction false} SizesSumToSample(a: seq<nat>, k: nat, n: nat)
    requires n <= |a| && forall i :: 0 <= i < |a| ==> a[i] < k
    ensures SizeSum(a, k, n) == n
  {
    if n == 0 {
      NoSizes(a, k);
    } else {
      SizesSumToSample(a, k, n - 1);
      SizeSumStep(a, k, n);
    }
  }

  lemma {:induction false} NoSizes(a: seq<nat>, k: nat)
    ensures SizeSum(a, k, 0) == 0
  {
    if k == 0 {
    } else {
      NoSizes(a, k - 1);
    }
  }

  /** The cluster sizes of the first `k` reported centroids. */
  function TotalSize(cs: seq<Centroid>, k: nat): nat
    requires k <= |cs|
  {
    if k == 0 then 0 else TotalSize(cs, k - 1) + cs[k - 1].clusterSize
  }

  lemma {:induction false} ReportedSizes(r: Run, k: nat)
    requires k <= |r.centroids|
    ensures TotalSize(Report(r), k) == SizeSum(r.assignments, k, |r.assignments|)
  {
    if k == 0 {
    } else {
      ReportedSizes(r, k - 1);
    }
  }

  /** The reported cluster sizes sum to the sample size. */
  lemma ReportCoversSample(sample: seq<Point>, r: Run)
    requires Assigns(r.assignments, sample, |r.centroids|)
    ensures TotalSize(Report(r), |r.centroids|) == |sample|
  {
    ReportedSizes(r, |r.centroids|);
    SizesSumToSample(r.assignments, |r.centroids|, |sample|);
  }

  /** A count is the number of positions counted. */
  lemma {:induction false} CountIsSize(a: seq<nat>, c: nat, n: nat)
    requires n <= |a|
    ensures Count(a, c, n) == |set i | 0 <= i < n && a[i] == c|
  {
    var s := set i | 0 <= i < n && a[i] == c;
    if n == 0 {
      assert s == {};
    } else {
      CountIsSize(a, c, n - 1);
      var r := set i | 0 <= i < n - 1 && a[i] == c;
      assert s == if a[n - 1] == c then r + {n - 1} else r;
    }
  }

  /** The sample points nearest to centroid `c`, a tie going to the first centroid. */
  ghost function NearestTo(sample: seq<Point>, dim: nat, cs: seq<Point>, c: nat): set<int>
    requires Clusterable(sample, dim, cs)
  {
    set i | 0 <= i < |sample| && IsNearest(sample[i], cs, c)
  }

  /** What the loop reports from these seeds after `n` updates: the centroids those updates
      lead to, each with the number of sample points nearest to it in the last assignment
      step. */
  ghost predicate Reports(sample: seq<Point>, dim: nat, seeds: seq<Point>, n: nat, result: seq<Centroid>)
    requires Clusterable(sample, dim, seeds)
  {
    var last := Stepped(sample, dim, seeds, if n < 20 then n else 19);
    && |result| == |seeds|
    && (forall c :: 0 <= c < |result| ==> result[c].vector == Stepped(sample, dim, seeds, n)[c])
    && (forall c :: 0 <= c < |result| ==>
          result[c].clusterSize == |NearestTo(sample, dim, last, c)|)
  }

  lemma AssignedIffNearest(sample: seq<Point>, dim: nat, cs: seq<Point>, i: nat, c: nat)
    requires Clusterable(sample, dim, cs) && i < |sample|
    ensures AssignAll(sample, cs, dim)[i] == c <==> IsNearest(sample[i], cs, c)
  {
    var b := Nearest(sample[i], cs);
    hide Dist;
    if IsNearest(sample[i], cs, c) { NearestUnique(sample[i], cs, c, b); }
  }

  lemma SizeIsNearest(sample: seq<Point>, dim: nat, cs: seq<Point>, c: nat)
    requires Clusterable(sample, dim, cs)
    ensures Count(AssignAll(sample, cs, dim), c, |sample|) == |NearestTo(sample, dim, cs, c)|
  {
    var a := AssignAll(sample, cs, dim);
    CountIsSize(a, c, |a|);
    hide IsNearest, Count, AssignAll;
    forall i | 0 <= i < |sample| ensures a[i] == c <==> IsNearest(sample[i], cs, c) {
      AssignedIffNearest(sample, dim, cs, i, c);
    }
    assert (set i | 0 <= i < |sample| && a[i] == c) == NearestTo(sample, dim, cs, c);
  }

  lemma ReportCounts(r: Run)
    ensures |Report(r)| == |r.centroids|
    ensures forall c :: 0 <= c < |r.centroids| ==>
      Report(r)[c].vector == r.centroids[c] && Report(r)[c].clusterSize == Count(r.assignments, c, |r.assignments|)
  {
    hide Count;
  }

  lemma ReportsRun(sample: seq<Point>, dim: nat, seeds: seq<Point>, n: nat)
    requires Clusterable(sample, dim, seeds)
    ensures var last := Stepped(sample, dim, seeds, if n < 20 then n else 19);
      Reports(sample, dim, seeds, n, Report(Run(Stepped(sample, dim, seeds, n), AssignAll(sample, last, dim))))
  {
    hide Stepped, NearestTo, AssignAll, Count, Uniform, Report;
    var last := Stepped(sample, dim, seeds, if n < 20 then n else 19);
    var r := Run(Stepped(sample, dim, seeds, n), AssignAll(sample, last, dim));
    ReportCounts(r);
    forall c: nat | c < |seeds| ensures Report(r)[c].clusterSize == |NearestTo(sample, dim, last, c)| {
      SizeIsNearest(sample, dim, last, c);
    }
  }

  // ---- the loop itself ----

  method AssignStep(sample: seq<Point>, dim: nat, centroids: array<Point>, assignments: array<nat>)
    returns (inertia: real)
    requires Clusterable(sample, dim, centroids[..]) && assignments.Length == |sample|
    modifies assignments
    ensures centroids[..] == old(centroids[..])
    ensures assignments[..] == AssignAll(sample, centroids[..], dim)
    ensures inertia == Cost(sample, dim, centroids[..])
  {
    hide Dist, IsNearest;
    ghost var cs := centroids[..];
    inertia := 0.0;
    for i := 0 to |sample|
      invariant centroids[..] == cs
      invariant forall j :: 0 <= j < i ==> assignments[j] == Nearest(sample[j], cs)
      invariant inertia == Inertia(sample, cs, AssignAll(sample, cs, dim), dim, i)
    {
      var best, dist := NearestCentroid(sample[i], centroids[..]);
      assignments[i] := best;
      inertia := inertia + dist.value;
    }
  }

  /** `sums` and `counts` after the first `n` points. */
  predicate Summed(sample: seq<Point>, a: seq<nat>, dim: nat, sums: seq<Point>, counts: seq<nat>, n: nat)
    requires Uniform(sample, dim) && |a| == |sample| && n <= |a|
  {
    && |sums| == |counts| && Uniform(sums, dim)
    && (forall c :: 0 <= c < |counts| ==> counts[c] == Count(a, c, n))
    && (forall c, d :: 0 <= c < |sums| && 0 <= d < dim ==> sums[c][d] == CoordSum(sample, a, dim, c, d, n))
  }

  method SumClusters(sample: seq<Point>, dim: nat, a: seq<nat>, k: nat) returns (sums: array<Point>, counts: array<nat>)
    requires Uniform(sample, dim) && Assigns(a, sample, k)
    ensures sums.Length == k && counts.Length == k && fresh(sums) && fresh(counts)
    ensures Summed(sample, a, dim, sums[..], counts[..], |a|)
  {
    sums := new Point[k](_ => seq(dim, _ => 0.0));
    counts := new nat[k](_ => 0);
    for i := 0 to |sample|
      invariant Summed(sample, a, dim, sums[..], counts[..], i)
    {
      var c := a[i];
      counts[c] := counts[c] + 1;
      for d := 0 to dim
        invariant Uniform(sums[..], dim)
        invariant forall b :: 0 <= b < k ==> counts[b] == Count(a, b, i + 1)
        invariant forall b, e :: 0 <= b < k && 0 <= e < dim ==>
          sums[b][e] == CoordSum(sample, a, dim, b, e, if e < d then i + 1 else if b == c then i else i + 1)
      {
        sums[c] := sums[c][d := sums[c][d] + sample[i][d]];
      }
    }
  }

  method UpdateStep(sample: seq<Point>, dim: nat, centroids: array<Point>, a: seq<nat>)
    requires Uniform(sample, dim) && Uniform(centroids[..], dim) && Assigns(a, sample, centroids.Length)
    modifies centroids
    ensures centroids[..] == MoveAll(sample, a, dim, old(centroids[..]), centroids.Length)
  {
    ghost var cs := centroids[..];
    var k := centroids.Length;
    var sums, counts := SumClusters(sample, dim, a, k);
    for c := 0 to k
      invariant Summed(sample, a, dim, sums[..], counts[..], |a|)
      invariant centroids[..] == MoveAll(sample, a, dim, cs, c)
    {
      if counts[c] != 0 {
        var denom := counts[c] as real;
        ghost var before := centroids[..];
        for d := 0 to dim
          invariant Summed(sample, a, dim, sums[..], counts[..], |a|)
          invariant centroids[..] == MoveCluster(sample, a, dim, before, c, d)
        {
          centroids[c] := centroids[c][d := sums[c][d] / denom];
        }
      }
    }
  }

  method FinalCounts(a: seq<nat>, k: nat) returns (counts: array<nat>)
    requires forall i :: 0 <= i < |a| ==> a[i] < k
    ensures counts.Length == k && fresh(counts)
    ensures forall c :: 0 <= c < k ==> counts[c] == Count(a, c, |a|)
  {
    counts := new nat[k](_ => 0);
    for i := 0 to |a|
      invariant forall c :: 0 <= c < k ==> counts[c] == Count(a, c, i)
    {
      counts[a[i]] := counts[a[i]] + 1;
    }
  }

  method Collect(centroids: seq<Point>, a: seq<nat>) returns (result: seq<Centroid>)
    requires forall i :: 0 <= i < |a| ==> a[i] < |centroids|
    ensures result == Report(Run(centroids, a))
  {
    var counts := FinalCounts(a, |centroids|);
    result := [];
    for c := 0 to |centroids|
      invariant result == Report(Run(centroids, a))[..c]
    {
      result := result + [Centroid(counts[c], centroids[c])];
    }
  }

  /** The loop from given seeds. */
  method Refine(sample: seq<Point>, dim: nat, seeds: seq<Point>) returns (result: seq<Centroid>)
    requires Clusterable(sample, dim, seeds)
    ensures result == Report(Iterate(sample, dim, seeds, None, MAX_ITERATIONS))
    ensures exists n: nat :: StopsAfter(sample, dim, seeds, n) && Reports(sample, dim, seeds, n, result)
  {
    hide Cost, Converged, Uniform, AssignAll, MoveAll, Report, StopsAfter, Reports;
    var k := |seeds|;
    var centroids := new Point[k](i requires 0 <= i < k => seeds[i]);
    var assignments := new nat[|sample|](_ => 0);
    var prev: Option<real> := None;
    ghost var run := Iterate(sample, dim, seeds, None, MAX_ITERATIONS);
    assert centroids[..] == seeds;
    var iter := 0;
    var done := false;
    while iter < MAX_ITERATIONS && !done
      invariant 0 <= iter <= MAX_ITERATIONS
      invariant Clusterable(sample, dim, centroids[..]) && Assigns(assignments[..], sample, k)
      invariant if done || iter == MAX_ITERATIONS then run == Run(centroids[..], assignments[..])
                else run == Iterate(sample, dim, centroids[..], prev, MAX_ITERATIONS - iter)
      decreases MAX_ITERATIONS - iter, !done
    {
      var inertia := AssignStep(sample, dim, centroids, assignments);
      if Converged(prev, inertia) {
        done := true;
      } else {
        prev := Some(inertia);
        ghost var before := centroids[..];
        UpdateStep(sample, dim, centroids, assignments[..]);
        assert centroids[..] == Improved(sample, dim, before);
        iter := iter + 1;
      }
    }
    result := Collect(centroids[..], assignments[..]);
    ghost var n := LoopEnds(sample, dim, seeds);
    ReportsRun(sample, dim, seeds, n);
  }

  /** k-means as the saga runs it: at most one cluster a sample point, seeded by k-means++. */
  method KMeansLloyd(sample: seq<Point>, dim: nat, k: nat, first: nat, us: seq<real>) returns (result: seq<Centroid>)
    requires first < |sample| && Uniform(sample, dim) && 0 < k <= |us| + 1
    ensures |result| == if k <= |sample| then k else |sample|
    ensures var seeds := Grown(sample, dim, sample[first], us, |result|);
      result == Report(Iterate(sample, dim, seeds, None, MAX_ITERATIONS))
      && exists n: nat :: StopsAfter(sample, dim, seeds, n) && Reports(sample, dim, seeds, n, result)
    ensures TotalSize(result, |result|) == |sample|
  {
    var k' := if k <= |sample| then k else |sample|;
    var seeds := PlusPlus(sample, dim, k', first, us);
    result := Refine(sample, dim, seeds);
    NeverWorseThanSeeds(sample, dim, seeds);
    ReportCoversSample(sample, Iterate(sample, dim, seeds, None, MAX_ITERATIONS));
  }
}
