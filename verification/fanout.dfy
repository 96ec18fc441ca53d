/** The membrane query (membrane/query.rs): score, allocate, collect what arrives before the
    deadline, count, merge, truncate. */
module FanOut {
  import opened Wrappers
  import opened Seqs
  import opened Sums
  import opened Records
  import opened Ranking
  import opened Allocation

  const DEFAULT_MAX_PEERS: nat := 8

  datatype HitOrigin = Local | Remote(tenantId: TenantId)

  datatype Hit = Hit(recordId: nat, similarity: real, origin: HitOrigin, text: string, embedding: Option<seq<real>>)

  /** An opened peer and what its filtered query returned. */
  datatype View = View(tenantId: TenantId, hits: seq<Hit>)

  datatype Stats = Stats(attempted: nat, completed: nat, dropped: nat)

  /** `sagas` carries each peer's saga score already multiplied by its usefulness factor. */
  datatype Query = Query(localId: TenantId, localHits: seq<Hit>, localOnly: bool,
                         sagas: seq<(MemberRecord, real)>, minSimilarity: real, maxRemote: nat, maxTotal: nat)

  function Similarity(h: Hit): real { h.similarity }
  function ScoreOf(p: (MemberRecord, real)): real { p.1 }

  // ---- scoring ----

  function Filtered(sagas: seq<(MemberRecord, real)>, localId: TenantId, min: real): seq<(MemberRecord, real)> {
    if sagas == [] then [] else
      var last := sagas[|sagas| - 1];
      Filtered(sagas[..|sagas| - 1], localId, min)
      + if last.0.tenantId != localId && last.1 >= min then [last] else []
  }

  function Scored(q: Query): seq<(MemberRecord, real)> {
    Ranked(Filtered(q.sagas, q.localId, q.minSimilarity), ScoreOf)
  }

  /** The peers asked, best first. */
  function Asked(q: Query): seq<(MemberRecord, real)> {
    Eligible(Scored(q), q.maxRemote, DEFAULT_MAX_PEERS)
  }

  lemma {:induction false} FilteredHas(sagas: seq<(MemberRecord, real)>, localId: TenantId, min: real,
                                       p: (MemberRecord, real))
    ensures p in Filtered(sagas, localId, min) <==> p in sagas && p.0.tenantId != localId && p.1 >= min
  {
    if sagas == [] {
    } else {
      FilteredHas(sagas[..|sagas| - 1], localId, min, p);
      InitSnoc(sagas);
    }
  }

  lemma {:induction false} FilteredCount(sagas: seq<(MemberRecord, real)>, localId: TenantId, min: real,
                                         p: (MemberRecord, real))
    ensures multiset(Filtered(sagas, localId, min))[p]
         == if p.0.tenantId != localId && p.1 >= min then multiset(sagas)[p] else 0
  {
    if sagas == [] {
    } else {
      FilteredCount(sagas[..|sagas| - 1], localId, min, p);
      InitSnoc(sagas);
    }
  }

  /** The peers that may be asked are exactly the other members whose score reaches the
      threshold, each as often as it is listed; the first eight of them in order of score are
      asked, so no peer left out scores better than one that is asked. */
  lemma BestPeersAsked(q: Query, p: (MemberRecord, real))
    ensures p in Scored(q) <==> p in q.sagas && p.0.tenantId != q.localId && p.1 >= q.minSimilarity
    ensures multiset(Scored(q))[p]
         == if p.0.tenantId != q.localId && p.1 >= q.minSimilarity then multiset(q.sagas)[p] else 0
    ensures |Asked(q)| == if q.maxRemote == 0 then 0 else if |Scored(q)| < 8 then |Scored(q)| else 8
    ensures Asked(q) <= Scored(q)
    ensures Descending(Scores(Asked(q)))
    ensures forall i, j :: 0 <= i < |Asked(q)| <= j < |Scored(q)| ==> Scored(q)[j].1 <= Asked(q)[i].1
  {
    FilteredHas(q.sagas, q.localId, q.minSimilarity, p);
    FilteredCount(q.sagas, q.localId, q.minSimilarity, p);
    ScoredIs(q, p);
    hide Ranked, Filtered, Scored;
    var s, a := Scored(q), Asked(q);
    assert forall i :: 0 <= i < |a| ==> a[i] == s[i];
  }

  lemma ScoredIs(q: Query, p: (MemberRecord, real))
    ensures p in Scored(q) <==> p in Filtered(q.sagas, q.localId, q.minSimilarity)
    ensures multiset(Scored(q)) == multiset(Filtered(q.sagas, q.localId, q.minSimilarity))
    ensures forall i, j :: 0 <= i < j < |Scored(q)| ==> Scored(q)[i].1 >= Scored(q)[j].1
  {
    var f := Filtered(q.sagas, q.localId, q.minSimilarity);
    hide Ranked, Filtered;
    RankedPermutes(f, ScoreOf);
    RankedSorted(f, ScoreOf);
    var s := Ranked(f, ScoreOf);
    SameElements(s, f, p);
    assert forall i :: 0 <= i < |s| ==> ScoreOf(s[i]) == s[i].1;
  }

  lemma SameElements<T>(a: seq<T>, b: seq<T>, x: T)
    requires multiset(a) == multiset(b)
    ensures x in a <==> x in b
  {
    assert x in multiset(a) <==> x in multiset(b);
  }

  // ---- one peer ----

  function Tagged(hits: seq<Hit>, t: TenantId): (r: seq<Hit>)
    ensures |r| == |hits| && forall i :: 0 <= i < |r| ==> r[i] == hits[i].(origin := Remote(t))
  {
    seq(|hits|, i requires 0 <= i < |hits| => hits[i].(origin := Remote(t)))
  }

  /** A peer that cannot be opened or queried answers with no hits. */
  function OpenAndQuery(view: Option<View>): seq<Hit> {
    match view
    case None => []
    case Some(v) => Tagged(v.hits, v.tenantId)
  }

  function Batches(alloc: seq<PeerAllocation<MemberRecord>>, answer: (MemberRecord, nat) -> Option<View>)
    : (b: seq<seq<Hit>>)
    ensures |b| == |alloc|
    ensures forall i :: 0 <= i < |b| ==> b[i] == OpenAndQuery(answer(alloc[i].member, alloc[i].budget))
  {
    seq(|alloc|, i requires 0 <= i < |alloc| => OpenAndQuery(answer(alloc[i].member, alloc[i].budget)))
  }

  // ---- collecting ----

  /** Workers whose batch arrives before the deadline, in order of arrival. Each worker sends
      once, so this is any repeat-free list of worker indices. */
  predicate Arrival(arrivals: seq<nat>, workers: nat) {
    Distinct(arrivals) && forall i :: 0 <= i < |arrivals| ==> arrivals[i] < workers
  }

  function Collected(batches: seq<seq<Hit>>, arrivals: seq<nat>): seq<Hit>
    requires forall i :: 0 <= i < |arrivals| ==> arrivals[i] < |batches|
  {
    if arrivals == [] then [] else
      Collected(batches, arrivals[..|arrivals| - 1]) + batches[arrivals[|arrivals| - 1]]
  }

  lemma {:induction false} CollectedNext(batches: seq<seq<Hit>>, arrivals: seq<nat>, n: nat)
    requires n < |arrivals| && forall i :: 0 <= i < |arrivals| ==> arrivals[i] < |batches|
    ensures Collected(batches, arrivals[..n + 1]) == Collected(batches, arrivals[..n]) + batches[arrivals[n]]
  {
    PrefixOfPrefix(arrivals, n, n + 1);
  }

  lemma {:induction false} ArrivalFits(arrivals: seq<nat>, workers: nat)
    requires Arrival(arrivals, workers)
    ensures |arrivals| <= workers
  {
    assert arrivals != [] ==> arrivals[0] < workers;
    if workers == 0 {
    } else if workers - 1 in arrivals {
      var k :| 0 <= k < |arrivals| && arrivals[k] == workers - 1;
      ArrivalFits(Without(arrivals, k), workers - 1);
    } else {
      ArrivalFits(arrivals, workers - 1);
    }
  }

  /** The receive loop: at most one receive a worker, cut short when nothing more arrives. */
  method Collect(batches: seq<seq<Hit>>, arrivals: seq<nat>) returns (remote: seq<Hit>, stats: Stats)
    requires Arrival(arrivals, |batches|)
    ensures remote == Collected(batches, arrivals)
    ensures stats.attempted == |batches| && stats.completed == |arrivals|
    ensures stats.attempted == stats.completed + stats.dropped
  {
    hide Collected;
    ArrivalFits(arrivals, |batches|);
    remote := [];
    var completed := 0;
    assert Collected(batches, arrivals[..0]) == [] by { NoneCollected(batches); }
    for round := 0 to |batches|
      invariant completed == if round <= |arrivals| then round else |arrivals|
      invariant remote == Collected(batches, arrivals[..completed])
    {
      if completed == |arrivals| {
        break;
      }
      CollectedNext(batches, arrivals, completed);
      remote := remote + batches[arrivals[completed]];
      completed := completed + 1;
    }
    assert arrivals[..completed] == arrivals;
    stats := Stats(|batches|, completed, |batches| - completed);
  }

  lemma NoneCollected(batches: seq<seq<Hit>>)
    ensures Collected(batches, []) == []
  {
  }

  /** Which hits are collected depends on who arrived, not on the order. */
  lemma {:induction false} OrderIrrelevant(batches: seq<seq<Hit>>, a: seq<nat>, b: seq<nat>)
    requires forall i :: 0 <= i < |a| ==> a[i] < |batches|
    requires forall i :: 0 <= i < |b| ==> b[i] < |batches|
    requires multiset(a) == multiset(b)
    ensures multiset(Collected(batches, a)) == multiset(Collected(batches, b))
  {
    hide Collected;
    SameLength(a, b);
    if a != [] {
      var k := Match(a, b);
      OrderIrrelevant(batches, Without(a, |a| - 1), Without(b, k));
      CollectedWithout(batches, a, |a| - 1);
      CollectedWithout(batches, b, k);
    }
  }

  lemma LastCollected(batches: seq<seq<Hit>>, b: seq<nat>)
    requires b != []
    requires forall i :: 0 <= i < |b| ==> b[i] < |batches|
    ensures multiset(Collected(batches, b))
         == multiset(Collected(batches, b[..|b| - 1])) + multiset(batches[b[|b| - 1]])
  {
  }

  lemma Swap(x: multiset<Hit>, y: multiset<Hit>, z: multiset<Hit>)
    ensures (x + y) + z == (x + z) + y
  {
  }

  lemma WithoutBelow(b: seq<nat>, k: nat, m: nat)
    requires k < |b| && forall i :: 0 <= i < |b| ==> b[i] < m
    ensures |Without<nat>(b, k)| == |b| - 1 && forall i :: 0 <= i < |Without<nat>(b, k)| ==> Without<nat>(b, k)[i] < m
  {
  }

  lemma WithoutLast(b: seq<nat>)
    requires b != []
    ensures Without<nat>(b, |b| - 1) == b[..|b| - 1]
  {
  }

  lemma {:induction false} CollectedWithout(batches: seq<seq<Hit>>, b: seq<nat>, k: nat)
    requires k < |b| && forall i :: 0 <= i < |b| ==> b[i] < |batches|
    ensures multiset(Collected(batches, b)) == multiset(Collected(batches, Without(b, k))) + multiset(batches[b[k]])
  {
    hide Without, Collected;
    var n, w := |b| - 1, Without<nat>(b, k);
    LastCollected(batches, b);
    WithoutBelow(b, k, |batches|);
    if k == n {
      WithoutLast(b);
    } else {
      var v := Without<nat>(b[..n], k);
      WithoutInit<nat>(b, k);
      CollectedWithout(batches, b[..n], k);
      LastCollected(batches, w);
      Swap(multiset(Collected(batches, v)), multiset(batches[b[k]]), multiset(batches[b[n]]));
    }
  }

  // ---- what is collected, told by the answers alone ----

  /** What the peer of allocation slot `i` answered, if it could be opened and queried. */
  function Answered(alloc: seq<PeerAllocation<MemberRecord>>, answer: (MemberRecord, nat) -> Option<View>, i: nat)
    : Option<View>
    requires i < |alloc|
  {
    answer(alloc[i].member, alloc[i].budget)
  }

  /** `h` is the peer's hit `g`, marked as coming from tenant `t`. */
  predicate IsHitOf(h: Hit, g: Hit, t: TenantId) {
    && h.recordId == g.recordId && h.similarity == g.similarity && h.text == g.text && h.embedding == g.embedding
    && h.origin == Remote(t)
  }

  /** From position `from` on, `remote` has the hits of this view in order, `to - from` of
      them; none if there is no view. */
  predicate HoldsView(remote: seq<Hit>, from: nat, to: nat, v: Option<View>) {
    && from <= to <= |remote|
    && to - from == (if v.Some? then |v.value.hits| else 0)
    && (v.Some? ==> forall j :: 0 <= j < |v.value.hits| ==>
          IsHitOf(remote[from + j], v.value.hits[j], v.value.tenantId))
  }

  /** `remote` has the hits of the workers that arrived, one after the other in order of
      arrival, those of arrival `k` from `starts[k]` to `starts[k + 1]`. */
  ghost predicate Gathered(alloc: seq<PeerAllocation<MemberRecord>>, answer: (MemberRecord, nat) -> Option<View>,
                           arrivals: seq<nat>, remote: seq<Hit>, starts: seq<nat>) {
    && |starts| == |arrivals| + 1 && starts[0] == 0 && starts[|arrivals|] == |remote|
    && forall k :: 0 <= k < |arrivals| ==>
         arrivals[k] < |alloc| && HoldsView(remote, starts[k], starts[k + 1], Answered(alloc, answer, arrivals[k]))
  }

  lemma HoldsMore(remote: seq<Hit>, more: seq<Hit>, from: nat, to: nat, v: Option<View>)
    requires HoldsView(remote, from, to, v)
    ensures HoldsView(remote + more, from, to, v)
  {
  }

  lemma BatchHolds(remote: seq<Hit>, v: Option<View>)
    ensures HoldsView(remote + OpenAndQuery(v), |remote|, |remote + OpenAndQuery(v)|, v)
  {
  }

  lemma GatheredSnoc(alloc: seq<PeerAllocation<MemberRecord>>, answer: (MemberRecord, nat) -> Option<View>,
                     init: seq<nat>, last: nat, remote: seq<Hit>, r: seq<nat>)
    requires Gathered(alloc, answer, init, remote, r) && last < |alloc|
    ensures var remote' := remote + OpenAndQuery(Answered(alloc, answer, last));
      Gathered(alloc, answer, init + [last], remote', r + [|remote'|])
  {
    var v := Answered(alloc, answer, last);
    var b := OpenAndQuery(v);
    BatchHolds(remote, v);
    hide OpenAndQuery, HoldsView, Answered;
    var arrivals, starts := init + [last], r + [|remote + b|];
    forall k | 0 <= k < |arrivals|
      ensures HoldsView(remote + b, starts[k], starts[k + 1], Answered(alloc, answer, arrivals[k]))
    {
      if k < |init| { HoldsMore(remote, b, r[k], r[k + 1], Answered(alloc, answer, init[k])); }
    }
  }

  lemma {:induction false} CollectedGathered(alloc: seq<PeerAllocation<MemberRecord>>,
                                             answer: (MemberRecord, nat) -> Option<View>, arrivals: seq<nat>)
      returns (starts: seq<nat>)
    requires forall i :: 0 <= i < |arrivals| ==> arrivals[i] < |alloc|
    ensures Gathered(alloc, answer, arrivals, Collected(Batches(alloc, answer), arrivals), starts)
  {
    if arrivals == [] {
      starts := [0];
    } else {
      var n, b := |arrivals| - 1, Batches(alloc, answer);
      var init, last := arrivals[..n], arrivals[n];
      var r := CollectedGathered(alloc, answer, init);
      assert Collected(b, arrivals) == Collected(b, init) + OpenAndQuery(Answered(alloc, answer, last));
      InitSnoc(arrivals);
      hide Collected, OpenAndQuery, Gathered, Answered;
      GatheredSnoc(alloc, answer, init, last, Collected(b, init), r);
      starts := r + [|Collected(b, arrivals)|];
    }
  }

  /** How many hits the views of tenant `t` hold that arrived. */
  function SentBy(alloc: seq<PeerAllocation<MemberRecord>>, answer: (MemberRecord, nat) -> Option<View>,
                  arrivals: seq<nat>, t: TenantId): nat
    requires forall i :: 0 <= i < |arrivals| ==> arrivals[i] < |alloc|
  {
    if arrivals == [] then 0 else
      var n := |arrivals| - 1;
      var v := Answered(alloc, answer, arrivals[n]);
      SentBy(alloc, answer, arrivals[..n], t) + if v.Some? && v.value.tenantId == t then |v.value.hits| else 0
  }

  // ---- the remote cap ----

  /** Every view returned no more hits than it was asked for. */
  predicate Honest(batches: seq<seq<Hit>>, budgets: seq<nat>) {
    |batches| == |budgets| && forall i :: 0 <= i < |batches| ==> |batches[i]| <= budgets[i]
  }

  lemma {:induction false} CollectedWithin(batches: seq<seq<Hit>>, budgets: seq<nat>, arrivals: seq<nat>)
    requires Honest(batches, budgets) && Arrival(arrivals, |batches|)
    ensures |Collected(batches, arrivals)| <= Sum(budgets)
    decreases |arrivals|
  {
    if arrivals == [] {
    } else {
      var n := |arrivals| - 1;
      var last := arrivals[n];
      SumUpdate(budgets, last, 0);
      hide Sum;
      CollectedElsewhere(batches, batches[last := []], arrivals[..n]);
      CollectedWithin(batches[last := []], budgets[last := 0], arrivals[..n]);
    }
  }

  lemma {:induction false} CollectedElsewhere(b: seq<seq<Hit>>, c: seq<seq<Hit>>, arrivals: seq<nat>)
    requires |b| == |c| && Arrival(arrivals, |b|)
    requires forall i :: 0 <= i < |arrivals| ==> b[arrivals[i]] == c[arrivals[i]]
    ensures Collected(b, arrivals) == Collected(c, arrivals)
  {
    if arrivals == [] {
    } else {
      CollectedElsewhere(b, c, arrivals[..|arrivals| - 1]);
    }
  }

  /** Whoever answers in time, the remote hits stay within the remote budget. */
  lemma RemoteWithinBudget(q: Query, budgets: seq<nat>, batches: seq<seq<Hit>>, arrivals: seq<nat>)
    requires Allocated(Scores(Asked(q)), q.maxRemote, 1, budgets)
    requires Honest(batches, budgets) && Arrival(arrivals, |batches|)
    ensures |Collected(batches, arrivals)| <= q.maxRemote
  {
    CollectedWithin(batches, budgets, arrivals);
    hide Sum, Trimmed, Dealt, Wanted;
    assert budgets == [] ==> Sum(budgets) == 0 by { EmptySum(); }
    if Scores(Asked(q)) != [] {
      AllocationExact(Scores(Asked(q)), q.maxRemote, 1, budgets);
    }
  }

  lemma EmptySum()
    ensures Sum([]) == 0
  {
  }

  // ---- merging ----

  function Take(s: seq<Hit>, n: nat): (r: seq<Hit>)
    ensures |r| == if n < |s| then n else |s|
    ensures r <= s
  {
    if n < |s| then s[..n] else s
  }

  function Result(q: Query, remote: seq<Hit>): seq<Hit> {
    if q.localOnly then Take(q.localHits, q.maxTotal)
    else Take(Ranked(q.localHits + remote, Similarity), q.maxTotal)
  }

  /** The hits returned are the best ones, in order. Candidate `p` is returned exactly when
      fewer than `maxTotal` candidates come before it, and then it stands at that place;
      otherwise every place is taken by another candidate at least as similar. */
  lemma BestHitsReturned(q: Query, remote: seq<Hit>, p: nat)
    requires !q.localOnly && p < |q.localHits + remote|
    ensures var all, r := q.localHits + remote, Result(q, remote);
      var rank := Rank(all, Similarity, p);
      && Sorted(r, Similarity)
      && |r| == (if q.maxTotal < |all| then q.maxTotal else |all|)
      && (rank < q.maxTotal ==> rank < |r| && r[rank] == all[p])
      && (rank >= q.maxTotal ==> forall i :: 0 <= i < |r| ==> TakenByOther(all, r, i, p))
      && (Distinct(all) ==> (all[p] in r <==> rank < q.maxTotal))
  {
    var all := q.localHits + remote;
    RankedSorted(all, Similarity);
    RankedPlaces(all, Similarity, p);
    var r, rank := Result(q, remote), Rank(all, Similarity, p);
    hide Ranked, Rank;
    if rank >= q.maxTotal {
      forall i | 0 <= i < |r| ensures TakenByOther(all, r, i, p) {
        assert Similarity(Ranked(all, Similarity)[i]) >= Similarity(Ranked(all, Similarity)[rank]);
        OtherAt(all, p, i);
      }
      if Distinct(all) {
        forall i | 0 <= i < |r| ensures r[i] != all[p] { NotThere(all, r, i, p); }
      }
    }
  }

  lemma NotThere(all: seq<Hit>, r: seq<Hit>, i: nat, p: nat)
    requires Distinct(all) && i < |r| && p < |all| && TakenByOther(all, r, i, p)
    ensures r[i] != all[p]
  {
    var o: nat :| o < |all| && o != p && Rank(all, Similarity, o) == i && r[i] == all[o];
    if o < p { assert all[o] != all[p]; } else { assert all[p] != all[o]; }
  }

  /** Place `i` of the result holds a candidate other than `p` that is at least as similar. */
  ghost predicate TakenByOther(all: seq<Hit>, r: seq<Hit>, i: nat, p: nat)
    requires i < |r| && p < |all|
  {
    r[i].similarity >= all[p].similarity
    && exists o: nat :: o < |all| && o != p && Rank(all, Similarity, o) == i && r[i] == all[o]
  }

  lemma {:induction false} OtherAt(all: seq<Hit>, p: nat, i: nat)
    requires p < |all| && i < |all| && i != Rank(all, Similarity, p)
    ensures var ranked := Ranked(all, Similarity);
      exists o: nat :: o < |all| && o != p && Rank(all, Similarity, o) == i && ranked[i] == all[o]
  {
    var o := RankOnto(all, Similarity, i);
    RankedPlaces(all, Similarity, o);
  }

  /** How many workers the query starts. */
  function Attempted(q: Query): nat {
    if Asked(q) == [] then 0 else Survivors(|Asked(q)|, 1, q.maxRemote)
  }

  /** `alloc` shares the remote budget among the first of the peers to be asked. */
  ghost predicate Allots(q: Query, alloc: seq<PeerAllocation<MemberRecord>>) {
    && |alloc| == Attempted(q) <= |Asked(q)|
    && (forall i :: 0 <= i < |alloc| ==> alloc[i].member == Asked(q)[i].0)
    && Allocated(Scores(Asked(q)), q.maxRemote, 1, Budgets(alloc))
  }

  /** No peer's view holds more hits than the peer was asked for. */
  ghost predicate HonestAnswers(alloc: seq<PeerAllocation<MemberRecord>>, answer: (MemberRecord, nat) -> Option<View>) {
    forall i :: 0 <= i < |alloc| ==>
      var v := answer(alloc[i].member, alloc[i].budget);
      v.Some? ==> |v.value.hits| <= alloc[i].budget
  }

  /** Every local hit is returned, as often as it was found, whatever honest peers answer and
      whichever of them answer in time. */
  ghost predicate LocalAlwaysKept(q: Query, alloc: seq<PeerAllocation<MemberRecord>>) {
    forall answer: (MemberRecord, nat) -> Option<View>, arrivals: seq<nat> ::
      HonestAnswers(alloc, answer) && Arrival(arrivals, |alloc|) ==>
        multiset(q.localHits) <= multiset(Result(q, Collected(Batches(alloc, answer), arrivals)))
  }

  /** How many remote hits there can be. */
  function RemoteRoom(q: Query): nat { if Asked(q) == [] then 0 else q.maxRemote }

  /** What a caller can check. A query that asks peers always returns every local hit exactly
      when there is none, or they fit the cap together with all remote hits that can come; a
      local-only query, when they fit the cap. */
  lemma LocalAlwaysKeptIff(q: Query, alloc: seq<PeerAllocation<MemberRecord>>)
    requires !q.localOnly ==> Allots(q, alloc)
    ensures LocalAlwaysKept(q, alloc) <==>
      if q.localOnly then |q.localHits| <= q.maxTotal
      else q.localHits == [] || |q.localHits| + RemoteRoom(q) <= q.maxTotal
  {
    hide Allocated, Collected, Ranked, Rank, Sum, Asked, Attempted, HonestAnswers;
    if q.localOnly {
      LocalOnlyKept(q, alloc);
    } else if q.localHits == [] || |q.localHits| + RemoteRoom(q) <= q.maxTotal {
      forall answer: (MemberRecord, nat) -> Option<View>, arrivals: seq<nat>
        | HonestAnswers(alloc, answer) && Arrival(arrivals, |alloc|)
        ensures multiset(q.localHits) <= multiset(Result(q, Collected(Batches(alloc, answer), arrivals)))
      {
        KeptIfRoom(q, alloc, answer, arrivals);
      }
    } else {
      RoomIsSum(q, Budgets(alloc));
      var answer, arrivals := Crowd(q, alloc);
    }
  }

  lemma HonestBatches(alloc: seq<PeerAllocation<MemberRecord>>, answer: (MemberRecord, nat) -> Option<View>)
    requires HonestAnswers(alloc, answer)
    ensures Honest(Batches(alloc, answer), Budgets(alloc))
  {
  }

  lemma KeptIfRoom(q: Query, alloc: seq<PeerAllocation<MemberRecord>>, answer: (MemberRecord, nat) -> Option<View>,
                   arrivals: seq<nat>)
    requires Allots(q, alloc) && !q.localOnly && HonestAnswers(alloc, answer) && Arrival(arrivals, |alloc|)
    requires q.localHits == [] || |q.localHits| + RemoteRoom(q) <= q.maxTotal
    ensures multiset(q.localHits) <= multiset(Result(q, Collected(Batches(alloc, answer), arrivals)))
  {
    HonestBatches(alloc, answer);
    hide Allocated, Collected, Ranked, Sum, Asked, Attempted, HonestAnswers, Honest, Batches, Arrival;
    RoomIsSum(q, Budgets(alloc));
    CollectedWithin(Batches(alloc, answer), Budgets(alloc), arrivals);
    var remote := Collected(Batches(alloc, answer), arrivals);
    RankedPermutes(q.localHits + remote, Similarity);
    SameLength(Ranked(q.localHits + remote, Similarity), q.localHits + remote);
    assert multiset(q.localHits + remote) == multiset(q.localHits) + multiset(remote);
  }

  /** Leaving out the end of a list leaves out one occurrence of its last element. */
  lemma PrefixLoses(s: seq<Hit>, n: nat)
    requires n < |s|
    ensures multiset(s[..n])[s[|s| - 1]] < multiset(s)[s[|s| - 1]]
  {
    assert s[..n] + s[n..] == s;
    assert s[|s| - 1] == s[n..][|s| - 1 - n];
  }

  lemma LocalOnlyKept(q: Query, alloc: seq<PeerAllocation<MemberRecord>>)
    requires q.localOnly
    ensures LocalAlwaysKept(q, alloc) <==> |q.localHits| <= q.maxTotal
  {
    hide Collected, Ranked;
    if |q.localHits| > q.maxTotal {
      PrefixLoses(q.localHits, q.maxTotal);
      var answer := (m: MemberRecord, b: nat) => None;
      assert HonestAnswers(alloc, answer) && Arrival([], |alloc|);
      assert multiset(Result(q, Collected(Batches(alloc, answer), []))) == multiset(q.localHits[..q.maxTotal]);
    }
  }

  lemma RoomIsSum(q: Query, budgets: seq<nat>)
    requires Allocated(Scores(Asked(q)), q.maxRemote, 1, budgets)
    ensures Sum(budgets) == RemoteRoom(q)
  {
    hide Trimmed, Dealt, Wanted;
    EmptySum();
    if Asked(q) != [] {
      hide Sum;
      AllocationExact(Scores(Asked(q)), q.maxRemote, 1, budgets);
    }
  }

  function Best(hits: seq<Hit>): (v: real)
    ensures forall i :: 0 <= i < |hits| ==> hits[i].similarity < v
  {
    if hits == [] then 0.0 else
      var v, last := Best(hits[..|hits| - 1]), hits[|hits| - 1].similarity;
      assert forall i :: 0 <= i < |hits| - 1 ==> hits[..|hits| - 1][i] == hits[i];
      if last < v then v else last + 1.0
  }

  /** A peer that uses its whole limit for hits better than all local ones. */
  function Full(best: real): (answer: (MemberRecord, nat) -> Option<View>) {
    (m: MemberRecord, b: nat) => Some(View(m.tenantId, seq(b, _ => Hit(0, best, Local, "", None))))
  }

  lemma FullBatches(alloc: seq<PeerAllocation<MemberRecord>>, best: real)
    ensures HonestAnswers(alloc, Full(best))
    ensures var b := Batches(alloc, Full(best));
      forall i :: 0 <= i < |b| ==> |b[i]| == Budgets(alloc)[i] && forall h :: h in b[i] ==> h.similarity == best
  {
  }

  function Everyone(n: nat): (a: seq<nat>)
    ensures |a| == n && Arrival(a, n)
  {
    seq(n, i => i)
  }

  lemma {:induction false} FullCollected(b: seq<seq<Hit>>, budgets: seq<nat>, best: real, n: nat)
    requires |b| == |budgets| && n <= |b|
    requires forall i :: 0 <= i < |b| ==> |b[i]| == budgets[i] && forall h :: h in b[i] ==> h.similarity == best
    ensures var c := Collected(b, Everyone(n));
      |c| == Sum(budgets[..n]) && forall h :: h in c ==> h.similarity == best
  {
    if n == 0 {
    } else {
      FullCollected(b, budgets, best, n - 1);
      PrefixOfPrefix(budgets, n - 1, n);
      assert Everyone(n)[..n - 1] == Everyone(n - 1);
    }
  }

  /** Remote hits better than all local ones push local ones out. */
  lemma PushedOut(local: seq<Hit>, remote: seq<Hit>, n: nat)
    requires local != [] && n < |local + remote|
    requires forall h, r :: h in local && r in remote ==> h.similarity < r.similarity
    ensures !(multiset(local) <= multiset(Take(Ranked(local + remote, Similarity), n)))
  {
    var ranked := Ranked(local + remote, Similarity);
    RankedPermutes(local + remote, Similarity);
    SameLength(ranked, local + remote);
    LastNotRemote(local, remote);
    hide Ranked;
    var x := ranked[|ranked| - 1];
    CountsApart(local, remote, x);
    PrefixLoses(ranked, n);
  }

  lemma LastNotRemote(local: seq<Hit>, remote: seq<Hit>)
    requires local != []
    requires forall h, r :: h in local && r in remote ==> h.similarity < r.similarity
    ensures var ranked := Ranked(local + remote, Similarity); ranked != [] && ranked[|ranked| - 1] !in remote
  {
    var all := local + remote;
    var ranked := Ranked(all, Similarity);
    RankedPermutes(all, Similarity);
    RankedSorted(all, Similarity);
    SameElements(ranked, all, local[0]);
    hide Ranked;
    assert all[0] == local[0];
    var i :| 0 <= i < |ranked| && ranked[i] == local[0];
    assert Similarity(ranked[i]) >= Similarity(ranked[|ranked| - 1]);
  }

  lemma CountsApart(local: seq<Hit>, remote: seq<Hit>, x: Hit)
    requires x !in remote
    ensures multiset(local + remote)[x] == multiset(local)[x]
  {
    assert multiset(local + remote) == multiset(local) + multiset(remote);
    assert x !in multiset(remote);
  }

  /** A full answer of every peer asked. */
  lemma Crowd(q: Query, alloc: seq<PeerAllocation<MemberRecord>>)
      returns (answer: (MemberRecord, nat) -> Option<View>, arrivals: seq<nat>)
    requires !q.localOnly && q.localHits != [] && |q.localHits| + Sum(Budgets(alloc)) > q.maxTotal
    ensures HonestAnswers(alloc, answer) && Arrival(arrivals, |alloc|)
    ensures !(multiset(q.localHits) <= multiset(Result(q, Collected(Batches(alloc, answer), arrivals))))
  {
    var best := Best(q.localHits);
    answer, arrivals := Full(best), Everyone(|alloc|);
    FullBatches(alloc, best);
    var b, budgets := Batches(alloc, answer), Budgets(alloc);
    hide Sum, Collected, Full, Everyone, Best, Ranked, HonestAnswers, Batches, Budgets;
    FullCollected(b, budgets, best, |alloc|);
    assert budgets[..|alloc|] == budgets;
    PushedOut(q.localHits, Collected(b, arrivals), q.maxTotal);
  }

  /** The similarities returned do not depend on the order in which the peers answered. */
  lemma ResultIgnoresOrder(q: Query, batches: seq<seq<Hit>>, a: seq<nat>, b: seq<nat>, i: nat)
    requires Arrival(a, |batches|) && Arrival(b, |batches|) && multiset(a) == multiset(b)
    requires i < |Result(q, Collected(batches, a))|
    ensures |Result(q, Collected(batches, a))| == |Result(q, Collected(batches, b))|
    ensures Result(q, Collected(batches, a))[i].similarity == Result(q, Collected(batches, b))[i].similarity
  {
    if !q.localOnly {
      OrderIrrelevant(batches, a, b);
      hide Ranked, Collected;
      var x, y := q.localHits + Collected(batches, a), q.localHits + Collected(batches, b);
      assert multiset(x) == multiset(y);
      RankedPermutes(x, Similarity);
      RankedPermutes(y, Similarity);
      RankedSorted(x, Similarity);
      RankedSorted(y, Similarity);
      SortedKeysUnique(Ranked(x, Similarity), Ranked(y, Similarity), Similarity, i);
    }
  }

  /** Local hits get no guaranteed place: here the better remote hit takes the only one. */
  lemma LocalHitCrowdedOut(t: TenantId)
    ensures var here := Hit(0, 0.5, Local, "", None);
      var there := Hit(1, 0.9, Remote(t), "", None);
      Result(Query(t, [here], false, [], 0.0, 1, 1), [there]) == [there]
  {
    var here, there := Hit(0, 0.5, Local, "", None), Hit(1, 0.9, Remote(t), "", None);
    var all := [here] + [there];
    var q := Query(t, [here], false, [], 0.0, 1, 1);
    BestHitsReturned(q, [there], 1);
    assert Ahead(all, Similarity, 1, 0) == Ahead(all, Similarity, 1, 1) == Ahead(all, Similarity, 1, 2) == 0;
  }

  // ---- manifests ----

  const MAX_U64: nat := 0xffff_ffff_ffff_ffff

  function Saturate(n: nat): nat { if n < MAX_U64 then n else MAX_U64 }

  function TotalOf(totals: map<TenantId, nat>, t: TenantId): nat { if t in totals then totals[t] else 0 }

  class ManifestStore {
    var totals: map<TenantId, nat>

    method BumpTotal(peer: TenantId, delta: nat)
      modifies this
      ensures totals == old(totals)[peer := Saturate(TotalOf(old(totals), peer) + delta)]
    {
      totals := totals[peer := Saturate(TotalOf(totals, peer) + delta)];
    }
  }

  /** How many of `hits` came from peer `t`. */
  function HitsFrom(hits: seq<Hit>, t: TenantId): nat {
    if hits == [] then 0 else
      HitsFrom(hits[..|hits| - 1], t) + if hits[|hits| - 1].origin == Remote(t) then 1 else 0
  }

  lemma {:induction false} HitsFromBatch(hits: seq<Hit>, v: Option<View>, t: TenantId, n: nat)
    requires n <= |OpenAndQuery(v)|
    ensures HitsFrom(hits + OpenAndQuery(v)[..n], t)
         == HitsFrom(hits, t) + if v.Some? && v.value.tenantId == t then n else 0
  {
    var b := OpenAndQuery(v);
    if n == 0 {
      assert hits + b[..0] == hits;
    } else {
      HitsFromBatch(hits, v, t, n - 1);
      var all := hits + b[..n];
      assert all[..|all| - 1] == hits + b[..n - 1] && all[|all| - 1] == b[n - 1];
    }
  }

  /** The hits collected from a tenant are those its arrived views hold. */
  lemma {:induction false} CollectedIsSent(alloc: seq<PeerAllocation<MemberRecord>>,
                                           answer: (MemberRecord, nat) -> Option<View>, arrivals: seq<nat>,
                                           t: TenantId)
    requires forall i :: 0 <= i < |arrivals| ==> arrivals[i] < |alloc|
    ensures HitsFrom(Collected(Batches(alloc, answer), arrivals), t) == SentBy(alloc, answer, arrivals, t)
  {
    if arrivals == [] {
    } else {
      var n, b := |arrivals| - 1, Batches(alloc, answer);
      CollectedIsSent(alloc, answer, arrivals[..n], t);
      var v := Answered(alloc, answer, arrivals[n]);
      HitsFromBatch(Collected(b, arrivals[..n]), v, t, |OpenAndQuery(v)|);
      assert b[arrivals[n]] == OpenAndQuery(v) == OpenAndQuery(v)[..|OpenAndQuery(v)|];
      hide HitsFrom;
    }
  }

  method CountHits(remote: seq<Hit>) returns (counts: map<TenantId, nat>)
    ensures forall t :: t in counts <==> HitsFrom(remote, t) > 0
    ensures forall t :: t in counts ==> counts[t] == HitsFrom(remote, t)
  {
    counts := map[];
    for i := 0 to |remote|
      invariant forall t :: t in counts <==> HitsFrom(remote[..i], t) > 0
      invariant forall t :: t in counts ==> counts[t] == HitsFrom(remote[..i], t)
    {
      PrefixOfPrefix(remote, i, i + 1);
      var h := remote[i];
      if h.origin.Remote? {
        counts := counts[h.origin.tenantId := TotalOf(counts, h.origin.tenantId) + 1];
      }
    }
    assert remote[..|remote|] == remote;
  }

  /** Every peer's total has grown by the hits collected from it. */
  ghost predicate Bumped(before: map<TenantId, nat>, after: map<TenantId, nat>, remote: seq<Hit>) {
    forall t :: TotalOf(after, t) ==
      (if HitsFrom(remote, t) == 0 then TotalOf(before, t) else Saturate(TotalOf(before, t) + HitsFrom(remote, t)))
  }

  method BumpManifests(store: ManifestStore, remote: seq<Hit>)
    modifies store
    ensures Bumped(old(store.totals), store.totals, remote)
  {
    hide HitsFrom;
    var counts := CountHits(remote);
    var left := counts.Keys;
    while left != {}
      invariant left <= counts.Keys
      invariant forall t :: t in counts && t !in left ==>
        TotalOf(store.totals, t) == Saturate(TotalOf(old(store.totals), t) + counts[t])
      invariant forall t :: t !in counts || t in left ==> TotalOf(store.totals, t) == TotalOf(old(store.totals), t)
      decreases |left|
    {
      var peer :| peer in left;
      store.BumpTotal(peer, counts[peer]);
      left := left - {peer};
    }
  }

  /** The hits attributed to the peers of a list. */
  function HitsFromAll(hits: seq<Hit>, ts: seq<TenantId>): nat {
    if ts == [] then 0 else HitsFromAll(hits, ts[..|ts| - 1]) + HitsFrom(hits, ts[|ts| - 1])
  }

  lemma {:induction false} LastHit(hits: seq<Hit>, ts: seq<TenantId>)
    requires hits != [] && Distinct(ts)
    ensures var h := hits[|hits| - 1];
      HitsFromAll(hits, ts) == HitsFromAll(hits[..|hits| - 1], ts)
        + if h.origin.Remote? && h.origin.tenantId in ts then 1 else 0
  {
    if ts == [] {
    } else {
      LastHit(hits, ts[..|ts| - 1]);
      InitSnoc(ts);
    }
  }

  /** The manifest bumps account for every collected hit exactly once. */
  lemma {:induction false} BumpsSumToCollected(hits: seq<Hit>, ts: seq<TenantId>)
    requires Distinct(ts)
    requires forall h :: h in hits ==> h.origin.Remote? && h.origin.tenantId in ts
    ensures HitsFromAll(hits, ts) == |hits|
  {
    if hits == [] {
      NoHitsFrom(ts);
    } else {
      BumpsSumToCollected(hits[..|hits| - 1], ts);
      LastHit(hits, ts);
    }
  }

  lemma {:induction false} NoHitsFrom(ts: seq<TenantId>)
    ensures HitsFromAll([], ts) == 0
  {
    if ts == [] {
    } else {
      NoHitsFrom(ts[..|ts| - 1]);
    }
  }

  /** The stored totals of a list of peers. */
  function TotalsOf(totals: map<TenantId, nat>, ts: seq<TenantId>): nat {
    if ts == [] then 0 else TotalsOf(totals, ts[..|ts| - 1]) + TotalOf(totals, ts[|ts| - 1])
  }

  lemma {:induction false} TotalsRise(before: map<TenantId, nat>, after: map<TenantId, nat>, hits: seq<Hit>,
                                      ts: seq<TenantId>)
    requires Bumped(before, after, hits)
    requires forall t :: t in ts ==> TotalOf(before, t) + HitsFrom(hits, t) <= MAX_U64
    ensures TotalsOf(after, ts) == TotalsOf(before, ts) + HitsFromAll(hits, ts)
  {
    hide HitsFrom;
    if ts == [] {
    } else {
      InitSnoc(ts);
      TotalsRise(before, after, hits, ts[..|ts| - 1]);
    }
  }

  /** Below saturation the manifests' totals grow, taken together, by exactly the number of
      hits collected. */
  lemma {:induction false} ManifestsConserveHits(before: map<TenantId, nat>, after: map<TenantId, nat>,
                                                 hits: seq<Hit>, ts: seq<TenantId>)
    requires Bumped(before, after, hits) && Distinct(ts)
    requires forall h :: h in hits ==> h.origin.Remote? && h.origin.tenantId in ts
    requires forall t :: t in ts ==> TotalOf(before, t) + HitsFrom(hits, t) <= MAX_U64
    ensures TotalsOf(after, ts) == TotalsOf(before, ts) + |hits|
  {
    hide Bumped;
    TotalsRise(before, after, hits, ts);
    BumpsSumToCollected(hits, ts);
  }

  // ---- the whole query ----

  /** A 64-bit total after `delta` more hits; nothing is written for none. */
  predicate Grown(before: nat, after: nat, delta: nat) {
    after == if delta == 0 || before + delta < 0x1_0000_0000_0000_0000 then before + delta else 0xffff_ffff_ffff_ffff
  }

  lemma GrownByHits(before: map<TenantId, nat>, after: map<TenantId, nat>, hits: seq<Hit>, t: TenantId)
    requires Bumped(before, after, hits)
    ensures Grown(TotalOf(before, t), TotalOf(after, t), HitsFrom(hits, t))
  {
  }

  lemma AttemptedCount(q: Query)
    ensures Attempted(q) == if |Asked(q)| < q.maxRemote then |Asked(q)| else q.maxRemote
  {
    hide Ranked, Scored;
  }

  method ExecuteWithStats(q: Query, answer: (MemberRecord, nat) -> Option<View>, arrivals: seq<nat>,
                          store: ManifestStore)
    returns (hits: seq<Hit>, stats: Stats, ghost alloc: seq<PeerAllocation<MemberRecord>>)
    requires Arrival(arrivals, Attempted(q))
    modifies store
    ensures q.localOnly ==> hits == Result(q, []) && stats == Stats(0, 0, 0) && store.totals == old(store.totals)
    ensures !q.localOnly ==> Allots(q, alloc)
    ensures !q.localOnly ==>
      && stats.attempted == |alloc| && stats.completed == |arrivals|
      && stats.attempted == stats.completed + stats.dropped
      && hits == Result(q, Collected(Batches(alloc, answer), arrivals))
      && Bumped(old(store.totals), store.totals, Collected(Batches(alloc, answer), arrivals))
    ensures q.localOnly ==>
      && |hits| == (if |q.localHits| < q.maxTotal then |q.localHits| else q.maxTotal)
      && forall i :: 0 <= i < |hits| ==> hits[i] == q.localHits[i]
    ensures !q.localOnly ==>
      exists remote, starts :: Gathered(alloc, answer, arrivals, remote, starts) && hits == Result(q, remote)
    ensures !q.localOnly ==>
      && |alloc| == (if |Asked(q)| < q.maxRemote then |Asked(q)| else q.maxRemote)
      && forall t :: Grown(TotalOf(old(store.totals), t), TotalOf(store.totals, t), SentBy(alloc, answer, arrivals, t))
  {
    hide Ranked, Filtered, Collected, Allocated, Bumped, Attempted, Gathered, Grown;
    if q.localOnly {
      return Take(q.localHits, q.maxTotal), Stats(0, 0, 0), [];
    }
    var scored := Ranked(Filtered(q.sagas, q.localId, q.minSimilarity), ScoreOf);
    var allocation := ProportionalAllocation(scored, q.maxRemote, 1, DEFAULT_MAX_PEERS);
    alloc := allocation;
    AttemptedIs(q, Budgets(allocation));
    var batches := Batches(allocation, answer);
    var remote;
    remote, stats := Collect(batches, arrivals);
    BumpManifests(store, remote);
    ghost var starts := CollectedGathered(alloc, answer, arrivals);
    forall t
      ensures Grown(TotalOf(old(store.totals), t), TotalOf(store.totals, t), SentBy(alloc, answer, arrivals, t))
    {
      CollectedIsSent(alloc, answer, arrivals, t);
      GrownByHits(old(store.totals), store.totals, remote, t);
    }
    AttemptedCount(q);
    hits := Take(Ranked(q.localHits + remote, Similarity), q.maxTotal);
  }

  lemma AttemptedIs(q: Query, budgets: seq<nat>)
    requires Allocated(Scores(Asked(q)), q.maxRemote, 1, budgets)
    ensures |budgets| == Attempted(q)
  {
    if Asked(q) != [] {
      hide Trimmed, Dealt, Wanted, Sum;
      AllocationExact(Scores(Asked(q)), q.maxRemote, 1, budgets);
    }
  }
}
