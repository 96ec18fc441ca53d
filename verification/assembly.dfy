/** The rest of context assembly (context.rs): the budget cut, the whole build, and what
    sentence deduplication keeps. */
module Assembly {
  import opened Wrappers
  import opened Seqs
  import opened Ranking
  import opened FanOut
  import opened Sentences
  import opened Context


  // ---- phase 3: budget ----

  datatype Cut = Cut(items: seq<Item>, total: nat, dropped: nat)

  /** Whether an item still fits a bundle of `total` tokens and `count` records. */
  predicate Fits(c: Config, total: nat, count: nat, x: Item) {
    && (c.tokenBudget.Some? ==> total + x.tokens <= c.tokenBudget.value)
    && (c.recordBudget.Some? ==> count < c.recordBudget.value)
  }

  function Budgeted(c: Config, ranked: seq<Item>): Cut {
    if ranked == [] then Cut([], 0, 0) else
      var b, x := Budgeted(c, ranked[..|ranked| - 1]), ranked[|ranked| - 1];
      if Fits(c, b.total, |b.items|, x) then Cut(b.items + [x], b.total + x.tokens, b.dropped)
      else b.(dropped := b.dropped + 1)
  }

  function SumTokens(items: seq<Item>): nat {
    if items == [] then 0 else SumTokens(items[..|items| - 1]) + items[|items| - 1].tokens
  }

  lemma BudgetedNext(c: Config, ranked: seq<Item>, n: nat)
    requires n < |ranked|
    ensures var b, x := Budgeted(c, ranked[..n]), ranked[n];
      Budgeted(c, ranked[..n + 1]) ==
        if Fits(c, b.total, |b.items|, x) then Cut(b.items + [x], b.total + x.tokens, b.dropped)
        else b.(dropped := b.dropped + 1)
  {
    PrefixOfPrefix(ranked, n, n + 1);
  }

  /** The token total is that of the kept items and within budget, as is their number. */
  lemma {:induction false} BudgetHolds(c: Config, ranked: seq<Item>)
    ensures var b := Budgeted(c, ranked);
      && b.total == SumTokens(b.items)
      && (c.tokenBudget.Some? ==> b.total <= c.tokenBudget.value)
      && (c.recordBudget.Some? ==> |b.items| <= c.recordBudget.value)
      && |b.items| + b.dropped == |ranked|
  {
    if ranked == [] {
    } else {
      var b, x := Budgeted(c, ranked[..|ranked| - 1]), ranked[|ranked| - 1];
      BudgetHolds(c, ranked[..|ranked| - 1]);
      PrefixOfSnoc(b.items, x);
    }
  }

  /** The loop passed over ranked item `n`. */
  predicate Skipped(c: Config, ranked: seq<Item>, n: nat)
    requires n < |ranked|
  {
    var b := Budgeted(c, ranked[..n]);
    !Fits(c, b.total, |b.items|, ranked[n])
  }

  lemma {:induction false} BudgetGrows(c: Config, ranked: seq<Item>, m: nat, n: nat)
    requires m <= n <= |ranked|
    ensures var a, b := Budgeted(c, ranked[..m]), Budgeted(c, ranked[..n]);
      a.items <= b.items && a.total <= b.total
  {
    hide Budgeted, Fits;
    if m < n {
      BudgetGrows(c, ranked, m, n - 1);
      BudgetedNext(c, ranked, n - 1);
    }
  }

  /** A kept item stands after the items kept before it; a skipped one would not fit even the
      finished bundle. */
  lemma {:induction false} SkippedWouldNotFit(c: Config, ranked: seq<Item>, n: nat)
    requires n < |ranked|
    ensures var b, at := Budgeted(c, ranked), |Budgeted(c, ranked[..n]).items|;
      if Skipped(c, ranked, n) then !Fits(c, b.total, |b.items|, ranked[n])
      else at < |b.items| && b.items[at] == ranked[n]
  {
    hide Budgeted;
    BudgetGrows(c, ranked, n, |ranked|);
    BudgetGrows(c, ranked, n + 1, |ranked|);
    BudgetedNext(c, ranked, n);
    assert ranked[..|ranked|] == ranked;
  }

  /** The loop goes on past the first item that does not fit, so the bundle is the prefix
      before that item exactly when nothing after it fits the room it left. */
  lemma {:induction false} StopsAtFirstOverflow(c: Config, ranked: seq<Item>, f: nat)
    requires f < |ranked| && Skipped(c, ranked, f) && forall i :: 0 <= i < f ==> !Skipped(c, ranked, i)
    ensures Budgeted(c, ranked).items == ranked[..f]
       <==> forall i :: f < i < |ranked| ==> !Fits(c, SumTokens(ranked[..f]), f, ranked[i])
  {
    NothingSkipped(c, ranked, f);
    StoppedAt(c, ranked, f, |ranked|);
    assert ranked[..|ranked|] == ranked;
  }

  lemma {:induction false} NothingSkipped(c: Config, ranked: seq<Item>, f: nat)
    requires f <= |ranked| && forall i :: 0 <= i < f ==> !Skipped(c, ranked, i)
    ensures Budgeted(c, ranked[..f]).items == ranked[..f] && Budgeted(c, ranked[..f]).total == SumTokens(ranked[..f])
  {
    BudgetHolds(c, ranked[..f]);
    if f > 0 {
      NothingSkipped(c, ranked, f - 1);
      hide Budgeted, Fits, SumTokens;
      BudgetedNext(c, ranked, f - 1);
      SliceSnoc(ranked, 0, f);
      assert !Skipped(c, ranked, f - 1);
    }
  }

  lemma {:induction false} StoppedAt(c: Config, ranked: seq<Item>, f: nat, n: nat)
    requires f < n <= |ranked| && Skipped(c, ranked, f)
    requires Budgeted(c, ranked[..f]).items == ranked[..f] && Budgeted(c, ranked[..f]).total == SumTokens(ranked[..f])
    ensures var b := Budgeted(c, ranked[..n]);
      && (b.items == ranked[..f] <==> forall i :: f < i < n ==> !Fits(c, SumTokens(ranked[..f]), f, ranked[i]))
      && (b.items == ranked[..f] ==> b.total == SumTokens(ranked[..f]))
      && |b.items| >= f
  {
    hide Budgeted, SumTokens, Fits;
    BudgetedNext(c, ranked, n - 1);
    if n > f + 1 {
      StoppedAt(c, ranked, f, n - 1);
      BudgetGrows(c, ranked, f, n - 1);
    }
  }

  /** The smallest case: after an item that overflows, a later one is still taken. */
  lemma LoopGoesOn(c: Config, a: Item, b: Item, d: Item)
    requires c.tokenBudget == Some(8) && c.recordBudget == None && a.tokens == 5 && b.tokens == 10 && d.tokens == 3
    ensures Budgeted(c, [a, b, d]).items == [a, d]
  {
    var s := [a, b, d];
    assert s[..1] == [a] && s[..2] == [a, b] && s[..3] == s;
    assert Budgeted(c, s[..0]) == Cut([], 0, 0);
    hide Budgeted;
    BudgetedNext(c, s, 0);
    BudgetedNext(c, s, 1);
    BudgetedNext(c, s, 2);
  }

  // ---- what is cut at all ----

  /** All items together fit the budgets. */
  predicate FitsBudget(c: Config, items: seq<Item>) {
    && (c.tokenBudget.Some? ==> SumTokens(items) <= c.tokenBudget.value)
    && (c.recordBudget.Some? ==> |items| <= c.recordBudget.value)
  }

  lemma {:induction false} SumConcat(a: seq<Item>, b: seq<Item>)
    ensures SumTokens(a + b) == SumTokens(a) + SumTokens(b)
  {
    if b == [] {
      assert a + b == a;
    } else {
      SumConcat(a, b[..|b| - 1]);
      assert (a + b)[..|a + b| - 1] == a + b[..|b| - 1];
    }
  }

  lemma {:induction false} SumRanked(c: Config, items: seq<Item>)
    ensures SumTokens(Ranked(items, c.score)) == SumTokens(items)
  {
    if items == [] {
    } else {
      var n := |items| - 1;
      SumRanked(c, items[..n]);
      var r, x := Ranked(items[..n], c.score), items[n];
      var p := CountAtLeast(r, c.score, c.score(x), |r|);
      hide SumTokens, CountAtLeast;
      assert r == r[..p] + r[p..];
      SumConcat(r[..p], r[p..]);
      SumConcat(r[..p] + [x], r[p..]);
      SumConcat(r[..p], [x]);
      InitSnoc(items);
      SumConcat(items[..n], [x]);
    }
  }

  lemma {:induction false} CutIsLess(c: Config, ranked: seq<Item>)
    ensures Budgeted(c, ranked).total <= SumTokens(ranked) && |Budgeted(c, ranked).items| <= |ranked|
  {
    if ranked == [] {
    } else {
      CutIsLess(c, ranked[..|ranked| - 1]);
    }
  }

  /** Nothing is cut exactly when everything together fits. */
  lemma NothingCutIff(c: Config, items: seq<Item>)
    ensures var ranked := Ranked(items, c.score);
      FitsBudget(c, items) <==> forall n :: 0 <= n < |ranked| ==> !Skipped(c, ranked, n)
  {
    var ranked := Ranked(items, c.score);
    SumRanked(c, items);
    hide Ranked, SumTokens, Budgeted;
    if FitsBudget(c, items) {
      forall n | 0 <= n < |ranked| ensures !Skipped(c, ranked, n) {
        CutIsLess(c, ranked[..n]);
        assert ranked[n..] == [ranked[n]] + ranked[n + 1..] && ranked == ranked[..n] + ranked[n..];
        SumConcat(ranked[..n], ranked[n..]);
        SumConcat([ranked[n]], ranked[n + 1..]);
        SumOne(ranked[n]);
      }
    } else if forall n :: 0 <= n < |ranked| ==> !Skipped(c, ranked, n) {
      NothingSkipped(c, ranked, |ranked|);
      assert ranked[..|ranked|] == ranked;
      BudgetHolds(c, ranked);
    }
  }

  lemma SumOne(x: Item)
    ensures SumTokens([x]) == x.tokens
  {
    assert [x][..0] == [];
  }

  // ---- the build ----

  datatype Bundle = Bundle(items: seq<Item>, totalTokens: nat, duplicates: nat, below: nat, overBudget: nat,
                           redundant: nat, semantic: nat)

  function Built(c: Config, hits: seq<Hit>): Bundle {
    var p := Pooled(c, hits);
    var b := Budgeted(c, Ranked(p.eligible, c.score));
    Bundle(b.items, b.total, p.duplicates, p.below, b.dropped, p.redundant, p.semantic)
  }

  /** One pass of the filter loop on the builder's state. */
  method FilterOne(c: Config, p: Pool, hit: Hit) returns (q: Pool)
    requires Sound(c, p)
    ensures q == After(c, p, hit)
  {
    WinnerIs(c, p, hit);
    hide Near, UnitOf, Trim, Sound, FindKey, FindNear, Keeps, Composed;
    if c.minSimilarity.Some? && hit.similarity < c.minSimilarity.value {
      return p.(below := p.below + 1);
    }
    var key := c.rules.key(hit.text);
    if c.dedup {
      var winner := FindKey(p.seenRecord, key);
      if winner.Some? {
        return p.(duplicates := p.duplicates + 1,
                  eligible := p.eligible[winner.value := AddTo(p.eligible[winner.value], hit.origin)]);
      }
    }
    var content, dropped, seen := hit.text, 0, p.seenSentence;
    if c.sentenceDedup {
      content, dropped, seen := DedupSentences(c.rules, hit.text, p.seenSentence);
    }
    assert (content, dropped, seen) == Cleaned(c, p, hit.text);
    hide Cleaned;
    if c.sentenceDedup && Trim(c.rules, content) == "" {
      return p.(redundant := p.redundant + dropped, seenSentence := seen);
    }
    var unit := UnitOf(c, hit.embedding);
    if c.semanticDedup.Some? && unit.Some? {
      var winner := FindNear(c.semanticDedup.value, p.seenUnits, unit.value);
      if winner.Some? {
        return p.(semantic := p.semantic + 1, seenSentence := seen,
                  eligible := p.eligible[winner.value := AddTo(p.eligible[winner.value], hit.origin)]);
      }
    }
    var tokens, at := c.count(content), |p.eligible|;
    q := p.(seenRecord := p.seenRecord + [(key, at)], seenSentence := seen, redundant := p.redundant + dropped);
    if unit.Some? {
      q := q.(seenUnits := p.seenUnits + [(unit.value, at)]);
    }
    q := q.(eligible := p.eligible + [Item(hit.origin, hit.recordId, hit.similarity, content, tokens, key,
                                           hit.embedding, [hit.origin])]);
  }

  function AddTo(x: Item, o: HitOrigin): Item { x.(sources := AddSource(x.sources, o)) }

  method Build(c: Config, hits: seq<Hit>) returns (bundle: Bundle)
    ensures bundle == Built(c, hits)
  {
    hide Sound, After, Ranked;
    var p := EMPTY;
    for i := 0 to |hits|
      invariant p == Pooled(c, hits[..i])
    {
      PooledSound(c, hits[..i]);
      PoolNext(c, hits, i);
      p := FilterOne(c, p, hits[i]);
    }
    assert hits[..|hits|] == hits;
    var ranked := Ranked(p.eligible, c.score);
    bundle := Bundle([], 0, p.duplicates, p.below, 0, p.redundant, p.semantic);
    for i := 0 to |ranked|
      invariant Cut(bundle.items, bundle.totalTokens, bundle.overBudget) == Budgeted(c, ranked[..i])
      invariant bundle.duplicates == p.duplicates && bundle.below == p.below
      invariant bundle.redundant == p.redundant && bundle.semantic == p.semantic
    {
      BudgetedNext(c, ranked, i);
      var item := ranked[i];
      if c.tokenBudget.Some? && bundle.totalTokens + item.tokens > c.tokenBudget.value {
        bundle := bundle.(overBudget := bundle.overBudget + 1);
        continue;
      }
      if c.recordBudget.Some? && |bundle.items| >= c.recordBudget.value {
        bundle := bundle.(overBudget := bundle.overBudget + 1);
        continue;
      }
      bundle := bundle.(totalTokens := bundle.totalTokens + item.tokens, items := bundle.items + [item]);
    }
    assert ranked[..|ranked|] == ranked;
  }

  // ---- where an item ends up ----

  /** Where eligible item `w` stands in the bundle, if the budget leaves it in. */
  function PlaceOf(c: Config, items: seq<Item>, w: nat): Option<nat>
    requires w < |items|
  {
    var ranked, r := Ranked(items, c.score), Rank(items, c.score, w);
    if r < |ranked| && !Skipped(c, ranked, r) then Some(|Budgeted(c, ranked[..r]).items|) else None
  }

  lemma PlaceHolds(c: Config, items: seq<Item>, w: nat)
    requires w < |items|
    ensures var at, kept := PlaceOf(c, items, w), Budgeted(c, Ranked(items, c.score)).items;
      at.Some? ==> at.value < |kept| && kept[at.value] == items[w]
    ensures PlaceOf(c, items, w).None? ==>
      Rank(items, c.score, w) < |items| && Skipped(c, Ranked(items, c.score), Rank(items, c.score, w))
  {
    RankedPlaces(items, c.score, w);
    hide Ranked, Rank, Budgeted;
    SkippedWouldNotFit(c, Ranked(items, c.score), Rank(items, c.score, w));
  }

  /** Different items stand in different places. */
  lemma PlacesDistinct(c: Config, items: seq<Item>, w: nat, v: nat)
    requires w < |items| && v < |items| && w != v
    ensures PlaceOf(c, items, w) == PlaceOf(c, items, v) ==> PlaceOf(c, items, w) == None
  {
    var ranked := Ranked(items, c.score);
    var r, q := Rank(items, c.score, w), Rank(items, c.score, v);
    RankedPlaces(items, c.score, w);
    RankedPlaces(items, c.score, v);
    if r == q { RankInjective(items, c.score, w, v); }
    hide Ranked, Rank, Budgeted;
    if r < q {
      BudgetedNext(c, ranked, r);
      BudgetGrows(c, ranked, r + 1, q);
    } else if q < r {
      BudgetedNext(c, ranked, q);
      BudgetGrows(c, ranked, q + 1, r);
    }
  }

  lemma {:induction false} TakenAt(c: Config, ranked: seq<Item>, at: nat, end: nat) returns (r: nat)
    requires end <= |ranked| && at < |Budgeted(c, ranked[..end]).items|
    ensures r < end && !Skipped(c, ranked, r) && |Budgeted(c, ranked[..r]).items| == at
  {
    assert end > 0 by { assert ranked[..0] == []; }
    hide Budgeted;
    BudgetedNext(c, ranked, end - 1);
    if at < |Budgeted(c, ranked[..end - 1]).items| {
      r := TakenAt(c, ranked, at, end - 1);
    } else {
      r := end - 1;
    }
  }

  /** Every place of the bundle is some eligible item's. */
  lemma ItemAt(c: Config, items: seq<Item>, at: nat) returns (w: nat)
    requires at < |Budgeted(c, Ranked(items, c.score)).items|
    ensures w < |items| && PlaceOf(c, items, w) == Some(at)
  {
    var ranked := Ranked(items, c.score);
    assert ranked[..|ranked|] == ranked;
    RankedPermutes(items, c.score);
    SameLength(ranked, items);
    hide Ranked, Rank, Budgeted, Skipped;
    var r := TakenAt(c, ranked, at, |ranked|);
    w := RankOnto(items, c.score, r);
  }

  // ---- what the bundle promises ----

  lemma {:induction false} CutFrom(c: Config, ranked: seq<Item>, x: Item)
    requires x in Budgeted(c, ranked).items
    ensures x in ranked
  {
    if ranked == [] {
    } else {
      var n := |ranked| - 1;
      if x in Budgeted(c, ranked[..n]).items {
        CutFrom(c, ranked[..n], x);
      }
    }
  }

  lemma {:induction false} CutPairwise(c: Config, ranked: seq<Item>, rel: (Item, Item) -> bool)
    requires Pairwise(ranked, rel)
    ensures Pairwise(Budgeted(c, ranked).items, rel)
  {
    if ranked == [] {
    } else {
      var n := |ranked| - 1;
      CutPairwise(c, ranked[..n], rel);
      forall y | y in Budgeted(c, ranked[..n]).items ensures rel(y, ranked[n]) {
        CutFrom(c, ranked[..n], y);
      }
    }
  }

  /** Kept items stand in rank order and are pairwise distinct: with deduplication on no two
      share a key, with semantic deduplication on no two vectors are near. Their sources are
      repeat-free and start with their own origin. */
  lemma ItemsApartAndOrdered(c: Config, hits: seq<Hit>)
    ensures var items := Built(c, hits).items;
      AllApart(c, items) && AllSourced(items) && Sorted(items, c.score)
  {
    var e := Pooled(c, hits).eligible;
    PooledSound(c, hits);
    var apart: (Item, Item) -> bool := (x, y) => Apart(c, x, y);
    forall x, y ensures apart(x, y) <==> apart(y, x) { ApartSymmetric(c, x, y); }
    var ordered: (Item, Item) -> bool := (x, y) => c.score(x) >= c.score(y);
    var ranked := Ranked(e, c.score);
    RankedPairwise(e, c.score, apart);
    RankedSorted(e, c.score);
    CutPairwise(c, ranked, apart);
    CutPairwise(c, ranked, ordered);
    hide Apart, Ranked, Budgeted, Pooled, Sourced;
    var items := Built(c, hits).items;
    forall i | 0 <= i < |items| ensures Sourced(items[i]) {
      CutFrom(c, ranked, items[i]);
      var k :| 0 <= k < |ranked| && ranked[k] == items[i];
      RankedFrom(e, c.score, k);
    }
    assert forall i, j :: 0 <= i < j < |items| ==> apart(items[i], items[j]);
    assert forall i, j :: 0 <= i < j < |items| ==> ordered(items[i], items[j]);
  }

  /** If normalising gives vectors of length one, no two items of a bundle are close. */
  lemma KeptVectorsFarApart(c: Config, hits: seq<Hit>, i: nat, j: nat)
    requires Normalises(c) && i < j < |Built(c, hits).items|
    ensures var items := Built(c, hits).items; !Close(c, items[i].embedding, items[j].embedding)
  {
    ItemsApartAndOrdered(c, hits);
    var items := Built(c, hits).items;
    assert Apart(c, items[i], items[j]);
    ApartIff(c, items[i], items[j]);
    hide Built, Close, AllApart, Sorted, AllSourced;
  }

  /** Every hit is kept, counted by one of the four drop counters, or was emptied by sentence
      deduplication; without sentence deduplication the counters are complete. Each counter of
      the filter is the number of hits that met its fate. */
  lemma CountersAddUp(c: Config, hits: seq<Hit>)
    ensures var b := Built(c, hits);
      |hits| == |b.items| + b.below + b.duplicates + b.semantic + b.overBudget + Blanks(c, hits)
    ensures !c.sentenceDedup ==> Blanks(c, hits) == 0
    ensures var b := Built(c, hits);
      && b.below == |WithFate(c, hits, IsBelow)| && b.duplicates == |WithFate(c, hits, IsDuplicate)|
      && b.semantic == |WithFate(c, hits, IsSemantic)|
      && |b.items| + b.overBudget == |WithFate(c, hits, IsKept)|
  {
    HitsAccountedFor(c, hits);
    CountersAre(c, hits);
    BudgetHolds(c, Ranked(Pooled(c, hits).eligible, c.score));
    hide Ranked, Pooled, Budgeted, Blanks, WithFate;
  }
}
