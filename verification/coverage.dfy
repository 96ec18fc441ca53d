/** Sentence deduplication across a whole build (context.rs): which sentences the eligible
    items still carry. */
module Coverage {
  import opened Wrappers
  import opened Seqs
  import opened Wire
  import opened Records
  import opened FanOut
  import opened Sentences
  import opened Ranking
  import opened Context
  import opened Assembly

  /** Hit `n` was the one that put entry `k` on the list of seen sentences. */
  predicate Contributes(c: Config, hits: seq<Hit>, n: nat, k: nat)
    requires n < |hits|
  {
    |PoolAt(c, hits, n).seenSentence| <= k < |PoolAt(c, hits, n + 1).seenSentence|
  }

  /** Every seen sentence was contributed by exactly one hit. */
  lemma OneContributor(c: Config, hits: seq<Hit>, k: nat) returns (n: nat)
    requires k < |Pooled(c, hits).seenSentence|
    ensures n < |hits| && Contributes(c, hits, n, k)
    ensures forall m :: 0 <= m < |hits| && Contributes(c, hits, m, k) ==> m == n
  {
    assert hits[..|hits|] == hits;
    hide Pooled;
    n := FirstPast(c, hits, k, |hits|);
    forall m | 0 <= m < |hits| && Contributes(c, hits, m, k) ensures m == n {
      if m < n { PoolGrows(c, hits, m + 1, n); } else if n < m { PoolGrows(c, hits, n + 1, m); }
    }
  }

  lemma {:induction false} FirstPast(c: Config, hits: seq<Hit>, k: nat, end: nat) returns (n: nat)
    requires end <= |hits| && k < |PoolAt(c, hits, end).seenSentence|
    ensures n < end && Contributes(c, hits, n, k)
  {
    assert end > 0 by { assert PoolAt(c, hits, 0) == EMPTY; }
    hide PoolAt;
    if k < |PoolAt(c, hits, end - 1).seenSentence| {
      n := FirstPast(c, hits, k, end - 1);
    } else {
      n := end - 1;
    }
  }

  /** The sentences of hit `n` that were new when it was filtered. */
  function NewSentences(c: Config, hits: seq<Hit>, n: nat): seq<string>
    requires n < |hits|
  {
    DedupText(c.rules, hits[n].text, PoolAt(c, hits, n).seenSentence).kept
  }

  /** A hit reaches the sentence filter unless it is below the threshold or a byte duplicate. */
  predicate Filtered(f: Fate) { !f.BelowThreshold? && !f.Duplicate? }

  lemma SeenAfter(c: Config, hits: seq<Hit>, n: nat)
    requires n < |hits| && c.sentenceDedup
    ensures PoolAt(c, hits, n + 1).seenSentence ==
      if Filtered(Met(c, hits, n)) then DedupText(c.rules, hits[n].text, PoolAt(c, hits, n).seenSentence).seen
      else PoolAt(c, hits, n).seenSentence
  {
    PoolNext(c, hits, n);
    hide FateOf, PoolAt, UnitOf;
  }

  lemma Recorded(c: Config, hits: seq<Hit>, n: nat)
    requires n < |hits|
    ensures Distinct(PoolAt(c, hits, n).seenSentence)
  {
    PooledSound(c, hits[..n]);
  }

  lemma BlankAddsNothing(c: Config, p: Pool, h: Hit)
    requires c.sentenceDedup && Distinct(p.seenSentence) && FateOf(c, p, h).Blank?
    ensures DedupText(c.rules, h.text, p.seenSentence).kept == []
  {
    var d := DedupText(c.rules, h.text, p.seenSentence);
    DedupLosesNothing(c.rules, Pieces(h.text), p.seenSentence);
    RebuiltBlank(c.rules, d.kept);
  }

  lemma NewKeys(c: Config, text: string, seen: seq<Digest>, k: nat)
    requires Distinct(seen)
    ensures var d := DedupText(c.rules, text, seen);
      |d.seen| == |seen| + |d.kept| && (|seen| <= k < |d.seen| ==> d.seen[k] == c.rules.key(d.kept[k - |seen|]))
  {
    var d := DedupText(c.rules, text, seen);
    DedupLosesNothing(c.rules, Pieces(text), seen);
    assert |seen| <= k < |d.seen| ==> d.seen[|seen| + (k - |seen|)] == c.rules.key(d.kept[k - |seen|]);
  }

  lemma SeenPrefix(c: Config, hits: seq<Hit>, n: nat)
    requires n <= |hits|
    ensures PoolAt(c, hits, n).seenSentence <= Pooled(c, hits).seenSentence
  {
    PoolGrows(c, hits, n, |hits|);
    assert hits[..|hits|] == hits;
  }

  lemma ContributorMet(c: Config, hits: seq<Hit>, n: nat, k: nat)
    requires c.sentenceDedup && n < |hits| && Contributes(c, hits, n, k)
    ensures Met(c, hits, n).Kept? || Met(c, hits, n).SemanticDuplicate?
  {
    var p, h := PoolAt(c, hits, n), hits[n];
    Recorded(c, hits, n);
    SeenAfter(c, hits, n);
    NewKeys(c, h.text, p.seenSentence, k);
    if FateOf(c, p, h).Blank? {
      BlankAddsNothing(c, p, h);
    }
    hide PoolAt, DedupText, FateOf, Distinct;
  }

  /** What a contributor contributed: the entry is the key of one of its new sentences, and
      the contributor was kept or dropped as a semantic duplicate. */
  lemma ContributorIs(c: Config, hits: seq<Hit>, n: nat, k: nat)
    requires c.sentenceDedup && n < |hits| && Contributes(c, hits, n, k)
    ensures Met(c, hits, n).Kept? || Met(c, hits, n).SemanticDuplicate?
    ensures var at := k - |PoolAt(c, hits, n).seenSentence|;
      && 0 <= at < |NewSentences(c, hits, n)| && k < |Pooled(c, hits).seenSentence|
      && Pooled(c, hits).seenSentence[k] == c.rules.key(NewSentences(c, hits, n)[at])
  {
    hide Pooled, PoolAt, DedupText, Met, Distinct;
    ContributorMet(c, hits, n, k);
    SeenPrefix(c, hits, n + 1);
    Recorded(c, hits, n);
    SeenAfter(c, hits, n);
    NewKeys(c, hits[n].text, PoolAt(c, hits, n).seenSentence, k);
    assert Pooled(c, hits).seenSentence[k] == PoolAt(c, hits, n + 1).seenSentence[k];
  }

  /** Every non-blank sentence of every hit that reaches the filter is on the seen list. */
  lemma EverySentenceSeen(c: Config, hits: seq<Hit>, n: nat, s: string)
    requires c.sentenceDedup && n < |hits| && Filtered(Met(c, hits, n))
    requires s in Pieces(hits[n].text) && !AllSpace(c.rules, s)
    ensures c.rules.key(Trim(c.rules, s)) in Pooled(c, hits).seenSentence
  {
    Recorded(c, hits, n);
    SeenAfter(c, hits, n);
    DedupLosesNothing(c.rules, Pieces(hits[n].text), PoolAt(c, hits, n).seenSentence);
    SeenPrefix(c, hits, n + 1);
    hide Pooled, Pieces, DedupPieces, Trim, AllSpace, Met;
    PrefixHas(PoolAt(c, hits, n + 1).seenSentence, Pooled(c, hits).seenSentence, c.rules.key(Trim(c.rules, s)));
  }

  lemma NewComposed(c: Config, hits: seq<Hit>, n: nat) returns (at: seq<nat>)
    requires n < |hits|
    ensures Composed(Rebuilt(NewSentences(c, hits, n)), NewSentences(c, hits, n), at)
  {
    var pieces, seen := Pieces(hits[n].text), PoolAt(c, hits, n).seenSentence;
    var kept := NewSentences(c, hits, n);
    hide PoolAt, Pieces, DedupPieces, Keeps, Composed, Rebuilt;
    var from := KeptAre(c.rules, pieces, seen);
    KeptNonEmpty(c.rules, pieces, seen, kept, from);
    at := RebuiltComposed(kept);
  }

  lemma KeptIsNew(c: Config, p: Pool, h: Hit)
    requires FateOf(c, p, h).Kept?
    ensures After(c, p, h).eligible == p.eligible + [NewItem(c, h, Cleaned(c, p, h.text).0)]
  {
    hide FateOf, Cleaned, NewItem;
  }

  /** The item a kept hit became: its content is its new sentences joined up, and nothing else. */
  lemma KeptContent(c: Config, hits: seq<Hit>, n: nat)
    requires c.sentenceDedup && n < |hits| && Met(c, hits, n).Kept?
    ensures var w := |PoolAt(c, hits, n).eligible|;
      && w < |Pooled(c, hits).eligible| && Pooled(c, hits).eligible[w].content == Rebuilt(NewSentences(c, hits, n))
      && Pooled(c, hits).eligible[w].origin == hits[n].origin
      && exists at :: Composed(Pooled(c, hits).eligible[w].content, NewSentences(c, hits, n), at)
  {
    var at := NewComposed(c, hits, n);
    hide Composed;
    var p := PoolAt(c, hits, n);
    PoolNext(c, hits, n);
    PoolGrows(c, hits, n + 1, |hits|);
    assert hits[..|hits|] == hits;
    KeptIsNew(c, p, hits[n]);
    hide Pooled, UnitOf, Rebuilt, DedupText, FateOf, After;
    var q, e, w := After(c, p, hits[n]).eligible, Pooled(c, hits).eligible, |p.eligible|;
    assert e[w].(sources := q[w].sources) == q[w];
  }

  /** Where the item that the kept hit `n` became stands in the bundle, if it is in it. */
  function PlaceOfHit(c: Config, hits: seq<Hit>, n: nat): Option<nat>
    requires n < |hits|
  {
    var items, w := Pooled(c, hits).eligible, |PoolAt(c, hits, n).eligible|;
    if Met(c, hits, n).Kept? && w < |items| then PlaceOf(c, items, w) else None
  }

  /** An item of the bundle carries the sentence behind seen entry `k`. */
  ghost predicate Carried(c: Config, hits: seq<Hit>, k: nat) {
    exists n :: 0 <= n < |hits| && Contributes(c, hits, n, k) && PlaceOfHit(c, hits, n).Some?
  }

  lemma PlaceOfHitHolds(c: Config, hits: seq<Hit>, n: nat)
    requires c.sentenceDedup && n < |hits| && PlaceOfHit(c, hits, n).Some?
    ensures var at, items := PlaceOfHit(c, hits, n).value, Built(c, hits).items;
      at < |items| && items[at].content == Rebuilt(NewSentences(c, hits, n)) && items[at].origin == hits[n].origin
  {
    KeptContent(c, hits, n);
    hide Pooled, Met, NewSentences, PoolAt, PlaceOf, Rebuilt, Budgeted, Ranked;
    PlaceHolds(c, Pooled(c, hits).eligible, |PoolAt(c, hits, n).eligible|);
  }

  /** Every item of the bundle is what one hit became. */
  lemma ItemFrom(c: Config, hits: seq<Hit>, at: nat) returns (n: nat)
    requires at < |Built(c, hits).items|
    ensures n < |hits| && PlaceOfHit(c, hits, n) == Some(at)
    ensures forall m :: 0 <= m < |hits| && PlaceOfHit(c, hits, m) == Some(at) ==> m == n
  {
    var items := Pooled(c, hits).eligible;
    hide Pooled, Budgeted, Ranked, Rank, Met, PoolAt, PlaceOf;
    var w := ItemAt(c, items, at);
    n := EligibleFrom(c, hits, w);
    forall m | 0 <= m < |hits| && PlaceOfHit(c, hits, m) == Some(at) ensures m == n {
      var v := |PoolAt(c, hits, m).eligible|;
      if v != w { PlacesDistinct(c, items, v, w); }
      if m != n { KeptApart(c, hits, m, n); }
    }
  }

  /** Two kept hits became two items. */
  lemma KeptApart(c: Config, hits: seq<Hit>, m: nat, n: nat)
    requires m < |hits| && n < |hits| && m != n && Met(c, hits, m).Kept? && Met(c, hits, n).Kept?
    ensures |PoolAt(c, hits, m).eligible| != |PoolAt(c, hits, n).eligible|
  {
    var i, j := if m < n then m else n, if m < n then n else m;
    KeptGrows(c, hits, i);
    PoolGrows(c, hits, i + 1, j);
    hide PoolAt, Met;
  }

  lemma KeptGrows(c: Config, hits: seq<Hit>, n: nat)
    requires n < |hits| && Met(c, hits, n).Kept?
    ensures |PoolAt(c, hits, n + 1).eligible| == |PoolAt(c, hits, n).eligible| + 1
  {
    PoolNext(c, hits, n);
    hide Pooled, UnitOf, FateOf, Cleaned;
  }

  /** Item `at` of the bundle was rebuilt from a sentence with this key. */
  ghost predicate HasSentence(c: Config, hits: seq<Hit>, at: nat, key: Digest) {
    exists n, s :: 0 <= n < |hits| && PlaceOfHit(c, hits, n) == Some(at)
                   && s in NewSentences(c, hits, n) && c.rules.key(s) == key
  }

  lemma SameEntry(seen: seq<Digest>, i: nat, j: nat)
    requires Distinct(seen) && i < |seen| && j < |seen| && seen[i] == seen[j]
    ensures i == j
  {
  }

  /** A new sentence of a hit is behind the entry with its key, and behind no other. */
  lemma KeyIsEntry(c: Config, hits: seq<Hit>, n: nat, s: string, k: nat)
    requires c.sentenceDedup && n < |hits| && Filtered(Met(c, hits, n)) && s in NewSentences(c, hits, n)
    requires k < |Pooled(c, hits).seenSentence| && Pooled(c, hits).seenSentence[k] == c.rules.key(s)
    ensures Contributes(c, hits, n, k)
  {
    Recorded(c, hits, n);
    SeenAfter(c, hits, n);
    SeenPrefix(c, hits, n + 1);
    PooledSound(c, hits);
    var t :| 0 <= t < |NewSentences(c, hits, n)| && NewSentences(c, hits, n)[t] == s;
    hide Pooled, PoolAt, DedupText, Met, Distinct, Filtered;
    EntryAt(c, hits, n, t, k);
  }

  lemma EntryAt(c: Config, hits: seq<Hit>, n: nat, t: nat, k: nat)
    requires n < |hits| && t < |NewSentences(c, hits, n)| && k < |Pooled(c, hits).seenSentence|
    requires Distinct(PoolAt(c, hits, n).seenSentence) && Distinct(Pooled(c, hits).seenSentence)
    requires PoolAt(c, hits, n + 1).seenSentence
          == DedupText(c.rules, hits[n].text, PoolAt(c, hits, n).seenSentence).seen
    requires PoolAt(c, hits, n + 1).seenSentence <= Pooled(c, hits).seenSentence
    requires Pooled(c, hits).seenSentence[k] == c.rules.key(NewSentences(c, hits, n)[t])
    ensures Contributes(c, hits, n, k)
  {
    hide Pooled, PoolAt, DedupText, Distinct;
    var before, after := PoolAt(c, hits, n).seenSentence, PoolAt(c, hits, n + 1).seenSentence;
    var seen := Pooled(c, hits).seenSentence;
    NewKeys(c, hits[n].text, before, |before| + t);
    assert seen[|before| + t] == after[|before| + t];
    SameEntry(seen, |before| + t, k);
  }

  lemma PlacedIsKept(c: Config, hits: seq<Hit>, n: nat)
    requires n < |hits| && PlaceOfHit(c, hits, n).Some?
    ensures Filtered(Met(c, hits, n))
  {
  }

  lemma OnlyThere(c: Config, hits: seq<Hit>, k: nat, n: nat)
    requires c.sentenceDedup && k < |Pooled(c, hits).seenSentence|
    requires n < |hits| && Contributes(c, hits, n, k) && PlaceOfHit(c, hits, n).Some?
    ensures forall i: nat ::
      HasSentence(c, hits, i, Pooled(c, hits).seenSentence[k]) <==> i == PlaceOfHit(c, hits, n).value
  {
    hide Pooled, NewSentences, Contributes, PlaceOfHit, Met;
    var at, key := PlaceOfHit(c, hits, n).value, Pooled(c, hits).seenSentence[k];
    var o := OneContributor(c, hits, k);
    ContributorIs(c, hits, n, k);
    assert HasSentence(c, hits, at, key) by {
      var s := NewSentences(c, hits, n)[k - |PoolAt(c, hits, n).seenSentence|];
      assert s in NewSentences(c, hits, n);
    }
    forall i: nat | HasSentence(c, hits, i, key) ensures i == at {
      var m: nat, s: string :| m < |hits| && PlaceOfHit(c, hits, m) == Some(i)
                               && s in NewSentences(c, hits, m) && c.rules.key(s) == key;
      PlacedIsKept(c, hits, m);
      KeyIsEntry(c, hits, m, s, k);
    }
  }

  /** What it means to be carried: one item of the bundle and no other, with the origin of the
      first hit that had the sentence, has a content rebuilt from sentences of which this is
      one. */
  lemma CarriedMeans(c: Config, hits: seq<Hit>, k: nat) returns (n: nat, at: nat, s: string)
    requires c.sentenceDedup && k < |Pooled(c, hits).seenSentence| && Carried(c, hits, k)
    ensures n < |hits| && Contributes(c, hits, n, k)
    ensures s in NewSentences(c, hits, n) && c.rules.key(s) == Pooled(c, hits).seenSentence[k]
    ensures at < |Built(c, hits).items| && Built(c, hits).items[at].origin == hits[n].origin
    ensures Built(c, hits).items[at].content == Rebuilt(NewSentences(c, hits, n))
    ensures PlaceOfHit(c, hits, n) == Some(at)
    ensures Contains(Built(c, hits).items[at].content, s)
    ensures forall m :: 0 <= m < |hits| && Contributes(c, hits, m, k) ==> m == n
    ensures forall i: nat :: HasSentence(c, hits, i, Pooled(c, hits).seenSentence[k]) <==> i == at
  {
    hide Pooled, Built, NewSentences, Contributes, PlaceOfHit, Rebuilt;
    n := OneContributor(c, hits, k);
    ContributorIs(c, hits, n, k);
    s := NewSentences(c, hits, n)[k - |PoolAt(c, hits, n).seenSentence|];
    PlaceOfHitHolds(c, hits, n);
    at := PlaceOfHit(c, hits, n).value;
    OnlyThere(c, hits, k, n);
    hide Composed, Contains;
    var places := NewComposed(c, hits, n);
    ComposedContains(Built(c, hits).items[at].content, NewSentences(c, hits, n), places, s);
  }

  /** Every eligible item is what some kept hit became. */
  lemma {:induction false} EligibleFrom(c: Config, hits: seq<Hit>, w: nat) returns (n: nat)
    requires w < |Pooled(c, hits).eligible|
    ensures n < |hits| && Met(c, hits, n).Kept? && |PoolAt(c, hits, n).eligible| == w
  {
    assert hits != [] by { assert |Pooled(c, []).eligible| == 0; }
    var m := |hits| - 1;
    var p := Pooled(c, hits[..m]);
    assert PoolAt(c, hits, m) == p && Pooled(c, hits) == After(c, p, hits[m]);
    if w < |p.eligible| {
      n := EligibleFrom(c, hits[..m], w);
      PrefixOfPrefix(hits, n, m);
    } else {
      n := m;
      hide FateOf, Cleaned, UnitOf;
    }
  }

  /** A kept hit brings at least one new sentence, and is the one to contribute it. */
  lemma KeptContributes(c: Config, hits: seq<Hit>, n: nat) returns (k: nat)
    requires c.sentenceDedup && n < |hits| && NewSentences(c, hits, n) != [] && Filtered(Met(c, hits, n))
    ensures k < |Pooled(c, hits).seenSentence| && Contributes(c, hits, n, k)
  {
    k := |PoolAt(c, hits, n).seenSentence|;
    Recorded(c, hits, n);
    SeenAfter(c, hits, n);
    NewKeys(c, hits[n].text, PoolAt(c, hits, n).seenSentence, k);
    SeenPrefix(c, hits, n + 1);
    hide Pooled, PoolAt, DedupText, Met;
  }

  lemma KeptHasNew(c: Config, hits: seq<Hit>, n: nat)
    requires c.sentenceDedup && n < |hits| && Met(c, hits, n).Kept?
    ensures NewSentences(c, hits, n) != []
  {
    hide PoolAt, UnitOf, FindKey, FindNear;
    Recorded(c, hits, n);
    EmptiedIff(c.rules, hits[n].text, PoolAt(c, hits, n).seenSentence);
    RebuiltBlank(c.rules, []);
    hide Trim, DedupText, AllSeen, Rebuilt;
  }

  /** Hit `n` was dropped as a semantic duplicate together with sentences nobody else has. */
  predicate LosesSentences(c: Config, hits: seq<Hit>, n: nat)
    requires n < |hits|
  {
    Met(c, hits, n).SemanticDuplicate? && NewSentences(c, hits, n) != []
  }

  /** The sentence of an entry is missing if its contributor is not in the bundle. */
  lemma NotCarried(c: Config, hits: seq<Hit>, n: nat) returns (k: nat)
    requires c.sentenceDedup && n < |hits| && NewSentences(c, hits, n) != [] && Filtered(Met(c, hits, n))
    requires PlaceOfHit(c, hits, n).None?
    ensures k < |Pooled(c, hits).seenSentence| && !Carried(c, hits, k)
  {
    hide Pooled, Contributes, NewSentences, PlaceOfHit, Met;
    k := KeptContributes(c, hits, n);
    var m := OneContributor(c, hits, k);
  }

  /** A hit whose item the budget cut. */
  lemma CutHit(c: Config, hits: seq<Hit>) returns (n: nat)
    requires c.sentenceDedup && !FitsBudget(c, Pooled(c, hits).eligible)
    ensures n < |hits| && Met(c, hits, n).Kept? && PlaceOfHit(c, hits, n).None?
  {
    var items := Pooled(c, hits).eligible;
    hide Pooled, FitsBudget, Ranked, Rank, Skipped, Met, PoolAt;
    NothingCutIff(c, items);
    var ranked := Ranked(items, c.score);
    var r: nat :| r < |ranked| && Skipped(c, ranked, r);
    var w := RankOnto(items, c.score, r);
    n := EligibleFrom(c, hits, w);
  }

  lemma KeptIsPlaced(c: Config, hits: seq<Hit>, n: nat)
    requires c.sentenceDedup && FitsBudget(c, Pooled(c, hits).eligible) && n < |hits| && Met(c, hits, n).Kept?
    ensures PlaceOfHit(c, hits, n).Some?
  {
    var items, w := Pooled(c, hits).eligible, |PoolAt(c, hits, n).eligible|;
    KeptContent(c, hits, n);
    hide Pooled, FitsBudget, Met, PoolAt, Rebuilt, NewSentences;
    NothingCutIff(c, items);
    PlaceHolds(c, items, w);
    hide Ranked, Rank, Skipped, PlaceOf;
    var ranked, r := Ranked(items, c.score), Rank(items, c.score, w);
    assert r < |ranked| ==> !Skipped(c, ranked, r);
  }

  /** Sentence deduplication is lossless exactly when no semantic duplicate brought a new
      sentence with it and all eligible items together fit the budgets. Otherwise a sentence
      counts as seen that no item of the bundle carries. */
  lemma LosslessIff(c: Config, hits: seq<Hit>)
    requires c.sentenceDedup
    ensures (forall k :: 0 <= k < |Pooled(c, hits).seenSentence| ==> Carried(c, hits, k))
       <==> (forall n :: 0 <= n < |hits| ==> !LosesSentences(c, hits, n)) && FitsBudget(c, Pooled(c, hits).eligible)
  {
    hide Pooled, NewSentences, Contributes, PlaceOfHit, FitsBudget, Carried, Met;
    forall n | 0 <= n < |hits| && LosesSentences(c, hits, n)
      ensures exists k :: 0 <= k < |Pooled(c, hits).seenSentence| && !Carried(c, hits, k)
    {
      SemanticIsUnplaced(c, hits, n);
      var k := NotCarried(c, hits, n);
    }
    if !FitsBudget(c, Pooled(c, hits).eligible) {
      var n := CutHit(c, hits);
      KeptHasNew(c, hits, n);
      var k := NotCarried(c, hits, n);
    } else if forall n :: 0 <= n < |hits| ==> !LosesSentences(c, hits, n) {
      forall k: nat | k < |Pooled(c, hits).seenSentence| ensures Carried(c, hits, k) {
        var n := OneContributor(c, hits, k);
        ContributorIs(c, hits, n, k);
        assert !LosesSentences(c, hits, n);
        KeptIsPlaced(c, hits, n);
        assert Carried(c, hits, k) by { PlacedCarries(c, hits, n, k); }
      }
    }
  }

  lemma SemanticIsUnplaced(c: Config, hits: seq<Hit>, n: nat)
    requires n < |hits| && Met(c, hits, n).SemanticDuplicate?
    ensures PlaceOfHit(c, hits, n).None? && Filtered(Met(c, hits, n))
  {
  }

  lemma PlacedCarries(c: Config, hits: seq<Hit>, n: nat, k: nat)
    requires n < |hits| && Contributes(c, hits, n, k) && PlaceOfHit(c, hits, n).Some?
    ensures Carried(c, hits, k)
  {
  }

  /** Without semantic deduplication and with room for everything no sentence is lost: each
      non-blank sentence of each hit that reaches the filter is carried by the bundle. */
  lemma NothingLost(c: Config, hits: seq<Hit>, n: nat, s: string)
    requires c.sentenceDedup && c.semanticDedup == None && FitsBudget(c, Pooled(c, hits).eligible)
    requires n < |hits| && Filtered(Met(c, hits, n)) && s in Pieces(hits[n].text) && !AllSpace(c.rules, s)
    ensures var seen := Pooled(c, hits).seenSentence;
      exists k :: 0 <= k < |seen| && Carried(c, hits, k) && seen[k] == c.rules.key(Trim(c.rules, s))
    ensures exists at: nat, s' ::
      at < |Built(c, hits).items| && Contains(Built(c, hits).items[at].content, s')
      && c.rules.key(s') == c.rules.key(Trim(c.rules, s))
  {
    EverySentenceSeen(c, hits, n, s);
    LosslessIff(c, hits);
    forall m | 0 <= m < |hits| ensures !LosesSentences(c, hits, m) { NoSemanticDuplicate(c, hits, m); }
    hide Pooled, Trim, NewSentences, Contributes, FitsBudget, Carried, LosesSentences, Met, Built, Contains;
    var k: nat :| k < |Pooled(c, hits).seenSentence|
                  && Pooled(c, hits).seenSentence[k] == c.rules.key(Trim(c.rules, s));
    var m, at, s' := CarriedMeans(c, hits, k);
  }

  lemma NoSemanticDuplicate(c: Config, hits: seq<Hit>, n: nat)
    requires c.semanticDedup == None && n < |hits|
    ensures !Met(c, hits, n).SemanticDuplicate?
  {
  }

  /** The non-blank sentences of all hits that reach the filter. */
  function Offered(c: Config, hits: seq<Hit>): nat {
    if hits == [] then 0 else
      var p, h := Pooled(c, hits[..|hits| - 1]), hits[|hits| - 1];
      Offered(c, hits[..|hits| - 1]) + if Filtered(FateOf(c, p, h)) then NonBlank(c.rules, Pieces(h.text)) else 0
  }

  /** The repeated sentences of semantic duplicates, which no counter counts. */
  function Uncounted(c: Config, hits: seq<Hit>): nat {
    if hits == [] then 0 else
      var p, h := Pooled(c, hits[..|hits| - 1]), hits[|hits| - 1];
      Uncounted(c, hits[..|hits| - 1])
      + if FateOf(c, p, h).SemanticDuplicate? then DedupText(c.rules, h.text, p.seenSentence).dropped else 0
  }

  lemma SentenceStep(c: Config, p: Pool, h: Hit)
    requires c.sentenceDedup && Distinct(p.seenSentence)
    ensures var f, q := FateOf(c, p, h), After(c, p, h);
      var d := DedupText(c.rules, h.text, p.seenSentence);
      if !Filtered(f) then |q.seenSentence| == |p.seenSentence| && q.redundant == p.redundant
      else
        && |q.seenSentence| + d.dropped == |p.seenSentence| + NonBlank(c.rules, Pieces(h.text))
        && q.redundant == p.redundant + (if f.SemanticDuplicate? then 0 else d.dropped)
  {
    DedupLosesNothing(c.rules, Pieces(h.text), p.seenSentence);
    hide FateOf, Pieces, NonBlank, UnitOf, DedupPieces;
  }

  /** Over a whole build every non-blank sentence that reaches the filter is new, or counted
      as redundant, or a repeat inside a semantic duplicate; without semantic deduplication
      new and counted ones are all there are. */
  lemma {:induction false} SentencesAddUp(c: Config, hits: seq<Hit>)
    requires c.sentenceDedup
    ensures var p := Pooled(c, hits);
      Offered(c, hits) == |p.seenSentence| + p.redundant + Uncounted(c, hits)
    ensures c.semanticDedup == None ==> Uncounted(c, hits) == 0
  {
    if hits == [] {
    } else {
      var init, h := hits[..|hits| - 1], hits[|hits| - 1];
      var p := Pooled(c, init);
      SentencesAddUp(c, init);
      PooledSound(c, init);
      SentenceStep(c, p, h);
      hide After, NonBlank, Pieces, DedupText, Sound, Cleaned;
      assert c.semanticDedup == None ==> !FateOf(c, p, h).SemanticDuplicate?;
    }
  }

  // ---- a sentence that is lost ----

  function Toy(): Config {
    Config(None, None, None, true, true, Some(0.5), TextRules(ch => ch == ' ', s => Le(32, |s|)),
           s => |s|, (x: Item) => x.similarity, v => Some(v))
  }

  lemma {:induction false} OnePiece(s: string)
    requires s != "" && forall i :: 0 <= i < |s| ==> !Ends(s[i])
    ensures Pieces(s) == [s]
  {
    hide Pieces, Concat;
    ConcatOne(s);
    assert IsSplit(s, [s]);
    PiecesSplit(s);
    hide IsSplit;
    SplitUnique(s, [s], Pieces(s));
  }

  lemma Untrimmed(t: TextRules, s: string)
    requires s != "" && !t.isSpace(s[0]) && !t.isSpace(s[|s| - 1])
    ensures Trim(t, s) == s
  {
  }

  lemma OneSentence(t: TextRules, s: string, seen: seq<Digest>)
    requires s != "" && forall i :: 0 <= i < |s| ==> !Ends(s[i]) && !t.isSpace(s[i])
    requires t.key(s) !in seen
    ensures DedupText(t, s, seen) == Deduped([s], 0, seen + [t.key(s)])
  {
    OnePiece(s);
    Untrimmed(t, s);
    hide Pieces, Trim;
    assert [s][..0] == [];
    assert DedupPieces(t, [], seen) == Deduped([], 0, seen);
    assert [] + [s] == [s];
  }

  lemma ToyNear()
    ensures Near(0.5, [1.0], [1.0])
  {
    assert PartialDot([1.0], [1.0], 1) == PartialDot([1.0], [1.0], 0) + 1.0 * 1.0;
  }

  /** A one-sentence hit with a new sentence and key and a vector. */
  predicate Fresh(c: Config, p: Pool, h: Hit, unit: seq<real>) {
    && c.sentenceDedup && c.semanticDedup.Some? && c.minSimilarity == None && UnitOf(c, h.embedding) == Some(unit)
    && FindKey(p.seenRecord, c.rules.key(h.text)) == None
    && h.text != "" && (forall i :: 0 <= i < |h.text| ==> !Ends(h.text[i]) && !c.rules.isSpace(h.text[i]))
    && c.rules.key(h.text) !in p.seenSentence
  }

  lemma FreshFate(c: Config, p: Pool, h: Hit, unit: seq<real>)
    requires Fresh(c, p, h, unit) && !c.rules.isSpace('.')
    ensures DedupText(c.rules, h.text, p.seenSentence) == Deduped([h.text], 0, p.seenSentence + [c.rules.key(h.text)])
    ensures FateOf(c, p, h) == match FindNear(c.semanticDedup.value, p.seenUnits, unit)
                               case None => Kept
                               case Some(w) => SemanticDuplicate(w)
  {
    OneSentence(c.rules, h.text, p.seenSentence);
    hide DedupText, UnitOf, FindNear, FindKey;
    assert Rebuilt([h.text]) == h.text + ".";
    Untrimmed(c.rules, h.text + ".");
    hide Trim, Rebuilt;
  }

  lemma FirstToyHit(a: Hit)
    requires a == Hit(0, 0.9, Local, "a", Some([1.0]))
    ensures var p := After(Toy(), EMPTY, a);
      p.seenUnits == [([1.0], 0)] && p.seenRecord == [(Toy().rules.key("a"), 0)]
      && p.seenSentence == [Toy().rules.key("a")]
  {
    var c := Toy();
    assert Fresh(c, EMPTY, a, [1.0]);
    FreshFate(c, EMPTY, a, [1.0]);
    assert FindNear(0.5, [], [1.0]) == None;
    hide DedupText, FateOf, FindNear, Rebuilt, Le;
  }

  /** Two hits with the same vector: the second one's only sentence appears nowhere, yet
      counts as seen. */
  lemma SentenceLost()
    ensures var hits := [Hit(0, 0.9, Local, "a", Some([1.0])), Hit(1, 0.8, Local, "bb", Some([1.0]))];
      && LosesSentences(Toy(), hits, 1)
      && exists k :: 0 <= k < |Pooled(Toy(), hits).seenSentence| && !Carried(Toy(), hits, k)
  {
    var c := Toy();
    var a, b := Hit(0, 0.9, Local, "a", Some([1.0])), Hit(1, 0.8, Local, "bb", Some([1.0]));
    var hits := [a, b];
    assert c.sentenceDedup;
    hide *;
    FirstPool(c, hits);
    FirstToyHit(a);
    var p := After(c, EMPTY, a);
    SecondToyHit(p, b);
    SentenceLostAt(c, hits, p);
  }

  lemma FirstPool(c: Config, hits: seq<Hit>)
    requires hits != []
    ensures PoolAt(c, hits, 1) == After(c, EMPTY, hits[0])
  {
    hide After;
    PoolNext(c, hits, 0);
  }

  lemma SentenceLostAt(c: Config, hits: seq<Hit>, p: Pool)
    requires c.sentenceDedup && |hits| == 2 && p == PoolAt(c, hits, 1)
    requires FateOf(c, p, hits[1]).SemanticDuplicate? && DedupText(c.rules, hits[1].text, p.seenSentence).kept != []
    ensures LosesSentences(c, hits, 1) && exists k :: 0 <= k < |Pooled(c, hits).seenSentence| && !Carried(c, hits, k)
  {
    SemanticIsUnplaced(c, hits, 1);
    hide PoolAt, Pooled, FateOf, DedupText, PlaceOfHit;
    var k := NotCarried(c, hits, 1);
  }

  lemma ToyKeys()
    ensures Toy().rules.key("a") != Toy().rules.key("bb")
  {
    assert Le(32, 1)[0] == 1 && Le(32, 2)[0] == 2;
  }

  lemma OneKey(k: Digest, key: Digest)
    requires k != key
    ensures FindKey([(k, 0)], key) == None
  {
    assert [(k, 0)][1..] == [];
  }

  lemma SecondToyHit(p: Pool, b: Hit)
    requires b == Hit(1, 0.8, Local, "bb", Some([1.0]))
    requires p.seenUnits == [([1.0], 0)] && p.seenRecord == [(Toy().rules.key("a"), 0)]
    requires p.seenSentence == [Toy().rules.key("a")]
    ensures FateOf(Toy(), p, b).SemanticDuplicate? && DedupText(Toy().rules, "bb", p.seenSentence).kept != []
  {
    var c := Toy();
    ToyKeys();
    OneKey(c.rules.key("a"), c.rules.key("bb"));
    hide FindKey, Le;
    assert Fresh(c, p, b, [1.0]);
    FreshFate(c, p, b, [1.0]);
    ToyNear();
    hide DedupText, FateOf, Near;
    assert FindNear(0.5, p.seenUnits, [1.0]) == Some(0);
  }

  // ---- a sentence that the budget cut takes with it ----

  /** Token budget 6, one token a character, no semantic deduplication. */
  function Tight(sentenceDedup: bool): Config {
    Config(None, Some(6), None, true, sentenceDedup, None, TextRules(ch => ch == ' ', s => Le(32, |s|)),
           s => |s|, (x: Item) => x.similarity, v => None)
  }

  lemma LeStart(k: nat, n: nat)
    requires n < 256
    ensures Le(k + 1, n)[0] == n as Byte
  {
    var tail := Le(k, n / 256);
    hide Le;
    assert Le(k + 1, n) == [(n % 256) as Byte] + tail by { LeStep(k, n); }
  }

  lemma LeStep(k: nat, n: nat)
    ensures Le(k + 1, n) == [(n % 256) as Byte] + Le(k, n / 256)
  {
  }

  lemma KeysDiffer(m: nat, n: nat)
    requires m < 256 && n < 256 && m != n
    ensures Le(32, m) != Le(32, n)
  {
    LeStart(31, m);
    LeStart(31, n);
    hide Le;
  }

  lemma {:induction false} TwoPieces(p: string, q: string)
    requires Uncut(p) && Uncut(q) && Meets(p, q)
    ensures Pieces(p + q) == [p, q]
  {
    hide Pieces, Concat, Uncut, Meets;
    ConcatTwo(p, q);
    assert IsSplit(p + q, [p, q]);
    PiecesSplit(p + q);
    hide IsSplit;
    SplitUnique(p + q, [p, q], Pieces(p + q));
  }

  function DedupStep(t: TextRules, d: Deduped, piece: string): Deduped {
    var s := Trim(t, piece);
    if s == "" then d
    else if t.key(s) in d.seen then d.(dropped := d.dropped + 1)
    else Deduped(d.kept + [s], d.dropped, d.seen + [t.key(s)])
  }

  lemma DedupTwo(t: TextRules, p: string, q: string, seen: seq<Digest>)
    ensures DedupPieces(t, [p, q], seen) == DedupStep(t, DedupStep(t, Deduped([], 0, seen), p), q)
  {
    assert [p, q][..1] == [p] && [p][..0] == [];
    hide Trim;
    assert DedupPieces(t, [], seen) == Deduped([], 0, seen);
    assert DedupPieces(t, [p], seen) == DedupStep(t, Deduped([], 0, seen), p);
  }

  lemma TrimAfterSpace(t: TextRules, q: string)
    requires q != "" && t.isSpace(' ') && !t.isSpace(q[0]) && !t.isSpace(q[|q| - 1])
    ensures Trim(t, " " + q) == q
  {
    assert (" " + q)[1..] == q;
    Untrimmed(t, q);
  }

  /** A text of two sentences `p` and ` q`. */
  lemma DedupPair(t: TextRules, p: string, q: string, seen: seq<Digest>)
    requires Uncut(p) && Uncut(" " + q) && Ends(p[|p| - 1]) && q != ""
    requires !t.isSpace(p[0]) && !t.isSpace(p[|p| - 1]) && !t.isSpace(q[0]) && !t.isSpace(q[|q| - 1]) && t.isSpace(' ')
    requires t.key(q) !in seen && t.key(q) != t.key(p)
    ensures DedupText(t, p + " " + q, seen) ==
      if t.key(p) in seen then Deduped([q], 1, seen + [t.key(q)])
      else Deduped([p, q], 0, seen + [t.key(p), t.key(q)])
  {
    assert p + " " + q == p + (" " + q);
    assert [] + [p] == [p] && [p] + [q] == [p, q] && [] + [q] == [q];
    assert (seen + [t.key(p)]) + [t.key(q)] == seen + [t.key(p), t.key(q)];
    TrimAfterSpace(t, q);
    Untrimmed(t, p);
    hide Pieces, Trim, Uncut, DedupPieces;
    TwoPieces(p, " " + q) by { assert (" " + q)[0] == ' '; }
    DedupTwo(t, p, " " + q, seen);
  }

  /** The step of a hit that is kept, without semantic deduplication. */
  lemma KeptStep(c: Config, p: Pool, h: Hit, content: string)
    requires c.minSimilarity == None && c.semanticDedup == None && FindKey(p.seenRecord, c.rules.key(h.text)) == None
    requires content == Cleaned(c, p, h.text).0 && Trim(c.rules, content) != ""
    ensures var q := After(c, p, h);
      && q.eligible == p.eligible + [NewItem(c, h, content)]
      && q.seenRecord == p.seenRecord + [(c.rules.key(h.text), |p.eligible|)]
      && q.seenSentence == Cleaned(c, p, h.text).2
  {
    hide Cleaned, Trim, FindKey;
  }

  lemma RankedPair(c: Config, x: Item, y: Item)
    requires c.score(x) >= c.score(y)
    ensures Ranked([x, y], c.score) == [x, y]
  {
    InsertAfter(c, x, y);
    hide Insert, Ranked;
    RankedStep([x], c.score);
    RankedStep([x, y], c.score);
    assert [x, y][..1] == [x] && [x][..0] == [];
    assert Ranked([], c.score) == [] && Insert([], c.score, x) == [x];
  }

  lemma BudgetedPair(c: Config, x: Item, y: Item)
    requires c.tokenBudget.Some? && c.recordBudget == None && y.tokens <= c.tokenBudget.value < x.tokens
    ensures Budgeted(c, [x, y]).items == [y]
  {
    var s := [x, y];
    BudgetedNext(c, s, 0);
    BudgetedNext(c, s, 1);
    assert s[..0] == [] && s[..2] == s && [] + [y] == [y];
    assert Budgeted(c, []) == Cut([], 0, 0);
    hide Budgeted;
  }

  /** Two eligible items, the better of which does not fit. */
  lemma SecondFits(c: Config, hits: seq<Hit>, x: Item, y: Item)
    requires Pooled(c, hits).eligible == [x, y] && c.score(x) >= c.score(y)
    requires c.tokenBudget.Some? && c.recordBudget == None && y.tokens <= c.tokenBudget.value < x.tokens
    ensures Built(c, hits).items == [y]
  {
    hide Pooled;
    RankedPair(c, x, y);
    hide Ranked;
    BudgetedPair(c, x, y);
    hide Budgeted;
  }

  lemma InsertAfter(c: Config, x: Item, y: Item)
    requires c.score(x) >= c.score(y)
    ensures Insert([x], c.score, y) == [x, y]
  {
    assert CountAtLeast([x], c.score, c.score(y), 1) == CountAtLeast([x], c.score, c.score(y), 0) + 1;
  }

  lemma TwoHits(c: Config, a: Hit, b: Hit)
    ensures Pooled(c, [a, b]) == After(c, After(c, EMPTY, a), b)
  {
    hide After;
    assert [a, b][..1] == [a] && [a][..0] == [];
    assert Pooled(c, []) == EMPTY;
    assert Pooled(c, [a]) == After(c, EMPTY, a);
  }

  lemma UncutPlain(p: string)
    requires p != "" && forall i :: 0 <= i < |p| - 1 ==> !Ends(p[i])
    ensures Uncut(p)
  {
  }

  /** Two texts that share the sentence `p` and then go on with `y` and with `z`. */
  predicate Sharing(t: TextRules, p: string, y: string, z: string) {
    && Uncut(p) && Uncut(" " + y) && Uncut(" " + z) && Ends(p[|p| - 1]) && y != "" && z != "" && t.isSpace(' ')
    && !t.isSpace(p[0]) && !t.isSpace(p[|p| - 1])
    && !t.isSpace(y[0]) && !t.isSpace(y[|y| - 1]) && !t.isSpace(z[0]) && !t.isSpace(z[|z| - 1])
    && t.key(p) != t.key(y) && t.key(p) != t.key(z) && t.key(y) != t.key(z)
    && t.key(p + " " + y) != t.key(p + " " + z)
  }

  lemma SharingDedup(t: TextRules, p: string, y: string, z: string)
    requires Sharing(t, p, y, z)
    ensures DedupText(t, p + " " + y, []) == Deduped([p, y], 0, [t.key(p), t.key(y)])
    ensures DedupText(t, p + " " + z, [t.key(p), t.key(y)]) == Deduped([z], 1, [t.key(p), t.key(y)] + [t.key(z)])
  {
    hide Uncut, DedupText;
    DedupPair(t, p, y, []);
    DedupPair(t, p, z, [t.key(p), t.key(y)]);
    assert [] + [t.key(p), t.key(y)] == [t.key(p), t.key(y)];
  }

  lemma SharingSteps(c: Config, a: Hit, b: Hit, p: string, y: string, z: string)
    requires c.sentenceDedup && c.minSimilarity == None && c.semanticDedup == None && Sharing(c.rules, p, y, z)
    requires a.text == p + " " + y && b.text == p + " " + z
    requires Trim(c.rules, Rebuilt([p, y])) != "" && Trim(c.rules, Rebuilt([z])) != ""
    ensures Pooled(c, [a, b]).eligible == [NewItem(c, a, Rebuilt([p, y])), NewItem(c, b, Rebuilt([z]))]
  {
    SharingDedup(c.rules, p, y, z);
    OneKey(c.rules.key(a.text), c.rules.key(b.text));
    assert FindKey([], c.rules.key(a.text)) == None;
    hide DedupText, Rebuilt, Trim, Sharing, FindKey;
    KeptStep(c, EMPTY, a, Rebuilt([p, y]));
    var q := After(c, EMPTY, a);
    assert q.seenRecord == [(c.rules.key(a.text), 0)];
    KeptStep(c, q, b, Rebuilt([z]));
    TwoHits(c, a, b);
    hide After, Cleaned;
    assert [] + [NewItem(c, a, Rebuilt([p, y]))] == [NewItem(c, a, Rebuilt([p, y]))];
  }

  lemma TightKeys(c: Config, s: string, t: string)
    requires c == Tight(true) && |s| < 256 && |t| < 256 && |s| != |t|
    ensures c.rules.key(s) != c.rules.key(t)
  {
    KeysDiffer(|s|, |t|);
    hide Le;
  }

  lemma TightSpace(c: Config, ch: char)
    requires c == Tight(true)
    ensures c.rules.isSpace(ch) <==> ch == ' '
  {
  }

  lemma TightSharing(c: Config, p: string, y: string, z: string)
    requires c == Tight(true) && p == "x." && z == "z" && |y| == 10 && forall i :: 0 <= i < |y| ==> y[i] == 'y'
    ensures Sharing(c.rules, p, y, z)
  {
    hide Tight, Uncut;
    UncutPlain(p);
    UncutPlain(" " + y);
    UncutPlain(" " + z);
    TightKeys(c, p, y);
    TightKeys(c, p, z);
    TightKeys(c, y, z);
    TightKeys(c, p + " " + y, p + " " + z);
    TightSpace(c, ' ');
    TightSpace(c, p[0]);
    TightSpace(c, p[1]);
    TightSpace(c, y[0]);
    TightSpace(c, y[9]);
    TightSpace(c, z[0]);
  }

  lemma TightContents(c: Config, y: string)
    requires c == Tight(true) && |y| == 10 && forall i :: 0 <= i < |y| ==> y[i] == 'y'
    ensures |Rebuilt(["x.", y])| == 15 && Trim(c.rules, Rebuilt(["x.", y])) != ""
    ensures Rebuilt(["z"]) == "z." && Trim(c.rules, "z.") != ""
  {
    assert ["x.", y][..1] == ["x."];
    assert Join(["x.", y]) == "x." + ". " + y;
    assert Rebuilt(["x.", y]) == "x." + ". " + y + ".";
    hide Join, Rebuilt, Trim;
    Untrimmed(c.rules, "x." + ". " + y + ".");
    assert Rebuilt(["z"]) == "z." by { LoneSentence(); }
    Untrimmed(c.rules, "z.");
  }

  lemma LoneSentence()
    ensures Rebuilt(["z"]) == "z."
  {
  }

  lemma TightCut(a: Hit, b: Hit)
    requires a == Hit(0, 0.9, Local, "x. yyyyyyyyyy", None) && b == Hit(1, 0.8, Local, "x. z", None)
    ensures |Built(Tight(true), [a, b]).items| == 1 && Built(Tight(true), [a, b]).items[0].content == "z."
  {
    var c, y := Tight(true), "yyyyyyyyyy";
    assert a.text == "x." + " " + y && b.text == "x." + " " + "z";
    hide Pooled, Rebuilt, Trim, Built, Sharing;
    TightContents(c, y);
    TightSharing(c, "x.", y, "z");
    SharingSteps(c, a, b, "x.", y, "z");
    SecondFits(c, [a, b], NewItem(c, a, Rebuilt(["x.", y])), NewItem(c, b, "z."));
  }

  lemma TightWhole(a: Hit, b: Hit)
    requires a == Hit(0, 0.9, Local, "x. yyyyyyyyyy", None) && b == Hit(1, 0.8, Local, "x. z", None)
    ensures |Built(Tight(false), [a, b]).items| == 1 && Built(Tight(false), [a, b]).items[0].content == "x. z"
  {
    var c := Tight(false);
    KeysDiffer(13, 4);
    hide Le;
    Untrimmed(c.rules, a.text);
    Untrimmed(c.rules, b.text);
    hide Trim;
    KeptStep(c, EMPTY, a, a.text);
    var p := After(c, EMPTY, a);
    OneKey(c.rules.key(a.text), c.rules.key(b.text));
    assert [] + [(c.rules.key(a.text), 0)] == [(c.rules.key(a.text), 0)];
    hide FindKey;
    KeptStep(c, p, b, b.text);
    TwoHits(c, a, b);
    hide After, Cleaned;
    var x, y := NewItem(c, a, a.text), NewItem(c, b, b.text);
    assert [] + [x] == [x] && [x] + [y] == [x, y];
    SecondFits(c, [a, b], x, y);
  }

  /** What the first hit brought is lost if its item is not in the bundle. */
  lemma FirstLost(c: Config, hits: seq<Hit>, seen: seq<Digest>)
    requires c.sentenceDedup && hits != [] && Filtered(Met(c, hits, 0)) && PlaceOfHit(c, hits, 0).None?
    requires DedupText(c.rules, hits[0].text, []).seen == seen != []
    ensures 0 < |Pooled(c, hits).seenSentence| && Pooled(c, hits).seenSentence[0] == seen[0] && !Carried(c, hits, 0)
  {
    assert PoolAt(c, hits, 0) == EMPTY by { assert hits[..0] == []; }
    hide Pooled, PoolAt, Met, DedupText, PlaceOfHit;
    SeenAfter(c, hits, 0);
    SeenPrefix(c, hits, 1);
    var n := OneContributor(c, hits, 0);
    assert Contributes(c, hits, 0, 0);
  }

  lemma FirstFiltered(c: Config, hits: seq<Hit>)
    requires hits != [] && c.minSimilarity == None
    ensures Filtered(Met(c, hits, 0))
  {
    assert PoolAt(c, hits, 0) == EMPTY by { assert hits[..0] == []; }
    hide Trim, UnitOf, FindNear, Cleaned;
  }

  /** The first hit's item is not in the bundle, so the sentence it shares is lost. */
  lemma SharedLost(c: Config, hits: seq<Hit>, p: string, y: string, z: string)
    requires c.sentenceDedup && c.minSimilarity == None && hits != [] && Sharing(c.rules, p, y, z)
    requires hits[0].text == p + " " + y
    requires forall i :: 0 <= i < |Built(c, hits).items| ==> Built(c, hits).items[i].content != Rebuilt([p, y])
    ensures 0 < |Pooled(c, hits).seenSentence| && Pooled(c, hits).seenSentence[0] == c.rules.key(p)
    ensures !Carried(c, hits, 0)
  {
    SharingDedup(c.rules, p, y, z);
    assert PoolAt(c, hits, 0) == EMPTY by { assert hits[..0] == []; }
    assert NewSentences(c, hits, 0) == [p, y];
    hide Pooled, PoolAt, Rebuilt, Built, Sharing, DedupText, PlaceOfHit, Met, Filtered, NewSentences, Carried;
    FirstFiltered(c, hits);
    if PlaceOfHit(c, hits, 0).Some? { PlaceOfHitHolds(c, hits, 0); }
    FirstLost(c, hits, [c.rules.key(p), c.rules.key(y)]);
  }

  lemma TightIs(c: Config)
    requires c == Tight(true)
    ensures c.minSimilarity == None && c.sentenceDedup
  {
  }

  lemma TightText(text: string)
    requires text == "x. yyyyyyyyyy"
    ensures text == "x." + " " + "yyyyyyyyyy"
  {
  }

  /** The hit that brought "x." is cut, and nobody else brought it. */
  lemma TightLost(a: Hit, b: Hit)
    requires a == Hit(0, 0.9, Local, "x. yyyyyyyyyy", None) && b == Hit(1, 0.8, Local, "x. z", None)
    ensures var seen := Pooled(Tight(true), [a, b]).seenSentence;
      0 < |seen| && seen[0] == Tight(true).rules.key("x.") && !Carried(Tight(true), [a, b], 0)
  {
    hide *;
    var c, y := Tight(true), "yyyyyyyyyy";
    TightIs(c);
    TightText(a.text);
    TightCut(a, b);
    TightContents(c, y);
    TightSharing(c, "x.", y, "z");
    SharedLost(c, [a, b], "x.", y, "z");
  }

  /** Sentence deduplication can lose a sentence to the budget. Both hits say "x."; the first
      does not fit, and the second has had the sentence taken out, so it is nowhere. Without
      sentence deduplication the second would have been kept whole. */
  lemma BudgetLosesSentence(a: Hit, b: Hit)
    requires a == Hit(0, 0.9, Local, "x. yyyyyyyyyy", None) && b == Hit(1, 0.8, Local, "x. z", None)
    ensures var with, without := Built(Tight(true), [a, b]).items, Built(Tight(false), [a, b]).items;
      && |with| == 1 && with[0].content == "z."
      && |without| == 1 && without[0].content == "x. z"
    ensures var seen := Pooled(Tight(true), [a, b]).seenSentence;
      exists k :: 0 <= k < |seen| && seen[k] == Tight(true).rules.key("x.") && !Carried(Tight(true), [a, b], k)
  {
    TightCut(a, b);
    TightWhole(a, b);
    TightLost(a, b);
  }
}
