/** Context assembly (context.rs): filter and deduplicate the hits, rank what is left, cut it
    to the budget. */
module Context {
  import opened Wrappers
  import opened Seqs
  import opened Records
  import opened FanOut
  import opened Sentences

  import KMeans

  datatype Item = Item(origin: HitOrigin, recordId: nat, similarity: real, content: string, tokens: nat,
                       key: Digest, embedding: Option<seq<real>>, sources: seq<HitOrigin>)

  /** The builder. `None` as a threshold is the default that lets every hit pass. */
  datatype Config = Config(minSimilarity: Option<real>, tokenBudget: Option<nat>, recordBudget: Option<nat>,
                           dedup: bool, sentenceDedup: bool, semanticDedup: Option<real>, rules: TextRules,
                           count: string -> nat, score: Item -> real, unit: seq<real> -> Option<seq<real>>)

  // ---- vectors ----

  function PartialDot(a: seq<real>, b: seq<real>, n: nat): real
    requires n <= |a| && n <= |b|
  {
    if n == 0 then 0.0 else PartialDot(a, b, n - 1) + a[n - 1] * b[n - 1]
  }

  /** Vectors of different lengths are never near each other. */
  predicate Near(threshold: real, a: seq<real>, b: seq<real>) {
    |a| == |b| && PartialDot(a, b, |a|) >= threshold
  }

  lemma {:induction false} DotCommutes(a: seq<real>, b: seq<real>, n: nat)
    requires n <= |a| && n <= |b|
    ensures PartialDot(a, b, n) == PartialDot(b, a, n)
  {
    if n == 0 {
    } else {
      DotCommutes(a, b, n - 1);
    }
  }

  function SquareLength(a: seq<real>, n: nat): real
    requires n <= |a|
  {
    if n == 0 then 0.0 else SquareLength(a, n - 1) + a[n - 1] * a[n - 1]
  }

  lemma BinomialStep(x: real, y: real)
    ensures 2.0 * (x * y) == x * x + y * y - KMeans.Sq(x - y)
  {
  }

  lemma {:induction false} DotAndDist(a: seq<real>, b: seq<real>, n: nat)
    requires n <= |a| && n <= |b|
    ensures 2.0 * PartialDot(a, b, n) == SquareLength(a, n) + SquareLength(b, n) - KMeans.PartialDist(a, b, n)
  {
    if n == 0 {
    } else {
      DotAndDist(a, b, n - 1);
      BinomialStep(a[n - 1], b[n - 1]);
    }
  }

  /** Vectors of length one are near exactly when their squared distance is small. */
  lemma NearIff(threshold: real, a: seq<real>, b: seq<real>)
    requires SquareLength(a, |a|) == 1.0 && SquareLength(b, |b|) == 1.0
    ensures Near(threshold, a, b) <==> |a| == |b| && KMeans.Dist(a, b) <= 2.0 - 2.0 * threshold
  {
    if |a| == |b| { DotAndDist(a, b, |a|); }
  }

  /** Normalisation gives vectors of length one. */
  ghost predicate Normalises(c: Config) {
    forall v :: c.unit(v).Some? ==> SquareLength(c.unit(v).value, |c.unit(v).value|) == 1.0
  }

  function UnitOf(c: Config, embedding: Option<seq<real>>): Option<seq<real>> {
    if c.semanticDedup.None? || embedding.None? then None else c.unit(embedding.value)
  }

  // ---- phase 1: filter ----

  /** Everything phase 1 keeps track of. */
  datatype Pool = Pool(eligible: seq<Item>, seenRecord: seq<(Digest, nat)>, seenSentence: seq<Digest>,
                       seenUnits: seq<(seq<real>, nat)>, below: nat, duplicates: nat, redundant: nat, semantic: nat)

  const EMPTY: Pool := Pool([], [], [], [], 0, 0, 0, 0)

  /** The first recorded winner with this key. */
  function FindKey(seen: seq<(Digest, nat)>, key: Digest): Option<nat> {
    if seen == [] then None
    else if seen[0].0 == key then Some(seen[0].1) else FindKey(seen[1..], key)
  }

  /** The first recorded winner whose vector is near. */
  function FindNear(threshold: real, seen: seq<(seq<real>, nat)>, unit: seq<real>): Option<nat> {
    if seen == [] then None
    else if Near(threshold, unit, seen[0].0) then Some(seen[0].1) else FindNear(threshold, seen[1..], unit)
  }

  /** The text of the hit left after sentence deduplication, and what that drops and sees. */
  function Cleaned(c: Config, p: Pool, text: string): (string, nat, seq<Digest>) {
    if c.sentenceDedup then
      var d := DedupText(c.rules, text, p.seenSentence);
      (Rebuilt(d.kept), d.dropped, d.seen)
    else (text, 0, p.seenSentence)
  }

  datatype Fate = BelowThreshold | Duplicate(winner: nat) | Blank | SemanticDuplicate(winner: nat) | Kept

  /** What becomes of a hit that meets the pool `p`. */
  function FateOf(c: Config, p: Pool, h: Hit): Fate {
    if c.minSimilarity.Some? && h.similarity < c.minSimilarity.value then BelowThreshold
    else
      var byKey := FindKey(p.seenRecord, c.rules.key(h.text));
      if c.dedup && byKey.Some? then Duplicate(byKey.value)
      else if c.sentenceDedup && Trim(c.rules, Cleaned(c, p, h.text).0) == "" then Blank
      else
        var unit := UnitOf(c, h.embedding);
        if c.semanticDedup.Some? && unit.Some? && FindNear(c.semanticDedup.value, p.seenUnits, unit.value).Some?
        then SemanticDuplicate(FindNear(c.semanticDedup.value, p.seenUnits, unit.value).value)
        else Kept
  }

  function AddSource(sources: seq<HitOrigin>, o: HitOrigin): seq<HitOrigin> {
    if o in sources then sources else sources + [o]
  }

  function Attributed(items: seq<Item>, winner: nat, o: HitOrigin): (r: seq<Item>)
    ensures |r| == |items|
  {
    if winner < |items| then items[winner := items[winner].(sources := AddSource(items[winner].sources, o))] else items
  }

  function NewItem(c: Config, h: Hit, content: string): Item {
    Item(h.origin, h.recordId, h.similarity, content, c.count(content), c.rules.key(h.text), h.embedding, [h.origin])
  }

  /** The pool after the hit. */
  function After(c: Config, p: Pool, h: Hit): Pool {
    var (content, dropped, seen) := Cleaned(c, p, h.text);
    match FateOf(c, p, h)
    case BelowThreshold => p.(below := p.below + 1)
    case Duplicate(w) => p.(duplicates := p.duplicates + 1, eligible := Attributed(p.eligible, w, h.origin))
    case Blank => p.(redundant := p.redundant + dropped, seenSentence := seen)
    case SemanticDuplicate(w) =>
      p.(semantic := p.semantic + 1, eligible := Attributed(p.eligible, w, h.origin), seenSentence := seen)
    case Kept =>
      var unit := UnitOf(c, h.embedding);
      p.(eligible := p.eligible + [NewItem(c, h, content)],
         seenRecord := p.seenRecord + [(c.rules.key(h.text), |p.eligible|)],
         seenSentence := seen,
         seenUnits := if unit.Some? then p.seenUnits + [(unit.value, |p.eligible|)] else p.seenUnits,
         redundant := p.redundant + dropped)
  }

  function Pooled(c: Config, hits: seq<Hit>): Pool {
    if hits == [] then EMPTY else After(c, Pooled(c, hits[..|hits| - 1]), hits[|hits| - 1])
  }

  // ---- what phase 1 keeps true ----

  lemma {:induction false} FindKeyIs(seen: seq<(Digest, nat)>, key: Digest)
    ensures FindKey(seen, key).None? <==> forall i :: 0 <= i < |seen| ==> seen[i].0 != key
    ensures FindKey(seen, key).Some? ==>
      exists i :: 0 <= i < |seen| && seen[i] == (key, FindKey(seen, key).value) && forall j :: 0 <= j < i ==>
        seen[j].0 != key
  {
    if seen != [] && seen[0].0 != key {
      var rest := seen[1..];
      FindKeyIs(rest, key);
      assert forall i :: 0 < i < |seen| ==> seen[i] == rest[i - 1];
      if FindKey(seen, key).Some? {
        var i :| 0 <= i < |rest| && rest[i] == (key, FindKey(seen, key).value) && forall j :: 0 <= j < i ==>
          rest[j].0 != key;
        assert seen[i + 1] == rest[i];
      }
    }
  }

  predicate FirstNear(threshold: real, seen: seq<(seq<real>, nat)>, unit: seq<real>, i: int) {
    0 <= i < |seen| && Near(threshold, unit, seen[i].0) && forall j :: 0 <= j < i ==> !Near(threshold, unit, seen[j].0)
  }

  lemma {:induction false} FindNearIs(threshold: real, seen: seq<(seq<real>, nat)>, unit: seq<real>)
    ensures FindNear(threshold, seen, unit).None? <==> forall i :: 0 <= i < |seen| ==> !Near(threshold, unit, seen[i].0)
    ensures var r := FindNear(threshold, seen, unit);
      r.Some? ==> exists i :: FirstNear(threshold, seen, unit, i) && seen[i].1 == r.value
  {
    hide Near;
    if seen != [] {
      if Near(threshold, unit, seen[0].0) {
        assert FirstNear(threshold, seen, unit, 0);
      } else {
        var rest := seen[1..];
        FindNearIs(threshold, rest, unit);
        assert forall i :: 0 < i < |seen| ==> seen[i] == rest[i - 1];
        if FindNear(threshold, seen, unit).Some? {
          var i :| FirstNear(threshold, rest, unit, i) && rest[i].1 == FindNear(threshold, seen, unit).value;
          assert FirstNear(threshold, seen, unit, i + 1);
        }
      }
    }
  }

  /** Two items that deduplication lets stand side by side. */
  predicate Apart(c: Config, x: Item, y: Item) {
    && (c.dedup ==> x.key != y.key)
    && var ux, uy := UnitOf(c, x.embedding), UnitOf(c, y.embedding);
       (ux.Some? && uy.Some? ==> !Near(c.semanticDedup.value, ux.value, uy.value))
  }

  lemma ApartSymmetric(c: Config, x: Item, y: Item)
    ensures Apart(c, x, y) <==> Apart(c, y, x)
  {
    var ux, uy := UnitOf(c, x.embedding), UnitOf(c, y.embedding);
    if ux.Some? && uy.Some? && |ux.value| == |uy.value| {
      DotCommutes(ux.value, uy.value, |ux.value|);
    }
  }

  predicate Indexed(p: Pool) {
    |p.seenRecord| == |p.eligible| && forall i :: 0 <= i < |p.eligible| ==> p.seenRecord[i] == (p.eligible[i].key, i)
  }

  /** The recorded vectors are those of the eligible items that have one. */
  predicate Vectored(c: Config, p: Pool) {
    && (forall e :: 0 <= e < |p.seenUnits| ==>
          p.seenUnits[e].1 < |p.eligible|
          && UnitOf(c, p.eligible[p.seenUnits[e].1].embedding) == Some(p.seenUnits[e].0))
    && (forall i :: 0 <= i < |p.eligible| ==>
          var u := UnitOf(c, p.eligible[i].embedding); u.Some? ==> (u.value, i) in p.seenUnits)
  }

  predicate Sourced(x: Item) { x.sources != [] && x.sources[0] == x.origin && Distinct(x.sources) }

  predicate AllSourced(items: seq<Item>) { forall i :: 0 <= i < |items| ==> Sourced(items[i]) }

  predicate AllApart(c: Config, items: seq<Item>) {
    forall i, j :: 0 <= i < j < |items| ==> Apart(c, items[i], items[j])
  }

  predicate Sound(c: Config, p: Pool) {
    && Indexed(p) && Vectored(c, p) && AllApart(c, p.eligible) && AllSourced(p.eligible)
    && Distinct(p.seenSentence)
  }

  /** Items change only by gaining sources. */
  predicate Extends(a: seq<Item>, b: seq<Item>) {
    |a| <= |b| && forall i :: 0 <= i < |a| ==> b[i].(sources := a[i].sources) == a[i] && a[i].sources <= b[i].sources
  }

  lemma AttributedKeeps(c: Config, p: Pool, w: nat, o: HitOrigin)
    requires Sound(c, p) && w < |p.eligible|
    ensures var r := Attributed(p.eligible, w, o);
      && Extends(p.eligible, r) && o in r[w].sources
      && Sound(c, p.(eligible := r))
  {
    var x := p.eligible[w];
    var s := AddSource(x.sources, o);
    assert o in s by { if o !in x.sources { assert s[|x.sources|] == o; } }
    hide Near, UnitOf;
  }

  /** The hit's vector is near the item's. */
  predicate Resembles(c: Config, h: Hit, x: Item) {
    var u, v := UnitOf(c, h.embedding), UnitOf(c, x.embedding);
    c.semanticDedup.Some? && u.Some? && v.Some? && Near(c.semanticDedup.value, u.value, v.value)
  }

  /** Two embeddings can be compared and are close: both normalise, in the same space, to vectors
      whose squared distance is at most 2 - 2 * threshold. */
  predicate Close(c: Config, a: Option<seq<real>>, b: Option<seq<real>>) {
    && c.semanticDedup.Some? && a.Some? && b.Some?
    && var u, v := c.unit(a.value), c.unit(b.value);
       && u.Some? && v.Some? && |u.value| == |v.value|
       && KMeans.Dist(u.value, v.value) <= 2.0 - 2.0 * c.semanticDedup.value
  }

  lemma ResemblesIff(c: Config, h: Hit, x: Item)
    requires Normalises(c)
    ensures Resembles(c, h, x) <==> Close(c, h.embedding, x.embedding)
  {
    var u, v := UnitOf(c, h.embedding), UnitOf(c, x.embedding);
    if c.semanticDedup.Some? && u.Some? && v.Some? { NearIff(c.semanticDedup.value, u.value, v.value); }
    hide Near, KMeans.Dist;
  }

  /** Kept items are told apart by their vectors exactly if those are not close. */
  lemma ApartIff(c: Config, x: Item, y: Item)
    requires Normalises(c)
    ensures Apart(c, x, y) <==> (c.dedup ==> x.key != y.key) && !Close(c, x.embedding, y.embedding)
  {
    var u, v := UnitOf(c, x.embedding), UnitOf(c, y.embedding);
    if c.semanticDedup.Some? && u.Some? && v.Some? { NearIff(c.semanticDedup.value, u.value, v.value); }
    hide Near, KMeans.Dist;
  }

  /** Where a duplicate's winner stands. */
  lemma WinnerIs(c: Config, p: Pool, h: Hit)
    requires Sound(c, p)
    ensures var f := FateOf(c, p, h);
      && (f.Duplicate? ==> f.winner < |p.eligible| && p.eligible[f.winner].key == c.rules.key(h.text))
      && (f.SemanticDuplicate? ==> f.winner < |p.eligible| && Resembles(c, h, p.eligible[f.winner]))
  {
    FindKeyIs(p.seenRecord, c.rules.key(h.text));
    var u := UnitOf(c, h.embedding);
    if c.semanticDedup.Some? && u.Some? {
      FindNearIs(c.semanticDedup.value, p.seenUnits, u.value);
    }
    hide Near, UnitOf, Trim, Cleaned, FindKey, FindNear;
  }

  /** Every non-blank sentence of the text has been seen. */
  ghost predicate AllSeen(t: TextRules, text: string, seen: seq<Digest>) {
    forall s :: s in Pieces(text) && !AllSpace(t, s) ==> t.key(Trim(t, s)) in seen
  }

  lemma EmptiedIff(t: TextRules, text: string, seen: seq<Digest>)
    requires Distinct(seen)
    ensures Trim(t, Rebuilt(DedupText(t, text, seen).kept)) == "" <==> AllSeen(t, text, seen)
  {
    var d := DedupText(t, text, seen);
    DedupLosesNothing(t, Pieces(text), seen);
    RebuiltBlank(t, d.kept);
    hide Trim, AllSpace, Pieces, Rebuilt, DedupText;
    if d.kept == [] {
      assert d.seen == seen;
    } else {
      assert d.kept[0] in d.kept;
      assert d.seen[|seen| + 0] == t.key(d.kept[0]);
      assert t.key(d.kept[0]) !in seen;
    }
  }

  ghost predicate HasKey(p: Pool, key: Digest) { exists i :: 0 <= i < |p.eligible| && p.eligible[i].key == key }

  ghost predicate HasNear(c: Config, p: Pool, h: Hit) {
    exists i :: 0 <= i < |p.eligible| && Resembles(c, h, p.eligible[i])
  }

  lemma KeyFound(p: Pool, key: Digest)
    requires Indexed(p)
    ensures FindKey(p.seenRecord, key).Some? <==> HasKey(p, key)
  {
    FindKeyIs(p.seenRecord, key);
    if HasKey(p, key) {
      var i :| 0 <= i < |p.eligible| && p.eligible[i].key == key;
      assert p.seenRecord[i].0 == key;
    }
  }

  lemma NearFound(c: Config, p: Pool, h: Hit, unit: seq<real>)
    requires Vectored(c, p) && c.semanticDedup.Some? && UnitOf(c, h.embedding) == Some(unit)
    ensures FindNear(c.semanticDedup.value, p.seenUnits, unit).Some? <==> HasNear(c, p, h)
  {
    var t := c.semanticDedup.value;
    FindNearIs(t, p.seenUnits, unit);
    hide Near, UnitOf, FindNear;
    if FindNear(t, p.seenUnits, unit).Some? {
      var e :| FirstNear(t, p.seenUnits, unit, e);
      assert Resembles(c, h, p.eligible[p.seenUnits[e].1]);
    }
    if HasNear(c, p, h) {
      var i :| 0 <= i < |p.eligible| && Resembles(c, h, p.eligible[i]);
      var u := UnitOf(c, p.eligible[i].embedding);
      assert (u.value, i) in p.seenUnits;
    }
  }

  /** What decides a hit's fate, in this order: its similarity; an eligible item with its key;
      whether all its sentences have been seen; an eligible item with a near vector. */
  lemma FateMeans(c: Config, p: Pool, h: Hit)
    requires Sound(c, p)
    ensures var f := FateOf(c, p, h);
      if c.minSimilarity.Some? && h.similarity < c.minSimilarity.value then f.BelowThreshold?
      else if c.dedup && HasKey(p, c.rules.key(h.text)) then f.Duplicate?
      else if c.sentenceDedup && AllSeen(c.rules, h.text, p.seenSentence) then f.Blank?
      else if c.semanticDedup.Some? && HasNear(c, p, h) then f.SemanticDuplicate?
      else f.Kept?
  {
    KeyFound(p, c.rules.key(h.text));
    EmptiedIff(c.rules, h.text, p.seenSentence);
    var u := UnitOf(c, h.embedding);
    if c.semanticDedup.Some? && u.Some? {
      NearFound(c, p, h, u.value);
    }
    hide Near, Trim, FindKey, FindNear, AllSeen, HasKey, UnitOf, DedupText;
  }

  /** A kept hit is apart from every item before it. */
  lemma KeptIsApart(c: Config, p: Pool, h: Hit, content: string, i: nat)
    requires Sound(c, p) && FateOf(c, p, h) == Kept && i < |p.eligible|
    ensures Apart(c, p.eligible[i], NewItem(c, h, content))
  {
    FindKeyIs(p.seenRecord, c.rules.key(h.text));
    assert c.dedup ==> p.seenRecord[i].0 != c.rules.key(h.text);
    var u, v := UnitOf(c, h.embedding), UnitOf(c, p.eligible[i].embedding);
    if u.Some? && v.Some? {
      FindNearIs(c.semanticDedup.value, p.seenUnits, u.value);
      assert (v.value, i) in p.seenUnits;
      hide Near;
      assert !Near(c.semanticDedup.value, u.value, v.value);
    }
    ApartSymmetric(c, p.eligible[i], NewItem(c, h, content));
  }

  lemma CleanedDistinct(c: Config, p: Pool, text: string)
    requires Distinct(p.seenSentence)
    ensures Distinct(Cleaned(c, p, text).2) && p.seenSentence <= Cleaned(c, p, text).2
  {
    if c.sentenceDedup {
      DedupLosesNothing(c.rules, Pieces(text), p.seenSentence);
    }
  }

  lemma KeptKeeps(c: Config, p: Pool, h: Hit)
    requires Sound(c, p) && FateOf(c, p, h) == Kept
    ensures Sound(c, After(c, p, h)) && Extends(p.eligible, After(c, p, h).eligible)
  {
    var (content, dropped, seen) := Cleaned(c, p, h.text);
    var x := NewItem(c, h, content);
    CleanedDistinct(c, p, h.text);
    forall i | 0 <= i < |p.eligible| ensures Apart(c, p.eligible[i], x) { KeptIsApart(c, p, h, content, i); }
    hide Near, UnitOf, Trim, Cleaned, FindKey, FindNear, FateOf, Apart;
    var p' := After(c, p, h);
    assert p'.eligible == p.eligible + [x];
    assert Sourced(x);
    var u := UnitOf(c, h.embedding);
    if u.Some? {
      assert p'.seenUnits[|p.seenUnits|] == (u.value, |p.eligible|);
    }
    assert Vectored(c, p') by { VectoredGrows(c, p, x, u); }
  }

  lemma VectoredGrows(c: Config, p: Pool, x: Item, u: Option<seq<real>>)
    requires Vectored(c, p) && u == UnitOf(c, x.embedding)
    ensures Vectored(c, p.(eligible := p.eligible + [x],
                           seenUnits := if u.Some? then p.seenUnits + [(u.value, |p.eligible|)] else p.seenUnits))
  {
    hide UnitOf;
    var items, seen := p.eligible + [x], p.seenUnits;
    var units := if u.Some? then seen + [(u.value, |p.eligible|)] else seen;
    forall e | 0 <= e < |units|
      ensures units[e].1 < |items| && UnitOf(c, items[units[e].1].embedding) == Some(units[e].0)
    {
      if e < |seen| { assert units[e] == seen[e]; }
    }
    forall i | 0 <= i < |items| && UnitOf(c, items[i].embedding).Some?
      ensures (UnitOf(c, items[i].embedding).value, i) in units
    {
      if i < |p.eligible| {
        assert items[i] == p.eligible[i];
      } else {
        assert units[|seen|] == (u.value, i);
      }
    }
  }

  /** Every hit leaves the pool sound. */
  lemma AfterKeeps(c: Config, p: Pool, h: Hit)
    requires Sound(c, p)
    ensures Sound(c, After(c, p, h)) && Extends(p.eligible, After(c, p, h).eligible)
    ensures p.seenSentence <= After(c, p, h).seenSentence
  {
    WinnerIs(c, p, h);
    CleanedDistinct(c, p, h.text);
    var f := FateOf(c, p, h);
    if f == Kept {
      KeptKeeps(c, p, h);
    } else if f.Duplicate? || f.SemanticDuplicate? {
      AttributedKeeps(c, p, f.winner, h.origin);
    }
    hide Near, UnitOf, Trim, Cleaned, FateOf, Apart, Sourced;
  }

  lemma {:induction false} PooledSound(c: Config, hits: seq<Hit>)
    ensures Sound(c, Pooled(c, hits))
  {
    if hits == [] {
    } else {
      PooledSound(c, hits[..|hits| - 1]);
      AfterKeeps(c, Pooled(c, hits[..|hits| - 1]), hits[|hits| - 1]);
    }
  }

  // ---- the fate of every hit ----

  function PoolAt(c: Config, hits: seq<Hit>, n: nat): Pool
    requires n <= |hits|
  {
    Pooled(c, hits[..n])
  }

  function Met(c: Config, hits: seq<Hit>, n: nat): Fate
    requires n < |hits|
  {
    FateOf(c, PoolAt(c, hits, n), hits[n])
  }

  lemma PoolNext(c: Config, hits: seq<Hit>, n: nat)
    requires n < |hits|
    ensures PoolAt(c, hits, n + 1) == After(c, PoolAt(c, hits, n), hits[n])
  {
    PrefixOfPrefix(hits, n, n + 1);
  }

  lemma ExtendsTransitive(a: seq<Item>, b: seq<Item>, c: seq<Item>)
    requires Extends(a, b) && Extends(b, c)
    ensures Extends(a, c)
  {
    forall i | 0 <= i < |a| ensures c[i].(sources := a[i].sources) == a[i] && a[i].sources <= c[i].sources {
      assert b[i].(sources := a[i].sources) == a[i];
    }
  }

  lemma {:induction false} PoolGrows(c: Config, hits: seq<Hit>, m: nat, n: nat)
    requires m <= n <= |hits|
    ensures Extends(PoolAt(c, hits, m).eligible, PoolAt(c, hits, n).eligible)
    ensures PoolAt(c, hits, m).seenSentence <= PoolAt(c, hits, n).seenSentence
  {
    hide After, Extends, Sound;
    if m == n {
      assert Extends(PoolAt(c, hits, m).eligible, PoolAt(c, hits, m).eligible) by {
        ExtendsSelf(PoolAt(c, hits, m).eligible);
      }
    } else {
      PoolGrows(c, hits, m, n - 1);
      PoolNext(c, hits, n - 1);
      PooledSound(c, hits[..n - 1]);
      AfterKeeps(c, PoolAt(c, hits, n - 1), hits[n - 1]);
      ExtendsTransitive(PoolAt(c, hits, m).eligible, PoolAt(c, hits, n - 1).eligible, PoolAt(c, hits, n).eligible);
    }
  }

  lemma ExtendsSelf(a: seq<Item>)
    ensures Extends(a, a)
  {
  }

  /** The eligible item that hit `n` became or was merged into. */
  function Lands(c: Config, hits: seq<Hit>, n: nat): Option<nat>
    requires n < |hits|
  {
    LandsIn(c, PoolAt(c, hits, n), hits[n])
  }

  /** Every hit that is not below the threshold and not blank lands in an eligible item, for
      the reason its fate gives, and its origin is among that item's sources at the end. */
  lemma {:induction false} EveryOriginAttributed(c: Config, hits: seq<Hit>, n: nat)
    requires n < |hits|
    ensures Lands(c, hits, n).None? <==> Met(c, hits, n).BelowThreshold? || Met(c, hits, n).Blank?
    ensures var w, items := Lands(c, hits, n), Pooled(c, hits).eligible;
      w.Some? ==>
        && w.value < |items|
        && hits[n].origin in items[w.value].sources
        && MergedFor(c, Met(c, hits, n), hits[n], items[w.value])
  {
    var p, h, f := PoolAt(c, hits, n), hits[n], Met(c, hits, n);
    PooledSound(c, hits[..n]);
    PoolNext(c, hits, n);
    PoolGrows(c, hits, n + 1, |hits|);
    assert hits[..|hits|] == hits;
    var q, e := After(c, p, h), Pooled(c, hits).eligible;
    WinnerIs(c, p, h);
    if f.BelowThreshold? || f.Blank? {
      return;
    }
    var w := if f == Kept then |p.eligible| else f.winner;
    if f != Kept {
      AttributedKeeps(c, p, w, h.origin);
    }
    hide Sound, Near, UnitOf, Cleaned, Pooled, FateOf, Attributed;
    assert w < |q.eligible| && h.origin in q.eligible[w].sources;
    assert e[w].(sources := q.eligible[w].sources) == q.eligible[w] && q.eligible[w].sources <= e[w].sources;
    assert h.origin in e[w].sources by { PrefixHas(q.eligible[w].sources, e[w].sources, h.origin); }
    assert f.Kept? || (e[w].key == p.eligible[w].key && e[w].embedding == p.eligible[w].embedding);
  }

  lemma PrefixHas<T>(a: seq<T>, b: seq<T>, x: T)
    requires a <= b && x in a
    ensures x in b
  {
    var i :| 0 <= i < |a| && a[i] == x;
    assert b[i] == x;
  }

  /** Why a hit may be merged into an item. */
  predicate MergedFor(c: Config, f: Fate, h: Hit, x: Item) {
    match f
    case Duplicate(_) => c.dedup && x.key == c.rules.key(h.text)
    case SemanticDuplicate(_) => Resembles(c, h, x)
    case Kept =>
      && x.origin == h.origin && x.recordId == h.recordId && x.similarity == h.similarity && x.embedding == h.embedding
      && x.key == c.rules.key(h.text) && x.tokens == c.count(x.content) && (!c.sentenceDedup ==> x.content == h.text)
    case _ => false
  }

  /** The item a hit lands in when it meets the pool `p`. */
  function LandsIn(c: Config, p: Pool, h: Hit): Option<nat> {
    match FateOf(c, p, h)
    case Duplicate(w) => Some(w)
    case SemanticDuplicate(w) => Some(w)
    case Kept => Some(|p.eligible|)
    case _ => None
  }

  lemma NewSource(c: Config, p: Pool, h: Hit, w: nat, o: HitOrigin)
    requires w < |After(c, p, h).eligible| && o in After(c, p, h).eligible[w].sources
    requires w < |p.eligible| ==> o !in p.eligible[w].sources
    ensures LandsIn(c, p, h) == Some(w) && h.origin == o
  {
    hide FateOf, Cleaned, UnitOf;
  }

  /** Every source of an eligible item is the origin of a hit that landed in it. */
  lemma {:induction false} EverySourceLanded(c: Config, hits: seq<Hit>, w: nat, o: HitOrigin)
    requires w < |Pooled(c, hits).eligible| && o in Pooled(c, hits).eligible[w].sources
    ensures exists n: nat :: n < |hits| && Lands(c, hits, n) == Some(w) && hits[n].origin == o
  {
    if hits == [] {
    } else {
      var m := |hits| - 1;
      var p := Pooled(c, hits[..m]);
      assert PoolAt(c, hits, m) == p && Pooled(c, hits) == After(c, p, hits[m]);
      hide After, Pooled, FateOf;
      if w < |p.eligible| && o in p.eligible[w].sources {
        EverySourceLanded(c, hits[..m], w, o);
        var n: nat :| n < m && Lands(c, hits[..m], n) == Some(w) && hits[..m][n].origin == o;
        PrefixOfPrefix(hits, n, m);
        assert Lands(c, hits, n) == Some(w);
      } else {
        NewSource(c, p, hits[m], w, o);
        assert Lands(c, hits, m) == Some(w);
      }
    }
  }

  /** How many of the hits met this fate without leaving a trace in a hit counter. */
  function Blanks(c: Config, hits: seq<Hit>): nat {
    if hits == [] then 0 else
      Blanks(c, hits[..|hits| - 1]) + if FateOf(c, Pooled(c, hits[..|hits| - 1]), hits[|hits| - 1]).Blank? then 1 else 0
  }

  /** Every hit is eligible, counted as dropped, or blank; only sentence deduplication makes
      a hit blank. */
  lemma {:induction false} HitsAccountedFor(c: Config, hits: seq<Hit>)
    ensures var p := Pooled(c, hits);
      |hits| == |p.eligible| + p.below + p.duplicates + p.semantic + Blanks(c, hits)
    ensures !c.sentenceDedup ==> Blanks(c, hits) == 0
  {
    if hits == [] {
    } else {
      HitsAccountedFor(c, hits[..|hits| - 1]);
      hide Cleaned, UnitOf, FindKey, FindNear, Trim;
    }
  }

  // ---- the counters ----

  predicate IsBelow(f: Fate) { f.BelowThreshold? }
  predicate IsDuplicate(f: Fate) { f.Duplicate? }
  predicate IsSemantic(f: Fate) { f.SemanticDuplicate? }
  predicate IsKept(f: Fate) { f.Kept? }

  /** The hits that met such a fate. */
  ghost function WithFate(c: Config, hits: seq<Hit>, fits: Fate -> bool): set<int> {
    set n | 0 <= n < |hits| && fits(Met(c, hits, n))
  }

  lemma MetPrefix(c: Config, hits: seq<Hit>, m: nat, n: nat)
    requires n < m <= |hits|
    ensures Met(c, hits[..m], n) == Met(c, hits, n)
  {
    PrefixOfPrefix(hits, n, m);
    hide Pooled, FateOf;
  }

  lemma WithFateNext(c: Config, hits: seq<Hit>, fits: Fate -> bool)
    requires hits != []
    ensures var m := |hits| - 1;
      |WithFate(c, hits, fits)| == |WithFate(c, hits[..m], fits)| + if fits(Met(c, hits, m)) then 1 else 0
  {
    hide Met, Pooled, FateOf;
    var m := |hits| - 1;
    var s, r := WithFate(c, hits, fits), WithFate(c, hits[..m], fits);
    forall n: nat | n < m ensures Met(c, hits[..m], n) == Met(c, hits, n) { MetPrefix(c, hits, m, n); }
    forall n ensures n in s <==> n in r || (n == m && fits(Met(c, hits, m))) {
    }
    assert s == if fits(Met(c, hits, m)) then r + {m} else r;
    assert m !in r;
  }

  lemma CountersStep(c: Config, p: Pool, h: Hit)
    ensures var f, q := FateOf(c, p, h), After(c, p, h);
      && q.below == p.below + (if IsBelow(f) then 1 else 0)
      && q.duplicates == p.duplicates + (if IsDuplicate(f) then 1 else 0)
      && q.semantic == p.semantic + (if IsSemantic(f) then 1 else 0)
      && |q.eligible| == |p.eligible| + (if IsKept(f) then 1 else 0)
  {
    hide FateOf, Cleaned, UnitOf;
  }

  /** Each counter is the number of hits that met its fate, and the eligible items are as many
      as the hits kept. */
  lemma {:induction false} CountersAre(c: Config, hits: seq<Hit>)
    ensures var p := Pooled(c, hits);
      && p.below == |WithFate(c, hits, IsBelow)|
      && p.duplicates == |WithFate(c, hits, IsDuplicate)|
      && p.semantic == |WithFate(c, hits, IsSemantic)|
      && |p.eligible| == |WithFate(c, hits, IsKept)|
  {
    if hits == [] {
    } else {
      var m := |hits| - 1;
      CountersAre(c, hits[..m]);
      CountersStep(c, Pooled(c, hits[..m]), hits[m]);
      WithFateNext(c, hits, IsBelow);
      WithFateNext(c, hits, IsDuplicate);
      WithFateNext(c, hits, IsSemantic);
      WithFateNext(c, hits, IsKept);
      assert PoolAt(c, hits, m) == Pooled(c, hits[..m]);
      hide After, FateOf, WithFate;
    }
  }
}
