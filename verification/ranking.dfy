/** Stable descending sort, as the membrane orders peers and hits and the context builder
    ranks items, and the position it gives every element. */
module Ranking {
  import opened Seqs

  predicate Sorted<T(!new)>(s: seq<T>, key: T -> real) {
    forall i, j :: 0 <= i < j < |s| ==> key(s[i]) >= key(s[j])
  }

  /** How many of the first `n` elements have a key of at least `v`. */
  function CountAtLeast<T>(s: seq<T>, key: T -> real, v: real, n: nat): (c: nat)
    requires n <= |s|
    ensures c <= n
  {
    if n == 0 then 0 else CountAtLeast(s, key, v, n - 1) + if key(s[n - 1]) >= v then 1 else 0
  }

  /** `x` placed after every element of `r` that is at least as good. */
  function Insert<T>(r: seq<T>, key: T -> real, x: T): (s: seq<T>)
    ensures |s| == |r| + 1
  {
    var p := CountAtLeast(r, key, key(x), |r|);
    r[..p] + [x] + r[p..]
  }

  /** The stable descending sort. */
  function Ranked<T>(s: seq<T>, key: T -> real): (r: seq<T>)
    ensures |r| == |s|
  {
    if s == [] then [] else Insert(Ranked(s[..|s| - 1], key), key, s[|s| - 1])
  }

  lemma {:induction false} CountSplits<T(!new)>(s: seq<T>, key: T -> real, v: real, n: nat)
    requires Sorted(s, key) && n <= |s|
    ensures forall i :: 0 <= i < n ==> (key(s[i]) >= v <==> i < CountAtLeast(s, key, v, n))
  {
    if n == 0 {
    } else {
      CountSplits(s, key, v, n - 1);
      if n > 1 && key(s[n - 1]) >= v {
        assert key(s[n - 2]) >= key(s[n - 1]);
      }
    }
  }

  lemma InsertSorted<T(!new)>(r: seq<T>, key: T -> real, x: T)
    requires Sorted(r, key)
    ensures Sorted(Insert(r, key, x), key)
  {
    CountSplits(r, key, key(x), |r|);
    hide CountAtLeast;
  }

  lemma {:induction false} RankedSorted<T(!new)>(s: seq<T>, key: T -> real)
    ensures Sorted(Ranked(s, key), key)
  {
    if s == [] {
    } else {
      RankedSorted(s[..|s| - 1], key);
      InsertSorted(Ranked(s[..|s| - 1], key), key, s[|s| - 1]);
    }
  }

  lemma {:induction false} RankedPermutes<T(!new)>(s: seq<T>, key: T -> real)
    ensures multiset(Ranked(s, key)) == multiset(s)
  {
    if s == [] {
    } else {
      var r, x := Ranked(s[..|s| - 1], key), s[|s| - 1];
      RankedPermutes(s[..|s| - 1], key);
      InitSnoc(s);
      var p := CountAtLeast(r, key, key(x), |r|);
      assert r == r[..p] + r[p..];
    }
  }

  lemma {:induction false} CountPrefix<T>(a: seq<T>, b: seq<T>, key: T -> real, v: real, n: nat)
    requires n <= |a|
    ensures CountAtLeast(a + b, key, v, n) == CountAtLeast(a, key, v, n)
  {
    if n == 0 {
    } else {
      CountPrefix(a, b, key, v, n - 1);
    }
  }

  lemma {:induction false} CountConcat<T>(a: seq<T>, b: seq<T>, key: T -> real, v: real, n: nat)
    requires n <= |b|
    ensures CountAtLeast(a + b, key, v, |a| + n) == CountAtLeast(a, key, v, |a|) + CountAtLeast(b, key, v, n)
  {
    if n == 0 {
      CountPrefix(a, b, key, v, |a|);
    } else {
      CountConcat(a, b, key, v, n - 1);
      assert (a + b)[|a| + n - 1] == b[n - 1];
    }
  }

  lemma CountSnoc<T>(a: seq<T>, x: T, key: T -> real, v: real)
    ensures CountAtLeast(a + [x], key, v, |a| + 1) == CountAtLeast(a, key, v, |a|) + if key(x) >= v then 1 else 0
  {
    CountPrefix(a, [x], key, v, |a|);
  }

  lemma {:induction false} CountInsert<T>(r: seq<T>, key: T -> real, x: T, v: real)
    ensures CountAtLeast(Insert(r, key, x), key, v, |r| + 1)
         == CountAtLeast(r, key, v, |r|) + if key(x) >= v then 1 else 0
  {
    var p := CountAtLeast(r, key, key(x), |r|);
    var a, b := r[..p], r[p..];
    assert r == a + b && Insert(r, key, x) == (a + [x]) + b;
    hide CountAtLeast;
    CountConcat(a, b, key, v, |b|);
    CountConcat(a + [x], b, key, v, |b|);
    CountSnoc(a, x, key, v);
  }

  lemma {:induction false} CountSame<T(!new)>(s: seq<T>, key: T -> real, v: real)
    ensures CountAtLeast(Ranked(s, key), key, v, |s|) == CountAtLeast(s, key, v, |s|)
  {
    if s == [] {
    } else {
      var s', x := s[..|s| - 1], s[|s| - 1];
      CountSame(s', key, v);
      InitSnoc(s);
      hide CountAtLeast, Insert;
      CountSnoc(s', x, key, v);
      CountInsert(Ranked(s', key), key, x, v);
    }
  }

  /** How many of the first `n` elements come before element `p`: those with a greater key,
      and those with the same key that stood earlier. */
  function Ahead<T>(s: seq<T>, key: T -> real, p: nat, n: nat): (c: nat)
    requires p < |s| && n <= |s|
    ensures c <= n
  {
    if n == 0 then 0 else
      Ahead(s, key, p, n - 1)
      + if key(s[n - 1]) > key(s[p]) || (key(s[n - 1]) == key(s[p]) && n - 1 < p) then 1 else 0
  }

  function Rank<T>(s: seq<T>, key: T -> real, p: nat): nat
    requires p < |s|
  {
    Ahead(s, key, p, |s|)
  }

  lemma {:induction false} AheadPrefix<T>(s: seq<T>, key: T -> real, p: nat, n: nat)
    requires p < |s| - 1 && n <= |s| - 1
    ensures Ahead(s, key, p, n) == Ahead(s[..|s| - 1], key, p, n)
  {
    if n == 0 {
    } else {
      AheadPrefix(s, key, p, n - 1);
    }
  }

  lemma {:induction false} AheadOfLast<T>(s: seq<T>, key: T -> real, n: nat)
    requires s != [] && n <= |s| - 1
    ensures Ahead(s, key, |s| - 1, n) == CountAtLeast(s[..|s| - 1], key, key(s[|s| - 1]), n)
  {
    if n == 0 {
    } else {
      AheadOfLast(s, key, n - 1);
    }
  }

  lemma RankInsert<T>(r: seq<T>, key: T -> real, x: T, k: nat)
    requires k < |r|
    ensures var p := CountAtLeast(r, key, key(x), |r|);
      Insert(r, key, x)[if k < p then k else k + 1] == r[k] && Insert(r, key, x)[p] == x
  {
  }

  /** The sort puts every element exactly at its rank. */
  lemma {:induction false} RankedPlaces<T(!new)>(s: seq<T>, key: T -> real, p: nat)
    requires p < |s|
    ensures Rank(s, key, p) < |s|
    ensures Ranked(s, key)[Rank(s, key, p)] == s[p]
  {
    var s', x := s[..|s| - 1], s[|s| - 1];
    var r := Ranked(s', key);
    CountSame(s', key, key(x));
    hide Ranked, CountAtLeast, Insert;
    assert Ranked(s, key) == Insert(r, key, x) by { RankedStep(s, key); }
    if p == |s| - 1 {
      AheadOfLast(s, key, |s'|);
      InsertedAt(r, key, x);
    } else {
      RankedPlaces(s', key, p);
      AheadPrefix(s, key, p, |s'|);
      var k := Rank(s', key, p);
      RankedSorted(s', key);
      CountSplits(r, key, key(x), |r|);
      RankInsert(r, key, x, k);
    }
  }

  lemma RankedStep<T>(s: seq<T>, key: T -> real)
    requires s != []
    ensures Ranked(s, key) == Insert(Ranked(s[..|s| - 1], key), key, s[|s| - 1])
  {
  }

  lemma InsertedAt<T>(r: seq<T>, key: T -> real, x: T)
    ensures Insert(r, key, x)[CountAtLeast(r, key, key(x), |r|)] == x
  {
  }

  /** Of two elements one comes first. */
  lemma {:induction false} AheadLess<T>(s: seq<T>, key: T -> real, p: nat, q: nat, n: nat)
    requires p < |s| && q < |s| && n <= |s|
    requires key(s[p]) > key(s[q]) || (key(s[p]) == key(s[q]) && p < q)
    ensures Ahead(s, key, p, n) + (if p < n then 1 else 0) <= Ahead(s, key, q, n)
  {
    if n == 0 {
    } else {
      AheadLess(s, key, p, q, n - 1);
    }
  }

  /** No two elements have the same rank. */
  lemma RankInjective<T>(s: seq<T>, key: T -> real, p: nat, q: nat)
    requires p < |s| && q < |s| && Rank(s, key, p) == Rank(s, key, q)
    ensures p == q
  {
    if key(s[p]) > key(s[q]) || (key(s[p]) == key(s[q]) && p < q) {
      AheadLess(s, key, p, q, |s|);
    } else if p != q {
      AheadLess(s, key, q, p, |s|);
    }
  }

  /** Every place is some element's rank. */
  lemma {:induction false} RankOnto<T(!new)>(s: seq<T>, key: T -> real, r: nat) returns (p: nat)
    requires r < |s|
    ensures p < |s| && Rank(s, key, p) == r
  {
    var n := |s| - 1;
    var s', x := s[..n], s[n];
    var ins := CountAtLeast(s', key, key(x), n);
    AheadOfLast(s, key, n);
    if r == ins {
      p := n;
    } else {
      p := RankOnto(s', key, if r < ins then r else r - 1);
      AheadPrefix(s, key, p, n);
      CountSame(s', key, key(x));
      RankedSorted(s', key);
      RankedPlaces(s', key, p);
      CountSplits(Ranked(s', key), key, key(x), n);
      hide Ranked, CountAtLeast;
    }
  }

  /** Two descending arrangements of the same elements have the same keys throughout. */
  lemma SortedKeysUnique<T(!new)>(a: seq<T>, b: seq<T>, key: T -> real, i: nat)
    requires Sorted(a, key) && Sorted(b, key) && multiset(a) == multiset(b) && i < |a|
    ensures |a| == |b| && key(a[i]) == key(b[i])
  {
    SameLength(a, b);
    var v, w := key(a[i]), key(b[i]);
    CountByMultiset(a, b, key, v);
    CountByMultiset(a, b, key, w);
    CountSplits(a, key, v, |a|);
    CountSplits(a, key, w, |a|);
    CountSplits(b, key, v, |b|);
    CountSplits(b, key, w, |b|);
  }

  lemma {:induction false} CountByMultiset<T(!new)>(a: seq<T>, b: seq<T>, key: T -> real, v: real)
    requires multiset(a) == multiset(b)
    ensures |a| == |b| && CountAtLeast(a, key, v, |a|) == CountAtLeast(b, key, v, |b|)
  {
    SameLength(a, b);
    if a != [] {
      var k := Match(a, b);
      CountByMultiset(Without(a, |a| - 1), Without(b, k), key, v);
      CountWithout(a, |a| - 1, key, v);
      CountWithout(b, k, key, v);
    }
  }

  lemma SameLength<T>(a: seq<T>, b: seq<T>)
    requires multiset(a) == multiset(b)
    ensures |a| == |b|
  {
    assert |a| == |multiset(a)| == |multiset(b)| == |b|;
  }

  /** Where the last element of `a` occurs in its rearrangement `b`. */
  lemma Match<T>(a: seq<T>, b: seq<T>) returns (k: nat)
    requires multiset(a) == multiset(b) && a != []
    ensures k < |b| && b[k] == a[|a| - 1]
    ensures multiset(Without(a, |a| - 1)) == multiset(Without(b, k))
  {
    hide Without;
    var x := a[|a| - 1];
    assert x in a;
    assert x in multiset(b);
    k :| 0 <= k < |b| && b[k] == x;
    Removed(a, |a| - 1);
    Removed(b, k);
  }

  function Without<T>(s: seq<T>, k: nat): (r: seq<T>)
    requires k < |s|
    ensures |r| == |s| - 1
  {
    s[..k] + s[k + 1..]
  }

  lemma WithoutInit<T>(s: seq<T>, k: nat)
    requires k < |s| - 1
    ensures Without(s, k)[..|s| - 2] == Without(s[..|s| - 1], k) && Without(s, k)[|s| - 2] == s[|s| - 1]
  {
  }

  lemma Removed<T>(s: seq<T>, k: nat)
    requires k < |s|
    ensures multiset(Without(s, k)) == multiset(s) - multiset{s[k]}
  {
    assert s == s[..k] + [s[k]] + s[k + 1..];
  }

  lemma {:induction false} CountWithout<T(!new)>(s: seq<T>, k: nat, key: T -> real, v: real)
    requires k < |s|
    ensures CountAtLeast(s, key, v, |s|)
         == CountAtLeast(Without(s, k), key, v, |s| - 1) + if key(s[k]) >= v then 1 else 0
  {
    var a, b := s[..k], s[k + 1..];
    assert s == (a + [s[k]]) + b;
    hide CountAtLeast;
    CountConcat(a + [s[k]], b, key, v, |b|);
    CountSnoc(a, s[k], key, v);
    CountConcat(a, b, key, v, |b|);
  }

  predicate Pairwise<T(!new)>(s: seq<T>, rel: (T, T) -> bool) {
    forall i, j :: 0 <= i < j < |s| ==> rel(s[i], s[j])
  }

  lemma RankedFrom<T(!new)>(s: seq<T>, key: T -> real, i: nat)
    requires i < |s|
    ensures Ranked(s, key)[i] in s
  {
    RankedPermutes(s, key);
    hide Ranked;
    assert Ranked(s, key)[i] in multiset(Ranked(s, key));
  }

  lemma InsertPairwise<T(!new)>(r: seq<T>, key: T -> real, x: T, rel: (T, T) -> bool)
    requires Pairwise(r, rel) && forall i :: 0 <= i < |r| ==> rel(r[i], x) && rel(x, r[i])
    ensures Pairwise(Insert(r, key, x), rel)
  {
    hide CountAtLeast;
  }

  /** Sorting keeps a symmetric relation between all elements. */
  lemma {:induction false} RankedPairwise<T(!new)>(s: seq<T>, key: T -> real, rel: (T, T) -> bool)
    requires Pairwise(s, rel) && forall x, y :: rel(x, y) <==> rel(y, x)
    ensures Pairwise(Ranked(s, key), rel)
  {
    if s == [] {
    } else {
      var n := |s| - 1;
      RankedPairwise(s[..n], key, rel);
      var r := Ranked(s[..n], key);
      forall i | 0 <= i < |r| ensures rel(r[i], s[n]) && rel(s[n], r[i]) {
        RankedFrom(s[..n], key, i);
      }
      InsertPairwise(r, key, s[n], rel);
    }
  }
}
