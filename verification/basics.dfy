/** Small definitions and facts shared by the other modules. */
module Wrappers {
  datatype Option<+T> = None | Some(value: T)
}

/** Sequences, and facts about them kept apart so that proofs about large states can call them. */
module Seqs {
  predicate Distinct<T(==)>(s: seq<T>) { forall i, j :: 0 <= i < j < |s| ==> s[i] != s[j] }

  lemma SliceSnoc<T>(s: seq<T>, a: nat, b: nat)
    requires a < b <= |s|
    ensures s[a..b] == s[a..b - 1] + [s[b - 1]]
  {
  }

  lemma SliceOne<T>(s: seq<T>, a: nat)
    requires a < |s|
    ensures s[a..a + 1] == [s[a]]
  {
  }

  lemma InitSnoc<T>(s: seq<T>)
    requires s != []
    ensures s == s[..|s| - 1] + [s[|s| - 1]]
  {
  }

  lemma PrefixOfPrefix<T>(s: seq<T>, a: nat, b: nat)
    requires a <= b <= |s|
    ensures s[..b][..a] == s[..a]
  {
  }

  lemma PrefixOfSnoc<T>(s: seq<T>, x: T)
    ensures (s + [x])[..|s|] == s && (s + [x])[|s|] == x
  {
  }
}

module Sums {
  /** The sum of the first `n` terms. */
  function Prefix(w: seq<real>, n: nat): real
    requires n <= |w|
  {
    if n == 0 then 0.0 else Prefix(w, n - 1) + w[n - 1]
  }

  predicate NonNegative(w: seq<real>) { forall i :: 0 <= i < |w| ==> w[i] >= 0.0 }

  lemma {:induction false} PrefixNonNegative(w: seq<real>, i: nat, j: nat)
    requires NonNegative(w) && i <= j <= |w|
    ensures 0.0 <= Prefix(w, i) <= Prefix(w, j)
    decreases j
  {
    if i < j {
      PrefixNonNegative(w, i, j - 1);
    } else if i > 0 {
      PrefixNonNegative(w, i - 1, j - 1);
    }
  }

  lemma {:induction false} AllZero(w: seq<real>, n: nat)
    requires n <= |w| && forall i :: 0 <= i < |w| ==> w[i] == 0.0
    ensures Prefix(w, n) == 0.0
  {
    if n == 0 {
    } else {
      AllZero(w, n - 1);
    }
  }

  function Sum(v: seq<nat>): nat {
    if v == [] then 0 else Sum(v[..|v| - 1]) + v[|v| - 1]
  }

  lemma {:induction false} SumUpdate(v: seq<nat>, i: nat, x: nat)
    requires i < |v|
    ensures Sum(v[i := x]) == Sum(v) - v[i] + x
  {
    var w := v[i := x];
    if i == |v| - 1 {
      assert w[..|w| - 1] == v[..|v| - 1];
    } else {
      assert w[..|w| - 1] == v[..|v| - 1][i := x];
      SumUpdate(v[..|v| - 1], i, x);
    }
  }

  lemma {:induction false} SumMonotone(v: seq<nat>, w: seq<nat>)
    requires |v| == |w| && forall i :: 0 <= i < |v| ==> v[i] <= w[i]
    ensures Sum(v) <= Sum(w)
    ensures Sum(v) == Sum(w) ==> v == w
  {
    if v == [] {
    } else {
      SumMonotone(v[..|v| - 1], w[..|w| - 1]);
      if Sum(v) == Sum(w) {
        assert v == v[..|v| - 1] + [v[|v| - 1]];
        assert w == w[..|w| - 1] + [w[|w| - 1]];
      }
    }
  }
}
