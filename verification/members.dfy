/** Members ordered by tenant id, as `replay` returns them and checkpoints store them. */
module Members {
  import opened Wire
  import opened Records

  type Active = map<TenantId, MemberRecord>

  predicate Keyed(m: Active) { forall t :: t in m ==> m[t].tenantId == t }

  /** The order of byte arrays. */
  predicate Less(a: Bytes, b: Bytes) {
    if b == [] then false
    else if a == [] then true
    else a[0] < b[0] || (a[0] == b[0] && Less(a[1..], b[1..]))
  }

  /** `k` is the first place where the two differ, and `a` ends there or has the lower byte. */
  predicate LowerAt(a: Bytes, b: Bytes, k: nat) {
    && k <= |a| && k < |b| && (forall i :: 0 <= i < k ==> a[i] == b[i])
    && (k == |a| || a[k] < b[k])
  }

  lemma {:induction false} LessIs(a: Bytes, b: Bytes)
    ensures Less(a, b) <==> exists k: nat :: LowerAt(a, b, k)
  {
    if b == [] {
    } else if a == [] || a[0] != b[0] {
      assert Less(a, b) ==> LowerAt(a, b, 0);
    } else {
      LessIs(a[1..], b[1..]);
      if k: nat :| LowerAt(a[1..], b[1..], k) {
        assert forall i :: 0 < i < k + 1 ==> a[i] == a[1..][i - 1] && b[i] == b[1..][i - 1];
        assert LowerAt(a, b, k + 1);
      }
      if k: nat :| LowerAt(a, b, k) {
        assert LowerAt(a[1..], b[1..], k - 1);
      }
    }
  }

  lemma {:induction false} LessTransitive(a: Bytes, b: Bytes, c: Bytes)
    requires Less(a, b) && Less(b, c)
    ensures Less(a, c)
  {
    if a != [] && a[0] == b[0] == c[0] {
      LessTransitive(a[1..], b[1..], c[1..]);
    }
  }

  lemma {:induction false} LessIrreflexive(a: Bytes)
    ensures !Less(a, a)
  {
    if a == [] {
    } else {
      LessIrreflexive(a[1..]);
    }
  }

  lemma {:induction false} LessTotal(a: Bytes, b: Bytes)
    ensures a == b || Less(a, b) || Less(b, a)
  {
    if a != [] && b != [] && a[0] == b[0] {
      LessTotal(a[1..], b[1..]);
      assert a == [a[0]] + a[1..] && b == [b[0]] + b[1..];
    }
  }

  predicate IsMin(k: TenantId, keys: set<TenantId>) {
    k in keys && forall j :: j in keys ==> j == k || Less(k, j)
  }

  lemma {:induction false} MinExists(keys: set<TenantId>)
    requires keys != {}
    ensures exists k: TenantId :: IsMin(k, keys)
    decreases |keys|
  {
    var k: TenantId :| k in keys;
    var rest := keys - {k};
    if rest == {} {
      assert keys == {k};
      assert IsMin(k, keys);
    } else {
      MinExists(rest);
      var m: TenantId :| IsMin(m, rest);
      LessTotal(k, m);
      if Less(k, m) {
        forall j: TenantId | j in keys && j != k ensures Less(k, j) {
          assert j in rest;
          if j != m { LessTransitive(k, m, j); }
        }
        assert IsMin(k, keys);
      } else {
        assert IsMin(m, keys);
      }
    }
  }

  lemma MinUnique(keys: set<TenantId>, k: TenantId, m: TenantId)
    requires IsMin(k, keys) && IsMin(m, keys)
    ensures k == m
  {
    if k != m {
      LessTransitive(k, m, k);
      LessIrreflexive(k);
    }
  }

  function MinKey(keys: set<TenantId>): (k: TenantId)
    requires keys != {}
    ensures IsMin(k, keys)
  {
    MinExists(keys);
    assert forall k: TenantId, m: TenantId :: IsMin(k, keys) && IsMin(m, keys) ==> k == m by {
      forall k: TenantId, m: TenantId | IsMin(k, keys) && IsMin(m, keys) ensures k == m { MinUnique(keys, k, m); }
    }
    var k: TenantId :| IsMin(k, keys);
    k
  }

  /** The values of the map, sorted by tenant id. */
  function Sorted(m: Active): seq<MemberRecord>
    decreases |m|
  {
    if m == map[] then [] else
      var k := MinKey(m.Keys);
      assert |m - {k}| < |m| by { assert (m - {k}).Keys == m.Keys - {k}; }
      [m[k]] + Sorted(m - {k})
  }

  predicate StrictlySorted(ms: seq<MemberRecord>) {
    forall i, j :: 0 <= i < j < |ms| ==> Less(ms[i].tenantId, ms[j].tenantId)
  }

  /** Inserting the records one by one; a later one wins. */
  function MapOf(ms: seq<MemberRecord>): Active {
    if ms == [] then map[] else
      var last := ms[|ms| - 1];
      MapOf(ms[..|ms| - 1])[last.tenantId := last]
  }

  /** Sorting keeps the values of the map, each once. */
  lemma {:induction false} SortedContents(m: Active)
    requires Keyed(m)
    ensures forall x :: x in Sorted(m) <==> x.tenantId in m && m[x.tenantId] == x
    ensures |Sorted(m)| == |m|
    decreases |m|
  {
    if m == map[] {
    } else {
      var k := MinKey(m.Keys);
      var r := m - {k};
      assert r.Keys == m.Keys - {k};
      SortedContents(r);
    }
  }

  lemma LeastFirst(x: MemberRecord, s: seq<MemberRecord>)
    requires StrictlySorted(s) && forall j :: 0 <= j < |s| ==> Less(x.tenantId, s[j].tenantId)
    ensures StrictlySorted([x] + s)
  {
    hide Less;
    forall i, j | 0 <= i < j < |[x] + s| ensures Less(([x] + s)[i].tenantId, ([x] + s)[j].tenantId) {
    }
  }

  lemma {:induction false} SortedIsSorted(m: Active)
    requires Keyed(m)
    ensures StrictlySorted(Sorted(m))
    decreases |m|
  {
    hide Less;
    if m == map[] {
    } else {
      var k := MinKey(m.Keys);
      var r := m - {k};
      assert r.Keys == m.Keys - {k};
      SortedIsSorted(r);
      SortedContents(r);
      var s := Sorted(r);
      forall j | 0 <= j < |s| ensures Less(k, s[j].tenantId) {
        assert s[j] in s;
      }
      assert Sorted(m) == [m[k]] + s;
      hide Sorted;
      LeastFirst(m[k], s);
    }
  }

  lemma {:induction false} MapOfSound(ms: seq<MemberRecord>)
    ensures Keyed(MapOf(ms))
    ensures forall t :: t in MapOf(ms) ==> MapOf(ms)[t] in ms
    ensures forall i :: 0 <= i < |ms| ==> ms[i].tenantId in MapOf(ms)
  {
    if ms == [] {
    } else {
      var init := ms[..|ms| - 1];
      MapOfSound(init);
      forall i | 0 <= i < |ms| ensures ms[i].tenantId in MapOf(ms) {
        if i < |ms| - 1 { assert ms[i] == init[i]; }
      }
    }
  }

  /** A checkpoint's member list rebuilds the map it was taken from. */
  lemma {:induction false} MapOfSorted(m: Active)
    requires Keyed(m)
    ensures MapOf(Sorted(m)) == m
  {
    var s := Sorted(m);
    SortedContents(m);
    MapOfSound(s);
    forall t: TenantId | t in MapOf(s) ensures t in m && m[t] == MapOf(s)[t] {
      assert MapOf(s)[t] in s;
    }
    forall t: TenantId | t in m ensures t in MapOf(s) {
      assert m[t] in s;
    }
  }
}
