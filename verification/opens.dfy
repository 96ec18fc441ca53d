/** Opening handles through a head cache (hansa.rs, head_cache.rs). An open reads the log, loads
    the remembered head and compares, writes a temporary file and renames it, and nothing locks
    the cache: what holds if opens of one directory do not overlap, and what happens if they
    do. */
module Opens {
  import opened Wire
  import opened Wrappers
  import opened Records
  import opened Chain
  import opened Registry
  import opened Protocol
  import opened Guarantees
  import opened Seqs

  /** An honest open is refused exactly when its cache directory remembers a longer chain
      than the one it read; a hash mismatch never happens. */
  lemma RefusedIffOutrun(c: Crypto, skipper: Key, acts: seq<Action>, p: Pid)
    requires Untampered(acts) && RunVerifies(c, skipper, acts) && After(c, skipper, acts).PhaseOf(p).At(Unchecked)
    ensures var s := After(c, skipper, acts); var ph := s.PhaseOf(p);
      var s' := After(c, skipper, acts + [OpenCheck(p)]);
      && (s'.alarms == s.alarms + 1 <==> ph.dir in s.caches && ph.seqNo < s.caches[ph.dir].0)
      && (s'.alarms == s.alarms || s'.alarms == s.alarms + 1)
  {
    Reachable(c, skipper, acts);
    AfterSnoc(c, skipper, acts, OpenCheck(p));
    var s := After(c, skipper, acts);
    InvOpening(c, skipper, s, p);
    CountersStep(c, skipper, s, OpenCheck(p));
    hide After, Do, HashOf, Inv;
  }

  /** The step renames a temporary file over what directory `d` remembers. */
  predicate StoresIn(s: State, a: Action, d: Dir) {
    a.OpenStore? && s.PhaseOf(a.p).At(Staged) && s.PhaseOf(a.p).dir == d && d in s.temps
  }

  /** The step writes the temporary file of directory `d`. */
  predicate StagesIn(s: State, a: Action, d: Dir) {
    a.OpenStage? && s.PhaseOf(a.p).At(Checked) && s.PhaseOf(a.p).dir == d
  }

  /** Only a rename changes what a directory remembers, and it takes the temporary file away. */
  lemma CacheStep(c: Crypto, skipper: Key, s: State, a: Action, d: Dir)
    ensures var s' := Do(c, skipper, s, a);
      if StoresIn(s, a, d) then s'.Cached(d) == s.Temp(d) && s'.Temp(d) == None && s'.PhaseOf(a.p) == Idle
      else
        && s'.Cached(d) == s.Cached(d)
        && s'.Temp(d) == if StagesIn(s, a, d) then Some((s.PhaseOf(a.p).seqNo, s.PhaseOf(a.p).hash)) else s.Temp(d)
  {
    if a.Write? || a.Rename? { WritesAlone(c, skipper, s, a); }
    hide WriteStep, Collapse, Replayed;
  }

  /** How a process comes to a stage of an open. */
  lemma OpeningStep(c: Crypto, skipper: Key, s: State, a: Action, q: Pid)
    requires Do(c, skipper, s, a).PhaseOf(q).Opening? && Do(c, skipper, s, a).PhaseOf(q) != s.PhaseOf(q)
    ensures var ph, ph' := s.PhaseOf(q), Do(c, skipper, s, a).PhaseOf(q);
      && a.p == q
      && (ph'.At(Unchecked) ==> a == OpenRead(q, ph'.dir) && ph.Idle?)
      && (ph'.At(Checked) ==>
            a == OpenCheck(q) && ph == ph'.(stage := Unchecked) && !Regressed(s.Cached(ph.dir), ph.seqNo, ph.hash))
      && (ph'.At(Staged) ==> a == OpenStage(q) && ph == ph'.(stage := Checked))
  {
    OthersStay(c, skipper, s, a);
    if a.Write? || a.Rename? { WritesAlone(c, skipper, s, a); }
    hide WriteStep, Collapse, Replayed;
  }

  predicate OpeningIn(s: State, q: Pid, dir: Dir) { s.PhaseOf(q).Opening? && s.PhaseOf(q).dir == dir }

  /** Opens of one cache directory do not overlap: no read starts while another process is
      between its read and its store. */
  ghost predicate AtomicOpens(c: Crypto, skipper: Key, acts: seq<Action>) {
    acts == [] ||
    (var init, a := acts[..|acts| - 1], acts[|acts| - 1];
     && AtomicOpens(c, skipper, init)
     && (a.OpenRead? ==> forall q: Pid :: q != a.p ==> !OpeningIn(After(c, skipper, init), q, a.dir)))
  }

  /** An open past its check is not behind what its directory remembers, and what it put in the
      temporary file is still there. */
  predicate Undisturbed(s: State, ph: Phase) {
    ph.Opening? ==>
      && (ph.stage != Unchecked && ph.dir in s.caches ==> s.caches[ph.dir].0 <= ph.seqNo)
      && (ph.stage == Staged ==> s.Temp(ph.dir) == Some((ph.seqNo, ph.hash)))
  }

  ghost predicate Exclusive(s: State) {
    && (forall q: Pid :: Undisturbed(s, s.PhaseOf(q)))
    && (forall q: Pid, r: Pid, d: Dir :: OpeningIn(s, q, d) && OpeningIn(s, r, d) ==> q == r)
  }

  lemma AloneKept(c: Crypto, skipper: Key, s: State, a: Action)
    requires Exclusive(s)
    requires a.OpenRead? ==> forall q: Pid :: q != a.p ==> !OpeningIn(s, q, a.dir)
    ensures var s' := Do(c, skipper, s, a);
      forall q: Pid, r: Pid, d: Dir :: OpeningIn(s', q, d) && OpeningIn(s', r, d) ==> q == r
  {
    var s' := Do(c, skipper, s, a);
    forall q: Pid, d: Dir | OpeningIn(s', q, d)
      ensures OpeningIn(s, q, d) || (q == a.p && a == OpenRead(q, d))
    {
      if s'.PhaseOf(q) != s.PhaseOf(q) { OpeningStep(c, skipper, s, a, q); }
    }
    hide Do;
  }

  lemma UndisturbedStep(c: Crypto, skipper: Key, s: State, a: Action, q: Pid)
    requires Exclusive(s)
    ensures Undisturbed(Do(c, skipper, s, a), Do(c, skipper, s, a).PhaseOf(q))
  {
    hide Do;
    var s' := Do(c, skipper, s, a);
    var ph := s'.PhaseOf(q);
    if ph.Opening? {
      CacheStep(c, skipper, s, a, ph.dir);
      OthersStay(c, skipper, s, a);
      if ph != s.PhaseOf(q) { OpeningStep(c, skipper, s, a, q); }
      assert Undisturbed(s, s.PhaseOf(q));
      assert OpeningIn(s, q, ph.dir) && OpeningIn(s, a.p, ph.dir) ==> q == a.p;
    }
  }

  lemma CountersStep(c: Crypto, skipper: Key, s: State, a: Action)
    ensures var s', ph := Do(c, skipper, s, a), s.PhaseOf(a.p);
      && s'.misses == s.misses + (if a.OpenStore? && ph.At(Staged) && ph.dir !in s.temps then 1 else 0)
      && s'.alarms == s.alarms + (if a.OpenCheck? && ph.At(Unchecked) && Regressed(s.Cached(ph.dir), ph.seqNo, ph.hash)
                                  then 1 else 0)
  {
    if a.Write? || a.Rename? { WritesAlone(c, skipper, s, a); }
    hide WriteStep, Collapse, Replayed, Regressed;
  }

  lemma ExclusiveAt(s: State, p: Pid)
    requires Exclusive(s)
    ensures Undisturbed(s, s.PhaseOf(p))
  {
  }

  /** With atomic opens, whatever happens to the log, opens do not disturb each other and each
      finds its temporary file. */
  lemma {:induction false} AtomicOpensExclude(c: Crypto, skipper: Key, acts: seq<Action>)
    requires AtomicOpens(c, skipper, acts)
    ensures Exclusive(After(c, skipper, acts)) && After(c, skipper, acts).misses == 0
  {
    if acts == [] {
    } else {
      hide Do;
      var init, a := acts[..|acts| - 1], acts[|acts| - 1];
      var s := After(c, skipper, init);
      AtomicOpensExclude(c, skipper, init);
      ExclusiveAt(s, a.p);
      CountersStep(c, skipper, s, a);
      AloneKept(c, skipper, s, a);
      hide Undisturbed;
      forall q: Pid ensures Undisturbed(Do(c, skipper, s, a), Do(c, skipper, s, a).PhaseOf(q)) {
        UndisturbedStep(c, skipper, s, a, q);
      }
    }
  }

  lemma HeightKept(c: Crypto, skipper: Key, s: State, a: Action, d: Dir)
    requires Exclusive(s) && d in s.caches
    ensures d in Do(c, skipper, s, a).caches && s.caches[d].0 <= Do(c, skipper, s, a).caches[d].0
  {
    CacheStep(c, skipper, s, a, d);
    ExclusiveAt(s, a.p);
    hide Do, Exclusive;
  }

  /** With atomic opens, whatever happens to the log, no run lowers what a cache directory
      remembers. */
  lemma {:induction false} CachesNeverRegress(c: Crypto, skipper: Key, acts: seq<Action>, more: seq<Action>, d: Dir)
    requires AtomicOpens(c, skipper, acts + more) && d in After(c, skipper, acts).caches
    ensures d in After(c, skipper, acts + more).caches
    ensures After(c, skipper, acts).caches[d].0 <= After(c, skipper, acts + more).caches[d].0
    decreases |more|
  {
    hide Do, After, Exclusive;
    if more == [] {
      assert acts + more == acts;
    } else {
      var init, a := more[..|more| - 1], more[|more| - 1];
      assert (acts + more)[..|acts + more| - 1] == acts + init;
      assert acts + more == (acts + init) + [a];
      CachesNeverRegress(c, skipper, acts, init, d);
      AtomicOpensExclude(c, skipper, acts + init);
      AfterSnoc(c, skipper, acts + init, a);
      HeightKept(c, skipper, After(c, skipper, acts + init), a, d);
    }
  }

  /** What an open read is not behind what its directory remembers. */
  predicate Abreast(s: State, ph: Phase) { ph.Opening? && ph.dir in s.caches ==> s.caches[ph.dir].0 <= ph.seqNo }

  lemma ReadIsAbreast(c: Crypto, skipper: Key, s: State, p: Pid, dir: Dir)
    requires Inv(c, skipper, s)
    ensures var s' := Do(c, skipper, s, OpenRead(p, dir)); s' == s || Abreast(s', s'.PhaseOf(p))
  {
    UnlockedReplay(c, skipper, s, Some(IdOf(c, skipper)));
    hide LogOf, DimsAgree, HashOf, Replayed, Fold, LockOk, PhaseOk, SizeOk;
    if dir in s.caches { assert OnRecord(c, s.history, s.caches[dir].0, s.caches[dir].1); }
  }

  lemma AbreastStep(c: Crypto, skipper: Key, s: State, a: Action, q: Pid)
    requires Inv(c, skipper, s) && Exclusive(s) && Abreast(s, s.PhaseOf(q))
    ensures Abreast(Do(c, skipper, s, a), Do(c, skipper, s, a).PhaseOf(q))
  {
    hide Do, Inv, Undisturbed, Regressed;
    var s' := Do(c, skipper, s, a);
    var ph := s'.PhaseOf(q);
    if a.OpenRead? { ReadIsAbreast(c, skipper, s, a.p, a.dir); }
    if ph.Opening? {
      CacheStep(c, skipper, s, a, ph.dir);
      if ph != s.PhaseOf(q) { OpeningStep(c, skipper, s, a, q); }
      assert OpeningIn(s, q, ph.dir) && OpeningIn(s, a.p, ph.dir) ==> q == a.p;
    }
  }

  lemma AbreastPasses(c: Crypto, skipper: Key, s: State, p: Pid)
    requires Inv(c, skipper, s) && s.PhaseOf(p).Opening? && Abreast(s, s.PhaseOf(p))
    ensures var ph := s.PhaseOf(p); !Regressed(s.Cached(ph.dir), ph.seqNo, ph.hash)
  {
    InvOpening(c, skipper, s, p);
    hide Inv, HashOf;
  }

  /** With atomic opens no run of founds, admits, revokes, compactions, crashes and opens
      ever raises a false alarm. */
  lemma {:induction false} AtomicOpensNeverAlarm(c: Crypto, skipper: Key, acts: seq<Action>)
    requires Untampered(acts) && RunVerifies(c, skipper, acts) && AtomicOpens(c, skipper, acts)
    ensures var s := After(c, skipper, acts); s.alarms == 0 && forall q: Pid :: Abreast(s, s.PhaseOf(q))
  {
    if acts == [] {
    } else {
      var init, a := acts[..|acts| - 1], acts[|acts| - 1];
      RunPrefix(c, skipper, init, acts);
      AtomicOpensNeverAlarm(c, skipper, init);
      AtomicOpensExclude(c, skipper, init);
      Reachable(c, skipper, init);
      hide Do, Inv, Exclusive, Abreast;
      var s := After(c, skipper, init);
      CountersStep(c, skipper, s, a);
      if s.PhaseOf(a.p).Opening? { AbreastPasses(c, skipper, s, a.p); }
      forall q: Pid ensures Abreast(Do(c, skipper, s, a), Do(c, skipper, s, a).PhaseOf(q)) {
        AbreastStep(c, skipper, s, a, q);
      }
    }
  }

  // ---- which head a store leaves ----

  /** The open of `q` compared head `head` at step `l` with what directory `d` remembered then,
      passed, and wrote the temporary file at step `w`, which has not been touched since. */
  ghost predicate StagedBy(c: Crypto, skipper: Key, acts: seq<Action>, d: Dir, head: (nat, Digest), q: Pid, l: nat,
                           w: nat) {
    && l < w < |acts| && acts[l] == OpenCheck(q) && acts[w] == OpenStage(q)
    && !Regressed(After(c, skipper, acts[..l]).Cached(d), head.0, head.1)
    && (forall k :: l < k <= w ==> After(c, skipper, acts[..k]).PhaseOf(q) == Opening(d, head.0, head.1, Checked))
    && (forall k :: w < k <= |acts| ==> After(c, skipper, acts[..k]).Temp(d) == Some(head))
  }

  /** An open that has passed its check did so at step `l` and has waited since. */
  lemma {:induction false} CheckedStory(c: Crypto, skipper: Key, acts: seq<Action>, q: Pid, ph: Phase)
      returns (l: nat)
    requires ph.At(Checked) && After(c, skipper, acts).PhaseOf(q) == ph
    ensures l < |acts| && acts[l] == OpenCheck(q)
    ensures !Regressed(After(c, skipper, acts[..l]).Cached(ph.dir), ph.seqNo, ph.hash)
    ensures forall k :: l < k <= |acts| ==> After(c, skipper, acts[..k]).PhaseOf(q) == ph
  {
    hide Do, Regressed;
    assert acts != [] by { assert After(c, skipper, []) == Init; }
    var n := |acts| - 1;
    var s := After(c, skipper, acts[..n]);
    assert acts[..n + 1] == acts;
    if s.PhaseOf(q) == ph {
      l := CheckedStory(c, skipper, acts[..n], q, ph);
      hide After;
      forall k | 0 <= k <= n ensures acts[..n][..k] == acts[..k] { PrefixOfPrefix(acts, k, n); }
    } else {
      l := n;
      OpeningStep(c, skipper, s, acts[n], q);
    }
  }

  /** Whatever stands in a temporary file was put there by an open that passed its check. */
  lemma {:induction false} TempStory(c: Crypto, skipper: Key, acts: seq<Action>, d: Dir, head: (nat, Digest))
      returns (q: Pid, l: nat, w: nat)
    requires After(c, skipper, acts).Temp(d) == Some(head)
    ensures StagedBy(c, skipper, acts, d, head, q, l, w)
  {
    hide Do, Regressed;
    assert acts != [] by { assert After(c, skipper, []) == Init; }
    var n := |acts| - 1;
    var s, a := After(c, skipper, acts[..n]), acts[n];
    assert acts[..n + 1] == acts;
    forall k | 0 <= k <= n ensures acts[..n][..k] == acts[..k] { PrefixOfPrefix(acts, k, n); }
    CacheStep(c, skipper, s, a, d);
    hide After;
    if StagesIn(s, a, d) {
      q, w := a.p, n;
      l := CheckedStory(c, skipper, acts[..n], q, s.PhaseOf(q));
    } else {
      q, l, w := TempStory(c, skipper, acts[..n], d, head);
    }
  }

  /** Step `m` is the last that stored a head in directory `d`, and stored `head`. */
  ghost predicate LastStore(c: Crypto, skipper: Key, acts: seq<Action>, d: Dir, head: (nat, Digest), m: nat) {
    && m < |acts| && StoresIn(After(c, skipper, acts[..m]), acts[m], d)
    && After(c, skipper, acts[..m]).Temp(d) == Some(head) && After(c, skipper, acts[..m + 1]).Temp(d) == None
    && (forall k :: m < k < |acts| ==> !StoresIn(After(c, skipper, acts[..k]), acts[k], d))
    && (forall k :: m < k <= |acts| ==> After(c, skipper, acts[..k]).Cached(d) == Some(head))
  }

  lemma {:induction false} LastStoreExtends(c: Crypto, skipper: Key, acts: seq<Action>, d: Dir, head: (nat, Digest),
                                            m: nat)
    requires acts != [] && LastStore(c, skipper, acts[..|acts| - 1], d, head, m)
    requires !StoresIn(After(c, skipper, acts[..|acts| - 1]), acts[|acts| - 1], d)
    requires After(c, skipper, acts).Cached(d) == Some(head)
    ensures LastStore(c, skipper, acts, d, head, m)
  {
    hide After, StoresIn;
    var n := |acts| - 1;
    assert acts[..n + 1] == acts;
    forall k | 0 <= k <= n ensures acts[..n][..k] == acts[..k] { PrefixOfPrefix(acts, k, n); }
  }

  /** What a directory remembers was stored there by some last store. */
  lemma {:induction false} StoreStory(c: Crypto, skipper: Key, acts: seq<Action>, d: Dir, head: (nat, Digest))
      returns (m: nat)
    requires After(c, skipper, acts).Cached(d) == Some(head)
    ensures LastStore(c, skipper, acts, d, head, m)
  {
    hide Do, StoresIn;
    assert acts != [] by { assert After(c, skipper, []) == Init; }
    var n := |acts| - 1;
    var s, a := After(c, skipper, acts[..n]), acts[n];
    assert acts[..n + 1] == acts;
    CacheStep(c, skipper, s, a, d);
    LastIsDo(c, skipper, acts);
    hide After;
    if StoresIn(s, a, d) {
      m := n;
    } else {
      hide LastStore;
      m := StoreStory(c, skipper, acts[..n], d, head);
      LastStoreExtends(c, skipper, acts, d, head, m);
    }
  }

  /** Between the check of the open that wrote `head` at step `l` and its writing the temporary
      file at step `w`, another open was the last to store a head, and that was a higher one. */
  ghost predicate Overtaken(c: Crypto, skipper: Key, acts: seq<Action>, d: Dir, head: (nat, Digest), q: Pid, l: nat,
                            w: nat) {
    exists m: nat, other: (nat, Digest) ::
      LastStore(c, skipper, acts, d, other, m) && l < m < w && acts[m].p != q && head.0 < other.0
  }

  lemma StagedFacts(c: Crypto, skipper: Key, acts: seq<Action>, d: Dir, head: (nat, Digest), q: Pid, l: nat, w: nat,
                    k: nat)
    requires StagedBy(c, skipper, acts, d, head, q, l, w) && k <= |acts|
    ensures l < w < |acts| && acts[l] == OpenCheck(q) && acts[w] == OpenStage(q)
    ensures !Regressed(After(c, skipper, acts[..l]).Cached(d), head.0, head.1)
    ensures l < k <= w ==> After(c, skipper, acts[..k]).PhaseOf(q) == Opening(d, head.0, head.1, Checked)
    ensures w < k ==> After(c, skipper, acts[..k]).Temp(d) == Some(head)
  {
    hide After;
  }

  lemma StoreFacts(c: Crypto, skipper: Key, acts: seq<Action>, d: Dir, head: (nat, Digest), m: nat, k: nat)
    requires LastStore(c, skipper, acts, d, head, m) && k <= |acts|
    ensures m < |acts| && StoresIn(After(c, skipper, acts[..m]), acts[m], d)
    ensures After(c, skipper, acts[..m + 1]).Temp(d) == None
    ensures m < k ==> After(c, skipper, acts[..k]).Cached(d) == Some(head)
  {
    hide After;
  }

  lemma StoredBetween(c: Crypto, skipper: Key, acts: seq<Action>, d: Dir, head: (nat, Digest), q: Pid, l: nat, w: nat,
                      other: (nat, Digest), m: nat)
    requires StagedBy(c, skipper, acts, d, head, q, l, w) && LastStore(c, skipper, acts, d, other, m)
    requires head.0 < other.0
    ensures l < m < w && acts[m].p != q
  {
    hide After, StagedBy, LastStore;
    StagedFacts(c, skipper, acts, d, head, q, l, w, 0);
    StoreFacts(c, skipper, acts, d, other, m, 0);
    if m < l {
      StoreFacts(c, skipper, acts, d, other, m, l);
    } else {
      StagedFacts(c, skipper, acts, d, head, q, l, w, m);
      StagedFacts(c, skipper, acts, d, head, q, l, w, m + 1);
    }
  }

  lemma OvertakenIff(c: Crypto, skipper: Key, acts: seq<Action>, d: Dir, head: (nat, Digest), q: Pid, l: nat, w: nat)
    requires StagedBy(c, skipper, acts, d, head, q, l, w)
    ensures var cached := After(c, skipper, acts).Cached(d);
      Overtaken(c, skipper, acts, d, head, q, l, w) <==> cached.Some? && head.0 < cached.value.0
  {
    hide After, StagedBy, LastStore, StoresIn;
    var cached := After(c, skipper, acts).Cached(d);
    assert acts[..|acts|] == acts;
    if cached.Some? && head.0 < cached.value.0 {
      var m := StoreStory(c, skipper, acts, d, cached.value);
      StoredBetween(c, skipper, acts, d, head, q, l, w, cached.value, m);
    }
    if Overtaken(c, skipper, acts, d, head, q, l, w) {
      var m: nat, other: (nat, Digest) :| LastStore(c, skipper, acts, d, other, m) && head.0 < other.0;
      StoreFacts(c, skipper, acts, d, other, m, |acts|);
    }
  }

  /** In any run, tampered with or not, a store leaves the head of the last open to have written
      the temporary file, and lowers the remembered height exactly when another open was the
      last to store since that one's check, and stored a higher head. */
  lemma StoreLowersIff(c: Crypto, skipper: Key, acts: seq<Action>, p: Pid, d: Dir)
      returns (q: Pid, l: nat, w: nat, head: (nat, Digest))
    requires StoresIn(After(c, skipper, acts), OpenStore(p), d)
    ensures StagedBy(c, skipper, acts, d, head, q, l, w)
    ensures var s, s' := After(c, skipper, acts), After(c, skipper, acts + [OpenStore(p)]);
      && s'.Cached(d) == Some(head)
      && (d in s.caches && s'.caches[d].0 < s.caches[d].0 <==> Overtaken(c, skipper, acts, d, head, q, l, w))
  {
    var s := After(c, skipper, acts);
    head := s.temps[d];
    AfterSnoc(c, skipper, acts, OpenStore(p));
    CacheStep(c, skipper, s, OpenStore(p), d);
    hide After, Do, StagedBy, StoresIn, Overtaken;
    q, l, w := TempStory(c, skipper, acts, d, head);
    OvertakenIff(c, skipper, acts, d, head, q, l, w);
  }

  // ---- overlapping opens ----

  /** An open of directory 0 by process 2, an append, and another open by process 3: both have
      read the log, and neither has checked what it read. */
  function OverlappingReads(dim: U32, at: I64, t: TenantId): seq<Action> {
    Call(1, Found(dim, at), at) + [OpenRead(2, 0)] + Call(1, Append(Revoke(t, at, None)), at) + [OpenRead(3, 0)]
  }

  lemma OpenReadsHead(c: Crypto, skipper: Key, s: State, p: Pid, dir: Dir)
    requires Inv(c, skipper, s) && s.PhaseOf(p).Idle? && s.log != []
    ensures var s' := Do(c, skipper, s, OpenRead(p, dir));
      && s'.PhaseOf(p).At(Unchecked) && s'.PhaseOf(p).dir == dir && s'.PhaseOf(p).seqNo + 1 == |s.history|
      && s' == s.Set(p, s'.PhaseOf(p))
  {
    var id := Some(IdOf(c, skipper));
    UnlockedReplay(c, skipper, s, id);
    hide Inv, Replayed, HashOf, Fold, IdOf;
    var head := Replayed(c, s.log, id).value;
    assert head.seqNo == |s.history| - 1;
    assert Do(c, skipper, s, OpenRead(p, dir)) == s.Set(p, Opening(dir, head.seqNo, head.hash, Unchecked));
  }

  /** Two opens of a directory that remembers nothing have read the two heads of the log. */
  predicate TwoOpen(s: State) {
    && s.PhaseOf(2).At(Unchecked) && s.PhaseOf(2).dir == 0 && s.PhaseOf(2).seqNo == 0
    && s.PhaseOf(3).At(Unchecked) && s.PhaseOf(3).dir == 0 && s.PhaseOf(3).seqNo == 1
    && s.caches == map[] && s.temps == map[] && s.alarms == 0 && |s.history| == 2
  }

  lemma TwoHeadsRead(c: Crypto, skipper: Key, s0: State, s1: State, s2: State, s3: State, s4: State, dim: U32,
                     at: I64, t: TenantId)
    requires Inv(c, skipper, s0) && Inv(c, skipper, s1) && Inv(c, skipper, s2) && Inv(c, skipper, s3) && s0 == Init
    requires s1 == Called(c, skipper, s0, 1, Found(dim, at), at)
    requires s2 == Do(c, skipper, s1, OpenRead(2, 0))
    requires s3 == Called(c, skipper, s2, 1, Append(Revoke(t, at, None)), at)
    requires s4 == Do(c, skipper, s3, OpenRead(3, 0))
    ensures TwoOpen(s4)
  {
    hide Called, Do, Inv;
    CallAppends(c, skipper, s0, 1, Found(dim, at), at);
    assert s1.PhaseOf(2) == s1.PhaseOf(3) == Idle;
    OpenReadsHead(c, skipper, s1, 2, 0);
    assert s2.PhaseOf(3) == Idle && s2.PhaseOf(1) == s1.PhaseOf(1);
    CallAppends(c, skipper, s2, 1, Append(Revoke(t, at, None)), at);
    assert s3.PhaseOf(3) == Idle;
    OpenReadsHead(c, skipper, s3, 3, 0);
  }

  lemma ReadsOverlap(c: Crypto, skipper: Key, dim: U32, at: I64, t: TenantId)
    requires RunVerifies(c, skipper, OverlappingReads(dim, at, t))
    ensures Untampered(OverlappingReads(dim, at, t)) && TwoOpen(After(c, skipper, OverlappingReads(dim, at, t)))
  {
    hide Do, Inv, Called;
    var f, r := Call(1, Found(dim, at), at), Call(1, Append(Revoke(t, at, None)), at);
    var r1 := [] + f;
    var r2 := r1 + [OpenRead(2, 0)];
    var r3 := r2 + r;
    var run := OverlappingReads(dim, at, t);
    assert run == r3 + [OpenRead(3, 0)];
    assert Untampered(run);
    assert r1 <= run && r2 <= run && r3 <= run;
    hide Call, OverlappingReads;
    RunPrefix(c, skipper, r1, run);
    RunPrefix(c, skipper, r2, run);
    RunPrefix(c, skipper, r3, run);
    Reachable(c, skipper, []);
    Reachable(c, skipper, r1);
    Reachable(c, skipper, r2);
    Reachable(c, skipper, r3);
    AfterCall(c, skipper, [], 1, Found(dim, at), at);
    AfterSnoc(c, skipper, r1, OpenRead(2, 0));
    AfterCall(c, skipper, r2, 1, Append(Revoke(t, at, None)), at);
    AfterSnoc(c, skipper, r3, OpenRead(3, 0));
    assert After(c, skipper, []) == Init;
    hide After;
    var s1, s2, s3 := After(c, skipper, r1), After(c, skipper, r2), After(c, skipper, r3);
    TwoHeadsRead(c, skipper, Init, s1, s2, s3, After(c, skipper, run), dim, at, t);
  }

  /** The rest of an open, after its read. */
  function FinishOpen(p: Pid): seq<Action> { [OpenCheck(p)] + [OpenStage(p)] + [OpenStore(p)] }

  function Finish(c: Crypto, skipper: Key, s: State, p: Pid): State {
    Do(c, skipper, Do(c, skipper, Do(c, skipper, s, OpenCheck(p)), OpenStage(p)), OpenStore(p))
  }

  lemma AfterFinish(c: Crypto, skipper: Key, acts: seq<Action>, p: Pid)
    ensures After(c, skipper, acts + FinishOpen(p)) == Finish(c, skipper, After(c, skipper, acts), p)
  {
    hide Do, After;
    var a1 := acts + [OpenCheck(p)];
    var a2 := a1 + [OpenStage(p)];
    assert acts + FinishOpen(p) == a2 + [OpenStore(p)];
    AfterSnoc(c, skipper, acts, OpenCheck(p));
    AfterSnoc(c, skipper, a1, OpenStage(p));
    AfterSnoc(c, skipper, a2, OpenStore(p));
  }

  lemma LateCheckAlarms(c: Crypto, skipper: Key, s: State)
    requires TwoOpen(s)
    ensures Do(c, skipper, Finish(c, skipper, s, 3), OpenCheck(2)).alarms == 1
  {
  }

  /** Atomicity is needed: when two opens of one directory overlap, an honest open is
      refused with `ChainRegressed`. */
  lemma OverlappingOpensAlarm(c: Crypto, skipper: Key, dim: U32, at: I64, t: TenantId)
    requires RunVerifies(c, skipper, OverlappingReads(dim, at, t))
    ensures After(c, skipper, OverlappingReads(dim, at, t) + FinishOpen(3) + [OpenCheck(2)]).alarms == 1
  {
    var overlap := OverlappingReads(dim, at, t);
    ReadsOverlap(c, skipper, dim, at, t);
    AfterFinish(c, skipper, overlap, 3);
    AfterSnoc(c, skipper, overlap + FinishOpen(3), OpenCheck(2));
    hide After, Finish, OverlappingReads, FinishOpen, TwoOpen, Do;
    LateCheckAlarms(c, skipper, After(c, skipper, overlap));
  }

  lemma LateStoreLowers(c: Crypto, skipper: Key, s: State)
    requires TwoOpen(s)
    ensures var high := Finish(c, skipper, Do(c, skipper, s, OpenCheck(2)), 3);
      var low := Do(c, skipper, Do(c, skipper, high, OpenStage(2)), OpenStore(2));
      && high.Cached(0) == Some((1, s.PhaseOf(3).hash)) && high.history == s.history
      && low.Cached(0) == Some((0, s.PhaseOf(2).hash)) && low.history == s.history && low.alarms == 0
  {
  }

  /** The later of two overlapping stores takes back what the earlier one had remembered: the
      head that a whole log of two links ends in was stored, yet in the end a log cut back to its
      genesis is let through. */
  lemma OverlappingStoresLower(c: Crypto, skipper: Key, dim: U32, at: I64, t: TenantId)
    requires RunVerifies(c, skipper, OverlappingReads(dim, at, t))
    ensures var checked := OverlappingReads(dim, at, t) + [OpenCheck(2)];
      var high := After(c, skipper, checked + FinishOpen(3));
      var low := After(c, skipper, checked + FinishOpen(3) + [OpenStage(2)] + [OpenStore(2)]);
      && |low.history| == 2 && low.history == high.history && low.alarms == 0
      && high.Cached(0) == Some((1, HashOf(c, high.history[1])))
      && low.Cached(0) == Some((0, HashOf(c, low.history[0])))
      && Regressed(high.Cached(0), 0, HashOf(c, low.history[0]))
      && !Regressed(low.Cached(0), 0, HashOf(c, low.history[0]))
  {
    var overlap := OverlappingReads(dim, at, t);
    var checked := overlap + [OpenCheck(2)];
    var stored := checked + FinishOpen(3);
    ReadsOverlap(c, skipper, dim, at, t);
    Reachable(c, skipper, overlap);
    AfterSnoc(c, skipper, overlap, OpenCheck(2));
    AfterFinish(c, skipper, checked, 3);
    AfterSnoc(c, skipper, stored, OpenStage(2));
    AfterSnoc(c, skipper, stored + [OpenStage(2)], OpenStore(2));
    hide After, Finish, OverlappingReads, FinishOpen, Do, Inv;
    var s := After(c, skipper, overlap);
    LateStoreLowers(c, skipper, s);
    InvOpening(c, skipper, s, 2);
    InvOpening(c, skipper, s, 3);
    hide HashOf;
  }
}
