/** Two runs in which the skipper signs on a log that others have rewritten, and a model of the
    assumptions under which that is harmful. */
module Attacks {
  import opened Wire
  import opened Wrappers
  import opened Records
  import opened Members
  import opened Chain
  import opened History
  import opened Registry
  import opened Protocol
  import opened Guarantees
  import opened Tampering

  lemma WriteFounds(c: Crypto, skipper: Key, s: State, p: Pid, op: Op, at: I64)
    requires op.Found?
    ensures var s', g := WriteStep(c, skipper, s, p, op, [], at), FirstLink(c, skipper, op.dim, op.at);
      && s'.log == s.log + [g] && s'.history == s.history + [g]
      && s'.PhaseOf(p) == Finished(op, false) && SameElsewhere(s, s', p)
  {
    hide FirstLink;
  }

  lemma FoundCall(c: Crypto, skipper: Key, s: State, p: Pid, dim: U32, at: I64)
    requires s.lock == None && s.PhaseOf(p).Idle? && s.log == []
    ensures var s', g := Called(c, skipper, s, p, Found(dim, at), at), FirstLink(c, skipper, dim, at);
      s'.log == [g] && s'.history == s.history + [g] && s'.lock == None && s'.PhaseOf(p).Idle?
  {
    var op := Found(dim, at);
    var held := ReadBy(c, skipper, s, p, op);
    CallReads(c, skipper, s, p, op);
    hide FirstLink, Replayed, ReadBy, SameElsewhere;
    WriteFounds(c, skipper, held, p, op, at);
    CallEnds(c, skipper, s, held, p, op, at);
  }

  lemma AppendCall(c: Crypto, skipper: Key, s: State, p: Pid, body: Body, at: I64, head: Head)
    requires s.lock == None && s.PhaseOf(p).Idle? && body.Revoke? && |s.log| < CHECKPOINT_AFTER_LINKS
    requires Replayed(c, s.log, None) == Success(head)
    ensures var s', l := Called(c, skipper, s, p, Append(body), at), NextLink(c, skipper, head, body);
      s'.log == s.log + [l] && s'.history == s.history + [l] && s'.lock == None && s'.PhaseOf(p).Idle?
  {
    hide NextLink, Replayed;
  }

  lemma WriteCollapses(c: Crypto, skipper: Key, s: State, p: Pid, chain: seq<Link>, at: I64, head: Head)
    requires |chain| > 1 && Replayed(c, chain, None) == Success(head)
    ensures var s', l := WriteStep(c, skipper, s, p, Compact, chain, at),
                         NextLink(c, skipper, head, SnapshotOfHead(head, at));
      && s'.log == [l] && s'.history == s.history + [l]
      && s'.PhaseOf(p) == Finished(Compact, false) && SameElsewhere(s, s', p)
  {
    hide NextLink, Replayed, SnapshotOfHead;
  }

  lemma CompactCall(c: Crypto, skipper: Key, s: State, p: Pid, at: I64, head: Head)
    requires s.lock == None && s.PhaseOf(p).Idle? && |s.log| > 1
    requires Replayed(c, s.log, None) == Success(head)
    ensures var s', l := Called(c, skipper, s, p, Compact, at), NextLink(c, skipper, head, SnapshotOfHead(head, at));
      s'.log == [l] && s'.history == s.history + [l]
  {
    var held := ReadBy(c, skipper, s, p, Compact);
    CallReads(c, skipper, s, p, Compact);
    hide NextLink, Replayed, SnapshotOfHead, ReadBy, SameElsewhere;
    WriteCollapses(c, skipper, held, p, s.log, at, head);
    CallEnds(c, skipper, s, held, p, Compact, at);
  }

  /** The file is cut back to its genesis after one revoke; then the skipper revokes twice
      more. */
  function RollbackRun(c: Crypto, skipper: Key, dim: U32, at: I64, t: TenantId, u: TenantId, v: TenantId): seq<Action> {
    Call(1, Found(dim, at), at) + Call(1, Append(Revoke(t, at, None)), at)
    + [Tamper(0, [FirstLink(c, skipper, dim, at)])]
    + Call(1, Append(Revoke(u, at, None)), at) + Call(1, Append(Revoke(v, at, None)), at)
  }

  lemma GenesisHead(c: Crypto, skipper: Key, dim: U32, at: I64)
    requires AllVerify(c, [FirstLink(c, skipper, dim, at)])
    ensures var g := FirstLink(c, skipper, dim, at);
      && Replayed(c, [g], None) == Success(Head(skipper, dim, map[], 0, HashOf(c, g)))
      && Replayed(c, [g], Some(IdOf(c, skipper))) == Replayed(c, [g], None)
  {
    var g := FirstLink(c, skipper, dim, at);
    hide Genesis.Canonical, Link.Canonical, Framed;
    assert c.verifies([g][0].signedBy, MessageOf([g][0]), [g][0].sig);
  }

  /** The head after a revoke signed on a log of the skipper's. */
  lemma NextHead(c: Crypto, skipper: Key, log: seq<Link>, expected: Option<HansaId>, head: Head, body: Body)
    requires Replayed(c, log, expected) == Success(head) && head.skipper == skipper && body.Revoke?
    requires AllVerify(c, [NextLink(c, skipper, head, body)])
    ensures var l := NextLink(c, skipper, head, body);
      Replayed(c, log + [l], expected)
      == Success(Head(skipper, head.embeddingDim, Apply(head.active, body), head.seqNo + 1, HashOf(c, l)))
  {
    var l := NextLink(c, skipper, head, body);
    NextVerifies(c, skipper, head, body);
    AppendedBody(c, skipper, head, body);
    ReplayedSnoc(c, log, l, expected, head);
    assert l.seqNo == head.seqNo + 1 && l.prev == head.hash && l.signedBy == skipper;
    hide Replayed, NextLink, LinkVerifies, HashOf, Apply;
  }

  lemma RollbackStart(c: Crypto, skipper: Key, s1: State, s2: State, s3: State, dim: U32, at: I64, bt: Body)
    requires s1 == Called(c, skipper, Init, 1, Found(dim, at), at) && s2 == Called(c, skipper, s1, 1, Append(bt), at)
    requires s3 == Do(c, skipper, s2, Tamper(0, [FirstLink(c, skipper, dim, at)])) && bt.Revoke?
    requires AllVerify(c, s1.history)
    ensures var g := FirstLink(c, skipper, dim, at); var h0 := Head(skipper, dim, map[], 0, HashOf(c, g));
      && s3.history == [g, NextLink(c, skipper, h0, bt)] && s3.log == [g]
      && s3.lock == None && s3.PhaseOf(1).Idle? && AllVerify(c, [g])
  {
    var g := FirstLink(c, skipper, dim, at);
    var h0 := Head(skipper, dim, map[], 0, HashOf(c, g));
    hide Called, Do, Replayed, NextLink, FirstLink, HashOf, AllVerify;
    FoundCall(c, skipper, Init, 1, dim, at);
    assert s1.history == [] + [g] == [g];
    GenesisHead(c, skipper, dim, at);
    AppendCall(c, skipper, s1, 1, bt, at, h0);
    TamperedState(c, skipper, s2, [g]);
    assert [g] + [NextLink(c, skipper, h0, bt)] == [g, NextLink(c, skipper, h0, bt)];
  }

  lemma OneMore<T>(a: T, b: T, c: T, d: T)
    ensures [a] + [c] == [a, c] && [a, b] + [c] == [a, b, c]
    ensures [a, c] + [d] == [a, c, d] && [a, b, c] + [d] == [a, b, c, d]
  {
  }

  lemma RollbackEnd(c: Crypto, skipper: Key, s3: State, s4: State, s5: State, g: Link, dropped: Link, h0: Head,
                    at: I64, bu: Body, bv: Body)
    requires s3.log == [g] && s3.history == [g, dropped] && s3.lock == None && s3.PhaseOf(1).Idle?
    requires Replayed(c, [g], None) == Success(h0) && h0.skipper == skipper && h0.active == map[]
    requires s4 == Called(c, skipper, s3, 1, Append(bu), at) && s5 == Called(c, skipper, s4, 1, Append(bv), at)
    requires bu.Revoke? && bv.Revoke? && AllVerify(c, s4.history) && AllVerify(c, s5.history)
    ensures var l1 := NextLink(c, skipper, h0, bu);
      var h1 := Head(skipper, h0.embeddingDim, map[], h0.seqNo + 1, HashOf(c, l1));
      var l2 := NextLink(c, skipper, h1, bv);
      && s5.history == [g, dropped, l1, l2] && s5.log == [g, l1, l2]
      && AllVerify(c, [l1]) && AllVerify(c, [l2])
  {
    var l1 := NextLink(c, skipper, h0, bu);
    var h1 := Head(skipper, h0.embeddingDim, map[], h0.seqNo + 1, HashOf(c, l1));
    hide Called, Do, Replayed, NextLink, HashOf, AllVerify, Apply;
    AppendCall(c, skipper, s3, 1, bu, at, h0);
    OneMore(g, dropped, l1, l1);
    LastVerifies(c, [g, dropped], l1);
    NextHead(c, skipper, [g], None, h0, bu);
    NothingToRevoke(bu);
    assert Replayed(c, s4.log, None) == Success(h1);
    AppendCall(c, skipper, s4, 1, bv, at, h1);
    var l2 := NextLink(c, skipper, h1, bv);
    OneMore(g, dropped, l1, l2);
    LastVerifies(c, [g, dropped, l1], l2);
  }

  /** What the file and the skipper's record hold at the end of that run. */
  lemma RollbackState(c: Crypto, skipper: Key, dim: U32, at: I64, t: TenantId, u: TenantId, v: TenantId)
    requires RunVerifies(c, skipper, RollbackRun(c, skipper, dim, at, t, u, v))
    ensures var s, g := After(c, skipper, RollbackRun(c, skipper, dim, at, t, u, v)), FirstLink(c, skipper, dim, at);
      var h0 := Head(skipper, dim, map[], 0, HashOf(c, g));
      var dropped, l1 := NextLink(c, skipper, h0, Revoke(t, at, None)), NextLink(c, skipper, h0, Revoke(u, at, None));
      var h1 := Head(skipper, dim, map[], 1, HashOf(c, l1));
      var l2 := NextLink(c, skipper, h1, Revoke(v, at, None));
      && s.history == [g, dropped, l1, l2] && s.log == [g, l1, l2]
      && AllVerify(c, [g]) && AllVerify(c, [l1]) && AllVerify(c, [l2])
  {
    var run, g := RollbackRun(c, skipper, dim, at, t, u, v), FirstLink(c, skipper, dim, at);
    var bt, bu, bv := Revoke(t, at, None), Revoke(u, at, None), Revoke(v, at, None);
    var r1 := [] + Call(1, Found(dim, at), at);
    var r2 := r1 + Call(1, Append(bt), at);
    var r3 := r2 + [Tamper(0, [g])];
    var r4 := r3 + Call(1, Append(bu), at);
    assert r4 + Call(1, Append(bv), at) == run;
    hide Call, RollbackRun, Do, Called, Replayed, NextLink, FirstLink, HashOf, AllVerify;
    assert After(c, skipper, []) == Init;
    RunPrefix(c, skipper, r1, run);
    RunPrefix(c, skipper, r4, run);
    hide After;
    AfterCall(c, skipper, [], 1, Found(dim, at), at);
    AfterCall(c, skipper, r1, 1, Append(bt), at);
    AfterSnoc(c, skipper, r2, Tamper(0, [g]));
    AfterCall(c, skipper, r3, 1, Append(bu), at);
    AfterCall(c, skipper, r4, 1, Append(bv), at);
    var s1, s2, s3, s4 := After(c, skipper, r1), After(c, skipper, r2), After(c, skipper, r3), After(c, skipper, r4);
    RollbackStart(c, skipper, s1, s2, s3, dim, at, bt);
    GenesisHead(c, skipper, dim, at);
    var h0 := Head(skipper, dim, map[], 0, HashOf(c, g));
    RollbackEnd(c, skipper, s3, s4, After(c, skipper, run), g, NextLink(c, skipper, h0, bt), h0, at, bu, bv);
  }

  lemma TamperedState(c: Crypto, skipper: Key, s: State, links: seq<Link>)
    ensures var s' := Do(c, skipper, s, Tamper(0, links));
      s'.log == links && s'.history == s.history && s'.lock == s.lock && forall p: Pid :: s'.PhaseOf(p) == s.PhaseOf(p)
  {
  }

  /** The head after two revokes of nobody. */
  lemma TwoRevokes(c: Crypto, skipper: Key, log: seq<Link>, expected: Option<HansaId>, h0: Head, bu: Body, bv: Body)
    requires Replayed(c, log, expected) == Success(h0) && h0.skipper == skipper && h0.active == map[] && |log| == 1
    requires bu.Revoke? && bv.Revoke? && AllVerify(c, [NextLink(c, skipper, h0, bu)])
    requires var h1 := Head(skipper, h0.embeddingDim, map[], h0.seqNo + 1, HashOf(c, NextLink(c, skipper, h0, bu)));
      AllVerify(c, [NextLink(c, skipper, h1, bv)])
    ensures var l1 := NextLink(c, skipper, h0, bu);
      var l2 := NextLink(c, skipper, Head(skipper, h0.embeddingDim, map[], h0.seqNo + 1, HashOf(c, l1)), bv);
      Replayed(c, [log[0], l1, l2], expected)
      == Success(Head(skipper, h0.embeddingDim, map[], h0.seqNo + 2, HashOf(c, l2)))
  {
    var l1 := NextLink(c, skipper, h0, bu);
    var h1 := Head(skipper, h0.embeddingDim, map[], h0.seqNo + 1, HashOf(c, l1));
    var l2 := NextLink(c, skipper, h1, bv);
    NothingToRevoke(bu);
    NothingToRevoke(bv);
    hide Replayed, NextLink, HashOf, AllVerify, Apply;
    NextHead(c, skipper, log, expected, h0, bu);
    assert log + [l1] == [log[0], l1] && [log[0], l1] + [l2] == [log[0], l1, l2];
    NextHead(c, skipper, [log[0], l1], expected, h1, bv);
  }

  /** A rollback that the skipper signs on is not refused: the dropped revoke is gone, the log
      replays for the pinned id, and it stands higher than the head a member remembers. */
  lemma RollbackExtended(c: Crypto, skipper: Key, dim: U32, at: I64, t: TenantId, u: TenantId, v: TenantId)
    requires RunVerifies(c, skipper, RollbackRun(c, skipper, dim, at, t, u, v)) && t != u
    ensures var s := After(c, skipper, RollbackRun(c, skipper, dim, at, t, u, v));
      var r := Replayed(c, s.log, Some(IdOf(c, skipper)));
      && |s.history| == 4 && s.history[1].body == Revoke(t, at, None)
      && r.Success? && !Regressed(Some((1, HashOf(c, s.history[1]))), r.value.seqNo, r.value.hash)
      && forall i :: 0 <= i < |s.log| ==> s.log[i].Unsigned() != s.history[1].Unsigned()
  {
    var g := FirstLink(c, skipper, dim, at);
    var id := Some(IdOf(c, skipper));
    var h0 := Head(skipper, dim, map[], 0, HashOf(c, g));
    var bt, bu, bv := Revoke(t, at, None), Revoke(u, at, None), Revoke(v, at, None);
    var l1 := NextLink(c, skipper, h0, bu);
    var h1 := Head(skipper, dim, map[], 1, HashOf(c, l1));
    hide After, RollbackRun, Replayed, HashOf, AllVerify, IdOf, FirstLink, NextLink, RunVerifies;
    assert RunVerifies(c, skipper, RollbackRun(c, skipper, dim, at, t, u, v));
    RollbackState(c, skipper, dim, at, t, u, v);
    GenesisHead(c, skipper, dim, at);
    TwoRevokes(c, skipper, [g], id, h0, bu, bv);
    DifferentLinks(c, skipper, dim, at, h0, h1, bt, bu, bv);
  }

  lemma NothingToRevoke(b: Body)
    requires b.Revoke?
    ensures Apply(map[], b) == map[]
  {
  }

  lemma DifferentLinks(c: Crypto, skipper: Key, dim: U32, at: I64, h0: Head, h1: Head, bt: Body, bu: Body, bv: Body)
    requires h0.seqNo == 0 && h1.seqNo == 1 && bt != bu
    ensures var d := NextLink(c, skipper, h0, bt);
      && d.seqNo == 1 && d.body == bt
      && FirstLink(c, skipper, dim, at).Unsigned() != d.Unsigned()
      && NextLink(c, skipper, h0, bu).Unsigned() != d.Unsigned()
      && NextLink(c, skipper, h1, bv).Unsigned() != d.Unsigned()
  {
  }

  /** Another key's log is put in the place of the file, and the skipper compacts it. */
  function ForeignRun(foreign: seq<Link>, at: I64): seq<Action> { [Tamper(0, foreign)] + Call(1, Compact, at) }

  lemma {:induction false} ReplayedKeyed(c: Crypto, links: seq<Link>, expected: Option<HansaId>)
    requires Replayed(c, links, expected).Success?
    ensures Keyed(Replayed(c, links, expected).value.active)
    decreases |links|
  {
    hide LinkVerifies, HashOf, Genesis.Canonical;
    if |links| > 1 {
      ReplayedKeyed(c, links[..|links| - 1], expected);
    } else if links[0].body.Checkpoint? {
      MapOfSound(links[0].body.members);
    }
  }

  /** Compacting does not ask whose log it is: a stranger's members come to be vouched for by
      the skipper, under the skipper's own id. */
  lemma ForeignCheckpointed(c: Crypto, skipper: Key, foreign: seq<Link>, at: I64)
    requires |foreign| > 1 && Replayed(c, foreign, None).Success?
    requires RunVerifies(c, skipper, ForeignRun(foreign, at))
    ensures var r := Replayed(c, After(c, skipper, ForeignRun(foreign, at)).log, Some(IdOf(c, skipper)));
      && r.Success? && r.value.skipper == skipper
      && r.value.active == Replayed(c, foreign, None).value.active
      && r.value.embeddingDim == Replayed(c, foreign, None).value.embeddingDim
  {
    var r0 := [] + [Tamper(0, foreign)];
    assert ForeignRun(foreign, at) == r0 + Call(1, Compact, at);
    hide Call, ForeignRun;
    AfterSnoc(c, skipper, [], Tamper(0, foreign));
    AfterCall(c, skipper, r0, 1, Compact, at);
    assert After(c, skipper, []) == Init;
    hide After, Called, HashOf;
    TamperedState(c, skipper, Init, foreign);
    var head := Replayed(c, foreign, None).value;
    ReplayedKeyed(c, foreign, None);
    CompactCall(c, skipper, After(c, skipper, r0), 1, at, head);
    hide Replayed;
    var l := NextLink(c, skipper, head, SnapshotOfHead(head, at));
    assert [] + [l] == [l];
    SnapshotReplays(c, skipper, head, at);
  }

  lemma SnapshotReplays(c: Crypto, skipper: Key, head: Head, at: I64)
    requires Keyed(head.active) && AllVerify(c, [NextLink(c, skipper, head, SnapshotOfHead(head, at))])
    ensures var r := Replayed(c, [NextLink(c, skipper, head, SnapshotOfHead(head, at))], Some(IdOf(c, skipper)));
      r.Success? && r.value.skipper == skipper && r.value.active == head.active
      && r.value.embeddingDim == head.embeddingDim
  {
    var l := NextLink(c, skipper, head, SnapshotOfHead(head, at));
    NextVerifies(c, skipper, head, SnapshotOfHead(head, at));
    MapOfSorted(head.active);
    SingleReplayed(c, [l], Some(IdOf(c, skipper)));
    hide Replayed, HashOf, LinkVerifies, Sorted, MapOf;
  }

  // ---- the assumptions can be met ----

  /** A toy hash, under which ids are keys and links hash to their signer, and signatures that
      verify for these messages only. */
  function ToyCrypto(signed: set<(Key, Bytes)>): Crypto {
    Crypto((b: Bytes) => if |b| >= 32 then b[|b| - 32..] else Zeros(32),
           (k: Key, n: Bytes, sig: Sig) => (k, n) in signed,
           (k: Key, n: Bytes) => Zeros(64))
  }

  lemma ToyIds(signed: set<(Key, Bytes)>, k: Key)
    ensures IdOf(ToyCrypto(signed), k) == k
  {
    var b := HANSA_ID_DOMAIN + k;
    assert b[|b| - 32..] == k;
  }

  lemma ToyHashes(signed: set<(Key, Bytes)>, l: Link)
    ensures HashOf(ToyCrypto(signed), l) == l.signedBy
  {
    var a := WriteBody(l.body, Writer.New().U64(l.seqNo).Fixed(l.prev)).buf;
    var b := l.Canonical();
    assert b == a + l.signedBy;
    hide WriteBody;
    assert b[|b| - 32..] == l.signedBy;
  }

  /** What is written does not depend on which signatures verify. */
  lemma ToyLinks(signed: set<(Key, Bytes)>, k: Key, dim: U32, at: I64, head: Head, body: Body)
    ensures FirstLink(ToyCrypto(signed), k, dim, at) == FirstLink(ToyCrypto({}), k, dim, at)
    ensures NextLink(ToyCrypto(signed), k, head, body) == NextLink(ToyCrypto({}), k, head, body)
  {
    ToyIds(signed, k);
    ToyIds({}, k);
    hide Genesis.Canonical, Link.Canonical, IdOf;
  }

  lemma ToyPins(signed: set<(Key, Bytes)>, skipper: Key)
    ensures PinsKey(ToyCrypto(signed), skipper)
  {
    forall k: Key ensures IdOf(ToyCrypto(signed), k) == k { ToyIds(signed, k); }
    hide IdOf;
  }

  /** A step that signs nothing changes nothing that the conditions on a run speak of. */
  lemma QuietStep(c: Crypto, skipper: Key, all: seq<Link>, acts: seq<Action>, a: Action)
    requires Do(c, skipper, After(c, skipper, acts), a).history == After(c, skipper, acts).history
    ensures Fair(c, skipper, all, acts + [a]) == Fair(c, skipper, all, acts)
    ensures AllHarmless(c, skipper, acts + [a]) == AllHarmless(c, skipper, acts)
    ensures Lineage(c, skipper, acts + [a]) == Lineage(c, skipper, acts)
  {
    assert (acts + [a])[..|acts + [a]| - 1] == acts && (acts + [a])[|acts|] == a;
    hide Do, After, Extends;
  }

  lemma SigningLast(c: Crypto, skipper: Key, all: seq<Link>, acts: seq<Action>, a: Action)
    ensures var s := After(c, skipper, acts);
      && Fair(c, skipper, all, acts + [a]) == (Fair(c, skipper, all, acts) && FairStep(c, skipper, all, s, a))
      && AllHarmless(c, skipper, acts + [a])
         == (AllHarmless(c, skipper, acts) && HarmlessStep(c, skipper, Lineage(c, skipper, acts), s, a))
      && Lineage(c, skipper, acts + [a]) == NextLine(c, skipper, Lineage(c, skipper, acts), s, a)
  {
    assert (acts + [a])[..|acts + [a]| - 1] == acts && (acts + [a])[|acts|] == a;
    hide Do, After, FairStep, HarmlessStep, NextLine;
  }

  lemma CallQuiet(c: Crypto, skipper: Key, s: State, p: Pid, op: Op)
    requires s.lock == None && s.PhaseOf(p).Idle? && !op.Append?
    ensures var s1 := Do(c, skipper, s, Begin(p, op)); var s2 := Do(c, skipper, s1, Acquire(p));
      s1.history == s2.history == ReadBy(c, skipper, s, p, op).history == s.history
    ensures ReadBy(c, skipper, s, p, op).PhaseOf(p) == Holding(op, s.log)
  {
  }

  lemma UnlockQuiet(c: Crypto, skipper: Key, s: State, p: Pid)
    ensures Do(c, skipper, s, Unlock(p)).history == s.history
  {
  }

  /** In a call only the write can sign. */
  lemma CallSigns(c: Crypto, skipper: Key, all: seq<Link>, acts: seq<Action>, p: Pid, op: Op, at: I64)
    requires var s := After(c, skipper, acts); s.lock == None && s.PhaseOf(p).Idle? && !op.Append?
    ensures var s := ReadBy(c, skipper, After(c, skipper, acts), p, op); var run := acts + Call(p, op, at);
      && Fair(c, skipper, all, run) == (Fair(c, skipper, all, acts) && FairStep(c, skipper, all, s, Write(p, at)))
      && AllHarmless(c, skipper, run)
         == (AllHarmless(c, skipper, acts) && HarmlessStep(c, skipper, Lineage(c, skipper, acts), s, Write(p, at)))
      && Lineage(c, skipper, run) == NextLine(c, skipper, Lineage(c, skipper, acts), s, Write(p, at))
  {
    var s := After(c, skipper, acts);
    CallQuiet(c, skipper, s, p, op);
    hide After, Do, Fair, AllHarmless, Lineage, FairStep, HarmlessStep, NextLine;
    var a1 := acts + [Begin(p, op)];
    var a2 := a1 + [Acquire(p)];
    var a3 := a2 + [Read(p)];
    var a4 := a3 + [Write(p, at)];
    assert acts + Call(p, op, at) == a4 + [Unlock(p)];
    AfterSnoc(c, skipper, acts, Begin(p, op));
    AfterSnoc(c, skipper, a1, Acquire(p));
    AfterSnoc(c, skipper, a2, Read(p));
    QuietStep(c, skipper, all, acts, Begin(p, op));
    QuietStep(c, skipper, all, a1, Acquire(p));
    QuietStep(c, skipper, all, a2, Read(p));
    SigningLast(c, skipper, all, a3, Write(p, at));
    UnlockQuiet(c, skipper, After(c, skipper, a4), p);
    QuietStep(c, skipper, all, a4, Unlock(p));
  }

  /** The pairs that make these links verify. */
  function Signatures(links: seq<Link>): set<(Key, Bytes)> {
    set i | 0 <= i < |links| :: (links[i].signedBy, MessageOf(links[i]))
  }

  lemma ToyVerifies(links: seq<Link>, more: seq<Link>)
    requires forall l :: l in links ==> l in more
    ensures AllVerify(ToyCrypto(Signatures(more)), links)
  {
    hide MessageOf;
    forall i | 0 <= i < |links| ensures (links[i].signedBy, MessageOf(links[i])) in Signatures(more) {
      assert links[i] in more;
    }
  }

  /** If no other links carry the skipper's name, nothing else verifies under its key. */
  lemma ToyUnforgeable(skipper: Key, signed: seq<Link>, more: seq<Link>)
    requires forall l :: l in more && l.signedBy == skipper ==> l in signed
    ensures Unforgeable(ToyCrypto(Signatures(more)), skipper, signed)
  {
    hide MessageOf;
    forall m: Bytes, s: Sig | ToyCrypto(Signatures(more)).verifies(skipper, m, s) ensures WasSigned(signed, m) {
      var i :| 0 <= i < |more| && more[i].signedBy == skipper && m == MessageOf(more[i]);
      assert more[i] in signed;
    }
  }

  lemma EmptyCopyIsFair(c: Crypto, skipper: Key, all: seq<Link>, s: State, a: Action)
    requires ChainOf(s, a) == []
    ensures FairStep(c, skipper, all, s, a)
  {
  }

  lemma RunStarts(c: Crypto, skipper: Key, all: seq<Link>)
    ensures After(c, skipper, []) == Init && Fair(c, skipper, all, []) && AllHarmless(c, skipper, [])
    ensures Lineage(c, skipper, []) == []
    ensures Init.lock == None && Init.PhaseOf(1).Idle? && Init.log == [] && Init.history == []
  {
  }

  lemma FoundingUntampered(dim: U32, at: I64)
    ensures Untampered(Call(1, Found(dim, at), at)) && Found(dim, at).Found?
  {
  }

  lemma FoundCopy(held: State, op: Op, at: I64)
    requires held.PhaseOf(1) == Holding(op, [])
    ensures ChainOf(held, Write(1, at)) == []
  {
  }

  lemma FoundingRun(c: Crypto, skipper: Key, all: seq<Link>, dim: U32, at: I64)
    ensures var run := Call(1, Found(dim, at), at);
      && Untampered(run) && After(c, skipper, run).history == [FirstLink(c, skipper, dim, at)]
      && Fair(c, skipper, all, run)
  {
    var run, g := Call(1, Found(dim, at), at), FirstLink(c, skipper, dim, at);
    assert [] + run == run && [] + [g] == [g];
    RunStarts(c, skipper, all);
    FoundingUntampered(dim, at);
    hide *;
    CallQuiet(c, skipper, Init, 1, Found(dim, at));
    AfterCall(c, skipper, [], 1, Found(dim, at), at);
    CallSigns(c, skipper, all, [], 1, Found(dim, at), at);
    FoundCopy(ReadBy(c, skipper, Init, 1, Found(dim, at)), Found(dim, at), at);
    EmptyCopyIsFair(c, skipper, all, ReadBy(c, skipper, Init, 1, Found(dim, at)), Write(1, at));
    FoundCall(c, skipper, Init, 1, dim, at);
  }

  /** The assumptions hold together in a run that founds a log; and there nothing is harmful. */
  lemma AssumptionsMet(skipper: Key, dim: U32, at: I64) returns (c: Crypto)
    ensures var run := Call(1, Found(dim, at), at);
      && Untampered(run) && |After(c, skipper, run).history| == 1 && Assumed(c, skipper, run)
      && AllHarmless(c, skipper, run) && Integrity(c, skipper, Lineage(c, skipper, run))
  {
    var g := FirstLink(ToyCrypto({}), skipper, dim, at);
    c := ToyCrypto(Signatures([g]));
    ToyLinks(Signatures([g]), skipper, dim, at, Head(skipper, dim, map[], 0, ZERO_HASH), g.body);
    ToyVerifies([g], [g]);
    ToyUnforgeable(skipper, [g], [g]);
    ToyPins(Signatures([g]), skipper);
    assert AllSized([g]);
    hide ToyCrypto, Call, After, FirstLink, Unforgeable, PinsKey, AllVerify, Signatures, AllSized, Fair, AllHarmless;
    FoundingRun(c, skipper, [g], dim, at);
    var run := Call(1, Found(dim, at), at);
    UntamperedHarmless(c, skipper, run);
    HarmlessKeepsIntegrity(c, skipper, run);
  }

  lemma NoMembers(head: Head, at: I64)
    requires head.active == map[]
    ensures SnapshotOfHead(head, at) == Checkpoint([], head.embeddingDim, at)
  {
    assert Sorted(map[]) == [];
  }

  /** A log that `other` founded and in which it then revoked someone. */
  function Foreign(c: Crypto, other: Key, dim: U32, at: I64, t: TenantId): seq<Link> {
    var g := FirstLink(c, other, dim, at);
    [g, NextLink(c, other, Head(other, dim, map[], 0, HashOf(c, g)), Revoke(t, at, None))]
  }

  lemma ForeignReplays(c: Crypto, other: Key, dim: U32, at: I64, t: TenantId)
    requires AllVerify(c, Foreign(c, other, dim, at, t))
    ensures var f := Foreign(c, other, dim, at, t);
      Replayed(c, f, None) == Success(Head(other, dim, map[], 1, HashOf(c, f[1])))
  {
    var g, b, f := FirstLink(c, other, dim, at), Revoke(t, at, None), Foreign(c, other, dim, at, t);
    assert f[..1] == [g] && [g] + [f[1]] == f;
    hide Replayed, NextLink, FirstLink, HashOf, AllVerify, Apply;
    LastVerifies(c, [g], f[1]);
    GenesisHead(c, other, dim, at);
    NextHead(c, other, [g], None, Head(other, dim, map[], 0, HashOf(c, g)), b);
    NothingToRevoke(b);
  }

  lemma CompactHarms(c: Crypto, skipper: Key, all: seq<Link>, foreign: seq<Link>, held: State, a: Action, l: Link)
    requires ChainOf(held, a) == foreign != [] && Signed(c, skipper, held, a) == Some(l) && l.body.Checkpoint?
    requires AllSized(foreign) && OnlySigned(c, skipper, held.history, foreign) && !Collide(c, foreign, all)
    ensures FairStep(c, skipper, all, held, a) && !HarmlessStep(c, skipper, [], held, a)
  {
    hide ChainOf, Signed, Sized, OnlySigned, Collide, Replayed;
  }

  /** Compacting a foreign log signs one snapshot, which starts no line and is harmful. */
  lemma {:induction false} ForeignHarm(c: Crypto, skipper: Key, all: seq<Link>, foreign: seq<Link>, head: Head, at: I64)
    requires |foreign| > 1 && Replayed(c, foreign, None) == Success(head)
    requires AllSized(foreign) && OnlySigned(c, skipper, [], foreign) && !Collide(c, foreign, all)
    ensures var run, l := ForeignRun(foreign, at), NextLink(c, skipper, head, SnapshotOfHead(head, at));
      After(c, skipper, run).history == [l] && Fair(c, skipper, all, run) && !AllHarmless(c, skipper, run)
  {
    var l := NextLink(c, skipper, head, SnapshotOfHead(head, at));
    var r0 := [] + [Tamper(0, foreign)];
    assert ForeignRun(foreign, at) == r0 + Call(1, Compact, at);
    assert [] + [l] == [l];
    RunStarts(c, skipper, all);
    AppendedBody(c, skipper, head, SnapshotOfHead(head, at));
    hide Call, ForeignRun, NextLink, Replayed, After, Fair, AllHarmless, Lineage, Called, ReadBy, Do, Sized,
         OnlySigned, Collide, FairStep, HarmlessStep, ChainOf, Signed;
    AfterSnoc(c, skipper, [], Tamper(0, foreign));
    TamperedState(c, skipper, Init, foreign);
    QuietStep(c, skipper, all, [], Tamper(0, foreign));
    var s := After(c, skipper, r0);
    AfterCall(c, skipper, r0, 1, Compact, at);
    CompactCall(c, skipper, s, 1, at, head);
    CallSigns(c, skipper, all, r0, 1, Compact, at);
    CallQuiet(c, skipper, s, 1, Compact);
    var held := ReadBy(c, skipper, s, 1, Compact);
    CompactWrites(c, skipper, s, held, at, head);
    CompactHarms(c, skipper, all, foreign, held, Write(1, at), l);
  }

  lemma CompactWrites(c: Crypto, skipper: Key, s: State, held: State, at: I64, head: Head)
    requires |s.log| > 1 && Replayed(c, s.log, None) == Success(head)
    requires held.PhaseOf(1) == Holding(Compact, s.log)
    ensures ChainOf(held, Write(1, at)) == s.log
    ensures Signed(c, skipper, held, Write(1, at)) == Some(NextLink(c, skipper, head, SnapshotOfHead(head, at)))
  {
    hide Replayed, NextLink, SnapshotOfHead;
  }

  lemma ToyForeign(signed: set<(Key, Bytes)>, other: Key, dim: U32, at: I64, t: TenantId)
    ensures Foreign(ToyCrypto(signed), other, dim, at, t) == Foreign(ToyCrypto({}), other, dim, at, t)
  {
    var c, c0 := ToyCrypto(signed), ToyCrypto({});
    hide ToyCrypto, FirstLink, NextLink, HashOf;
    var g := FirstLink(c0, other, dim, at);
    var h := Head(other, dim, map[], 0, HashOf(c0, g));
    ToyHashes(signed, g);
    ToyHashes({}, g);
    ToyLinks(signed, other, dim, at, h, Revoke(t, at, None));
  }

  lemma ForeignShape(c: Crypto, other: Key, dim: U32, at: I64, t: TenantId)
    ensures var f := Foreign(c, other, dim, at, t);
      |f| == 2 && AllSized(f) && f[0].signedBy == other && f[1].signedBy == other
  {
    hide Genesis.Canonical, Link.Canonical, Framed, HashOf;
  }

  lemma SnapshotShape(c: Crypto, skipper: Key, head: Head, at: I64)
    requires head.active == map[] && head.seqNo == 1
    ensures var l := NextLink(c, skipper, head, SnapshotOfHead(head, at));
      l.signedBy == skipper && AllSized([l]) && l.body.Checkpoint?
  {
    NoMembers(head, at);
    hide Link.Canonical, Framed, SnapshotOfHead;
  }

  /** Links of different signers do not collide under the toy hash. */
  lemma ToyApart(signed: set<(Key, Bytes)>, foreign: seq<Link>, all: seq<Link>)
    requires forall k, l :: k in foreign && l in all ==> k.signedBy != l.signedBy
    ensures !Collide(ToyCrypto(signed), foreign, all)
  {
    var c := ToyCrypto(signed);
    hide ToyCrypto, HashOf, Link.Canonical;
    forall i, j | 0 <= i < |foreign| && 0 <= j < |all| ensures !Collision(c, foreign[i], all[j]) {
      ToyHashes(signed, foreign[i]);
      ToyHashes(signed, all[j]);
      assert foreign[i] in foreign && all[j] in all;
    }
  }

  lemma NotOwn(c: Crypto, skipper: Key, links: seq<Link>)
    requires forall i :: 0 <= i < |links| ==> links[i].signedBy != skipper
    ensures OnlySigned(c, skipper, [], links)
  {
  }

  /** And in one that compacts a foreign log, where the skipper's signing is harmful and
      integrity is lost: so both sides of `Tampering.IntegrityIff` can fail. */
  lemma HarmMet(skipper: Key, other: Key, dim: U32, at: I64, t: TenantId)
      returns (c: Crypto, foreign: seq<Link>)
    requires other != skipper
    ensures var run := ForeignRun(foreign, at);
      && Assumed(c, skipper, run) && !AllHarmless(c, skipper, run)
      && !Integrity(c, skipper, Lineage(c, skipper, run))
  {
    foreign := Foreign(ToyCrypto({}), other, dim, at, t);
    ForeignShape(ToyCrypto({}), other, dim, at, t);
    hide ToyCrypto, Foreign, HashOf, Replayed, NextLink, SnapshotOfHead, AllSized, AllVerify, OnlySigned, Collide,
         Signatures, ForeignRun, After, Fair, AllHarmless, Lineage, PinsKey, Unforgeable, Integrity;
    var head := Head(other, dim, map[], 1, other);
    var body := SnapshotOfHead(head, at);
    var l := NextLink(ToyCrypto({}), skipper, head, body);
    SnapshotShape(ToyCrypto({}), skipper, head, at);
    var more := foreign + [l];
    var sigs := Signatures(more);
    c := ToyCrypto(sigs);
    ToyForeign(sigs, other, dim, at, t);
    ToyLinks(sigs, skipper, dim, at, head, body);
    ToyHashes(sigs, foreign[1]);
    ToyVerifies(foreign, more);
    ToyVerifies([l], more);
    ForeignReplays(c, other, dim, at, t);
    NotOwn(c, skipper, foreign);
    ToyApart(sigs, foreign, [l]);
    ForeignHarm(c, skipper, [l], foreign, head, at);
    ToyUnforgeable(skipper, [l], more);
    ToyPins(sigs, skipper);
    IntegrityIff(c, skipper, ForeignRun(foreign, at));
  }
}
