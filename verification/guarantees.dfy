/** What every interleaving of the registry protocol guarantees. */
module Guarantees {
  import opened Wire
  import opened Wrappers
  import opened Records
  import opened Members
  import opened Chain
  import opened History
  import opened Registry
  import opened Protocol
  import opened Seqs

  lemma WholeHead(c: Crypto, skipper: Key, h: seq<Link>)
    requires h != [] && h[0].body.Founding?
    ensures HeadAt(c, skipper, h, |h|)
         == Head(skipper, h[0].body.genesis.embeddingDim, Fold(map[], h), |h| - 1, HashOf(c, h[|h| - 1]))
  {
    assert h[..|h|] == h;
  }

  /** A reader without the lock, at any moment of any run, finds no log or one that
      verifies for the pinned id and carries the members of the whole history. */
  lemma {:induction false} EveryReaderVerifies(c: Crypto, skipper: Key, acts: seq<Action>, expected: Option<HansaId>)
    requires Untampered(acts) && RunVerifies(c, skipper, acts) && Pins(c, skipper, expected)
    ensures var s := After(c, skipper, acts);
      s.log != [] ==>
        && s.history != [] && s.history[0].body.Founding?
        && Replayed(c, s.log, expected)
           == Success(Head(skipper, s.history[0].body.genesis.embeddingDim, Fold(map[], s.history),
                           |s.history| - 1, HashOf(c, s.history[|s.history| - 1])))
  {
    hide *;
    var s := After(c, skipper, acts);
    Reachable(c, skipper, acts);
    UnlockedReplay(c, skipper, s, expected);
    if s.log != [] { WholeHead(c, skipper, s.history); }
  }

  /** Writers never fork: racing founders leave one genesis, every link ever written has
      its index as sequence number and the hash of the link before it, and the log is the
      end of that one chain. */
  lemma WritersNeverFork(c: Crypto, skipper: Key, acts: seq<Action>)
    requires Untampered(acts) && RunVerifies(c, skipper, acts)
    ensures var s := After(c, skipper, acts);
      && |s.log| <= |s.history|
      && s.log == s.history[|s.history| - |s.log|..]
      && (s.log == [] <==> s.history == [])
      && (forall i :: 0 <= i < |s.history| ==>
            s.history[i].seqNo == i && (s.history[i].body.Founding? <==> i == 0))
      && (forall i :: 1 <= i < |s.history| ==> s.history[i].prev == HashOf(c, s.history[i - 1]))
  {
    Reachable(c, skipper, acts);
    hide HashOf, LinkVerifies, Root, Fold, After;
    var s := After(c, skipper, acts);
    if s.log != [] {
      forall i | 0 <= i < |s.history|
        ensures s.history[i].seqNo == i && (s.history[i].body.Founding? <==> i == 0)
      {
        SeqIsIndex(c, skipper, s.history, i);
      }
      forall i | 1 <= i < |s.history| ensures s.history[i].prev == HashOf(c, s.history[i - 1]) {
        assert Recorded(c, skipper, s.history, i);
      }
    }
  }

  /** What a process in this phase may have signed. */
  predicate AskedToSign(ph: Phase, b: Body) {
    match ph
    case Holding(Found(dim, at), _) => b.Founding? && b.genesis.embeddingDim == dim && b.genesis.createdAt == at
    case Holding(Append(body), _) => b == body
    case Holding(Compact, _) => b.Checkpoint?
    case Collapsing(op, _) => b.Checkpoint?
    case _ => false
  }

  predicate SignsAsAsked(h: seq<Link>, h': seq<Link>, ph: Phase) {
    h' != h ==> |h'| == |h| + 1 && AskedToSign(ph, h'[|h|].body)
  }

  lemma CollapseSignsSnapshot(c: Crypto, skipper: Key, s: State, p: Pid, op: Op, chain: seq<Link>, at: I64, ph: Phase)
    requires ph == Holding(Compact, chain) || ph == Collapsing(op, chain)
    ensures SignsAsAsked(s.history, Collapse(c, skipper, s, p, op, chain, at).history, ph)
  {
    hide Replayed, Sorted, NextLink;
    var r := Replayed(c, chain, None);
    if r.Success? { AppendedBody(c, skipper, r.value, SnapshotOfHead(r.value, at)); }
  }

  lemma WriteSignsAsAsked(c: Crypto, skipper: Key, s: State, p: Pid, op: Op, chain: seq<Link>, at: I64)
    ensures SignsAsAsked(s.history, WriteStep(c, skipper, s, p, op, chain, at).history, Holding(op, chain))
  {
    hide Replayed, Sorted, NextLink, Collapse;
    var r := Replayed(c, chain, None);
    match op
    case Found(_, _) =>
    case Append(body) =>
      if r.Success? { AppendedBody(c, skipper, r.value, body); }
    case Compact => CollapseSignsSnapshot(c, skipper, s, p, op, chain, at, Holding(op, chain));
  }

  lemma SignsWhatWasAsked(c: Crypto, skipper: Key, s: State, a: Action)
    ensures SignsAsAsked(s.history, Do(c, skipper, s, a).history, s.PhaseOf(a.p))
  {
    hide WriteStep, Collapse, Replayed, AskedToSign;
    var ph := s.PhaseOf(a.p);
    if a.Write? && ph.Holding? {
      WriteSignsAsAsked(c, skipper, s, a.p, ph.op, ph.chain, a.at);
    } else if a.Rename? && ph.Collapsing? {
      CollapseSignsSnapshot(c, skipper, s, a.p, ph.op, ph.chain, a.at, ph);
    }
  }

  /** In any run at all, tampered with or not, a step signs at most one link, only for the
      process that holds the lock, and only what that process was asked to write; and only
      such a step or tampering changes the log. */
  lemma OnlyTheHolderWrites(c: Crypto, skipper: Key, acts: seq<Action>, a: Action)
    ensures var s := After(c, skipper, acts); var s' := Do(c, skipper, s, a);
      && Grows(s.history, s'.history)
      && |s'.history| <= |s.history| + 1
      && (s'.history != s.history ==> s.lock == Some(a.p) && AskedToSign(s.PhaseOf(a.p), s'.history[|s.history|].body))
      && (s'.log != s.log ==> s'.history != s.history || a.Tamper?)
  {
    LockHeld(c, skipper, acts);
    var s := After(c, skipper, acts);
    hide After;
    HistoryStep(c, skipper, s, a);
    SignsWhatWasAsked(c, skipper, s, a);
    LogStep(c, skipper, s, a);
    hide Do;
    assert s.PhaseOf(a.p).HoldsLock() <==> s.lock == Some(a.p);
  }

  lemma LogStep(c: Crypto, skipper: Key, s: State, a: Action)
    ensures var s' := Do(c, skipper, s, a); s'.log != s.log ==> s'.history != s.history || a.Tamper?
  {
    if a.Write? || a.Rename? { WritesAlone(c, skipper, s, a); }
    hide WriteStep, Collapse, Replayed;
  }

  /** Whatever the file holds, an admit goes on exactly when the log replays for the skipper's id
      and its root pins the member's dimension, and then to the append of this member. */
  lemma AdmitGuarded(c: Crypto, skipper: Key, s: State, p: Pid, member: MemberRecord)
    ensures var id, s' := c.hash(HANSA_ID_DOMAIN + skipper), Do(c, skipper, s, TryAdmit(p, member));
      if s.PhaseOf(p).Idle? && Replayed(c, s.log, Some(id)).Success? && RootedIn(c, s.log, id, member.embeddingDim)
      then s' == s.Set(p, Waiting(Append(Admit(member, None))))
      else s' == s
  {
    hide Replayed, RootedIn;
    var id := c.hash(HANSA_ID_DOMAIN + skipper);
    var r := Replayed(c, s.log, Some(id));
    if r.Success? {
      PinnedIsRooted(c, s.log, id);
      if RootedIn(c, s.log, id, member.embeddingDim) {
        RootedOnce(c, s.log, id, member.embeddingDim, r.value.embeddingDim);
      }
    }
  }

  /** Whatever the file holds, an open goes on exactly when the log replays for the skipper's id,
      and then it is rooted in that id and the number and hash of its last link are read. */
  lemma OpenGuarded(c: Crypto, skipper: Key, s: State, p: Pid, dir: Dir)
    ensures var id, s' := c.hash(HANSA_ID_DOMAIN + skipper), Do(c, skipper, s, OpenRead(p, dir));
      if s.PhaseOf(p).Idle? && Replayed(c, s.log, Some(id)).Success?
      then
        && (exists dim :: RootedIn(c, s.log, id, dim))
        && var last := s.log[|s.log| - 1];
           s' == s.Set(p, Opening(dir, last.seqNo, c.hash(last.Canonical()), Unchecked))
      else s' == s
  {
    hide Replayed, Link.Canonical;
    var id := c.hash(HANSA_ID_DOMAIN + skipper);
    if Replayed(c, s.log, Some(id)).Success? { PinnedIsRooted(c, s.log, id); }
  }

  lemma LastIsDo(c: Crypto, skipper: Key, acts: seq<Action>)
    requires acts != []
    ensures After(c, skipper, acts) == Do(c, skipper, After(c, skipper, acts[..|acts| - 1]), acts[|acts| - 1])
  {
  }

  lemma AfterSnoc(c: Crypto, skipper: Key, acts: seq<Action>, a: Action)
    ensures After(c, skipper, acts + [a]) == Do(c, skipper, After(c, skipper, acts), a)
  {
    PrefixOfSnoc(acts, a);
  }

  /** Nothing written is ever unwritten: a later history extends every earlier one. */
  lemma {:induction false} HistoryOnlyGrows(c: Crypto, skipper: Key, acts: seq<Action>, more: seq<Action>)
    ensures Grows(After(c, skipper, acts).history, After(c, skipper, acts + more).history)
    decreases |more|
  {
    hide Do, After;
    if more == [] {
      assert acts + more == acts;
    } else {
      var init, a := more[..|more| - 1], more[|more| - 1];
      HistoryOnlyGrows(c, skipper, acts, init);
      InitSnoc(more);
      assert acts + more == (acts + init) + [a];
      AfterSnoc(c, skipper, acts + init, a);
      var h := After(c, skipper, acts + init).history;
      HistoryStep(c, skipper, After(c, skipper, acts + init), a);
      var h' := After(c, skipper, acts + more).history;
      PrefixOfPrefix(h', |After(c, skipper, acts).history|, |h|);
    }
  }

  lemma RunPrefix(c: Crypto, skipper: Key, acts: seq<Action>, run: seq<Action>)
    requires acts <= run && RunVerifies(c, skipper, run)
    ensures RunVerifies(c, skipper, acts)
    ensures Untampered(run) ==> Untampered(acts)
  {
    hide After;
    assert run == acts + run[|acts|..];
    HistoryOnlyGrows(c, skipper, acts, run[|acts|..]);
    AllVerifyPrefix(c, After(c, skipper, run).history, |After(c, skipper, acts).history|);
  }

  /** The log stays bounded: a completed append leaves at most 256 links whatever crashes
      came before, and each crash costs at most one link. */
  lemma LogStaysBounded(c: Crypto, skipper: Key, acts: seq<Action>, p: Pid)
    requires Untampered(acts) && RunVerifies(c, skipper, acts)
    ensures var s := After(c, skipper, acts);
      && |s.log| <= 256 + s.crashes + 1
      && (s.lock == None ==> |s.log| <= 256 + s.crashes)
      && (s.PhaseOf(p).Finished? && s.PhaseOf(p).op.Append? && !s.PhaseOf(p).failed
          ==> |s.log| <= 256)
  {
    Reachable(c, skipper, acts);
    hide After, LogOf, DimsAgree, CachesOk;
    var s := After(c, skipper, acts);
    assert PhaseOk(c, s, s.PhaseOf(p));
  }

  /** Although `admit` tests the dimension before it has the lock, every member a replay
      returns has the dimension of the genesis. */
  lemma DimensionsAgree(c: Crypto, skipper: Key, acts: seq<Action>, expected: Option<HansaId>)
    requires Untampered(acts) && RunVerifies(c, skipper, acts) && Pins(c, skipper, expected)
    ensures var r := Replayed(c, After(c, skipper, acts).log, expected);
      r.Success? ==> forall t :: t in r.value.active ==> r.value.active[t].embeddingDim == r.value.embeddingDim
  {
    Reachable(c, skipper, acts);
    var s := After(c, skipper, acts);
    EveryReaderVerifies(c, skipper, acts, expected);
    hide Replayed, After, LogOf;
    EmptyReplay(c, expected);
  }

  // ---- uncontended calls ----

  /** One call of one process, from taking the lock to giving it back. */
  function Call(p: Pid, op: Op, at: I64): seq<Action> {
    [Begin(p, op)] + [Acquire(p)] + [Read(p)] + [Write(p, at)] + [Unlock(p)]
  }

  /** The state in which a call writes. */
  function ReadBy(c: Crypto, skipper: Key, s: State, p: Pid, op: Op): State {
    Do(c, skipper, Do(c, skipper, Do(c, skipper, s, Begin(p, op)), Acquire(p)), Read(p))
  }

  function Called(c: Crypto, skipper: Key, s: State, p: Pid, op: Op, at: I64): State {
    Do(c, skipper, Do(c, skipper, ReadBy(c, skipper, s, p, op), Write(p, at)), Unlock(p))
  }

  lemma AfterCall(c: Crypto, skipper: Key, acts: seq<Action>, p: Pid, op: Op, at: I64)
    ensures After(c, skipper, acts + Call(p, op, at)) == Called(c, skipper, After(c, skipper, acts), p, op, at)
  {
    hide Do, After;
    var a1 := acts + [Begin(p, op)];
    var a2 := a1 + [Acquire(p)];
    var a3 := a2 + [Read(p)];
    var a4 := a3 + [Write(p, at)];
    assert acts + Call(p, op, at) == a4 + [Unlock(p)];
    AfterSnoc(c, skipper, acts, Begin(p, op));
    AfterSnoc(c, skipper, a1, Acquire(p));
    AfterSnoc(c, skipper, a2, Read(p));
    AfterSnoc(c, skipper, a3, Write(p, at));
    AfterSnoc(c, skipper, a4, Unlock(p));
  }

  /** The caches and the other processes are as before. */
  ghost predicate SameElsewhere(s: State, s': State, p: Pid) {
    && s'.caches == s.caches && s'.temps == s.temps && s'.alarms == s.alarms
    && forall q: Pid :: q != p ==> s'.PhaseOf(q) == s.PhaseOf(q)
  }

  lemma CallReads(c: Crypto, skipper: Key, s: State, p: Pid, op: Op)
    requires s.lock == None && s.PhaseOf(p).Idle? && (op.Append? ==> op.body.Revoke?)
    ensures var s' := ReadBy(c, skipper, s, p, op);
      s'.log == s.log && s'.history == s.history && s'.PhaseOf(p) == Holding(op, s.log) && SameElsewhere(s, s', p)
  {
  }

  lemma WriteAppends(c: Crypto, skipper: Key, s: State, p: Pid, op: Op, at: I64)
    requires |s.log| < CHECKPOINT_AFTER_LINKS
    requires (op.Found? && s.log == []) || (op.Append? && Replayed(c, s.log, None).Success?)
    ensures var s' := WriteStep(c, skipper, s, p, op, s.log, at);
      && |s'.history| == |s.history| + 1 && s'.log != [] && |s'.log| == |s.log| + 1
      && s'.PhaseOf(p) == Finished(op, false) && SameElsewhere(s, s', p)
  {
    hide Replayed, NextLink, FirstLink;
  }

  lemma CallEnds(c: Crypto, skipper: Key, s: State, held: State, p: Pid, op: Op, at: I64)
    requires held.PhaseOf(p) == Holding(op, s.log) && SameElsewhere(s, held, p)
    requires var w := WriteStep(c, skipper, held, p, op, s.log, at);
      w.PhaseOf(p) == Finished(op, false) && SameElsewhere(held, w, p)
    ensures var w := WriteStep(c, skipper, held, p, op, s.log, at);
      var s' := Do(c, skipper, Do(c, skipper, held, Write(p, at)), Unlock(p));
      && s'.log == w.log && s'.history == w.history && s'.lock == None && s'.PhaseOf(p).Idle?
      && SameElsewhere(s, s', p)
  {
    hide WriteStep;
  }

  /** An uncontended call that adds one link. */
  lemma CallAppends(c: Crypto, skipper: Key, s: State, p: Pid, op: Op, at: I64)
    requires Inv(c, skipper, s) && s.lock == None && s.PhaseOf(p).Idle? && |s.log| < CHECKPOINT_AFTER_LINKS
    requires (op.Found? && s.log == []) || (op.Append? && op.body.Revoke? && s.log != [])
    ensures var s' := Called(c, skipper, s, p, op, at);
      && |s'.history| == |s.history| + 1 && s'.log != [] && |s'.log| == |s.log| + 1 && s'.lock == None
      && s'.PhaseOf(p).Idle? && SameElsewhere(s, s', p)
  {
    var held := ReadBy(c, skipper, s, p, op);
    UnlockedReplay(c, skipper, s, None);
    hide Inv, Replayed, NextLink, FirstLink, ReadBy, HeadAt, WriteStep, SameElsewhere;
    CallReads(c, skipper, s, p, op);
    WriteAppends(c, skipper, held, p, op, at);
    CallEnds(c, skipper, s, held, p, op, at);
  }
}
