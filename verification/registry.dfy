/** The file registry of one hansa (registry.rs) and the anti-rollback head cache
    (head_cache.rs). */
module Registry {
  import opened Wire
  import opened Wrappers
  import opened Records
  import opened Members
  import opened Chain
  import opened History
  import opened Seqs

  const CHECKPOINT_AFTER_LINKS: nat := 256

  function FirstLink(c: Crypto, skipper: Key, dim: U32, at: I64): Link {
    GenesisLink(c, FoundGenesis(c, skipper, dim, at))
  }

  function NextLink(c: Crypto, skipper: Key, head: Head, body: Body): Link {
    SignLink(c, skipper, head.seqNo + 1, head.hash, body)
  }

  function SnapshotOfHead(head: Head, at: I64): Body { Checkpoint(Sorted(head.active), head.embeddingDim, at) }

  /** The log on disk is the tail of the history from its last root on. */
  ghost predicate LogOf(c: Crypto, skipper: Key, log: seq<Link>, h: seq<Link>) {
    if log == [] then h == [] else
      && Written(c, skipper, h)
      && |log| <= |h|
      && log == h[|h| - |log|..]
      && StretchFrom(h, |h| - |log|, |h|)
  }

  lemma LogReplays(c: Crypto, skipper: Key, log: seq<Link>, h: seq<Link>, expected: Option<HansaId>)
    requires LogOf(c, skipper, log, h) && log != [] && Pins(c, skipper, expected)
    ensures Replayed(c, log, expected) == Success(HeadAt(c, skipper, h, |h|))
  {
    hide Replayed, HeadAt, Recorded, Root;
    StretchReplays(c, skipper, h, |h| - |log|, |h|, expected);
    assert h[|h| - |log|..|h|] == h[|h| - |log|..];
  }

  lemma EmptyReplay(c: Crypto, expected: Option<HansaId>)
    ensures Replayed(c, [], expected) == Failure(ChainBroken(0))
  {
  }

  lemma LogFounded(c: Crypto, skipper: Key, log: seq<Link>, h: seq<Link>)
    requires LogOf(c, skipper, log, h) && log != []
    ensures h != [] && h[0].body.Founding?
  {
  }

  lemma FoundKeepsLog(c: Crypto, skipper: Key, dim: U32, at: I64)
    requires AllVerify(c, [FirstLink(c, skipper, dim, at)])
    ensures var g := FirstLink(c, skipper, dim, at); LogOf(c, skipper, [g], [g])
  {
    var g := FirstLink(c, skipper, dim, at);
    assert c.verifies([g][0].signedBy, MessageOf([g][0]), [g][0].sig);
    assert [g] == [g][0..];
  }

  lemma WrittenSnoc(c: Crypto, skipper: Key, h: seq<Link>, body: Body)
    requires Written(c, skipper, h)
    requires body.IsEvent() || SnapshotOf(body, h)
    requires LinkVerifies(c, NextLink(c, skipper, HeadAt(c, skipper, h, |h|), body))
    ensures Written(c, skipper, h + [NextLink(c, skipper, HeadAt(c, skipper, h, |h|), body)])
  {
    hide Root, Link.Canonical, Fold, LinkVerifies;
    var l := NextLink(c, skipper, HeadAt(c, skipper, h, |h|), body);
    var h' := h + [l];
    var n := |h|;
    SeqIsIndex(c, skipper, h, n - 1);
    PrefixOfSnoc(h, l);
    forall i | 1 <= i < |h'| ensures Recorded(c, skipper, h', i) {
      if i < n {
        assert Recorded(c, skipper, h, i);
        assert h'[..i] == h[..i];
      }
    }
  }

  /** The new link of an append or a checkpoint verifies if the messages signed do. */
  lemma NextVerifies(c: Crypto, skipper: Key, head: Head, body: Body)
    requires !body.Founding? && AllVerify(c, [NextLink(c, skipper, head, body)])
    ensures LinkVerifies(c, NextLink(c, skipper, head, body))
  {
    var l := NextLink(c, skipper, head, body);
    hide Link.Canonical, Framed, LinkVerifies;
    assert c.verifies([l][0].signedBy, MessageOf([l][0]), [l][0].sig);
    assert MessageOf(l) == Framed(DOMAIN_LINK, l.Canonical());
    assert LinkVerifies(c, l) by { LinkVerifiesIs(c, l); }
  }

  lemma LinkVerifiesIs(c: Crypto, l: Link)
    ensures LinkVerifies(c, l) <==> c.verifies(l.signedBy, Framed(DOMAIN_LINK, l.Canonical()), l.sig)
  {
  }

  lemma AppendKeepsLog(c: Crypto, skipper: Key, log: seq<Link>, h: seq<Link>, body: Body)
    requires LogOf(c, skipper, log, h) && log != [] && body.IsEvent()
    requires AllVerify(c, [NextLink(c, skipper, HeadAt(c, skipper, h, |h|), body)])
    ensures var l := NextLink(c, skipper, HeadAt(c, skipper, h, |h|), body); LogOf(c, skipper, log + [l], h + [l])
  {
    hide Recorded, Root, NextLink, AllVerify;
    NextVerifies(c, skipper, HeadAt(c, skipper, h, |h|), body);
    WrittenSnoc(c, skipper, h, body);
    var l := NextLink(c, skipper, HeadAt(c, skipper, h, |h|), body);
    AppendedBody(c, skipper, HeadAt(c, skipper, h, |h|), body);
    var start := |h| - |log|;
    assert (h + [l])[start..] == log + [l];
  }

  lemma AppendedBody(c: Crypto, skipper: Key, head: Head, body: Body)
    ensures NextLink(c, skipper, head, body).body == body
  {
  }

  lemma CheckpointKeepsLog(c: Crypto, skipper: Key, log: seq<Link>, h: seq<Link>, at: I64)
    requires LogOf(c, skipper, log, h) && log != []
    requires var head := HeadAt(c, skipper, h, |h|);
      AllVerify(c, [NextLink(c, skipper, head, SnapshotOfHead(head, at))])
    ensures var head := HeadAt(c, skipper, h, |h|);
      var l := NextLink(c, skipper, head, SnapshotOfHead(head, at)); LogOf(c, skipper, [l], h + [l])
  {
    hide Recorded, Root, NextLink, AllVerify;
    var head := HeadAt(c, skipper, h, |h|);
    var body := SnapshotOfHead(head, at);
    assert SnapshotOf(body, h) by { assert h[..|h|] == h; }
    NextVerifies(c, skipper, head, body);
    WrittenSnoc(c, skipper, h, body);
    AppendedBody(c, skipper, head, body);
    var l := NextLink(c, skipper, head, body);
    assert (h + [l])[|h|..] == [l];
  }

  lemma FoldSnoc(h: seq<Link>, l: Link)
    ensures Fold(map[], h + [l]) == Apply(Fold(map[], h), l.body)
  {
    hide Apply;
    assert (h + [l])[..|h + [l]| - 1] == h && (h + [l])[|h + [l]| - 1] == l;
  }

  // ---- what a call does to any log whatever ----

  /** The log a call leaves, the links it signs and what it returns. */
  datatype Effect = Effect(log: seq<Link>, signed: seq<Link>, result: Result<()>)

  function FoundEffect(c: Crypto, skipper: Key, log: seq<Link>, dim: U32, at: I64): Effect {
    if log != [] then Effect(log, [], Success(()))
    else Effect([FirstLink(c, skipper, dim, at)], [FirstLink(c, skipper, dim, at)], Success(()))
  }

  function CheckpointEffect(c: Crypto, skipper: Key, log: seq<Link>, at: I64): Effect {
    if |log| <= 1 then Effect(log, [], Success(())) else
      match Replayed(c, log, None)
      case Failure(e) => Effect(log, [], Failure(e))
      case Success(head) =>
        var l := NextLink(c, skipper, head, SnapshotOfHead(head, at));
        Effect([l], [l], Success(()))
  }

  function AppendEffect(c: Crypto, skipper: Key, log: seq<Link>, body: Body, at: I64): Effect {
    match Replayed(c, log, None)
    case Failure(e) => Effect(log, [], Failure(e))
    case Success(head) =>
      var l := NextLink(c, skipper, head, body);
      if |log| + 1 > CHECKPOINT_AFTER_LINKS then
        var e := CheckpointEffect(c, skipper, log + [l], at);
        Effect(e.log, [l] + e.signed, e.result)
      else Effect(log + [l], [l], Success(()))
  }

  /** `l` follows `last` in number and hash, and is signed by the skipper over everything but
      the signature. */
  predicate SignedAfter(c: Crypto, skipper: Key, last: Link, l: Link) {
    && l.seqNo == last.seqNo + 1 && l.prev == c.hash(last.Canonical()) && l.signedBy == skipper
    && l.sig == c.sign(skipper, DOMAIN_LINK + Link(l.seqNo, l.prev, l.body, skipper, Zeros(64)).Canonical())
  }

  /** `l` is a snapshot of what the log replays to, taken at `at` and signed after its end. */
  predicate SnapshotAfter(c: Crypto, skipper: Key, log: seq<Link>, at: I64, l: Link)
    requires log != []
  {
    var r := Replayed(c, log, None);
    && r.Success? && SignedAfter(c, skipper, log[|log| - 1], l)
    && RootDim(log[0]).Some? && l.body == Checkpoint(Sorted(r.value.active), RootDim(log[0]).value, at)
  }

  lemma NextIsSignedAfter(c: Crypto, skipper: Key, log: seq<Link>, head: Head, body: Body)
    requires log != [] && Replayed(c, log, None) == Success(head)
    ensures var l := NextLink(c, skipper, head, body); l.body == body && SignedAfter(c, skipper, log[|log| - 1], l)
  {
    ReplayAccepts(c, log, None);
    hide Link.Canonical, Replayed, GoodRoot, Chained, Fold;
  }

  /** Founding writes a genesis of version 2, signed by the skipper, into an empty log only. */
  lemma FoundSigns(c: Crypto, skipper: Key, log: seq<Link>, dim: U32, at: I64)
    ensures var e := FoundEffect(c, skipper, log, dim, at);
      && e.result.Success?
      && (log != [] ==> e.log == log && e.signed == [])
      && (log == [] ==>
            && |e.signed| == 1 && e.log == e.signed
            && var l := e.signed[0];
               && l.seqNo == 0 && l.prev == Zeros(32) && l.signedBy == skipper
               && l.body == Founding(Genesis(2, c.hash(HANSA_ID_DOMAIN + skipper), skipper, dim, at, false))
               && l.sig == c.sign(skipper, DOMAIN_GENESIS + l.body.genesis.Canonical()))
  {
    hide Genesis.Canonical;
  }

  /** Compacting leaves a log of at most one link, and one that does not replay, as it is; else
      one snapshot takes its place. */
  lemma CheckpointSigns(c: Crypto, skipper: Key, log: seq<Link>, at: I64)
    ensures var e, r := CheckpointEffect(c, skipper, log, at), Replayed(c, log, None);
      && (|log| <= 1 ==> e == Effect(log, [], Success(())))
      && (|log| > 1 && r.Failure? ==> e == Effect(log, [], Failure(r.error)))
      && (|log| > 1 && r.Success? ==>
            e.result.Success? && |e.signed| == 1 && e.log == e.signed
            && SnapshotAfter(c, skipper, log, at, e.signed[0]))
  {
    var r := Replayed(c, log, None);
    if |log| > 1 && r.Success? {
      ReplayAccepts(c, log, None);
      NextIsSignedAfter(c, skipper, log, r.value, SnapshotOfHead(r.value, at));
    }
    hide Replayed, NextLink, SignedAfter, GoodRoot, Chained, Fold, RootDim, Sorted;
  }

  /** Appending signs the event after the end of the log, if that replays; the 257th link is
      collapsed with all the others. */
  lemma AppendSigns(c: Crypto, skipper: Key, log: seq<Link>, body: Body, at: I64)
    ensures var e, r := AppendEffect(c, skipper, log, body, at), Replayed(c, log, None);
      && (r.Failure? ==> e == Effect(log, [], Failure(r.error)))
      && (r.Success? ==>
            log != [] && e.signed != []
            && var l := e.signed[0];
               && l.body == body && SignedAfter(c, skipper, log[|log| - 1], l)
               && (|log| < 256 ==> e == Effect(log + [l], [l], Success(())))
               && (|log| >= 256 ==>
                     var more := CheckpointEffect(c, skipper, log + [l], at);
                     e == Effect(more.log, [l] + more.signed, more.result)))
  {
    EmptyReplay(c, None);
    var r := Replayed(c, log, None);
    if r.Success? { NextIsSignedAfter(c, skipper, log, r.value, body); }
    hide Replayed, NextLink, SignedAfter, CheckpointEffect;
  }

  /** The log has a root, signed by the key the id belongs to, that pins this dimension. */
  predicate RootedIn(c: Crypto, log: seq<Link>, id: HansaId, dim: U32) {
    log != [] && c.hash(HANSA_ID_DOMAIN + log[0].signedBy) == id
    && match log[0].body
       case Founding(g) => g.embeddingDim == dim
       case Checkpoint(_, d, _) => d == dim
       case _ => false
  }

  lemma PinnedIsRooted(c: Crypto, log: seq<Link>, id: HansaId)
    requires Replayed(c, log, Some(id)).Success?
    ensures RootedIn(c, log, id, Replayed(c, log, Some(id)).value.embeddingDim)
    ensures var head, last := Replayed(c, log, Some(id)).value, log[|log| - 1];
      head.seqNo == last.seqNo && head.hash == c.hash(last.Canonical())
  {
    EmptyReplay(c, Some(id));
    ReplayAccepts(c, log, Some(id));
    hide Replayed, Chained, Fold, Link.Canonical, Genesis.Canonical;
  }

  lemma RootedOnce(c: Crypto, log: seq<Link>, id: HansaId, a: U32, b: U32)
    requires RootedIn(c, log, id, a) && RootedIn(c, log, id, b)
    ensures a == b
  {
  }

  // ---- what it means on a log no one has touched ----

  /** Collapsing a log keeps it a stretch of the history and keeps the members. */
  lemma CheckpointMeans(c: Crypto, skipper: Key, log: seq<Link>, h: seq<Link>, at: I64)
    requires LogOf(c, skipper, log, h) && AllVerify(c, CheckpointEffect(c, skipper, log, at).signed)
    ensures var e := CheckpointEffect(c, skipper, log, at);
      && e.result == Success(())
      && LogOf(c, skipper, e.log, h + e.signed)
      && Fold(map[], h + e.signed) == Fold(map[], h)
      && |e.log| == (if |log| <= 1 then |log| else 1)
  {
    hide Replayed, LogOf, HashOf, AllVerify, NextLink, Fold, Sorted, HeadAt;
    if |log| > 1 {
      LogFounded(c, skipper, log, h);
      LogReplays(c, skipper, log, h, None);
      CheckpointKeepsLog(c, skipper, log, h, at);
      var head := HeadAt(c, skipper, h, |h|);
      AppendedBody(c, skipper, head, SnapshotOfHead(head, at));
      FoldSnoc(h, NextLink(c, skipper, head, SnapshotOfHead(head, at)));
    } else {
      assert h + [] == h;
    }
  }

  /** An append to a log no one has touched changes the members by exactly its event and
      leaves at most 256 links. */
  lemma AppendMeans(c: Crypto, skipper: Key, log: seq<Link>, h: seq<Link>, body: Body, at: I64)
    requires LogOf(c, skipper, log, h) && log != [] && body.IsEvent()
    requires AllVerify(c, AppendEffect(c, skipper, log, body, at).signed)
    ensures var e := AppendEffect(c, skipper, log, body, at);
      && e.result == Success(())
      && LogOf(c, skipper, e.log, h + e.signed)
      && Fold(map[], h + e.signed) == Apply(Fold(map[], h), body)
      && |e.log| == (if |log| + 1 > CHECKPOINT_AFTER_LINKS then 1 else |log| + 1)
      && e.signed != [] && e.signed[0].body == body
  {
    hide Replayed, LogOf, HashOf, AllVerify, NextLink, Fold, Sorted, HeadAt, CheckpointEffect;
    LogFounded(c, skipper, log, h);
    LogReplays(c, skipper, log, h, None);
    var l := NextLink(c, skipper, HeadAt(c, skipper, h, |h|), body);
    var e := AppendEffect(c, skipper, log, body, at);
    AppendedBody(c, skipper, HeadAt(c, skipper, h, |h|), body);
    FirstVerifies(c, e.signed);
    AppendKeepsLog(c, skipper, log, h, body);
    FoldSnoc(h, l);
    if |log| + 1 > CHECKPOINT_AFTER_LINKS {
      CheckpointMeans(c, skipper, log + [l], h + [l], at);
      assert h + e.signed == (h + [l]) + e.signed[1..];
    }
  }

  lemma FirstVerifies(c: Crypto, links: seq<Link>)
    requires AllVerify(c, links) && links != []
    ensures AllVerify(c, [links[0]]) && AllVerify(c, links[1..])
  {
    forall i | 0 <= i < |links[1..]|
      ensures c.verifies(links[1..][i].signedBy, MessageOf(links[1..][i]), links[1..][i].sig)
    {
      assert links[1..][i] == links[i + 1];
    }
  }

  /** The registry of one hansa: a log file that calls under the lock extend or replace, and
      that anyone may have rewritten between calls. `history` remembers every link the calls
      have signed. */
  class FileRegistry {
    const crypto: Crypto
    var log: seq<Link>
    ghost var history: seq<Link>

    constructor (crypto: Crypto)
      ensures this.crypto == crypto && log == [] && history == []
    {
      this.crypto := crypto;
      log, history := [], [];
    }

    /** Nobody but the calls has touched the log. */
    ghost predicate Intact(skipper: Key)
      reads this
    {
      LogOf(crypto, skipper, log, history)
    }

    /** The members the whole history leaves active. */
    ghost function Active(): Active
      reads this
    {
      Fold(map[], history)
    }

    method ReadChain() returns (links: seq<Link>)
      ensures links == log
    {
      links := log;
    }

    method AppendLink(l: Link)
      modifies this
      ensures log == old(log) + [l] && history == old(history) + [l]
    {
      log := log + [l];
      history := history + [l];
    }

    method WriteChainAtomic(l: Link)
      modifies this
      ensures log == [l] && history == old(history) + [l]
    {
      log := [l];
      history := history + [l];
    }

    /** Idempotent: the first founder writes the genesis, a later one changes nothing. */
    method Found(skipper: Key, dim: U32, at: I64)
      modifies this
      ensures var e := FoundEffect(crypto, skipper, old(log), dim, at);
        && log == e.log && history == old(history) + e.signed
        && (old(Intact(skipper)) && AllVerify(crypto, e.signed) ==> Intact(skipper))
    {
      var chain := ReadChain();
      if chain != [] {
        return;
      }
      AppendLink(FirstLink(crypto, skipper, dim, at));
      if old(Intact(skipper)) && AllVerify(crypto, [FirstLink(crypto, skipper, dim, at)]) {
        FoundKeepsLog(crypto, skipper, dim, at);
      }
    }

    /** Collapses a log of two or more links to one checkpoint; the members stay. A log that
        does not replay is an error and stays as it is. */
    method CheckpointLocked(skipper: Key, at: I64) returns (r: Result<()>)
      modifies this
      ensures var e := CheckpointEffect(crypto, skipper, old(log), at);
        && log == e.log && history == old(history) + e.signed && r == e.result
        && (old(Intact(skipper)) && AllVerify(crypto, e.signed) ==>
              r.Success? && Intact(skipper) && Active() == old(Active()))
    {
      hide Replayed, LogOf, HashOf, AllVerify, Fold, Sorted, SignLink;
      if old(Intact(skipper)) && AllVerify(crypto, CheckpointEffect(crypto, skipper, log, at).signed) {
        CheckpointMeans(crypto, skipper, log, history, at);
      }
      var chain := ReadChain();
      if |chain| <= 1 {
        return Success(());
      }
      var out := Replay(crypto, chain, None);
      if out.Failure? {
        return Failure(out.error);
      }
      var l := SignLink(crypto, skipper, out.value.headSeq + 1, out.value.headHash,
                        Checkpoint(out.value.active, out.value.embeddingDim, at));
      WriteChainAtomic(l);
      return Success(());
    }

    /** Extends whatever head the log replays to. On a log no one has touched the members
        change by that one event and at most 256 links are left, whatever the length was. */
    method AppendNext(skipper: Key, body: Body, at: I64) returns (r: Result<()>)
      modifies this
      ensures var e := AppendEffect(crypto, skipper, old(log), body, at);
        && log == e.log && history == old(history) + e.signed && r == e.result
        && (old(Intact(skipper)) && body.IsEvent() && AllVerify(crypto, e.signed) ==>
              && Intact(skipper)
              && (if old(log) == [] then r == Failure(ChainBroken(0)) && log == []
                  else r.Success? && Active() == Apply(old(Active()), body)
                       && |log| == if |old(log)| + 1 > CHECKPOINT_AFTER_LINKS then 1 else |old(log)| + 1))
    {
      hide Replayed, LogOf, HashOf, AllVerify, Fold, Sorted, SignLink, Apply, CheckpointEffect;
      EmptyReplay(crypto, None);
      if old(Intact(skipper)) && log != [] && body.IsEvent()
         && AllVerify(crypto, AppendEffect(crypto, skipper, log, body, at).signed) {
        AppendMeans(crypto, skipper, log, history, body, at);
      }
      var chain := ReadChain();
      var head := Replay(crypto, chain, None);
      if head.Failure? {
        return Failure(head.error);
      }
      var l := SignLink(crypto, skipper, head.value.headSeq + 1, head.value.headHash, body);
      AppendLink(l);
      if |chain| + 1 > CHECKPOINT_AFTER_LINKS {
        r := CheckpointLocked(skipper, at);
        return;
      }
      return Success(());
    }

    method Compact(skipper: Key, at: I64) returns (r: Result<()>)
      modifies this
      ensures var e := CheckpointEffect(crypto, skipper, old(log), at);
        && log == e.log && history == old(history) + e.signed && r == e.result
        && (old(Intact(skipper)) && AllVerify(crypto, e.signed) ==>
              r.Success? && Intact(skipper) && Active() == old(Active()))
      ensures r.Success? ==> |log| <= 1
    {
      r := CheckpointLocked(skipper, at);
    }

    /** The members the log replays to, sorted by tenant id; none before the founding. */
    method Members() returns (r: Result<seq<MemberRecord>>)
      ensures r == if log == [] then Success([]) else
                     match Replayed(crypto, log, None)
                     case Failure(e) => Failure(e)
                     case Success(head) => Success(Sorted(head.active))
      ensures forall skipper: Key :: Intact(skipper) ==> r == Success(Sorted(Active()))
    {
      hide Replayed, LogOf, HashOf, Sorted;
      var chain := ReadChain();
      forall skipper: Key | Intact(skipper)
        ensures if log == [] then Sorted(Active()) == []
                else Replayed(crypto, log, None).Success? && Replayed(crypto, log, None).value.active == Active()
      {
        MembersOfLog(crypto, skipper, log, history);
      }
      if chain == [] {
        return Success([]);
      }
      var out := Replay(crypto, chain, None);
      if out.Failure? {
        return Failure(out.error);
      }
      return Success(out.value.active);
    }
  }

  lemma MembersOfLog(c: Crypto, skipper: Key, log: seq<Link>, h: seq<Link>)
    requires LogOf(c, skipper, log, h)
    ensures if log == [] then Sorted(Fold(map[], h)) == []
            else Replayed(c, log, None).Success? && Replayed(c, log, None).value.active == Fold(map[], h)
  {
    hide Replayed, HashOf;
    if log != [] {
      LogFounded(c, skipper, log, h);
      LogReplays(c, skipper, log, h, None);
      assert h[..|h|] == h;
    }
  }

  /** A head is refused when it lies below the remembered one, or beside it. */
  predicate Regressed(cached: Option<(nat, Digest)>, seqNo: nat, hash: Digest) {
    cached.Some? && (seqNo < cached.value.0 || (seqNo == cached.value.0 && hash != cached.value.1))
  }

  class HeadCache {
    var entries: map<HansaId, (nat, Digest)>

    constructor ()
      ensures entries == map[]
    {
      entries := map[];
    }

    method Load(hansa: HansaId) returns (e: Option<(nat, Digest)>)
      ensures e == if hansa in entries then Some(entries[hansa]) else None
    {
      e := if hansa in entries then Some(entries[hansa]) else None;
    }

    method Store(hansa: HansaId, seqNo: nat, hash: Digest)
      modifies this
      ensures entries == old(entries)[hansa := (seqNo, hash)]
    {
      entries := entries[hansa := (seqNo, hash)];
    }

    /** A refusal leaves the cache as it was; an accepted head replaces the remembered one
        and never lowers it. */
    method CheckAndRecord(hansa: HansaId, seqNo: nat, hash: Digest) returns (r: Result<()>)
      modifies this
      ensures r.Failure? <==> hansa in old(entries)
                              && (seqNo < old(entries)[hansa].0
                                  || (seqNo == old(entries)[hansa].0 && hash != old(entries)[hansa].1))
      ensures r.Failure? ==> r.error == ChainRegressed && entries == old(entries)
      ensures r.Success? ==> entries == old(entries)[hansa := (seqNo, hash)]
      ensures hansa in old(entries) ==> hansa in entries && entries[hansa].0 >= old(entries)[hansa].0
    {
      var cached := Load(hansa);
      if Regressed(cached, seqNo, hash) {
        return Failure(ChainRegressed);
      }
      Store(hansa, seqNo, hash);
      return Success(());
    }
  }
}
