/** The handle of one member (hansa.rs): opening, admitting, revoking and compacting as
    sequenced effects on the registry and the head cache, on any log content whatever. Calls of
    other processes between these effects are the subject of `Protocol`. */
module Handle {
  import opened Wire
  import opened Wrappers
  import opened Records
  import opened Members
  import opened Chain
  import opened History
  import opened Registry
  import opened Protocol

  /** A valid log offered under another id is refused for that reason. */
  lemma WrongIdRefused(c: Crypto, skipper: Key, log: seq<Link>, h: seq<Link>, id: HansaId)
    requires LogOf(c, skipper, log, h) && log != [] && id != IdOf(c, skipper)
    ensures Replayed(c, log, Some(id)) == Failure(IdMismatch)
  {
    var start := |h| - |log|;
    SeqIsIndex(c, skipper, h, start);
    assert log[0] == h[start];
    hide Recorded, Replayed, HashOf, LinkVerifies, Link.Canonical;
    assert Root(c, log[0], Some(id)) == Failure(IdMismatch);
    SinglePrefix(c, log, Some(id));
    PrefixFails(c, log, Some(id), 1);
  }

  /** What a member verifies before it uses a log no one has touched: the replay under the
      pinned id. */
  lemma VerifiedHead(c: Crypto, skipper: Key, log: seq<Link>, h: seq<Link>, id: HansaId)
    requires LogOf(c, skipper, log, h)
    ensures var r := Replayed(c, log, Some(id));
      && (r.Success? <==> log != [] && id == IdOf(c, skipper))
      && (log == [] ==> r == Failure(ChainBroken(0)))
      && (log != [] && id != IdOf(c, skipper) ==> r == Failure(IdMismatch))
      && (r.Success? ==>
            h != [] && h[0].body.Founding? && r.value.embeddingDim == h[0].body.genesis.embeddingDim
            && r.value.seqNo == |h| - 1 && r.value.hash == HashOf(c, h[|h| - 1]) && r.value.active == Fold(map[], h))
  {
    if log == [] {
      EmptyReplay(c, Some(id));
    } else if id == IdOf(c, skipper) {
      LogFounded(c, skipper, log, h);
      LogReplays(c, skipper, log, h, Some(id));
      assert h[..|h|] == h;
    } else {
      WrongIdRefused(c, skipper, log, h, id);
    }
  }

  /** Whether an admit or a revoke on a log no one has touched keeps all dimensions equal. */
  lemma AppendKeepsDims(c: Crypto, skipper: Key, log: seq<Link>, h: seq<Link>, body: Body, at: I64)
    requires LogOf(c, skipper, log, h) && log != [] && OpOk(h, Append(body)) && DimsAgree(h)
    requires AllVerify(c, AppendEffect(c, skipper, log, body, at).signed)
    ensures DimsAgree(h + AppendEffect(c, skipper, log, body, at).signed)
  {
    hide LogOf, AllVerify, AppendEffect, Fold;
    AppendMeans(c, skipper, log, h, body, at);
    LogFounded(c, skipper, log, h);
    assert (h + AppendEffect(c, skipper, log, body, at).signed)[0] == h[0];
  }

  /** What a call does that needs the skipper's key and a head replayed under the pinned id of
      the member's own dimension. */
  function AdmitEffect(c: Crypto, id: HansaId, skipper: Option<Key>, log: seq<Link>, member: MemberRecord, at: I64)
    : Effect {
    if skipper.None? then Effect(log, [], Failure(Unauthorized)) else
      match Replayed(c, log, Some(id))
      case Failure(e) => Effect(log, [], Failure(e))
      case Success(head) =>
        if member.embeddingDim != head.embeddingDim
        then Effect(log, [], Failure(DimMismatch(head.embeddingDim, member.embeddingDim)))
        else AppendEffect(c, skipper.value, log, Admit(member, None), at)
  }

  /** What comes of an admit, whatever the log: without the key it is refused; on a log that is
      not rooted in the pinned id it fails; on one that replays for the pinned id but pins another
      dimension it fails with both dimensions; and all of these write nothing. One that succeeds
      has signed this admit on a log rooted in the pinned id with the member's dimension. */
  ghost predicate AdmitMeans(c: Crypto, id: HansaId, skipper: Option<Key>, log: seq<Link>, member: MemberRecord,
                             log': seq<Link>, signed: seq<Link>, r: Result<()>) {
    && (skipper.None? ==> r == Failure(Unauthorized) && log' == log && signed == [])
    && (!(exists dim :: RootedIn(c, log, id, dim)) ==> r.Failure? && log' == log && signed == [])
    && (forall dim :: RootedIn(c, log, id, dim) && dim != member.embeddingDim ==>
          && r.Failure? && log' == log && signed == []
          && (skipper.Some? && Replayed(c, log, Some(id)).Success? ==>
                r.error == DimMismatch(dim, member.embeddingDim)))
    && (r.Success? ==>
          && RootedIn(c, log, id, member.embeddingDim) && Replayed(c, log, Some(id)).Success?
          && signed != [] && signed[0].body == Admit(member, None)
          && skipper.Some? && SignedAfter(c, skipper.value, log[|log| - 1], signed[0]))
  }

  lemma AdmitEffectMeans(c: Crypto, id: HansaId, skipper: Option<Key>, log: seq<Link>, member: MemberRecord, at: I64)
    ensures var e := AdmitEffect(c, id, skipper, log, member, at);
      AdmitMeans(c, id, skipper, log, member, e.log, e.signed, e.result)
  {
    var r := Replayed(c, log, Some(id));
    if skipper.Some? && r.Success? {
      PinnedIsRooted(c, log, id);
      forall dim | RootedIn(c, log, id, dim) ensures dim == r.value.embeddingDim {
        RootedOnce(c, log, id, dim, r.value.embeddingDim);
      }
      AppendSigns(c, skipper.value, log, Body.Admit(member, None), at);
    }
    hide Replayed, RootedIn, SignedAfter, AppendEffect;
  }

  /** A handle: the id it is pinned to and, for the skipper's own handle, the key. */
  class Hansa {
    const registry: FileRegistry
    const id: HansaId
    const skipper: Option<Key>

    constructor (registry: FileRegistry, id: HansaId, skipper: Option<Key>)
      ensures this.registry == registry && this.id == id && this.skipper == skipper
    {
      this.registry, this.id, this.skipper := registry, id, skipper;
    }

    predicate Valid() { skipper.Some? ==> id == IdOf(registry.crypto, skipper.value) }

    /** Nobody but this skipper's calls has touched the log, and all members have the genesis's
        dimension. */
    ghost predicate Sound()
      reads registry
    {
      skipper.Some? && registry.Intact(skipper.value) && DimsAgree(registry.history)
    }

    /** The dimension the genesis pins, once there is one. */
    ghost function Dim(): Option<U32>
      reads registry
    {
      var h := registry.history;
      if h != [] && h[0].body.Founding? then Some(h[0].body.genesis.embeddingDim) else None
    }

    /** Fails without the key, on a log that does not replay for this id, and on a dimension
        other than that log's; then nothing changes. On a log no one has touched it adds
        exactly this member. */
    method Admit(member: MemberRecord, at: I64) returns (r: Result<()>)
      requires Valid()
      modifies registry
      ensures var e := AdmitEffect(registry.crypto, id, skipper, old(registry.log), member, at);
        && registry.log == e.log && registry.history == old(registry.history) + e.signed && r == e.result
        && (old(Sound()) && old(registry.log) != [] && AllVerify(registry.crypto, e.signed) ==>
              && Sound() && old(Dim()).Some?
              && (r.Success? <==> member.embeddingDim == old(Dim()).value)
              && registry.Active() == (if r.Success? then old(registry.Active())[member.tenantId := member]
                                       else old(registry.Active())))
      ensures |registry.history| >= |old(registry.history)|
        && AdmitMeans(registry.crypto, id, skipper, old(registry.log), member, registry.log,
                      registry.history[|old(registry.history)|..], r)
    {
      AdmitEffectMeans(registry.crypto, id, skipper, registry.log, member, at);
      hide AdmitMeans, Replayed, Fold, LogOf, HashOf, DimsAgree, Sorted, AllVerify, AppendEffect;
      var c := registry.crypto;
      ghost var e := AdmitEffect(c, id, skipper, registry.log, member, at);
      if skipper.Some? && Sound() && registry.log != [] && AllVerify(c, e.signed) {
        VerifiedHead(c, skipper.value, registry.log, registry.history, id);
        if e.result.Success? || e.signed != [] {
          AppendKeepsDims(c, skipper.value, registry.log, registry.history, Body.Admit(member, None), at);
        }
        assert registry.history + [] == registry.history;
      }
      if skipper.None? {
        return Failure(Unauthorized);
      }
      var chain := registry.ReadChain();
      var head := Replay(c, chain, Some(id));
      if head.Failure? {
        return Failure(head.error);
      }
      if member.embeddingDim != head.value.embeddingDim {
        return Failure(DimMismatch(head.value.embeddingDim, member.embeddingDim));
      }
      r := registry.AppendNext(skipper.value, Body.Admit(member, None), at);
    }

    /** Fails without the key and on a log that does not replay at all. On a log no one has
        touched it removes exactly this tenant. */
    method Revoke(tenant: TenantId, at: I64) returns (r: Result<()>)
      requires Valid()
      modifies registry
      ensures var c, body := registry.crypto, Body.Revoke(tenant, at, None);
        var e := if skipper.None? then Effect(old(registry.log), [], Failure(Unauthorized))
                 else AppendEffect(c, skipper.value, old(registry.log), body, at);
        && registry.log == e.log && registry.history == old(registry.history) + e.signed && r == e.result
        && (old(Sound()) && old(registry.log) != [] && AllVerify(registry.crypto, e.signed) ==>
              r.Success? && Sound() && registry.Active() == old(registry.Active()) - {tenant})
    {
      hide Replayed, Fold, LogOf, HashOf, DimsAgree, Sorted, AllVerify, AppendEffect;
      if skipper.None? {
        return Failure(Unauthorized);
      }
      ghost var b := Body.Revoke(tenant, at, None);
      if Sound() && registry.log != []
         && AllVerify(registry.crypto, AppendEffect(registry.crypto, skipper.value, registry.log, b, at).signed) {
        AppendKeepsDims(registry.crypto, skipper.value, registry.log, registry.history, b, at);
      }
      r := registry.AppendNext(skipper.value, Body.Revoke(tenant, at, None), at);
    }

    /** Collapses whatever log replays. On a log no one has touched no member is lost or
        gained. */
    method Compact(at: I64) returns (r: Result<()>)
      requires Valid()
      modifies registry
      ensures var e := if skipper.None? then Effect(old(registry.log), [], Failure(Unauthorized))
                       else CheckpointEffect(registry.crypto, skipper.value, old(registry.log), at);
        && registry.log == e.log && registry.history == old(registry.history) + e.signed && r == e.result
        && (old(Sound()) && AllVerify(registry.crypto, e.signed) ==>
              r.Success? && registry.Intact(skipper.value) && registry.Active() == old(registry.Active()))
      ensures r.Success? ==> |registry.log| <= 1
    {
      hide Replayed, LogOf, HashOf, Sorted, Fold, DimsAgree, AllVerify, CheckpointEffect;
      if skipper.None? {
        return Failure(Unauthorized);
      }
      r := registry.Compact(skipper.value, at);
    }
  }

  /** The id a handle is opened under: the founder's own, or the one a member was given. */
  function ResolvedId(c: Crypto, skipper: Option<Key>, provided: Option<HansaId>): Result<HansaId> {
    match (skipper, provided)
    case (Some(sk), Some(p)) => if p != IdOf(c, sk) then Failure(IdMismatch) else Success(IdOf(c, sk))
    case (Some(sk), None) => Success(IdOf(c, sk))
    case (None, Some(id)) => Success(id)
    case (None, None) => Failure(Invariant)
  }

  /** The founding an open does first: only a skipper's, and only into an empty log. */
  function OpenEffect(c: Crypto, skipper: Option<Key>, id: Result<HansaId>, log: seq<Link>, dim: U32, at: I64): Effect {
    if id.Failure? then Effect(log, [], Failure(id.error))
    else if skipper.Some? then FoundEffect(c, skipper.value, log, dim, at)
    else Effect(log, [], if log == [] then Failure(Invariant) else Success(()))
  }

  /** An open leaves a log as it is, unless it is empty and the skipper opens it under its own id
      or none: then it has one genesis, of the skipper's, with the given dimension. */
  predicate OpenWrites(c: Crypto, skipper: Option<Key>, provided: Option<HansaId>, log: seq<Link>, dim: U32, at: I64,
                       log': seq<Link>) {
    if log == [] && skipper.Some?
       && (provided.Some? ==> provided.value == c.hash(HANSA_ID_DOMAIN + skipper.value))
    then
      var g := Genesis(2, c.hash(HANSA_ID_DOMAIN + skipper.value), skipper.value, dim, at, false);
      log' == [Link(0, Zeros(32), Founding(g), skipper.value,
                    c.sign(skipper.value, DOMAIN_GENESIS + g.Canonical()))]
    else log' == log
  }

  lemma OpenEffectWrites(c: Crypto, skipper: Option<Key>, provided: Option<HansaId>, log: seq<Link>, dim: U32, at: I64)
    ensures OpenWrites(c, skipper, provided, log, dim, at,
                       OpenEffect(c, skipper, ResolvedId(c, skipper, provided), log, dim, at).log)
  {
    if skipper.Some? { FoundSigns(c, skipper.value, log, dim, at); }
    hide Genesis.Canonical;
  }

  type Heads = map<HansaId, (nat, Digest)>

  /** The id and the head an open ends with, given the heads the cache remembers, if there is
      one. */
  function Opened(c: Crypto, skipper: Option<Key>, provided: Option<HansaId>, log: seq<Link>, dim: U32, at: I64,
                  heads: Option<Heads>): Result<(HansaId, Head)> {
    var id := ResolvedId(c, skipper, provided);
    var e := OpenEffect(c, skipper, id, log, dim, at);
    if e.result.Failure? then Failure(e.result.error) else
      match Replayed(c, e.log, Some(id.value))
      case Failure(error) => Failure(error)
      case Success(head) =>
        if heads.Some? && id.value in heads.value && Regressed(Some(heads.value[id.value]), head.seqNo, head.hash)
        then Failure(ChainRegressed)
        else Success((id.value, head))
  }

  /** What comes of an open, whatever the log: a skipper's open under another id than its own, and
      an open that has neither an id nor a log to go by, have their errors. One that succeeds is
      under the skipper's id or the one provided, on a log rooted in it, with the number and hash
      of the last link, and the cache remembered no later and no different head. */
  ghost predicate OpenMeans(c: Crypto, skipper: Option<Key>, provided: Option<HansaId>, log: seq<Link>,
                            log': seq<Link>, heads: Option<Heads>, r: Result<(HansaId, Head)>) {
    && (skipper.Some? && provided.Some? && provided.value != c.hash(HANSA_ID_DOMAIN + skipper.value)
        ==> r == Failure(IdMismatch))
    && (skipper.None? && (provided.None? || log == []) ==> r == Failure(Invariant))
    && (r.Success? ==>
          var (id, head) := r.value;
          && (skipper.Some? ==> id == c.hash(HANSA_ID_DOMAIN + skipper.value))
          && (provided.Some? ==> id == provided.value)
          && RootedIn(c, log', id, head.embeddingDim)
          && var last := log'[|log'| - 1];
             && head.seqNo == last.seqNo && head.hash == c.hash(last.Canonical())
             && (heads.Some? && id in heads.value ==>
                   heads.value[id].0 < last.seqNo || heads.value[id] == (last.seqNo, c.hash(last.Canonical()))))
  }

  lemma OpenedMeans(c: Crypto, skipper: Option<Key>, provided: Option<HansaId>, log: seq<Link>, dim: U32, at: I64,
                    heads: Option<Heads>)
    ensures var e := OpenEffect(c, skipper, ResolvedId(c, skipper, provided), log, dim, at);
      OpenMeans(c, skipper, provided, log, e.log, heads, Opened(c, skipper, provided, log, dim, at, heads))
  {
    var id := ResolvedId(c, skipper, provided);
    var e := OpenEffect(c, skipper, id, log, dim, at);
    if e.result.Success? && Replayed(c, e.log, Some(id.value)).Success? { PinnedIsRooted(c, e.log, id.value); }
    hide Replayed, RootedIn, FirstLink, Link.Canonical;
  }

  /** Opens a handle on any log content; `dim` is the local tenant's dimension. It succeeds
      exactly when an id can be resolved, there is a log or the caller can found one, the log
      replays for the id, and the head cache does not remember a later or different head; each
      failure has its own error. Only a founder's open of an empty log writes to the log. */
  method Open(registry: FileRegistry, skipper: Option<Key>, provided: Option<HansaId>, dim: U32, at: I64,
              cache: HeadCache?) returns (r: Result<Hansa>)
    modifies registry, cache
    ensures var c, log, heads := registry.crypto, old(registry.log), old(HeadsOf(cache));
      var e := OpenEffect(c, skipper, ResolvedId(c, skipper, provided), log, dim, at);
      var o := Opened(c, skipper, provided, log, dim, at, heads);
      && registry.log == e.log && registry.history == old(registry.history) + e.signed
      && OpenWrites(c, skipper, provided, log, dim, at, registry.log)
      && OpenMeans(c, skipper, provided, log, registry.log, heads, o)
      && (o.Failure? ==> r == Failure(o.error) && HeadsOf(cache) == old(HeadsOf(cache)))
      && (o.Success? ==>
            && r.Success? && fresh(r.value) && r.value.Valid() && r.value.registry == registry
            && r.value.id == o.value.0 && r.value.skipper == skipper
            && (cache != null ==>
                  cache.entries == old(cache.entries)[o.value.0 := (o.value.1.seqNo, o.value.1.hash)]))
  {
    OpenEffectWrites(registry.crypto, skipper, provided, registry.log, dim, at);
    OpenedMeans(registry.crypto, skipper, provided, registry.log, dim, at, HeadsOf(cache));
    hide Replayed, HashOf, Sorted, FirstLink, Regressed, OpenWrites, OpenMeans, Link.Canonical, LogOf, AllVerify;
    var id := ResolvedId(registry.crypto, skipper, provided);
    if id.Failure? {
      return Failure(id.error);
    }
    if skipper.Some? {
      registry.Found(skipper.value, dim, at);
    } else {
      var chain := registry.ReadChain();
      if chain == [] {
        return Failure(Invariant);
      }
    }
    var log := registry.ReadChain();
    var outcome := Replay(registry.crypto, log, Some(id.value));
    if outcome.Failure? {
      return Failure(outcome.error);
    }
    if cache != null {
      if id.value in cache.entries {
        RegressedMeans(id.value, cache.entries, outcome.value.headSeq, outcome.value.headHash);
      }
      var checked := cache.CheckAndRecord(id.value, outcome.value.headSeq, outcome.value.headHash);
      if checked.Failure? {
        return Failure(checked.error);
      }
    }
    var h := new Hansa(registry, id.value, skipper);
    return Success(h);
  }

  ghost function HeadsOf(cache: HeadCache?): Option<Heads>
    reads cache
  {
    if cache == null then None else Some(cache.entries)
  }

  lemma RegressedMeans(id: HansaId, heads: Heads, seqNo: nat, hash: Digest)
    requires id in heads
    ensures Regressed(Some(heads[id]), seqNo, hash) <==>
      seqNo < heads[id].0 || (seqNo == heads[id].0 && hash != heads[id].1)
  {
  }
}
