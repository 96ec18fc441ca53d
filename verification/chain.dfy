/** The signed, hash-chained members log: links, and the verified fold that replays them
    (chain.rs, genesis.rs). */
module Chain {
  import opened Wire
  import opened Wrappers
  import opened Records
  import opened Members
  import opened Seqs

  /** The foreign functions: hashing, signature checking and signing. Signing keys are
      named by their public half. */
  datatype Crypto = Crypto(hash: Bytes -> Digest, verifies: (Key, Bytes, Sig) -> bool, sign: (Key, Bytes) -> Sig)

  datatype Error =
    | ChainBroken(seqNo: nat)
    | IdMismatch
    | Unauthorized
    | MalformedCrypto
    | BadSignature
    | ChainRegressed
    | DimMismatch(existing: U32, joining: U32)
    | Invariant

  datatype Result<+T> = Success(value: T) | Failure(error: Error) {
    predicate IsFailure() { Failure? }

    function PropagateFailure<U>(): Result<U>
      requires Failure?
    {
      Failure(error)
    }

    function Extract(): T
      requires Success?
    {
      value
    }
  }

  function IdOf(c: Crypto, pk: Key): HansaId { c.hash(HANSA_ID_DOMAIN + pk) }

  function HashOf(c: Crypto, l: Link): Digest { c.hash(l.Canonical()) }

  predicate LinkVerifies(c: Crypto, l: Link) {
    c.verifies(l.signedBy, Framed(DOMAIN_LINK, l.Canonical()), l.sig)
  }

  function SignLink(c: Crypto, skipper: Key, seqNo: nat, prev: Digest, body: Body): Link {
    var blank := Link(seqNo, prev, body, skipper, ZERO_SIG);
    Link(seqNo, prev, body, skipper, c.sign(skipper, Framed(DOMAIN_LINK, blank.Canonical())))
  }

  function FoundGenesis(c: Crypto, skipper: Key, dim: U32, at: I64): Genesis {
    Genesis(GENESIS_V, IdOf(c, skipper), skipper, dim, at, false)
  }

  function GenesisLink(c: Crypto, g: Genesis): Link {
    Link(0, ZERO_HASH, Founding(g), g.skipperPub, c.sign(g.skipperPub, Framed(DOMAIN_GENESIS, g.Canonical())))
  }

  function VerifyGenesis(c: Crypto, g: Genesis, sig: Sig): Option<Error> {
    if g.v != GENESIS_V then Some(MalformedCrypto)
    else if IdOf(c, g.skipperPub) != g.hansaId then Some(IdMismatch)
    else if !c.verifies(g.skipperPub, Framed(DOMAIN_GENESIS, g.Canonical()), sig) then Some(BadSignature)
    else None
  }

  function VerifyGenesisFor(c: Crypto, g: Genesis, expected: Option<HansaId>, sig: Sig): Option<Error> {
    if expected.Some? && g.hansaId != expected.value then Some(IdMismatch) else VerifyGenesis(c, g, sig)
  }

  /** The running state of a replay. */
  datatype Head = Head(skipper: Key, embeddingDim: U32, active: Active, seqNo: nat, hash: Digest)

  datatype ReplayOutcome = ReplayOutcome(skipper: Key, embeddingDim: U32, active: seq<MemberRecord>,
                                         headSeq: nat, headHash: Digest)

  function Outcome(h: Head): ReplayOutcome {
    ReplayOutcome(h.skipper, h.embeddingDim, Sorted(h.active), h.seqNo, h.hash)
  }

  function Apply(active: Active, b: Body): Active {
    match b
    case Admit(member, _) => active[member.tenantId := member]
    case Revoke(tenantId, _, _) => active - {tenantId}
    case _ => active
  }

  function Root(c: Crypto, first: Link, expected: Option<HansaId>): Result<Head> {
    match first.body
    case Founding(g) =>
      if first.seqNo != 0 || first.prev != ZERO_HASH || first.signedBy != g.skipperPub then Failure(ChainBroken(0))
      else (match VerifyGenesisFor(c, g, expected, first.sig)
            case Some(e) => Failure(e)
            case None => Success(Head(g.skipperPub, g.embeddingDim, map[], 0, HashOf(c, first))))
    case Checkpoint(members, dim, _) =>
      if expected.Some? && IdOf(c, first.signedBy) != expected.value then Failure(IdMismatch)
      else if !LinkVerifies(c, first) then Failure(ChainBroken(first.seqNo))
      else Success(Head(first.signedBy, dim, MapOf(members), first.seqNo, HashOf(c, first)))
    case _ => Failure(ChainBroken(0))
  }

  function Extend(c: Crypto, h: Head, l: Link): Result<Head> {
    if l.seqNo != h.seqNo + 1 || l.prev != h.hash then Failure(ChainBroken(l.seqNo))
    else if l.signedBy != h.skipper then Failure(Unauthorized)
    else if !LinkVerifies(c, l) then Failure(ChainBroken(l.seqNo))
    else if !l.body.IsEvent() then Failure(ChainBroken(l.seqNo))
    else Success(Head(h.skipper, h.embeddingDim, Apply(h.active, l.body), l.seqNo, HashOf(c, l)))
  }

  /** The head a list of links replays to, or the error of its first bad link. */
  function Replayed(c: Crypto, links: seq<Link>, expected: Option<HansaId>): Result<Head> {
    if links == [] then Failure(ChainBroken(0))
    else if |links| == 1 then Root(c, links[0], expected)
    else
      var h :- Replayed(c, links[..|links| - 1], expected);
      Extend(c, h, links[|links| - 1])
  }

  lemma {:induction false} PrefixFails(c: Crypto, links: seq<Link>, expected: Option<HansaId>, n: nat)
    requires 0 < n <= |links| && Replayed(c, links[..n], expected).Failure?
    ensures Replayed(c, links, expected) == Replayed(c, links[..n], expected)
    decreases |links|
  {
    if n < |links| {
      var init := links[..|links| - 1];
      assert init[..n] == links[..n];
      PrefixFails(c, init, expected, n);
    } else {
      assert links[..n] == links;
    }
  }

  lemma ReplayedSnoc(c: Crypto, links: seq<Link>, l: Link, expected: Option<HansaId>, h: Head)
    requires Replayed(c, links, expected) == Success(h)
    ensures Replayed(c, links + [l], expected) == Extend(c, h, l)
  {
    PrefixOfSnoc(links, l);
  }

  lemma SinglePrefix(c: Crypto, links: seq<Link>, expected: Option<HansaId>)
    requires links != []
    ensures Replayed(c, links[..1], expected) == Root(c, links[0], expected)
  {
  }

  /** One turn of the loop: the link at `n` either extends the head or ends the replay. */
  lemma NextReplayed(c: Crypto, links: seq<Link>, expected: Option<HansaId>, n: nat, h: Head)
    requires 0 < n < |links| && Replayed(c, links[..n], expected) == Success(h)
    ensures Replayed(c, links[..n + 1], expected) == Extend(c, h, links[n])
    ensures Extend(c, h, links[n]).Failure? ==> Replayed(c, links, expected) == Extend(c, h, links[n])
  {
    assert links[..n + 1][..n] == links[..n];
    if Extend(c, h, links[n]).Failure? {
      PrefixFails(c, links, expected, n + 1);
    }
  }

  /** The checks on the first link, and the map a checkpoint carries. */
  method ReplayRoot(c: Crypto, first: Link, expected: Option<HansaId>) returns (r: Result<Head>)
    ensures r == Root(c, first, expected)
  {
    match first.body {
      case Founding(g) =>
        if first.seqNo != 0 || first.prev != ZERO_HASH || first.signedBy != g.skipperPub {
          return Failure(ChainBroken(0));
        }
        var v := VerifyGenesisFor(c, g, expected, first.sig);
        if v.Some? {
          return Failure(v.value);
        }
        return Success(Head(g.skipperPub, g.embeddingDim, map[], 0, HashOf(c, first)));
      case Checkpoint(members, dim, _) =>
        if expected.Some? && IdOf(c, first.signedBy) != expected.value {
          return Failure(IdMismatch);
        }
        if !LinkVerifies(c, first) {
          return Failure(ChainBroken(first.seqNo));
        }
        var active: Active := map[];
        var i := 0;
        while i < |members|
          invariant 0 <= i <= |members| && active == MapOf(members[..i])
        {
          assert members[..i + 1][..i] == members[..i];
          active := active[members[i].tenantId := members[i]];
          i := i + 1;
        }
        assert members[..i] == members;
        return Success(Head(first.signedBy, dim, active, first.seqNo, HashOf(c, first)));
      case _ =>
        return Failure(ChainBroken(0));
    }
  }

  function Reported(h: Result<Head>): Result<ReplayOutcome> {
    match h
    case Success(h) => Success(Outcome(h))
    case Failure(e) => Failure(e)
  }

  /** `replay`: one pass that keeps the active map, the previous sequence number and the
      previous hash. */
  method Replay(c: Crypto, links: seq<Link>, expected: Option<HansaId>) returns (r: Result<ReplayOutcome>)
    ensures r == Reported(Replayed(c, links, expected))
  {
    hide Root, Sorted, MapOf, Link.Canonical, LinkVerifies, HashOf;
    if links == [] {
      return Failure(ChainBroken(0));
    }
    var root := ReplayRoot(c, links[0], expected);
    SinglePrefix(c, links, expected);
    if root.Failure? {
      PrefixFails(c, links, expected, 1);
      return Failure(root.error);
    }
    var skipper, dim := root.value.skipper, root.value.embeddingDim;
    var active: Active := root.value.active;
    var prevSeq, prevHash: Digest := root.value.seqNo, root.value.hash;
    var i := 1;
    while i < |links|
      invariant 1 <= i <= |links|
      invariant Replayed(c, links[..i], expected) == Success(Head(skipper, dim, active, prevSeq, prevHash))
    {
      var l := links[i];
      NextReplayed(c, links, expected, i, Head(skipper, dim, active, prevSeq, prevHash));
      if l.seqNo != prevSeq + 1 || l.prev != prevHash {
        return Failure(ChainBroken(l.seqNo));
      }
      if l.signedBy != skipper {
        return Failure(Unauthorized);
      }
      if !LinkVerifies(c, l) {
        return Failure(ChainBroken(l.seqNo));
      }
      match l.body {
        case Admit(member, _) => active := active[member.tenantId := member];
        case Revoke(tenantId, _, _) => active := active - {tenantId};
        case _ => return Failure(ChainBroken(l.seqNo));
      }
      prevHash := HashOf(c, l);
      prevSeq := l.seqNo;
      i := i + 1;
    }
    assert links[..i] == links;
    return Success(ReplayOutcome(skipper, dim, Sorted(active), prevSeq, prevHash));
  }

  /** The active map after a run of admits and revokes. */
  function Fold(start: Active, links: seq<Link>): Active {
    if links == [] then start else Apply(Fold(start, links[..|links| - 1]), links[|links| - 1].body)
  }

  /** `l` continues a chain after `p` under the key `skipper`. */
  predicate Follows(c: Crypto, skipper: Key, p: Link, l: Link) {
    && l.seqNo == p.seqNo + 1
    && l.prev == HashOf(c, p)
    && l.signedBy == skipper
    && LinkVerifies(c, l)
    && l.body.IsEvent()
  }

  predicate Chained(c: Crypto, skipper: Key, links: seq<Link>) {
    forall i :: 1 <= i < |links| ==> Follows(c, skipper, links[i - 1], links[i])
  }

  /** A genesis of version 2 at number 0 after the zero hash, signed by the key it names, whose
      id is that key's; or a snapshot signed by its key. The id is the expected one, if any. */
  predicate GoodRoot(c: Crypto, l: Link, expected: Option<HansaId>) {
    && (expected.Some? ==> c.hash(HANSA_ID_DOMAIN + l.signedBy) == expected.value)
    && match l.body
       case Founding(g) =>
         && l.seqNo == 0 && l.prev == Zeros(32) && l.signedBy == g.skipperPub
         && g.v == 2 && g.hansaId == c.hash(HANSA_ID_DOMAIN + l.signedBy)
         && c.verifies(l.signedBy, DOMAIN_GENESIS + g.Canonical(), l.sig)
       case Checkpoint(_, _, _) => c.verifies(l.signedBy, DOMAIN_LINK + l.Canonical(), l.sig)
       case _ => false
  }

  function RootDim(l: Link): Option<U32> {
    match l.body
    case Founding(g) => Some(g.embeddingDim)
    case Checkpoint(_, dim, _) => Some(dim)
    case _ => None
  }

  lemma RootIs(c: Crypto, l: Link, expected: Option<HansaId>)
    ensures Root(c, l, expected).Success? <==> GoodRoot(c, l, expected)
    ensures Root(c, l, expected).Success? ==>
      var h := Root(c, l, expected).value;
      && h.skipper == l.signedBy && RootDim(l) == Some(h.embeddingDim)
      && h.active == (if l.body.Checkpoint? then MapOf(l.body.members) else map[])
      && h.seqNo == l.seqNo && h.hash == c.hash(l.Canonical())
  {
    hide Link.Canonical, Genesis.Canonical, MapOf;
  }

  /** What a list with a bad root is refused for. */
  lemma BadRoot(c: Crypto, links: seq<Link>, expected: Option<HansaId>)
    requires links != [] && !GoodRoot(c, links[0], expected)
    ensures var l := links[0];
      var wrongId := expected.Some? && expected.value != c.hash(HANSA_ID_DOMAIN + l.signedBy);
      Replayed(c, links, expected) == Failure(
        match l.body
        case Founding(g) =>
          if l.seqNo != 0 || l.prev != Zeros(32) || l.signedBy != g.skipperPub then ChainBroken(0)
          else if expected.Some? && expected.value != g.hansaId then IdMismatch
          else if g.v != 2 then MalformedCrypto
          else if g.hansaId != c.hash(HANSA_ID_DOMAIN + l.signedBy) then IdMismatch
          else BadSignature
        case Checkpoint(_, _, _) => if wrongId then IdMismatch else ChainBroken(l.seqNo)
        case _ => ChainBroken(0))
  {
    RootIs(c, links[0], expected);
    hide Link.Canonical, Genesis.Canonical, MapOf;
    SinglePrefix(c, links, expected);
    PrefixFails(c, links, expected, 1);
  }

  /** The head belongs to the last link, its skipper and dimension to the root, and its members
      are the fold of the events onto those the root carries. */
  predicate HeadOf(c: Crypto, links: seq<Link>, h: Head)
    requires links != []
  {
    var root, last := links[0], links[|links| - 1];
    && h.skipper == root.signedBy && RootDim(root) == Some(h.embeddingDim)
    && h.active == Fold(if root.body.Checkpoint? then MapOf(root.body.members) else map[], links[1..])
    && h.seqNo == last.seqNo && h.hash == c.hash(last.Canonical())
  }

  lemma NextHead(c: Crypto, links: seq<Link>, h: Head)
    requires |links| > 1 && HeadOf(c, links[..|links| - 1], h)
    ensures var n := |links| - 1; var r := Extend(c, h, links[n]);
      && (r.Success? <==> Follows(c, links[0].signedBy, links[n - 1], links[n]))
      && (r.Success? ==> HeadOf(c, links, r.value))
  {
    hide LinkVerifies, Apply, Link.Canonical, MapOf, RootDim;
    var n := |links| - 1;
    assert links[..n][1..] == links[1..][..n - 1];
  }

  /** Replay accepts a list exactly when its root is good and every later link continues
      the one before it under the root's key. */
  lemma {:induction false} ReplayAccepts(c: Crypto, links: seq<Link>, expected: Option<HansaId>)
    requires links != []
    ensures Replayed(c, links, expected).Success?
       <==> GoodRoot(c, links[0], expected) && Chained(c, links[0].signedBy, links)
    ensures Replayed(c, links, expected).Success? ==> HeadOf(c, links, Replayed(c, links, expected).value)
    decreases |links|
  {
    RootIs(c, links[0], expected);
    if |links| > 1 {
      hide Extend, Follows, Chained, HeadOf, GoodRoot;
      var init := links[..|links| - 1];
      ReplayAccepts(c, init, expected);
      ChainedSnoc(c, links[0].signedBy, links);
      var r := Replayed(c, init, expected);
      if r.Success? { NextHead(c, links, r.value); }
    }
    hide Root, GoodRoot, Apply, Link.Canonical, MapOf, RootDim;
  }

  /** What a list is refused for whose first `n` links are good and the next is not. */
  lemma FirstBadLink(c: Crypto, links: seq<Link>, expected: Option<HansaId>, n: nat)
    requires 0 < n < |links| && GoodRoot(c, links[0], expected) && Chained(c, links[0].signedBy, links[..n])
    requires !Follows(c, links[0].signedBy, links[n - 1], links[n])
    ensures var p, l := links[n - 1], links[n];
      Replayed(c, links, expected) == Failure(
        if l.seqNo == p.seqNo + 1 && l.prev == c.hash(p.Canonical()) && l.signedBy != links[0].signedBy
        then Unauthorized else ChainBroken(l.seqNo))
  {
    ReplayAccepts(c, links[..n], expected);
    var h := Replayed(c, links[..n], expected).value;
    NextReplayed(c, links, expected, n, h);
    hide Replayed, GoodRoot, Chained, Link.Canonical, Apply, RootDim, MapOf, Fold;
  }

  lemma {:induction false} ChainedSnoc(c: Crypto, skipper: Key, links: seq<Link>)
    requires |links| > 1
    ensures Chained(c, skipper, links)
       <==> (Chained(c, skipper, links[..|links| - 1])
             && Follows(c, skipper, links[|links| - 2], links[|links| - 1]))
  {
    var init := links[..|links| - 1];
    assert forall i :: 0 <= i < |init| ==> init[i] == links[i];
    if Chained(c, skipper, init) && Follows(c, skipper, links[|links| - 2], links[|links| - 1]) {
      forall i | 1 <= i < |links| ensures Follows(c, skipper, links[i - 1], links[i]) {
        if i < |links| - 1 { assert Follows(c, skipper, init[i - 1], init[i]); }
      }
    }
  }
}
