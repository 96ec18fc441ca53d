/** What a log means: every link a skipper has ever written, in order, against which the
    compacted log, an arbitrary list offered to `replay`, and a head hash are measured. */
module History {
  import opened Wire
  import opened Wrappers
  import opened Records
  import opened Members
  import opened Chain
  import opened Codec
  import opened Seqs

  /** The link at `i` continues the history: an admit, a revoke, or a checkpoint that
      carries exactly the members active just before it. */
  predicate Recorded(c: Crypto, skipper: Key, h: seq<Link>, i: nat)
    requires 1 <= i < |h| && h[0].body.Founding?
  {
    && h[i].seqNo == h[i - 1].seqNo + 1
    && h[i].prev == HashOf(c, h[i - 1])
    && h[i].signedBy == skipper
    && LinkVerifies(c, h[i])
    && (h[i].body.IsEvent() || SnapshotOf(h[i].body, h[..i]))
  }

  predicate SnapshotOf(b: Body, h: seq<Link>)
    requires h != [] && h[0].body.Founding?
  {
    && b.Checkpoint?
    && b.members == Sorted(Fold(map[], h))
    && b.embeddingDim == h[0].body.genesis.embeddingDim
  }

  /** Every link written since the founding, checkpoints included. */
  predicate Written(c: Crypto, skipper: Key, h: seq<Link>) {
    && h != []
    && h[0].body.Founding?
    && h[0].signedBy == skipper
    && Root(c, h[0], Some(IdOf(c, skipper))).Success?
    && forall i :: 1 <= i < |h| ==> Recorded(c, skipper, h, i)
  }

  /** A place a log may start: the genesis or a checkpoint, with only events after it
      up to `n`. */
  predicate StretchFrom(h: seq<Link>, start: nat, n: nat) {
    && start < n <= |h|
    && (start == 0 || h[start].body.Checkpoint?)
    && forall i :: start < i < n ==> h[i].body.IsEvent()
  }

  /** The head a log has after the first `n` links of its history. */
  function HeadAt(c: Crypto, skipper: Key, h: seq<Link>, n: nat): Head
    requires 0 < n <= |h| && h[0].body.Founding?
  {
    Head(skipper, h[0].body.genesis.embeddingDim, Fold(map[], h[..n]), n - 1, HashOf(c, h[n - 1]))
  }

  lemma {:induction false} FoldKeyed(start: Active, links: seq<Link>)
    requires Keyed(start)
    ensures Keyed(Fold(start, links))
  {
    if links == [] {
    } else {
      FoldKeyed(start, links[..|links| - 1]);
    }
  }

  lemma FoldNext(h: seq<Link>, n: nat)
    requires n < |h|
    ensures Fold(map[], h[..n + 1]) == Apply(Fold(map[], h[..n]), h[n].body)
  {
    assert h[..n + 1][..n] == h[..n];
  }

  lemma WrittenPrefix(c: Crypto, skipper: Key, h: seq<Link>, n: nat)
    requires Written(c, skipper, h) && 0 < n <= |h|
    ensures Written(c, skipper, h[..n])
  {
    var p := h[..n];
    forall i | 1 <= i < n ensures Recorded(c, skipper, p, i) {
      assert Recorded(c, skipper, h, i);
      assert p[..i] == h[..i];
    }
  }

  lemma {:induction false} SeqIsIndex(c: Crypto, skipper: Key, h: seq<Link>, i: nat)
    requires Written(c, skipper, h) && i < |h|
    ensures h[i].seqNo == i && h[i].signedBy == skipper && (h[i].body.Founding? <==> i == 0)
  {
    if i == 0 {
    } else {
      assert Recorded(c, skipper, h, i);
      SeqIsIndex(c, skipper, h, i - 1);
    }
  }

  predicate Pins(c: Crypto, skipper: Key, expected: Option<HansaId>) {
    expected == None || expected == Some(IdOf(c, skipper))
  }

  lemma FoundingReplays(c: Crypto, skipper: Key, h: seq<Link>, expected: Option<HansaId>)
    requires Written(c, skipper, h) && Pins(c, skipper, expected)
    ensures Root(c, h[0], expected) == Success(HeadAt(c, skipper, h, 1))
  {
    assert h[..1] == [h[0]];
    assert Fold(map[], h[..1][..0]) == map[];
  }

  lemma CheckpointReplays(c: Crypto, skipper: Key, h: seq<Link>, i: nat, expected: Option<HansaId>)
    requires Written(c, skipper, h) && Pins(c, skipper, expected)
    requires 0 < i < |h| && h[i].body.Checkpoint?
    ensures Root(c, h[i], expected) == Success(HeadAt(c, skipper, h, i + 1))
  {
    assert Recorded(c, skipper, h, i);
    SeqIsIndex(c, skipper, h, i);
    FoldKeyed(map[], h[..i]);
    MapOfSorted(Fold(map[], h[..i]));
    FoldNext(h, i);
  }

  lemma EventExtends(c: Crypto, skipper: Key, h: seq<Link>, i: nat)
    requires Written(c, skipper, h)
    requires 0 < i < |h| && h[i].body.IsEvent()
    ensures Extend(c, HeadAt(c, skipper, h, i), h[i]) == Success(HeadAt(c, skipper, h, i + 1))
  {
    assert Recorded(c, skipper, h, i);
    SeqIsIndex(c, skipper, h, i);
    FoldNext(h, i);
  }

  /** Compaction preserves meaning: wherever a log was cut, replaying what is left gives
      the skipper, the dimension and the active members of the whole history. */
  lemma {:induction false} StretchReplays(c: Crypto, skipper: Key, h: seq<Link>, start: nat, n: nat,
                                          expected: Option<HansaId>)
    requires Written(c, skipper, h) && StretchFrom(h, start, n) && Pins(c, skipper, expected)
    ensures Replayed(c, h[start..n], expected) == Success(HeadAt(c, skipper, h, n))
    decreases n
  {
    hide Root, Extend, Recorded, HashOf, Fold, Apply;
    if n == start + 1 {
      SliceOne(h, start);
      if start == 0 {
        FoundingReplays(c, skipper, h, expected);
      } else {
        CheckpointReplays(c, skipper, h, start, expected);
      }
    } else {
      StretchReplays(c, skipper, h, start, n - 1, expected);
      EventExtends(c, skipper, h, n - 1);
      ReplayedSnoc(c, h[start..n - 1], h[n - 1], expected, HeadAt(c, skipper, h, n - 1));
      SliceSnoc(h, start, n);
    }
  }

  /** `t`'s last event before the end of the list is the admit at `i`. */
  predicate LastAdmit(h: seq<Link>, t: TenantId, i: nat) {
    && i < |h|
    && h[i].body.Admit?
    && h[i].body.member.tenantId == t
    && forall j :: i < j < |h| ==> !About(h[j], t)
  }

  predicate About(l: Link, t: TenantId) {
    || (l.body.Admit? && l.body.member.tenantId == t)
    || (l.body.Revoke? && l.body.tenantId == t)
  }

  /** A tenant is active exactly when the last event about it admitted it, and then with
      the record of that admit. */
  lemma {:induction false} ActiveIffLastAdmit(h: seq<Link>, t: TenantId)
    ensures t in Fold(map[], h) <==> exists i: nat :: LastAdmit(h, t, i)
    ensures forall i: nat :: LastAdmit(h, t, i) ==> t in Fold(map[], h) && Fold(map[], h)[t] == h[i].body.member
  {
    if h == [] {
    } else {
      var n := |h| - 1;
      var p := h[..n];
      ActiveIffLastAdmit(p, t);
      if About(h[n], t) {
        assert h[n].body.Admit? ==> LastAdmit(h, t, n);
      } else {
        forall i: nat ensures LastAdmit(h, t, i) <==> LastAdmit(p, t, i) {
          if LastAdmit(p, t, i) {
            forall j | i < j < |h| ensures !About(h[j], t) {
              if j < n { assert p[j] == h[j]; }
            }
          }
          if LastAdmit(h, t, i) {
            assert p[i] == h[i];
          }
        }
      }
    }
  }

  /** The message the signature of a link covers. */
  function MessageOf(l: Link): Bytes {
    match l.body
    case Founding(g) => Framed(DOMAIN_GENESIS, g.Canonical())
    case _ => Framed(DOMAIN_LINK, l.Canonical())
  }

  /** The signatures of these links verify: what correct signing means for the links a skipper
      has signed, and no more than that. */
  predicate AllVerify(c: Crypto, links: seq<Link>) {
    forall i :: 0 <= i < |links| ==> c.verifies(links[i].signedBy, MessageOf(links[i]), links[i].sig)
  }

  lemma AllVerifyPrefix(c: Crypto, links: seq<Link>, n: nat)
    requires AllVerify(c, links) && n <= |links|
    ensures AllVerify(c, links[..n])
  {
    forall i | 0 <= i < n ensures c.verifies(links[..n][i].signedBy, MessageOf(links[..n][i]), links[..n][i].sig) {
      assert links[..n][i] == links[i];
    }
  }

  /** The twin's link for a body, after the twin `v`. */
  function TwinLink(c: Crypto, skipper: Key, v: seq<Link>, b: Body): Link
    requires v != []
  {
    SignLink(c, skipper, v[|v| - 1].seqNo + 1, HashOf(c, v[|v| - 1]), b)
  }

  lemma {:induction false} TwinPrefixVerifies(c: Crypto, skipper: Key, h: seq<Link>)
    requires |h| > 1 && AllVerify(c, Uncompacted(c, skipper, h))
    ensures var v, b := Uncompacted(c, skipper, h[..|h| - 1]), h[|h| - 1].body;
      AllVerify(c, v) && (b.IsEvent() ==> LinkVerifies(c, TwinLink(c, skipper, v, b)))
  {
    var v, b := Uncompacted(c, skipper, h[..|h| - 1]), h[|h| - 1].body;
    hide HashOf, Link.Canonical, Framed, AllVerify, TwinLink;
    if !b.Checkpoint? {
      assert Uncompacted(c, skipper, h) == v + [TwinLink(c, skipper, v, b)];
      hide Uncompacted;
      AllVerifySnoc(c, v, TwinLink(c, skipper, v, b));
      if b.IsEvent() { TwinIsLink(c, skipper, v, b); }
    }
  }

  lemma TwinIsLink(c: Crypto, skipper: Key, v: seq<Link>, b: Body)
    requires v != []
    ensures TwinLink(c, skipper, v, b).body == b
  {
  }

  lemma AllVerifySnoc(c: Crypto, links: seq<Link>, l: Link)
    requires AllVerify(c, links + [l])
    ensures AllVerify(c, links) && c.verifies(l.signedBy, MessageOf(l), l.sig)
  {
    AllVerifyPrefix(c, links + [l], |links|);
    PrefixOfSnoc(links, l);
    assert (links + [l])[|links|] == l;
  }

  /** The log the same admits and revokes would have left had nothing ever been compacted. */
  function Uncompacted(c: Crypto, skipper: Key, h: seq<Link>): (u: seq<Link>)
    ensures h != [] ==> u != []
  {
    if |h| <= 1 then h else
      var u := Uncompacted(c, skipper, h[..|h| - 1]);
      var l := h[|h| - 1];
      if l.body.Checkpoint? then u
      else u + [TwinLink(c, skipper, u, l.body)]
  }

  function HeadOf(c: Crypto, skipper: Key, dim: U32, active: Active, last: Link): Head {
    Head(skipper, dim, active, last.seqNo, HashOf(c, last))
  }

  lemma SignedExtends(c: Crypto, skipper: Key, dim: U32, active: Active, last: Link, b: Body)
    requires b.IsEvent() && LinkVerifies(c, SignLink(c, skipper, last.seqNo + 1, HashOf(c, last), b))
    ensures var l := SignLink(c, skipper, last.seqNo + 1, HashOf(c, last), b);
      Extend(c, HeadOf(c, skipper, dim, active, last), l) == Success(HeadOf(c, skipper, dim, Apply(active, b), l))
  {
    hide Link.Canonical, Framed;
  }

  lemma {:induction false} UncompactedReplays(c: Crypto, skipper: Key, h: seq<Link>, expected: Option<HansaId>)
    requires Written(c, skipper, h) && Pins(c, skipper, expected) && AllVerify(c, Uncompacted(c, skipper, h))
    ensures var u := Uncompacted(c, skipper, h);
      Replayed(c, u, expected)
      == Success(HeadOf(c, skipper, h[0].body.genesis.embeddingDim, Fold(map[], h), u[|u| - 1]))
    decreases |h|
  {
    hide Root, Extend, HashOf, Apply, Link.Canonical, Framed, Replayed, SignLink, AllVerify;
    var n := |h| - 1;
    var dim := h[0].body.genesis.embeddingDim;
    if n == 0 {
      FoundingReplays(c, skipper, h, expected);
      SingleReplayed(c, h, expected);
      SeqIsIndex(c, skipper, h, 0);
      assert h[..1] == h;
    } else {
      var p := h[..n];
      WrittenPrefix(c, skipper, h, n);
      TwinPrefixVerifies(c, skipper, h);
      UncompactedReplays(c, skipper, p, expected);
      EventOrCheckpoint(c, skipper, h, n);
      var v := Uncompacted(c, skipper, p);
      if h[n].body.IsEvent() {
        var last := v[|v| - 1];
        SignedExtends(c, skipper, dim, Fold(map[], p), last, h[n].body);
        ReplayedSnoc(c, v, SignLink(c, skipper, last.seqNo + 1, HashOf(c, last), h[n].body), expected,
                     HeadOf(c, skipper, dim, Fold(map[], p), last));
      } else {
        CheckpointInert(Fold(map[], p), h[n].body);
      }
    }
  }

  lemma SingleReplayed(c: Crypto, links: seq<Link>, expected: Option<HansaId>)
    requires |links| == 1
    ensures Replayed(c, links, expected) == Root(c, links[0], expected)
  {
  }

  lemma EventOrCheckpoint(c: Crypto, skipper: Key, h: seq<Link>, i: nat)
    requires Written(c, skipper, h) && 1 <= i < |h|
    ensures h[i].body.IsEvent() || h[i].body.Checkpoint?
  {
    assert Recorded(c, skipper, h, i);
  }

  lemma CheckpointInert(active: Active, b: Body)
    requires b.Checkpoint?
    ensures Apply(active, b) == active
  {
  }

  /** `log` and `twin` replay to the same skipper, dimension and members. */
  predicate SameMeaning(c: Crypto, log: seq<Link>, twin: seq<Link>, expected: Option<HansaId>, skipper: Key,
                        active: Active) {
    var a, b := Replayed(c, log, expected), Replayed(c, twin, expected);
    && a.Success? && b.Success?
    && a.value.skipper == b.value.skipper == skipper
    && a.value.embeddingDim == b.value.embeddingDim
    && a.value.active == b.value.active == active
  }

  /** The compacted log and its never-compacted twin replay to the same skipper, dimension
      and active members. */
  lemma {:induction false} CompactionPreservesMeaning(c: Crypto, skipper: Key, h: seq<Link>, start: nat,
                                                      expected: Option<HansaId>)
    requires Written(c, skipper, h) && StretchFrom(h, start, |h|) && Pins(c, skipper, expected)
    requires AllVerify(c, Uncompacted(c, skipper, h))
    ensures SameMeaning(c, h[start..], Uncompacted(c, skipper, h), expected, skipper, Fold(map[], h))
  {
    assert h[start..|h|] == h[start..] && h[..|h|] == h;
    hide Replayed, Uncompacted, Fold, HashOf, Written, AllVerify, StretchFrom, Pins;
    StretchReplays(c, skipper, h, start, |h|, expected);
    UncompactedReplays(c, skipper, h, expected);
  }

  /** `m` is the message of one of these links. */
  predicate WasSigned(links: seq<Link>, m: Bytes) {
    exists i :: 0 <= i < |links| && m == MessageOf(links[i])
  }

  /** Unforgeability: nothing verifies under the skipper's key but the messages of the links it
      signed. */
  ghost predicate Unforgeable(c: Crypto, skipper: Key, signed: seq<Link>) {
    forall m: Bytes, s: Sig :: c.verifies(skipper, m, s) ==> WasSigned(signed, m)
  }

  /** The id commits to the key it was derived from. */
  ghost predicate PinsKey(c: Crypto, skipper: Key) {
    forall k: Key :: IdOf(c, k) == IdOf(c, skipper) ==> k == skipper
  }

  predicate AllSized(links: seq<Link>) { forall i :: 0 <= i < |links| ==> Sized(links[i]) }

  /** The history says the same as `l` at its sequence number. */
  predicate InLine(h: seq<Link>, l: Link) { l.seqNo < |h| && l.Unsigned() == h[l.seqNo].Unsigned() }

  /** An event that continues no link the skipper signed. */
  predicate Stray(c: Crypto, signed: seq<Link>, l: Link) {
    l.body.IsEvent() && forall k :: 0 <= k < |signed| ==> HashOf(c, signed[k]) != l.prev
  }

  /** How a skipper's own links look. */
  predicate OwnShape(skipper: Key, l: Link) {
    && l.signedBy == skipper
    && (l.body.Founding? ==> l.seqNo == 0 && l.prev == ZERO_HASH && l.body.genesis.skipperPub == skipper)
  }

  /** Every signed link is in line with the history or astray. */
  predicate Accounted(c: Crypto, skipper: Key, h: seq<Link>, signed: seq<Link>, all: seq<Link>) {
    forall i :: 0 <= i < |signed| ==>
      OwnShape(skipper, signed[i]) && (InLine(h, signed[i]) || Stray(c, all, signed[i]))
  }

  /** What verifies under the skipper's key in these links is what it signed. */
  predicate OnlySigned(c: Crypto, skipper: Key, signed: seq<Link>, links: seq<Link>) {
    forall i :: 0 <= i < |links| && links[i].signedBy == skipper ==>
      c.verifies(skipper, MessageOf(links[i]), links[i].sig) ==> WasSigned(signed, MessageOf(links[i]))
  }

  /** Equal signed messages make equal statements. */
  lemma SameMessage(skipper: Key, k: Link, l: Link)
    requires Sized(k) && Sized(l) && OwnShape(skipper, k) && OwnShape(skipper, l) && MessageOf(k) == MessageOf(l)
    ensures k.Unsigned() == l.Unsigned()
  {
    hide Link.Canonical, Genesis.Canonical, Framed;
    if k.body.Founding? && l.body.Founding? {
      FramedInjective(DOMAIN_GENESIS, k.body.genesis.Canonical(), l.body.genesis.Canonical());
      GenesisInjective(k.body.genesis, l.body.genesis);
    } else if k.body.Founding? {
      DomainsDisjoint(k.body.genesis.Canonical(), l.Canonical());
    } else if l.body.Founding? {
      DomainsDisjoint(l.body.genesis.Canonical(), k.Canonical());
    } else {
      FramedInjective(DOMAIN_LINK, k.Canonical(), l.Canonical());
      CanonicalInjective(k, l);
    }
  }

  lemma OwnHistory(c: Crypto, skipper: Key, h: seq<Link>, all: seq<Link>)
    requires Written(c, skipper, h)
    ensures Accounted(c, skipper, h, h, all)
  {
    hide HashOf, Recorded;
    forall i | 0 <= i < |h| ensures OwnShape(skipper, h[i]) && InLine(h, h[i]) {
      SeqIsIndex(c, skipper, h, i);
    }
  }

  /** A link that verifies under the skipper's key restates the history link of its seq. */
  lemma VerifiedIsRecorded(c: Crypto, skipper: Key, h: seq<Link>, l: Link)
    requires Written(c, skipper, h) && Unforgeable(c, skipper, h) && AllSized(h) && Sized(l)
    requires l.signedBy == skipper && !l.body.Founding? && LinkVerifies(c, l)
    ensures 1 <= l.seqNo < |h| && l.Unsigned() == h[l.seqNo].Unsigned()
  {
    OwnHistory(c, skipper, h, h);
    hide Recorded, HashOf, Link.Canonical;
    assert WasSigned(h, MessageOf(l));
    var i :| 0 <= i < |h| && MessageOf(l) == MessageOf(h[i]);
    SameMessage(skipper, l, h[i]);
    SeqIsIndex(c, skipper, h, i);
  }

  lemma UnsignedFields(a: Link, b: Link)
    requires a.Unsigned() == b.Unsigned()
    ensures a.seqNo == b.seqNo && a.prev == b.prev && a.body == b.body && a.signedBy == b.signedBy
    ensures a.Canonical() == b.Canonical()
  {
  }

  /** `links` says, link by link, what the history says from `start` on. */
  predicate Restates(links: seq<Link>, h: seq<Link>, start: nat) {
    && start + |links| <= |h|
    && forall i :: 0 <= i < |links| ==> links[i].Unsigned() == h[start + i].Unsigned()
  }

  /** The two lists agree link by link on all but the signatures. */
  predicate SameStatements(ks: seq<Link>, ls: seq<Link>) {
    |ks| == |ls| && forall i :: 0 <= i < |ks| ==> ks[i].Unsigned() == ls[i].Unsigned()
  }

  /** The head depends on the statements alone, not on the signatures. */
  lemma {:induction false} SameStatementsSameHead(c: Crypto, ks: seq<Link>, ls: seq<Link>, ek: Option<HansaId>,
                                                  el: Option<HansaId>)
    requires SameStatements(ks, ls)
    requires Replayed(c, ks, ek).Success? && Replayed(c, ls, el).Success?
    ensures Replayed(c, ks, ek) == Replayed(c, ls, el)
    decreases |ks|
  {
    hide Apply, Link.Canonical, LinkVerifies, VerifyGenesisFor;
    var n := |ks| - 1;
    UnsignedFields(ks[n], ls[n]);
    if n > 0 {
      SameStatementsSameHead(c, ks[..n], ls[..n], ek, el);
    }
  }

  /** What an accepted root is, and that it verifies under its own key. */
  lemma AcceptedRoot(c: Crypto, skipper: Key, l: Link)
    requires PinsKey(c, skipper) && Root(c, l, Some(IdOf(c, skipper))).Success?
    ensures OwnShape(skipper, l) && (l.body.Founding? || l.body.Checkpoint?)
    ensures c.verifies(skipper, MessageOf(l), l.sig)
  {
  }

  lemma SignedLink(c: Crypto, skipper: Key, h: seq<Link>, signed: seq<Link>, all: seq<Link>, l: Link)
      returns (j: nat)
    requires Accounted(c, skipper, h, signed, all) && AllSized(signed) && Sized(l) && OwnShape(skipper, l)
    requires WasSigned(signed, MessageOf(l))
    ensures j < |signed| && l.Unsigned() == signed[j].Unsigned()
    ensures InLine(h, l) || Stray(c, all, l)
  {
    hide HashOf, Link.Canonical;
    j :| 0 <= j < |signed| && MessageOf(l) == MessageOf(signed[j]);
    SameMessage(skipper, l, signed[j]);
    UnsignedFields(l, signed[j]);
  }

  /** Every link of an accepted list is in line with the history. */
  lemma {:induction false} AcceptedInLine(c: Crypto, skipper: Key, h: seq<Link>, signed: seq<Link>, all: seq<Link>,
                                          links: seq<Link>, i: nat)
    requires Accounted(c, skipper, h, signed, all) && signed <= all && PinsKey(c, skipper)
    requires AllSized(signed) && AllSized(links) && OnlySigned(c, skipper, signed, links) && i < |links|
    requires Root(c, links[0], Some(IdOf(c, skipper))).Success? && Chained(c, links[0].signedBy, links)
    ensures links[i].seqNo == links[0].seqNo + i && links[i].signedBy == skipper
    ensures InLine(h, links[i])
    ensures WasSigned(signed, MessageOf(links[i])) && OwnShape(skipper, links[i])
  {
    AcceptedRoot(c, skipper, links[0]);
    hide HashOf, Link.Canonical, Root, InLine, MessageOf, WasSigned, Accounted, PinsKey, Sized;
    if i == 0 {
      var j := SignedLink(c, skipper, h, signed, all, links[0]);
    } else {
      AcceptedInLine(c, skipper, h, signed, all, links, i - 1);
      FollowerVerifies(c, skipper, links[i - 1], links[i]);
      var j := SignedLink(c, skipper, h, signed, all, links[i]);
      var k := SignedLink(c, skipper, h, signed, all, links[i - 1]);
      SameHash(c, links[i - 1], signed[k]);
      assert all[k] == signed[k];
    }
  }

  lemma FollowerVerifies(c: Crypto, skipper: Key, p: Link, l: Link)
    requires Follows(c, skipper, p, l)
    ensures OwnShape(skipper, l) && c.verifies(skipper, MessageOf(l), l.sig)
  {
    hide HashOf;
  }

  lemma SameHash(c: Crypto, k: Link, l: Link)
    requires k.Unsigned() == l.Unsigned()
    ensures HashOf(c, k) == HashOf(c, l)
  {
    UnsignedFields(k, l);
  }

  lemma LineHas(h: seq<Link>, l: Link)
    requires InLine(h, l)
    ensures l.seqNo < |h| && l.Unsigned() == h[l.seqNo].Unsigned() && l.body == h[l.seqNo].body
  {
    UnsignedFields(l, h[l.seqNo]);
  }

  lemma {:induction false} AcceptedStretch(c: Crypto, skipper: Key, h: seq<Link>, links: seq<Link>)
    requires Written(c, skipper, h) && links != [] && Chained(c, links[0].signedBy, links)
    requires links[0].body.Founding? || links[0].body.Checkpoint?
    requires forall i :: 0 <= i < |links| ==> InLine(h, links[i]) && links[i].seqNo == links[0].seqNo + i
    ensures Restates(links, h, links[0].seqNo)
    ensures StretchFrom(h, links[0].seqNo, links[0].seqNo + |links|)
  {
    hide Recorded, HashOf, LinkVerifies, Written, InLine;
    var start, n := links[0].seqNo, |links|;
    SeqIsIndex(c, skipper, h, start) by { LineHas(h, links[0]); }
    LineHas(h, links[0]);
    LineHas(h, links[n - 1]);
    forall i | start < i < start + n ensures h[i].body.IsEvent() {
      LineHas(h, links[i - start]);
      assert Follows(c, links[0].signedBy, links[i - start - 1], links[i - start]);
    }
    forall i | 0 <= i < n ensures links[i].Unsigned() == h[start + i].Unsigned() { LineHas(h, links[i]); }
  }

  lemma {:induction false} RestatingReplays(c: Crypto, skipper: Key, h: seq<Link>, links: seq<Link>, start: nat)
    requires Written(c, skipper, h) && Restates(links, h, start) && StretchFrom(h, start, start + |links|)
    requires Replayed(c, links, Some(IdOf(c, skipper))).Success?
    ensures Replayed(c, links, Some(IdOf(c, skipper))) == Success(HeadAt(c, skipper, h, start + |links|))
  {
    hide Recorded, Extend, Apply, Fold, Replayed, Root, HashOf, IdOf, HeadAt, Link.Unsigned;
    var id := Some(IdOf(c, skipper));
    var n := start + |links|;
    var own := h[start..n];
    assert SameStatements(links, own);
    StretchReplays(c, skipper, h, start, n, id);
    SameStatementsSameHead(c, links, own, id, id);
  }

  /** The list restates a stretch of the history from the genesis or a checkpoint, and replays
      to what the history had reached at its end. */
  ghost predicate Explained(c: Crypto, skipper: Key, h: seq<Link>, links: seq<Link>) {
    && links != [] && h != [] && h[0].body.Founding?
    && var start := links[0].seqNo;
    && Restates(links, h, start)
    && StretchFrom(h, start, start + |links|)
    && Replayed(c, links, Some(IdOf(c, skipper))) == Success(HeadAt(c, skipper, h, start + |links|))
  }

  /** If all the skipper signed is in line or astray, every accepted list made of what it
      signed is explained by the line. */
  lemma AcceptedExplained(c: Crypto, skipper: Key, h: seq<Link>, signed: seq<Link>, all: seq<Link>, links: seq<Link>)
    requires h == [] || Written(c, skipper, h)
    requires Accounted(c, skipper, h, signed, all) && signed <= all && PinsKey(c, skipper)
    requires AllSized(signed) && AllSized(links) && OnlySigned(c, skipper, signed, links) && links != []
    requires Replayed(c, links, Some(IdOf(c, skipper))).Success?
    ensures Explained(c, skipper, h, links)
  {
    hide Recorded, Extend, Apply, Fold, Replayed, Chained, HashOf, HeadAt, InLine, Restates, StretchFrom, PinsKey,
         Sized, Accounted, OnlySigned, Root, IdOf, WasSigned, GoodRoot;
    ReplayAccepts(c, links, Some(IdOf(c, skipper)));
    RootIs(c, links[0], Some(IdOf(c, skipper)));
    AcceptedRoot(c, skipper, links[0]);
    forall i | 0 <= i < |links| ensures InLine(h, links[i]) && links[i].seqNo == links[0].seqNo + i {
      AcceptedInLine(c, skipper, h, signed, all, links, i);
    }
    InSomeLine(h, links[0]);
    AcceptedStretch(c, skipper, h, links);
    RestatingReplays(c, skipper, h, links, links[0].seqNo);
  }

  lemma InSomeLine(h: seq<Link>, l: Link)
    requires InLine(h, l)
    ensures h != []
  {
  }

  /** Integrity of history: whatever list is offered, if `replay` accepts it for the pinned
      id it restates a stretch of the skipper's own history that starts at the genesis or
      at a checkpoint, and returns what that history had reached at that point. */
  lemma IntegrityOfHistory(c: Crypto, skipper: Key, h: seq<Link>, links: seq<Link>)
    requires Written(c, skipper, h) && Unforgeable(c, skipper, h) && PinsKey(c, skipper)
    requires AllSized(h) && AllSized(links)
    requires Replayed(c, links, Some(IdOf(c, skipper))).Success?
    ensures Explained(c, skipper, h, links)
  {
    OwnHistory(c, skipper, h, h);
    assert links != [];
    hide Recorded, Replayed, Explained, Accounted, PinsKey, Sized, IdOf;
    assert OnlySigned(c, skipper, h, links);
    AcceptedExplained(c, skipper, h, h, h, links);
  }

  /** Two links with different statements and the same hash. */
  predicate Collision(c: Crypto, k: Link, l: Link) {
    k.Canonical() != l.Canonical() && HashOf(c, k) == HashOf(c, l)
  }

  predicate Collide(c: Crypto, ks: seq<Link>, ls: seq<Link>) {
    exists i, j :: 0 <= i < |ks| && 0 <= j < |ls| && Collision(c, ks[i], ls[j])
  }

  lemma LastLinksAgree(c: Crypto, k: Link, l: Link)
    requires Sized(k) && Sized(l) && HashOf(c, k) == HashOf(c, l)
    ensures Collision(c, k, l) || k.Unsigned() == l.Unsigned()
  {
    if k.Canonical() == l.Canonical() {
      CanonicalInjective(k, l);
    }
  }

  lemma LastCollide(c: Crypto, ks: seq<Link>, ls: seq<Link>)
    requires ks != [] && ls != [] && Collision(c, ks[|ks| - 1], ls[|ls| - 1])
    ensures Collide(c, ks, ls)
  {
    hide Collision;
  }

  /** One more pair of equal statements. */
  lemma PrefixAgrees(c: Crypto, ks: seq<Link>, ls: seq<Link>)
    requires ks != [] && ls != [] && ks[|ks| - 1].Unsigned() == ls[|ls| - 1].Unsigned()
    requires SameStatements(ks[..|ks| - 1], ls[..|ls| - 1]) || Collide(c, ks[..|ks| - 1], ls[..|ls| - 1])
    ensures SameStatements(ks, ls) || Collide(c, ks, ls)
  {
    hide Collision;
    var p, q := ks[..|ks| - 1], ls[..|ls| - 1];
    if Collide(c, p, q) {
      var i, j :| 0 <= i < |p| && 0 <= j < |q| && Collision(c, p[i], q[j]);
      assert Collision(c, ks[i], ls[j]);
    } else {
      forall i | 0 <= i < |ks| ensures ks[i].Unsigned() == ls[i].Unsigned() {
        if i < |p| { assert p[i].Unsigned() == q[i].Unsigned(); }
      }
    }
  }

  lemma LoneAgrees(ks: seq<Link>, ls: seq<Link>)
    requires |ks| == |ls| == 1 && ks[0].Unsigned() == ls[0].Unsigned()
    ensures SameStatements(ks, ls)
  {
  }

  lemma {:induction false} HeadHashCommits(c: Crypto, ks: seq<Link>, ls: seq<Link>, ek: Option<HansaId>,
                                           el: Option<HansaId>)
    requires AllSized(ks) && AllSized(ls)
    requires Replayed(c, ks, ek).Success? && Replayed(c, ls, el).Success?
    requires Replayed(c, ks, ek).value.hash == Replayed(c, ls, el).value.hash
    ensures SameStatements(ks, ls) || Collide(c, ks, ls)
    decreases |ks|
  {
    hide Apply, Link.Canonical, LinkVerifies, VerifyGenesisFor, HashOf, Sized, Collide, SameStatements;
    var m, n := |ks| - 1, |ls| - 1;
    var k, l := ks[m], ls[n];
    LastLinksAgree(c, k, l);
    if Collision(c, k, l) {
      LastCollide(c, ks, ls);
    } else {
      hide Collision;
      UnsignedFields(k, l);
      if m > 0 && n > 0 {
        HeadHashCommits(c, ks[..m], ls[..n], ek, el);
        hide Replayed;
        PrefixAgrees(c, ks, ls);
      } else {
        LoneAgrees(ks, ls);
      }
    }
  }

  /** The head hash commits to everything: two accepted lists with the same head hash make
      the same statements and so have the same members, unless the hash function itself
      collides on two of their links. No genesis-rooted list shares a head with a
      checkpoint-rooted one. */
  lemma {:induction false} SameHashSameHistory(c: Crypto, ks: seq<Link>, ls: seq<Link>, ek: Option<HansaId>,
                                               el: Option<HansaId>)
    requires AllSized(ks) && AllSized(ls)
    requires Replayed(c, ks, ek).Success? && Replayed(c, ls, el).Success?
    requires Replayed(c, ks, ek).value.hash == Replayed(c, ls, el).value.hash
    requires !Collide(c, ks, ls)
    ensures SameStatements(ks, ls)
    ensures Replayed(c, ks, ek) == Replayed(c, ls, el)
    ensures ks[0].body.Founding? <==> ls[0].body.Founding?
  {
    HeadHashCommits(c, ks, ls, ek, el);
    SameStatementsSameHead(c, ks, ls, ek, el);
    UnsignedFields(ks[0], ls[0]);
  }
}
