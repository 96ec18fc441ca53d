/** A decoder for the canonical bytes and the proof that it recovers every statement, so
    two different statements never share signed bytes. */
module Codec {
  import opened Wire
  import opened Wrappers
  import opened Records

  function ReadOption(b: Bytes): Parsed<Option<Bytes>> {
    var (tag, b) :- TakeByte(b);
    if tag == 0 then Got(None, b)
    else if tag == 1 then
      var (s, b) :- TakeStr(b);
      Got(Some(s), b)
    else Bad
  }

  function ReadLocation(b: Bytes): Parsed<Location> {
    var (tag, b) :- TakeByte(b);
    if tag == 0 then
      var (path, b) :- TakeStr(b);
      Got(Path(path), b)
    else if tag == 1 then
      var (endpoint, b) :- TakeStr(b);
      var (authTag, b) :- TakeByte(b);
      if authTag == 0 then Got(Resp3(endpoint, None), b)
      else if authTag == 1 then
        var (user, b) :- TakeStr(b);
        var (pass, b) :- TakeStr(b);
        Got(Resp3(endpoint, Some((user, pass))), b)
      else Bad
    else if tag == 2 then
      var (baseUrl, b) :- TakeStr(b);
      var (bearer, b) :- ReadOption(b);
      Got(Http(baseUrl, bearer), b)
    else Bad
  }

  function ReadMember(b: Bytes): Parsed<MemberRecord> {
    var (tenantId, b) :- Take(16, b);
    var (dim, b) :- TakeU32(b);
    var (at, b) :- TakeI64(b);
    var (location, b) :- ReadLocation(b);
    Got(MemberRecord(tenantId, location, dim, at), b)
  }

  /** A member that fills a counted byte string exactly. */
  function ReadCountedMember(b: Bytes): Parsed<MemberRecord> {
    var (s, b) :- TakeStr(b);
    var (m, tail) :- ReadMember(s);
    if tail == [] then Got(m, b) else Bad
  }

  function ReadGenesis(b: Bytes): Parsed<Genesis> {
    var (v, b) :- TakeByte(b);
    var (hansaId, b) :- Take(32, b);
    var (pub, b) :- Take(32, b);
    var (dim, b) :- TakeU32(b);
    var (at, b) :- TakeI64(b);
    var (rotation, b) :- TakeByte(b);
    if rotation <= 1 then Got(Genesis(v, hansaId, pub, dim, at, rotation == 1), b) else Bad
  }

  function ReadMembers(n: nat, b: Bytes): Parsed<seq<MemberRecord>> {
    if n == 0 then Got([], b)
    else
      var (m, b) :- ReadCountedMember(b);
      var (ms, b) :- ReadMembers(n - 1, b);
      Got([m] + ms, b)
  }

  function ReadRevocation(b: Bytes): Parsed<Body> {
    var (tenantId, b) :- Take(16, b);
    var (at, b) :- TakeI64(b);
    var (reason, b) :- ReadOption(b);
    Got(Revoke(tenantId, at, reason), b)
  }

  function ReadSnapshot(b: Bytes): Parsed<Body> {
    var (dim, b) :- TakeU32(b);
    var (at, b) :- TakeI64(b);
    var (n, b) :- TakeU32(b);
    var (members, b) :- ReadMembers(n, b);
    Got(Checkpoint(members, dim, at), b)
  }

  function ReadBody(b: Bytes): Parsed<Body> {
    var (tag, b) :- TakeByte(b);
    if tag == 0 then
      var (g, b) :- ReadGenesis(b);
      Got(Founding(g), b)
    else if tag == 1 then
      var (m, b) :- ReadCountedMember(b);
      var (keyTag, b) :- TakeByte(b);
      if keyTag == 0 then Got(Admit(m, None), b)
      else if keyTag == 1 then
        var (pk, b) :- Take(32, b);
        Got(Admit(m, Some(pk)), b)
      else Bad
    else if tag == 2 then
      ReadRevocation(b)
    else if tag == 3 then
      ReadSnapshot(b)
    else Bad
  }

  /** The link whose canonical bytes are `b`, with a blank signature. */
  function DecodeLink(b: Bytes): Option<Link> {
    match TakeWord(8, b)
    case Bad => None
    case Got(seqNo, b) =>
      match Take(32, b)
      case Bad => None
      case Got(prev, b) =>
        match ReadBody(b)
        case Bad => None
        case Got(body, b) => if |b| == 32 then Some(Link(seqNo, prev, body, b, ZERO_SIG)) else None
  }

  /** What each writing function appends. */
  function StrBytes(s: Bytes): Bytes { Le(4, |s| % TWO32) + s }

  function OptionBytes(o: Option<Bytes>): Bytes {
    match o
    case None => [0]
    case Some(s) => [1] + StrBytes(s)
  }

  function AuthBytes(o: Option<(Bytes, Bytes)>): Bytes {
    match o
    case None => [0]
    case Some(a) => [1] + (StrBytes(a.0) + StrBytes(a.1))
  }

  function KeyBytes(o: Option<Key>): Bytes {
    match o
    case None => [0]
    case Some(pk) => [1] + pk
  }

  function LocationBytes(l: Location): Bytes {
    match l
    case Path(path) => [0] + StrBytes(path)
    case Resp3(endpoint, auth) => [1] + (StrBytes(endpoint) + AuthBytes(auth))
    case Http(baseUrl, bearer) => [2] + (StrBytes(baseUrl) + OptionBytes(bearer))
  }

  function MembersBytes(ms: seq<MemberRecord>): Bytes {
    if ms == [] then [] else StrBytes(ms[0].Canonical()) + MembersBytes(ms[1..])
  }

  function BodyBytes(b: Body): Bytes {
    match b
    case Founding(g) => [0] + g.Canonical()
    case Admit(member, memberPub) => [1] + (StrBytes(member.Canonical()) + KeyBytes(memberPub))
    case Revoke(tenantId, at, reason) => [2] + (tenantId + (Le(8, Word(at)) + OptionBytes(reason)))
    case Checkpoint(members, dim, at) =>
      [3] + (Le(4, dim) + (Le(8, Word(at)) + (Le(4, |members| % TWO32) + MembersBytes(members))))
  }

  lemma Assoc(a: Bytes, b: Bytes, c: Bytes)
    ensures a + b + c == a + (b + c)
  {
  }

  lemma Assoc4(a: Bytes, b: Bytes, c: Bytes, d: Bytes)
    ensures a + b + c + d == a + (b + (c + d))
  {
    Assoc(a + b, c, d);
    Assoc(a, b, c + d);
  }

  lemma Nested(a: Bytes, b: Bytes, c: Bytes, d: Bytes, rest: Bytes)
    ensures a + (b + (c + d)) + rest == a + (b + (c + (d + rest)))
  {
    Assoc(a, b + (c + d), rest);
    Assoc(b, c + d, rest);
    Assoc(c, d, rest);
  }

  lemma StrAppends(s: Bytes, w: Writer)
    ensures w.Str(s).buf == w.buf + StrBytes(s)
  {
    Assoc(w.buf, Le(4, |s| % TWO32), s);
  }

  lemma OptionAppends(o: Option<Bytes>, w: Writer)
    ensures WriteOption(o, w).buf == w.buf + OptionBytes(o)
  {
    if o.Some? {
      StrAppends(o.value, w.U8(1));
      Assoc(w.buf, [1], StrBytes(o.value));
    }
  }

  lemma AuthAppends(o: Option<(Bytes, Bytes)>, w: Writer)
    ensures WriteAuth(o, w).buf == w.buf + AuthBytes(o)
  {
    if o.Some? {
      StrAppends(o.value.0, w.U8(1));
      StrAppends(o.value.1, w.U8(1).Str(o.value.0));
      Assoc4(w.buf, [1], StrBytes(o.value.0), StrBytes(o.value.1));
    }
  }

  lemma KeyAppends(o: Option<Key>, w: Writer)
    ensures WriteKey(o, w).buf == w.buf + KeyBytes(o)
  {
    if o.Some? {
      Assoc(w.buf, [1], o.value);
    }
  }

  lemma LocationAppends(l: Location, w: Writer)
    ensures WriteLocation(l, w).buf == w.buf + LocationBytes(l)
  {
    match l
    case Path(path) =>
      StrAppends(path, w.U8(0));
      Assoc(w.buf, [0], StrBytes(path));
    case Resp3(endpoint, auth) =>
      StrAppends(endpoint, w.U8(1));
      AuthAppends(auth, w.U8(1).Str(endpoint));
      Assoc4(w.buf, [1], StrBytes(endpoint), AuthBytes(auth));
    case Http(baseUrl, bearer) =>
      StrAppends(baseUrl, w.U8(2));
      OptionAppends(bearer, w.U8(2).Str(baseUrl));
      Assoc4(w.buf, [2], StrBytes(baseUrl), OptionBytes(bearer));
  }

  lemma {:induction false} MembersAppend(ms: seq<MemberRecord>, w: Writer)
    ensures WriteMembers(ms, w).buf == w.buf + MembersBytes(ms)
    decreases |ms|
  {
    if ms == [] {
    } else {
      var s := ms[0].Canonical();
      MembersAppend(ms[1..], w.Str(s));
      StrAppends(s, w);
      Assoc(w.buf, StrBytes(s), MembersBytes(ms[1..]));
    }
  }

  lemma BodyAppends(b: Body, w: Writer)
    ensures WriteBody(b, w).buf == w.buf + BodyBytes(b)
  {
    match b
    case Founding(g) => Assoc(w.buf, [0], g.Canonical());
    case Admit(member, memberPub) =>
      var s := member.Canonical();
      StrAppends(s, w.U8(1));
      KeyAppends(memberPub, w.U8(1).Str(s));
      Assoc4(w.buf, [1], StrBytes(s), KeyBytes(memberPub));
    case Revoke(tenantId, at, reason) =>
      OptionAppends(reason, w.U8(2).Fixed(tenantId).I64(at));
      Assoc4(w.buf + [2], tenantId, Le(8, Word(at)), OptionBytes(reason));
      Assoc(w.buf, [2], tenantId + (Le(8, Word(at)) + OptionBytes(reason)));
    case Checkpoint(members, dim, at) =>
      var n := Le(4, |members| % TWO32);
      MembersAppend(members, w.U8(3).U32(dim).I64(at).U32(|members| % TWO32));
      Assoc(w.buf + [3] + Le(4, dim) + Le(8, Word(at)), n, MembersBytes(members));
      Assoc4(w.buf + [3], Le(4, dim), Le(8, Word(at)), n + MembersBytes(members));
      Assoc(w.buf, [3], Le(4, dim) + (Le(8, Word(at)) + (n + MembersBytes(members))));
  }

  lemma ReadStr(s: Bytes, rest: Bytes)
    requires |s| < TWO32
    ensures TakeStr(StrBytes(s) + rest) == Got(s, rest)
  {
    TakeStrOf(s, rest);
  }

  lemma ReadOptionOf(o: Option<Bytes>, rest: Bytes)
    requires SizedOption(o)
    ensures ReadOption(OptionBytes(o) + rest) == Got(o, rest)
  {
    match o
    case None => TakeByteOf(0, rest);
    case Some(s) =>
      Assoc([1], StrBytes(s), rest);
      TakeByteOf(1, StrBytes(s) + rest);
      ReadStr(s, rest);
  }

  predicate SizedLocation(l: Location) {
    match l
    case Path(path) => |path| < TWO32
    case Resp3(endpoint, auth) =>
      |endpoint| < TWO32 && (auth.Some? ==> |auth.value.0| < TWO32 && |auth.value.1| < TWO32)
    case Http(baseUrl, bearer) => |baseUrl| < TWO32 && SizedOption(bearer)
  }

  lemma ReadAuthOf(a: (Bytes, Bytes), rest: Bytes)
    requires |a.0| < TWO32 && |a.1| < TWO32
    ensures AuthBytes(Some(a)) + rest == [1] + (StrBytes(a.0) + (StrBytes(a.1) + rest))
    ensures TakeStr(StrBytes(a.0) + (StrBytes(a.1) + rest)) == Got(a.0, StrBytes(a.1) + rest)
    ensures TakeStr(StrBytes(a.1) + rest) == Got(a.1, rest)
  {
    Assoc([1], StrBytes(a.0) + StrBytes(a.1), rest);
    Assoc(StrBytes(a.0), StrBytes(a.1), rest);
    ReadStr(a.0, StrBytes(a.1) + rest);
    ReadStr(a.1, rest);
  }

  lemma Tagged(tag: Byte, s: Bytes, tail: Bytes, rest: Bytes)
    requires |s| < TWO32
    ensures TakeByte([tag] + (StrBytes(s) + tail) + rest) == Got(tag, StrBytes(s) + (tail + rest))
    ensures TakeStr(StrBytes(s) + (tail + rest)) == Got(s, tail + rest)
  {
    Assoc([tag], StrBytes(s) + tail, rest);
    Assoc(StrBytes(s), tail, rest);
    TakeByteOf(tag, StrBytes(s) + (tail + rest));
    ReadStr(s, tail + rest);
  }

  lemma ReadPathOf(path: Bytes, rest: Bytes)
    requires |path| < TWO32
    ensures ReadLocation(LocationBytes(Path(path)) + rest) == Got(Path(path), rest)
  {
    assert StrBytes(path) + [] == StrBytes(path) && [] + rest == rest;
    hide StrBytes, TakeStr, TakeByte, ReadOption;
    Tagged(0, path, [], rest);
  }

  lemma ReadResp3Of(endpoint: Bytes, auth: Option<(Bytes, Bytes)>, rest: Bytes)
    requires SizedLocation(Resp3(endpoint, auth))
    ensures ReadLocation(LocationBytes(Resp3(endpoint, auth)) + rest) == Got(Resp3(endpoint, auth), rest)
  {
    assert auth.None? ==> AuthBytes(auth) == [0];
    hide StrBytes, AuthBytes, TakeStr, TakeByte, ReadOption;
    Tagged(1, endpoint, AuthBytes(auth), rest);
    match auth {
      case None => TakeByteOf(0, rest);
      case Some(a) =>
        ReadAuthOf(a, rest);
        TakeByteOf(1, StrBytes(a.0) + (StrBytes(a.1) + rest));
    }
  }

  lemma ReadLocationOf(l: Location, rest: Bytes)
    requires SizedLocation(l)
    ensures ReadLocation(LocationBytes(l) + rest) == Got(l, rest)
  {
    match l
    case Path(path) => ReadPathOf(path, rest);
    case Resp3(endpoint, auth) => ReadResp3Of(endpoint, auth, rest);
    case Http(baseUrl, bearer) =>
      hide StrBytes, OptionBytes, TakeStr, TakeByte, ReadOption;
      Tagged(2, baseUrl, OptionBytes(bearer), rest);
      ReadOptionOf(bearer, rest);
  }

  lemma MemberLayout(m: MemberRecord, rest: Bytes)
    ensures m.Canonical() + rest
         == m.tenantId + (Le(4, m.embeddingDim) + (Le(8, Word(m.joinedAt)) + (LocationBytes(m.location) + rest)))
    ensures |m.Canonical()| >= |LocationBytes(m.location)|
  {
    LocationAppends(m.location, Writer.New().Fixed(m.tenantId).U32(m.embeddingDim).I64(m.joinedAt));
    var a, b, c, d := m.tenantId, Le(4, m.embeddingDim), Le(8, Word(m.joinedAt)), LocationBytes(m.location);
    assert Writer.New().Fixed(a).buf == a;
    assert m.Canonical() == a + b + c + d;
    Assoc4(a, b, c, d);
    Nested(a, b, c, d, rest);
  }

  lemma {:induction false} ReadMemberOf(m: MemberRecord, rest: Bytes)
    requires SizedMember(m)
    ensures ReadMember(m.Canonical() + rest) == Got(m, rest)
  {
    MemberLayout(m, rest);
    var t3 := LocationBytes(m.location) + rest;
    var t2 := Le(8, Word(m.joinedAt)) + t3;
    var t1 := Le(4, m.embeddingDim) + t2;
    TakePrefix(m.tenantId, t1);
    TakeU32Of(m.embeddingDim, t2);
    TakeI64Of(m.joinedAt, t3);
    ReadLocationOf(m.location, rest);
  }

  lemma ReadCountedMemberOf(m: MemberRecord, rest: Bytes)
    requires SizedMember(m)
    ensures ReadCountedMember(StrBytes(m.Canonical()) + rest) == Got(m, rest)
  {
    ReadStr(m.Canonical(), rest);
    ReadMemberOf(m, []);
    assert m.Canonical() + [] == m.Canonical();
  }

  lemma ReadMembersStep(m: MemberRecord, ms: seq<MemberRecord>, tail: Bytes, rest: Bytes)
    requires SizedMember(m) && ReadMembers(|ms|, tail) == Got(ms, rest)
    ensures ReadMembers(|ms| + 1, StrBytes(m.Canonical()) + tail) == Got([m] + ms, rest)
  {
    ReadCountedMemberOf(m, tail);
  }

  lemma ReadNoMembers(rest: Bytes)
    ensures ReadMembers(0, rest) == Got([], rest)
  {
  }

  lemma {:induction false} ReadMembersOf(ms: seq<MemberRecord>, rest: Bytes)
    requires forall i :: 0 <= i < |ms| ==> SizedMember(ms[i])
    ensures ReadMembers(|ms|, MembersBytes(ms) + rest) == Got(ms, rest)
    decreases |ms|
  {
    hide ReadMembers, StrBytes, MemberRecord.Canonical;
    if ms == [] {
      assert MembersBytes(ms) + rest == rest;
      assert ReadMembers(0, rest) == Got([], rest) by { ReadNoMembers(rest); }
    } else {
      var m, tail := ms[0], ms[1..];
      assert MembersBytes(ms) == StrBytes(m.Canonical()) + MembersBytes(tail);
      assert [m] + tail == ms;
      hide MembersBytes;
      ReadMembersOf(tail, rest);
      ReadMembersStep(m, tail, MembersBytes(tail) + rest, rest);
      Assoc(StrBytes(m.Canonical()), MembersBytes(tail), rest);
    }
  }

  lemma GenesisBytes(g: Genesis, rest: Bytes)
    ensures g.Canonical() + rest ==
      [g.v] + (g.hansaId + (g.skipperPub + (Le(4, g.embeddingDim) + (Le(8, Word(g.createdAt))
        + ([if g.rotationAllowed then 1 else 0] + rest)))))
  {
    hide Le, Word;
  }

  lemma ReadGenesisOf(g: Genesis, rest: Bytes)
    ensures ReadGenesis(g.Canonical() + rest) == Got(g, rest)
  {
    var r: Byte := if g.rotationAllowed then 1 else 0;
    var t5 := [r] + rest;
    var t4 := Le(8, Word(g.createdAt)) + t5;
    var t3 := Le(4, g.embeddingDim) + t4;
    var t2 := g.skipperPub + t3;
    var t1 := g.hansaId + t2;
    GenesisBytes(g, rest);
    hide Le, Word, Genesis.Canonical;
    TakeByteOf(g.v, t1);
    TakePrefix(g.hansaId, t2);
    TakePrefix(g.skipperPub, t3);
    TakeU32Of(g.embeddingDim, t4);
    TakeI64Of(g.createdAt, t5);
    TakeByteOf(r, rest);
  }

  lemma ReadAdmitOf(member: MemberRecord, memberPub: Option<Key>, rest: Bytes)
    requires SizedMember(member)
    ensures ReadBody(BodyBytes(Admit(member, memberPub)) + rest) == Got(Admit(member, memberPub), rest)
  {
    var s, k := StrBytes(member.Canonical()), KeyBytes(memberPub);
    Assoc([1], s + k, rest);
    Assoc(s, k, rest);
    TakeByteOf(1, s + (k + rest));
    ReadCountedMemberOf(member, k + rest);
    if memberPub.None? {
      TakeByteOf(0, rest);
    } else {
      Assoc([1], memberPub.value, rest);
      TakeByteOf(1, memberPub.value + rest);
      TakePrefix(memberPub.value, rest);
    }
  }

  lemma ReadRevocationOf(tenantId: TenantId, at: I64, reason: Option<Bytes>, rest: Bytes)
    requires SizedOption(reason)
    ensures ReadRevocation(tenantId + (Le(8, Word(at)) + (OptionBytes(reason) + rest)))
         == Got(Revoke(tenantId, at, reason), rest)
  {
    var t := OptionBytes(reason) + rest;
    TakePrefix(tenantId, Le(8, Word(at)) + t);
    TakeI64Of(at, t);
    ReadOptionOf(reason, rest);
  }

  lemma {:induction false} ReadRevokeOf(tenantId: TenantId, at: I64, reason: Option<Bytes>, rest: Bytes)
    requires SizedOption(reason)
    ensures ReadBody(BodyBytes(Revoke(tenantId, at, reason)) + rest) == Got(Revoke(tenantId, at, reason), rest)
  {
    var w, r := Le(8, Word(at)), OptionBytes(reason);
    assert BodyBytes(Revoke(tenantId, at, reason)) == [2] + (tenantId + (w + r));
    hide BodyBytes, Le, OptionBytes, TakeByte, ReadRevocation;
    Assoc([2], tenantId + (w + r), rest);
    Assoc(tenantId, w + r, rest);
    Assoc(w, r, rest);
    TakeByteOf(2, tenantId + (w + (r + rest)));
    ReadRevocationOf(tenantId, at, reason, rest);
  }

  lemma ReadSnapshotOf(members: seq<MemberRecord>, dim: U32, at: I64, rest: Bytes)
    requires SizedBody(Checkpoint(members, dim, at))
    ensures ReadSnapshot(Le(4, dim) + (Le(8, Word(at)) + (Le(4, |members|) + (MembersBytes(members) + rest))))
         == Got(Checkpoint(members, dim, at), rest)
  {
    var t3 := MembersBytes(members) + rest;
    var t2 := Le(4, |members|) + t3;
    TakeU32Of(dim, Le(8, Word(at)) + t2);
    TakeI64Of(at, t2);
    TakeU32Of(|members|, t3);
    ReadMembersOf(members, rest);
  }

  lemma ReadCheckpointOf(members: seq<MemberRecord>, dim: U32, at: I64, rest: Bytes)
    requires SizedBody(Checkpoint(members, dim, at))
    ensures ReadBody(BodyBytes(Checkpoint(members, dim, at)) + rest) == Got(Checkpoint(members, dim, at), rest)
  {
    assert |members| % TWO32 == |members|;
    var d, a, n, ms := Le(4, dim), Le(8, Word(at)), Le(4, |members|), MembersBytes(members);
    Assoc([3], d + (a + (n + ms)), rest);
    Nested(d, a, n, ms, rest);
    TakeByteOf(3, d + (a + (n + (ms + rest))));
    ReadSnapshotOf(members, dim, at, rest);
  }

  lemma ReadBodyOf(b: Body, rest: Bytes)
    requires SizedBody(b)
    ensures ReadBody(BodyBytes(b) + rest) == Got(b, rest)
  {
    match b
    case Founding(g) =>
      Assoc([0], g.Canonical(), rest);
      TakeByteOf(0, g.Canonical() + rest);
      ReadGenesisOf(g, rest);
    case Admit(member, memberPub) => ReadAdmitOf(member, memberPub, rest);
    case Revoke(tenantId, at, reason) => ReadRevokeOf(tenantId, at, reason, rest);
    case Checkpoint(members, dim, at) => ReadCheckpointOf(members, dim, at, rest);
  }

  lemma LinkLayout(l: Link)
    ensures l.Canonical() == Le(8, l.seqNo) + (l.prev + (BodyBytes(l.body) + l.signedBy))
  {
    var w := Writer.New().U64(l.seqNo).Fixed(l.prev);
    BodyAppends(l.body, w);
    hide WriteBody, BodyBytes, Le;
    assert w.buf == Le(8, l.seqNo) + l.prev;
  }

  /** The decoder recovers every statement whose lengths fit their 32-bit prefixes. */
  lemma DecodeCanonical(l: Link)
    requires Sized(l)
    ensures DecodeLink(l.Canonical()) == Some(l.Unsigned())
  {
    var t2 := BodyBytes(l.body) + l.signedBy;
    var t1 := l.prev + t2;
    LinkLayout(l);
    WordSizes();
    hide Le, BodyBytes, ReadBody, Link.Canonical;
    TakeWordOf(8, l.seqNo, t1);
    TakePrefix(l.prev, t2);
    ReadBodyOf(l.body, l.signedBy);
  }

  /** Signed bytes name one statement: equal bytes, equal links but for the signature. */
  lemma CanonicalInjective(k: Link, l: Link)
    requires Sized(k) && Sized(l) && k.Canonical() == l.Canonical()
    ensures k.Unsigned() == l.Unsigned()
  {
    DecodeCanonical(k);
    DecodeCanonical(l);
  }

  lemma GenesisInjective(g: Genesis, h: Genesis)
    requires g.Canonical() == h.Canonical()
    ensures g == h
  {
    ReadGenesisOf(g, []);
    ReadGenesisOf(h, []);
  }

  lemma FramedInjective(domain: Bytes, m: Bytes, n: Bytes)
    requires Framed(domain, m) == Framed(domain, n)
    ensures m == n
  {
    assert m == Framed(domain, m)[|domain|..];
    assert n == Framed(domain, n)[|domain|..];
  }

  /** The tags differ at their seventh byte, so no genesis message is a link message. */
  lemma DomainsDisjoint(m: Bytes, n: Bytes)
    ensures Framed(DOMAIN_GENESIS, m) != Framed(DOMAIN_LINK, n)
  {
    assert Framed(DOMAIN_GENESIS, m)[6] == 103;
    assert Framed(DOMAIN_LINK, n)[6] == 108;
  }

  lemma ZerosConcat(m: nat, n: nat)
    ensures Zeros(m) + Zeros(n) == Zeros(m + n)
  {
  }

  /** The size bound is needed: a user name of 2^32 bytes loses its length prefix, and
      these two members are written to the same bytes. */
  lemma OversizedMembersCollide(tenantId: TenantId, endpoint: Bytes, dim: U32, at: I64)
    ensures
      var z := Zeros(TWO32);
      var a := MemberRecord(tenantId, Resp3(endpoint, Some((z, []))), dim, at);
      var b := MemberRecord(tenantId, Resp3(endpoint, Some(([], z))), dim, at);
      a != b && a.Canonical() == b.Canonical()
  {
    var z := Zeros(TWO32);
    var e: Bytes := [];
    var lx, ly := Resp3(endpoint, Some((z, e))), Resp3(endpoint, Some((e, z)));
    var n := Le(4, 0);
    assert |z| % TWO32 == 0;
    assert StrBytes(z) == n + z && StrBytes(e) == n + e;
    assert n + e == n;
    LeZero(4);
    assert n + z + n == n + (n + z) by {
      ZerosConcat(TWO32, 4);
      ZerosConcat(4, TWO32);
      Assoc(n, z, n);
    }
    assert AuthBytes(lx.auth) == AuthBytes(ly.auth);
    var w := Writer.New().Fixed(tenantId).U32(dim).I64(at);
    LocationAppends(lx, w);
    LocationAppends(ly, w);
    assert z != e;
  }

  lemma {:induction false} LeZero(n: nat)
    ensures Le(n, 0) == Zeros(n)
  {
    if n == 0 {
    } else {
      LeZero(n - 1);
      assert [0] + Zeros(n - 1) == Zeros(n);
    }
  }
}
