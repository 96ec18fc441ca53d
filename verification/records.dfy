/** The signed entities and their canonical bytes (member.rs, genesis.rs, chain.rs). */
module Records {
  import opened Wire
  import opened Wrappers

  type TenantId = Bytes16
  type HansaId = Bytes32
  type Key = Bytes32
  type Digest = Bytes32
  type Sig = Bytes64

  /** A path is the text `to_string_lossy` gives for it. */
  datatype Location =
    | Path(path: Bytes)
    | Resp3(endpoint: Bytes, auth: Option<(Bytes, Bytes)>)
    | Http(baseUrl: Bytes, bearer: Option<Bytes>)

  function WriteOption(o: Option<Bytes>, w: Writer): Writer {
    match o
    case None => w.U8(0)
    case Some(s) => w.U8(1).Str(s)
  }

  function WriteAuth(o: Option<(Bytes, Bytes)>, w: Writer): Writer {
    match o
    case None => w.U8(0)
    case Some(a) => w.U8(1).Str(a.0).Str(a.1)
  }

  function WriteKey(o: Option<Key>, w: Writer): Writer {
    match o
    case None => w.U8(0)
    case Some(pk) => w.U8(1).Fixed(pk)
  }

  function WriteLocation(l: Location, w: Writer): Writer {
    match l
    case Path(path) => w.U8(0).Str(path)
    case Resp3(endpoint, auth) => WriteAuth(auth, w.U8(1).Str(endpoint))
    case Http(baseUrl, bearer) => WriteOption(bearer, w.U8(2).Str(baseUrl))
  }

  datatype MemberRecord = MemberRecord(tenantId: TenantId, location: Location, embeddingDim: U32, joinedAt: I64) {
    function Canonical(): Bytes {
      WriteLocation(location, Writer.New().Fixed(tenantId).U32(embeddingDim).I64(joinedAt)).Finish()
    }
  }

  const GENESIS_V: Byte := 2

  datatype Genesis = Genesis(v: Byte, hansaId: HansaId, skipperPub: Key, embeddingDim: U32,
                             createdAt: I64, rotationAllowed: bool) {
    function Canonical(): Bytes {
      Writer.New().U8(v).Fixed(hansaId).Fixed(skipperPub).U32(embeddingDim).I64(createdAt)
      .U8(if rotationAllowed then 1 else 0).Finish()
    }
  }

  datatype Body =
    | Founding(genesis: Genesis)
    | Admit(member: MemberRecord, memberPub: Option<Key>)
    | Revoke(tenantId: TenantId, at: I64, reason: Option<Bytes>)
    | Checkpoint(members: seq<MemberRecord>, embeddingDim: U32, at: I64)
  {
    /** An admit or a revoke: the only bodies that may follow the root of a log. */
    predicate IsEvent() { Admit? || Revoke? }
  }

  function WriteMembers(members: seq<MemberRecord>, w: Writer): Writer {
    if members == [] then w else WriteMembers(members[1..], w.Str(members[0].Canonical()))
  }

  function WriteBody(b: Body, w: Writer): Writer {
    match b
    case Founding(g) => w.U8(0).Fixed(g.Canonical())
    case Admit(member, memberPub) => WriteKey(memberPub, w.U8(1).Str(member.Canonical()))
    case Revoke(tenantId, at, reason) => WriteOption(reason, w.U8(2).Fixed(tenantId).I64(at))
    case Checkpoint(members, embeddingDim, at) =>
      WriteMembers(members, w.U8(3).U32(embeddingDim).I64(at).U32(|members| % TWO32))
  }

  const ZERO_HASH: Digest := Zeros(32)
  const ZERO_SIG: Sig := Zeros(64)

  datatype Link = Link(seqNo: nat, prev: Digest, body: Body, signedBy: Key, sig: Sig) {
    /** Everything but the signature. */
    function Canonical(): Bytes {
      WriteBody(body, Writer.New().U64(seqNo).Fixed(prev)).Fixed(signedBy).Finish()
    }

    /** The statement a signature covers: the link with the signature blanked. */
    function Unsigned(): Link { Link(seqNo, prev, body, signedBy, ZERO_SIG) }
  }

  /** Domain tags; `framed` puts one in front of every signed message. */
  const DOMAIN_GENESIS: Bytes := [104, 97, 110, 115, 97, 46, 103, 101, 110, 101, 115, 105, 115, 46, 118, 50, 0]
  const DOMAIN_LINK: Bytes := [104, 97, 110, 115, 97, 46, 108, 105, 110, 107, 46, 118, 50, 0]
  const HANSA_ID_DOMAIN: Bytes := [104, 97, 110, 115, 97, 45, 105, 100, 45, 118, 50]

  function Framed(domain: Bytes, msg: Bytes): Bytes { domain + msg }

  /** Sizes the writer's casts keep: lengths and counts below 2^32, a sequence number
      below 2^64. */
  predicate SizedOption(b: Option<Bytes>) { b.Some? ==> |b.value| < TWO32 }

  predicate SizedMember(m: MemberRecord) { |m.Canonical()| < TWO32 }

  predicate SizedBody(b: Body) {
    match b
    case Founding(_) => true
    case Admit(member, _) => SizedMember(member)
    case Revoke(_, _, reason) => SizedOption(reason)
    case Checkpoint(members, _, _) =>
      |members| < TWO32 && forall i :: 0 <= i < |members| ==> SizedMember(members[i])
  }

  predicate Sized(l: Link) { l.seqNo < TWO64 && SizedBody(l.body) }
}
