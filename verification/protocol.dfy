/** Several processes on one log file: each call takes the advisory lock, reads, writes
    and unlocks in separate steps, while other processes read without the lock, open
    handles through a head cache that nothing locks, die at any point, or rewrite the log
    at will. */
module Protocol {
  import opened Wire
  import opened Wrappers
  import opened Records
  import opened Chain
  import opened History
  import opened Registry

  type Pid = nat
  type Dir = nat

  /** The calls that run under the lock. */
  datatype Op = Found(dim: U32, at: I64) | Append(body: Body) | Compact

  /** How far an open has come with the head cache: the head it read is not yet checked, or
      passed the check, or also stands in the cache's temporary file. */
  datatype Stage = Unchecked | Checked | Staged

  /** Where a process stands. From `Locked` to `Finished` it holds the lock; `chain` is its
      own copy of the log, read earlier. */
  datatype Phase =
    | Idle
    | Waiting(op: Op)
    | Locked(op: Op)
    | Holding(op: Op, chain: seq<Link>)
    | Overgrown(op: Op)
    | Collapsing(op: Op, chain: seq<Link>)
    | Finished(op: Op, failed: bool)
    | Opening(dir: Dir, seqNo: nat, hash: Digest, stage: Stage)
  {
    predicate HoldsLock() { Locked? || Holding? || Overgrown? || Collapsing? || Finished? }

    predicate AwaitsCheckpoint() { Overgrown? || Collapsing? }

    predicate At(stage: Stage) { Opening? && this.stage == stage }
  }

  /** `caches` holds each cache directory's head file and `temps` its temporary file, which all
      opens of that directory share. `alarms` counts the opens refused as a rollback, `misses`
      those that found no temporary file to rename. */
  datatype State = State(log: seq<Link>, history: seq<Link>, lock: Option<Pid>, procs: map<Pid, Phase>,
                         caches: map<Dir, (nat, Digest)>, temps: map<Dir, (nat, Digest)>, crashes: nat,
                         alarms: nat, misses: nat)
  {
    function PhaseOf(p: Pid): Phase { if p in procs then procs[p] else Idle }

    function Set(p: Pid, ph: Phase): State { this.(procs := procs[p := ph]) }

    function Appended(l: Link): State { this.(log := log + [l], history := history + [l]) }

    function Replaced(l: Link): State { this.(log := [l], history := history + [l]) }

    function Rewritten(links: seq<Link>): State { this.(log := links) }

    function WithLock(o: Option<Pid>): State { this.(lock := o) }

    function Cached(d: Dir): Option<(nat, Digest)> { if d in caches then Some(caches[d]) else None }

    function Temp(d: Dir): Option<(nat, Digest)> { if d in temps then Some(temps[d]) else None }
  }

  /** One step of one process. `at` is the clock reading a link is stamped with. `Tamper` puts
      any content whatever in the place of the log, locked or not. */
  datatype Action =
    | Begin(p: Pid, op: Op)
    | TryAdmit(p: Pid, member: MemberRecord)
    | Acquire(p: Pid)
    | Read(p: Pid)
    | Write(p: Pid, at: I64)
    | Reread(p: Pid)
    | Rename(p: Pid, at: I64)
    | Unlock(p: Pid)
    | Crash(p: Pid)
    | OpenRead(p: Pid, dir: Dir)
    | OpenCheck(p: Pid)
    | OpenStage(p: Pid)
    | OpenStore(p: Pid)
    | Tamper(p: Pid, links: seq<Link>)

  const Init: State := State([], [], None, map[], map[], map[], 0, 0, 0)

  function Collapse(c: Crypto, skipper: Key, s: State, p: Pid, op: Op, chain: seq<Link>, at: I64): State {
    if |chain| <= 1 then s.Set(p, Finished(op, false)) else
      match Replayed(c, chain, None)
      case Failure(_) => s.Set(p, Finished(op, true))
      case Success(head) =>
        s.Replaced(NextLink(c, skipper, head, SnapshotOfHead(head, at))).Set(p, Finished(op, false))
  }

  function WriteStep(c: Crypto, skipper: Key, s: State, p: Pid, op: Op, chain: seq<Link>, at: I64): State {
    match op
    case Found(dim, createdAt) =>
      if chain != [] then s.Set(p, Finished(op, false))
      else s.Appended(FirstLink(c, skipper, dim, createdAt)).Set(p, Finished(op, false))
    case Append(body) =>
      (match Replayed(c, chain, None)
       case Failure(_) => s.Set(p, Finished(op, true))
       case Success(head) =>
         s.Appended(NextLink(c, skipper, head, body))
         .Set(p, if |chain| + 1 > CHECKPOINT_AFTER_LINKS then Overgrown(op) else Finished(op, false)))
    case Compact => Collapse(c, skipper, s, p, op, chain, at)
  }

  /** `Hansa::admit`: the dimension is tested on a replay taken outside the lock. */
  function AdmitStep(c: Crypto, skipper: Key, s: State, p: Pid, member: MemberRecord): State {
    match Replayed(c, s.log, Some(IdOf(c, skipper)))
    case Failure(_) => s
    case Success(head) =>
      if member.embeddingDim != head.embeddingDim then s
      else s.Set(p, Waiting(Append(Admit(member, None))))
  }

  function OpenStep(c: Crypto, skipper: Key, s: State, p: Pid, dir: Dir): State {
    match Replayed(c, s.log, Some(IdOf(c, skipper)))
    case Failure(_) => s
    case Success(head) => s.Set(p, Opening(dir, head.seqNo, head.hash, Unchecked))
  }

  /** Loads the remembered head and compares. */
  function CheckStep(s: State, p: Pid, dir: Dir, seqNo: nat, hash: Digest): State {
    if Regressed(s.Cached(dir), seqNo, hash) then s.Set(p, Idle).(alarms := s.alarms + 1)
    else s.Set(p, Opening(dir, seqNo, hash, Checked))
  }

  /** Writes the temporary file, whatever it held. */
  function StageStep(s: State, p: Pid, dir: Dir, seqNo: nat, hash: Digest): State {
    s.Set(p, Opening(dir, seqNo, hash, Staged)).(temps := s.temps[dir := (seqNo, hash)])
  }

  /** Renames the temporary file, whoever wrote it last, over the remembered head. */
  function StoreStep(s: State, p: Pid, dir: Dir): State {
    if dir in s.temps then s.Set(p, Idle).(caches := s.caches[dir := s.temps[dir]], temps := s.temps - {dir})
    else s.Set(p, Idle).(misses := s.misses + 1)
  }

  function CrashStep(s: State, p: Pid): State {
    s.Set(p, Idle).(lock := if s.lock == Some(p) then None else s.lock, crashes := s.crashes + 1)
  }

  /** The state after an action; an action its process is not ready for changes nothing. */
  function Do(c: Crypto, skipper: Key, s: State, a: Action): State {
    var ph := s.PhaseOf(a.p);
    match a
    case Begin(p, op) => if ph.Idle? && (op.Append? ==> op.body.Revoke?) then s.Set(p, Waiting(op)) else s
    case TryAdmit(p, member) => if ph.Idle? then AdmitStep(c, skipper, s, p, member) else s
    case Acquire(p) => if ph.Waiting? && s.lock == None then s.WithLock(Some(p)).Set(p, Locked(ph.op)) else s
    case Read(p) => if ph.Locked? then s.Set(p, Holding(ph.op, s.log)) else s
    case Write(p, at) => if ph.Holding? then WriteStep(c, skipper, s, p, ph.op, ph.chain, at) else s
    case Reread(p) => if ph.Overgrown? then s.Set(p, Collapsing(ph.op, s.log)) else s
    case Rename(p, at) => if ph.Collapsing? then Collapse(c, skipper, s, p, ph.op, ph.chain, at) else s
    case Unlock(p) => if ph.Finished? then s.WithLock(None).Set(p, Idle) else s
    case Crash(p) => CrashStep(s, p)
    case OpenRead(p, dir) => if ph.Idle? then OpenStep(c, skipper, s, p, dir) else s
    case OpenCheck(p) => if ph.At(Unchecked) then CheckStep(s, p, ph.dir, ph.seqNo, ph.hash) else s
    case OpenStage(p) => if ph.At(Checked) then StageStep(s, p, ph.dir, ph.seqNo, ph.hash) else s
    case OpenStore(p) => if ph.At(Staged) then StoreStep(s, p, ph.dir) else s
    case Tamper(_, links) => s.Rewritten(links)
  }

  function After(c: Crypto, skipper: Key, acts: seq<Action>): State {
    if acts == [] then Init
    else Do(c, skipper, After(c, skipper, acts[..|acts| - 1]), acts[|acts| - 1])
  }

  /** The dimension the genesis pins. */
  predicate HasDim(h: seq<Link>, dim: U32) {
    h != [] && h[0].body.Founding? && h[0].body.genesis.embeddingDim == dim
  }

  predicate DimsAgree(h: seq<Link>) {
    forall t :: t in Fold(map[], h) ==> HasDim(h, Fold(map[], h)[t].embeddingDim)
  }

  predicate OpOk(h: seq<Link>, op: Op) {
    op.Append? ==> op.body.IsEvent() && (op.body.Admit? ==> HasDim(h, op.body.member.embeddingDim))
  }

  predicate OnRecord(c: Crypto, h: seq<Link>, seqNo: nat, hash: Digest) {
    seqNo < |h| && hash == HashOf(c, h[seqNo])
  }

  predicate PhaseOk(c: Crypto, s: State, ph: Phase) {
    match ph
    case Idle => true
    case Waiting(op) => OpOk(s.history, op)
    case Locked(op) => OpOk(s.history, op)
    case Holding(op, chain) => OpOk(s.history, op) && chain == s.log
    case Overgrown(op) => op.Append? && |s.log| > 1
    case Collapsing(op, chain) => op.Append? && |s.log| > 1 && chain == s.log
    case Finished(op, failed) => op.Append? && !failed ==> |s.log| <= CHECKPOINT_AFTER_LINKS
    case Opening(_, seqNo, hash, _) => OnRecord(c, s.history, seqNo, hash)
  }

  ghost predicate LockOk(s: State) {
    forall p: Pid :: s.PhaseOf(p).HoldsLock() <==> s.lock == Some(p)
  }

  predicate CachesOk(c: Crypto, s: State) {
    && (forall d :: d in s.caches ==> OnRecord(c, s.history, s.caches[d].0, s.caches[d].1))
    && (forall d :: d in s.temps ==> OnRecord(c, s.history, s.temps[d].0, s.temps[d].1))
  }

  /** A checkpoint cut off by a crash lets the log grow one link past the threshold. */
  predicate SizeOk(s: State) {
    var slack := if s.lock.Some? && s.PhaseOf(s.lock.value).AwaitsCheckpoint() then 1 else 0;
    |s.log| <= CHECKPOINT_AFTER_LINKS + s.crashes + slack
  }

  ghost predicate Inv(c: Crypto, skipper: Key, s: State) {
    && LogOf(c, skipper, s.log, s.history)
    && LockOk(s)
    && (forall p: Pid :: PhaseOk(c, s, s.PhaseOf(p)))
    && CachesOk(c, s)
    && DimsAgree(s.history)
    && SizeOk(s)
  }

  predicate Grows(h: seq<Link>, h': seq<Link>) { |h| <= |h'| && h'[..|h|] == h }

  lemma GrowthKeeps(c: Crypto, h: seq<Link>, h': seq<Link>, dim: U32, op: Op, seqNo: nat, hash: Digest)
    requires Grows(h, h')
    ensures HasDim(h, dim) ==> HasDim(h', dim)
    ensures OpOk(h, op) ==> OpOk(h', op)
    ensures OnRecord(c, h, seqNo, hash) ==> OnRecord(c, h', seqNo, hash)
  {
    hide HashOf;
    if h != [] { assert h'[0] == h'[..|h|][0]; }
    if seqNo < |h| { assert h'[seqNo] == h'[..|h|][seqNo]; }
  }

  /** A process without the lock does not notice another's write. */
  lemma BystanderKeeps(c: Crypto, s: State, s': State, ph: Phase)
    requires Grows(s.history, s'.history) && !ph.HoldsLock() && PhaseOk(c, s, ph)
    ensures PhaseOk(c, s', ph)
  {
    hide OnRecord, OpOk;
    match ph
    case Waiting(op) => GrowthKeeps(c, s.history, s'.history, 0, op, 0, ZERO_HASH);
    case Opening(_, seqNo, hash, _) => GrowthKeeps(c, s.history, s'.history, 0, Compact, seqNo, hash);
    case _ =>
  }

  lemma SetKeeps(c: Crypto, skipper: Key, s: State, p: Pid, ph: Phase)
    requires Inv(c, skipper, s) && PhaseOk(c, s, ph)
    requires ph.HoldsLock() == s.PhaseOf(p).HoldsLock()
    requires ph.AwaitsCheckpoint() == s.PhaseOf(p).AwaitsCheckpoint()
    ensures Inv(c, skipper, s.Set(p, ph))
  {
    hide LogOf, OnRecord, OpOk, DimsAgree;
    var s' := s.Set(p, ph);
    forall q: Pid ensures PhaseOk(c, s', s'.PhaseOf(q)) {
      assert PhaseOk(c, s, s.PhaseOf(q));
    }
  }

  lemma LogChangeKeeps(c: Crypto, skipper: Key, s: State, s': State, p: Pid, ph: Phase)
    requires Inv(c, skipper, s) && s.lock == Some(p) && ph.HoldsLock()
    requires s' == s.Set(p, ph).(log := s'.log, history := s'.history)
    requires Grows(s.history, s'.history) && LogOf(c, skipper, s'.log, s'.history) && DimsAgree(s'.history)
    requires PhaseOk(c, s', ph) && SizeOk(s')
    ensures Inv(c, skipper, s')
  {
    hide LogOf, OnRecord, OpOk, DimsAgree, PhaseOk, SizeOk;
    forall q: Pid ensures PhaseOk(c, s', s'.PhaseOf(q)) {
      if q != p {
        assert PhaseOk(c, s, s.PhaseOf(q));
        BystanderKeeps(c, s, s', s.PhaseOf(q));
      }
    }
    forall d | d in s'.caches ensures OnRecord(c, s'.history, s'.caches[d].0, s'.caches[d].1) {
      GrowthKeeps(c, s.history, s'.history, 0, Compact, s.caches[d].0, s.caches[d].1);
    }
    forall d | d in s'.temps ensures OnRecord(c, s'.history, s'.temps[d].0, s'.temps[d].1) {
      GrowthKeeps(c, s.history, s'.history, 0, Compact, s.temps[d].0, s.temps[d].1);
    }
    forall q: Pid ensures s'.PhaseOf(q).HoldsLock() <==> s'.lock == Some(q) {
    }
  }

  lemma EventKeepsDims(h: seq<Link>, l: Link)
    requires DimsAgree(h) && OpOk(h, Append(l.body)) && h != []
    ensures DimsAgree(h + [l])
  {
    FoldSnoc(h, l);
    assert (h + [l])[0] == h[0];
  }

  lemma CheckpointKeepsDims(h: seq<Link>, l: Link)
    requires DimsAgree(h) && l.body.Checkpoint? && h != []
    ensures DimsAgree(h + [l])
  {
    FoldSnoc(h, l);
    assert (h + [l])[0] == h[0];
  }

  lemma GrowsSnoc(h: seq<Link>, l: Link)
    ensures Grows(h, h + [l])
  {
  }

  lemma FoundingHasNoDims(g: Link)
    requires g.body.Founding?
    ensures DimsAgree([g])
  {
    assert [g][..0] == [];
    assert Fold(map[], [g]) == map[];
  }

  lemma FoundKeeps(c: Crypto, skipper: Key, s: State, p: Pid, op: Op)
    requires Inv(c, skipper, s) && s.lock == Some(p) && op.Found? && s.log == []
    requires AllVerify(c, [FirstLink(c, skipper, op.dim, op.at)])
    ensures Inv(c, skipper, s.Appended(FirstLink(c, skipper, op.dim, op.at)).Set(p, Finished(op, false)))
  {
    hide AllVerify, DimsAgree, HashOf, Written, StretchFrom;
    var g := FirstLink(c, skipper, op.dim, op.at);
    var s' := s.Appended(g).Set(p, Finished(op, false));
    FoundKeepsLog(c, skipper, op.dim, op.at);
    FoundingHasNoDims(g);
    assert s.history == [] && s'.log == [g] && s'.history == [g];
    hide LogOf, FirstLink;
    LogChangeKeeps(c, skipper, s, s', p, Finished(op, false));
  }

  lemma AppendKeeps(c: Crypto, skipper: Key, s: State, p: Pid, op: Op)
    requires Inv(c, skipper, s) && s.lock == Some(p)
    requires op.Append? && OpOk(s.history, op) && s.log != [] && s.history != [] && s.history[0].body.Founding?
    requires !s.PhaseOf(p).AwaitsCheckpoint()
    requires AllVerify(c, [NextLink(c, skipper, HeadAt(c, skipper, s.history, |s.history|), op.body)])
    ensures var head := HeadAt(c, skipper, s.history, |s.history|);
      Inv(c, skipper, s.Appended(NextLink(c, skipper, head, op.body))
                      .Set(p, if |s.log| + 1 > CHECKPOINT_AFTER_LINKS then Overgrown(op) else Finished(op, false)))
  {
    hide LogOf, AllVerify, HeadAt, DimsAgree, NextLink;
    var head := HeadAt(c, skipper, s.history, |s.history|);
    var l := NextLink(c, skipper, head, op.body);
    AppendedBody(c, skipper, head, op.body);
    var ph := if |s.log| + 1 > CHECKPOINT_AFTER_LINKS then Overgrown(op) else Finished(op, false);
    var s' := s.Appended(l).Set(p, ph);
    AppendKeepsLog(c, skipper, s.log, s.history, op.body);
    EventKeepsDims(s.history, l);
    GrowsSnoc(s.history, l);
    LogChangeKeeps(c, skipper, s, s', p, ph);
  }

  lemma CollapseKeeps(c: Crypto, skipper: Key, s: State, p: Pid, op: Op, at: I64)
    requires Inv(c, skipper, s) && s.lock == Some(p)
    requires s.log != [] && s.history != [] && s.history[0].body.Founding?
    requires var head := HeadAt(c, skipper, s.history, |s.history|);
      AllVerify(c, [NextLink(c, skipper, head, SnapshotOfHead(head, at))])
    ensures var head := HeadAt(c, skipper, s.history, |s.history|);
      Inv(c, skipper, s.Replaced(NextLink(c, skipper, head, SnapshotOfHead(head, at))).Set(p, Finished(op, false)))
  {
    hide LogOf, AllVerify, HeadAt, DimsAgree, NextLink;
    var head := HeadAt(c, skipper, s.history, |s.history|);
    var l := NextLink(c, skipper, head, SnapshotOfHead(head, at));
    AppendedBody(c, skipper, head, SnapshotOfHead(head, at));
    var s' := s.Replaced(l).Set(p, Finished(op, false));
    CheckpointKeepsLog(c, skipper, s.log, s.history, at);
    CheckpointKeepsDims(s.history, l);
    GrowsSnoc(s.history, l);
    LogChangeKeeps(c, skipper, s, s', p, Finished(op, false));
  }

  lemma LastVerifies(c: Crypto, h: seq<Link>, l: Link)
    requires AllVerify(c, h + [l])
    ensures AllVerify(c, h) && AllVerify(c, [l])
  {
    AllVerifySnoc(c, h, l);
  }

  lemma CollapseStepKeeps(c: Crypto, skipper: Key, s: State, p: Pid, op: Op, at: I64)
    requires Inv(c, skipper, s) && s.lock == Some(p)
    requires AllVerify(c, Collapse(c, skipper, s, p, op, s.log, at).history)
    requires |s.log| <= 1 ==> !op.Append? && !s.PhaseOf(p).AwaitsCheckpoint()
    ensures Inv(c, skipper, Collapse(c, skipper, s, p, op, s.log, at))
  {
    hide AllVerify, HeadAt, Replayed, NextLink, OnRecord, DimsAgree, Recorded, Root;
    if |s.log| <= 1 {
      SetKeeps(c, skipper, s, p, Finished(op, false));
    } else {
      LogFounded(c, skipper, s.log, s.history);
      LogReplays(c, skipper, s.log, s.history, None);
      var head := HeadAt(c, skipper, s.history, |s.history|);
      LastVerifies(c, s.history, NextLink(c, skipper, head, SnapshotOfHead(head, at)));
      CollapseKeeps(c, skipper, s, p, op, at);
    }
  }

  lemma WriteStepKeeps(c: Crypto, skipper: Key, s: State, p: Pid, op: Op, at: I64)
    requires Inv(c, skipper, s) && AllVerify(c, WriteStep(c, skipper, s, p, op, s.log, at).history)
    requires s.PhaseOf(p) == Holding(op, s.log)
    ensures Inv(c, skipper, WriteStep(c, skipper, s, p, op, s.log, at))
  {
    hide AllVerify, HeadAt, Replayed, NextLink, OnRecord, DimsAgree, LogOf, FirstLink, Collapse;
    assert PhaseOk(c, s, s.PhaseOf(p));
    match op
    case Found(_, _) =>
      if s.log == [] {
        LastVerifies(c, s.history, FirstLink(c, skipper, op.dim, op.at));
        FoundKeeps(c, skipper, s, p, op);
      } else {
        SetKeeps(c, skipper, s, p, Finished(op, false));
      }
    case Append(body) =>
      if s.log == [] {
        EmptyReplay(c, None);
        SetKeeps(c, skipper, s, p, Finished(op, true));
      } else {
        LogFounded(c, skipper, s.log, s.history);
        LogReplays(c, skipper, s.log, s.history, None);
        LastVerifies(c, s.history, NextLink(c, skipper, HeadAt(c, skipper, s.history, |s.history|), body));
        AppendKeeps(c, skipper, s, p, op);
      }
    case Compact => CollapseStepKeeps(c, skipper, s, p, op, at);
  }

  /** The handles' unlocked replay sees the state of the whole history. */
  lemma UnlockedReplay(c: Crypto, skipper: Key, s: State, expected: Option<HansaId>)
    requires Inv(c, skipper, s) && Pins(c, skipper, expected)
    ensures s.log == [] ==> Replayed(c, s.log, expected) == Failure(ChainBroken(0))
    ensures s.log != [] ==>
      && s.history != [] && s.history[0].body.Founding?
      && Replayed(c, s.log, expected) == Success(HeadAt(c, skipper, s.history, |s.history|))
  {
    hide HeadAt, Replayed, LogOf;
    if s.log == [] {
      EmptyReplay(c, expected);
    } else {
      LogFounded(c, skipper, s.log, s.history);
      LogReplays(c, skipper, s.log, s.history, expected);
    }
  }

  lemma AdmitStepKeeps(c: Crypto, skipper: Key, s: State, p: Pid, member: MemberRecord)
    requires Inv(c, skipper, s) && s.PhaseOf(p).Idle?
    ensures Inv(c, skipper, AdmitStep(c, skipper, s, p, member))
  {
    hide Replayed, OnRecord, DimsAgree, LogOf, Inv;
    UnlockedReplay(c, skipper, s, Some(IdOf(c, skipper)));
    if s.log != [] && member.embeddingDim == s.history[0].body.genesis.embeddingDim {
      SetKeeps(c, skipper, s, p, Waiting(Append(Admit(member, None))));
    }
  }

  lemma OpenStepKeeps(c: Crypto, skipper: Key, s: State, p: Pid, dir: Dir)
    requires Inv(c, skipper, s) && s.PhaseOf(p).Idle?
    ensures Inv(c, skipper, OpenStep(c, skipper, s, p, dir))
  {
    hide Replayed, DimsAgree, LogOf, Inv, HashOf, Fold;
    UnlockedReplay(c, skipper, s, Some(IdOf(c, skipper)));
    if s.log != [] {
      var head := HeadAt(c, skipper, s.history, |s.history|);
      SetKeeps(c, skipper, s, p, Opening(dir, head.seqNo, head.hash, Unchecked));
    }
  }

  /** A step of an open that changes the cache's files or its own stage only. */
  lemma CacheChangeKeeps(c: Crypto, skipper: Key, s: State, s': State, p: Pid, ph: Phase)
    requires Inv(c, skipper, s) && s.PhaseOf(p).Opening? && PhaseOk(c, s, ph) && (ph.Opening? || ph.Idle?)
    requires s' == s.Set(p, ph).(caches := s'.caches, temps := s'.temps, alarms := s'.alarms, misses := s'.misses)
    requires CachesOk(c, s')
    ensures Inv(c, skipper, s')
  {
    hide DimsAgree, LogOf, OnRecord, OpOk, CachesOk;
    forall q: Pid ensures PhaseOk(c, s', s'.PhaseOf(q)) {
      assert PhaseOk(c, s, s.PhaseOf(q));
    }
    forall q: Pid ensures s'.PhaseOf(q).HoldsLock() <==> s'.lock == Some(q) {
    }
  }

  /** No step of an open leaves a head in the cache's files that was never one of the log. */
  lemma CacheStepsKeep(c: Crypto, skipper: Key, s: State, p: Pid)
    requires Inv(c, skipper, s) && s.PhaseOf(p).Opening?
    ensures var ph := s.PhaseOf(p);
      && Inv(c, skipper, CheckStep(s, p, ph.dir, ph.seqNo, ph.hash))
      && Inv(c, skipper, StageStep(s, p, ph.dir, ph.seqNo, ph.hash))
      && Inv(c, skipper, StoreStep(s, p, ph.dir))
  {
    hide DimsAgree, LogOf, OnRecord, Inv, LockOk, SizeOk, Regressed;
    var ph := s.PhaseOf(p);
    InvOpening(c, skipper, s, p);
    var s1 := CheckStep(s, p, ph.dir, ph.seqNo, ph.hash);
    var s2 := StageStep(s, p, ph.dir, ph.seqNo, ph.hash);
    var s3 := StoreStep(s, p, ph.dir);
    CacheChangeKeeps(c, skipper, s, s1, p, s1.PhaseOf(p));
    CacheChangeKeeps(c, skipper, s, s2, p, s2.PhaseOf(p));
    CacheChangeKeeps(c, skipper, s, s3, p, s3.PhaseOf(p));
  }

  lemma InvOpening(c: Crypto, skipper: Key, s: State, p: Pid)
    requires Inv(c, skipper, s) && s.PhaseOf(p).Opening?
    ensures CachesOk(c, s) && OnRecord(c, s.history, s.PhaseOf(p).seqNo, s.PhaseOf(p).hash)
  {
    assert PhaseOk(c, s, s.PhaseOf(p));
  }

  lemma AcquireKeeps(c: Crypto, skipper: Key, s: State, p: Pid)
    requires Inv(c, skipper, s) && s.PhaseOf(p).Waiting? && s.lock == None
    ensures Inv(c, skipper, s.WithLock(Some(p)).Set(p, Locked(s.PhaseOf(p).op)))
  {
    hide DimsAgree, LogOf, OnRecord, OpOk;
    var s' := s.WithLock(Some(p)).Set(p, Locked(s.PhaseOf(p).op));
    forall q: Pid ensures PhaseOk(c, s', s'.PhaseOf(q)) {
      assert PhaseOk(c, s, s.PhaseOf(q));
      assert PhaseOk(c, s, s.PhaseOf(p));
    }
    forall q: Pid ensures s'.PhaseOf(q).HoldsLock() <==> s'.lock == Some(q) {
      assert s.PhaseOf(q).HoldsLock() <==> s.lock == Some(q);
    }
  }

  lemma UnlockKeeps(c: Crypto, skipper: Key, s: State, p: Pid)
    requires Inv(c, skipper, s) && s.PhaseOf(p).Finished?
    ensures Inv(c, skipper, s.WithLock(None).Set(p, Idle))
  {
    hide DimsAgree, LogOf, OnRecord, OpOk;
    var s' := s.WithLock(None).Set(p, Idle);
    assert s.PhaseOf(p).HoldsLock();
    forall q: Pid ensures PhaseOk(c, s', s'.PhaseOf(q)) {
      assert PhaseOk(c, s, s.PhaseOf(q));
    }
    forall q: Pid ensures s'.PhaseOf(q).HoldsLock() <==> s'.lock == Some(q) {
      assert s.PhaseOf(q).HoldsLock() <==> s.lock == Some(q);
    }
  }

  lemma CrashKeeps(c: Crypto, skipper: Key, s: State, p: Pid)
    requires Inv(c, skipper, s)
    ensures Inv(c, skipper, CrashStep(s, p))
  {
    hide DimsAgree, LogOf, OnRecord, OpOk;
    var s' := CrashStep(s, p);
    forall q: Pid ensures PhaseOk(c, s', s'.PhaseOf(q)) {
      assert PhaseOk(c, s, s.PhaseOf(q));
    }
    forall q: Pid ensures s'.PhaseOf(q).HoldsLock() <==> s'.lock == Some(q) {
      assert s.PhaseOf(q).HoldsLock() <==> s.lock == Some(q);
    }
  }

  /** Every step of every process but tampering keeps the invariant, provided that what it
      signs verifies. */
  lemma DoKeeps(c: Crypto, skipper: Key, s: State, a: Action)
    requires Inv(c, skipper, s) && !a.Tamper? && AllVerify(c, Do(c, skipper, s, a).history)
    ensures Inv(c, skipper, Do(c, skipper, s, a))
  {
    hide AllVerify, LogOf, DimsAgree, OnRecord, SizeOk, CachesOk, WriteStep, Collapse, AdmitStep, OpenStep, CheckStep,
         StageStep, StoreStep, CrashStep;
    var ph := s.PhaseOf(a.p);
    assert PhaseOk(c, s, ph);
    match a
    case Begin(p, op) =>
      if ph.Idle? && (op.Append? ==> op.body.Revoke?) { SetKeeps(c, skipper, s, p, Waiting(op)); }
    case TryAdmit(p, member) =>
      if ph.Idle? { AdmitStepKeeps(c, skipper, s, p, member); }
    case Acquire(p) =>
      if ph.Waiting? && s.lock == None { AcquireKeeps(c, skipper, s, p); }
    case Read(p) =>
      if ph.Locked? { SetKeeps(c, skipper, s, p, Holding(ph.op, s.log)); }
    case Write(p, at) =>
      if ph.Holding? { WriteStepKeeps(c, skipper, s, p, ph.op, at); }
    case Reread(p) =>
      if ph.Overgrown? { SetKeeps(c, skipper, s, p, Collapsing(ph.op, s.log)); }
    case Rename(p, at) =>
      if ph.Collapsing? { CollapseStepKeeps(c, skipper, s, p, ph.op, at); }
    case Unlock(p) =>
      if ph.Finished? { UnlockKeeps(c, skipper, s, p); }
    case Crash(p) => CrashKeeps(c, skipper, s, p);
    case OpenRead(p, dir) =>
      if ph.Idle? { OpenStepKeeps(c, skipper, s, p, dir); }
    case OpenCheck(p) =>
      if ph.At(Unchecked) { CacheStepsKeep(c, skipper, s, p); }
    case OpenStage(p) =>
      if ph.At(Checked) { CacheStepsKeep(c, skipper, s, p); }
    case OpenStore(p) =>
      if ph.At(Staged) { CacheStepsKeep(c, skipper, s, p); }
  }

  predicate Untampered(acts: seq<Action>) { forall i :: 0 <= i < |acts| ==> !acts[i].Tamper? }

  /** The signatures made in the run verify. */
  predicate RunVerifies(c: Crypto, skipper: Key, acts: seq<Action>) { AllVerify(c, After(c, skipper, acts).history) }

  /** `h'` has at most one link more than `h`. */
  predicate OneMoreAtMost(h: seq<Link>, h': seq<Link>) {
    h' == h || (|h'| == |h| + 1 && h' == h + [h'[|h|]])
  }

  lemma OneMoreGrows(h: seq<Link>, h': seq<Link>)
    requires OneMoreAtMost(h, h')
    ensures Grows(h, h')
  {
  }

  lemma CollapseSigns(c: Crypto, skipper: Key, s: State, p: Pid, op: Op, chain: seq<Link>, at: I64)
    ensures OneMoreAtMost(s.history, Collapse(c, skipper, s, p, op, chain, at).history)
  {
    hide NextLink, Replayed;
  }

  lemma WriteSigns(c: Crypto, skipper: Key, s: State, p: Pid, op: Op, chain: seq<Link>, at: I64)
    ensures OneMoreAtMost(s.history, WriteStep(c, skipper, s, p, op, chain, at).history)
  {
    CollapseSigns(c, skipper, s, p, op, chain, at);
    hide NextLink, FirstLink, Replayed, Collapse;
  }

  /** A step signs nothing, or one link for the process that holds the lock. */
  lemma HistoryStep(c: Crypto, skipper: Key, s: State, a: Action)
    ensures var s' := Do(c, skipper, s, a);
      OneMoreAtMost(s.history, s'.history) && (s'.history != s.history ==> s.PhaseOf(a.p).HoldsLock())
    ensures Grows(s.history, Do(c, skipper, s, a).history)
  {
    hide WriteStep, Collapse, Replayed, OneMoreAtMost;
    var ph := s.PhaseOf(a.p);
    if a.Write? && ph.Holding? {
      WriteSigns(c, skipper, s, a.p, ph.op, ph.chain, a.at);
    } else if a.Rename? && ph.Collapsing? {
      CollapseSigns(c, skipper, s, a.p, ph.op, ph.chain, a.at);
    } else {
      assert Do(c, skipper, s, a).history == s.history;
      assert OneMoreAtMost(s.history, s.history) by { NoMore(s.history); }
    }
    hide Do;
    OneMoreGrows(s.history, Do(c, skipper, s, a).history);
  }

  lemma NoMore(h: seq<Link>)
    ensures OneMoreAtMost(h, h)
  {
  }

  lemma StepVerifies(c: Crypto, skipper: Key, s: State, a: Action)
    requires AllVerify(c, Do(c, skipper, s, a).history)
    ensures AllVerify(c, s.history)
  {
    hide Do;
    HistoryStep(c, skipper, s, a);
    AllVerifyPrefix(c, Do(c, skipper, s, a).history, |s.history|);
  }

  /** The invariant holds after any interleaving of untampered steps. */
  lemma {:induction false} Reachable(c: Crypto, skipper: Key, acts: seq<Action>)
    requires Untampered(acts) && RunVerifies(c, skipper, acts)
    ensures Inv(c, skipper, After(c, skipper, acts))
  {
    if acts == [] {
    } else {
      var s := After(c, skipper, acts[..|acts| - 1]);
      StepVerifies(c, skipper, s, acts[|acts| - 1]);
      Reachable(c, skipper, acts[..|acts| - 1]);
      DoKeeps(c, skipper, s, acts[|acts| - 1]);
    }
  }

  /** A write touches nothing but the log, the record of what was signed, and its own process,
      which goes on with its operation and the lock. */
  predicate WroteAlone(s: State, s': State, p: Pid, op: Op) {
    && s' == s.Set(p, s'.PhaseOf(p)).(log := s'.log, history := s'.history)
    && s'.PhaseOf(p).HoldsLock() && s'.PhaseOf(p).op == op
    && (s'.log != s.log ==> s'.history != s.history)
  }

  lemma CollapseAlone(c: Crypto, skipper: Key, s: State, p: Pid, op: Op, chain: seq<Link>, at: I64)
    ensures WroteAlone(s, Collapse(c, skipper, s, p, op, chain, at), p, op)
  {
    hide NextLink, Replayed;
  }

  lemma WriteAlone(c: Crypto, skipper: Key, s: State, p: Pid, op: Op, chain: seq<Link>, at: I64)
    ensures WroteAlone(s, WriteStep(c, skipper, s, p, op, chain, at), p, op)
  {
    CollapseAlone(c, skipper, s, p, op, chain, at);
    hide NextLink, FirstLink, Replayed, Collapse;
  }

  lemma WritesAlone(c: Crypto, skipper: Key, s: State, a: Action)
    requires a.Write? || a.Rename?
    ensures var s', ph := Do(c, skipper, s, a), s.PhaseOf(a.p);
      s' == s || (ph.HoldsLock() && WroteAlone(s, s', a.p, ph.op))
  {
    hide WroteAlone, WriteStep, Collapse, Replayed;
    var ph := s.PhaseOf(a.p);
    if a.Write? && ph.Holding? {
      WriteAlone(c, skipper, s, a.p, ph.op, ph.chain, a.at);
    } else if a.Rename? && ph.Collapsing? {
      CollapseAlone(c, skipper, s, a.p, ph.op, ph.chain, a.at);
    }
  }

  /** Only the acting process moves. */
  lemma OthersStay(c: Crypto, skipper: Key, s: State, a: Action)
    ensures var s' := Do(c, skipper, s, a);
      s'.procs == s.procs || s'.procs == s.procs[a.p := s'.PhaseOf(a.p)]
  {
    if a.Write? || a.Rename? { WritesAlone(c, skipper, s, a); }
    hide WriteStep, Collapse, Replayed;
  }

  lemma LockMoves(c: Crypto, skipper: Key, s: State, a: Action)
    requires s.PhaseOf(a.p).HoldsLock() <==> s.lock == Some(a.p)
    ensures var s' := Do(c, skipper, s, a);
      && (s'.lock == s.lock
          || (s.lock == None && s'.lock == Some(a.p))
          || (s'.lock == None && (s.PhaseOf(a.p).HoldsLock() || s.lock == Some(a.p))))
      && (s'.lock == s.lock ==> s'.PhaseOf(a.p).HoldsLock() == s.PhaseOf(a.p).HoldsLock() || a.Crash?)
      && (a.Crash? ==> !s'.PhaseOf(a.p).HoldsLock() && s'.lock != Some(a.p))
      && (s'.lock != s.lock && s'.lock.Some? ==> s'.PhaseOf(a.p).HoldsLock())
      && (s'.lock != s.lock && s'.lock.None? ==> !s'.PhaseOf(a.p).HoldsLock())
  {
    if a.Write? || a.Rename? { WritesAlone(c, skipper, s, a); }
    hide WriteStep, Collapse, Replayed;
  }

  /** A step moves only its own process, and the lock changes hands by its own steps. */
  lemma PhaseStep(c: Crypto, skipper: Key, s: State, a: Action)
    requires s.PhaseOf(a.p).HoldsLock() <==> s.lock == Some(a.p)
    ensures var s' := Do(c, skipper, s, a);
      forall q: Pid :: q != a.p ==> s'.PhaseOf(q) == s.PhaseOf(q)
    ensures var s' := Do(c, skipper, s, a);
      && (s'.lock == s.lock
          || (s.lock == None && s'.lock == Some(a.p))
          || (s'.lock == None && (s.PhaseOf(a.p).HoldsLock() || s.lock == Some(a.p))))
      && (s'.lock == s.lock ==> s'.PhaseOf(a.p).HoldsLock() == s.PhaseOf(a.p).HoldsLock() || a.Crash?)
      && (a.Crash? ==> !s'.PhaseOf(a.p).HoldsLock() && s'.lock != Some(a.p))
      && (s'.lock != s.lock && s'.lock.Some? ==> s'.PhaseOf(a.p).HoldsLock())
      && (s'.lock != s.lock && s'.lock.None? ==> !s'.PhaseOf(a.p).HoldsLock())
  {
    LockMoves(c, skipper, s, a);
    OthersStay(c, skipper, s, a);
    hide Do;
  }

  /** Whatever happens to the file, the lock works. */
  lemma LockStep(c: Crypto, skipper: Key, s: State, a: Action)
    requires LockOk(s)
    ensures LockOk(Do(c, skipper, s, a))
  {
    var s' := Do(c, skipper, s, a);
    PhaseStep(c, skipper, s, a);
    hide Do;
    forall q: Pid ensures s'.PhaseOf(q).HoldsLock() <==> s'.lock == Some(q) {
      assert s.PhaseOf(q).HoldsLock() <==> s.lock == Some(q);
      assert s.PhaseOf(a.p).HoldsLock() <==> s.lock == Some(a.p);
    }
  }

  lemma {:induction false} LockHeld(c: Crypto, skipper: Key, acts: seq<Action>)
    ensures LockOk(After(c, skipper, acts))
  {
    if acts == [] {
    } else {
      hide Do;
      LockHeld(c, skipper, acts[..|acts| - 1]);
      LockStep(c, skipper, After(c, skipper, acts[..|acts| - 1]), acts[|acts| - 1]);
    }
  }
}
