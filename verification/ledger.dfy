/** What the calls asked for against what the log records, over every run of the protocol,
    tampered with or not: no append is lost, doubled or altered, and no compaction counts. */
module Ledger {
  import opened Wire
  import opened Wrappers
  import opened Records
  import opened Members
  import opened Chain
  import opened History
  import opened Registry
  import opened Protocol
  import opened Guarantees
  import opened Seqs

  /** The admits and revokes among the links, in order. */
  function Events(h: seq<Link>): seq<Body> {
    if h == [] then [] else
      var last := h[|h| - 1].body;
      Events(h[..|h| - 1]) + if last.IsEvent() then [last] else []
  }

  /** The members a list of admits and revokes leaves. */
  function FoldBodies(bodies: seq<Body>): Active {
    if bodies == [] then map[] else Apply(FoldBodies(bodies[..|bodies| - 1]), bodies[|bodies| - 1])
  }

  lemma {:induction false} FoldIsEvents(h: seq<Link>)
    ensures Fold(map[], h) == FoldBodies(Events(h))
  {
    if h == [] {
    } else {
      var init, b := h[..|h| - 1], h[|h| - 1].body;
      FoldIsEvents(init);
      PrefixOfSnoc(Events(init), b);
      assert Events(init) + [] == Events(init);
    }
  }

  lemma EventsSnoc(h: seq<Link>, l: Link)
    ensures Events(h + [l]) == Events(h) + if l.body.IsEvent() then [l.body] else []
  {
    PrefixOfSnoc(h, l);
  }

  /** What a step enters: the body of an append whose chain replayed, at the moment its holder
      writes it. */
  function Entry(c: Crypto, s: State, a: Action): seq<Body> {
    if !a.Write? then [] else
      match s.PhaseOf(a.p)
      case Holding(Append(body), chain) => if Replayed(c, chain, None).Success? then [body] else []
      case _ => []
  }

  /** The bodies of the appends, in the order their lock holders wrote them. */
  function Entries(c: Crypto, skipper: Key, acts: seq<Action>): seq<Body> {
    if acts == [] then [] else
      var init := acts[..|acts| - 1];
      Entries(c, skipper, init) + Entry(c, After(c, skipper, init), acts[|acts| - 1])
  }

  predicate Holds(ph: Phase, op: Op) {
    match ph
    case Idle => false
    case Opening(_, _, _, _) => false
    case _ => ph.op == op
  }

  ghost predicate OpsAreEvents(s: State) {
    forall p: Pid, op: Op :: Holds(s.PhaseOf(p), op) && op.Append? ==> op.body.IsEvent()
  }

  lemma OpsStep(c: Crypto, skipper: Key, s: State, a: Action)
    requires OpsAreEvents(s)
    ensures OpsAreEvents(Do(c, skipper, s, a))
  {
    var s' := Do(c, skipper, s, a);
    forall p: Pid, op: Op | Holds(s'.PhaseOf(p), op) && op.Append?
      ensures Holds(s.PhaseOf(p), op) || op.body.IsEvent()
    {
      OpComesFrom(c, skipper, s, a, p, op);
    }
  }

  /** `a` is the call of `p` that asks for `op`. */
  predicate Asked(a: Action, p: Pid, op: Op) {
    || a == Begin(p, op)
    || (a.TryAdmit? && a.p == p && op == Append(Admit(a.member, None)))
  }

  /** A process works on an operation only because it did so before or was just asked to. */
  lemma OpComesFrom(c: Crypto, skipper: Key, s: State, a: Action, p: Pid, op: Op)
    requires Holds(Do(c, skipper, s, a).PhaseOf(p), op)
    ensures Holds(s.PhaseOf(p), op) || (Asked(a, p, op) && (op.Append? ==> op.body.IsEvent()))
    ensures !Holds(s.PhaseOf(p), op) ==> Do(c, skipper, s, a).PhaseOf(p) == Waiting(op)
  {
    if a.Write? || a.Rename? { WritesAlone(c, skipper, s, a); }
    hide WriteStep, Collapse, Replayed;
  }

  lemma EntryStep(c: Crypto, skipper: Key, s: State, a: Action)
    requires OpsAreEvents(s)
    ensures Events(Do(c, skipper, s, a).history) == Events(s.history) + Entry(c, s, a)
  {
    var s' := Do(c, skipper, s, a);
    HistoryStep(c, skipper, s, a);
    SignsWhatWasAsked(c, skipper, s, a);
    WritesIffEntered(c, skipper, s, a);
    hide Do, Replayed;
    var ph := s.PhaseOf(a.p);
    if s'.history != s.history {
      EventsSnoc(s.history, s'.history[|s.history|]);
      if ph.Holding? { assert Holds(ph, ph.op); }
    }
    hide Events;
  }

  lemma WritesIffEntered(c: Crypto, skipper: Key, s: State, a: Action)
    ensures var s' := Do(c, skipper, s, a);
      && (Entry(c, s, a) != [] ==> s'.history != s.history)
      && (s'.history != s.history && s.PhaseOf(a.p).Holding? && s.PhaseOf(a.p).op.Append? ==>
            Entry(c, s, a) == [s.PhaseOf(a.p).op.body])
  {
    hide NextLink, FirstLink, Replayed;
  }

  /** In every run the events the history records are exactly the appends their lock holders
      were asked to write, in the order they wrote them: none lost, none added, none altered. */
  lemma {:induction false} HistoryIsLedger(c: Crypto, skipper: Key, acts: seq<Action>)
    ensures Events(After(c, skipper, acts).history) == Entries(c, skipper, acts)
    ensures Fold(map[], After(c, skipper, acts).history) == FoldBodies(Entries(c, skipper, acts))
    ensures OpsAreEvents(After(c, skipper, acts))
  {
    if acts == [] {
    } else {
      hide Do, Entry;
      var init := acts[..|acts| - 1];
      HistoryIsLedger(c, skipper, init);
      EntryStep(c, skipper, After(c, skipper, init), acts[|acts| - 1]);
      OpsStep(c, skipper, After(c, skipper, init), acts[|acts| - 1]);
    }
    FoldIsEvents(After(c, skipper, acts).history);
  }

  /** In every untampered run a reader sees the fold of the appends in lock order. */
  lemma ReadersSeeLedger(c: Crypto, skipper: Key, acts: seq<Action>, expected: Option<HansaId>)
    requires Untampered(acts) && RunVerifies(c, skipper, acts) && Pins(c, skipper, expected)
    ensures var r := Replayed(c, After(c, skipper, acts).log, expected);
      After(c, skipper, acts).log != [] ==> r.Success? && r.value.active == FoldBodies(Entries(c, skipper, acts))
  {
    hide Replayed, After, FoldBodies, Entries, Events;
    EveryReaderVerifies(c, skipper, acts, expected);
    HistoryIsLedger(c, skipper, acts);
  }

  /** A step changes the recorded members by the body it enters, if any. So a compaction and a
      threshold checkpoint change nothing. */
  lemma MembersStep(c: Crypto, skipper: Key, acts: seq<Action>, a: Action)
    ensures var s := After(c, skipper, acts); var s' := Do(c, skipper, s, a);
      && Fold(map[], s'.history)
         == (if Entry(c, s, a) == [] then Fold(map[], s.history) else Apply(Fold(map[], s.history), Entry(c, s, a)[0]))
      && (a.Rename? || (a.Write? && Holds(s.PhaseOf(a.p), Compact)) ==>
        Fold(map[], s'.history) == Fold(map[], s.history))
  {
    HistoryIsLedger(c, skipper, acts);
    var s := After(c, skipper, acts);
    hide After;
    EntryStep(c, skipper, s, a);
    var s' := Do(c, skipper, s, a);
    FoldIsEvents(s.history);
    FoldIsEvents(s'.history);
    EntryIsOne(c, s, a);
    hide Do, Events, Entry;
    FoldEntry(Events(s.history), Entry(c, s, a));
  }

  lemma EntryIsOne(c: Crypto, s: State, a: Action)
    ensures |Entry(c, s, a)| <= 1
    ensures a.Rename? || (a.Write? && Holds(s.PhaseOf(a.p), Compact)) ==> Entry(c, s, a) == []
  {
  }

  lemma FoldEntry(bodies: seq<Body>, entry: seq<Body>)
    requires |entry| <= 1
    ensures FoldBodies(bodies + entry)
         == if entry == [] then FoldBodies(bodies) else Apply(FoldBodies(bodies), entry[0])
  {
    if entry == [] {
      assert bodies + entry == bodies;
    } else {
      assert entry == [entry[0]];
      PrefixOfSnoc(bodies, entry[0]);
    }
  }

  // ---- the story of a call ----

  /** What a call in this phase has recorded so far. */
  predicate HasRecorded(ph: Phase, entered: seq<Body>) {
    match ph
    case Locked(_) => entered == []
    case Holding(_, _) => entered == []
    case Overgrown(op) => op.Append? && entered == [op.body]
    case Collapsing(op, _) => op.Append? && entered == [op.body]
    case Finished(op, failed) =>
      if !op.Append? then entered == []
      else if failed then entered == [] || entered == [op.body]
      else entered == [op.body]
    case _ => false
  }

  lemma NoEntry(c: Crypto, s: State, a: Action)
    requires !(a.Write? && s.PhaseOf(a.p).Holding?)
    ensures Entry(c, s, a) == []
  {
  }

  lemma RecordedWrite(c: Crypto, skipper: Key, s: State, a: Action, entered: seq<Body>)
    requires a.Write? && s.PhaseOf(a.p).Holding? && entered == []
    ensures HasRecorded(Do(c, skipper, s, a).PhaseOf(a.p), entered + Entry(c, s, a))
  {
    hide NextLink, FirstLink, Replayed;
  }

  lemma RecordedRename(c: Crypto, skipper: Key, s: State, p: Pid, op: Op, chain: seq<Link>, at: I64)
    requires op.Append?
    ensures HasRecorded(Collapse(c, skipper, s, p, op, chain, at).PhaseOf(p), [op.body])
  {
    hide NextLink, Replayed;
  }

  lemma RecordedStep(c: Crypto, skipper: Key, s: State, a: Action, entered: seq<Body>, op: Op)
    requires HasRecorded(s.PhaseOf(a.p), entered) && Holds(s.PhaseOf(a.p), op)
    requires Do(c, skipper, s, a).PhaseOf(a.p).HoldsLock()
    ensures HasRecorded(Do(c, skipper, s, a).PhaseOf(a.p), entered + Entry(c, s, a))
    ensures Holds(Do(c, skipper, s, a).PhaseOf(a.p), op)
  {
    hide WriteStep, Collapse, Replayed, Entry;
    var ph := s.PhaseOf(a.p);
    if a.Write? && ph.Holding? {
      RecordedWrite(c, skipper, s, a, entered);
      WriteAlone(c, skipper, s, a.p, ph.op, ph.chain, a.at);
    } else if a.Rename? && ph.Collapsing? {
      RecordedRename(c, skipper, s, a.p, ph.op, ph.chain, a.at);
      NoEntry(c, s, a);
    } else {
      NoEntry(c, s, a);
    }
    assert entered + [] == entered;
  }

  /** A waiting process was asked for its operation and has waited ever since. */
  lemma {:induction false} WaitingStory(c: Crypto, skipper: Key, acts: seq<Action>, p: Pid, op: Op) returns (b: nat)
    requires After(c, skipper, acts).PhaseOf(p) == Waiting(op)
    ensures b < |acts| && Asked(acts[b], p, op)
    ensures forall k :: b < k <= |acts| ==> After(c, skipper, acts[..k]).PhaseOf(p) == Waiting(op)
  {
    hide Do;
    assert acts != [] by { assert After(c, skipper, []) == Init; }
    var n := |acts| - 1;
    var init, s := acts[..n], After(c, skipper, acts[..n]);
    assert acts[..n + 1] == acts;
    OpComesFrom(c, skipper, s, acts[n], p, op);
    if s.PhaseOf(p) == Waiting(op) {
      b := WaitingStory(c, skipper, init, p, op);
      forall k | b < k <= |acts| ensures After(c, skipper, acts[..k]).PhaseOf(p) == Waiting(op) {
        if k <= n { PrefixOfPrefix(acts, k, n); }
      }
    } else {
      b := n;
      StartsWaiting(c, skipper, s, acts[n], p, op);
    }
  }

  /** Nothing goes back to waiting. */
  lemma StartsWaiting(c: Crypto, skipper: Key, s: State, a: Action, p: Pid, op: Op)
    requires Do(c, skipper, s, a).PhaseOf(p) == Waiting(op) && s.PhaseOf(p) != Waiting(op)
    ensures Asked(a, p, op)
  {
    if a.Write? || a.Rename? { WritesAlone(c, skipper, s, a); }
    hide WriteStep, Collapse, Replayed;
  }

  lemma Acquires(c: Crypto, skipper: Key, s: State, a: Action, p: Pid)
    requires Do(c, skipper, s, a).PhaseOf(p).HoldsLock() && !s.PhaseOf(p).HoldsLock()
    ensures a == Acquire(p) && s.lock == None && s.PhaseOf(p).Waiting?
    ensures Do(c, skipper, s, a).PhaseOf(p) == Locked(s.PhaseOf(p).op) && Do(c, skipper, s, a).history == s.history
  {
    if a.Write? || a.Rename? { WritesAlone(c, skipper, s, a); }
    hide WriteStep, Collapse, Replayed;
  }

  /** The lock holder `p` was asked for `op` at step `b`, took the free lock at step `j`, has
      held it ever since, and has recorded `entered` in that time; nobody else recorded
      anything. */
  ghost predicate InCall(c: Crypto, skipper: Key, acts: seq<Action>, p: Pid, op: Op, b: nat, j: nat,
                         entered: seq<Body>) {
    && b < j < |acts| && Asked(acts[b], p, op) && acts[j] == Acquire(p)
    && (forall k :: b < k <= j ==> After(c, skipper, acts[..k]).PhaseOf(p) == Waiting(op))
    && After(c, skipper, acts[..j]).lock == None
    && (forall k :: j < k <= |acts| ==> After(c, skipper, acts[..k]).lock == Some(p))
    && Events(After(c, skipper, acts).history) == Events(After(c, skipper, acts[..j]).history) + entered
  }

  lemma {:induction false} CallExtends(c: Crypto, skipper: Key, acts: seq<Action>, p: Pid, op: Op, b: nat, j: nat,
                                       entered: seq<Body>, more: seq<Body>)
    requires acts != [] && InCall(c, skipper, acts[..|acts| - 1], p, op, b, j, entered)
    requires After(c, skipper, acts).lock == Some(p)
    requires Events(After(c, skipper, acts).history)
          == Events(After(c, skipper, acts[..|acts| - 1]).history) + more
    ensures InCall(c, skipper, acts, p, op, b, j, entered + more)
  {
    hide After, Events;
    var n := |acts| - 1;
    forall k | 0 <= k <= n ensures acts[..n][..k] == acts[..k] { PrefixOfPrefix(acts, k, n); }
    assert acts[..n + 1] == acts;
  }

  /** What the last step of a run means for a process that holds the lock after it. */
  lemma LastStep(c: Crypto, skipper: Key, acts: seq<Action>, p: Pid)
    requires acts != [] && After(c, skipper, acts).PhaseOf(p).HoldsLock()
    ensures var s, s', a := After(c, skipper, acts[..|acts| - 1]), After(c, skipper, acts), acts[|acts| - 1];
      && s' == Do(c, skipper, s, a) && s'.lock == Some(p)
      && Events(s'.history) == Events(s.history) + Entry(c, s, a)
      && (a.p != p ==> s.PhaseOf(p) == s'.PhaseOf(p) && Entry(c, s, a) == [])
  {
    var s, s', a := After(c, skipper, acts[..|acts| - 1]), After(c, skipper, acts), acts[|acts| - 1];
    LockHeld(c, skipper, acts[..|acts| - 1]);
    LockHeld(c, skipper, acts);
    HistoryIsLedger(c, skipper, acts[..|acts| - 1]);
    hide After;
    assert s' == Do(c, skipper, s, a) by { LastIsDo(c, skipper, acts); }
    EntryStep(c, skipper, s, a);
    HistoryStep(c, skipper, s, a);
    WritesIffEntered(c, skipper, s, a);
    PhaseStep(c, skipper, s, a);
    hide Do, Events, Entries, Entry;
  }

  lemma HolderOp(ph: Phase) returns (op: Op)
    requires ph.HoldsLock()
    ensures Holds(ph, op)
  {
    op := ph.op;
  }

  lemma StoryStep(c: Crypto, skipper: Key, s: State, a: Action, p: Pid, entered: seq<Body>, op': Op, op: Op)
    requires HasRecorded(s.PhaseOf(p), entered) && Holds(s.PhaseOf(p), op')
    requires Do(c, skipper, s, a).PhaseOf(p).HoldsLock() && Holds(Do(c, skipper, s, a).PhaseOf(p), op)
    requires a.p != p ==> s.PhaseOf(p) == Do(c, skipper, s, a).PhaseOf(p) && Entry(c, s, a) == []
    ensures HasRecorded(Do(c, skipper, s, a).PhaseOf(p), entered + Entry(c, s, a)) && op == op'
  {
    hide Do, Entry;
    if a.p == p {
      RecordedStep(c, skipper, s, a, entered, op');
    } else {
      assert entered + [] == entered;
    }
  }

  lemma FreshlyLocked(c: Crypto, skipper: Key, s: State, a: Action, p: Pid, op: Op)
    requires !s.PhaseOf(p).HoldsLock() && Do(c, skipper, s, a).PhaseOf(p).HoldsLock()
    requires Holds(Do(c, skipper, s, a).PhaseOf(p), op)
    ensures s.PhaseOf(p) == Waiting(op) && HasRecorded(Do(c, skipper, s, a).PhaseOf(p), [])
  {
    Acquires(c, skipper, s, a, p);
    hide Do;
  }

  /** The story of a call under the lock. */
  lemma {:induction false} CallStory(c: Crypto, skipper: Key, acts: seq<Action>, p: Pid, op: Op)
      returns (b: nat, j: nat, entered: seq<Body>)
    requires After(c, skipper, acts).PhaseOf(p).HoldsLock() && Holds(After(c, skipper, acts).PhaseOf(p), op)
    ensures InCall(c, skipper, acts, p, op, b, j, entered) && HasRecorded(After(c, skipper, acts).PhaseOf(p), entered)
  {
    assert acts != [] by { assert After(c, skipper, []) == Init; }
    var n := |acts| - 1;
    var init, a := acts[..n], acts[n];
    var s := After(c, skipper, init);
    hide After, Do, Events, Entries, Entry, InCall, HasRecorded, Holds;
    LastStep(c, skipper, acts, p);
    if s.PhaseOf(p).HoldsLock() {
      var op' := HolderOp(s.PhaseOf(p));
      b, j, entered := CallStory(c, skipper, init, p, op');
      StoryStep(c, skipper, s, a, p, entered, op', op);
      CallExtends(c, skipper, acts, p, op, b, j, entered, Entry(c, s, a));
      entered := entered + Entry(c, s, a);
    } else {
      FreshlyLocked(c, skipper, s, a, p, op);
      Acquires(c, skipper, s, a, p);
      b := WaitingStory(c, skipper, init, p, op);
      j, entered := n, [];
      InitSnoc(acts);
      AcquiredCall(c, skipper, init, p, op, b);
    }
  }

  lemma AcquiredCall(c: Crypto, skipper: Key, init: seq<Action>, p: Pid, op: Op, b: nat)
    requires b < |init| && Asked(init[b], p, op)
    requires After(c, skipper, init).lock == None && After(c, skipper, init + [Acquire(p)]).lock == Some(p)
    requires After(c, skipper, init + [Acquire(p)]).history == After(c, skipper, init).history
    requires forall k :: b < k <= |init| ==> After(c, skipper, init[..k]).PhaseOf(p) == Waiting(op)
    ensures InCall(c, skipper, init + [Acquire(p)], p, op, b, |init|, [])
  {
    hide After, Events;
    var acts, n := init + [Acquire(p)], |init|;
    PrefixOfSnoc(init, Acquire(p));
    forall k | 0 <= k <= n ensures acts[..k] == init[..k] { PrefixOfPrefix(acts, k, n); }
    assert acts[..n + 1] == acts && init[..n] == init;
  }

  /** No lost update: when an append reports success, exactly its body was recorded while its
      process held the lock, once, and after it was asked for; a call that is not an append
      records nothing. */
  lemma NoLostUpdate(c: Crypto, skipper: Key, acts: seq<Action>, p: Pid, op: Op)
      returns (b: nat, j: nat)
    requires After(c, skipper, acts).PhaseOf(p) == Finished(op, false)
    ensures InCall(c, skipper, acts, p, op, b, j, if op.Append? then [op.body] else [])
  {
    hide After;
    var entered;
    b, j, entered := CallStory(c, skipper, acts, p, op);
  }

  lemma {:induction false} EventsPrefix(h: seq<Link>, h': seq<Link>)
    requires h <= h'
    ensures Events(h) <= Events(h')
  {
    if |h| == |h'| {
      assert h == h';
    } else {
      EventsPrefix(h, h'[..|h'| - 1]);
    }
  }

  /** What has been recorded stays recorded, in its place, whatever happens to the file. */
  lemma NothingForgotten(c: Crypto, skipper: Key, acts: seq<Action>, more: seq<Action>)
    ensures Events(After(c, skipper, acts).history) <= Events(After(c, skipper, acts + more).history)
  {
    hide After;
    HistoryOnlyGrows(c, skipper, acts, more);
    EventsPrefix(After(c, skipper, acts).history, After(c, skipper, acts + more).history);
  }

  lemma InvStretch(c: Crypto, skipper: Key, s: State)
    requires Inv(c, skipper, s) && s.log != []
    ensures Written(c, skipper, s.history) && |s.log| <= |s.history|
    ensures s.log == s.history[|s.history| - |s.log|..]
    ensures StretchFrom(s.history, |s.history| - |s.log|, |s.history|)
  {
    hide Written, StretchFrom;
  }

  lemma StateKeepsMeaning(c: Crypto, skipper: Key, s: State, expected: Option<HansaId>)
    requires Inv(c, skipper, s) && s.log != [] && Pins(c, skipper, expected)
    requires AllVerify(c, Uncompacted(c, skipper, s.history))
    ensures SameMeaning(c, s.log, Uncompacted(c, skipper, s.history), expected, skipper, Fold(map[], s.history))
  {
    hide *;
    InvStretch(c, skipper, s);
    CompactionPreservesMeaning(c, skipper, s.history, |s.history| - |s.log|, expected);
  }

  /** Compaction preserves meaning over whole runs: whatever was compacted and when, the log
      replays to the same skipper, dimension and members as the never-compacted one would. */
  lemma RunsKeepMeaning(c: Crypto, skipper: Key, acts: seq<Action>, expected: Option<HansaId>)
    requires Untampered(acts) && RunVerifies(c, skipper, acts) && Pins(c, skipper, expected)
    requires AllVerify(c, Uncompacted(c, skipper, After(c, skipper, acts).history))
    ensures var s := After(c, skipper, acts);
      s.log != [] ==>
        SameMeaning(c, s.log, Uncompacted(c, skipper, s.history), expected, skipper,
                    FoldBodies(Entries(c, skipper, acts)))
  {
    hide *;
    Reachable(c, skipper, acts);
    HistoryIsLedger(c, skipper, acts);
    var s := After(c, skipper, acts);
    if s.log != [] { StateKeepsMeaning(c, skipper, s, expected); }
  }
}
