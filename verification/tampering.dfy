/** The log under attack. Anyone who can write the file may put any content in its place at any
    time. What readers can still rely on depends on what the skipper signs afterwards: both
    directions of that dependence, and what the head cache adds for returning members. */
module Tampering {
  import opened Wire
  import opened Wrappers
  import opened Records
  import opened Members
  import opened Chain
  import opened History
  import opened Registry
  import opened Protocol
  import opened Guarantees
  import opened Opens
  import opened Ledger

  /** The process's own copy of the log, which it signs on. */
  function ChainOf(s: State, a: Action): seq<Link> {
    match s.PhaseOf(a.p)
    case Holding(_, chain) => chain
    case Collapsing(_, chain) => chain
    case _ => []
  }

  /** The link a step signs. */
  function Signed(c: Crypto, skipper: Key, s: State, a: Action): Option<Link> {
    var h := Do(c, skipper, s, a).history;
    if |h| > |s.history| then Some(h[|s.history|]) else None
  }

  /** How a signed link relates to the copy it was signed on: a genesis on an empty one, else
      an event or a snapshot continuing the head the copy replays to without a pinned id. */
  predicate SignedOn(c: Crypto, skipper: Key, chain: seq<Link>, l: Link) {
    if chain == [] then
      l.body.Founding? && l == FirstLink(c, skipper, l.body.genesis.embeddingDim, l.body.genesis.createdAt)
    else
      var r := Replayed(c, chain, None);
      && r.Success? && l == NextLink(c, skipper, r.value, l.body)
      && (l.body.IsEvent() || (l.body.Checkpoint? && l.body == SnapshotOfHead(r.value, l.body.at)))
  }

  lemma SigningStep(c: Crypto, skipper: Key, s: State, a: Action)
    requires OpsAreEvents(s)
    ensures var h, l := Do(c, skipper, s, a).history, Signed(c, skipper, s, a);
      if l.None? then h == s.history else h == s.history + [l.value] && SignedOn(c, skipper, ChainOf(s, a), l.value)
  {
    var ph := s.PhaseOf(a.p);
    if ph.Holding? { assert Holds(ph, ph.op); }
    EmptyReplay(c, None);
    SignStep(c, skipper, s, a);
    hide Do;
  }

  lemma SignStep(c: Crypto, skipper: Key, s: State, a: Action)
    requires Replayed(c, [], None).Failure?
    requires s.PhaseOf(a.p).Holding? && s.PhaseOf(a.p).op.Append? ==> s.PhaseOf(a.p).op.body.IsEvent()
    ensures GrowsBySigning(c, skipper, s.history, Do(c, skipper, s, a).history, ChainOf(s, a))
  {
    hide WriteStep, Collapse, Replayed, GrowsBySigning;
    var ph := s.PhaseOf(a.p);
    if a.Write? && ph.Holding? {
      WriteStepSigns(c, skipper, s, a.p, ph.op, ph.chain, a.at);
    } else if a.Rename? && ph.Collapsing? {
      CollapseStepSigns(c, skipper, s, a.p, ph.op, ph.chain, a.at);
    } else {
      assert Do(c, skipper, s, a).history == s.history;
      SigningNothing(c, skipper, s.history, ChainOf(s, a));
    }
  }

  /** The history grows by one link signed on `chain`, or not at all. */
  predicate GrowsBySigning(c: Crypto, skipper: Key, h: seq<Link>, h': seq<Link>, chain: seq<Link>) {
    h' == h || (|h'| == |h| + 1 && h' == h + [h'[|h|]] && SignedOn(c, skipper, chain, h'[|h|]))
  }

  lemma SigningNothing(c: Crypto, skipper: Key, h: seq<Link>, chain: seq<Link>)
    ensures GrowsBySigning(c, skipper, h, h, chain)
  {
  }

  lemma CollapseStepSigns(c: Crypto, skipper: Key, s: State, p: Pid, op: Op, chain: seq<Link>, at: I64)
    ensures GrowsBySigning(c, skipper, s.history, Collapse(c, skipper, s, p, op, chain, at).history, chain)
  {
    hide Replayed, Sorted;
  }

  lemma WriteStepSigns(c: Crypto, skipper: Key, s: State, p: Pid, op: Op, chain: seq<Link>, at: I64)
    requires Replayed(c, [], None).Failure? && (op.Append? ==> op.body.IsEvent())
    ensures GrowsBySigning(c, skipper, s.history, WriteStep(c, skipper, s, p, op, chain, at).history, chain)
  {
    hide Replayed, Sorted, Collapse;
    if op.Compact? { CollapseStepSigns(c, skipper, s, p, op, chain, at); }
  }

  lemma LogFollows(c: Crypto, skipper: Key, s: State, a: Action)
    requires s.PhaseOf(a.p).Holding? && s.PhaseOf(a.p).op.Append? ==> s.PhaseOf(a.p).op.body.IsEvent()
    ensures var s', l := Do(c, skipper, s, a), Signed(c, skipper, s, a);
      l.Some? ==> s'.log == if l.value.body.Checkpoint? then [l.value] else s.log + [l.value]
  {
    hide Replayed, Sorted, Link.Canonical;
  }

  /** `l` is a genesis if the copy is empty; else an event or a snapshot of that copy, with the
      number and the hash that come after its last link. */
  predicate FollowsCopy(c: Crypto, skipper: Key, chain: seq<Link>, l: Link) {
    if chain == [] then l.body.Founding? && l.seqNo == 0 && l.signedBy == skipper
    else SignedAfter(c, skipper, chain[|chain| - 1], l)
         && match l.body
            case Founding(_) => false
            case Checkpoint(_, _, at) => SnapshotAfter(c, skipper, chain, at, l)
            case _ => true
  }

  lemma SignedFollows(c: Crypto, skipper: Key, chain: seq<Link>, l: Link)
    requires SignedOn(c, skipper, chain, l)
    ensures FollowsCopy(c, skipper, chain, l)
  {
    if chain != [] {
      NextIsSignedAfter(c, skipper, chain, Replayed(c, chain, None).value, l.body);
      ReplayAccepts(c, chain, None);
    }
    hide Replayed, NextLink, SignedAfter, GoodRoot, Chained, Fold, Sorted;
  }

  /** In any run at all, what a step signs follows the copy of the log its process has read. It is
      added to the log, or as a snapshot takes its place. */
  lemma FollowsItsCopy(c: Crypto, skipper: Key, acts: seq<Action>, a: Action)
    ensures var s := After(c, skipper, acts); var s', l := Do(c, skipper, s, a), Signed(c, skipper, s, a);
      l.Some? ==>
        && s'.history == s.history + [l.value]
        && FollowsCopy(c, skipper, ChainOf(s, a), l.value)
        && s'.log == (if l.value.body.Checkpoint? then [l.value] else s.log + [l.value])
  {
    HistoryIsLedger(c, skipper, acts);
    var s := After(c, skipper, acts);
    hide After, FollowsCopy;
    SigningStep(c, skipper, s, a);
    var ph := s.PhaseOf(a.p);
    if ph.Holding? { assert Holds(ph, ph.op); }
    LogFollows(c, skipper, s, a);
    var l := Signed(c, skipper, s, a);
    if l.Some? { SignedFollows(c, skipper, ChainOf(s, a), l.value); }
    hide Do, SignedOn;
  }

  // ---- the line of the skipper's good links ----

  /** The copy replays, for the pinned id, to the last link of the line; or nothing has been
      founded and the copy is empty. */
  ghost predicate Extends(c: Crypto, skipper: Key, line: seq<Link>, chain: seq<Link>) {
    if line == [] then chain == []
    else line[0].body.Founding?
         && Replayed(c, chain, Some(IdOf(c, skipper))) == Success(HeadAt(c, skipper, line, |line|))
  }

  ghost function NextLine(c: Crypto, skipper: Key, line: seq<Link>, s: State, a: Action): seq<Link> {
    match Signed(c, skipper, s, a)
    case None => line
    case Some(l) => if Extends(c, skipper, line, ChainOf(s, a)) then line + [l] else line
  }

  /** The links that each continued the one signed before. */
  ghost function Lineage(c: Crypto, skipper: Key, acts: seq<Action>): seq<Link> {
    if acts == [] then [] else
      var init := acts[..|acts| - 1];
      NextLine(c, skipper, Lineage(c, skipper, init), After(c, skipper, init), acts[|acts| - 1])
  }

  /** Signing on this copy does no harm: it replays for the pinned id to the last signed head,
      or the link only repeats what was said, or it is an event on a log of another hansa. */
  ghost predicate Harmless(c: Crypto, skipper: Key, line: seq<Link>, chain: seq<Link>, l: Link) {
    || Extends(c, skipper, line, chain)
    || InLine(line, l)
    || (l.body.IsEvent() && Replayed(c, chain, Some(IdOf(c, skipper))).Failure?)
  }

  ghost predicate HarmlessStep(c: Crypto, skipper: Key, line: seq<Link>, s: State, a: Action) {
    match Signed(c, skipper, s, a)
    case None => true
    case Some(l) => Harmless(c, skipper, line, ChainOf(s, a), l)
  }

  ghost predicate AllHarmless(c: Crypto, skipper: Key, acts: seq<Action>) {
    acts == [] ||
    (var init := acts[..|acts| - 1];
     && AllHarmless(c, skipper, init)
     && HarmlessStep(c, skipper, Lineage(c, skipper, init), After(c, skipper, init), acts[|acts| - 1]))
  }

  /** What is assumed of the copies signed on: lengths fit, what verifies in them under the
      skipper's key had been signed by then, and the hash does not confuse their links with
      the skipper's. */
  ghost predicate FairStep(c: Crypto, skipper: Key, all: seq<Link>, s: State, a: Action) {
    Signed(c, skipper, s, a).Some? ==>
      AllSized(ChainOf(s, a)) && OnlySigned(c, skipper, s.history, ChainOf(s, a)) && !Collide(c, ChainOf(s, a), all)
  }

  ghost predicate Fair(c: Crypto, skipper: Key, all: seq<Link>, acts: seq<Action>) {
    acts == [] ||
    (var init := acts[..|acts| - 1];
     Fair(c, skipper, all, init) && FairStep(c, skipper, all, After(c, skipper, init), acts[|acts| - 1]))
  }

  /** Whatever is in the file, now or ever, a list accepted for the pinned id tells the truth. */
  ghost predicate Integrity(c: Crypto, skipper: Key, line: seq<Link>) {
    forall links: seq<Link> :: AllSized(links) && Replayed(c, links, Some(IdOf(c, skipper))).Success? ==>
      Explained(c, skipper, line, links)
  }

  /** What is assumed of a run: the signatures made in it verify and no others do, the skipper's
      id is its own, what it signed has lengths that fit, and the copies it signed on are fair. */
  ghost predicate Assumed(c: Crypto, skipper: Key, acts: seq<Action>) {
    var signed := After(c, skipper, acts).history;
    && RunVerifies(c, skipper, acts) && Unforgeable(c, skipper, signed) && PinsKey(c, skipper) && AllSized(signed)
    && Fair(c, skipper, signed, acts)
  }

  // ---- pinned and unpinned replay ----

  lemma {:induction false} PinnedReplay(c: Crypto, links: seq<Link>, id: HansaId)
    requires Replayed(c, links, Some(id)).Success?
    ensures Replayed(c, links, None) == Replayed(c, links, Some(id))
    decreases |links|
  {
    hide Extend, LinkVerifies, HashOf, Genesis.Canonical;
    if |links| > 1 {
      PinnedReplay(c, links[..|links| - 1], id);
    }
  }

  /** A log of the skipper's own replays for its id if it replays at all. */
  lemma {:induction false} OwnReplays(c: Crypto, skipper: Key, links: seq<Link>)
    requires Replayed(c, links, None).Success? && Replayed(c, links, None).value.skipper == skipper
    ensures Replayed(c, links, Some(IdOf(c, skipper))) == Replayed(c, links, None)
    decreases |links|
  {
    hide LinkVerifies, HashOf, Genesis.Canonical, Apply;
    if |links| > 1 {
      OwnReplays(c, skipper, links[..|links| - 1]);
    }
  }

  lemma {:induction false} HeadIsLast(c: Crypto, links: seq<Link>, expected: Option<HansaId>)
    requires Replayed(c, links, expected).Success?
    ensures links != []
    ensures var head, last := Replayed(c, links, expected).value, links[|links| - 1];
      head.skipper == last.signedBy && head.seqNo == last.seqNo && head.hash == HashOf(c, last)
    decreases |links|
  {
    hide LinkVerifies, HashOf, Genesis.Canonical, Apply;
    if |links| > 1 {
      HeadIsLast(c, links[..|links| - 1], expected);
    }
  }

  lemma {:induction false} PinnedIsOwn(c: Crypto, skipper: Key, links: seq<Link>)
    requires PinsKey(c, skipper) && Replayed(c, links, Some(IdOf(c, skipper))).Success?
    ensures Replayed(c, links, Some(IdOf(c, skipper))).value.skipper == skipper
    decreases |links|
  {
    hide LinkVerifies, HashOf, Genesis.Canonical, Apply, PinsKey;
    if |links| > 1 {
      PinnedIsOwn(c, skipper, links[..|links| - 1]);
    } else {
      AcceptedRoot(c, skipper, links[0]);
    }
  }

  /** The signer is part of what is hashed. */
  lemma SignerInCanonical(k: Link, l: Link)
    requires k.Canonical() == l.Canonical()
    ensures k.signedBy == l.signedBy
  {
    var a := WriteBody(k.body, Writer.New().U64(k.seqNo).Fixed(k.prev)).buf;
    var b := WriteBody(l.body, Writer.New().U64(l.seqNo).Fixed(l.prev)).buf;
    assert k.Canonical() == a + k.signedBy && l.Canonical() == b + l.signedBy;
    hide WriteBody;
    assert |a| == |b|;
    assert (a + k.signedBy)[|a|..] == k.signedBy;
    assert (b + l.signedBy)[|b|..] == l.signedBy;
  }

  // ---- the line is well-formed ----

  lemma SignedShape(c: Crypto, skipper: Key, chain: seq<Link>, l: Link)
    requires SignedOn(c, skipper, chain, l)
    ensures OwnShape(skipper, l)
  {
    hide Replayed, Link.Canonical, Genesis.Canonical;
  }

  lemma ExtendsWritten(c: Crypto, skipper: Key, line: seq<Link>, chain: seq<Link>, l: Link)
    requires line == [] || Written(c, skipper, line)
    requires Extends(c, skipper, line, chain) && SignedOn(c, skipper, chain, l) && AllVerify(c, [l])
    ensures Written(c, skipper, line + [l]) && InLine(line + [l], l)
  {
    hide AllVerify, Recorded, Root, Replayed, HashOf, FirstLink, Sorted;
    if line == [] {
      FoundKeepsLog(c, skipper, l.body.genesis.embeddingDim, l.body.genesis.createdAt);
      assert line + [l] == [l] && [l][0..] == [l];
      SeqIsIndex(c, skipper, [l], 0);
    } else {
      EmptyReplay(c, Some(IdOf(c, skipper)));
      PinnedReplay(c, chain, IdOf(c, skipper));
      var head := HeadAt(c, skipper, line, |line|);
      NextVerifies(c, skipper, head, l.body);
      assert line[..|line|] == line;
      WrittenSnoc(c, skipper, line, l.body);
      assert (line + [l])[|line|] == l && l.seqNo == |line| by { hide Written; }
    }
  }

  /** What the line is made of: a well-formed history of links the skipper signed. */
  lemma {:induction false} LineWritten(c: Crypto, skipper: Key, acts: seq<Action>)
    requires RunVerifies(c, skipper, acts)
    ensures var line := Lineage(c, skipper, acts); line == [] || Written(c, skipper, line)
    ensures forall i :: 0 <= i < |Lineage(c, skipper, acts)| ==>
      Lineage(c, skipper, acts)[i] in After(c, skipper, acts).history
    ensures forall i :: 0 <= i < |After(c, skipper, acts).history| ==>
      OwnShape(skipper, After(c, skipper, acts).history[i])
  {
    if acts == [] {
    } else {
      var init, a := acts[..|acts| - 1], acts[|acts| - 1];
      var s := After(c, skipper, init);
      hide Do, Extends, SignedOn, Written, AllVerify, OwnShape;
      StepVerifies(c, skipper, s, a);
      LineWritten(c, skipper, init);
      HistoryIsLedger(c, skipper, init);
      SigningStep(c, skipper, s, a);
      var l := Signed(c, skipper, s, a);
      if l.Some? {
        SignedShape(c, skipper, ChainOf(s, a), l.value);
        LastVerifies(c, s.history, l.value);
        if Extends(c, skipper, Lineage(c, skipper, init), ChainOf(s, a)) {
          ExtendsWritten(c, skipper, Lineage(c, skipper, init), ChainOf(s, a), l.value);
        }
      }
    }
  }

  lemma {:induction false} LineGrows(c: Crypto, skipper: Key, acts: seq<Action>)
    requires acts != []
    ensures Lineage(c, skipper, acts[..|acts| - 1]) <= Lineage(c, skipper, acts)
  {
    hide Do, Extends;
  }

  // ---- harmless signing keeps integrity ----

  lemma StaysInLine(line: seq<Link>, l: Link, x: Link)
    requires InLine(line, x)
    ensures InLine(line + [l], x)
  {
    assert (line + [l])[x.seqNo] == line[x.seqNo];
  }

  /** An event on a foreign log continues nothing the skipper ever signs. */
  lemma ForeignIsStray(c: Crypto, skipper: Key, all: seq<Link>, chain: seq<Link>, l: Link)
    requires SignedOn(c, skipper, chain, l) && l.body.IsEvent()
    requires Replayed(c, chain, Some(IdOf(c, skipper))).Failure? && !Collide(c, chain, all)
    requires forall i :: 0 <= i < |all| ==> OwnShape(skipper, all[i])
    ensures Stray(c, all, l)
  {
    hide Replayed, HashOf, Link.Canonical;
    HeadIsLast(c, chain, None);
    var f := chain[|chain| - 1];
    assert f.signedBy != skipper by {
      if f.signedBy == skipper { OwnReplays(c, skipper, chain); }
    }
    forall k | 0 <= k < |all| ensures HashOf(c, all[k]) != l.prev {
      if HashOf(c, all[k]) == l.prev {
        NotConfused(c, chain, all, |chain| - 1, k);
        SignerInCanonical(f, all[k]);
      }
    }
  }

  lemma NotConfused(c: Crypto, ks: seq<Link>, ls: seq<Link>, i: nat, j: nat)
    requires !Collide(c, ks, ls) && i < |ks| && j < |ls| && HashOf(c, ks[i]) == HashOf(c, ls[j])
    ensures ks[i].Canonical() == ls[j].Canonical()
  {
    hide HashOf, Link.Canonical;
    assert !Collision(c, ks[i], ls[j]);
  }

  lemma AccountStep(c: Crypto, skipper: Key, line: seq<Link>, signed: seq<Link>, all: seq<Link>, chain: seq<Link>,
                    l: Link)
    requires line == [] || Written(c, skipper, line)
    requires Accounted(c, skipper, line, signed, all) && Harmless(c, skipper, line, chain, l)
    requires SignedOn(c, skipper, chain, l) && AllVerify(c, [l]) && !Collide(c, chain, all)
    requires forall i :: 0 <= i < |all| ==> OwnShape(skipper, all[i])
    ensures Accounted(c, skipper, if Extends(c, skipper, line, chain) then line + [l] else line, signed + [l], all)
  {
    SignedShape(c, skipper, chain, l);
    if Extends(c, skipper, line, chain) {
      ExtendsWritten(c, skipper, line, chain, l);
    } else if !InLine(line, l) {
      ForeignIsStray(c, skipper, all, chain, l);
    }
    hide Extends, SignedOn, Written, AllVerify, OwnShape, Stray, Collide, InLine;
    var line' := if Extends(c, skipper, line, chain) then line + [l] else line;
    forall i | 0 <= i < |signed + [l]|
      ensures OwnShape(skipper, (signed + [l])[i])
           && (InLine(line', (signed + [l])[i]) || Stray(c, all, (signed + [l])[i]))
    {
      if i < |signed| {
        assert (signed + [l])[i] == signed[i];
        if InLine(line, signed[i]) { StaysInLine(line, l, signed[i]); }
      } else {
        assert (signed + [l])[i] == l;
      }
    }
  }

  lemma {:induction false} LineAccounts(c: Crypto, skipper: Key, all: seq<Link>, acts: seq<Action>)
    requires RunVerifies(c, skipper, acts) && Fair(c, skipper, all, acts) && AllHarmless(c, skipper, acts)
    requires forall i :: 0 <= i < |all| ==> OwnShape(skipper, all[i])
    ensures Accounted(c, skipper, Lineage(c, skipper, acts), After(c, skipper, acts).history, all)
  {
    if acts == [] {
    } else {
      var init, a := acts[..|acts| - 1], acts[|acts| - 1];
      var s := After(c, skipper, init);
      hide Do, Extends, SignedOn, Written, AllVerify, OwnShape, Accounted, Harmless, Collide;
      StepVerifies(c, skipper, s, a);
      LineAccounts(c, skipper, all, init);
      LineWritten(c, skipper, init);
      HistoryIsLedger(c, skipper, init);
      SigningStep(c, skipper, s, a);
      var l := Signed(c, skipper, s, a);
      if l.Some? {
        LastVerifies(c, s.history, l.value);
        AccountStep(c, skipper, Lineage(c, skipper, init), s.history, all, ChainOf(s, a), l.value);
      }
    }
  }

  /** Harmless signing keeps integrity, whatever has been done to the file. */
  lemma HarmlessKeepsIntegrity(c: Crypto, skipper: Key, acts: seq<Action>)
    requires Assumed(c, skipper, acts) && AllHarmless(c, skipper, acts)
    ensures Integrity(c, skipper, Lineage(c, skipper, acts))
  {
    var line, signed := Lineage(c, skipper, acts), After(c, skipper, acts).history;
    LineWritten(c, skipper, acts);
    LineAccounts(c, skipper, signed, acts);
    hide Lineage, After, Written, Explained, Accounted, Fair, AllHarmless, PinsKey, Replayed, Sized, IdOf, OwnShape;
    forall links: seq<Link> | AllSized(links) && Replayed(c, links, Some(IdOf(c, skipper))).Success?
      ensures Explained(c, skipper, line, links)
    {
      EmptyReplay(c, Some(IdOf(c, skipper)));
      assert OnlySigned(c, skipper, signed, links);
      AcceptedExplained(c, skipper, line, signed, signed, links);
    }
  }

  // ---- and nothing else does ----

  /** A harmful link stays out of line for good. */
  lemma HarmLasts(c: Crypto, skipper: Key, line: seq<Link>, signed: seq<Link>, all: seq<Link>, fin: seq<Link>,
                  chain: seq<Link>, l: Link)
    requires line == [] || Written(c, skipper, line)
    requires Accounted(c, skipper, line, signed, all) && signed <= all && AllSized(signed) && PinsKey(c, skipper)
    requires SignedOn(c, skipper, chain, l) && !Harmless(c, skipper, line, chain, l)
    requires AllSized(chain) && OnlySigned(c, skipper, signed, chain) && !Collide(c, chain, all)
    requires line <= fin && Written(c, skipper, fin) && forall i :: 0 <= i < |fin| ==> fin[i] in all
    ensures !InLine(fin, l)
  {
    hide Accounted, PinsKey, OnlySigned, Collide, Replayed, HashOf, Link.Canonical, Sized, Written;
    var n := l.seqNo;
    assert n < |line| ==> fin[n] == line[n];
    if InLine(fin, l) {
      UnsignedFields(l, fin[n]);
      if n >= |line| && chain != [] {
        var head := Replayed(c, chain, None).value;
        HeadIsLast(c, chain, None);
        PrevInLine(c, skipper, fin, n);
        var j :| 0 <= j < |all| && all[j] == fin[n - 1];
        NotConfused(c, chain, all, |chain| - 1, j);
        SignerInCanonical(chain[|chain| - 1], fin[n - 1]);
        OwnReplays(c, skipper, chain);
        AcceptedExplained(c, skipper, line, signed, all, chain);
        HeadOfExplained(c, skipper, line, chain);
      }
    }
  }

  lemma PrevInLine(c: Crypto, skipper: Key, fin: seq<Link>, n: nat)
    requires Written(c, skipper, fin) && 0 < n < |fin|
    ensures fin[n].prev == HashOf(c, fin[n - 1]) && fin[n - 1].signedBy == skipper
  {
    SeqIsIndex(c, skipper, fin, n - 1);
    assert Recorded(c, skipper, fin, n);
  }

  lemma HeadOfExplained(c: Crypto, skipper: Key, line: seq<Link>, links: seq<Link>)
    requires Explained(c, skipper, line, links)
    ensures var r := Replayed(c, links, Some(IdOf(c, skipper)));
      r.Success? && r.value.seqNo + 1 <= |line| && line[0].body.Founding?
      && r.value == HeadAt(c, skipper, line, r.value.seqNo + 1)
  {
    hide Replayed, HashOf, Fold;
  }

  /** A list that replays for the pinned id and ends in the harmful link. */
  function Witness(chain: seq<Link>, l: Link): seq<Link> { if l.body.IsEvent() then chain + [l] else [l] }

  lemma WitnessAccepted(c: Crypto, skipper: Key, line: seq<Link>, chain: seq<Link>, l: Link)
    requires PinsKey(c, skipper) && SignedOn(c, skipper, chain, l) && AllVerify(c, [l])
    requires !Harmless(c, skipper, line, chain, l)
    ensures Replayed(c, Witness(chain, l), Some(IdOf(c, skipper))).Success?
  {
    hide Link.Canonical, Genesis.Canonical, HashOf, Extends, InLine, PinsKey, Framed, Sorted;
    var id := Some(IdOf(c, skipper));
    assert c.verifies([l][0].signedBy, MessageOf([l][0]), [l][0].sig);
    if l.body.IsEvent() {
      PinnedReplay(c, chain, IdOf(c, skipper));
      PinnedIsOwn(c, skipper, chain);
      ReplayedSnoc(c, chain, l, id, Replayed(c, chain, id).value);
      hide Replayed;
    } else {
      SingleReplayed(c, [l], id);
      if chain != [] { EmptyReplay(c, None); }
      hide Replayed;
    }
  }

  lemma HarmAt(c: Crypto, skipper: Key, line: seq<Link>, signed: seq<Link>, all: seq<Link>, fin: seq<Link>,
               chain: seq<Link>, l: Link) returns (w: seq<Link>)
    requires line == [] || Written(c, skipper, line)
    requires Accounted(c, skipper, line, signed, all) && signed + [l] <= all && AllSized(all) && PinsKey(c, skipper)
    requires SignedOn(c, skipper, chain, l) && AllVerify(c, [l]) && !Harmless(c, skipper, line, chain, l)
    requires AllSized(chain) && OnlySigned(c, skipper, signed, chain) && !Collide(c, chain, all)
    requires line <= fin && (fin == [] || Written(c, skipper, fin)) && forall i :: 0 <= i < |fin| ==> fin[i] in all
    ensures w != [] && AllSized(w) && Replayed(c, w, Some(IdOf(c, skipper))).Success?
    ensures !InLine(fin, w[|w| - 1])
  {
    w := Witness(chain, l);
    WitnessAccepted(c, skipper, line, chain, l);
    hide SignedOn, Written, AllVerify, Accounted, Harmless, Collide, OnlySigned, PinsKey, InLine, Replayed, Sized;
    assert all[|signed|] == (signed + [l])[|signed|] == l;
    assert forall i :: 0 <= i < |signed| ==> signed[i] == (signed + [l])[i] == all[i];
    if fin == [] {
      OutOfNoLine(l);
    } else {
      HarmLasts(c, skipper, line, signed, all, fin, chain, l);
    }
  }

  /** The first harmful step of a run shows in the end. */
  lemma HarmHere(c: Crypto, skipper: Key, all: seq<Link>, fin: seq<Link>, init: seq<Action>, s: State, a: Action)
    returns (w: seq<Link>)
    requires s == After(c, skipper, init) && AllVerify(c, Do(c, skipper, s, a).history)
    requires Fair(c, skipper, all, init) && FairStep(c, skipper, all, s, a)
    requires AllHarmless(c, skipper, init) && !HarmlessStep(c, skipper, Lineage(c, skipper, init), s, a)
    requires Do(c, skipper, s, a).history <= all && AllSized(all) && PinsKey(c, skipper)
    requires forall i :: 0 <= i < |all| ==> OwnShape(skipper, all[i])
    requires Lineage(c, skipper, init) <= fin && (fin == [] || Written(c, skipper, fin))
    requires forall i :: 0 <= i < |fin| ==> fin[i] in all
    ensures w != [] && AllSized(w) && Replayed(c, w, Some(IdOf(c, skipper))).Success?
    ensures !InLine(fin, w[|w| - 1])
  {
    hide Do, Extends, SignedOn, Written, AllVerify, OwnShape, Accounted, Harmless, Collide, OnlySigned, PinsKey,
         InLine, Replayed, Sized, Lineage, After, Fair, AllHarmless, IdOf;
    StepVerifies(c, skipper, s, a);
    HistoryIsLedger(c, skipper, init);
    SigningStep(c, skipper, s, a);
    hide Signed;
    var l := Signed(c, skipper, s, a).value;
    LineWritten(c, skipper, init);
    LineAccounts(c, skipper, all, init);
    LastVerifies(c, s.history, l);
    w := HarmAt(c, skipper, Lineage(c, skipper, init), s.history, all, fin, ChainOf(s, a), l);
  }

  lemma {:induction false} HarmShows(c: Crypto, skipper: Key, all: seq<Link>, fin: seq<Link>, acts: seq<Action>)
      returns (w: seq<Link>)
    requires RunVerifies(c, skipper, acts) && Fair(c, skipper, all, acts) && !AllHarmless(c, skipper, acts)
    requires After(c, skipper, acts).history <= all && AllSized(all) && PinsKey(c, skipper)
    requires forall i :: 0 <= i < |all| ==> OwnShape(skipper, all[i])
    requires Lineage(c, skipper, acts) <= fin && (fin == [] || Written(c, skipper, fin))
    requires forall i :: 0 <= i < |fin| ==> fin[i] in all
    ensures w != [] && AllSized(w) && Replayed(c, w, Some(IdOf(c, skipper))).Success?
    ensures !InLine(fin, w[|w| - 1])
  {
    var init, a := acts[..|acts| - 1], acts[|acts| - 1];
    var s := After(c, skipper, init);
    LastIsDo(c, skipper, acts);
    LineGrows(c, skipper, acts);
    hide Do, Written, AllVerify, OwnShape, PinsKey, InLine, Replayed, Sized, Lineage, After, FairStep, HarmlessStep,
         IdOf;
    StepVerifies(c, skipper, s, a);
    HistoryStep(c, skipper, s, a);
    if AllHarmless(c, skipper, init) {
      w := HarmHere(c, skipper, all, fin, init, s, a);
    } else {
      PrefixesChain(s.history, After(c, skipper, acts).history, all);
      w := HarmShows(c, skipper, all, fin, init);
    }
  }

  lemma PrefixesChain<T>(a: seq<T>, b: seq<T>, c: seq<T>)
    requires |a| <= |b| && b[..|a|] == a && b <= c
    ensures a <= c
  {
  }

  lemma OutOfNoLine(l: Link)
    ensures !InLine([], l)
  {
  }

  lemma ExplainedInLine(c: Crypto, skipper: Key, line: seq<Link>, links: seq<Link>)
    requires Written(c, skipper, line) && Explained(c, skipper, line, links)
    ensures InLine(line, links[|links| - 1])
  {
    hide Replayed, HashOf, Recorded, Link.Canonical;
    var n := |links| - 1;
    var k := links[0].seqNo + n;
    assert links[n].Unsigned() == line[k].Unsigned();
    UnsignedFields(links[n], line[k]);
    SeqIsIndex(c, skipper, line, k);
  }

  /** Integrity under attack, both ways. Any content may be put in the place of the log at any
      time. Every list that replay accepts for the pinned id, wherever it comes from, is then
      explained by the line of the skipper's good links exactly when the skipper, at each
      signing, had a copy that replayed for the pinned id to its last signed head, or only
      repeated itself, or signed an event on a log of another hansa. */
  lemma IntegrityIff(c: Crypto, skipper: Key, acts: seq<Action>)
    requires Assumed(c, skipper, acts)
    ensures Integrity(c, skipper, Lineage(c, skipper, acts)) <==> AllHarmless(c, skipper, acts)
  {
    if AllHarmless(c, skipper, acts) {
      HarmlessKeepsIntegrity(c, skipper, acts);
    } else {
      LineWritten(c, skipper, acts);
      hide Lineage, After, Written, AllHarmless, Fair, Sized, Replayed, PinsKey, OwnShape, InLine, Explained,
           Unforgeable;
      var line, signed := Lineage(c, skipper, acts), After(c, skipper, acts).history;
      var w := HarmShows(c, skipper, signed, line, acts);
      if Explained(c, skipper, line, w) {
        ExplainedHasLine(c, skipper, line, w);
        ExplainedInLine(c, skipper, line, w);
      }
    }
  }

  lemma ExplainedHasLine(c: Crypto, skipper: Key, line: seq<Link>, links: seq<Link>)
    requires Explained(c, skipper, line, links)
    ensures line != [] && links != []
  {
  }

  // ---- untampered runs ----

  lemma CopyIsLog(c: Crypto, skipper: Key, s: State, a: Action)
    requires Inv(c, skipper, s) && Signed(c, skipper, s, a).Some?
    ensures ChainOf(s, a) == s.log
  {
    hide LogOf, DimsAgree, OnRecord, SizeOk, CachesOk, Replayed, NextLink, FirstLink;
    assert PhaseOk(c, s, s.PhaseOf(a.p));
  }

  lemma LogExtends(c: Crypto, skipper: Key, log: seq<Link>, h: seq<Link>)
    requires LogOf(c, skipper, log, h)
    ensures Extends(c, skipper, h, log)
  {
    hide HashOf, Recorded, Root, Replayed;
    if log != [] {
      LogFounded(c, skipper, log, h);
      LogReplays(c, skipper, log, h, Some(IdOf(c, skipper)));
    }
  }

  /** As long as nobody else touches the file, all that is signed is one harmless line. */
  lemma {:induction false} UntamperedHarmless(c: Crypto, skipper: Key, acts: seq<Action>)
    requires Untampered(acts) && RunVerifies(c, skipper, acts)
    ensures Lineage(c, skipper, acts) == After(c, skipper, acts).history
    ensures AllHarmless(c, skipper, acts)
  {
    if acts == [] {
    } else {
      var init, a := acts[..|acts| - 1], acts[|acts| - 1];
      var s := After(c, skipper, init);
      hide Do, Extends, Inv, LogOf, InLine, AllVerify, SignedOn;
      StepVerifies(c, skipper, s, a);
      UntamperedHarmless(c, skipper, init);
      Reachable(c, skipper, init);
      HistoryIsLedger(c, skipper, init);
      SigningStep(c, skipper, s, a);
      if Signed(c, skipper, s, a).Some? {
        CopyIsLog(c, skipper, s, a);
        LogExtends(c, skipper, s.log, s.history) by { InvLog(c, skipper, s); }
      }
    }
  }

  lemma InvLog(c: Crypto, skipper: Key, s: State)
    requires Inv(c, skipper, s)
    ensures LogOf(c, skipper, s.log, s.history)
  {
  }

  /** Integrity in untampered runs: whatever list is offered to a reader, at any time, is
      explained by what the skipper has signed. */
  lemma RunIntegrity(c: Crypto, skipper: Key, acts: seq<Action>)
    requires Untampered(acts) && RunVerifies(c, skipper, acts)
    requires Unforgeable(c, skipper, After(c, skipper, acts).history)
    requires PinsKey(c, skipper) && AllSized(After(c, skipper, acts).history)
    ensures Integrity(c, skipper, After(c, skipper, acts).history)
  {
    UntamperedHarmless(c, skipper, acts);
    LineWritten(c, skipper, acts);
    hide Lineage, After, Written, Explained, PinsKey, Replayed, Sized, IdOf;
    var line := After(c, skipper, acts).history;
    AccountedOwn(c, skipper, line);
    forall links: seq<Link> | AllSized(links) && Replayed(c, links, Some(IdOf(c, skipper))).Success?
      ensures Explained(c, skipper, line, links)
    {
      EmptyReplay(c, Some(IdOf(c, skipper)));
      assert OnlySigned(c, skipper, line, links);
      AcceptedExplained(c, skipper, line, line, line, links);
    }
  }

  lemma AccountedOwn(c: Crypto, skipper: Key, line: seq<Link>)
    requires line == [] || Written(c, skipper, line)
    ensures Accounted(c, skipper, line, line, line)
  {
    if line != [] { OwnHistory(c, skipper, line, line); }
  }

  // ---- the head cache under attack ----

  /** What opens read has lengths that fit. */
  ghost predicate SizedOpens(c: Crypto, skipper: Key, acts: seq<Action>) {
    acts == [] ||
    (var init, a := acts[..|acts| - 1], acts[|acts| - 1];
     && SizedOpens(c, skipper, init)
     && (a.OpenRead? ==> AllSized(After(c, skipper, init).log)))
  }

  predicate OnLine(c: Crypto, line: seq<Link>, head: Option<(nat, Digest)>) {
    head.Some? ==> OnRecord(c, line, head.value.0, head.value.1)
  }

  function HeadRead(ph: Phase): Option<(nat, Digest)> { if ph.Opening? then Some((ph.seqNo, ph.hash)) else None }

  /** All heads that opens have read and left in cache directories are on the line. */
  ghost predicate HeadsOnLine(c: Crypto, line: seq<Link>, s: State) {
    && (forall p: Pid :: OnLine(c, line, HeadRead(s.PhaseOf(p))))
    && (forall d: Dir :: OnLine(c, line, s.Cached(d)))
    && (forall d: Dir :: OnLine(c, line, s.Temp(d)))
  }

  lemma ReadOnLine(c: Crypto, skipper: Key, line: seq<Link>, s: State, p: Pid, dir: Dir)
    requires Integrity(c, skipper, line) && AllSized(s.log)
    ensures var s' := Do(c, skipper, s, OpenRead(p, dir)); s' == s || OnLine(c, line, HeadRead(s'.PhaseOf(p)))
  {
    hide Replayed, Explained, Sized, HashOf, Fold, IdOf;
    if Replayed(c, s.log, Some(IdOf(c, skipper))).Success? {
      HeadOfExplained(c, skipper, line, s.log);
    }
  }

  lemma HeadReadStep(c: Crypto, skipper: Key, line: seq<Link>, s: State, a: Action, q: Pid)
    requires Integrity(c, skipper, line) && (a.OpenRead? ==> AllSized(s.log))
    requires OnLine(c, line, HeadRead(s.PhaseOf(q)))
    ensures OnLine(c, line, HeadRead(Do(c, skipper, s, a).PhaseOf(q)))
  {
    hide Do, Integrity, OnRecord, Regressed;
    if a.OpenRead? { ReadOnLine(c, skipper, line, s, a.p, a.dir); }
    if Do(c, skipper, s, a).PhaseOf(q).Opening? && Do(c, skipper, s, a).PhaseOf(q) != s.PhaseOf(q) {
      OpeningStep(c, skipper, s, a, q);
    }
  }

  lemma HeadStoredStep(c: Crypto, skipper: Key, line: seq<Link>, s: State, a: Action, d: Dir)
    requires OnLine(c, line, HeadRead(s.PhaseOf(a.p))) && OnLine(c, line, s.Cached(d)) && OnLine(c, line, s.Temp(d))
    ensures OnLine(c, line, Do(c, skipper, s, a).Cached(d)) && OnLine(c, line, Do(c, skipper, s, a).Temp(d))
  {
    CacheStep(c, skipper, s, a, d);
    hide Do, OnRecord;
  }

  lemma {:induction false} OpensOnLine(c: Crypto, skipper: Key, line: seq<Link>, acts: seq<Action>)
    requires Integrity(c, skipper, line) && SizedOpens(c, skipper, acts)
    ensures HeadsOnLine(c, line, After(c, skipper, acts))
  {
    if acts == [] {
    } else {
      hide Do, Integrity, OnLine;
      var init, a := acts[..|acts| - 1], acts[|acts| - 1];
      var s, s' := After(c, skipper, init), After(c, skipper, acts);
      OpensOnLine(c, skipper, line, init);
      forall p: Pid ensures OnLine(c, line, HeadRead(s'.PhaseOf(p))) {
        HeadReadStep(c, skipper, line, s, a, p);
      }
      forall d: Dir ensures OnLine(c, line, s'.Cached(d)) && OnLine(c, line, s'.Temp(d)) {
        HeadStoredStep(c, skipper, line, s, a, d);
      }
    }
  }

  /** What the cache directories remember after such a run is on the line of good links. */
  lemma CachesOnLine(c: Crypto, skipper: Key, acts: seq<Action>)
    requires Assumed(c, skipper, acts) && AllHarmless(c, skipper, acts) && SizedOpens(c, skipper, acts)
    ensures HeadsOnLine(c, Lineage(c, skipper, acts), After(c, skipper, acts))
  {
    HarmlessKeepsIntegrity(c, skipper, acts);
    hide Lineage, After, Integrity, Assumed, AllHarmless, SizedOpens;
    OpensOnLine(c, skipper, Lineage(c, skipper, acts), acts);
  }

  lemma RegressedIffLower(c: Crypto, line: seq<Link>, cached: Option<(nat, Digest)>, seqNo: nat, hash: Digest)
    requires OnLine(c, line, cached) && OnRecord(c, line, seqNo, hash)
    ensures Regressed(cached, seqNo, hash) <==> cached.Some? && seqNo < cached.value.0
  {
    hide HashOf;
  }

  /** Tampered with or not, if all signing was harmless an open is refused by its cache exactly
      when the head it read is lower than the remembered one. */
  lemma RefusedIffLower(c: Crypto, skipper: Key, acts: seq<Action>, p: Pid)
    requires Assumed(c, skipper, acts) && AllHarmless(c, skipper, acts) && SizedOpens(c, skipper, acts)
    requires After(c, skipper, acts).PhaseOf(p).At(Unchecked)
    ensures var s, s' := After(c, skipper, acts), After(c, skipper, acts + [OpenCheck(p)]);
      var ph, cached := s.PhaseOf(p), s.Cached(s.PhaseOf(p).dir);
      s'.alarms == s.alarms + if cached.Some? && ph.seqNo < cached.value.0 then 1 else 0
  {
    var s := After(c, skipper, acts);
    var ph := s.PhaseOf(p);
    CachesOnLine(c, skipper, acts);
    AfterSnoc(c, skipper, acts, OpenCheck(p));
    CountersStep(c, skipper, s, OpenCheck(p));
    assert OnLine(c, Lineage(c, skipper, acts), HeadRead(ph));
    RegressedIffLower(c, Lineage(c, skipper, acts), s.Cached(ph.dir), ph.seqNo, ph.hash);
    hide After, Do, Lineage, Assumed, AllHarmless, SizedOpens;
  }

  lemma HeadReaches(c: Crypto, skipper: Key, h: seq<Link>, n: nat, seqNo: nat)
    requires 0 < n <= |h| && h[0].body.Founding? && seqNo < n
    ensures h[..seqNo + 1] <= h[..n]
  {
  }

  /** `head` is refused by a cache that remembers `cached` exactly when it is lower; otherwise it
      carries every event up to that head. */
  ghost predicate CacheTells(line: seq<Link>, head: Head, cached: (nat, Digest)) {
    && head.seqNo < |line| && head.active == Fold(map[], line[..head.seqNo + 1])
    && (Regressed(Some(cached), head.seqNo, head.hash) <==> head.seqNo < cached.0)
    && (!Regressed(Some(cached), head.seqNo, head.hash) ==> line[..cached.0 + 1] <= line[..head.seqNo + 1])
  }

  lemma AcceptedTells(c: Crypto, skipper: Key, line: seq<Link>, links: seq<Link>, cached: (nat, Digest))
    requires Integrity(c, skipper, line) && OnRecord(c, line, cached.0, cached.1)
    requires AllSized(links) && Replayed(c, links, Some(IdOf(c, skipper))).Success?
    ensures CacheTells(line, Replayed(c, links, Some(IdOf(c, skipper))).value, cached)
  {
    hide Replayed, Fold, Sized, IdOf, Explained, HashOf;
    HeadOfExplained(c, skipper, line, links);
    hide Integrity;
    var head := Replayed(c, links, Some(IdOf(c, skipper))).value;
    RegressedIffLower(c, line, Some(cached), head.seqNo, head.hash);
    if head.seqNo >= cached.0 {
      HeadReaches(c, skipper, line, head.seqNo + 1, cached.0);
    }
  }

  /** A rollback the skipper has not signed on does not get past a returning member. After any
      run, tampered with or not, in which all signing was harmless: of all lists replay accepts
      for the pinned id, a cache directory refuses exactly those that end before the head that
      opens of this run have left in it, and one it lets through carries every event up to that
      head. */
  lemma RollbackRefused(c: Crypto, skipper: Key, acts: seq<Action>, links: seq<Link>, d: Dir)
    requires Assumed(c, skipper, acts) && AllHarmless(c, skipper, acts) && SizedOpens(c, skipper, acts)
    requires AllSized(links) && Replayed(c, links, Some(IdOf(c, skipper))).Success?
    requires d in After(c, skipper, acts).caches
    ensures var cached := After(c, skipper, acts).caches[d];
      && OnRecord(c, Lineage(c, skipper, acts), cached.0, cached.1)
      && CacheTells(Lineage(c, skipper, acts), Replayed(c, links, Some(IdOf(c, skipper))).value, cached)
  {
    CachesOnLine(c, skipper, acts);
    HarmlessKeepsIntegrity(c, skipper, acts);
    hide Replayed, Assumed, AllHarmless, Integrity, Sized, IdOf, Lineage, After, SizedOpens, CacheTells, OnRecord;
    var s := After(c, skipper, acts);
    assert OnLine(c, Lineage(c, skipper, acts), s.Cached(d));
    AcceptedTells(c, skipper, Lineage(c, skipper, acts), links, s.caches[d]);
  }
}
