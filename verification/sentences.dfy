/** Sentence splitting and sentence-level deduplication (context.rs). The splitter cuts only
    next to ASCII characters, so its byte offsets are modelled as character offsets. */
module Sentences {
  import opened Seqs
  import opened Records

  // ---- splitting ----

  predicate Ends(c: char) { c == '.' || c == '!' || c == '?' }

  predicate Breaks(c: char) { c == ' ' || c == '\n' }

  /** The splitter cuts after position `i`. */
  predicate CutAfter(s: string, i: nat) {
    i + 1 < |s| && Ends(s[i]) && Breaks(s[i + 1])
  }

  function Concat(pieces: seq<string>): string {
    if pieces == [] then "" else Concat(pieces[..|pieces| - 1]) + pieces[|pieces| - 1]
  }

  /** A piece has no cut inside. */
  predicate Uncut(p: string) { p != "" && forall i :: 0 <= i < |p| ==> !CutAfter(p, i) }

  /** The boundary between two pieces is a cut. */
  predicate Meets(p: string, q: string) { p != "" && q != "" && Ends(p[|p| - 1]) && Breaks(q[0]) }

  /** The pieces are nonempty and concatenate to the text; no cut falls inside a piece, and
      every boundary between pieces is a cut. */
  predicate IsSplit(s: string, pieces: seq<string>) {
    && Concat(pieces) == s
    && (forall j :: 0 <= j < |pieces| ==> Uncut(pieces[j]))
    && (forall j, k :: 0 <= j < |pieces| && k == j + 1 && k < |pieces| ==> Meets(pieces[j], pieces[k]))
  }

  lemma {:induction false} ConcatSnoc(pieces: seq<string>, p: string)
    ensures Concat(pieces + [p]) == Concat(pieces) + p
  {
    PrefixOfSnoc(pieces, p);
  }

  lemma ConcatOne(p: string)
    ensures Concat([p]) == p
  {
    ConcatSnoc([], p);
    assert [] + [p] == [p];
  }

  lemma ConcatTwo(p: string, q: string)
    ensures Concat([p, q]) == p + q
  {
    ConcatOne(p);
    hide Concat;
    ConcatSnoc([p], q);
    assert [p] + [q] == [p, q];
  }

  lemma {:induction false} ConcatCons(pieces: seq<string>)
    requires pieces != []
    ensures Concat(pieces) == pieces[0] + Concat(pieces[1..])
  {
    var n := |pieces| - 1;
    if n > 0 {
      ConcatCons(pieces[..n]);
      assert pieces[..n][1..] == pieces[1..][..n - 1];
    }
  }

  /** A first piece cannot reach past the end of another first piece. */
  lemma FirstPiece(s: string, a: seq<string>, b: seq<string>)
    requires IsSplit(s, a) && IsSplit(s, b) && a != [] && b != []
    ensures |b[0]| <= |a[0]|
  {
    ConcatCons(a);
    ConcatCons(b);
    var n := |a[0]|;
    if n < |b[0]| {
      assert |a| > 1 by { assert Concat([]) == ""; }
      ConcatCons(a[1..]);
      assert s[n - 1] == a[0][n - 1] == b[0][n - 1];
      assert s[n] == a[1][0] == b[0][n];
      assert CutAfter(b[0], n - 1);
    }
  }

  /** A text has only one split. */
  lemma {:induction false} SplitUnique(s: string, a: seq<string>, b: seq<string>)
    requires IsSplit(s, a) && IsSplit(s, b)
    ensures a == b
    decreases |a|
  {
    if a == [] || b == [] {
      if a != [] { ConcatCons(a); }
      if b != [] { ConcatCons(b); }
    } else {
      FirstPiece(s, a, b);
      FirstPiece(s, b, a);
      ConcatCons(a);
      ConcatCons(b);
      assert a[0] == s[..|a[0]|] == b[0];
      SplitTail(s, a);
      SplitTail(s, b);
      SplitUnique(s[|a[0]|..], a[1..], b[1..]);
      assert a == [a[0]] + a[1..] && b == [b[0]] + b[1..];
    }
  }

  lemma SplitTail(s: string, a: seq<string>)
    requires IsSplit(s, a) && a != []
    ensures |a[0]| <= |s| && IsSplit(s[|a[0]|..], a[1..])
  {
    ConcatCons(a);
  }

  /** The scan: `start` is where the current piece began and `i` how far it was read. */
  ghost predicate Scanned(s: string, out: seq<string>, start: nat, i: nat) {
    && start <= i <= |s| + 1 && start <= |s|
    && IsSplit(s[..start], out)
    && (start > 0 ==> start < |s| && Ends(s[start - 1]) && Breaks(s[start]))
    && (forall k :: start <= k < i ==> !CutAfter(s, k))
  }

  lemma SplitSnoc(s: string, out: seq<string>, start: nat, end: nat)
    requires start < end <= |s| && IsSplit(s[..start], out)
    requires start > 0 ==> Ends(s[start - 1]) && Breaks(s[start])
    requires forall k :: start <= k < end - 1 ==> !CutAfter(s, k)
    ensures IsSplit(s[..end], out + [s[start..end]])
  {
    var p := s[start..end];
    ConcatSnoc(out, p);
    assert s[..end] == s[..start] + p;
    if out != [] {
      var n := |out| - 1;
      assert s[..start][start - 1] == out[n][|out[n]| - 1] by { assert Concat(out) == Concat(out[..n]) + out[n]; }
    }
    forall i | 0 <= i < |p| ensures !CutAfter(p, i) {
      assert CutAfter(p, i) ==> CutAfter(s, start + i);
    }
  }

  method SplitSentences(content: string) returns (out: seq<string>)
    ensures IsSplit(content, out)
  {
    hide IsSplit;
    out := [];
    var start, i := 0, 0;
    assert IsSplit(content[..0], []) by { EmptySplit(); }
    while i < |content|
      invariant Scanned(content, out, start, i)
      decreases |content| - i
    {
      if Ends(content[i]) && i + 1 < |content| && Breaks(content[i + 1]) {
        SplitSnoc(content, out, start, i + 1);
        out := out + [content[start..i + 1]];
        start := i + 1;
        i := i + 1;
      }
      i := i + 1;
    }
    if start < |content| {
      SplitSnoc(content, out, start, |content|);
      out := out + [content[start..]];
    }
    assert content[..|content|] == content;
  }

  lemma EmptySplit()
    ensures IsSplit("", [])
  {
  }

  /** The first cut at or after `i`, or the last position. */
  function FirstCut(s: string, i: nat): (k: nat)
    requires i < |s|
    ensures i <= k < |s| && (k == |s| - 1 || CutAfter(s, k))
    ensures forall m :: i <= m < k ==> !CutAfter(s, m)
    decreases |s| - i
  {
    if CutAfter(s, i) || i == |s| - 1 then i else FirstCut(s, i + 1)
  }

  function Pieces(s: string): seq<string>
    decreases |s|
  {
    if s == "" then [] else
      var k := FirstCut(s, 0);
      [s[..k + 1]] + Pieces(s[k + 1..])
  }

  lemma SplitCons(p: string, s: string, rest: seq<string>)
    requires Uncut(p) && IsSplit(s, rest)
    requires s != "" ==> Ends(p[|p| - 1]) && Breaks(s[0])
    ensures IsSplit(p + s, [p] + rest)
  {
    ConcatCons([p] + rest);
    assert ([p] + rest)[1..] == rest;
    if rest != [] {
      ConcatCons(rest);
      assert Meets(p, rest[0]);
    }
  }

  /** Every text has a split. */
  lemma {:induction false} PiecesSplit(s: string)
    ensures IsSplit(s, Pieces(s))
    decreases |s|
  {
    if s == "" {
    } else {
      var k := FirstCut(s, 0);
      var p, tail := s[..k + 1], s[k + 1..];
      PiecesSplit(tail);
      forall i | 0 <= i < |p| ensures !CutAfter(p, i) {
        assert CutAfter(p, i) ==> CutAfter(s, i);
      }
      hide IsSplit;
      SplitCons(p, tail, Pieces(tail));
      assert s == p + tail;
    }
  }

  // ---- trimming ----

  /** What counts as white space, and the digest of a text's normal form. */
  datatype TextRules = TextRules(isSpace: char -> bool, key: string -> Digest)

  predicate AllSpace(t: TextRules, s: string) { forall i :: 0 <= i < |s| ==> t.isSpace(s[i]) }

  function TrimStart(t: TextRules, s: string): string {
    if s != "" && t.isSpace(s[0]) then TrimStart(t, s[1..]) else s
  }

  function TrimEnd(t: TextRules, s: string): string {
    if s != "" && t.isSpace(s[|s| - 1]) then TrimEnd(t, s[..|s| - 1]) else s
  }

  function Trim(t: TextRules, s: string): string { TrimEnd(t, TrimStart(t, s)) }

  lemma {:induction false} TrimStartSpace(t: TextRules, s: string)
    ensures AllSpace(t, TrimStart(t, s)) <==> AllSpace(t, s)
  {
    if s != "" && t.isSpace(s[0]) {
      TrimStartSpace(t, s[1..]);
      assert s == [s[0]] + s[1..];
    }
  }

  lemma {:induction false} TrimEndSpace(t: TextRules, s: string)
    ensures AllSpace(t, TrimEnd(t, s)) <==> AllSpace(t, s)
    ensures AllSpace(t, s) <==> TrimEnd(t, s) == ""
  {
    if s != "" && t.isSpace(s[|s| - 1]) {
      TrimEndSpace(t, s[..|s| - 1]);
      InitSnoc(s);
    }
  }

  /** A text trims to nothing exactly when it is blank. */
  lemma TrimBlank(t: TextRules, s: string)
    ensures Trim(t, s) == "" <==> AllSpace(t, s)
    ensures AllSpace(t, Trim(t, s)) <==> AllSpace(t, s)
  {
    TrimStartSpace(t, s);
    TrimEndSpace(t, TrimStart(t, s));
  }

  lemma {:induction false} TrimStartIs(t: TextRules, s: string) returns (i: nat)
    ensures i <= |s| && TrimStart(t, s) == s[i..] && AllSpace(t, s[..i])
    ensures i < |s| ==> !t.isSpace(s[i])
  {
    if s != "" && t.isSpace(s[0]) {
      var k := TrimStartIs(t, s[1..]);
      i := k + 1;
      forall m | 0 <= m < i ensures t.isSpace(s[..i][m]) {
        if m > 0 { assert s[1..][..k][m - 1] == s[m]; }
      }
    } else {
      i := 0;
    }
  }

  lemma {:induction false} TrimEndIs(t: TextRules, s: string) returns (j: nat)
    ensures j <= |s| && TrimEnd(t, s) == s[..j] && AllSpace(t, s[j..])
    ensures j > 0 ==> !t.isSpace(s[j - 1])
  {
    if s != "" && t.isSpace(s[|s| - 1]) {
      var r := s[..|s| - 1];
      j := TrimEndIs(t, r);
      assert r[..j] == s[..j];
      forall m | 0 <= m < |s[j..]| ensures t.isSpace(s[j..][m]) {
        if j + m < |r| { assert r[j..][m] == s[j + m]; }
      }
    } else {
      j := |s|;
    }
  }

  /** Trimming takes white space off both ends, all of it, and nothing else. */
  lemma TrimIs(t: TextRules, s: string) returns (i: nat, j: nat)
    ensures i <= j <= |s| && Trim(t, s) == s[i..j]
    ensures AllSpace(t, s[..i]) && AllSpace(t, s[j..])
    ensures i < j ==> !t.isSpace(s[i]) && !t.isSpace(s[j - 1])
  {
    i := TrimStartIs(t, s);
    var k := TrimEndIs(t, s[i..]);
    j := i + k;
    assert s[i..][..k] == s[i..j] && s[i..][k..] == s[j..];
    if i < j {
      assert s[i..][k - 1] == s[j - 1];
    }
  }

  // ---- deduplication ----

  datatype Deduped = Deduped(kept: seq<string>, dropped: nat, seen: seq<Digest>)

  /** The pieces whose key has not been seen, in order. */
  function DedupPieces(t: TextRules, pieces: seq<string>, seen: seq<Digest>): Deduped {
    if pieces == [] then Deduped([], 0, seen) else
      var d := DedupPieces(t, pieces[..|pieces| - 1], seen);
      var s := Trim(t, pieces[|pieces| - 1]);
      if s == "" then d
      else if t.key(s) in d.seen then d.(dropped := d.dropped + 1)
      else Deduped(d.kept + [s], d.dropped, d.seen + [t.key(s)])
  }

  /** Piece `j` is not blank and is the first with its key, of those seen before and those
      before it. */
  predicate IsFirst(t: TextRules, pieces: seq<string>, seen: seq<Digest>, j: nat)
    requires j < |pieces|
  {
    && Trim(t, pieces[j]) != ""
    && t.key(Trim(t, pieces[j])) !in seen
    && forall i :: 0 <= i < j && Trim(t, pieces[i]) != "" ==> t.key(Trim(t, pieces[i])) != t.key(Trim(t, pieces[j]))
  }

  /** `from` lists the positions of the first pieces in order. */
  ghost predicate FirstOnes(t: TextRules, pieces: seq<string>, seen: seq<Digest>, from: seq<nat>) {
    && (forall i, j :: 0 <= i < j < |from| ==> from[i] < from[j])
    && (forall i :: 0 <= i < |from| ==> from[i] < |pieces|)
    && (forall j: nat :: j < |pieces| ==> (j in from <==> IsFirst(t, pieces, seen, j)))
  }

  /** `kept` are the trimmed first pieces, in order. */
  ghost predicate Keeps(t: TextRules, pieces: seq<string>, seen: seq<Digest>, kept: seq<string>, from: seq<nat>) {
    FirstOnes(t, pieces, seen, from) && TakenFrom(t, pieces, kept, from)
  }

  /** `kept` are the trimmed pieces at these positions. */
  predicate TakenFrom(t: TextRules, pieces: seq<string>, kept: seq<string>, from: seq<nat>) {
    && |kept| == |from|
    && forall i :: 0 <= i < |from| ==> from[i] < |pieces| && kept[i] == Trim(t, pieces[from[i]])
  }

  lemma TakenNext(t: TextRules, pieces: seq<string>, kept: seq<string>, r: seq<nat>, n: nat)
    requires n < |pieces| && TakenFrom(t, pieces[..n], kept, r)
    ensures TakenFrom(t, pieces, kept, r) && TakenFrom(t, pieces, kept + [Trim(t, pieces[n])], r + [n])
  {
    hide Trim;
    forall i | 0 <= i < |r| ensures r[i] < |pieces| && kept[i] == Trim(t, pieces[r[i]]) {
      assert pieces[..n][r[i]] == pieces[r[i]];
    }
  }

  lemma {:induction false} SeenKeys(t: TextRules, pieces: seq<string>, seen: seq<Digest>, key: Digest)
    ensures key in DedupPieces(t, pieces, seen).seen <==>
      key in seen || exists i :: 0 <= i < |pieces| && Trim(t, pieces[i]) != "" && t.key(Trim(t, pieces[i])) == key
  {
    hide Trim;
    if pieces == [] {
    } else {
      var n := |pieces| - 1;
      SeenKeys(t, pieces[..n], seen, key);
      var s := Trim(t, pieces[n]);
      if s != "" { SeenKeys(t, pieces[..n], seen, t.key(s)); }
      assert forall i :: 0 <= i < n ==> pieces[..n][i] == pieces[i];
    }
  }

  lemma FirstInPrefix(t: TextRules, pieces: seq<string>, seen: seq<Digest>, n: nat, j: nat)
    requires j < n <= |pieces|
    ensures IsFirst(t, pieces[..n], seen, j) <==> IsFirst(t, pieces, seen, j)
  {
    hide Trim;
    assert forall i :: 0 <= i <= j ==> pieces[..n][i] == pieces[i];
  }

  lemma KeepsNext(t: TextRules, pieces: seq<string>, seen: seq<Digest>, kept: seq<string>, r: seq<nat>)
    requires pieces != [] && Keeps(t, pieces[..|pieces| - 1], seen, kept, r)
    ensures var n := |pieces| - 1;
      if IsFirst(t, pieces, seen, n) then Keeps(t, pieces, seen, kept + [Trim(t, pieces[n])], r + [n])
      else Keeps(t, pieces, seen, kept, r)
  {
    hide Trim, IsFirst;
    FirstOnesNext(t, pieces, seen, r);
    TakenNext(t, pieces, kept, r, |pieces| - 1);
    hide FirstOnes, TakenFrom;
  }

  lemma {:induction false} KeptAre(t: TextRules, pieces: seq<string>, seen: seq<Digest>) returns (from: seq<nat>)
    ensures Keeps(t, pieces, seen, DedupPieces(t, pieces, seen).kept, from)
  {
    hide Trim, IsFirst;
    if pieces == [] {
      from := [];
    } else {
      var n := |pieces| - 1;
      var r := KeptAre(t, pieces[..n], seen);
      from := if IsFirst(t, pieces, seen, n) then r + [n] else r;
      NextKept(t, pieces, seen);
      hide DedupPieces, Keeps;
      var kept := DedupPieces(t, pieces[..n], seen).kept;
      KeepsNext(t, pieces, seen, kept, r);
      assert kept + [] == kept;
    }
  }

  lemma KeptNonEmpty(t: TextRules, pieces: seq<string>, seen: seq<Digest>, kept: seq<string>, from: seq<nat>)
    requires Keeps(t, pieces, seen, kept, from)
    ensures forall i :: 0 <= i < |kept| ==> kept[i] != ""
  {
    hide Trim;
    forall i | 0 <= i < |kept| ensures kept[i] != "" {
      assert from[i] in from;
      assert IsFirst(t, pieces, seen, from[i]);
    }
  }

  lemma NextKept(t: TextRules, pieces: seq<string>, seen: seq<Digest>)
    requires pieces != []
    ensures var n := |pieces| - 1;
      DedupPieces(t, pieces, seen).kept
      == DedupPieces(t, pieces[..n], seen).kept + if IsFirst(t, pieces, seen, n) then [Trim(t, pieces[n])] else []
  {
    hide Trim;
    var n := |pieces| - 1;
    SeenKeys(t, pieces[..n], seen, t.key(Trim(t, pieces[n])));
    assert forall i :: 0 <= i < n ==> pieces[..n][i] == pieces[i];
  }

  lemma FirstOnesNext(t: TextRules, pieces: seq<string>, seen: seq<Digest>, r: seq<nat>)
    requires pieces != [] && FirstOnes(t, pieces[..|pieces| - 1], seen, r)
    ensures var n := |pieces| - 1; FirstOnes(t, pieces, seen, if IsFirst(t, pieces, seen, n) then r + [n] else r)
  {
    var n := |pieces| - 1;
    forall j: nat | j < n ensures IsFirst(t, pieces[..n], seen, j) <==> IsFirst(t, pieces, seen, j) {
      FirstInPrefix(t, pieces, seen, n, j);
    }
    hide IsFirst;
    assert forall j: nat :: j in r + [n] <==> j in r || j == n;
    assert n !in r;
  }

  function Join(parts: seq<string>): string {
    if parts == [] then "" else if |parts| == 1 then parts[0]
    else Join(parts[..|parts| - 1]) + ". " + parts[|parts| - 1]
  }

  function Rebuilt(parts: seq<string>): string {
    var r := Join(parts);
    if r == "" then "" else if Ends(r[|r| - 1]) then r else r + "."
  }

  predicate StandsAt(text: string, s: string, i: nat) { i + |s| <= |text| && text[i..i + |s|] == s }

  ghost predicate Contains(text: string, s: string) { exists i: nat :: StandsAt(text, s, i) }

  /** Between sentence `i` and the next stands exactly ". ". */
  predicate Joint(text: string, parts: seq<string>, at: seq<nat>, i: nat)
    requires i + 1 < |parts| == |at|
  {
    at[i + 1] == at[i] + |parts[i]| + 2 && StandsAt(text, ". ", at[i] + |parts[i]|)
  }

  /** These sentences stand in the text in order, sentence `i` at `at[i]`, from its start and
      with nothing but a joint between each and the next. */
  predicate Laid(text: string, parts: seq<string>, at: seq<nat>) {
    && |at| == |parts| > 0 && at[0] == 0
    && (forall i :: 0 <= i < |parts| ==> parts[i] != "" && StandsAt(text, parts[i], at[i]))
    && (forall i :: 0 <= i < |parts| - 1 ==> Joint(text, parts, at, i))
  }

  /** The text is these sentences in order, joined by ". ". After the last one stands nothing,
      or a full stop if it has no end mark of its own. */
  predicate Composed(text: string, parts: seq<string>, at: seq<nat>) {
    if parts == [] then text == "" else
      && Laid(text, parts, at)
      && var last := parts[|parts| - 1];
         var mark := last[|last| - 1];
         text[at[|parts| - 1] + |last|..] == if mark == '.' || mark == '!' || mark == '?' then "" else "."
  }

  lemma StandsMore(text: string, more: string, s: string, i: nat)
    requires StandsAt(text, s, i)
    ensures StandsAt(text + more, s, i)
  {
    assert (text + more)[i..i + |s|] == text[i..i + |s|];
  }

  lemma LaidMore(text: string, more: string, parts: seq<string>, at: seq<nat>)
    requires Laid(text, parts, at)
    ensures Laid(text + more, parts, at)
  {
    hide StandsAt;
    forall i | 0 <= i < |parts| ensures StandsAt(text + more, parts[i], at[i]) {
      StandsMore(text, more, parts[i], at[i]);
    }
    forall i | 0 <= i < |parts| - 1 ensures Joint(text + more, parts, at, i) {
      assert Joint(text, parts, at, i);
      StandsMore(text, more, ". ", at[i] + |parts[i]|);
    }
  }

  lemma OneMoreLaid(all: string, parts: seq<string>, at: seq<nat>, p: string, k: nat)
    requires Laid(all, parts, at) && p != "" && k == at[|parts| - 1] + |parts[|parts| - 1]|
    requires StandsAt(all, ". ", k) && StandsAt(all, p, k + 2)
    ensures Laid(all, parts + [p], at + [k + 2])
  {
    hide StandsAt;
    var n, ps, ats := |parts|, parts + [p], at + [k + 2];
    assert forall i :: 0 <= i < n ==> ps[i] == parts[i] && ats[i] == at[i];
    forall i | 0 <= i < n ensures Joint(all, ps, ats, i) {
      if i < n - 1 { assert Joint(all, parts, at, i); }
    }
  }

  lemma LaidSnoc(text: string, parts: seq<string>, at: seq<nat>, p: string)
    requires Laid(text, parts, at) && p != "" && |text| == at[|parts| - 1] + |parts[|parts| - 1]|
    ensures Laid(text + ". " + p, parts + [p], at + [|text| + 2])
  {
    var more := ". " + p;
    var all := text + ". " + p;
    assert text + more == all;
    assert all[|text|..|text| + 2] == ". " && all[|text| + 2..|text| + 2 + |p|] == p;
    assert StandsAt(all, ". ", |text|) && StandsAt(all, p, |text| + 2);
    LaidMore(text, more, parts, at);
    hide StandsAt, Laid;
    OneMoreLaid(all, parts, at, p, |text|);
  }

  lemma {:induction false} JoinLaid(parts: seq<string>) returns (at: seq<nat>)
    requires parts != [] && forall i :: 0 <= i < |parts| ==> parts[i] != ""
    ensures Laid(Join(parts), parts, at) && |Join(parts)| == at[|parts| - 1] + |parts[|parts| - 1]|
  {
    var n := |parts| - 1;
    if n == 0 {
      at := [0];
    } else {
      var r := JoinLaid(parts[..n]);
      var text := Join(parts[..n]);
      assert Join(parts) == text + ". " + parts[n];
      hide Join, Laid;
      LaidSnoc(text, parts[..n], r, parts[n]);
      InitSnoc(parts);
      at := r + [|text| + 2];
    }
  }

  /** The rebuilt text is the kept sentences and their joints, and nothing else. */
  lemma RebuiltComposed(parts: seq<string>) returns (at: seq<nat>)
    requires forall i :: 0 <= i < |parts| ==> parts[i] != ""
    ensures Composed(Rebuilt(parts), parts, at)
  {
    if parts == [] {
      at := [];
    } else {
      at := JoinLaid(parts);
      ClosingComposes(Join(parts), parts, at);
    }
  }

  lemma ClosingComposes(text: string, parts: seq<string>, at: seq<nat>)
    requires Laid(text, parts, at) && |text| == at[|parts| - 1] + |parts[|parts| - 1]|
    ensures text != "" && Composed(if Ends(text[|text| - 1]) then text else text + ".", parts, at)
  {
    var n := |parts| - 1;
    var last := parts[n];
    assert StandsAt(text, last, at[n]);
    assert text[at[n]..at[n] + |last|][|last| - 1] == text[|text| - 1];
    LaidMore(text, ".", parts, at);
    assert (text + ".")[|text|..] == ".";
    hide StandsAt;
  }

  lemma ComposedContains(text: string, parts: seq<string>, at: seq<nat>, s: string)
    requires Composed(text, parts, at) && s in parts
    ensures Contains(text, s)
  {
    hide StandsAt;
    var i :| 0 <= i < |parts| && parts[i] == s;
    assert StandsAt(text, parts[i], at[i]);
  }

  function DedupText(t: TextRules, content: string, seen: seq<Digest>): Deduped {
    DedupPieces(t, Pieces(content), seen)
  }

  method DedupSentences(t: TextRules, content: string, seen: seq<Digest>)
    returns (text: string, dropped: nat, seen': seq<Digest>)
    ensures var d := DedupText(t, content, seen);
      text == Rebuilt(d.kept) && dropped == d.dropped && seen' == d.seen
    ensures exists kept: seq<string>, from: seq<nat>, at: seq<nat> ::
      Keeps(t, Pieces(content), seen, kept, from) && Composed(text, kept, at)
  {
    hide IsSplit, Trim, Pieces, Keeps, Composed, Rebuilt;
    var sentences := SplitSentences(content);
    PiecesSplit(content);
    SplitUnique(content, sentences, Pieces(content));
    var kept: seq<string> := [];
    dropped, seen' := 0, seen;
    for i := 0 to |sentences|
      invariant Deduped(kept, dropped, seen') == DedupPieces(t, sentences[..i], seen)
    {
      PrefixOfPrefix(sentences, i, i + 1);
      var trimmed := Trim(t, sentences[i]);
      if trimmed == "" {
        continue;
      }
      var key := t.key(trimmed);
      if key in seen' {
        dropped := dropped + 1;
        continue;
      }
      seen' := seen' + [key];
      kept := kept + [trimmed];
    }
    assert sentences[..|sentences|] == sentences;
    text := Rebuilt(kept);
    ghost var from := KeptAre(t, sentences, seen);
    KeptNonEmpty(t, sentences, seen, kept, from);
    ghost var at := RebuiltComposed(kept);
  }

  function NonBlank(t: TextRules, pieces: seq<string>): nat {
    if pieces == [] then 0 else
      NonBlank(t, pieces[..|pieces| - 1]) + if AllSpace(t, pieces[|pieces| - 1]) then 0 else 1
  }

  /** The seen keys grow by exactly the kept pieces' keys and stay distinct; kept and dropped
      pieces together are the non-blank ones; no non-blank piece goes unrecorded. */
  lemma {:induction false} DedupLosesNothing(t: TextRules, pieces: seq<string>, seen: seq<Digest>)
    requires Distinct(seen)
    ensures var d := DedupPieces(t, pieces, seen);
      && Distinct(d.seen)
      && |d.seen| == |seen| + |d.kept| && seen == d.seen[..|seen|]
      && (forall i :: 0 <= i < |d.kept| ==> !AllSpace(t, d.kept[i]) && d.seen[|seen| + i] == t.key(d.kept[i]))
      && |d.kept| + d.dropped == NonBlank(t, pieces)
      && (forall p :: p in pieces && !AllSpace(t, p) ==> t.key(Trim(t, p)) in d.seen)
      && (forall s :: s in d.kept ==> exists p :: p in pieces && !AllSpace(t, p) && Trim(t, p) == s)
  {
    if pieces == [] {
    } else {
      var p := pieces[|pieces| - 1];
      DedupLosesNothing(t, pieces[..|pieces| - 1], seen);
      TrimBlank(t, p);
      InitSnoc(pieces);
      hide Trim, AllSpace;
    }
  }

  lemma {:induction false} JoinSpace(t: TextRules, parts: seq<string>)
    requires parts != [] && forall i :: 0 <= i < |parts| ==> !AllSpace(t, parts[i])
    ensures !AllSpace(t, Join(parts))
  {
    var n := |parts| - 1;
    var i :| 0 <= i < |parts[n]| && !t.isSpace(parts[n][i]);
    if n > 0 {
      var head := Join(parts[..n]) + ". ";
      assert Join(parts) == head + parts[n];
      assert Join(parts)[|head| + i] == parts[n][i];
    }
  }

  /** The rebuilt text is blank exactly when no piece was kept. */
  lemma RebuiltBlank(t: TextRules, parts: seq<string>)
    requires forall i :: 0 <= i < |parts| ==> !AllSpace(t, parts[i])
    ensures Trim(t, Rebuilt(parts)) == "" <==> parts == []
  {
    TrimBlank(t, Rebuilt(parts));
    if parts != [] {
      JoinSpace(t, parts);
      var r := Join(parts);
      var i :| 0 <= i < |r| && !t.isSpace(r[i]);
      assert Rebuilt(parts)[i] == r[i];
    }
  }
}
