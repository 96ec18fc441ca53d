/** Bytes, little-endian integers and the length-prefixed writer that every signed
    structure goes through (crates/hansa/src/sign.rs), with the matching readers. */
module Wire {

  newtype Byte = b: int | 0 <= b < 256
  type Bytes = seq<Byte>
  type Bytes16 = b: Bytes | |b| == 16 witness seq(16, _ => 0)
  type Bytes32 = b: Bytes | |b| == 32 witness seq(32, _ => 0)
  type Bytes64 = b: Bytes | |b| == 64 witness seq(64, _ => 0)
  type U32 = x: int | 0 <= x < TWO32
  type I64 = x: int | -TWO63 <= x < TWO63

  const TWO32: nat := 0x1_0000_0000
  const TWO63: int := 0x8000_0000_0000_0000
  const TWO64: nat := 0x1_0000_0000_0000_0000

  function Zeros(n: nat): (b: Bytes)
    ensures |b| == n && forall i :: 0 <= i < n ==> b[i] == 0
  {
    seq(n, _ => 0)
  }

  function Pow256(n: nat): (p: nat)
    ensures p > 0
  {
    if n == 0 then 1 else 256 * Pow256(n - 1)
  }

  /** The `n` low bytes of `x`, least significant first (`to_le_bytes`). */
  function Le(n: nat, x: nat): (b: Bytes)
    ensures |b| == n
  {
    if n == 0 then [] else [(x % 256) as Byte] + Le(n - 1, x / 256)
  }

  function FromLe(b: Bytes): nat {
    if b == [] then 0 else b[0] as int + 256 * FromLe(b[1..])
  }

  lemma {:induction false} LeRoundTrip(n: nat, x: nat)
    requires x < Pow256(n)
    ensures FromLe(Le(n, x)) == x
  {
    if n == 0 {
    } else {
      assert x / 256 < Pow256(n - 1);
      LeRoundTrip(n - 1, x / 256);
      assert Le(n, x)[1..] == Le(n - 1, x / 256);
    }
  }

  lemma WordSizes()
    ensures Pow256(4) == TWO32 && Pow256(8) == TWO64
  {
    assert Pow256(1) == 256 * Pow256(0);
    assert Pow256(2) == 256 * Pow256(1);
    assert Pow256(3) == 256 * Pow256(2);
    assert Pow256(4) == 256 * Pow256(3);
    assert Pow256(5) == 256 * Pow256(4);
    assert Pow256(6) == 256 * Pow256(5);
    assert Pow256(7) == 256 * Pow256(6);
    assert Pow256(8) == 256 * Pow256(7);
  }

  /** Two's complement, as the unsigned word with the same bytes. */
  function Word(x: I64): nat { if x < 0 then x + TWO64 else x }

  function FromWord(w: nat): I64
    requires w < TWO64
  {
    if w >= TWO63 then w - TWO64 else w
  }

  /** The builder of canonical bytes; each step returns it extended. A length is cut to
      32 bits by the cast, so a string of 2^32 bytes or more loses its prefix. */
  datatype Writer = Writer(buf: Bytes) {
    static function New(): Writer { Writer([]) }

    function U8(x: Byte): Writer { Writer(buf + [x]) }

    function U32(x: U32): Writer { Writer(buf + Le(4, x)) }

    function U64(x: nat): Writer { Writer(buf + Le(8, x)) }

    function I64(x: I64): Writer { Writer(buf + Le(8, Word(x))) }

    function Fixed(b: Bytes): Writer { Writer(buf + b) }

    function Str(b: Bytes): Writer { Writer(buf + Le(4, |b| % TWO32) + b) }

    function Finish(): Bytes { buf }
  }

  /** What a reader takes off the front of its input, and what it leaves. */
  datatype Parsed<+T> = Bad | Got(value: T, rest: Bytes) {
    predicate IsFailure() { Bad? }

    function PropagateFailure<U>(): Parsed<U>
      requires Bad?
    {
      Bad
    }

    function Extract(): (T, Bytes)
      requires Got?
    {
      (value, rest)
    }
  }

  function Take(n: nat, b: Bytes): (p: Parsed<Bytes>)
    ensures p.Got? ==> |p.value| == n
  {
    if |b| < n then Bad else Got(b[..n], b[n..])
  }

  function TakeByte(b: Bytes): Parsed<Byte> {
    if b == [] then Bad else Got(b[0], b[1..])
  }

  function TakeWord(n: nat, b: Bytes): Parsed<nat> {
    var (w, rest) :- Take(n, b);
    Got(FromLe(w), rest)
  }

  function TakeI64(b: Bytes): Parsed<I64> {
    var (w, rest) :- TakeWord(8, b);
    if w < TWO64 then Got(FromWord(w), rest) else Bad
  }

  function TakeU32(b: Bytes): Parsed<U32> {
    var (w, rest) :- TakeWord(4, b);
    if w < TWO32 then Got(w, rest) else Bad
  }

  function TakeStr(b: Bytes): Parsed<Bytes> {
    var (n, rest) :- TakeWord(4, b);
    Take(n, rest)
  }

  lemma TakePrefix(x: Bytes, rest: Bytes)
    ensures Take(|x|, x + rest) == Got(x, rest)
  {
    assert (x + rest)[..|x|] == x && (x + rest)[|x|..] == rest;
  }

  lemma TakeByteOf(x: Byte, rest: Bytes)
    ensures TakeByte([x] + rest) == Got(x, rest)
  {
    assert ([x] + rest)[1..] == rest;
  }

  lemma TakeWordOf(n: nat, x: nat, rest: Bytes)
    requires x < Pow256(n)
    ensures TakeWord(n, Le(n, x) + rest) == Got(x, rest)
  {
    TakePrefix(Le(n, x), rest);
    LeRoundTrip(n, x);
  }

  lemma TakeI64Of(x: I64, rest: Bytes)
    ensures TakeI64(Le(8, Word(x)) + rest) == Got(x, rest)
  {
    WordSizes();
    TakeWordOf(8, Word(x), rest);
  }

  lemma TakeU32Of(x: U32, rest: Bytes)
    ensures TakeU32(Le(4, x) + rest) == Got(x, rest)
  {
    WordSizes();
    TakeWordOf(4, x, rest);
  }

  lemma {:induction false} TakeCounted(n: nat, x: Bytes, rest: Bytes)
    requires |x| < Pow256(n)
    ensures TakeWord(n, Le(n, |x|) + x + rest) == Got(|x|, x + rest)
  {
    TakeWordOf(n, |x|, x + rest);
    assert Le(n, |x|) + x + rest == Le(n, |x|) + (x + rest);
  }

  lemma {:induction false} TakeStrOf(x: Bytes, rest: Bytes)
    requires |x| < TWO32
    ensures TakeStr(Le(4, |x| % TWO32) + x + rest) == Got(x, rest)
  {
    assert |x| % TWO32 == |x|;
    assert |x| < Pow256(4) by { WordSizes(); }
    TakeCounted(4, x, rest);
    TakePrefix(x, rest);
  }
}
