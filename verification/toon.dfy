/** The TOON renderer (context.rs) and a reader that recovers from its output what was
    printed. Quoting is that of RFC 4180, section 2, rules 6 and 7, for the comma, the quote
    and the line feed. */
module Toon {
  import opened Wrappers
  import opened Seqs
  import opened FanOut
  import opened Context

  /** One printed row: source mark, printed similarity, text. */
  datatype Row = Row(mark: string, similarity: string, text: string)

  // ---- printing ----

  predicate Special(c: char) { c == ',' || c == '"' || c == '\n' }

  predicate Plain(s: string) { forall i :: 0 <= i < |s| ==> !Special(s[i]) }

  /** `s` with every quote doubled. */
  function Escaped(s: string): string {
    if s == "" then "" else (if s[0] == '"' then "\"\"" else [s[0]]) + Escaped(s[1..])
  }

  function CsvField(s: string): string {
    if Plain(s) then s else "\"" + Escaped(s) + "\""
  }

  const HEX: string := "0123456789abcdef"

  function HexDigit(n: nat): char
    requires n < 16
  {
    HEX[n]
  }

  /** `L` for the caller's own tenant, else the high nibble of the peer's first id byte. */
  function Mark(o: HitOrigin): string {
    match o
    case Local => "L"
    case Remote(t) => [HexDigit(t[0] as int / 16)]
  }

  function Digits(n: nat): (s: string)
    ensures s != ""
  {
    if n < 10 then [HexDigit(n)] else Digits(n / 10) + [HexDigit(n % 10)]
  }

  /** `format` is the two-decimal formatting of a similarity. */
  function RowOf(x: Item, format: real -> string): Row {
    Row(Mark(x.origin), format(x.similarity), x.content)
  }

  function RenderRow(r: Row): string {
    "  " + r.mark + "," + r.similarity + "," + CsvField(r.text) + "\n"
  }

  function RenderRows(rows: seq<Row>): string {
    if rows == [] then "" else RenderRows(rows[..|rows| - 1]) + RenderRow(rows[|rows| - 1])
  }

  function Rows(items: seq<Item>, format: real -> string): (r: seq<Row>)
    ensures |r| == |items| && forall i :: 0 <= i < |r| ==> r[i] == RowOf(items[i], format)
  {
    seq(|items|, i requires 0 <= i < |items| => RowOf(items[i], format))
  }

  function Header(n: nat): string { "items[" + Digits(n) + "]:\n" + "  src,sim,text\n" }

  lemma NoRows()
    ensures RenderRows([]) == ""
  {
  }

  lemma RowsNext(rows: seq<Row>, n: nat)
    requires n < |rows|
    ensures RenderRows(rows[..n + 1]) == RenderRows(rows[..n]) + RenderRow(rows[n])
  {
    PrefixOfPrefix(rows, n, n + 1);
    hide RenderRow;
  }

  method RenderToon(items: seq<Item>, format: real -> string) returns (out: string)
    ensures out == Header(|items|) + RenderRows(Rows(items, format))
  {
    hide CsvField, Digits, RenderRows;
    var rows := Rows(items, format);
    out := "items[" + Digits(|items|) + "]:\n";
    out := out + "  src,sim,text\n";
    assert out + RenderRows(rows[..0]) == out by { NoRows(); }
    assert out == Header(|items|);
    for i := 0 to |items|
      invariant out == Header(|items|) + RenderRows(rows[..i])
    {
      RowsNext(rows, i);
      var src := Mark(items[i].origin);
      var row := "  " + src + "," + format(items[i].similarity) + "," + CsvField(items[i].content) + "\n";
      assert row == RenderRow(rows[i]);
      out := out + row;
    }
    assert rows[..|items|] == rows;
  }

  // ---- reading ----

  /** An unquoted field: everything up to the next comma or line feed. */
  function ReadPlain(s: string): (r: (string, string))
    ensures |r.1| <= |s|
  {
    if s == "" || s[0] == ',' || s[0] == '\n' then ("", s)
    else var (f, rest) := ReadPlain(s[1..]); ([s[0]] + f, rest)
  }

  /** The rest of a quoted field: a doubled quote is a quote, a single one ends the field. */
  function ReadQuoted(s: string): (r: Option<(string, string)>)
    ensures r.Some? ==> |r.value.1| < |s|
    decreases |s|
  {
    if s == "" then None
    else if s[0] != '"' then
      match ReadQuoted(s[1..])
      case None => None
      case Some((f, rest)) => Some(([s[0]] + f, rest))
    else if |s| > 1 && s[1] == '"' then
      match ReadQuoted(s[2..])
      case None => None
      case Some((f, rest)) => Some((['"'] + f, rest))
    else Some(("", s[1..]))
  }

  function ReadField(s: string): (r: Option<(string, string)>)
    ensures r.Some? ==> |r.value.1| <= |s|
  {
    if s != "" && s[0] == '"' then ReadQuoted(s[1..]) else Some(ReadPlain(s))
  }

  /** `s` without the literal `lit` at its front. */
  function Expect(s: string, lit: string): (r: Option<string>)
    ensures r.Some? ==> s == lit + r.value
  {
    if |lit| <= |s| && s[..|lit|] == lit then Some(s[|lit|..]) else None
  }

  function ReadRow(s: string): (r: Option<(Row, string)>)
    ensures r.Some? ==> |r.value.1| < |s|
  {
    match Expect(s, "  ")
    case None => None
    case Some(a) =>
      match ReadField(a)
      case None => None
      case Some((mark, b)) =>
        match Expect(b, ",")
        case None => None
        case Some(c) =>
          match ReadField(c)
          case None => None
          case Some((similarity, d)) =>
            match Expect(d, ",")
            case None => None
            case Some(e) =>
              match ReadField(e)
              case None => None
              case Some((text, f)) =>
                match Expect(f, "\n")
                case None => None
                case Some(rest) => Some((Row(mark, similarity, text), rest))
  }

  function ReadRows(s: string): Option<seq<Row>>
    decreases |s|
  {
    if s == "" then Some([]) else
      match ReadRow(s)
      case None => None
      case Some((row, rest)) =>
        match ReadRows(rest)
        case None => None
        case Some(rows) => Some([row] + rows)
  }

  const COLUMNS: string := "]:\n  src,sim,text\n"

  predicate IsDigit(c: char) { '0' <= c <= '9' }

  function ReadDigits(s: string, value: nat): (r: (nat, string))
    ensures |r.1| <= |s|
    decreases |s|
  {
    if s != "" && IsDigit(s[0]) then ReadDigits(s[1..], 10 * value + (s[0] as int - '0' as int)) else (value, s)
  }

  /** The announced item count and the rows. */
  function ReadToon(s: string): Option<(nat, seq<Row>)> {
    match Expect(s, "items[")
    case None => None
    case Some(a) =>
      var (n, b) := ReadDigits(a, 0);
      match Expect(b, COLUMNS)
      case None => None
      case Some(c) =>
        match ReadRows(c)
        case None => None
        case Some(rows) => Some((n, rows))
  }

  // ---- the round trip ----

  lemma ExpectFront(lit: string, rest: string)
    ensures Expect(lit + rest, lit) == Some(rest)
  {
    assert (lit + rest)[..|lit|] == lit && (lit + rest)[|lit|..] == rest;
  }

  predicate Delimited(s: string) { s != "" && (s[0] == ',' || s[0] == '\n') }

  lemma {:induction false} PlainRead(t: string, rest: string)
    requires Plain(t) && Delimited(rest)
    ensures ReadPlain(t + rest) == (t, rest)
  {
    if t == "" {
      assert t + rest == rest;
    } else {
      PlainRead(t[1..], rest);
      assert !Special(t[0]) && [t[0]] + t[1..] == t;
      assert (t + rest)[0] == t[0] && (t + rest)[1..] == t[1..] + rest;
    }
  }

  lemma {:induction false} QuotedRead(t: string, rest: string)
    requires Delimited(rest)
    ensures ReadQuoted(Escaped(t) + "\"" + rest) == Some((t, rest))
  {
    var s := Escaped(t) + "\"" + rest;
    if t == "" {
      assert s[0] == '"' && s[1] == rest[0] && s[1..] == rest;
    } else {
      QuotedRead(t[1..], rest);
      var tail := Escaped(t[1..]) + "\"" + rest;
      if t[0] == '"' {
        assert s == "\"\"" + tail;
        assert s[0] == '"' && s[1] == '"' && s[2..] == tail;
      } else {
        assert s == [t[0]] + tail;
        assert s[0] == t[0] && s[1..] == tail;
      }
      assert [t[0]] + t[1..] == t;
    }
  }

  /** Any text at all survives the quoting. */
  lemma FieldRead(t: string, rest: string)
    requires Delimited(rest)
    ensures ReadField(CsvField(t) + rest) == Some((t, rest))
  {
    hide Escaped, ReadQuoted, ReadPlain;
    if Plain(t) {
      PlainRead(t, rest);
      assert (t + rest)[0] == if t == "" then rest[0] else t[0];
    } else {
      QuotedRead(t, rest);
      Unquoted(Escaped(t), rest);
    }
  }

  lemma Unquoted(e: string, rest: string)
    ensures var s := "\"" + e + "\"" + rest; s[0] == '"' && s[1..] == e + "\"" + rest
  {
  }

  lemma PlainField(t: string, rest: string)
    requires Plain(t) && Delimited(rest)
    ensures ReadField(t + rest) == Some((t, rest))
  {
    FieldRead(t, rest);
  }

  predicate Printable(r: Row) { Plain(r.mark) && Plain(r.similarity) }

  lemma RowText(r: Row, rest: string)
    ensures RenderRow(r) + rest ==
      "  " + (r.mark + ("," + (r.similarity + ("," + (CsvField(r.text) + ("\n" + rest))))))
  {
    hide CsvField;
  }

  lemma CommaDelimits(s: string)
    ensures Delimited("," + s)
  {
  }

  lemma RowRead(r: Row, rest: string)
    requires Printable(r)
    ensures ReadRow(RenderRow(r) + rest) == Some((r, rest))
  {
    hide ReadField, CsvField, RenderRow, Plain, Expect;
    var e := CsvField(r.text) + ("\n" + rest);
    var d := "," + e;
    var c := r.similarity + d;
    var b := "," + c;
    var a := r.mark + b;
    RowText(r, rest);
    ExpectFront("  ", a);
    PlainField(r.mark, b) by { CommaDelimits(c); }
    ExpectFront(",", c);
    PlainField(r.similarity, d) by { CommaDelimits(e); }
    ExpectFront(",", e);
    FieldRead(r.text, "\n" + rest);
    ExpectFront("\n", rest);
  }

  lemma {:induction false} RowsCons(rows: seq<Row>)
    requires rows != []
    ensures RenderRows(rows) == RenderRow(rows[0]) + RenderRows(rows[1..])
  {
    var n := |rows| - 1;
    hide RenderRow;
    if n > 0 {
      RowsCons(rows[..n]);
      assert rows[..n][1..] == rows[1..][..n - 1];
    }
  }

  lemma {:induction false} RowsRead(rows: seq<Row>)
    requires forall i :: 0 <= i < |rows| ==> Printable(rows[i])
    ensures ReadRows(RenderRows(rows)) == Some(rows)
  {
    if rows == [] {
    } else {
      RowsCons(rows);
      RowsRead(rows[1..]);
      RowRead(rows[0], RenderRows(rows[1..]));
      assert RenderRow(rows[0]) != "";
      hide ReadRow, RenderRow, RenderRows;
      assert [rows[0]] + rows[1..] == rows;
    }
  }

  lemma DigitIs(n: nat)
    requires n < 10
    ensures IsDigit(HexDigit(n)) && HexDigit(n) as int - '0' as int == n
  {
  }

  lemma {:induction false} DigitsRead(n: nat, rest: string)
    ensures ReadDigits(Digits(n) + rest, 0) == ReadDigits(rest, n)
  {
    var d := n % 10;
    DigitIs(d);
    var s := [HexDigit(d)] + rest;
    assert s[1..] == rest;
    if n >= 10 {
      DigitsRead(n / 10, s);
      assert Digits(n) + rest == Digits(n / 10) + s;
    }
    hide HexDigit, Digits;
    assert ReadDigits(s, n / 10) == ReadDigits(rest, n);
  }

  lemma MarkPlain(o: HitOrigin)
    ensures Plain(Mark(o))
  {
  }

  lemma HeaderSplits(n: nat, c: string)
    ensures Header(n) + c == "items[" + (Digits(n) + (COLUMNS + c))
  {
    hide Digits;
    assert COLUMNS == "]:\n" + "  src,sim,text\n";
    var d := Digits(n);
    assert Header(n) == ("items[" + d) + COLUMNS;
    assert (("items[" + d) + COLUMNS) + c == ("items[" + d) + (COLUMNS + c);
    assert ("items[" + d) + (COLUMNS + c) == "items[" + (d + (COLUMNS + c));
  }

  lemma HeaderRead(n: nat, c: string, rows: seq<Row>)
    requires ReadRows(c) == Some(rows)
    ensures ReadToon(Header(n) + c) == Some((n, rows))
  {
    var b := COLUMNS + c;
    var a := Digits(n) + b;
    HeaderSplits(n, c);
    ExpectFront("items[", a);
    DigitsRead(n, b);
    ExpectFront(COLUMNS, c);
    assert b[0] == ']';
    assert ReadDigits(b, n) == (n, b);
    hide Digits, Header, ReadDigits, Expect, ReadRows;
  }

  /** The reader recovers from the rendered text the item count and, for each item in order,
      its source mark, printed similarity and exact text. */
  lemma ToonRoundTrip(items: seq<Item>, format: real -> string)
    requires forall x :: Plain(format(x))
    ensures ReadToon(Header(|items|) + RenderRows(Rows(items, format))) == Some((|items|, Rows(items, format)))
  {
    var rows := Rows(items, format);
    forall i | 0 <= i < |rows| ensures Printable(rows[i]) { MarkPlain(items[i].origin); }
    hide Printable, Header, RenderRows, ReadToon, ReadRows;
    RowsRead(rows);
    HeaderRead(|items|, RenderRows(rows), rows);
  }

  /** Bundles that print alike have the same marks, printed similarities and texts. */
  lemma ToonInjective(a: seq<Item>, b: seq<Item>, format: real -> string)
    requires forall x :: Plain(format(x))
    requires Header(|a|) + RenderRows(Rows(a, format)) == Header(|b|) + RenderRows(Rows(b, format))
    ensures |a| == |b| && Rows(a, format) == Rows(b, format)
  {
    ToonRoundTrip(a, format);
    ToonRoundTrip(b, format);
  }

  // ---- the exact form ----

  /** The source mark: "L", or the hexadecimal digit of the high half of the tenant's first
      byte. */
  lemma MarkIs(o: HitOrigin)
    ensures o.Local? ==> Mark(o) == "L"
    ensures o.Remote? ==>
      var d := o.tenantId[0] as int / 16;
      Mark(o) == [(if d < 10 then '0' as int + d else 'a' as int + (d - 10)) as char]
  {
    if o.Remote? { HexIs(o.tenantId[0] as int / 16); }
  }

  lemma HexIs(d: nat)
    requires d < 16
    ensures HexDigit(d) == (if d < 10 then '0' as int + d else 'a' as int + (d - 10)) as char
  {
  }

  /** A number is printed without leading zeros. */
  lemma {:induction false} NoLeadingZero(n: nat)
    requires n > 0
    ensures Digits(n)[0] != '0'
  {
    if n < 10 {
      HexIs(n);
    } else {
      NoLeadingZero(n / 10);
    }
  }

  /** How many double quotes a text has. */
  function Quotes(s: string): nat { if s == "" then 0 else (if s[0] == '"' then 1 else 0) + Quotes(s[1..]) }

  lemma {:induction false} EscapedLength(s: string)
    ensures |Escaped(s)| == |s| + Quotes(s)
  {
    if s == "" {
    } else {
      EscapedLength(s[1..]);
    }
  }

  /** A field is printed as it is unless it has a comma, a quote or a line feed; then it stands
      between quotes, and each quote inside takes one character more. */
  lemma FieldShape(s: string)
    ensures (forall i :: 0 <= i < |s| ==> s[i] != ',' && s[i] != '"' && s[i] != '\n') ==> CsvField(s) == s
    ensures (exists i :: 0 <= i < |s| && (s[i] == ',' || s[i] == '"' || s[i] == '\n')) ==>
      var f := CsvField(s);
      |f| == |s| + 2 + Quotes(s) && f[0] == '"' && f[|f| - 1] == '"'
  {
    EscapedLength(s);
    hide Escaped, Quotes;
  }

  /** One row of the documented example, as the code prints it. */
  lemma RowIs(x: Item, format: real -> string, mark: string, sim: string)
    requires Mark(x.origin) == mark && format(x.similarity) == sim && Plain(x.content)
    ensures RenderRow(RowOf(x, format)) == "  " + mark + "," + sim + "," + x.content + "\n"
  {
    hide Mark, Escaped;
  }

  lemma ThreeRows(rows: seq<Row>)
    requires |rows| == 3
    ensures RenderRows(rows) == RenderRow(rows[0]) + RenderRow(rows[1]) + RenderRow(rows[2])
  {
    hide RenderRow, RenderRows;
    RowsNext(rows, 0);
    RowsNext(rows, 1);
    RowsNext(rows, 2);
    NoRows();
    assert rows[..0] == [] && rows[..3] == rows;
  }

  lemma ThreeItems()
    ensures Header(3) == "items[" + "3" + "]:\n" + "  src,sim,text\n"
  {
    HexIs(3);
  }

  lemma MarkOf(o: HitOrigin, d: char)
    requires o.Remote? && '0' <= d <= '9' && o.tenantId[0] as int / 16 == d as int - '0' as int
    ensures Mark(o) == [d]
  {
    MarkIs(o);
    hide Mark;
  }

  lemma PlainTexts()
    ensures Plain("local note") && Plain("peer note one") && Plain("peer note two")
  {
  }

  /** The documented example, except that the documentation shows the texts in quotes. */
  lemma DocumentedShape(x: Item, y: Item, z: Item, format: real -> string)
    requires x.origin == Local && x.content == "local note" && format(x.similarity) == "0.95"
    requires y.origin.Remote? && y.origin.tenantId[0] == 0x2a
    requires y.content == "peer note one" && format(y.similarity) == "0.80"
    requires z.origin.Remote? && z.origin.tenantId[0] == 0x3f
    requires z.content == "peer note two" && format(z.similarity) == "0.70"
    ensures Header(3) + RenderRows(Rows([x, y, z], format))
         == ("items[" + "3" + "]:\n" + "  src,sim,text\n")
            + (("  " + "L" + "," + "0.95" + "," + "local note" + "\n")
               + ("  " + "2" + "," + "0.80" + "," + "peer note one" + "\n")
               + ("  " + "3" + "," + "0.70" + "," + "peer note two" + "\n"))
  {
    MarkIs(x.origin);
    MarkOf(y.origin, '2');
    MarkOf(z.origin, '3');
    PlainTexts();
    ThreeItems();
    hide Header, RenderRow, RenderRows, RowOf, Mark, Plain;
    RowIs(x, format, "L", "0.95");
    RowIs(y, format, "2", "0.80");
    RowIs(z, format, "3", "0.70");
    ThreeRows(Rows([x, y, z], format));
  }
}
