/** Suboption parsing of m_option.c: key, key=value, key="value" and key=%length%value, separated by colons. */
module Subconf {
  import opened Common

  const M_OPT_MISSING_PARAM := -2
  const M_OPT_INVALID := -3
  const INT_LIMIT := 0x8000_0000

  // ---------- numbers ----------

  function Spaces(s: string): (n: nat)
    ensures n <= |s|
  {
    if s != "" && IsSpace(s[0]) then 1 + Spaces(s[1..]) else 0
  }

  /** How many digits a text starts with. */
  function DigitCount(s: string, base: nat): (n: nat)
    ensures n <= |s|
  {
    if s != "" && Digit(s[0]) < base then 1 + DigitCount(s[1..], base) else 0
  }

  function Value(s: string, base: nat): nat {
    if s == "" then 0 else Value(s[..|s| - 1], base) * base + Digit(s[|s| - 1])
  }

  /** `strtoll` with base 0 on a text without leading space: the value, and how much was used. */
  function StrToLL(s: string): (r: (int, nat))
    ensures r.1 <= |s|
  {
    var sign := if s != "" && (s[0] == '-' || s[0] == '+') then 1 else 0;
    var t := s[sign..];
    var hex := |t| > 2 && t[0] == '0' && (t[1] == 'x' || t[1] == 'X') && Digit(t[2]) < 16;
    var base := if hex then 16 else if t != "" && t[0] == '0' then 8 else 10;
    var digits := if hex then t[2..] else t;
    var n := DigitCount(digits, base);
    if n == 0 then (0, 0)
    else
      var v: int := Value(digits[..n], base);
      (Saturated(if sign == 1 && s[0] == '-' then -v else v), sign + (if hex then 2 else 0) + n)
  }

  function Saturated(v: int): int {
    if v > 0x7fff_ffff_ffff_ffff then 0x7fff_ffff_ffff_ffff
    else if v < -0x8000_0000_0000_0000 then -0x8000_0000_0000_0000
    else v
  }

  /** Conversion from `long long` to `int`. */
  function ToInt(v: int): (r: int)
    ensures -INT_LIMIT <= r < INT_LIMIT
  {
    (v + INT_LIMIT) % 0x1_0000_0000 - INT_LIMIT
  }

  /** `bstrtoll`: skip space and convert at most 50 characters. */
  function BstrToLL(s: string): (r: (int, nat))
    ensures r.1 <= |s|
  {
    var k := Spaces(s);
    var t := s[k..];
    var r := StrToLL(if |t| > 50 then t[..50] else t);
    (r.0, k + r.1)
  }

  // ---------- one suboption ----------

  function Min(a: int, b: int): int { if a < b then a else b }
  function Max(a: int, b: int): int { if a < b then b else a }

  /** `bstr_splice`. */
  function Splice(s: string, start: int, end: int): string
    requires 0 <= start <= |s|
  {
    var e := Max(Min(if end < 0 then end + |s| else end, |s|), start);
    s[start..e]
  }

  /** `bstrcspn`: a NUL byte always ends the span. */
  function Span(s: string, stop: string): (k: nat)
    ensures k <= |s|
  {
    if s == "" || s[0] in stop || s[0] == NUL then 0 else 1 + Span(s[1..], stop)
  }

  predicate Starts(s: string, c: char) {
    s != "" && s[0] == c
  }

  /** A suboption at the start of a text: where it ends, relative to the start of the text. */
  datatype Field = Bad | Field(key: string, value: string, end: nat)

  function Quoted(key: string, s: string, at: nat): Field {
    var k := Span(s, "\"");
    if Starts(s[k..], '"') then Field(key, s[..k], at + k + 1) else Bad
  }

  /** The test of an `int` length against the rest of the text is unsigned: a negative length converts to a size
      past the end of any text. */
  predicate TooLong(optlen: int, room: int) {
    optlen < 0 || optlen > room
  }

  function Sized(key: string, s: string, at: nat): Field {
    var (v, used) := BstrToLL(s);
    var t := s[used..];
    if !Starts(t, '%') || TooLong(ToInt(v), |t| - 1) then Bad
    else Field(key, Splice(t, 1, ToInt(v) + 1), at + used + ToInt(v) + 1)
  }

  function PlainTo(key: string, s: string, at: nat): Field {
    var e := Span(s, ":");
    Field(key, s[..e], at + e)
  }

  /** What comes after the key, at position `at`. */
  function ValueOf(key: string, p: string, at: nat): Field {
    if !Starts(p, '=') then Field(key, "", at)
    else if Starts(p[1..], '"') then Quoted(key, p[2..], at + 2)
    else if Starts(p[1..], '%') then Sized(key, p[2..], at + 2)
    else PlainTo(key, p[1..], at + 1)
  }

  function FieldOf(s: string): Field {
    var k := Span(s, ":=");
    ValueOf(s[..k], s[k..], k)
  }

  /** One pass of the loop from position `p`: the suboption and the position of the next one. */
  datatype Pass = Invalid | Got(key: string, value: string, next: nat)

  function PassAt(s: string, p: nat): Pass
    requires p < |s|
  {
    match FieldOf(s[p..])
    case Bad => Invalid
    case Field(key, value, end) =>
      if p + end < |s| then if s[p + end] == ':' then Got(key, value, p + end + 1) else Invalid
      else Got(key, value, p + end)
  }

  // ---------- what is used up ----------

  lemma FieldEnd(r: string)
    requires r != "" && FieldOf(r).Field?
    ensures FieldOf(r).end <= |r|
    ensures FieldOf(r).end == 0 ==> r[0] == ':' || r[0] == NUL
  {
    var k := Span(r, ":=");
    hide BstrToLL, Splice, ToInt;
    if k == 0 {
      assert r[0] == '=' || r[0] == ':' || r[0] == NUL;
    }
  }

  /** Every pass of the loop uses up some of the parameter, and no more than there is. */
  lemma PassConsumes(s: string, p: nat)
    requires p < |s| && PassAt(s, p).Got?
    ensures p < PassAt(s, p).next <= |s|
  {
    var r := s[p..];
    assert r[0] == s[p];
    hide FieldOf;
    FieldEnd(r);
  }

  // ---------- the whole parameter ----------

  datatype Outcome = Pairs(list: seq<(string, string)>) | Malformed

  /** The suboptions from a position on. */
  function Parse(s: string, p: nat): Outcome
    requires p <= |s|
    decreases |s| - p
  {
    if p == |s| then Pairs([])
    else
      match PassAt(s, p)
      case Invalid => Malformed
      case Got(key, value, next) =>
        assert p < next <= |s| by { PassConsumes(s, p); }
        var rest := Parse(s, next);
        if rest.Pairs? then Pairs([(key, value)] + rest.list) else rest
  }

  // ---------- printing ----------

  datatype Form = Flag | Plain | InQuotes | WithSize

  datatype Item = Item(key: string, value: string, form: Form)

  function Dec(n: nat): (s: string)
    ensures s != ""
  {
    (if n < 10 then "" else Dec(n / 10)) + [('0' as int + n % 10) as char]
  }

  function PrintItem(it: Item): string {
    match it.form
    case Flag => it.key
    case Plain => it.key + "=" + it.value
    case InQuotes => it.key + "=\"" + it.value + "\""
    case WithSize => it.key + "=%" + Dec(|it.value|) + "%" + it.value
  }

  function Print(items: seq<Item>): string {
    if items == [] then ""
    else if |items| == 1 then PrintItem(items[0])
    else PrintItem(items[0]) + ":" + Print(items[1..])
  }

  predicate FreeOf(s: string, stop: string) {
    forall c :: c in s ==> c !in stop && c != NUL
  }

  /** A value may be written in any form it fits; with its size it always fits. */
  predicate Fits(it: Item) {
    && FreeOf(it.key, ":=")
    && match it.form
       case Flag => it.value == ""
       case Plain => FreeOf(it.value, ":") && (it.value != "" ==> it.value[0] != '"' && it.value[0] != '%')
       case InQuotes => FreeOf(it.value, "\"")
       case WithSize => |it.value| < INT_LIMIT
  }

  /** An empty key without a value, which prints as nothing. */
  predicate Blank(it: Item) {
    it.form == Flag && it.key == ""
  }

  function PairsOf(items: seq<Item>): seq<(string, string)> {
    if items == [] then [] else [(items[0].key, items[0].value)] + PairsOf(items[1..])
  }

  lemma {:induction false} SpanTo(s: string, rest: string, stop: string)
    requires FreeOf(s, stop) && (rest == "" || rest[0] in stop || rest[0] == NUL)
    ensures Span(s + rest, stop) == |s|
  {
    if s == "" {
      assert s + rest == rest;
    } else {
      assert s[0] in s;
      assert (s + rest)[1..] == s[1..] + rest;
      SpanTo(s[1..], rest, stop);
    }
  }

  lemma {:induction false} DecDigits(n: nat)
    ensures forall i :: 0 <= i < |Dec(n)| ==> Digit(Dec(n)[i]) < 10
    ensures Value(Dec(n), 10) == n
    ensures n > 0 ==> Dec(n)[0] != '0'
    ensures n == 0 ==> Dec(n) == "0"
  {
    var s := Dec(n);
    assert s[..|s| - 1] == if n < 10 then "" else Dec(n / 10);
    if n >= 10 {
      DecDigits(n / 10);
    }
  }

  lemma {:induction false} DecLength(n: nat, k: nat, bound: nat)
    requires n < bound && bound == Pow10(k) && k > 0
    ensures |Dec(n)| <= k
  {
    if n >= 10 {
      DecLength(n / 10, k - 1, bound / 10);
    }
  }

  function Pow10(k: nat): nat { if k == 0 then 1 else 10 * Pow10(k - 1) }

  lemma {:induction false} DigitRun(s: string, rest: string, base: nat)
    requires (forall i :: 0 <= i < |s| ==> Digit(s[i]) < base) && (rest == "" || Digit(rest[0]) >= base)
    ensures DigitCount(s + rest, base) == |s|
  {
    if s == "" {
      assert s + rest == rest;
    } else {
      assert (s + rest)[1..] == s[1..] + rest;
      DigitRun(s[1..], rest, base);
    }
  }

  lemma ReadDigits(n: nat, more: string)
    requires n < INT_LIMIT && more != "" && more[0] == '%'
    ensures StrToLL(Dec(n) + more) == (n, |Dec(n)|)
  {
    DecDigits(n);
    if n == 0 {
      assert DigitCount("0" + more, 8) == 1 by { DigitRun("0", more, 8); }
      assert ("0" + more)[0..] == "0" + more && ("0" + more)[..1] == "0" && ("0" + more)[1] == '%';
      ReadZero();
    } else {
      ReadPositive(n, Dec(n), more);
    }
  }

  lemma ReadPositive(n: nat, d: string, more: string)
    requires 0 < n < INT_LIMIT && more != "" && more[0] == '%' && d != "" && d[0] != '0'
    requires Value(d, 10) == n && forall i :: 0 <= i < |d| ==> Digit(d[i]) < 10
    ensures StrToLL(d + more) == (n, |d|)
  {
    var u := d + more;
    assert u[0] == d[0] && Digit(u[0]) < 10 && u[0..] == u && u[..|d|] == d;
    DigitRun(d, more, 10);
    hide Value, DigitCount;
  }

  lemma ReadZero()
    ensures Value("0", 8) == 0
  {
    assert "0"[..0] == "";
    assert Value("", 8) == 0;
  }

  lemma {:induction false} ValueZero(d: string, base: nat)
    ensures Value("0" + d, base) == Value(d, base)
    decreases |d|
  {
    if d == "" {
      assert ("0" + d)[..0] == "" && ("0" + d)[0] == '0' && |"0" + d| == 1;
      assert Value("", base) == 0;
    } else {
      assert ("0" + d)[..|"0" + d| - 1] == "0" + d[..|d| - 1];
      ValueZero(d[..|d| - 1], base);
    }
  }

  predicate IsSign(s: string) {
    s == "" || s == "-" || s == "+"
  }

  /** An unsigned text is read in this base, from here on. */
  predicate BaseOf(t: string, skip: nat, base: nat) {
    && t != "" && t[0] != '-' && t[0] != '+' && skip <= |t|
    && var hex := |t| > 2 && t[0] == '0' && (t[1] == 'x' || t[1] == 'X') && Digit(t[2]) < 16;
       skip == (if hex then 2 else 0) && base == if hex then 16 else if t[0] == '0' then 8 else 10
  }

  /** A number is read from what follows its sign: the base, the digits, and how many there are. */
  lemma ReadAs(sign: string, t: string, skip: nat, base: nat, n: nat)
    requires IsSign(sign)
    requires BaseOf(t, skip, base)
    requires n == DigitCount(t[skip..], base) > 0
    ensures var v: int := Value(t[skip..][..n], base);
      StrToLL(sign + t) == (Saturated(if sign == "-" then -v else v), |sign| + skip + n)
  {
    hide Value, DigitCount, Saturated, Digit;
    var s := sign + t;
    assert s[|sign|..] == t;
    assert sign == "" ==> s == t;
    assert t[0..] == t;
  }

  lemma TakeRun(d: string, more: string, base: nat)
    requires (forall i :: 0 <= i < |d| ==> Digit(d[i]) < base) && (more == "" || Digit(more[0]) >= base)
    ensures DigitCount(d + more, base) == |d| && (d + more)[..|d|] == d
  {
    DigitRun(d, more, base);
  }

  /** Hexadecimal numbers. */
  lemma ReadHex(sign: string, x: char, d: string, more: string)
    requires IsSign(sign) && (x == 'x' || x == 'X') && d != ""
    requires (forall i :: 0 <= i < |d| ==> Digit(d[i]) < 16) && (more == "" || Digit(more[0]) >= 16)
    ensures var v: int := Value(d, 16);
      StrToLL(sign + (['0', x] + (d + more))) == (Saturated(if sign == "-" then -v else v), |sign| + 2 + |d|)
  {
    hide *;
    TakeRun(d, more, 16);
    HexParts(x, d, more);
    ReadAs(sign, ['0', x] + (d + more), 2, 16, |d|);
  }

  lemma HexParts(x: char, d: string, more: string)
    requires d != "" && Digit(d[0]) < 16 && (x == 'x' || x == 'X')
    ensures var t := ['0', x] + (d + more);
      BaseOf(t, 2, 16) && t[2..] == d + more
  {
    assert (['0', x] + (d + more))[2] == d[0];
  }

  /** Octal numbers. */
  lemma ReadOct(sign: string, d: string, more: string)
    requires IsSign(sign) && d != ""
    requires (forall i :: 0 <= i < |d| ==> Digit(d[i]) < 8) && (more == "" || Digit(more[0]) >= 8)
    ensures var v: int := Value(d, 8);
      StrToLL(sign + ("0" + d + more)) == (Saturated(if sign == "-" then -v else v), |sign| + 1 + |d|)
  {
    hide *;
    OctParts(d, more);
    ReadAs(sign, "0" + d + more, 0, 8, |d| + 1);
    ValueZero(d, 8);
  }

  lemma OctParts(d: string, more: string)
    requires d != "" && (forall i :: 0 <= i < |d| ==> Digit(d[i]) < 8) && (more == "" || Digit(more[0]) >= 8)
    ensures var t := "0" + d + more;
      BaseOf(t, 0, 8) && t[0..] == t && DigitCount(t, 8) == |d| + 1 && t[..|d| + 1] == "0" + d
  {
    NotX(d[0]);
    assert ("0" + d + more)[1] == d[0];
    hide Digit, DigitCount;
    ZeroDigit();
    TakeRun("0" + d, more, 8);
  }

  lemma ZeroDigit()
    ensures Digit('0') == 0
  {}

  lemma NotX(c: char)
    requires Digit(c) < 16
    ensures c != 'x' && c != 'X' && c != '-' && c != '+'
  {}

  /** Decimal numbers. */
  lemma ReadTen(sign: string, d: string, more: string)
    requires IsSign(sign) && d != "" && d[0] != '0'
    requires (forall i :: 0 <= i < |d| ==> Digit(d[i]) < 10) && (more == "" || Digit(more[0]) >= 10)
    ensures var v: int := Value(d, 10);
      StrToLL(sign + (d + more)) == (Saturated(if sign == "-" then -v else v), |sign| + |d|)
  {
    hide *;
    TakeRun(d, more, 10);
    TenParts(d, more);
    ReadAs(sign, d + more, 0, 10, |d|);
  }

  lemma TenParts(d: string, more: string)
    requires d != "" && d[0] != '0' && Digit(d[0]) < 10
    ensures var t := d + more; BaseOf(t, 0, 10) && t[0..] == t
  {
    assert (d + more)[0] == d[0];
  }

  lemma DecShort(n: nat)
    requires n < INT_LIMIT
    ensures |Dec(n)| <= 10
  {
    assert Pow10(10) == 10_000_000_000 by { assert Pow10(5) == 100_000; }
    DecLength(n, 10, 10_000_000_000);
  }

  /** A printed length reads back. */
  lemma ReadDec(n: nat, rest: string)
    requires n < INT_LIMIT
    ensures BstrToLL(Dec(n) + "%" + rest) == (n, |Dec(n)|) && ToInt(n) == n
  {
    var d := Dec(n);
    var s := d + "%" + rest;
    DecDigits(n);
    DecShort(n);
    assert Digit(d[0]) < 10;
    hide *;
    NoSpace(d, "%" + rest);
    assert d + ("%" + rest) == s;
    BstrNoSpace(s);
    ToIntSmall(n);
    CutNumber(d, rest);
    ReadDigits(n, (if |s| > 50 then s[..50] else s)[|d|..]);
  }

  lemma CutNumber(d: string, rest: string)
    requires |d| <= 10
    ensures var s := d + "%" + rest;
      var u := if |s| > 50 then s[..50] else s;
      |u| > |d| && u == d + u[|d|..] && u[|d|..][0] == '%'
  {}

  lemma BstrNoSpace(s: string)
    requires Spaces(s) == 0
    ensures BstrToLL(s) == StrToLL(if |s| > 50 then s[..50] else s)
  {
    assert s[0..] == s;
    hide StrToLL;
  }

  lemma ToIntSmall(n: nat)
    requires n < INT_LIMIT
    ensures ToInt(n) == n
  {}

  lemma NoSpace(d: string, rest: string)
    requires d != "" && Digit(d[0]) < 10
    ensures Spaces(d + rest) == 0
  {
    assert (d + rest)[0] == d[0];
  }

  lemma KeyPrinted(key: string, after: string)
    requires FreeOf(key, ":=") && (after == "" || after[0] == ':' || after[0] == '=')
    ensures Span(key + after, ":=") == |key| && (key + after)[..|key|] == key && (key + after)[|key|..] == after
  {
    SpanTo(key, after, ":=");
  }

  lemma FieldIs(key: string, after: string)
    requires FreeOf(key, ":=") && (after == "" || after[0] == ':' || after[0] == '=')
    ensures FieldOf(key + after) == ValueOf(key, after, |key|)
  {
    KeyPrinted(key, after);
    hide ValueOf, Span;
  }

  lemma PlainPrinted(key: string, value: string, tail: string)
    requires FreeOf(value, ":") && (value != "" ==> value[0] != '"' && value[0] != '%')
    requires tail == "" || tail[0] == ':'
    ensures ValueOf(key, "=" + value + tail, |key|) == Field(key, value, |key| + 1 + |value|)
  {
    var after := "=" + value + tail;
    assert after[1..] == value + tail;
    SpanTo(value, tail, ":");
    hide Span;
    assert (value + tail)[..|value|] == value;
    assert value == "" ==> value + tail == tail;
    assert value != "" ==> (value + tail)[0] == value[0];
  }

  lemma QuotedPrinted(key: string, value: string, tail: string)
    requires FreeOf(value, "\"")
    ensures ValueOf(key, "=\"" + value + "\"" + tail, |key|) == Field(key, value, |key| + 3 + |value|)
  {
    var after := "=\"" + value + "\"" + tail;
    var q := "\"" + tail;
    assert after[0] == '=' && after[2..] == value + q && after[1..][0] == '"';
    SpanTo(value, q, "\"");
    hide Span;
    assert (value + q)[..|value|] == value && (value + q)[|value|..] == q;
  }

  lemma SizedPrinted(key: string, value: string, tail: string)
    requires |value| < INT_LIMIT
    ensures ValueOf(key, "=%" + Dec(|value|) + "%" + value + tail, |key|) ==
      Field(key, value, |key| + 3 + |Dec(|value|)| + |value|)
  {
    var d := Dec(|value|);
    var after := "=%" + d + "%" + value + tail;
    var num := d + "%" + (value + tail);
    ReadDec(|value|, value + tail);
    SizedIs(key, d, value, tail, |key| + 2);
    hide *;
    AfterSized(d, value, tail);
    ValueSized(key, after, |key|);
  }

  lemma AfterSized(d: string, value: string, tail: string)
    ensures var after := "=%" + d + "%" + value + tail;
      |after| > 1 && after[0] == '=' && after[1] == '%' && after[2..] == d + "%" + (value + tail)
  {}

  lemma ValueSized(key: string, p: string, at: nat)
    requires |p| > 1 && p[0] == '=' && p[1] == '%'
    ensures ValueOf(key, p, at) == Sized(key, p[2..], at + 2)
  {
    assert p[1..][0] == p[1];
    hide Sized;
  }

  lemma SizedIs(key: string, d: string, value: string, tail: string, at: nat)
    requires BstrToLL(d + "%" + (value + tail)) == (|value|, |d|) && ToInt(|value|) == |value|
    ensures Sized(key, d + "%" + (value + tail), at) == Field(key, value, at + |d| + |value| + 1)
  {
    hide BstrToLL, ToInt;
    var t := (d + "%" + (value + tail))[|d|..];
    assert t == "%" + value + tail;
    assert t[1..|value| + 1] == value;
  }

  lemma PlainField(key: string, value: string, tail: string)
    requires FreeOf(key, ":=") && FreeOf(value, ":") && (value != "" ==> value[0] != '"' && value[0] != '%')
    requires tail == "" || tail[0] == ':'
    ensures FieldOf(key + "=" + value + tail) == Field(key, value, |key| + 1 + |value|)
  {
    hide FieldOf, ValueOf;
    PlainPrinted(key, value, tail);
    FieldIs(key, "=" + value + tail);
    assert key + "=" + value + tail == key + ("=" + value + tail);
  }

  lemma QuotedField(key: string, value: string, tail: string)
    requires FreeOf(key, ":=") && FreeOf(value, "\"")
    ensures FieldOf(key + "=\"" + value + "\"" + tail) == Field(key, value, |key| + 3 + |value|)
  {
    hide FieldOf, ValueOf;
    QuotedPrinted(key, value, tail);
    FieldIs(key, "=\"" + value + "\"" + tail);
    assert key + "=\"" + value + "\"" + tail == key + ("=\"" + value + "\"" + tail);
  }

  lemma SizedField(key: string, value: string, tail: string)
    requires FreeOf(key, ":=") && |value| < INT_LIMIT
    ensures FieldOf(key + "=%" + Dec(|value|) + "%" + value + tail) ==
      Field(key, value, |key| + 3 + |Dec(|value|)| + |value|)
  {
    hide FieldOf, ValueOf, Dec;
    SizedPrinted(key, value, tail);
    var d := Dec(|value|);
    FieldIs(key, "=%" + d + "%" + value + tail);
    assert key + "=%" + d + "%" + value + tail == key + ("=%" + d + "%" + value + tail);
  }

  /** A printed suboption reads back, whatever form it was written in. */
  lemma FieldPrinted(it: Item, tail: string)
    requires Fits(it) && (tail == "" || tail[0] == ':')
    ensures FieldOf(PrintItem(it) + tail) == Field(it.key, it.value, |PrintItem(it)|)
  {
    hide FieldOf, Dec, FreeOf;
    match it.form
    case Flag =>
      FieldIs(it.key, tail);
      FlagValue(it.key, tail);
    case Plain => PlainField(it.key, it.value, tail);
    case InQuotes => QuotedField(it.key, it.value, tail);
    case WithSize => SizedField(it.key, it.value, tail);
  }

  lemma FlagValue(key: string, tail: string)
    requires tail == "" || tail[0] == ':'
    ensures ValueOf(key, tail, |key|) == Field(key, "", |key|)
  {}

  // ---------- round trip ----------

  lemma PassPrinted(pre: string, it: Item, tail: string)
    requires Fits(it) && (tail == "" || tail[0] == ':') && PrintItem(it) + tail != ""
    ensures PassAt(pre + (PrintItem(it) + tail), |pre|) ==
      Got(it.key, it.value, |pre| + |PrintItem(it)| + if tail == "" then 0 else 1)
  {
    FieldPrinted(it, tail);
    hide FieldOf, Fits, PrintItem;
    var s := pre + (PrintItem(it) + tail);
    assert s[|pre|..] == PrintItem(it) + tail;
    assert tail != "" ==> s[|pre| + |PrintItem(it)|] == tail[0];
  }

  lemma ParseStep(s: string, p: nat)
    requires p < |s| && PassAt(s, p).Got?
    ensures p < PassAt(s, p).next <= |s|
    ensures var pass := PassAt(s, p);
      var rest := Parse(s, pass.next);
      Parse(s, p) == if rest.Pairs? then Pairs([(pass.key, pass.value)] + rest.list) else rest
  {
    hide PassAt;
    PassConsumes(s, p);
  }

  lemma ParseLast(pre: string, it: Item)
    requires Fits(it)
    ensures Parse(pre + PrintItem(it), |pre|) == Pairs([(it.key, it.value)]) <==> !Blank(it)
  {
    hide PassAt, Fits, PrintItem, Parse, Blank;
    var s := pre + PrintItem(it);
    BlankPrints(it);
    ParseEnd(s);
    if PrintItem(it) != "" {
      assert PrintItem(it) + "" == PrintItem(it);
      PassPrinted(pre, it, "");
      ParseStep(s, |pre|);
    }
  }

  lemma BlankPrints(it: Item)
    requires Fits(it)
    ensures PrintItem(it) == "" <==> Blank(it)
  {}

  lemma ParseEnd(s: string)
    ensures Parse(s, |s|) == Pairs([])
  {}

  lemma ParseFirst(pre: string, it: Item, more: string)
    requires Fits(it)
    ensures var s := pre + (PrintItem(it) + (":" + more));
      var rest := Parse(s, |pre| + |PrintItem(it)| + 1);
      Parse(s, |pre|) == if rest.Pairs? then Pairs([(it.key, it.value)] + rest.list) else rest
  {
    hide *;
    PassPrinted(pre, it, ":" + more);
    ParseStep(pre + (PrintItem(it) + (":" + more)), |pre|);
  }

  lemma SameTail(head: (string, string), rest: Outcome, list: seq<(string, string)>)
    ensures (if rest.Pairs? then Pairs([head] + rest.list) else rest) == Pairs([head] + list) <==> rest == Pairs(list)
  {
    assert rest.Pairs? ==> ([head] + rest.list)[1..] == rest.list;
    assert ([head] + list)[1..] == list;
  }

  /** A list of suboptions reads back exactly if it is not empty and does not end in a blank one. */
  lemma {:induction false} ParsePrinted(pre: string, items: seq<Item>)
    requires items != [] && forall it :: it in items ==> Fits(it)
    ensures Parse(pre + Print(items), |pre|) == Pairs(PairsOf(items)) <==> !Blank(items[|items| - 1])
    decreases |items|
  {
    hide *;
    var it, more := items[0], items[1..];
    assert it in items;
    PrintSplit(items);
    PairsSplit(items);
    if |items| == 1 {
      ParseLast(pre, it);
    } else {
      var text := PrintItem(it);
      ParsePrinted(pre + text + ":", more);
      assert more[|more| - 1] == items[|items| - 1];
      ParseFirst(pre, it, Print(more));
      assert (pre + text + ":") + Print(more) == pre + (text + (":" + Print(more)));
      SameTail((it.key, it.value), Parse(pre + Print(items), |pre| + |text| + 1), PairsOf(more));
    }
  }

  lemma PrintSplit(items: seq<Item>)
    requires items != []
    ensures Print(items) ==
      if |items| == 1 then PrintItem(items[0]) else PrintItem(items[0]) + (":" + Print(items[1..]))
  {
    hide PrintItem;
  }

  lemma PairsSplit(items: seq<Item>)
    requires items != []
    ensures PairsOf(items) == [(items[0].key, items[0].value)] + PairsOf(items[1..])
    ensures |items| == 1 ==> PairsOf(items) == [(items[0].key, items[0].value)]
  {
    if |items| == 1 {
      assert PairsOf(items[1..]) == [];
    }
  }

  // ---------- what does not read ----------

  /** The pass that meets this text refuses it. */
  ghost predicate Refused(bad: string) {
    forall pre: string :: bad != "" && PassAt(pre + bad, |pre|) == Invalid
  }

  ghost function Before(items: seq<Item>): string {
    if items == [] then "" else PrintItem(items[0]) + ":" + Before(items[1..])
  }

  /** Suboptions that are in order do not help one that is not. */
  lemma {:induction false} ParseRefused(pre: string, items: seq<Item>, bad: string)
    requires Refused(bad) && forall it :: it in items ==> Fits(it)
    ensures Parse(pre + (Before(items) + bad), |pre|) == Malformed
    decreases |items|
  {
    hide *;
    BeforeSplit(items);
    if items == [] {
      assert Before(items) + bad == bad;
      ParseInvalid(pre, bad);
    } else {
      var it, more := items[0], Before(items[1..]) + bad;
      assert it in items;
      var text := PrintItem(it);
      ParseRefused(pre + text + ":", items[1..], bad);
      ParseFirst(pre, it, more);
      assert (pre + text + ":") + more == pre + (text + (":" + more));
      assert Before(items) + bad == text + (":" + more);
    }
  }

  lemma BeforeSplit(items: seq<Item>)
    ensures Before(items) == if items == [] then "" else PrintItem(items[0]) + ":" + Before(items[1..])
  {
    hide PrintItem;
  }

  lemma ParseInvalid(pre: string, bad: string)
    requires Refused(bad)
    ensures Parse(pre + bad, |pre|) == Malformed
  {
    hide PassAt;
    assert PassAt(pre + bad, |pre|) == Invalid;
  }

  lemma RefusedBy(bad: string)
    requires bad != ""
    requires FieldOf(bad) == Bad || (FieldOf(bad).end < |bad| && bad[FieldOf(bad).end] != ':')
    ensures Refused(bad)
  {
    hide FieldOf;
    forall pre: string ensures PassAt(pre + bad, |pre|) == Invalid {
      assert (pre + bad)[|pre|..] == bad;
      assert FieldOf(bad).Field? ==> (pre + bad)[|pre| + FieldOf(bad).end] == bad[FieldOf(bad).end];
    }
  }

  /** A quote that is not closed, and text behind one that is. */
  lemma BadQuotes(key: string, v: string, c: char, rest: string)
    requires FreeOf(key, ":=") && '"' !in v
    ensures Refused(key + "=\"" + v)
    ensures FreeOf(v, "\"") && c != ':' ==> Refused(key + "=\"" + v + "\"" + ([c] + rest))
  {
    hide FieldOf, ValueOf;
    var after := "=\"" + v;
    FieldIs(key, after);
    assert key + "=\"" + v == key + after;
    assert after[0] == '=' && after[2..] == v && after[1..][0] == '"';
    NoQuote(key, after, v);
    RefusedBy(key + after);
    if FreeOf(v, "\"") && c != ':' {
      var s := key + "=\"" + v + "\"" + ([c] + rest);
      QuotedField(key, v, [c] + rest);
      assert s[|key| + 3 + |v|] == c;
      RefusedBy(s);
    }
  }

  lemma NoQuote(key: string, after: string, v: string)
    requires |after| > 1 && after[0] == '=' && after[1] == '"' && after[2..] == v && '"' !in v
    ensures ValueOf(key, after, |key|) == Bad
  {
    assert after[1..][0] == '"';
    var k := Span(v, "\"");
    assert v[k..] != "" ==> v[k..][0] in v;
  }

  /** A size that is not followed by a percent sign, one that is negative, or one that is larger than what is left; and
      text behind a value of the right size. */
  lemma BadSizes(key: string, n: nat, v: string, c: char, rest: string)
    requires FreeOf(key, ":=") && n < INT_LIMIT
    ensures n > |v| ==> Refused(key + "=%" + Dec(n) + "%" + v)
    ensures 0 < n ==> Refused(key + "=%-" + Dec(n) + "%" + v)
    ensures c != '%' && Digit(c) >= 10 && c !in "xX" ==> Refused(key + "=%" + Dec(n) + ([c] + rest))
    ensures c != ':' && |v| == n ==> Refused(key + "=%" + Dec(n) + "%" + v + ([c] + rest))
  {
    if n > |v| {
      TooLarge(key, n, v);
    }
    if 0 < n {
      Negative(key, n, v);
    }
    if c != '%' && Digit(c) >= 10 && c !in "xX" {
      NoPercent(key, n, c, rest);
    }
    if c != ':' && |v| == n {
      SizedField(key, v, [c] + rest);
      var s := key + "=%" + Dec(n) + "%" + v + ([c] + rest);
      hide *;
      assert s[|key| + 3 + |Dec(n)| + |v|] == c;
      RefusedBy(s);
    }
  }

  /** The field of a key and `=%` is decided by what comes after them. */
  lemma SizedHere(key: string, t: string)
    requires FreeOf(key, ":=") && Sized(key, t, |key| + 2) == Bad
    ensures Refused(key + ("=%" + t))
  {
    hide FieldOf, ValueOf, Sized, Refused;
    var after := "=%" + t;
    FieldIs(key, after);
    assert after[0] == '=' && after[1] == '%' && after[2..] == t;
    ValueSized(key, after, |key|);
    RefusedBy(key + after);
  }

  lemma TooLarge(key: string, n: nat, v: string)
    requires FreeOf(key, ":=") && n < INT_LIMIT && n > |v|
    ensures Refused(key + "=%" + Dec(n) + "%" + v)
  {
    hide FieldOf, ValueOf, BstrToLL, Dec, Refused;
    var t := Dec(n) + "%" + v;
    ReadDec(n, v);
    assert t[|Dec(n)|..] == "%" + v;
    SizedHere(key, t);
    assert key + "=%" + Dec(n) + "%" + v == key + ("=%" + t);
  }

  lemma Negative(key: string, n: nat, v: string)
    requires FreeOf(key, ":=") && 0 < n < INT_LIMIT
    ensures Refused(key + "=%-" + Dec(n) + "%" + v)
  {
    hide FieldOf, ValueOf, BstrToLL, Dec, Refused;
    var t := "-" + Dec(n) + "%" + v;
    ReadNegative(n, v);
    assert t[|Dec(n)| + 1..] == "%" + v;
    SizedHere(key, t);
    assert key + "=%-" + Dec(n) + "%" + v == key + ("=%" + t);
  }

  lemma ReadNegative(n: nat, rest: string)
    requires 0 < n < INT_LIMIT
    ensures BstrToLL("-" + Dec(n) + "%" + rest) == (-(n as int), |Dec(n)| + 1) && ToInt(-(n as int)) < 0
  {
    hide StrToLL, Value, Dec, DigitCount;
    var d := Dec(n);
    var s := "-" + d + "%" + rest;
    DecDigits(n);
    DecShort(n);
    assert s[0] == '-';
    var u := if |s| > 50 then s[..50] else s;
    var more := u[|d| + 1..];
    assert u == "-" + (d + more) && more[0] == '%';
    ReadTen("-", d, more);
    assert Spaces(s) == 0;
    BstrNoSpace(s);
  }

  lemma NoPercent(key: string, n: nat, c: char, rest: string)
    requires FreeOf(key, ":=") && n < INT_LIMIT && c != '%' && Digit(c) >= 10 && c !in "xX"
    ensures Refused(key + "=%" + Dec(n) + ([c] + rest))
  {
    hide FieldOf, ValueOf, BstrToLL, Dec, Refused;
    var t := Dec(n) + ([c] + rest);
    ReadUpTo(n, c, rest);
    assert t[|Dec(n)|..] == [c] + rest;
    SizedHere(key, t);
    assert key + "=%" + Dec(n) + ([c] + rest) == key + ("=%" + t);
  }

  lemma ReadUpTo(n: nat, c: char, rest: string)
    requires n < INT_LIMIT && Digit(c) >= 10 && c !in "xX"
    ensures BstrToLL(Dec(n) + ([c] + rest)).1 == |Dec(n)|
  {
    hide StrToLL, Value, Dec, DigitCount, Digit;
    var d := Dec(n);
    var s := d + ([c] + rest);
    DecDigits(n);
    DecShort(n);
    NoSpace(d, [c] + rest);
    var u := if |s| > 50 then s[..50] else s;
    var more := u[|d|..];
    assert u == d + more && more[0] == c;
    if n == 0 {
      ReadNought(c, more);
    } else {
      ReadTen("", d, more);
      assert "" + (d + more) == u;
    }
    BstrNoSpace(s);
  }

  lemma ReadNought(c: char, more: string)
    requires more != "" && more[0] == c && Digit(c) >= 10 && c !in "xX"
    ensures StrToLL("0" + more).1 == 1
  {
    var t := "0" + more;
    assert t[1] == c && t[0..] == t && t[0] == '0';
    TakeRun("0", more, 8);
    assert BaseOf(t, 0, 8);
    hide DigitCount, Value;
    ReadAs("", t, 0, 8, 1);
    assert "" + t == t;
  }

  // ---------- the loop ----------

  /** `bstrcspn`. */
  method CSpan(s: string, stop: string) returns (i: nat)
    ensures i == Span(s, stop)
  {
    i := 0;
    while i < |s| && s[i] !in stop && s[i] != NUL
      invariant i <= |s| && Span(s, stop) == i + Span(s[i..], stop)
    {
      assert s[i..][1..] == s[i + 1..];
      i := i + 1;
    }
  }

  /** The value after the equals sign: the part of the loop body between the key and the separator. */
  method ReadValue(p: string) returns (ok: bool, subparam: string, used: nat)
    requires Starts(p, '=')
    ensures forall key, at: nat {:trigger ValueOf(key, p, at)} ::
      ValueOf(key, p, at) == if ok then Field(key, subparam, at + used) else Bad
  {
    var q := p[1..];
    if Starts(q, '"') {
      q := q[1..];
      assert q == p[2..];
      var optlen := CSpan(q, "\"");
      subparam := q[..optlen];
      q := q[optlen..];
      if !Starts(q, '"') {
        return false, "", 0;
      }
      ok, used := true, 2 + optlen + 1;
    } else if Starts(q, '%') {
      q := q[1..];
      assert q == p[2..];
      var (number, n) := BstrToLL(q);
      var optlen := ToInt(number);
      q := q[n..];
      if !Starts(q, '%') || TooLong(optlen, |q| - 1) {
        return false, "", 0;
      }
      subparam := Splice(q, 1, optlen + 1);
      ok, used := true, 2 + n + (optlen + 1);
    } else {
      var optlen := CSpan(q, ":");
      subparam := q[..optlen];
      ok, used := true, 1 + optlen;
    }
  }

  /** The body of the loop. */
  method OnePass(param: string, p: nat) returns (pass: Pass)
    requires p < |param|
    ensures pass == PassAt(param, p)
  {
    hide ValueOf, Span;
    var rest := param[p..];
    var optlen := CSpan(rest, ":=");
    var subopt, subparam, at := rest[..optlen], "", p + optlen;
    rest := rest[optlen..];
    if Starts(rest, '=') {
      var ok, v, used := ReadValue(rest);
      assert ValueOf(subopt, rest, optlen) == if ok then Field(subopt, v, optlen + used) else Bad;
      if !ok {
        return Invalid;
      }
      subparam, at := v, at + used;
    } else {
      NoValue(subopt, rest, optlen);
    }
    if at < |param| && param[at] == ':' {
      pass := Got(subopt, subparam, at + 1);
    } else if at < |param| {
      pass := Invalid;
    } else {
      pass := Got(subopt, subparam, at);
    }
  }

  lemma NoValue(key: string, p: string, at: nat)
    requires !Starts(p, '=')
    ensures ValueOf(key, p, at) == Field(key, "", at)
  {}

  /** `parse_subconf`. */
  method ParseSubconf(param: string) returns (code: int, list: seq<(string, string)>)
    ensures param == "" ==> code == -2
    ensures param != "" ==>
      match Parse(param, 0)
      case Pairs(l) => code == 1 && list == l
      case Malformed => code == -3
  {
    list := [];
    if param == "" {
      return M_OPT_MISSING_PARAM, [];
    }
    var p := 0;
    while p < |param|
      invariant p <= |param|
      invariant Parse(param, 0) == if Parse(param, p).Pairs? then Pairs(list + Parse(param, p).list) else Malformed
    {
      var pass := OnePass(param, p);
      match pass
      case Invalid =>
        return M_OPT_INVALID, list;
      case Got(key, value, next) =>
        PassConsumes(param, p);
        assert Parse(param, next).Pairs? ==>
          list + ([(key, value)] + Parse(param, next).list) == (list + [(key, value)]) + Parse(param, next).list;
        list := list + [(key, value)];
        p := next;
    }
    code := 1;
  }
}
