/** Lines and UTF-8 of bstr.c. */
module Bstr {
  import opened Common

  // ---------- lines ----------

  /** `bstr_getline`: the first line with its newline, and the rest. */
  method GetLine(s: string) returns (line: string, rest: string)
    ensures line + rest == s && (s != "" ==> line != "")
    ensures '\n' !in line || (line[|line| - 1] == '\n' && '\n' !in line[..|line| - 1])
    ensures rest != "" ==> '\n' in line
    ensures line == FirstLine(s)
  {
    var pos := StrChr(s, 0, '\n');
    assert s[0..] == s;
    var end := if pos + 1 < |s| then pos + 1 else |s|;
    line, rest := s[..end], s[end..];
    assert pos < |s| ==> line[pos] == '\n' && line[..pos] == s[..pos];
    assert forall j :: 0 <= j < pos ==> s[j] != '\n';
  }

  function FirstLine(s: string): (r: string)
    ensures |r| <= |s| && (s != "" ==> r != "")
  {
    var pos := Find(s, '\n');
    s[..if pos + 1 < |s| then pos + 1 else |s|]
  }

  /** The lines of a text, each with its newline. */
  function Lines(s: string): seq<string>
    decreases |s|
  {
    if s == "" then [] else [FirstLine(s)] + Lines(s[|FirstLine(s)|..])
  }

  function Flat(lines: seq<string>): string {
    if lines == [] then "" else lines[0] + Flat(lines[1..])
  }

  lemma FirstLineOf(s: string)
    ensures FirstLine(s) + s[|FirstLine(s)|..] == s
  {}

  /** The lines of a text make up the text. */
  lemma {:induction false} LinesFlat(s: string)
    ensures Flat(Lines(s)) == s
    decreases |s|
  {
    hide FirstLine;
    if s != "" {
      var line := FirstLine(s);
      LinesFlat(s[|line|..]);
      LinesStep(s);
      FirstLineOf(s);
    }
  }

  function Newlines(s: string): nat {
    if s == "" then 0 else Newlines(s[..|s| - 1]) + if s[|s| - 1] == '\n' then 1 else 0
  }

  function LineCount(s: string): nat {
    Newlines(s) + if s != "" && s[|s| - 1] != '\n' then 1 else 0
  }

  lemma {:induction false} NewlinesConcat(a: string, b: string)
    ensures Newlines(a + b) == Newlines(a) + Newlines(b)
    decreases |b|
  {
    if b == "" {
      assert a + b == a;
    } else {
      assert (a + b)[..|a + b| - 1] == a + b[..|b| - 1];
      NewlinesConcat(a, b[..|b| - 1]);
    }
  }

  lemma {:induction false} NoNewlines(s: string)
    requires '\n' !in s
    ensures Newlines(s) == 0
  {
    if s != "" {
      NoNewlines(s[..|s| - 1]);
    }
  }

  /** A text has as many lines as newlines, and one more if it does not end in one. */
  lemma {:induction false} CountLines(s: string)
    ensures |Lines(s)| == LineCount(s)
    decreases |s|
  {
    if s != "" {
      var line := FirstLine(s);
      var rest := s[|line|..];
      var pos := Find(s, '\n');
      CountLines(rest);
      assert s == line + rest;
      NewlinesConcat(line, rest);
      assert forall j :: 0 <= j < pos ==> s[j] != '\n';
      NoNewlines(s[..pos]);
      if pos < |s| {
        assert line[..pos] == s[..pos] && line[pos] == '\n';
      } else {
        assert line == s;
      }
      assert rest != "" ==> s[|s| - 1] == rest[|rest| - 1];
    }
  }

  /** `bstr_splitlines`: the same lines as taking off one line after the other, as places in the text. */
  method SplitLines(s: string) returns (r: array?<(nat, nat)>)
    ensures s == "" ==> r == null
    ensures s != "" ==> r != null && r.Length == |Lines(s)|
    ensures r != null ==> forall i :: 0 <= i < r.Length ==>
      r[i].0 + r[i].1 <= |s| && s[r[i].0..r[i].0 + r[i].1] == Lines(s)[i]
  {
    hide *;
    if s == "" {
      return null;
    }
    var count := CountPass(s);
    r := new (nat, nat)[count];
    var p := 0;
    assert s[0..] == s;
    for i := 0 to count - 1
      invariant p < |s| && count == |Lines(s)| && Lines(s[p..]) == Lines(s)[i..]
      invariant forall k :: 0 <= k < i ==>
        r[k].0 + r[k].1 <= |s| && s[r[k].0..r[k].0 + r[k].1] == Lines(s)[k]
    {
      var start := p;
      p := SkipLine(s, p);
      assert Lines(s)[i..][0] == s[start..p] && Lines(s[p..]) == Lines(s)[i..][1..];
      r[i] := (start, p - start);
    }
    LineAt(s, p);
    assert Lines(s)[count - 1..][0] == s[p..];
    r[count - 1] := (p, |s| - p);
  }

  method CountPass(s: string) returns (count: nat)
    requires s != ""
    ensures count == |Lines(s)| > 0
  {
    count := 0;
    for i := 0 to |s|
      invariant count == Newlines(s[..i])
    {
      assert s[..i + 1][..i] == s[..i];
      if s[i] == '\n' {
        count := count + 1;
      }
    }
    assert s[..|s|] == s;
    if s[|s| - 1] != '\n' {
      count := count + 1;
    }
    CountLines(s);
  }

  /** Past the next newline, when that is not the last line. */
  method SkipLine(s: string, start: nat) returns (p: nat)
    requires start < |s| && |Lines(s[start..])| > 1
    ensures start < p < |s| && Lines(s[start..]) == [s[start..p]] + Lines(s[p..])
  {
    hide Lines, FirstLine;
    LineAt(s, start);
    p := start;
    while s[p] != '\n'
      invariant start <= p < |s| && '\n' !in s[start..p] && '\n' in s[p..]
      decreases |s| - p
    {
      assert s[start..p + 1] == s[start..p] + [s[p]];
      assert s[p..] == [s[p]] + s[p + 1..];
      p := p + 1;
    }
    LineEnds(s, start, p);
    p := p + 1;
    LinesLeft(s, p);
  }

  lemma LinesLeft(s: string, p: nat)
    requires p <= |s| && Lines(s[p..]) != []
    ensures p < |s|
  {}

  /** Where several lines are left there is a newline to come; where one is left it is all of the rest. */
  lemma LineAt(s: string, p: nat)
    requires p < |s|
    ensures var lines := Lines(s[p..]);
      && |lines| >= 1
      && (|lines| > 1 ==> '\n' in s[p..])
      && (|lines| == 1 ==> lines[0] == s[p..])
  {
    var t := s[p..];
    var line := FirstLine(t);
    if |Lines(t)| == 1 {
      assert |Lines(t[|line|..])| == 0;
      assert line + t[|line|..] == t;
    } else {
      assert t[|line|..] != "";
      assert t[Find(t, '\n')] == '\n';
    }
  }

  lemma LineEnds(s: string, start: nat, p: nat)
    requires start <= p < |s| && s[p] == '\n' && '\n' !in s[start..p]
    ensures Lines(s[start..]) == [s[start..p + 1]] + Lines(s[p + 1..])
  {
    hide Find, Lines;
    var t := s[start..];
    assert t[..p - start] == s[start..p];
    FindIs(t, '\n', p - start);
    LinesStep(t);
    assert t[..p + 1 - start] == s[start..p + 1];
    assert t[p + 1 - start..] == s[p + 1..];
  }

  lemma LinesStep(s: string)
    requires s != ""
    ensures Lines(s) == [FirstLine(s)] + Lines(s[|FirstLine(s)|..])
  {
    hide FirstLine;
  }

  // ---------- UTF-8 ----------

  type Byte = b: int | 0 <= b < 256

  /** The code points of Unicode, without the surrogates. */
  predicate Scalar(c: int) {
    0 <= c < 0xD800 || 0xE000 <= c < 0x11_0000
  }

  /** The number of bytes of a code point in section 3 of RFC 3629. */
  function Length(c: int): nat {
    if c < 0x80 then 1 else if c < 0x800 then 2 else if c < 0x1_0000 then 3 else 4
  }

  /** What is left of a code point after taking off six bits `k` times. */
  function High(c: nat, k: nat): nat {
    if k == 0 then c else High(c / 0x40, k - 1)
  }

  /** The low six bits of a code point, `k` times, in continuation bytes. */
  function Tail(c: nat, k: nat): (s: seq<Byte>)
    ensures |s| == k
  {
    if k == 0 then [] else Tail(c / 0x40, k - 1) + [0x80 + c % 0x40]
  }

  function Lead(n: nat): nat {
    if n == 2 then 0xC0 else if n == 3 then 0xE0 else 0xF0
  }

  /** How many values the free bits of a lead byte have. */
  function Room(n: nat): (r: nat)
    ensures r > 0
  {
    if n == 2 then 0x20 else if n == 3 then 0x10 else 0x08
  }

  lemma HighFits(c: nat, n: nat)
    requires 2 <= n <= 4
    ensures High(c, n - 1) < Room(n) <==> c < if n == 2 then 0x800 else if n == 3 then 0x1_0000 else 0x20_0000
  {
    assert n > 3 ==> High(c / 0x40 / 0x40, n - 3) == c / 0x40 / 0x40 / 0x40;
    assert n > 2 ==> High(c / 0x40, n - 2) == High(c / 0x40 / 0x40, n - 3);
    assert High(c, n - 1) == if n == 2 then c / 0x40 else if n == 3 then c / 0x40 / 0x40 else c / 0x40 / 0x40 / 0x40;
  }

  /** The encoding of section 3 of RFC 3629. */
  function Encode(c: int): (s: seq<Byte>)
    requires 0 <= c < 0x20_0000
    ensures |s| == Length(c)
  {
    var n := Length(c);
    if n == 1 then [c]
    else
      assert High(c, n - 1) < Room(n) by { HighFits(c, n); }
      [Lead(n) + High(c, n - 1)] + Tail(c, n - 1)
  }

  /** `av_log2`. */
  function Log2(v: int): nat {
    if v <= 1 then 0 else 1 + Log2(v / 2)
  }

  /** `bstr_parse_utf8_code_length`; for a byte, `b ^ 255` is `255 - b`. */
  function CodeLength(b: Byte): (n: int)
    ensures n == if b < 0x80 then 1 else if b < 0xC0 then -1 else if b < 0xE0 then 2 else if b < 0xF0 then 3
                 else if b < 0xF8 then 4 else -1
  {
    if b < 128 then 1
    else
      var bytes := 7 - Log2(255 - b);
      assert Log2(255 - b) == LogOf(255 - b) by { LogIs(255 - b); }
      if 2 <= bytes <= 4 then bytes else -1
  }

  function LogOf(v: int): nat {
    if v < 2 then 0 else if v < 4 then 1 else if v < 8 then 2 else if v < 16 then 3 else if v < 32 then 4
    else if v < 64 then 5 else 6
  }

  lemma LogIs(v: int)
    requires 0 <= v < 128
    ensures Log2(v) == LogOf(v)
  {
    if v >= 2 {
      LogIs(v / 2);
    }
  }

  predicate Continuation(b: Byte) {
    0x80 <= b < 0xC0
  }

  /** The value of the continuation bytes, six bits each. */
  function Bits(s: seq<Byte>, high: nat): nat {
    if s == [] then high else Bits(s[..|s| - 1], high) * 0x40 + (s[|s| - 1] as int) % 0x40
  }

  /** What decoding one code point means: a lead byte that announces how many continuation bytes follow. */
  function Decode(s: seq<Byte>): Option<(nat, nat)> {
    if s == [] then None
    else if s[0] < 0x80 then Some((s[0], 1))
    else
      var bytes := CodeLength(s[0]);
      if bytes < 0 || |s| < bytes || exists i :: 1 <= i < bytes && !Continuation(s[i]) then None
      else Some((Bits(s[1..bytes], s[0] % Room(bytes)), bytes))
  }

  /** What does not decode: no byte; a lead byte that announces nothing; too few bytes; a byte among those announced
      that does not continue. */
  lemma DecodeFails(s: seq<Byte>)
    ensures Decode(s).None? <==>
      || s == []
      || 0x80 <= s[0] < 0xC0 || s[0] >= 0xF8
      || (s[0] >= 0xC0 && |s| < 2) || (s[0] >= 0xE0 && |s| < 3) || (s[0] >= 0xF0 && |s| < 4)
      || (s[0] >= 0xC0 && !(0x80 <= s[1] < 0xC0))
      || (s[0] >= 0xE0 && !(0x80 <= s[2] < 0xC0))
      || (s[0] >= 0xF0 && !(0x80 <= s[3] < 0xC0))
  {
    if s != [] && s[0] >= 0xC0 && s[0] < 0xF8 && |s| >= CodeLength(s[0]) {
      var n := CodeLength(s[0]);
      assert (exists i :: 1 <= i < n && !Continuation(s[i])) <==>
        !Continuation(s[1]) || (n > 2 && !Continuation(s[2])) || (n > 3 && !Continuation(s[3]));
    }
  }

  /** The value of each form: the free bits of the lead byte, then six bits from each byte, most significant first. */
  lemma DecodeValue(s: seq<Byte>)
    requires Decode(s).Some?
    ensures s != [] && var b := seq(|s|, i requires 0 <= i < |s| => s[i] as int);
      var v := Decode(s).value;
      if b[0] < 0x80 then v == (b[0], 1)
      else if b[0] < 0xE0 then |b| >= 2 && v == ((b[0] - 0xC0) * 0x40 + (b[1] - 0x80), 2)
      else if b[0] < 0xF0 then
        |b| >= 3 && v == ((b[0] - 0xE0) * 0x1000 + (b[1] - 0x80) * 0x40 + (b[2] - 0x80), 3)
      else
        |b| >= 4
        && v == ((b[0] - 0xF0) * 0x4_0000 + (b[1] - 0x80) * 0x1000 + (b[2] - 0x80) * 0x40 + (b[3] - 0x80), 4)
  {
    hide Bits, Log2;
    DecodeFails(s);
    if s[0] >= 0xC0 {
      var n := CodeLength(s[0]);
      BitsThree(s[1..n], (s[0] as int) % Room(n));
      assert forall i :: 1 <= i < n ==> (s[i] as int) % 0x40 == s[i] as int - 0x80;
    }
  }

  lemma BitsThree(t: seq<Byte>, high: nat)
    requires 1 <= |t| <= 3
    ensures var one := high * 0x40 + (t[0] as int) % 0x40;
      Bits(t, high) ==
        if |t| == 1 then one
        else if |t| == 2 then one * 0x40 + (t[1] as int) % 0x40
        else (one * 0x40 + (t[1] as int) % 0x40) * 0x40 + (t[2] as int) % 0x40
  {
    assert Bits([], high) == high;
    assert t[..1][..0] == [];
    assert Bits(t[..1], high) == high * 0x40 + (t[0] as int) % 0x40;
    if |t| > 1 {
      assert t[..2][..1] == t[..1];
      assert Bits(t[..2], high) == Bits(t[..1], high) * 0x40 + (t[1] as int) % 0x40;
    }
    assert t[..|t|] == t;
  }

  /** `bstr_decode_utf8`: the code point and what is left, or a negative number. */
  method DecodeUtf8(s: seq<Byte>) returns (r: int, next: seq<Byte>)
    ensures Decode(s).None? ==> r == -1
    ensures Decode(s).Some? ==> r == Decode(s).value.0 && next == s[Decode(s).value.1..]
  {
    next := s;
    if |s| == 0 {
      return -1, s;
    }
    var codepoint: nat := s[0];
    next := s[1..];
    if codepoint >= 128 {
      var bytes := CodeLength(s[0]);
      if bytes < 0 || |next| < bytes - 1 {
        return -1, s;
      }
      codepoint := codepoint % Room(bytes);
      for n := 1 to bytes
        invariant next == s[n..]
        invariant codepoint == Bits(s[1..n], s[0] % Room(bytes))
        invariant forall i :: 1 <= i < n ==> Continuation(s[i])
      {
        var tmp := next[0];
        if !Continuation(tmp) {
          assert !Continuation(s[n]);
          return -1, s;
        }
        assert s[1..n + 1][..n - 1] == s[1..n];
        codepoint := codepoint * 0x40 + tmp % 0x40;
        next := next[1..];
      }
    }
    r := codepoint;
  }

  lemma {:induction false} BitsTail(c: nat, k: nat)
    ensures Bits(Tail(c, k), High(c, k)) == c
    ensures forall i :: 0 <= i < k ==> Continuation(Tail(c, k)[i])
    decreases k
  {
    if k > 0 {
      BitsTail(c / 0x40, k - 1);
      assert Tail(c, k)[..k - 1] == Tail(c / 0x40, k - 1);
    }
  }

  lemma {:induction false} TailBits(s: seq<Byte>, high: nat)
    requires forall i :: 0 <= i < |s| ==> Continuation(s[i])
    ensures Tail(Bits(s, high), |s|) == s && High(Bits(s, high), |s|) == high
  {
    if s != [] {
      var t, b := s[..|s| - 1], s[|s| - 1];
      TailBits(t, high);
      var c := Bits(s, high);
      assert c / 0x40 == Bits(t, high) && 0x80 + c % 0x40 == b;
      assert Tail(c, |s|) == Tail(c / 0x40, |s| - 1) + [b];
      assert t + [b] == s;
    }
  }

  /** The encoding of a code point, followed by anything, decodes to it. */
  lemma DecodeEncode(c: int, rest: seq<Byte>)
    requires 0 <= c < 0x20_0000
    ensures Decode(Encode(c) + rest) == Some((c, Length(c)))
  {
    hide Bits, Tail, High, Log2;
    var s := Encode(c) + rest;
    var n := Length(c);
    if n > 1 {
      HighFits(c, n);
      BitsTail(c, n - 1);
      assert s[1..n] == Tail(c, n - 1);
      assert forall i :: 1 <= i < n ==> s[i] == Tail(c, n - 1)[i - 1];
      assert s[0] == Lead(n) + High(c, n - 1);
    }
  }

  /** What decodes to a code point is its encoding exactly if it is no longer than that. */
  lemma EncodeDecode(s: seq<Byte>)
    requires Decode(s).Some?
    ensures var (c, n) := Decode(s).value;
      && c < 0x20_0000 && Length(c) <= n <= |s|
      && (s[..n] == Encode(c) <==> n == Length(c))
  {
    hide Bits, Tail, High, Log2;
    var (c, n) := Decode(s).value;
    if n > 1 {
      var t, h := s[1..n], (s[0] as int) % Room(n);
      assert forall i :: 0 <= i < |t| ==> Continuation(t[i]) by {
        assert forall i :: 0 <= i < |t| ==> t[i] == s[i + 1];
      }
      TailBits(t, h);
      HighFits(c, n);
      assert s[0] == Lead(n) + h;
      assert s[..n] == [s[0]] + t;
    } else {
      assert s[..1] == [s[0]];
    }
  }

  function EncodeAll(cs: seq<int>): seq<Byte>
    requires forall c :: c in cs ==> Scalar(c)
  {
    if cs == [] then []
    else
      assert Scalar(cs[0]);
      Encode(cs[0]) + EncodeAll(cs[1..])
  }

  /** Decoding over and over gives back the code points that were encoded, and uses up everything. */
  method DecodeAll(s: seq<Byte>, ghost cs: seq<int>) returns (out: seq<int>, rest: seq<Byte>)
    requires forall c :: c in cs ==> Scalar(c)
    requires s == EncodeAll(cs)
    ensures out == cs && rest == []
  {
    out, rest := [], s;
    var ok := true;
    while ok && rest != []
      invariant |out| <= |cs| && out == cs[..|out|] && rest == EncodeAll(cs[|out|..]) && ok
      decreases |cs| - |out|
    {
      ghost var left := cs[|out|..];
      assert left != [];
      assert left[0] in cs && left[1..] == cs[|out| + 1..];
      DecodeEncode(left[0], EncodeAll(left[1..]));
      var r, next := DecodeUtf8(rest);
      assert rest[Length(left[0])..] == EncodeAll(left[1..]);
      ok := r >= 0;
      out, rest := out + [r], next;
    }
    EncodeAllEmpty(cs[|out|..]);
  }

  lemma EncodeAllEmpty(cs: seq<int>)
    requires forall c :: c in cs ==> Scalar(c)
    ensures EncodeAll(cs) == [] <==> cs == []
  {
    if cs != [] {
      assert cs[0] in cs;
    }
  }
}
