/** Values and string functions used by several parts of the model. */
module Common {

  datatype Option<+T> = None | Some(value: T)

  const NUL := 0 as char

  lemma Grouped<T>(a: seq<T>, b: seq<T>, c: seq<T>)
    ensures (a + b) + c == a + (b + c)
  {}

  predicate IsSpace(c: char) {
    c == ' ' || 9 as char <= c <= 13 as char
  }

  /** The value of a digit, or 36 for what is no hexadecimal digit. */
  function Digit(c: char): (r: nat)
    ensures r < 16 || r == 36
  {
    if '0' <= c <= '9' then c as int - '0' as int
    else if 'a' <= c <= 'f' then c as int - 'a' as int + 10
    else if 'A' <= c <= 'F' then c as int - 'A' as int + 10
    else 36
  }

  lemma Digits(i: nat)
    requires i < 16
    ensures Digit("0123456789abcdef"[i]) == i && Digit("0123456789ABCDEF"[i]) == i
  {}

  lemma OnlyDigits(c: char)
    ensures Digit(c) < 16 <==> c in "0123456789abcdefABCDEF"
    ensures IsSpace(c) <==> c in " \t\n\r" || c == 11 as char || c == 12 as char
  {}

  /** The position of the first `c`, or the length when there is none. */
  function Find(s: string, c: char): (k: nat)
    ensures k <= |s| && (k < |s| ==> s[k] == c)
    ensures forall j :: 0 <= j < k ==> s[j] != c
  {
    if s == "" || s[0] == c then 0 else 1 + Find(s[1..], c)
  }

  lemma FindIs(s: string, c: char, k: nat)
    requires k <= |s| && c !in s[..k] && (k < |s| ==> s[k] == c)
    ensures Find(s, c) == k
  {
    assert forall j :: 0 <= j < k ==> s[j] in s[..k];
  }

  lemma FindConcat(a: string, b: string, c: char)
    ensures Find(a + b, c) == if Find(a, c) < |a| then Find(a, c) else |a| + Find(b, c)
  {
    var k := if Find(a, c) < |a| then Find(a, c) else |a| + Find(b, c);
    forall j | 0 <= j < k ensures (a + b)[j] != c {
      if j >= |a| {
        assert (a + b)[j] == b[j - |a|];
      }
    }
    FindIs(a + b, c, k);
  }

  lemma {:induction false} FindAt(s: string, c: char, rest: string)
    requires c !in s
    ensures Find(s + [c] + rest, c) == |s|
  {
    var t := s + [c] + rest;
    if s == "" {
      assert t[0] == c;
    } else {
      assert t[0] == s[0] && t[0] in s;
      assert t[1..] == s[1..] + [c] + rest;
      FindAt(s[1..], c, rest);
    }
  }

  /** `strchr`: the first `c` at `from` or after it, or the end of the string. */
  method StrChr(str: string, from: nat, c: char) returns (e: nat)
    requires from <= |str|
    ensures e == from + Find(str[from..], c)
  {
    e := from;
    while e < |str| && str[e] != c
      invariant from <= e <= |str|
      invariant from + Find(str[from..], c) == e + Find(str[e..], c)
    {
      assert str[e..][1..] == str[e + 1..];
      e := e + 1;
    }
  }
}
