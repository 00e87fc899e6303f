/** String list options of m_option.c: lists split at separators, in place, with backslash escapes. */
module StrList {
  import opened Common

  const M_OPT_MISSING_PARAM := -2
  const M_OPT_OUT_OF_RANGE := -4

  datatype Op = OpNone | OpAdd | OpPre | OpDel | OpClr

  // ---------- what a parameter means ----------

  /** The first element of a parameter, unescaped, and the rest from its separator on. */
  function Element(s: string, sep: char): (r: (string, string))
    ensures |r.1| <= |s|
    ensures r.1 != "" ==> r.1[0] == sep
  {
    if s == "" || s[0] == sep then ("", s)
    else if s[0] == '\\' && |s| > 1 && s[1] == sep then
      var r := Element(s[2..], sep);
      ([sep] + r.0, r.1)
    else
      var r := Element(s[1..], sep);
      ([s[0]] + r.0, r.1)
  }

  /** All elements. A separator at the end is followed by one more, empty element. */
  function Split(s: string, sep: char): (r: seq<string>)
    ensures r != []
    decreases |s|
  {
    var (el, rest) := Element(s, sep);
    if rest == "" then [el] else [el] + Split(rest[1..], sep)
  }

  /** The number of elements as the counting pass sees it: none after a separator at the end. */
  function Count(s: string, sep: char): nat
    decreases |s|
  {
    if s == "" then 0 else
      var (el, rest) := Element(s, sep);
      1 + if rest == "" then 0 else Count(rest[1..], sep)
  }

  /** The extracting pass finds as many elements as the counting pass, or one more. */
  lemma {:induction false} CountSplit(s: string, sep: char)
    requires s != ""
    ensures Count(s, sep) <= |Split(s, sep)| <= Count(s, sep) + 1
    decreases |s|
  {
    var (el, rest) := Element(s, sep);
    if rest != "" && rest[1..] != "" {
      CountSplit(rest[1..], sep);
    } else if rest != "" {
      assert Split(rest[1..], sep) == [""];
    }
  }

  // ---------- printing a list ----------

  function Escaped(x: string, sep: char): string {
    if x == "" then "" else (if x[0] == sep then ['\\', sep] else [x[0]]) + Escaped(x[1..], sep)
  }

  /** The elements with every separator in them escaped, and a separator between elements. */
  function Printed(xs: seq<string>, sep: char): string {
    if xs == [] then ""
    else if |xs| == 1 then Escaped(xs[0], sep)
    else Escaped(xs[0], sep) + [sep] + Printed(xs[1..], sep)
  }

  predicate EndsEscaping(x: string) {
    x != "" && x[|x| - 1] == '\\'
  }

  /** The lists that can be written as a parameter: something to write, and no element but the last ends in a
      backslash. */
  predicate Writable(xs: seq<string>) {
    xs != [] && xs != [""] && forall i :: 0 <= i < |xs| - 1 ==> !EndsEscaping(xs[i])
  }

  /** Reading an escaped text up to a separator or the end. */
  lemma {:induction false} ElementEscaped(x: string, rest: string, sep: char)
    requires sep != '\\' && (rest == "" || (rest[0] == sep && !EndsEscaping(x)))
    ensures Element(Escaped(x, sep) + rest, sep) == (x, rest)
  {
    var s := Escaped(x, sep) + rest;
    if x == "" {
      assert s == rest;
    } else {
      var tail := Escaped(x[1..], sep) + rest;
      assert x == [x[0]] + x[1..];
      if x[0] == sep {
        assert s == ['\\', sep] + tail && s[2..] == tail;
        assert !EndsEscaping(x) ==> !EndsEscaping(x[1..]);
        ElementEscaped(x[1..], rest, sep);
      } else {
        assert s == [x[0]] + tail && s[1..] == tail;
        if x[1..] == "" {
          assert tail == rest;
          assert x[0] == '\\' && rest != "" ==> EndsEscaping(x);
        } else {
          assert tail[0] == if x[1] == sep then '\\' else x[1];
          assert !EndsEscaping(x) ==> !EndsEscaping(x[1..]);
        }
        ElementEscaped(x[1..], rest, sep);
      }
    }
  }

  lemma ElementStep(c: char, tail: string, sep: char)
    requires c != sep && (c == '\\' && tail != "" ==> tail[0] != sep)
    ensures Element([c] + tail, sep) == ([c] + Element(tail, sep).0, Element(tail, sep).1)
  {
    assert ([c] + tail)[1..] == tail;
  }

  lemma ElementEscape(tail: string, sep: char)
    requires sep != '\\'
    ensures Element(['\\', sep] + tail, sep) == ([sep] + Element(tail, sep).0, Element(tail, sep).1)
  {
    assert (['\\', sep] + tail)[2..] == tail;
  }

  /** An element that ends in a backslash swallows the separator after it. */
  lemma {:induction false} ElementSwallows(x: string, rest: string, sep: char)
    requires sep != '\\' && EndsEscaping(x) && rest != "" && rest[0] == sep
    ensures Element(Escaped(x, sep) + rest, sep).0 != x
  {
    var s := Escaped(x, sep) + rest;
    if |x| == 1 {
      assert s == ['\\', sep] + rest[1..];
      ElementEscape(rest[1..], sep);
    } else {
      var tail := Escaped(x[1..], sep) + rest;
      var el := Element(tail, sep).0;
      assert x == [x[0]] + x[1..];
      ElementSwallows(x[1..], rest, sep);
      hide Element;
      if x[0] == sep {
        assert s == ['\\', sep] + tail;
        ElementEscape(tail, sep);
      } else {
        assert s == [x[0]] + tail;
        assert tail[0] == if x[1] == sep then '\\' else x[1];
        ElementStep(x[0], tail, sep);
      }
      assert ([x[0]] + el)[1..] == el;
    }
  }

  /** A list reads back as it was printed exactly if no element but the last ends in a backslash. */
  lemma {:induction false} SplitPrinted(xs: seq<string>, sep: char)
    requires sep != '\\' && xs != []
    ensures Split(Printed(xs, sep), sep) == xs <==> forall i :: 0 <= i < |xs| - 1 ==> !EndsEscaping(xs[i])
  {
    if |xs| == 1 {
      assert Printed(xs, sep) == Escaped(xs[0], sep) + "";
      ElementEscaped(xs[0], "", sep);
    } else {
      var rest := [sep] + Printed(xs[1..], sep);
      assert Printed(xs, sep) == Escaped(xs[0], sep) + rest;
      assert rest[1..] == Printed(xs[1..], sep);
      var got := Split(Printed(xs, sep), sep);
      if EndsEscaping(xs[0]) {
        ElementSwallows(xs[0], rest, sep);
        assert got[0] != xs[0];
      } else {
        ElementEscaped(xs[0], rest, sep);
        SplitPrinted(xs[1..], sep);
        assert got == [xs[0]] + Split(Printed(xs[1..], sep), sep);
        assert got[1..] == Split(Printed(xs[1..], sep), sep);
        assert got == xs <==> got[1..] == xs[1..];
        assert forall i :: 0 <= i < |xs[1..]| ==> xs[1..][i] == xs[i + 1];
        assert forall i :: 1 <= i < |xs| ==> xs[i] == xs[1..][i - 1];
      }
    }
  }

  lemma EscapedEmpty(x: string, sep: char)
    ensures Escaped(x, sep) == "" <==> x == ""
  {}

  lemma CountStep(s: string, el: string, rest: string, sep: char)
    requires s != "" && Element(s, sep) == (el, rest)
    ensures Count(s, sep) == 1 + if rest == "" then 0 else Count(rest[1..], sep)
  {
    hide Element;
  }

  /** The counting pass counts a printed list, without an empty element at its end. */
  lemma {:induction false} CountPrinted(xs: seq<string>, sep: char)
    requires sep != '\\' && xs != [] && forall i :: 0 <= i < |xs| - 1 ==> !EndsEscaping(xs[i])
    ensures Count(Printed(xs, sep), sep) == if xs[|xs| - 1] == "" then |xs| - 1 else |xs|
    decreases |xs|
  {
    hide Element, Escaped, Count, EndsEscaping;
    EscapedEmpty(xs[0], sep);
    if |xs| == 1 {
      assert Printed(xs, sep) == Escaped(xs[0], sep) + "";
      ElementEscaped(xs[0], "", sep);
      CountNothing(sep);
      if xs[0] != "" {
        CountStep(Printed(xs, sep), xs[0], "", sep);
      }
    } else {
      var rest := [sep] + Printed(xs[1..], sep);
      assert Printed(xs, sep) == Escaped(xs[0], sep) + rest;
      assert rest[1..] == Printed(xs[1..], sep);
      ElementEscaped(xs[0], rest, sep);
      assert forall i :: 0 <= i < |xs[1..]| - 1 ==> xs[1..][i] == xs[i + 1];
      CountStep(Printed(xs, sep), xs[0], rest, sep);
      CountPrinted(xs[1..], sep);
    }
  }

  lemma CountNothing(sep: char)
    ensures Count("", sep) == 0
  {}

  /** Up to an escaped separator nothing ends the element. */
  lemma {:induction false} ElementSkips(pre: string, tail: string, sep: char)
    requires sep != '\\' && sep !in pre
    ensures Element(pre + ['\\', sep] + tail, sep) == (pre + [sep] + Element(tail, sep).0, Element(tail, sep).1)
  {
    if pre == "" {
      assert pre + ['\\', sep] + tail == ['\\', sep] + tail;
      ElementEscape(tail, sep);
      assert pre + [sep] == [sep];
    } else {
      hide Element;
      var rest := pre[1..] + ['\\', sep] + tail;
      assert pre[0] in pre && pre == [pre[0]] + pre[1..];
      assert rest[0] == if |pre| > 1 then pre[1] else '\\';
      assert |pre| > 1 ==> pre[1] in pre;
      ElementSkips(pre[1..], tail, sep);
      ElementStep(pre[0], rest, sep);
      assert pre + ['\\', sep] + tail == [pre[0]] + rest;
      assert pre + [sep] + Element(tail, sep).0 == [pre[0]] + (pre[1..] + [sep] + Element(tail, sep).0);
    }
  }

  /** A separator that is not escaped, or the end, ends the element. */
  lemma {:induction false} ElementEnds(pre: string, rest: string, sep: char)
    requires sep != '\\' && sep !in pre && (rest != "" ==> rest[0] == sep && !EndsEscaping(pre))
    ensures Element(pre + rest, sep) == (pre, rest)
  {
    if pre == "" {
      assert pre + rest == rest;
    } else {
      assert pre[0] in pre && pre == [pre[0]] + pre[1..];
      assert |pre| > 1 ==> pre[1] in pre && !EndsEscaping(pre) ==> !EndsEscaping(pre[1..]);
      ElementEnds(pre[1..], rest, sep);
      hide Element;
      assert |pre| > 1 ==> (pre[1..] + rest)[0] == pre[1];
      ElementStep(pre[0], pre[1..] + rest, sep);
      assert pre + rest == [pre[0]] + (pre[1..] + rest);
    }
  }

  // ---------- splitting in place ----------

  /** `bstrchr`. */
  method Chr(buf: array<char>, start: nat, len: nat, c: char) returns (idx: int)
    requires start + len <= buf.Length
    ensures idx < 0 ==> c !in buf[start..start + len]
    ensures idx >= 0 ==> idx < len && buf[start + idx] == c && c !in buf[start..start + idx]
  {
    for i := 0 to len
      invariant c !in buf[start..start + i]
    {
      if buf[start + i] == c {
        return i;
      }
      assert buf[start..start + i + 1] == buf[start..start + i] + [buf[start + i]];
    }
    idx := -1;
  }

  /** `get_nextsep`: step over one element. When modifying, escapes are removed by shifting the text behind them,
      and the element ends up unescaped where it started. */
  method NextSep(buf: array<char>, start: nat, len: nat, sep: char, unescape: bool) returns (start': nat, len': nat)
    requires start + len <= buf.Length && sep != '\\'
    modifies buf
    ensures start <= start' && start' + len' <= start + len
    ensures buf[start'..start' + len'] == Element(old(buf[start..start + len]), sep).1
    ensures unescape ==> buf[start..start'] == Element(old(buf[start..start + len]), sep).0
    ensures !unescape ==> buf[..] == old(buf[..])
  {
    hide *;
    start', len' := start, len;
    ghost var all := buf[start..start + len];
    ghost var done := "";
    assert "" + Element(all, sep).0 == Element(all, sep).0;
    while true
      invariant start <= start' && start' + len' <= start + len
      invariant unescape ==> buf[start..start'] == done
      invariant !unescape ==> buf[..] == old(buf[..])
      invariant Element(all, sep) ==
        (done + Element(buf[start'..start' + len'], sep).0, Element(buf[start'..start' + len'], sep).1)
      decreases len'
    {
      ghost var cur := buf[start'..start' + len'];
      var idx := Chr(buf, start', len', sep);
      if idx > 0 && buf[start' + idx - 1] == '\\' {
        ghost var pre := AtEscape(buf[..], start', idx, len', sep);
        Grouped(done, pre + [sep], Element(cur[idx + 1..], sep).0);
        start', len' := Skip(buf, start', len', idx, unescape, start);
        done := done + (pre + [sep]);
      } else {
        var k := if idx < 0 then len' else idx;
        AtEnd(buf[..], start', k, len', sep);
        Slices(buf[..], start, start', k, len');
        start', len' := start' + k, len' - k;
        return;
      }
    }
  }

  lemma AtEscape(s: string, cur: nat, idx: nat, len: nat, sep: char) returns (pre: string)
    requires cur + len <= |s| && 0 < idx < len && sep != '\\'
    requires s[cur + idx] == sep && sep !in s[cur..cur + idx] && s[cur + idx - 1] == '\\'
    ensures pre == s[cur..cur + len][..idx - 1]
    ensures var rest := s[cur..cur + len][idx + 1..];
      Element(s[cur..cur + len], sep) == (pre + [sep] + Element(rest, sep).0, Element(rest, sep).1)
  {
    var t := s[cur..cur + len];
    pre := t[..idx - 1];
    assert s[cur..cur + idx] == pre + ['\\'];
    ElementSkips(pre, t[idx + 1..], sep);
    assert t == pre + ['\\', sep] + t[idx + 1..];
  }

  lemma AtEnd(s: string, cur: nat, k: nat, len: nat, sep: char)
    requires cur + len <= |s| && k <= len && sep != '\\' && sep !in s[cur..cur + k]
    requires k < len ==> s[cur + k] == sep && (k > 0 ==> s[cur + k - 1] != '\\')
    ensures Element(s[cur..cur + len], sep) == (s[cur..cur + k], s[cur + k..cur + len])
  {
    ElementEnds(s[cur..cur + k], s[cur + k..cur + len], sep);
    assert s[cur..cur + len] == s[cur..cur + k] + s[cur + k..cur + len];
  }

  lemma Slices(s: string, start: nat, cur: nat, k: nat, len: nat)
    requires start <= cur && cur + len <= |s| && k <= len
    ensures s[cur..cur + len][..k] == s[cur..cur + k] && s[cur..cur + len][k..] == s[cur + k..cur + len]
    ensures s[start..cur + k] == s[start..cur] + s[cur..cur + k]
  {}

  /** Step over an escaped separator, dropping its backslash when modifying. */
  method Skip(buf: array<char>, cur: nat, len: nat, idx: nat, unescape: bool, ghost start: nat) returns (cur': nat,
              len': nat)
    requires start <= cur && cur + len <= buf.Length && 0 < idx < len
    modifies buf
    ensures cur <= cur' && cur' + len' <= cur + len && len' < len
    ensures buf[cur'..cur' + len'] == old(buf[cur..cur + len])[idx + 1..]
    ensures unescape ==>
      buf[start..cur'] == old(buf[start..cur]) + (old(buf[cur..cur + len])[..idx - 1] + [old(buf[cur + idx])])
    ensures !unescape ==> buf[..] == old(buf[..])
  {
    if unescape {
      forall k | cur + idx - 1 <= k < cur + len - 1 {
        buf[k] := buf[k + 1];
      }
      cur', len' := cur + idx, len - 1 - idx;
      assert buf[start..cur'] == buf[start..cur] + buf[cur..cur + idx - 1] + [buf[cur + idx - 1]];
    } else {
      cur', len' := cur + idx + 1, len - idx - 1;
    }
  }

  // ---------- lists as NULL-terminated arrays ----------

  type CList = array?<Option<string>>

  /** The array holds these strings and a terminator; NULL is the empty list. */
  ghost predicate IsList(a: CList, xs: seq<string>)
    reads a
  {
    if a == null then xs == []
    else |xs| < a.Length && a[|xs|] == None && forall i :: 0 <= i < |xs| ==> a[i] == Some(xs[i])
  }

  method Length(a: CList, ghost xs: seq<string>) returns (n: nat)
    requires IsList(a, xs)
    ensures n == |xs|
  {
    n := 0;
    if a != null {
      while a[n].Some?
        invariant n <= |xs| < a.Length
        decreases |xs| - n
      {
        n := n + 1;
      }
    }
  }

  /** The counting pass of `parse_str_list`. */
  method CountPass(param: array<char>, sep: char) returns (n: nat)
    requires sep != '\\'
    modifies param
    ensures param[..] == old(param[..]) && n == Count(param[..], sep)
  {
    n := 0;
    var start: nat, len: nat := 0, param.Length;
    assert param[0..len] == param[..];
    while len > 0
      invariant start + len <= param.Length && param[..] == old(param[..])
      invariant n + Count(param[start..start + len], sep) == Count(param[..], sep)
      decreases len
    {
      ghost var cur := param[start..start + len];
      start, len := NextSep(param, start, len, sep, false);
      assert param[start..start + len] == Element(cur, sep).1;
      ElementShorter(cur, sep);
      if len > 0 {
        assert param[start + 1..start + len] == Element(cur, sep).1[1..];
        start, len := start + 1, len - 1;
      }
      n := n + 1;
    }
  }

  lemma ElementShorter(s: string, sep: char)
    ensures s != "" && s[0] != sep ==> |Element(s, sep).1| < |s|
  {}

  /** The extracting pass: it fits in the slots counted for it. */
  method ExtractPass(buf: array<char>, sep: char, n: nat) returns (res: array<Option<string>>)
    requires sep != '\\' && buf.Length > 0 && n == Count(buf[..], sep)
    modifies buf
    ensures fresh(res) && res.Length == n + 2 && IsList(res, Split(old(buf[..]), sep))
  {
    ghost var xs := Split(buf[..], sep);
    CountSplit(buf[..], sep);
    res := new Option<string>[n + 2];
    var k := Extract(buf, sep, res, xs);
    res[k] := None;
  }

  /** The elements, one after the other. */
  method Extract(buf: array<char>, sep: char, res: array<Option<string>>, ghost xs: seq<string>) returns (k: nat)
    requires sep != '\\' && buf.Length > 0 && xs == Split(buf[..], sep) && 0 < |xs| < res.Length
    modifies buf, res
    ensures k == |xs| && forall i :: 0 <= i < k ==> res[i] == Some(xs[i])
  {
    hide Element, Count, Split;
    var start: nat, len: nat := 0, buf.Length;
    k := 0;
    assert buf[0..len] == buf[..];
    while true
      invariant start + len <= buf.Length && k < |xs|
      invariant Split(buf[start..start + len], sep) == xs[k..]
      invariant forall i :: 0 <= i < k ==> res[i] == Some(xs[i])
      decreases |xs| - k
    {
      ghost var cur := buf[start..start + len];
      var from := start;
      start, len := NextSep(buf, start, len, sep, true);
      res[k] := Some(buf[from..start]);
      SplitTurn(cur, sep, xs, k);
      k := k + 1;
      if len == 0 {
        break;
      }
      assert buf[start + 1..start + len] == Element(cur, sep).1[1..];
      start, len := start + 1, len - 1;
    }
  }

  /** One turn of that pass. */
  lemma SplitTurn(cur: string, sep: char, xs: seq<string>, k: nat)
    requires sep != '\\' && k < |xs| && Split(cur, sep) == xs[k..]
    ensures xs[k] == Element(cur, sep).0
    ensures Element(cur, sep).1 == "" ==> k + 1 == |xs|
    ensures Element(cur, sep).1 != "" ==> k + 1 < |xs| && Split(Element(cur, sep).1[1..], sep) == xs[k + 1..]
  {
    assert xs[k..][0] == xs[k] && xs[k..][1..] == xs[k + 1..];
    hide Element;
  }

  /** The places from `at` on hold the given strings. */
  ghost predicate Holds(a: array<Option<string>>, at: nat, xs: seq<string>)
    reads a
  {
    at + |xs| <= a.Length && forall i :: 0 <= i < |xs| ==> a[at + i] == Some(xs[i])
  }

  lemma BothHold(a: array<Option<string>>, xs: seq<string>, ys: seq<string>)
    requires Holds(a, 0, xs) && Holds(a, |xs|, ys) && |xs| + |ys| < a.Length && a[|xs| + |ys|] == None
    ensures IsList(a, xs + ys)
  {
    forall i | 0 <= i < |xs + ys| ensures a[i] == Some((xs + ys)[i]) {
      if i < |xs| {
        assert a[0 + i] == Some(xs[i]);
      } else {
        assert a[|xs| + (i - |xs|)] == Some(ys[i - |xs|]);
      }
    }
  }

  /** `str_list_add`: append, or put in front. */
  method Add(add: array<Option<string>>, n: nat, lst: CList, pre: bool, ghost ys: seq<string>, ghost xs: seq<string>)
    returns (res: array<Option<string>>)
    requires IsList(add, ys) && n == |ys| && IsList(lst, xs)
    ensures fresh(res) && IsList(res, if pre then ys + xs else xs + ys)
  {
    hide Holds, IsList;
    var ln := Length(lst, xs);
    res := new Option<string>[n + ln + 1];
    CopyList(res, 0, lst, ln, xs);
    if pre {
      MoveUp(res, n, ln, xs);
      CopyList(res, 0, add, n, ys);
    } else {
      CopyList(res, ln, add, n, ys);
    }
    End(res, ln + n, if pre then ys else xs, if pre then xs else ys);
    BothHold(res, if pre then ys else xs, if pre then xs else ys);
  }

  method End(res: array<Option<string>>, at: nat, ghost xs: seq<string>, ghost ys: seq<string>)
    requires Holds(res, 0, xs) && Holds(res, |xs|, ys) && at == |xs| + |ys| < res.Length
    modifies res
    ensures Holds(res, 0, xs) && Holds(res, |xs|, ys) && res[at] == None
  {
    res[at] := None;
  }

  /** `memmove` to make room in front. */
  method MoveUp(res: array<Option<string>>, n: nat, ln: nat, ghost xs: seq<string>)
    requires Holds(res, 0, xs) && ln == |xs| && n + ln <= res.Length
    modifies res
    ensures Holds(res, n, xs)
  {
    forall i | 0 <= i < ln {
      res[n + i] := res[i];
    }
    assert forall i :: 0 <= i < ln ==> old(res[0 + i]) == Some(xs[i]);
  }

  /** `memcpy` of list entries. */
  method CopyList(res: array<Option<string>>, at: nat, lst: CList, n: nat, ghost xs: seq<string>)
    requires IsList(lst, xs) && n == |xs| && at + n <= res.Length && res != lst
    modifies res
    ensures Holds(res, at, xs)
    ensures forall k: nat, ys :: k + |ys| <= at || at + n <= k ==> (old(Holds(res, k, ys)) ==> Holds(res, k, ys))
  {
    if lst != null {
      forall i | 0 <= i < n {
        res[at + i] := lst[i];
      }
    }
  }

  // ---------- deleting ----------

  /** The first `n` elements without those at the given places. */
  function Kept(xs: seq<string>, gone: set<int>, n: nat): (r: seq<string>)
    requires n <= |xs|
  {
    if n == 0 then [] else Kept(xs, gone, n - 1) + if n - 1 in gone then [] else [xs[n - 1]]
  }

  /** The places named by a list of indexes that are in range. */
  ghost function Named(ys: seq<string>, number: string -> Option<int>, ln: nat): set<int> {
    set i: int | 0 <= i < ln && exists y :: y in ys && number(y) == Some(i)
  }

  lemma NamedStep(ys: seq<string>, y: string, number: string -> Option<int>, ln: nat)
    ensures Named(ys + [y], number, ln) ==
      Named(ys, number, ln) + if number(y).Some? && 0 <= number(y).value < ln then {number(y).value} else {}
  {
    forall i | i in Named(ys, number, ln) ensures i in Named(ys + [y], number, ln) {
      var z :| z in ys && number(z) == Some(i);
      assert z in ys + [y];
    }
    assert y in ys + [y];
  }

  lemma {:induction false} KeptLength(xs: seq<string>, gone: set<int>, n: nat)
    requires n <= |xs| && forall i :: i in gone ==> 0 <= i < |xs|
    ensures |Kept(xs, gone, n)| == n - |Below(gone, n)|
  {
    if n > 0 {
      KeptLength(xs, gone, n - 1);
      assert Below(gone, n) == Below(gone, n - 1) + if n - 1 in gone then {n - 1} else {};
    } else {
      assert Below(gone, 0) == {};
    }
  }

  ghost function Below(gone: set<int>, n: nat): set<int> {
    set i | i in gone && 0 <= i < n
  }

  lemma KeptNamed(xs: seq<string>, ys: seq<string>, number: string -> Option<int>)
    ensures |Kept(xs, Named(ys, number, |xs|), |xs|)| == |xs| - |Named(ys, number, |xs|)|
  {
    var gone := Named(ys, number, |xs|);
    KeptLength(xs, gone, |xs|);
    assert Below(gone, |xs|) == gone;
  }

  lemma {:induction false} KeptAll(xs: seq<string>, gone: set<int>, n: nat)
    requires n <= |xs| && forall i :: 0 <= i < n ==> i !in gone
    ensures Kept(xs, gone, n) == xs[..n]
  {
    if n > 0 {
      KeptAll(xs, gone, n - 1);
    }
  }

  lemma {:induction false} KeptWithout(xs: seq<string>, i: nat, n: nat)
    requires i < n <= |xs|
    ensures Kept(xs, {i as int}, n) == xs[..i] + xs[i + 1..n]
    decreases n
  {
    if n == i + 1 {
      KeptAll(xs, {i as int}, i);
      assert xs[i + 1..n] == [];
    } else {
      KeptWithout(xs, i, n - 1);
    }
  }

  /** One index takes one element out, and the rest closes up. */
  lemma OneGone(xs: seq<string>, y: string, number: string -> Option<int>, i: int)
    requires number(y) == Some(i)
    ensures Kept(xs, Named([y], number, |xs|), |xs|) == if 0 <= i < |xs| then xs[..i] + xs[i + 1..] else xs
  {
    hide Named, Kept;
    OneNamed(y, number, i, |xs|);
    if 0 <= i < |xs| {
      KeptWithout(xs, i, |xs|);
      assert xs[i + 1..|xs|] == xs[i + 1..];
    } else {
      KeptAll(xs, {}, |xs|);
      assert xs[..|xs|] == xs;
    }
  }

  lemma OneNamed(y: string, number: string -> Option<int>, i: int, n: nat)
    requires number(y) == Some(i)
    ensures forall k :: k in Named([y], number, n) ==> 0 <= k < n
    ensures Named([y], number, n) == if 0 <= i < n then {i} else {}
  {
    assert y in [y];
  }

  /** The list with NULL for the elements that are gone. */
  ghost predicate Holes(lst: CList, gone: set<int>, xs: seq<string>)
    reads lst
  {
    if lst == null then xs == []
    else |xs| < lst.Length && forall k :: 0 <= k < |xs| ==> lst[k] == if k in gone then None else Some(xs[k])
  }

  method Drop(lst: CList, idx: nat, s: int, ghost gone: set<int>, ghost xs: seq<string>) returns (s': int)
    requires Holes(lst, gone, xs) && idx < |xs| && s == |xs| - |gone|
    modifies if lst == null then {} else {lst}
    ensures Holes(lst, gone + {idx}, xs) && s' == |xs| - |gone + {idx}|
  {
    s' := s;
    if lst[idx].Some? {
      lst[idx] := None;
      s' := s - 1;
    } else {
      assert gone + {idx} == gone;
    }
  }

  /** `str_list_del`: the named places go, the rest closes up; an empty list becomes NULL. */
  method Del(del: array<Option<string>>, lst: CList, number: string -> Option<int>, ghost ys: seq<string>,
             ghost xs: seq<string>)
    returns (res: CList)
    requires IsList(del, ys) && IsList(lst, xs) && del != lst
    modifies if lst == null then {} else {lst}
    ensures IsList(res, Kept(xs, Named(ys, number, |xs|), |xs|))
    ensures res == null || res == lst
    ensures res == null <==> Kept(xs, Named(ys, number, |xs|), |xs|) == []
  {
    hide Named, Kept, Below, Holes;
    var ln := Length(lst, xs);
    var s := Mark(del, lst, ln, number, ys, xs);
    KeptNamed(xs, ys, number);
    if s == 0 {
      return null;
    }
    Compact(lst, ln, s, Named(ys, number, ln), xs);
    res := lst;
  }

  lemma NothingNamed(lst: CList, xs: seq<string>, number: string -> Option<int>, ln: nat)
    requires IsList(lst, xs)
    ensures Named([], number, ln) == {} && Holes(lst, {}, xs)
  {}

  /** Free the named places, and count the others. */
  method Mark(del: array<Option<string>>, lst: CList, ln: nat, number: string -> Option<int>, ghost ys: seq<string>,
              ghost xs: seq<string>) returns (s: int)
    requires IsList(del, ys) && IsList(lst, xs) && del != lst && ln == |xs|
    modifies if lst == null then {} else {lst}
    ensures s == ln - |Named(ys, number, ln)| && Holes(lst, Named(ys, number, ln), xs)
  {
    hide Named, Holes;
    NothingNamed(lst, xs, number, ln);
    ghost var gone: set<int> := {};
    assert ys[..0] == [];
    var i := 0;
    s := ln;
    while del[i].Some?
      invariant i <= |ys| && IsList(del, ys)
      invariant gone == Named(ys[..i], number, ln) && s == ln - |gone|
      invariant Holes(lst, gone, xs)
      decreases |ys| - i
    {
      NamedStep(ys[..i], ys[i], number, ln);
      assert ys[..i + 1] == ys[..i] + [ys[i]];
      var idx := number(del[i].value);
      if idx.Some? && 0 <= idx.value < ln {
        s := Drop(lst, idx.value, s, gone, xs);
      }
      gone := Named(ys[..i + 1], number, ln);
      i := i + 1;
    }
    assert ys[..i] == ys;
  }

  /** Close the gaps. */
  method Compact(lst: array<Option<string>>, ln: nat, s: nat, ghost gone: set<int>, ghost xs: seq<string>)
    requires ln == |xs| < lst.Length && s == |Kept(xs, gone, ln)| <= ln
    requires Holes(lst, gone, xs)
    modifies lst
    ensures IsList(lst, Kept(xs, gone, ln))
  {
    var n := 0;
    for i := 0 to ln
      invariant n == |Kept(xs, gone, i)| <= i
      invariant forall k :: 0 <= k < n ==> lst[k] == Some(Kept(xs, gone, i)[k])
      invariant forall k :: i <= k < ln ==> lst[k] == if k in gone then None else Some(xs[k])
    {
      if lst[i].Some? {
        lst[n] := lst[i];
        n := n + 1;
      }
    }
    lst[s] := None;
  }

  // ---------- the option ----------

  /** The new list. */
  ghost function Applied(op: Op, xs: seq<string>, ys: seq<string>, number: string -> Option<int>): seq<string> {
    match op
    case OpNone => ys
    case OpAdd => xs + ys
    case OpPre => ys + xs
    case OpDel => Kept(xs, Named(ys, number, |xs|), |xs|)
    case OpClr => []
  }

  /** `parse_str_list`, for the operation the option's name asks for. */
  method ParseStrList(op: Op, param: string, sep: char, lo: Option<int>, hi: Option<int>, dst: CList,
                      number: string -> Option<int>, ghost xs: seq<string>)
    returns (code: int, res: CList)
    requires sep != '\\' && IsList(dst, xs)
    modifies if dst == null then {} else {dst}
    ensures code < 0 ==> res == dst && IsList(res, xs)
    ensures res == null || res == dst || fresh(res)
    ensures code >= 0 ==> IsList(res, Applied(op, xs, Split(param, sep), number))
    ensures code >= 0 && op == OpNone ==> IsList(res, Split(param, sep))
    ensures code >= 0 && op == OpAdd ==> IsList(res, xs + Split(param, sep))
    ensures code >= 0 && op == OpPre ==> IsList(res, Split(param, sep) + xs)
    ensures code >= 0 && op == OpClr ==> IsList(res, [])
    ensures forall y, i :: code >= 0 && op == OpDel && Split(param, sep) == [y] && number(y) == Some(i) ==>
      IsList(res, if 0 <= i < |xs| then xs[..i] + xs[i + 1..] else xs)
    ensures code == if op == OpClr then 0 else if param == "" then -2
                    else if lo.Some? && Count(param, sep) < lo.value then -4
                    else if hi.Some? && Count(param, sep) > hi.value then -4 else 1
  {
    hide Element, Split, Count, Kept, Named;
    if op == OpClr {
      return 0, null;
    }
    if param == "" {
      return M_OPT_MISSING_PARAM, dst;
    }
    var buf := new char[|param|](i requires 0 <= i < |param| => param[i]);
    assert buf[..] == param;
    var n := CountPass(buf, sep);
    if (lo.Some? && n < lo.value) || (hi.Some? && n > hi.value) {
      return M_OPT_OUT_OF_RANGE, dst;
    }
    var list := ExtractPass(buf, sep, n);
    ghost var ys := Split(param, sep);
    var len := Length(list, ys);
    code := 1;
    match op
    case OpAdd => res := Add(list, len, dst, false, ys, xs);
    case OpPre => res := Add(list, len, dst, true, ys, xs);
    case OpDel =>
      res := Del(list, dst, number, ys, xs);
      if |ys| == 1 && number(ys[0]).Some? {
        OneGone(xs, ys[0], number, number(ys[0]).value);
      }
    case OpNone => res := list;
  }

  /** Setting a list option to a list written as a parameter gives that list. */
  method SetPrinted(ys: seq<string>, sep: char) returns (code: int, res: CList)
    requires sep != '\\'
    ensures code == 1 && IsList(res, ys) <==> Writable(ys)
  {
    PrintedEmpty(ys, sep);
    if ys != [] {
      SplitPrinted(ys, sep);
    }
    code, res := ParseStrList(OpNone, Printed(ys, sep), sep, None, None, null, _ => None, []);
    if code == 1 {
      SameList(res, Split(Printed(ys, sep), sep), ys);
    }
  }

  lemma PrintedEmpty(ys: seq<string>, sep: char)
    ensures Printed(ys, sep) == "" <==> ys == [] || ys == [""]
  {}

  lemma SameList(a: CList, xs: seq<string>, ys: seq<string>)
    requires a != null && IsList(a, xs)
    ensures IsList(a, ys) <==> xs == ys
  {
    if IsList(a, ys) {
      assert |ys| == |xs|;
      assert forall i :: 0 <= i < |xs| ==> a[i] == Some(xs[i]) && a[i] == Some(ys[i]);
    }
  }
}
