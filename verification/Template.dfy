/** The property template expander of m_property.c. */
module Template {
  import opened Common

  const ESC := 27 as char

  /** The properties a template can name: the text of each, if it can be printed, and whether it is available. */
  datatype Props = Props(text: string -> Option<string>, has: string -> bool)

  // ---------- pieces of a template ----------

  datatype Token = Text(t: string) | Close | Use(name: string) | Open(neg: bool, name: string)

  /** `strtol` in base 16 on a string of one or two characters: the value, and how many were used. */
  function StrToL(a: char, b: char): (r: (int, nat))
    ensures r.1 <= 2
  {
    if Digit(a) < 16 then
      if Digit(b) < 16 then (16 * Digit(a) + Digit(b), 2) else (Digit(a), 1)
    else if (IsSpace(a) || a == '+' || a == '-') && Digit(b) < 16 then
      (if a == '-' then -(Digit(b) as int) else Digit(b), 2)
    else (0, 0)
  }

  function At(s: string, i: nat): char {
    if i < |s| then s[i] else NUL
  }

  /** The first piece of a template, and how long it is. A backslash must not be the last character. */
  function Next(s: string, inside: bool): (r: (Token, nat))
    requires s != "" && s != "\\"
    ensures 0 < r.1 <= |s|
    ensures r.0.Close? ==> inside
  {
    if s[0] == '\\' then
      if s[1] == 'e' then (Text([ESC]), 2)
      else if s[1] == 'n' then (Text("\n"), 2)
      else if s[1] == 'r' then (Text("\r"), 2)
      else if s[1] == 't' then (Text("\t"), 2)
      else if s[1] == 'x' then
        if |s| == 2 then (Text(""), 2)
        else
          var (v, used) := StrToL(s[2], At(s, 3));
          (Text([(v % 256) as char]), 2 + used)
      else (Text([s[1]]), 2)
    else if inside && s[0] == ')' then (Close, 1)
    else if |s| > 1 && s[..2] == "${" && Find(s[2..], '}') < |s| - 2 then
      var k := Find(s[2..], '}');
      (Use(s[2..2 + k]), 3 + k)
    else if |s| > 1 && s[..2] == "?(" && Find(s[2..], ':') < |s| - 2 then
      var k := Find(s[2..], ':');
      if s[2] == '!' then (Open(true, s[3..2 + k]), 3 + k) else (Open(false, s[2..2 + k]), 3 + k)
    else (Text([s[0]]), 1)
  }

  // ---------- templates that end in a lone backslash ----------

  function Backslashes(s: string): (k: nat)
    ensures k <= |s|
  {
    if s == "" || s[|s| - 1] != '\\' then 0 else 1 + Backslashes(s[..|s| - 1])
  }

  /** The template does not end in a lone backslash. */
  predicate Complete(s: string) {
    Backslashes(s) % 2 == 0
  }

  lemma {:induction false} BackslashesOf(a: string, b: string)
    ensures Backslashes(a + b) == if Backslashes(b) == |b| then |b| + Backslashes(a) else Backslashes(b)
    decreases |b|
  {
    if b == "" {
      assert a + b == a;
    } else {
      assert (a + b)[..|a + b| - 1] == a + b[..|b| - 1];
      BackslashesOf(a, b[..|b| - 1]);
    }
  }

  /** A piece that ends in a backslash is an escaped backslash. */
  lemma NextEnds(s: string, inside: bool)
    requires s != "" && s != "\\"
    ensures var k := Next(s, inside).1; s[k - 1] == '\\' ==> k == 2 && s[0] == '\\'
  {}

  lemma TwoBackslashes()
    ensures Backslashes("\\\\") == 2
  {
    assert "\\\\"[..1] == "\\" && "\\"[..0] == "";
    assert Backslashes("\\") == 1 + Backslashes("");
  }

  /** Taking off one piece does not change whether the template is complete. */
  lemma NextComplete(s: string, inside: bool)
    requires s != "" && s != "\\"
    ensures Complete(s) <==> Complete(s[Next(s, inside).1..])
  {
    hide Next;
    NextEnds(s, inside);
    TwoBackslashes();
    var k := Next(s, inside).1;
    var a, b := s[..k], s[k..];
    assert s == a + b;
    BackslashesOf(a, b);
    if a[k - 1] == '\\' {
      assert a == "\\\\";
    }
  }

  // ---------- templates as trees ----------

  datatype Item = Lit(t: string) | Prop(name: string) | Cond(neg: bool, name: string, body: seq<Item>)

  /** What a tree of items expands to. */
  function Eval(items: seq<Item>, props: Props): string {
    if items == [] then "" else EvalItem(items[0], props) + Eval(items[1..], props)
  }

  function EvalItem(it: Item, props: Props): string {
    match it
    case Lit(t) => t
    case Prop(name) => if props.text(name).Some? then props.text(name).value else ""
    case Cond(neg, name, body) => if props.has(name) != neg then Eval(body, props) else ""
  }

  /** The tree of a template: the items up to the closing parenthesis, or up to the end, and what follows.
      A condition that is never closed ends with the template. */
  function Parse(s: string, inside: bool): (r: (seq<Item>, string))
    requires Complete(s)
    ensures |r.1| <= |s| && Complete(r.1) && (!inside ==> r.1 == "")
    decreases |s|
  {
    if s == "" then ([], "")
    else
      assert s != "\\";
      var (token, k) := Next(s, inside);
      assert Complete(s[k..]) by { NextComplete(s, inside); }
      match token
      case Text(t) => var r := Parse(s[k..], inside); ([Lit(t)] + r.0, r.1)
      case Use(name) => var r := Parse(s[k..], inside); ([Prop(name)] + r.0, r.1)
      case Close => ([], s[k..])
      case Open(neg, name) =>
        var body := Parse(s[k..], true);
        var r := Parse(body.1, inside);
        ([Cond(neg, name, body.0)] + r.0, r.1)
  }

  /** What a template means. */
  function Meaning(s: string, props: Props): string
    requires Complete(s)
  {
    Eval(Parse(s, false).0, props)
  }

  // ---------- printing a tree ----------

  predicate Special(c: char) {
    c == '\\' || c == ')' || c == '$' || c == '?'
  }

  /** How characters are written. */
  type Style = char -> string

  /** The ways to write a character: itself, if it is not special; behind a backslash, if it is none of the letters that
      mean something there; by its letter; or by two hexadecimal digits. */
  predicate Spells(e: string, c: char) {
    || (e == [c] && !Special(c))
    || (e == ['\\', c] && c !in "enrtx")
    || (e == "\\e" && c == ESC)
    || (e == "\\n" && c == '\n')
    || (e == "\\r" && c == '\r')
    || (e == "\\t" && c == '\t')
    || (|e| == 4 && e[..2] == "\\x" && Digit(e[2]) < 16 && Digit(e[3]) < 16
        && c as int == 16 * Digit(e[2]) + Digit(e[3]))
  }

  ghost predicate Spelled(w: Style) {
    forall c :: Spells(w(c), c)
  }

  /** Only special characters behind a backslash. */
  function Usual(c: char): (e: string)
    ensures Spells(e, c)
  {
    if Special(c) then ['\\', c] else [c]
  }

  function Escaped(t: string, w: Style): string {
    if t == "" then "" else w(t[0]) + Escaped(t[1..], w)
  }

  function Print(items: seq<Item>, w: Style): string {
    if items == [] then "" else PrintItem(items[0], w) + Print(items[1..], w)
  }

  function PrintItem(it: Item, w: Style): string {
    match it
    case Lit(t) => Escaped(t, w)
    case Prop(name) => "${" + name + "}"
    case Cond(neg, name, body) => "?(" + (if neg then "!" else "") + name + ":" + Print(body, w) + ")"
  }

  predicate Printable(items: seq<Item>) {
    forall it :: it in items ==> PrintableItem(it)
  }

  predicate PrintableItem(it: Item) {
    match it
    case Lit(_) => true
    case Prop(name) => '}' !in name
    case Cond(neg, name, body) => ':' !in name && (neg || name == "" || name[0] != '!') && Printable(body)
  }

  /** The tree as the expander reads it: every literal character is a piece of its own. */
  function Split(items: seq<Item>): seq<Item> {
    if items == [] then [] else SplitItem(items[0]) + Split(items[1..])
  }

  function SplitItem(it: Item): seq<Item> {
    match it
    case Lit(t) => Chars(t)
    case Prop(_) => [it]
    case Cond(neg, name, body) => [Cond(neg, name, Split(body))]
  }

  function Chars(t: string): seq<Item> {
    if t == "" then [] else [Lit([t[0]])] + Chars(t[1..])
  }

  predicate Single(items: seq<Item>) {
    forall it :: it in items ==> SingleItem(it)
  }

  predicate SingleItem(it: Item) {
    match it
    case Lit(t) => |t| == 1
    case Prop(name) => '}' !in name
    case Cond(neg, name, body) => ':' !in name && (neg || name == "" || name[0] != '!') && Single(body)
  }

  lemma CompleteSum(a: string, b: string)
    requires Complete(a) && Complete(b)
    ensures Complete(a + b)
  {
    BackslashesOf(a, b);
  }

  lemma LastOf(s: string)
    requires s != "" && s[|s| - 1] != '\\'
    ensures Complete(s)
  {}

  lemma EscapedOne(c: char, w: Style)
    ensures Escaped([c], w) == w(c)
  {
    assert Escaped("", w) == "";
  }

  lemma SpelledComplete(e: string, c: char)
    requires Spells(e, c)
    ensures Complete(e) && e != ""
  {
    TwoBackslashes();
    if e[|e| - 1] != '\\' {
      LastOf(e);
    }
  }

  lemma ItemComplete(it: Item, w: Style)
    requires Spelled(w) && SingleItem(it)
    ensures Complete(PrintItem(it, w)) && PrintItem(it, w) != ""
  {
    var s := PrintItem(it, w);
    if it.Lit? {
      assert it.t == [it.t[0]];
      EscapedOne(it.t[0], w);
      assert Spells(w(it.t[0]), it.t[0]);
      SpelledComplete(w(it.t[0]), it.t[0]);
    }
  }

  lemma {:induction false} PrintComplete(items: seq<Item>, w: Style)
    requires Spelled(w) && Single(items)
    ensures Complete(Print(items, w))
  {
    if items != [] {
      ItemComplete(items[0], w);
      PrintComplete(items[1..], w);
      CompleteSum(PrintItem(items[0], w), Print(items[1..], w));
    }
  }

  lemma NextLit(c: char, rest: string, inside: bool, w: Style)
    requires Spelled(w)
    ensures var s := PrintItem(Lit([c]), w) + rest;
      s != "\\" && Next(s, inside) == (Text([c]), |PrintItem(Lit([c]), w)|)
  {
    EscapedOne(c, w);
    assert Spells(w(c), c);
    NextSpelled(w(c), c, rest, inside);
  }

  lemma NextSpelled(e: string, c: char, rest: string, inside: bool)
    requires Spells(e, c)
    ensures e + rest != "\\" && e != "" && Next(e + rest, inside) == (Text([c]), |e|)
  {
    var s := e + rest;
    if |e| == 4 {
      assert s[2] == e[2] && At(s, 3) == e[3] && s[..2] == e[..2];
      assert e[0] == e[..2][0] && e[1] == e[..2][1];
    } else if |e| == 1 {
      assert s[0] == c && c != '\\';
      assert |s| > 1 ==> s[..2][0] == c;
    } else {
      assert s[0] == e[0] && s[1] == e[1];
    }
  }

  lemma NextProp(name: string, rest: string, inside: bool, w: Style)
    requires '}' !in name
    ensures var s := PrintItem(Prop(name), w) + rest;
      s != "\\" && Next(s, inside) == (Use(name), |PrintItem(Prop(name), w)|)
  {
    var s := PrintItem(Prop(name), w) + rest;
    assert s[2..] == name + ['}'] + rest;
    FindAt(name, '}', rest);
    assert s[..2] == "${" && s[2..2 + |name|] == name;
  }

  function Head(neg: bool, name: string): string {
    "?(" + (if neg then "!" else "") + name + ":"
  }

  lemma NextCond(neg: bool, name: string, rest: string, inside: bool)
    requires ':' !in name && (neg || name == "" || name[0] != '!')
    ensures var s := Head(neg, name) + rest;
      s != "\\" && Next(s, inside) == (Open(neg, name), |Head(neg, name)|)
  {
    var s := Head(neg, name) + rest;
    var full := (if neg then "!" else "") + name;
    assert s[2..] == full + [':'] + rest;
    FindAt(full, ':', rest);
    assert s[..2] == "?(" && s[2..2 + |full|] == full;
    if neg {
      assert s[3..2 + |full|] == name;
    } else {
      assert full == name;
      assert name == "" ==> s[2] == ':';
      assert name != "" ==> s[2] == name[0];
    }
  }

  lemma ParseStep(s: string, inside: bool)
    requires Complete(s) && s != ""
    ensures s != "\\"
    ensures var (token, k) := Next(s, inside);
      Complete(s[k..]) &&
      match token
      case Text(t) => Parse(s, inside) == ([Lit(t)] + Parse(s[k..], inside).0, Parse(s[k..], inside).1)
      case Use(name) => Parse(s, inside) == ([Prop(name)] + Parse(s[k..], inside).0, Parse(s[k..], inside).1)
      case Close => Parse(s, inside) == ([], s[k..])
      case Open(neg, name) =>
        var body := Parse(s[k..], true);
        Parse(s, inside) == ([Cond(neg, name, body.0)] + Parse(body.1, inside).0, Parse(body.1, inside).1)
  {
    assert s != "\\";
    NextComplete(s, inside);
    hide Next, Complete;
  }

  /** The items parsed from a text that starts with a printed item. */
  lemma ParseItem(it: Item, inside: bool, more: string, w: Style)
    requires Spelled(w) && SingleItem(it) && Complete(more) && !it.Cond?
    ensures Complete(PrintItem(it, w) + more)
    ensures Parse(PrintItem(it, w) + more, inside) == ([it] + Parse(more, inside).0, Parse(more, inside).1)
  {
    var s := PrintItem(it, w) + more;
    ItemComplete(it, w);
    CompleteSum(PrintItem(it, w), more);
    ParseStep(s, inside);
    assert s[|PrintItem(it, w)|..] == more;
    match it
    case Lit(t) =>
      assert t == [t[0]] && it == Lit([t[0]]);
      NextLit(t[0], more, inside, w);
    case Prop(name) => NextProp(name, more, inside, w);
  }

  lemma ParseCond(neg: bool, name: string, inside: bool, inner: string)
    requires ':' !in name && (neg || name == "" || name[0] != '!') && Complete(inner)
    ensures Complete(Head(neg, name) + inner)
    ensures var body := Parse(inner, true);
      Parse(Head(neg, name) + inner, inside) ==
          ([Cond(neg, name, body.0)] + Parse(body.1, inside).0, Parse(body.1, inside).1)
  {
    var s := Head(neg, name) + inner;
    LastOf(Head(neg, name));
    CompleteSum(Head(neg, name), inner);
    ParseStep(s, inside);
    NextCond(neg, name, inner, inside);
    assert s[|Head(neg, name)|..] == inner;
  }

  lemma ParseCondItem(it: Item, inside: bool, more: string, w: Style)
    requires Spelled(w) && it.Cond? && SingleItem(it) && Complete(more)
    requires Complete(Print(it.body, w) + (")" + more))
    requires Parse(Print(it.body, w) + (")" + more), true) == (it.body, more)
    ensures Complete(PrintItem(it, w) + more)
    ensures Parse(PrintItem(it, w) + more, inside) == ([it] + Parse(more, inside).0, Parse(more, inside).1)
  {
    hide Parse, Complete, Print;
    assert PrintItem(it, w) + more == Head(it.neg, it.name) + (Print(it.body, w) + (")" + more));
    ParseCond(it.neg, it.name, inside, Print(it.body, w) + (")" + more));
  }

  lemma CompleteClose(more: string)
    requires Complete(more)
    ensures Complete(")" + more)
  {
    LastOf(")");
    CompleteSum(")", more);
  }

  lemma ParseClose(rest: string)
    requires rest != "" && rest[0] == ')' && Complete(rest)
    ensures Parse(rest, true) == ([], rest[1..])
  {
    ParseStep(rest, true);
  }

  lemma {:induction false} ParseSingle(items: seq<Item>, inside: bool, rest: string, w: Style)
    requires Spelled(w) && Single(items) && Complete(rest) && (rest == "" || (inside && rest[0] == ')'))
    ensures Complete(Print(items, w) + rest)
    ensures Parse(Print(items, w) + rest, inside) == (items, if rest == "" then "" else rest[1..])
    decreases items
  {
    PrintComplete(items, w);
    CompleteSum(Print(items, w), rest);
    var s := Print(items, w) + rest;
    if items == [] {
      assert s == rest;
      if rest != "" {
        ParseClose(rest);
      }
    } else {
      var it, more := items[0], Print(items[1..], w) + rest;
      assert it in items && items == [it] + items[1..];
      assert s == PrintItem(it, w) + more;
      ParseSingle(items[1..], inside, rest, w);
      hide *;
      if it.Cond? {
        SingleBody(it);
        CompleteClose(more);
        assert (")" + more)[1..] == more;
        ParseSingle(it.body, true, ")" + more, w);
        ParseCondItem(it, inside, more, w);
      } else {
        ParseItem(it, inside, more, w);
      }
    }
  }

  lemma SingleBody(it: Item)
    requires SingleItem(it) && it.Cond?
    ensures Single(it.body)
  {}

  // ---------- literals of any length ----------

  lemma {:induction false} PrintCat(a: seq<Item>, b: seq<Item>, props: Props, w: Style)
    ensures Print(a + b, w) == Print(a, w) + Print(b, w)
    ensures Eval(a + b, props) == Eval(a, props) + Eval(b, props)
    decreases |a|
  {
    if a == [] {
      assert a + b == b;
    } else {
      assert (a + b)[0] == a[0] && (a + b)[1..] == a[1..] + b;
      PrintCat(a[1..], b, props, w);
    }
  }

  lemma {:induction false} CharsPrint(t: string, props: Props, w: Style)
    ensures Print(Chars(t), w) == Escaped(t, w) && Eval(Chars(t), props) == t && Single(Chars(t))
  {
    if t != "" {
      EscapedOne(t[0], w);
      CharsPrint(t[1..], props, w);
      assert Chars(t)[0] == Lit([t[0]]) && Chars(t)[1..] == Chars(t[1..]);
    }
  }

  /** Splitting the literals changes neither the printed template nor what it expands to. */
  lemma {:induction false} SplitPrint(items: seq<Item>, props: Props, w: Style)
    requires Printable(items)
    ensures Print(Split(items), w) == Print(items, w) && Eval(Split(items), props) == Eval(items, props)
    ensures Single(Split(items))
  {
    if items != [] {
      assert items[0] in items;
      SplitItemPrint(items[0], props, w);
      SplitPrint(items[1..], props, w);
      PrintCat(SplitItem(items[0]), Split(items[1..]), props, w);
    }
  }

  lemma {:induction false} SplitItemPrint(it: Item, props: Props, w: Style)
    requires PrintableItem(it)
    ensures Print(SplitItem(it), w) == PrintItem(it, w) && Eval(SplitItem(it), props) == EvalItem(it, props)
    ensures Single(SplitItem(it))
  {
    match it
    case Lit(t) => CharsPrint(t, props, w);
    case Prop(_) => OneItem(it, props, w);
    case Cond(neg, name, body) =>
      SplitPrint(body, props, w);
      OneItem(Cond(neg, name, Split(body)), props, w);
  }

  lemma OneItem(it: Item, props: Props, w: Style)
    ensures Print([it], w) == PrintItem(it, w) && Eval([it], props) == EvalItem(it, props)
  {
    assert Print([], w) == "" && Eval([], props) == "";
  }

  /** Parsing printed items, up to the end or up to a closing parenthesis, gives them back, character by character. */
  lemma ParsePrint(items: seq<Item>, inside: bool, rest: string, w: Style)
    requires Spelled(w) && Printable(items) && Complete(rest) && (rest == "" || (inside && rest[0] == ')'))
    ensures Complete(Print(items, w) + rest)
    ensures Parse(Print(items, w) + rest, inside) == (Split(items), if rest == "" then "" else rest[1..])
  {
    SplitPrint(items, Props(_ => None, _ => false), w);
    ParseSingle(Split(items), inside, rest, w);
  }

  /** The printed form of a tree means what the tree evaluates to. */
  lemma MeaningOfPrint(items: seq<Item>, props: Props, w: Style)
    requires Spelled(w) && Printable(items)
    ensures Complete(Print(items, w)) && Meaning(Print(items, w), props) == Eval(items, props)
  {
    ParsePrint(items, false, "", w);
    SplitPrint(items, props, w);
    assert Print(items, w) + "" == Print(items, w);
  }

  // ---------- what each escape stands for ----------

  lemma EscapeMeans(e: string, c: string, rest: string, props: Props)
    requires Complete(e) && Complete(rest) && e != "" && e + rest != "\\" && Next(e + rest, false) == (Text(c), |e|)
    ensures Complete(e + rest) && Meaning(e + rest, props) == c + Meaning(rest, props)
  {
    hide Parse, Next, Eval, EvalItem, Complete;
    CompleteSum(e, rest);
    ParseStep(e + rest, false);
    assert (e + rest)[|e|..] == rest;
    EvalLit(c, Parse(rest, false).0, props);
  }

  lemma EvalLit(c: string, more: seq<Item>, props: Props)
    ensures Eval([Lit(c)] + more, props) == c + Eval(more, props)
  {
    assert ([Lit(c)] + more)[0] == Lit(c) && ([Lit(c)] + more)[1..] == more;
  }

  /** The letters. */
  lemma LetterEscapes(rest: string, props: Props)
    requires Complete(rest)
    ensures Complete("\\e" + rest) && Meaning("\\e" + rest, props) == [27 as char] + Meaning(rest, props)
    ensures Complete("\\n" + rest) && Meaning("\\n" + rest, props) == "\n" + Meaning(rest, props)
    ensures Complete("\\r" + rest) && Meaning("\\r" + rest, props) == "\r" + Meaning(rest, props)
    ensures Complete("\\t" + rest) && Meaning("\\t" + rest, props) == "\t" + Meaning(rest, props)
    ensures Complete("\\x") && Meaning("\\x", props) == ""
  {
    LastOf("\\e");
    LastOf("\\n");
    LastOf("\\r");
    LastOf("\\t");
    LastOf("\\x");
    EscapeMeans("\\e", [27 as char], rest, props);
    EscapeMeans("\\n", "\n", rest, props);
    EscapeMeans("\\r", "\r", rest, props);
    EscapeMeans("\\t", "\t", rest, props);
    assert "\\x" + "" == "\\x";
    EscapeMeans("\\x", "", "", props);
    assert Parse("", false).0 == [] && Eval([], props) == "";
  }

  /** Any other character stands for itself. */
  lemma OtherEscapes(c: char, rest: string, props: Props)
    requires Complete(rest) && c !in "enrtx"
    ensures Complete(['\\', c] + rest) && Meaning(['\\', c] + rest, props) == [c] + Meaning(rest, props)
  {
    SpelledComplete(['\\', c], c);
    NextSpelled(['\\', c], c, rest, false);
    EscapeMeans(['\\', c], [c], rest, props);
  }

  /** What follows `\x`: two hexadecimal digits, or one; a space or a sign and a digit; anything else gives a NUL byte
      and is not used up. */
  lemma HexEscapes(a: char, b: char, rest: string, props: Props)
    requires Complete([b] + rest) && Complete(rest) && Complete([a, b] + rest)
    ensures Complete(['\\', 'x', a, b] + rest)
    ensures var v := Meaning(['\\', 'x', a, b] + rest, props);
      if Digit(a) < 16 && Digit(b) < 16 then v == [(16 * Digit(a) + Digit(b)) as char] + Meaning(rest, props)
      else if Digit(a) < 16 then v == [Digit(a) as char] + Meaning([b] + rest, props)
      else if Digit(b) < 16 && a == '-' then v == [((256 - Digit(b)) % 256) as char] + Meaning(rest, props)
      else if Digit(b) < 16 && (a in "+ " || 9 <= a as int <= 13) then v == [Digit(b) as char] + Meaning(rest, props)
      else v == [0 as char] + Meaning([a, b] + rest, props)
  {
    var s := ['\\', 'x', a, b] + rest;
    var two, one, none := ['\\', 'x', a, b], ['\\', 'x', a], ['\\', 'x'];
    LastOf(none);
    assert s == one + ([b] + rest) && s == none + ([a, b] + rest);
    assert s[2] == a && At(s, 3) == b;
    if Digit(a) < 16 && Digit(b) >= 16 {
      LastOf(one);
      EscapeMeans(one, [Digit(a) as char], [b] + rest, props);
    } else if Digit(b) < 16 && (Digit(a) < 16 || IsSpace(a) || a == '+' || a == '-') {
      LastOf(two);
      var (v, used) := StrToL(a, b);
      EscapeMeans(two, [(v % 256) as char], rest, props);
    } else {
      EscapeMeans(none, [0 as char], [a, b] + rest, props);
    }
  }

  // ---------- what everything else stands for ----------

  /** Text that is no escape and starts neither a property nor a condition, such as a parenthesis outside of all
      conditions. */
  lemma TextMeans(c: char, rest: string, props: Props)
    requires Complete(rest) && c != '\\'
    requires !(c == '$' && rest != "" && rest[0] == '{' && '}' in rest)
    requires !(c == '?' && rest != "" && rest[0] == '(' && ':' in rest)
    ensures Complete([c] + rest) && Meaning([c] + rest, props) == [c] + Meaning(rest, props)
  {
    var s := [c] + rest;
    LastOf([c]);
    assert s[0] == c && s[1..] == rest;
    if |s| > 1 {
      assert s[..2] == [c, rest[0]];
      NotFound(s[2..], '}');
      NotFound(s[2..], ':');
      assert s[2..] == rest[1..] && rest == [rest[0]] + rest[1..];
    }
    EscapeMeans([c], [c], rest, props);
  }

  lemma NotFound(s: string, c: char)
    ensures c !in s ==> Find(s, c) == |s|
  {}

  /** A property stands for its text, or for nothing. */
  lemma PropMeans(name: string, rest: string, props: Props)
    requires Complete(rest) && '}' !in name
    ensures Complete("${" + name + "}" + rest)
    ensures Meaning("${" + name + "}" + rest, props) ==
      (if props.text(name).Some? then props.text(name).value else "") + Meaning(rest, props)
  {
    ParseItem(Prop(name), false, rest, Usual);
    FirstMeans(Prop(name), Parse(rest, false).0, props);
  }

  lemma FirstMeans(it: Item, more: seq<Item>, props: Props)
    ensures Eval([it] + more, props) == EvalItem(it, props) + Eval(more, props)
  {
    assert ([it] + more)[0] == it && ([it] + more)[1..] == more;
    hide EvalItem;
  }

  /** A condition stands for what is in it if the property is there, or is not there when it is negated, and for nothing
      otherwise. */
  lemma CondMeans(neg: bool, name: string, body: seq<Item>, rest: string, props: Props, w: Style)
    requires Spelled(w) && Printable(body) && ':' !in name && (neg || name == "" || name[0] != '!') && Complete(rest)
    ensures Complete(Print(body, w))
    ensures var s := "?(" + (if neg then "!" else "") + name + ":" + Print(body, w) + ")" + rest;
      Complete(s) && Meaning(s, props) ==
        (if props.has(name) == !neg then Meaning(Print(body, w), props) else "") + Meaning(rest, props)
  {
    hide Parse, Complete, Print;
    MeaningOfPrint(body, props, w);
    CompleteClose(rest);
    ParsePrint(body, true, ")" + rest, w);
    assert (")" + rest)[1..] == rest;
    ParseCond(neg, name, false, Print(body, w) + (")" + rest));
    assert "?(" + (if neg then "!" else "") + name + ":" + Print(body, w) + ")" + rest
      == Head(neg, name) + (Print(body, w) + (")" + rest));
    FirstMeans(Cond(neg, name, Split(body)), Parse(rest, false).0, props);
    SplitPrint(body, props, w);
  }

  /** A condition that is not closed reaches to the end. */
  lemma OpenCondMeans(neg: bool, name: string, body: seq<Item>, props: Props, w: Style)
    requires Spelled(w) && Printable(body) && ':' !in name && (neg || name == "" || name[0] != '!')
    ensures Complete(Print(body, w))
    ensures var s := "?(" + (if neg then "!" else "") + name + ":" + Print(body, w);
      Complete(s) && Meaning(s, props) == if props.has(name) == !neg then Meaning(Print(body, w), props) else ""
  {
    hide Parse, Complete, Print;
    MeaningOfPrint(body, props, w);
    assert Complete("") && Parse("", false) == ([], "") by { EmptyTemplate(); }
    ParsePrint(body, true, "", w);
    assert Print(body, w) + "" == Print(body, w);
    ParseCond(neg, name, false, Print(body, w));
    FirstMeans(Cond(neg, name, Split(body)), [], props);
    SplitPrint(body, props, w);
  }

  lemma EmptyTemplate()
    ensures Complete("") && Parse("", false) == ([], "")
  {}

  // ---------- the one-pass machine ----------

  /** What the rest of a template adds inside the open conditions `conds`, outermost first. */
  ghost function Finish(s: string, conds: seq<bool>, props: Props): string
    requires Complete(s)
    decreases |conds|
  {
    var r := Parse(s, conds != []);
    (if false in conds then "" else Eval(r.0, props)) +
    if conds == [] then "" else Finish(r.1, conds[..|conds| - 1], props)
  }

  /** `skip` and `skip_lvl` stand for the outermost open condition that does not hold. */
  ghost predicate Tracks(conds: seq<bool>, skip: bool, skipLvl: nat) {
    && (skip <==> false in conds)
    && (skip ==> 0 < skipLvl <= |conds| && !conds[skipLvl - 1] && forall j :: 0 <= j < skipLvl - 1 ==> conds[j])
  }

  lemma FinishItem(s: string, conds: seq<bool>, props: Props, it: Item, k: nat)
    requires Complete(s) && s != "" && k <= |s| && Complete(s[k..])
    requires Parse(s, conds != []) == ([it] + Parse(s[k..], conds != []).0, Parse(s[k..], conds != []).1)
    ensures Finish(s, conds, props) ==
      (if false in conds then "" else EvalItem(it, props)) + Finish(s[k..], conds, props)
  {
    hide Parse, EvalItem;
    var r := Parse(s[k..], conds != []);
    assert ([it] + r.0)[1..] == r.0;
  }

  lemma FinishText(s: string, conds: seq<bool>, props: Props)
    requires Complete(s) && s != "" && s != "\\" && (Next(s, conds != []).0.Text? || Next(s, conds != []).0.Use?)
    ensures var (token, k) := Next(s, conds != []);
      Complete(s[k..]) && Finish(s, conds, props) ==
        (if false in conds then "" else EvalItem(if token.Text? then Lit(token.t) else Prop(token.name), props)) +
        Finish(s[k..], conds, props)
  {
    hide Finish, EvalItem, Next, Parse;
    var (token, k) := Next(s, conds != []);
    ParseStep(s, conds != []);
    FinishItem(s, conds, props, if token.Text? then Lit(token.t) else Prop(token.name), k);
  }

  lemma FinishClose(s: string, conds: seq<bool>, props: Props)
    requires Complete(s) && s != "" && s != "\\" && conds != [] && Next(s, true).0.Close?
    ensures Complete(s[1..]) && Next(s, true).1 == 1
    ensures Finish(s, conds, props) == Finish(s[1..], conds[..|conds| - 1], props)
  {
    ParseStep(s, true);
  }

  lemma FinishOpen(s: string, conds: seq<bool>, props: Props)
    requires Complete(s) && s != "" && s != "\\" && Next(s, conds != []).0.Open?
    ensures var (token, k) := Next(s, conds != []);
      Complete(s[k..]) &&
      Finish(s, conds, props) == Finish(s[k..], conds + [props.has(token.name) != token.neg], props)
  {
    hide Next, Parse, Finish;
    var (token, k) := Next(s, conds != []);
    ParseStep(s, conds != []);
    var c := props.has(token.name) != token.neg;
    var body := Parse(s[k..], true);
    var more := conds + [c];
    assert more[..|conds|] == conds;
    var after := Parse(body.1, conds != []);
    FinishIs(s, conds, props);
    FinishIs(s[k..], more, props);
    FinishIs(body.1, conds, props);
    EvalCond(token.neg, token.name, body.0, after.0, props);
    FalseIn(conds, c);
    hide *;
    OpenText(false in conds, c, Eval(body.0, props), Eval(after.0, props),
      if conds == [] then "" else Finish(after.1, conds[..|conds| - 1], props));
  }

  lemma OpenText(skip: bool, c: bool, inner: string, after: string, above: string)
    ensures (if skip then "" else (if c then inner else "") + after) + above
      == (if skip || !c then "" else inner) + ((if skip then "" else after) + above)
  {
    assert (inner + after) + above == inner + (after + above);
    assert "" + after == after && "" + above == above;
    assert "" + ("" + above) == above && "" + (after + above) == after + above;
  }

  lemma EvalCond(neg: bool, name: string, body: seq<Item>, more: seq<Item>, props: Props)
    ensures Eval([Cond(neg, name, body)] + more, props) ==
      (if props.has(name) != neg then Eval(body, props) else "") + Eval(more, props)
  {
    assert ([Cond(neg, name, body)] + more)[1..] == more;
  }

  lemma FinishIs(s: string, conds: seq<bool>, props: Props)
    requires Complete(s)
    ensures Finish(s, conds, props) ==
      (if false in conds then "" else Eval(Parse(s, conds != []).0, props)) +
      if conds == [] then "" else Finish(Parse(s, conds != []).1, conds[..|conds| - 1], props)
  {
    hide Parse, Eval;
  }

  lemma FalseIn(conds: seq<bool>, c: bool)
    ensures false in conds + [c] <==> false in conds || !c
  {}

  lemma TracksClose(conds: seq<bool>, skip: bool, skipLvl: nat)
    requires Tracks(conds, skip, skipLvl) && conds != []
    ensures Tracks(conds[..|conds| - 1], skip && |conds| > skipLvl, skipLvl)
  {
    var fewer := conds[..|conds| - 1];
    if skip && |conds| > skipLvl {
      assert fewer[skipLvl - 1] == conds[skipLvl - 1];
    }
  }

  lemma TracksOpen(conds: seq<bool>, skip: bool, skipLvl: nat, c: bool)
    requires Tracks(conds, skip, skipLvl)
    ensures Tracks(conds + [c], skip || !c, if skip || c then skipLvl else |conds| + 1)
  {
    FalseIn(conds, c);
    forall j | !skip && 0 <= j < |conds| ensures conds[j] {
      assert conds[j] in conds;
    }
  }

  /** One backslash escape: its text and the length of its argument. */
  method Escape(str: string, i: nat) returns (p: string, sl: nat)
    requires i + 1 < |str| && str[i] == '\\'
    ensures Next(str[i..], false) == (Text(p), 1 + sl) && Next(str[i..], true) == (Text(p), 1 + sl)
  {
    sl := 1;
    if str[i + 1] == 'e' {
      p := [ESC];
    } else if str[i + 1] == 'n' {
      p := "\n";
    } else if str[i + 1] == 'r' {
      p := "\r";
    } else if str[i + 1] == 't' {
      p := "\t";
    } else if str[i + 1] == 'x' {
      if i + 2 < |str| {
        var (v, used) := StrToL(str[i + 2], At(str, i + 3));
        assert At(str[i..], 3) == At(str, i + 3);
        sl := used + 1;
        p := [(v % 256) as char];
      } else {
        p := "";
      }
    } else {
      p := [str[i + 1]];
    }
  }

  /** Add text to the output, growing the buffer so that the terminator still fits. */
  method Append(ret: array<char>, pos: nat, p: string) returns (ret': array<char>, pos': nat)
    requires pos < ret.Length
    modifies ret
    ensures pos' < ret'.Length && ret'[..pos'] == old(ret[..pos]) + p
    ensures ret' == ret || fresh(ret')
  {
    ret' := ret;
    if pos + |p| + 1 > ret.Length {
      ret' := new char[pos + |p| + 512];
      forall k | 0 <= k < pos {
        ret'[k] := ret[k];
      }
      assert ret'[..pos] == ret[..pos];
    }
    forall k | 0 <= k < |p| {
      ret'[pos + k] := p[k];
    }
    pos' := pos + |p|;
    assert ret'[..pos'] == ret'[..pos] + p;
  }

  /** `m_properties_expand_string`: fails only where the source would read past the end of the template. */
  method Expand(str: string, props: Props) returns (ok: bool, ret: array<char>, pos: nat)
    ensures ok <==> Complete(str)
    ensures fresh(ret)
    ensures ok ==> pos < ret.Length && ret[pos] == NUL && ret[..pos] == Meaning(str, props)
  {
    ret := new char[|str| + 512];
    pos := 0;
    ok := true;
    var i, skip, lvl, skipLvl := 0, false, 0, 0;
    ghost var conds: seq<bool> := [];
    assert str[0..] == str && ret[..0] == "";
    while i < |str| && ok
      invariant i <= |str| && pos < ret.Length && fresh(ret)
      invariant Complete(str) <==> Complete(str[i..])
      invariant !ok ==> i < |str| && str[i..] == "\\"
      invariant lvl == |conds| && Tracks(conds, skip, skipLvl)
      invariant Complete(str) ==> ret[..pos] + Finish(str[i..], conds, props) == Meaning(str, props)
      decreases |str| - i, ok
    {
      hide Complete, Finish, Meaning, Tracks, Parse;
      ok, ret, pos, i, skip, lvl, skipLvl, conds := Turn(str, props, ret, pos, i, skip, lvl, skipLvl, conds);
    }
    if ok {
      assert str[i..] == "" && Complete("");
      FinishEnd(conds, props);
    } else {
      assert Backslashes("\\") == 1 + Backslashes("\\"[..0]);
    }
    ret[pos] := NUL;
  }

  lemma {:induction false} FinishEnd(conds: seq<bool>, props: Props)
    ensures Complete("") && Finish("", conds, props) == ""
    decreases |conds|
  {
    if conds != [] {
      FinishEnd(conds[..|conds| - 1], props);
    }
  }

  /** Output a piece, unless it is being skipped. */
  method Emit(ret: array<char>, pos: nat, p: string, skip: bool) returns (ret': array<char>, pos': nat)
    requires pos < ret.Length
    modifies ret
    ensures pos' < ret'.Length && ret'[..pos'] == old(ret[..pos]) + if skip then "" else p
    ensures ret' == ret || fresh(ret')
  {
    ret', pos' := ret, pos;
    if skip || p == "" {
      return;
    }
    ret', pos' := Append(ret, pos, p);
  }

  lemma NextIsClose(s: string)
    requires s != "" && s[0] == ')'
    ensures s != "\\" && Next(s, true) == (Close, 1)
  {}

  lemma NextUse(str: string, i: nat, inside: bool, e: nat)
    requires i + 1 < |str| && str[i] == '$' && str[i + 1] == '{' && e == i + 2 + Find(str[i + 2..], '}') < |str|
    ensures str[i..] != "\\" && Next(str[i..], inside) == (Use(str[i + 2..e]), e + 1 - i)
  {
    var s := str[i..];
    assert s[2..] == str[i + 2..] && s[..2] == "${" && s[2..e - i] == str[i + 2..e];
    hide Find;
  }

  lemma NextOpen(str: string, i: nat, inside: bool, e: nat)
    requires i + 1 < |str| && str[i] == '?' && str[i + 1] == '(' && e == i + 2 + Find(str[i + 2..], ':') < |str|
    ensures str[i..] != "\\" && (str[i + 2] == '!' ==> i + 3 <= e)
    ensures Next(str[i..], inside) ==
      (Open(str[i + 2] == '!', str[if str[i + 2] == '!' then i + 3 else i + 2..e]), e + 1 - i)
  {
    var s := str[i..];
    assert s[2..] == str[i + 2..] && s[..2] == "?(" && s[2..e - i] == str[i + 2..e];
    if str[i + 2] == '!' {
      assert s[3..e - i] == str[i + 3..e];
    }
    hide Find;
  }

  lemma NextChar(str: string, i: nat, inside: bool, e: nat)
    requires i < |str| && str[i] != '\\' && !(inside && str[i] == ')') && e <= |str|
    requires str[i] == '$' && At(str, i + 1) == '{' ==> e == |str| && e == i + 2 + Find(str[i + 2..], '}')
    requires str[i] == '?' && At(str, i + 1) == '(' ==> e == |str| && e == i + 2 + Find(str[i + 2..], ':')
    ensures str[i..] != "\\" && Next(str[i..], inside) == (Text([str[i]]), 1)
  {
    var s := str[i..];
    if |s| > 1 {
      assert s[2..] == str[i + 2..] && s[..2] == [str[i], str[i + 1]];
    }
    hide Find;
  }

  lemma TextOf(token: Token, p: string, props: Props)
    requires token.Text? || token.Use?
    requires p ==
      if token.Text? then token.t
      else if props.text(token.name).Some? then props.text(token.name).value else ""
    ensures EvalItem(if token.Text? then Lit(token.t) else Prop(token.name), props) == p
  {}

  lemma TracksSkip(conds: seq<bool>, skip: bool, skipLvl: nat)
    requires Tracks(conds, skip, skipLvl)
    ensures skip <==> false in conds
  {}

  /** The condition just opened: unless something is being skipped, skip its text if it does not hold. */
  method Test(props: Props, name: string, isNot: bool, skip: bool, lvl: nat, skipLvl: nat, ghost conds: seq<bool>)
    returns (skip': bool, skipLvl': nat, ghost conds': seq<bool>)
    requires Tracks(conds, skip, skipLvl) && lvl == |conds| + 1
    ensures conds' == conds + [props.has(name) != isNot] && Tracks(conds', skip', skipLvl')
  {
    conds' := conds + [props.has(name) != isNot];
    skip', skipLvl' := skip, skipLvl;
    TracksOpen(conds, skip, skipLvl, props.has(name) != isNot);
    if !skip {
      if !props.has(name) {
        if !isNot {
          skip', skipLvl' := true, lvl;
        }
      } else if isNot {
        skip', skipLvl' := true, lvl;
      }
    }
  }

  /** One turn of the loop. */
  method Turn(str: string, props: Props, ret: array<char>, pos: nat, i: nat, skip: bool, lvl: nat, skipLvl: nat,
              ghost conds: seq<bool>)
    returns (ok: bool, ret': array<char>, pos': nat, i': nat, skip': bool, lvl': nat, skipLvl': nat,
             ghost conds': seq<bool>)
    requires i < |str| && pos < ret.Length && lvl == |conds| && Tracks(conds, skip, skipLvl)
    modifies ret
    ensures pos' < ret'.Length && (ret' == ret || fresh(ret'))
    ensures lvl' == |conds'| && Tracks(conds', skip', skipLvl')
    ensures i <= i' <= |str| && (Complete(str[i..]) <==> Complete(str[i'..]))
    ensures if ok then i < i' else i' == i && str[i..] == "\\"
    ensures Complete(str[i..]) ==>
      old(ret[..pos]) + Finish(str[i..], conds, props) == ret'[..pos'] + Finish(str[i'..], conds', props)
  {
    hide Complete, Finish, Parse, Tracks, Find, StrToL, Next, EvalItem;
    ok, ret', pos', i', skip', lvl', skipLvl', conds' := true, ret, pos, i, skip, lvl, skipLvl, conds;
    ghost var s := str[i..];
    if str[i] == '\\' && i + 1 == |str| {
      // the source reads past the terminator here
      ok := false;
      return;
    }
    ghost var (token, k) := Next(s, lvl > 0);
    NextComplete(s, lvl > 0);
    assert s[k..] == str[i + k..];
    var p := "";
    if str[i] == '\\' {
      var sl;
      p, sl := Escape(str, i);
      i' := i + 1 + sl;
    } else if lvl > 0 && str[i] == ')' {
      NextIsClose(s);
      if Complete(s) { FinishClose(s, conds, props); }
      TracksClose(conds, skip, skipLvl);
      if skip && lvl <= skipLvl {
        skip' := false;
      }
      lvl', i', conds' := lvl - 1, i + 1, conds[..|conds| - 1];
      return;
    } else {
      var use, cond := str[i] == '$' && At(str, i + 1) == '{', str[i] == '?' && At(str, i + 1) == '(';
      var e := |str|;
      if use || cond {
        e := StrChr(str, i + 2, if use then '}' else ':');
      }
      if use && e < |str| {
        NextUse(str, i, lvl > 0, e);
        var text := props.text(str[i + 2..e]);
        p := if text.Some? then text.value else "";
        i' := e + 1;
      } else if cond && e < |str| {
        NextOpen(str, i, lvl > 0, e);
        if Complete(s) { FinishOpen(s, conds, props); }
        var isNot := str[i + 2] == '!';
        var name := str[if isNot then i + 3 else i + 2..e];
        lvl' := lvl + 1;
        skip', skipLvl', conds' := Test(props, name, isNot, skip, lvl', skipLvl, conds);
        i' := e + 1;
        return;
      } else {
        NextChar(str, i, lvl > 0, e);
        p := [str[i]];
        i' := i + 1;
      }
    }
    assert i' == i + k && !token.Close? && !token.Open?;
    if Complete(s) { FinishText(s, conds, props); }
    TextOf(token, p, props);
    TracksSkip(conds, skip, skipLvl);
    ret', pos' := Emit(ret, pos, p, skip);
    if Complete(s) {
      Grouped(old(ret[..pos]), if false in conds then "" else p, Finish(s[k..], conds, props));
    }
  }

}
