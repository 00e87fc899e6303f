/** How parser-mpcmd.c builds the playlist tree from the command line. */
module CommandLine {
  import opened Common
  import opened PlayTree
  import opened PlayTreeEdit

  /** An argument, after options were told from file names: a brace, a file, a --loop with its number and its
      text, or another option for files. */
  datatype Arg = Open | Close | File(name: string) | Loop(l: int, text: string) | Set(name: string, value: string)

  // ---------- playlists ----------

  datatype Item =
    | Leaf(name: string, params: Params)
    | Branch(kids: seq<Item>, loop: int, params: Params)

  function Settings(params: Params): seq<Arg> {
    if params == [] then [] else [Set(params[0].0, params[0].1)] + Settings(params[1..])
  }

  /** How an item is written: what is set for a group right behind its opening brace, or behind its closing one; which
      number stands for an endless group; and whether a loop parameter of a file is written as the option, with any
      number. */
  datatype Layout = Layout(inside: bool, endless: int, asLoop: bool, number: int)

  type Style = Item -> Layout

  ghost predicate Proper(w: Style) {
    forall it :: w(it).endless <= 0
  }

  function FileSettings(params: Params, l: Layout): seq<Arg> {
    if params == [] then []
    else
      [if params[0].0 == "loop" && l.asLoop then Loop(l.number, params[0].1) else Set(params[0].0, params[0].1)]
      + FileSettings(params[1..], l)
  }

  function GroupSettings(loop: int, params: Params, l: Layout): seq<Arg> {
    (if loop == 0 then [] else [Loop(if loop < 0 then l.endless else loop, "")]) + Settings(params)
  }

  /** The arguments that describe a list of items, each with what is set for it. */
  function Print(items: seq<Item>, w: Style): seq<Arg>
    decreases items, 1
  {
    if items == [] then [] else PrintItem(items[0], w) + Print(items[1..], w)
  }

  function PrintItem(it: Item, w: Style): seq<Arg>
    decreases it, 0
  {
    match it
    case Leaf(name, params) => [File(name)] + FileSettings(params, w(it))
    case Branch(kids, loop, params) =>
      if w(it).inside
      then ([Open] + GroupSettings(loop, params, w(it))) + (Print(kids, w) + [Close])
      else ([Open] + (Print(kids, w) + [Close])) + GroupSettings(loop, params, w(it))
  }

  /** The whole command line: global options, the loop count of the whole playlist, and the items. */
  function Written(items: seq<Item>, loop: int, globals: Params, w: Style): seq<Arg> {
    Settings(globals) + (GroupSettings(loop, [], w(Branch(items, loop, []))) + Print(items, w))
  }

  /** Loop counts are positive, or -1 for without end, or not given; behind its closing brace an empty group cannot be
      given one. */
  predicate Printable(items: seq<Item>, w: Style)
    decreases items, 1
  {
    items != [] ==> PrintableItem(items[0], w) && Printable(items[1..], w)
  }

  predicate PrintableItem(it: Item, w: Style)
    decreases it, 0
  {
    it.Branch? ==> it.loop >= -1 && (it.kids == [] && !w(it).inside ==> it.loop == 0) && Printable(it.kids, w)
  }

  // ---------- what the arguments mean ----------

  /** The open groups, outermost first, each with the children it has so far besides the next open group. */
  datatype State = State(open: seq<Item>, started: bool)

  predicate Fits(s: State) {
    s.open != [] && forall g :: g in s.open ==> g.Branch?
  }

  function Last<T>(s: seq<T>): T
    requires s != []
  {
    s[|s| - 1]
  }

  function Front<T>(s: seq<T>): seq<T>
    requires s != []
  {
    s[..|s| - 1]
  }

  function Added(g: Item, x: Item): Item
    requires g.Branch?
  {
    g.(kids := g.kids + [x])
  }

  /** What is set applies to the last child of the innermost group, or to the group while it is empty. */
  function Target(g: Item): Item
    requires g.Branch?
  {
    if g.kids == [] then g else Last(g.kids)
  }

  function Retarget(g: Item, x: Item): Item
    requires g.Branch?
  {
    if g.kids == [] then x else g.(kids := Front(g.kids) + [x])
  }

  function WithParam(it: Item, name: string, value: string): Item {
    it.(params := it.params + [(name, value)])
  }

  function LoopCount(l: int): int {
    if l <= 0 then -1 else l
  }

  /** A loop count applies to a group that has children, and to the group just opened. */
  predicate LoopsGroup(g: Item)
    requires g.Branch?
  {
    g.kids == [] || (Last(g.kids).Branch? && Last(g.kids).kids != [])
  }

  /** One argument. Too many closing braces are an error. */
  function Step(s: State, a: Arg): (r: Option<State>)
    requires Fits(s)
    ensures r.Some? ==> Fits(r.value)
  {
    var g := Last(s.open);
    match a
    case Open => Some(State(s.open + [Branch([], 0, [])], true))
    case Close => if |s.open| == 1 then None else Some(State(Closed(s.open), s.started))
    case File(name) => Some(State(Front(s.open) + [Added(g, Leaf(name, []))], true))
    case Loop(l, text) =>
      var t := Target(g);
      var u := if LoopsGroup(g) then t.(loop := LoopCount(l)) else WithParam(t, "loop", text);
      if LoopsGroup(g) || s.started then Some(State(Front(s.open) + [Retarget(g, u)], s.started)) else Some(s)
    case Set(name, value) =>
      if s.started then Some(State(Front(s.open) + [Retarget(g, WithParam(Target(g), name, value))], true)) else Some(s)
  }

  /** The innermost group goes to the one around it. */
  function Closed(open: seq<Item>): (r: seq<Item>)
    requires |open| > 1 && forall g :: g in open ==> g.Branch?
    ensures |r| == |open| - 1 && forall g :: g in r ==> g.Branch?
  {
    Front(Front(open)) + [Added(Last(Front(open)), Last(open))]
  }

  /** The whole tree: groups left open end with the arguments. */
  function Whole(open: seq<Item>): Item
    requires open != [] && forall g :: g in open ==> g.Branch?
    decreases |open|
  {
    if |open| == 1 then open[0] else Whole(Closed(open))
  }

  function Run(s: State, args: seq<Arg>): (r: Option<State>)
    requires Fits(s)
    ensures r.Some? ==> Fits(r.value)
    decreases |args|
  {
    if args == [] then Some(s)
    else
      var r := Step(s, args[0]);
      if r.None? then None else Run(r.value, args[1..])
  }

  const EMPTY := State([Branch([], 0, [])], false)

  // ---------- a printed playlist is read back ----------

  lemma {:induction false} RunConcat(s: State, a: seq<Arg>, b: seq<Arg>)
    requires Fits(s)
    ensures Run(s, a + b) == if Run(s, a).None? then None else Run(Run(s, a).value, b)
    decreases |a|
  {
    hide Step;
    if a == [] {
      assert a + b == b;
    } else {
      assert (a + b)[1..] == a[1..] + b;
      var r := Step(s, a[0]);
      if r.Some? {
        RunConcat(r.value, a[1..], b);
      }
    }
  }

  ghost function With(pre: seq<Item>, g: Item): State {
    State(pre + [g], true)
  }

  lemma RunOne(s: State, a: Arg)
    requires Fits(s)
    ensures Run(s, [a]) == Step(s, a)
  {
    hide Step;
    assert [a][1..] == [];
  }

  /** Options right after an item are set for it. */
  lemma {:induction false} RunSettings(pre: seq<Item>, g: Item, it: Item, params: Params)
    requires g.Branch? && Fits(With(pre, Added(g, it)))
    ensures Run(With(pre, Added(g, it)), Settings(params)) ==
      Some(With(pre, Added(g, it.(params := it.params + params))))
    decreases |params|
  {
    if params == [] {
      assert it.params + params == it.params;
    } else {
      var s := With(pre, Added(g, it));
      var more := WithParam(it, params[0].0, params[0].1);
      StepSet(pre, g, it, params[0].0, params[0].1);
      RunSettings(pre, g, more, params[1..]);
      assert it.params + params == more.params + params[1..];
      assert params[0] == (params[0].0, params[0].1);
      hide Step;
      assert Settings(params)[1..] == Settings(params[1..]);
    }
  }

  lemma StepSet(pre: seq<Item>, g: Item, it: Item, name: string, value: string)
    requires g.Branch? && Fits(With(pre, Added(g, it)))
    ensures Step(With(pre, Added(g, it)), Set(name, value)) == Some(With(pre, Added(g, WithParam(it, name, value))))
  {
    Tops(pre, Added(g, it));
    Tops(g.kids, it);
  }

  lemma Tops<T>(pre: seq<T>, x: T)
    ensures Last(pre + [x]) == x && Front(pre + [x]) == pre
  {}

  /** So is the loop option right after a file, whatever the number. */
  lemma StepFileLoop(pre: seq<Item>, g: Item, it: Item, l: int, text: string)
    requires g.Branch? && Fits(With(pre, Added(g, it))) && it.Leaf?
    ensures Step(With(pre, Added(g, it)), Loop(l, text)) == Some(With(pre, Added(g, WithParam(it, "loop", text))))
  {
    Tops(pre, Added(g, it));
    Tops(g.kids, it);
  }

  lemma {:induction false} RunFileSettings(pre: seq<Item>, g: Item, name: string, done: Params, params: Params,
                                           l: Layout)
    requires g.Branch? && Fits(With(pre, Added(g, Leaf(name, done))))
    ensures Run(With(pre, Added(g, Leaf(name, done))), FileSettings(params, l)) ==
      Some(With(pre, Added(g, Leaf(name, done + params))))
    decreases |params|
  {
    if params == [] {
      assert done + params == done;
    } else {
      var it, more := Leaf(name, done), done + [params[0]];
      StepSet(pre, g, it, params[0].0, params[0].1);
      StepFileLoop(pre, g, it, l.number, params[0].1);
      RunFileSettings(pre, g, name, more, params[1..], l);
      assert done + params == more + params[1..];
      assert params[0] == (params[0].0, params[0].1);
      hide Step;
      assert FileSettings(params, l)[1..] == FileSettings(params[1..], l);
    }
  }

  /** What is set right behind an opening brace is set for the group. */
  lemma StepInside(pre: seq<Item>, h: Item, a: Arg)
    requires h.Branch? && h.kids == [] && Fits(With(pre, h))
    ensures a.Set? ==> Step(With(pre, h), a) == Some(With(pre, WithParam(h, a.name, a.value)))
    ensures a.Loop? ==> Step(With(pre, h), a) == Some(With(pre, h.(loop := LoopCount(a.l))))
  {
    Tops(pre, h);
  }

  lemma {:induction false} RunInside(pre: seq<Item>, h: Item, params: Params)
    requires h.Branch? && h.kids == [] && Fits(With(pre, h))
    ensures Run(With(pre, h), Settings(params)) == Some(With(pre, h.(params := h.params + params)))
    decreases |params|
  {
    if params == [] {
      assert h.params + params == h.params;
    } else {
      var more := WithParam(h, params[0].0, params[0].1);
      StepInside(pre, h, Set(params[0].0, params[0].1));
      FitsWith(pre, h, more);
      RunInside(pre, more, params[1..]);
      assert h.params + params == more.params + params[1..];
      assert params[0] == (params[0].0, params[0].1);
      hide Step;
      assert Settings(params)[1..] == Settings(params[1..]);
    }
  }

  lemma StepFile(pre: seq<Item>, g: Item, name: string)
    requires Fits(With(pre, g))
    ensures Step(With(pre, g), File(name)) == Some(With(pre, Added(g, Leaf(name, []))))
  {
    Tops(pre, g);
  }

  lemma StepOpen(pre: seq<Item>, g: Item)
    requires Fits(With(pre, g))
    ensures Step(With(pre, g), Open) == Some(With(pre + [g], Branch([], 0, [])))
  {}

  lemma StepClose(pre: seq<Item>, g: Item, h: Item)
    requires Fits(With(pre, g)) && h.Branch? && g.Branch?
    ensures Fits(With(pre + [g], h))
    ensures Step(With(pre + [g], h), Close) == Some(With(pre, Added(g, h)))
  {
    Tops(pre + [g], h);
    Tops(pre, g);
  }

  lemma StepLoop(pre: seq<Item>, g: Item, it: Item, l: int)
    requires g.Branch? && Fits(With(pre, Added(g, it))) && it.Branch? && it.kids != []
    ensures Step(With(pre, Added(g, it)), Loop(l, "")) == Some(With(pre, Added(g, it.(loop := LoopCount(l)))))
  {
    Tops(pre, Added(g, it));
    Tops(g.kids, it);
  }

  ghost function Grown(g: Item, items: seq<Item>): Item
    requires g.Branch?
  {
    g.(kids := g.kids + items)
  }

  lemma FitsWith(pre: seq<Item>, g: Item, h: Item)
    requires Fits(With(pre, g)) && h.Branch?
    ensures Fits(With(pre, h)) && g.Branch?
  {
    assert g in pre + [g];
    forall x | x in pre + [h] ensures x.Branch? {
      assert x in pre ==> x in pre + [g];
    }
  }

  lemma FitsOpen(pre: seq<Item>, g: Item)
    requires Fits(With(pre, g))
    ensures Fits(With(pre + [g], Branch([], 0, [])))
  {}

  /** The number for a loop count stands for it. */
  lemma LoopRead(loop: int, l: Layout)
    requires loop >= -1 && loop != 0 && l.endless <= 0
    ensures LoopCount(if loop < 0 then l.endless else loop) == loop
  {}

  /** Reading the arguments printed for items adds these items to the innermost group. */
  lemma {:induction false} RunPrint(pre: seq<Item>, g: Item, items: seq<Item>, w: Style)
    requires Fits(With(pre, g)) && g.Branch? && Printable(items, w) && Proper(w)
    ensures Run(With(pre, g), Print(items, w)) == Some(With(pre, Grown(g, items)))
    decreases items, 1
  {
    hide Step, Run, Fits, PrintItem, PrintableItem, Proper;
    if items == [] {
      RunNone(With(pre, g));
      assert Grown(g, items) == g;
    } else {
      RunPrintItem(pre, g, items[0], w);
      FitsWith(pre, g, Added(g, items[0]));
      RunPrint(pre, Added(g, items[0]), items[1..], w);
      RunConcat(With(pre, g), PrintItem(items[0], w), Print(items[1..], w));
      assert Grown(Added(g, items[0]), items[1..]) == Grown(g, items) by {
        assert g.kids + [items[0]] + items[1..] == g.kids + items;
      }
    }
  }

  lemma {:induction false} RunPrintItem(pre: seq<Item>, g: Item, it: Item, w: Style)
    requires Fits(With(pre, g)) && g.Branch? && PrintableItem(it, w) && Proper(w)
    ensures Run(With(pre, g), PrintItem(it, w)) == Some(With(pre, Added(g, it)))
    decreases it, 0
  {
    hide Step, Run, Fits, FileSettings, GroupSettings;
    match it
    case Leaf(name, params) =>
      StepFile(pre, g, name);
      RunOne(With(pre, g), File(name));
      FitsWith(pre, g, Added(g, Leaf(name, [])));
      RunFileSettings(pre, g, name, [], params, w(it));
      RunConcat(With(pre, g), [File(name)], FileSettings(params, w(it)));
      assert [] + params == params;
    case Branch(kids, loop, params) =>
      var empty, head := Branch([], 0, []), Branch([], loop, params);
      assert w(it).endless <= 0;
      StepOpen(pre, g);
      RunOne(With(pre, g), Open);
      FitsOpen(pre, g);
      if w(it).inside {
        RunHead(pre + [g], loop, params, w(it));
        FitsWith(pre + [g], empty, head);
        RunBody(pre, g, head, kids, w);
        RunConcat(With(pre, g), [Open] + GroupSettings(loop, params, w(it)), Print(kids, w) + [Close]);
        RunConcat(With(pre, g), [Open], GroupSettings(loop, params, w(it)));
      } else {
        var done := Branch(kids, 0, []);
        RunBody(pre, g, empty, kids, w);
        FitsWith(pre, g, Added(g, done));
        RunTail(pre, g, done, loop, params, w(it));
        RunConcat(With(pre, g), [Open], Print(kids, w) + [Close]);
        RunConcat(With(pre, g), [Open] + (Print(kids, w) + [Close]), GroupSettings(loop, params, w(it)));
      }
  }

  lemma RunNone(s: State)
    requires Fits(s)
    ensures Run(s, []) == Some(s)
  {}

  /** What is set behind the opening brace. */
  lemma RunHead(pre: seq<Item>, loop: int, params: Params, l: Layout)
    requires Fits(With(pre, Branch([], 0, []))) && loop >= -1 && l.endless <= 0
    ensures Run(With(pre, Branch([], 0, [])), GroupSettings(loop, params, l)) ==
      Some(With(pre, Branch([], loop, params)))
  {
    hide Step, Run, Fits, Settings;
    var empty, looped := Branch([], 0, []), Branch([], loop, []);
    FitsWith(pre, empty, looped);
    RunInside(pre, looped, params);
    assert [] + params == params;
    if loop == 0 {
      assert GroupSettings(loop, params, l) == Settings(params);
    } else {
      var a := Loop(if loop < 0 then l.endless else loop, "");
      StepInside(pre, empty, a);
      LoopRead(loop, l);
      RunOne(With(pre, empty), a);
      RunConcat(With(pre, empty), [a], Settings(params));
    }
  }

  /** What is set behind the closing brace. */
  lemma RunTail(pre: seq<Item>, g: Item, it: Item, loop: int, params: Params, l: Layout)
    requires g.Branch? && it.Branch? && it.params == [] && it.loop == 0 && Fits(With(pre, Added(g, it)))
    requires loop >= -1 && (it.kids == [] ==> loop == 0) && l.endless <= 0
    ensures Run(With(pre, Added(g, it)), GroupSettings(loop, params, l)) ==
      Some(With(pre, Added(g, it.(loop := loop, params := params))))
  {
    hide Step, Run, Fits, Settings;
    var looped := it.(loop := loop);
    FitsWith(pre, Added(g, it), Added(g, looped));
    RunSettings(pre, g, looped, params);
    assert [] + params == params;
    if loop == 0 {
      assert looped == it;
      assert GroupSettings(loop, params, l) == Settings(params);
    } else {
      var a := Loop(if loop < 0 then l.endless else loop, "");
      StepLoop(pre, g, it, a.l);
      LoopRead(loop, l);
      RunOne(With(pre, Added(g, it)), a);
      RunConcat(With(pre, Added(g, it)), [a], Settings(params));
    }
  }

  /** Reading a group from behind its opening brace up to its closing one. */
  lemma {:induction false} RunBody(pre: seq<Item>, g: Item, head: Item, kids: seq<Item>, w: Style)
    requires Fits(With(pre, g)) && g.Branch? && head.Branch? && head.kids == [] && Printable(kids, w) && Proper(w)
    requires Fits(With(pre + [g], head))
    ensures Run(With(pre + [g], head), Print(kids, w) + [Close]) == Some(With(pre, Added(g, head.(kids := kids))))
    decreases kids, 2
  {
    hide Step, Run, Fits, Print, Printable, Proper;
    RunPrint(pre + [g], head, kids, w);
    assert [] + kids == kids;
    var full := head.(kids := kids);
    StepClose(pre, g, full);
    RunOne(With(pre + [g], full), Close);
    RunConcat(With(pre + [g], head), Print(kids, w), [Close]);
  }

  // ---------- a whole command line is read back ----------

  lemma StepGlobal(a: Arg)
    requires a.Set?
    ensures Step(EMPTY, a) == Some(EMPTY)
  {}

  /** Options before the first file leave the playlist alone. */
  lemma {:induction false} RunGlobals(globals: Params, rest: seq<Arg>)
    ensures Run(EMPTY, Settings(globals) + rest) == Run(EMPTY, rest)
    decreases |globals|
  {
    if globals == [] {
      assert Settings(globals) + rest == rest;
    } else {
      var args := Settings(globals) + rest;
      RunGlobals(globals[1..], rest);
      StepGlobal(args[0]);
      RunFirst(EMPTY, args);
      assert args[1..] == Settings(globals[1..]) + rest;
    }
  }

  lemma StepRootLoop(l: int)
    ensures Step(EMPTY, Loop(l, "")) == Some(State([Branch([], LoopCount(l), [])], false))
  {
    Tops([], Branch([], 0, []));
    assert [] + [Branch([], 0, [])] == [Branch([], 0, [])];
    assert [] + [Branch([], LoopCount(l), [])] == [Branch([], LoopCount(l), [])];
  }

  /** A loop count before the first file is that of the whole playlist. */
  lemma RunRootLoop(loop: int, l: Layout, rest: seq<Arg>)
    requires loop >= -1 && l.endless <= 0
    ensures Run(EMPTY, GroupSettings(loop, [], l) + rest) == Run(State([Branch([], loop, [])], false), rest)
  {
    if loop == 0 {
      assert GroupSettings(loop, [], l) + rest == rest;
    } else {
      var a := Loop(if loop < 0 then l.endless else loop, "");
      LoopRead(loop, l);
      var args := [a] + rest;
      assert GroupSettings(loop, [], l) == [a];
      assert args[1..] == rest && args[0] == a;
      StepRootLoop(a.l);
      hide Step;
      RunFirst(EMPTY, args);
    }
  }

  /** The first item starts the file-local options, so whether they had started does not matter. */
  lemma FirstStep(root: Item, items: seq<Item>, w: Style)
    requires items != [] && root.Branch?
    ensures Fits(State([root], false)) && Fits(With([], root))
    ensures Run(State([root], false), Print(items, w)) == Run(With([], root), Print(items, w))
  {
    hide Run;
    var args := Print(items, w);
    var head := PrintItem(items[0], w);
    assert items[0].Branch? ==> head[0] == Open;
    assert items[0].Leaf? ==> head[0] == File(items[0].name);
    assert args[0] == head[0];
    assert args != [] && (args[0].Open? || args[0].File?);
    assert [] + [root] == [root];
    RunFirst(State([root], false), args);
    RunFirst(With([], root), args);
  }

  lemma RunWritten(items: seq<Item>, loop: int, globals: Params, w: Style)
    requires Printable(items, w) && Proper(w) && items != [] && loop >= -1
    ensures Run(EMPTY, Written(items, loop, globals, w)) == Some(With([], Branch(items, loop, [])))
  {
    hide Step, Run, Print, Printable;
    var root := Branch([], loop, []);
    var l := w(Branch(items, loop, []));
    assert l.endless <= 0;
    RunGlobals(globals, GroupSettings(loop, [], l) + Print(items, w));
    RunRootLoop(loop, l, Print(items, w));
    FirstStep(root, items, w);
    RunPrint([], root, items, w);
    assert [] + items == items;
  }

  /** A playlist that is not empty, however it is written, is read back as it was. */
  lemma ReadPrinted(items: seq<Item>, loop: int, globals: Params, w: Style)
    requires Printable(items, w) && Proper(w) && items != [] && loop >= -1
    ensures var r := Run(EMPTY, Written(items, loop, globals, w));
      r.Some? && Whole(r.value.open) == Branch(items, loop, [])
  {
    RunWritten(items, loop, globals, w);
    assert [] + [Branch(items, loop, [])] == [Branch(items, loop, [])];
  }

  /** A closing brace too many is an error, whatever follows. */
  lemma BraceTooMany(items: seq<Item>, loop: int, globals: Params, w: Style, rest: seq<Arg>)
    requires Printable(items, w) && Proper(w) && items != [] && loop >= -1
    ensures Run(EMPTY, Written(items, loop, globals, w) + ([Close] + rest)) == None
  {
    hide Print, Printable;
    RunWritten(items, loop, globals, w);
    var s := With([], Branch(items, loop, []));
    RunConcat(EMPTY, Written(items, loop, globals, w), [Close] + rest);
    RunFirst(s, [Close] + rest);
  }

  /** A brace that is not closed is closed by the end. */
  lemma BraceMissing(items: seq<Item>, w: Style)
    requires Printable(items, w) && Proper(w)
    ensures var r := Run(EMPTY, [Open] + Print(items, w));
      r.Some? && Whole(r.value.open) == Branch([Branch(items, 0, [])], 0, [])
  {
    hide Print, Printable;
    var root, empty := Branch([], 0, []), Branch([], 0, []);
    var args := [Open] + Print(items, w);
    RunFirst(EMPTY, args);
    assert args[1..] == Print(items, w);
    assert [root] + [empty] == [root, empty];
    assert Step(EMPTY, Open) == Some(With([root], empty));
    RunPrint([root], empty, items, w);
    assert [] + items == items;
    var full := Branch(items, 0, []);
    Tops([root], full);
    Tops([], root);
    assert [] + [root] == [root] && [] + [full] == [full];
    assert Closed([root] + [full]) == [Branch([full], 0, [])];
  }

  lemma RunFirst(s: State, args: seq<Arg>)
    requires Fits(s) && args != []
    ensures Run(s, args) == if Step(s, args[0]).None? then None else Run(Step(s, args[0]).value, args[1..])
  {}

  // ---------- the tree in memory ----------

  type Names = map<Id, string>

  function ItemOf(t: PT, names: Names): Item
    decreases t, 0
  {
    match t
    case Entry(x, params, _) => Leaf(if x in names then names[x] else "", params)
    case Group(_, params, loop, kids) => Branch(ItemsOf(kids, names), loop, params)
  }

  function ItemsOf(ts: seq<PT>, names: Names): (r: seq<Item>)
    ensures |r| == |ts|
    decreases ts, 1
  {
    if ts == [] then [] else [ItemOf(ts[0], names)] + ItemsOf(ts[1..], names)
  }

  /** There are `d` open groups below the root, each the last child of the one above. */
  ghost predicate Deep(t: PT, d: nat)
    decreases d
  {
    t.Group? && (d > 0 ==> t.kids != [] && Deep(Last(t.kids), d - 1))
  }

  ghost function Spine(t: PT, d: nat): (r: PT)
    requires Deep(t, d)
    ensures r.Group?
    decreases d
  {
    if d == 0 then t else Spine(Last(t.kids), d - 1)
  }

  /** The tree with the innermost open group replaced. */
  ghost function Put(t: PT, d: nat, x: PT): (r: PT)
    requires Deep(t, d)
    ensures d > 0 || x.id == t.id ==> r.id == t.id
    decreases d
  {
    if d == 0 then x else t.(kids := Front(t.kids) + [Put(Last(t.kids), d - 1, x)])
  }

  /** The open groups of the tree as items. */
  ghost function OpenOf(t: PT, d: nat, names: Names): (r: seq<Item>)
    requires Deep(t, d)
    ensures |r| == d + 1 && forall g :: g in r ==> g.Branch?
    decreases d
  {
    if d == 0 then [ItemOf(t, names)]
    else [Branch(ItemsOf(Front(t.kids), names), t.loop, t.params)] + OpenOf(Last(t.kids), d - 1, names)
  }

  lemma {:induction false} ItemsConcat(a: seq<PT>, b: seq<PT>, names: Names)
    ensures ItemsOf(a + b, names) == ItemsOf(a, names) + ItemsOf(b, names)
  {
    if a == [] {
      assert a + b == b;
    } else {
      assert (a + b)[1..] == a[1..] + b;
      ItemsConcat(a[1..], b, names);
    }
  }

  lemma ItemsSnoc(ts: seq<PT>, t: PT, names: Names)
    ensures ItemsOf(ts + [t], names) == ItemsOf(ts, names) + [ItemOf(t, names)]
  {
    ItemsConcat(ts, [t], names);
    assert [t][1..] == [];
    assert ItemsOf([t], names) == [ItemOf(t, names)];
  }

  lemma {:induction false} SpineOpen(t: PT, d: nat, names: Names)
    requires Deep(t, d)
    ensures Last(OpenOf(t, d, names)) == ItemOf(Spine(t, d), names)
    decreases d
  {
    if d > 0 {
      SpineOpen(Last(t.kids), d - 1, names);
    }
  }

  lemma {:induction false} PutOpen(t: PT, d: nat, x: PT, names: Names)
    requires Deep(t, d) && x.Group?
    ensures Deep(Put(t, d, x), d) && Spine(Put(t, d, x), d) == x
    ensures OpenOf(Put(t, d, x), d, names) == Front(OpenOf(t, d, names)) + [ItemOf(x, names)]
    decreases d
  {
    if d > 0 {
      var last := Last(t.kids);
      PutOpen(last, d - 1, x, names);
      Tops(Front(t.kids), Put(last, d - 1, x));
      var head := [Branch(ItemsOf(Front(t.kids), names), t.loop, t.params)];
      assert Front(head + OpenOf(last, d - 1, names)) == head + Front(OpenOf(last, d - 1, names));
      assert head + (Front(OpenOf(last, d - 1, names)) + [ItemOf(x, names)]) ==
        (head + Front(OpenOf(last, d - 1, names))) + [ItemOf(x, names)];
    }
  }

  /** Opening a group that was just added. */
  lemma {:induction false} DeeperOpen(t: PT, d: nat, names: Names)
    requires Deep(t, d) && Spine(t, d).kids != [] && Last(Spine(t, d).kids).Group?
    ensures Deep(t, d + 1) && Spine(t, d + 1) == Last(Spine(t, d).kids)
    ensures OpenOf(t, d + 1, names) ==
      Front(OpenOf(t, d, names)) +
      [ItemOf(Spine(t, d).(kids := Front(Spine(t, d).kids)), names), ItemOf(Spine(t, d + 1), names)]
    decreases d
  {
    if d > 0 {
      var last := Last(t.kids);
      DeeperOpen(last, d - 1, names);
      var head := [Branch(ItemsOf(Front(t.kids), names), t.loop, t.params)];
      assert Front(head + OpenOf(last, d - 1, names)) == head + Front(OpenOf(last, d - 1, names));
    } else {
      assert OpenOf(Last(t.kids), 0, names) == [ItemOf(Last(t.kids), names)];
    }
  }

  lemma {:induction false} CloseOpen(t: PT, d: nat, names: Names)
    requires Deep(t, d + 1)
    ensures Deep(t, d) && OpenOf(t, d, names) == Closed(OpenOf(t, d + 1, names))
    decreases d
  {
    var last := Last(t.kids);
    var head := [Branch(ItemsOf(Front(t.kids), names), t.loop, t.params)];
    var deeper := OpenOf(last, d, names);
    assert OpenOf(t, d + 1, names) == head + deeper;
    if d > 0 {
      CloseOpen(last, d - 1, names);
      ClosedHead(head[0], deeper);
    } else {
      assert t.kids == Front(t.kids) + [last];
      ItemsSnoc(Front(t.kids), last, names);
      assert Front(head + deeper) == head;
      assert Closed(head + deeper) == [Added(head[0], ItemOf(last, names))];
    }
  }

  lemma ClosedHead(g: Item, open: seq<Item>)
    requires |open| > 1 && g.Branch? && forall x :: x in open ==> x.Branch?
    ensures Closed([g] + open) == [g] + Closed(open)
  {
    assert Front([g] + open) == [g] + Front(open);
    assert Front([g] + Front(open)) == [g] + Front(Front(open));
    assert Last([g] + open) == Last(open) && Last([g] + Front(open)) == Last(Front(open));
  }

  lemma {:induction false} WholeOpen(t: PT, d: nat, names: Names)
    requires Deep(t, d)
    ensures Whole(OpenOf(t, d, names)) == ItemOf(t, names)
    decreases d
  {
    if d > 0 {
      DeepLess(t, d);
      CloseOpen(t, d - 1, names);
      WholeOpen(t, d - 1, names);
    }
  }

  lemma {:induction false} DeepLess(t: PT, d: nat)
    requires Deep(t, d) && d > 0
    ensures Deep(t, d - 1)
    decreases d
  {
    if d > 1 {
      DeepLess(Last(t.kids), d - 1);
    }
  }

  // ---------- changes inside the innermost group ----------

  ghost predicate Same<T>(a: map<Id, T>, b: map<Id, T>, y: Id) {
    y in a ==> y in b && a[y] == b[y]
  }

  ghost predicate SameLinks(n: Nodes, m: Nodes, y: Id) {
    Same(n.next, m.next, y) && Same(n.prev, m.prev, y) && Same(n.parent, m.parent, y)
  }

  ghost predicate SameNode(n: Nodes, m: Nodes, y: Id) {
    && SameLinks(n, m, y) && Same(n.child, m.child, y) && Same(n.loop, m.loop, y)
    && Same(n.params, m.params, y) && Same(n.files, m.files, y) && Same(n.isEntry, m.isEntry, y)
  }

  /** Nothing changed outside tree `p` and some nodes not in use yet, and the place of `p` in its list is the same. */
  ghost predicate OnlyInside(n: Nodes, m: Nodes, p: PT, spare: set<Id>) {
    (forall y :: y !in Ids(p) && y !in spare ==> SameNode(n, m, y)) && SameLinks(n, m, p.id)
  }

  lemma {:induction false} TreeSame(n: Nodes, m: Nodes, t: PT)
    requires IsTree(n, t) && forall y :: y in Ids(t) ==> SameNode(n, m, y)
    ensures IsTree(m, t)
    decreases t
  {
    assert t.id in Ids(t);
    if t.Group? {
      forall i | 0 <= i < |t.kids| ensures IsTree(m, t.kids[i]) && SiblingOk(m, t.kids, At(t.id), i) {
        IdsOf(t.kids, i);
        assert t.kids[i] in t.kids;
        TreeSame(n, m, t.kids[i]);
        SiblingAt(n, t.kids, At(t.id), i);
      }
      forall k | k in t.kids ensures IsTree(m, k) {
        var i :| 0 <= i < |t.kids| && t.kids[i] == k;
      }
    }
  }

  lemma {:induction false} SpineIds(t: PT, d: nat)
    requires Deep(t, d)
    ensures Spine(t, d).id in Ids(Spine(t, d)) && Ids(Spine(t, d)) <= Ids(t)
    ensures d > 0 ==> Ids(Spine(t, d)) <= Ids(Last(t.kids))
    ensures Tidy(t) ==> Tidy(Spine(t, d))
    decreases d
  {
    if d > 0 {
      SpineIds(Last(t.kids), d - 1);
      IdsOf(t.kids, |t.kids| - 1);
      if Tidy(t) {
        TidyOf(t.kids, |t.kids| - 1);
      }
    }
  }

  /** What holds of the innermost group after a change inside it holds of the whole tree. */
  lemma {:induction false} PutStands(n: Nodes, m: Nodes, t: PT, d: nat, x: PT, spare: set<Id>)
    requires IsTree(n, t) && Tidy(t) && Deep(t, d) && x.id == Spine(t, d).id
    requires IsTree(m, x) && OnlyInside(n, m, Spine(t, d), spare) && Ids(t) !! spare
    ensures IsTree(m, Put(t, d, x))
    decreases d
  {
    if d > 0 {
      var last, p, i := Last(t.kids), Spine(t, d), |t.kids| - 1;
      assert last in t.kids;
      IdsOf(t.kids, i);
      TidyOf(t.kids, i);
      PutStands(n, m, last, d - 1, x, spare);
      SpineIds(last, d - 1);
      assert SameNode(n, m, t.id) by { assert t.id !in Ids(p); }
      KidsStandAside(n, m, t, p, spare);
      LastLinks(n, m, t, d, spare);
      PutKids(n, m, t, Put(last, d - 1, x));
    }
  }

  /** The siblings before the last child are as they were. */
  lemma KidsStandAside(n: Nodes, m: Nodes, t: PT, p: PT, spare: set<Id>)
    requires IsTree(n, t) && Tidy(t) && t.Group? && t.kids != [] && OnlyInside(n, m, p, spare) && Ids(t) !! spare
    requires Ids(p) <= Ids(Last(t.kids))
    ensures forall i :: 0 <= i < |t.kids| - 1 ==> IsTree(m, t.kids[i]) && SameLinks(n, m, t.kids[i].id)
  {
    var last := |t.kids| - 1;
    TidyOf(t.kids, last);
    forall i | 0 <= i < last ensures IsTree(m, t.kids[i]) && SameLinks(n, m, t.kids[i].id) {
      IdsOf(t.kids, i);
      assert t.kids[i] in t.kids;
      assert Ids(t.kids[i]) !! Ids(t.kids[last]);
      TreeSame(n, m, t.kids[i]);
    }
  }

  lemma LastLinks(n: Nodes, m: Nodes, t: PT, d: nat, spare: set<Id>)
    requires Deep(t, d) && d > 0 && Tidy(t) && OnlyInside(n, m, Spine(t, d), spare) && Ids(t) !! spare
    ensures SameLinks(n, m, Last(t.kids).id)
  {
    var last := Last(t.kids);
    IdsOf(t.kids, |t.kids| - 1);
    TidyOf(t.kids, |t.kids| - 1);
    if d > 1 {
      SpineIds(last, d - 1);
      IdsOf(last.kids, |last.kids| - 1);
      assert last.id !in Ids(Spine(t, d));
    }
  }

  lemma PutKids(n: Nodes, m: Nodes, t: PT, x: PT)
    requires IsTree(n, t) && t.Group? && t.kids != [] && SameNode(n, m, t.id) && x.id == Last(t.kids).id
    requires forall i :: 0 <= i < |t.kids| - 1 ==> IsTree(m, t.kids[i]) && SameLinks(n, m, t.kids[i].id)
    requires SameLinks(n, m, Last(t.kids).id) && IsTree(m, x)
    ensures IsTree(m, t.(kids := Front(t.kids) + [x]))
  {
    var list := Front(t.kids) + [x];
    forall i | 0 <= i < |list| ensures SiblingOk(m, list, At(t.id), i) {
      SiblingAt(n, t.kids, At(t.id), i);
      assert IdAt(list, i + 1) == IdAt(t.kids, i + 1) && IdAt(list, i - 1) == IdAt(t.kids, i - 1);
    }
    assert IdAt(list, 0) == IdAt(t.kids, 0);
    assert forall k :: k in list ==> IsTree(m, k);
  }

  lemma {:induction false} PutTidy(t: PT, d: nat, x: PT, spare: set<Id>)
    requires Tidy(t) && Deep(t, d) && Tidy(x) && x.id == Spine(t, d).id
    requires Ids(x) <= Ids(Spine(t, d)) + spare && Ids(t) !! spare
    ensures Tidy(Put(t, d, x)) && Ids(Put(t, d, x)) <= Ids(t) + spare
    decreases d
  {
    if d > 0 {
      var last, front := Last(t.kids), Front(t.kids);
      assert t.kids == front + [last];
      Single(last);
      TidyConcat(front, [last]);
      IdsAllConcat(front, [last]);
      PutTidy(last, d - 1, x, spare);
      var y := Put(last, d - 1, x);
      Single(y);
      TidyConcat(front, [y]);
      IdsAllConcat(front, [y]);
    }
  }

  // ---------- what is done to the innermost group ----------

  ghost function WithKid(p: PT, e: PT): PT
    requires p.Group?
  {
    p.(kids := p.kids + [e])
  }

  /** A new node linked in as the last child. */
  lemma KidAdded(n: Nodes, m: Nodes, p: PT, e: PT)
    requires IsTree(n, p) && Tidy(p) && p.Group? && IsTree(n, e) && Kids(e) == [] && e.id !in Ids(p)
    requires IsList(m, p.kids + [e], At(p.id)) && Change(n, m, Roots(p.kids) + {e.id}, {p.id}, {})
    ensures IsTree(m, WithKid(p, e)) && Tidy(WithKid(p, e)) && Ids(WithKid(p, e)) == Ids(p) + {e.id}
    ensures OnlyInside(n, m, p, {e.id})
  {
    hide IsList;
    Single(e);
    assert Ids(e) == {e.id};
    TidyConcat(p.kids, [e]);
    IdsAllConcat(p.kids, [e]);
    TidyRoots(p.kids);
    assert p.id !in IdsAll(p.kids);
    forall k | k in p.kids + [e] ensures IsTree(m, k) {
      KidStays(n, m, p, e, k);
    }
    ListIs(m, p.kids + [e], p.id);
    AddedInside(n, m, p, e);
  }

  lemma KidStays(n: Nodes, m: Nodes, p: PT, e: PT, k: PT)
    requires IsTree(n, p) && Tidy(p) && p.Group? && IsTree(n, e) && Kids(e) == [] && e.id !in Ids(p)
    requires k in p.kids + [e]
    requires Change(n, m, Roots(p.kids) + {e.id}, {p.id}, {}) && Ids(e) == {e.id} && Tidy(e)
    ensures IsTree(m, k)
  {
    hide Change;
    if k in p.kids {
      var i :| 0 <= i < |p.kids| && p.kids[i] == k;
      IdsOf(p.kids, i);
      InnerApart(p.kids, i);
      assert IdsAll(Kids(k)) <= Ids(k);
    }
    TreeChange(n, m, Roots(p.kids) + {e.id}, {p.id}, {}, k);
  }

  lemma AddedInside(n: Nodes, m: Nodes, p: PT, e: PT)
    requires p.Group? && Change(n, m, Roots(p.kids) + {e.id}, {p.id}, {}) && Roots(p.kids) <= IdsAll(p.kids)
    requires p.id !in Roots(p.kids) && p.id != e.id
    ensures OnlyInside(n, m, p, {e.id})
  {
    forall y | y !in Ids(p) && y != e.id ensures SameNode(n, m, y) {}
  }

  lemma ListIs(n: Nodes, ts: seq<PT>, x: Id)
    requires IsList(n, ts, At(x))
    ensures Siblings(n, ts, At(x)) && x in n.child && n.child[x] == IdAt(ts, 0)
  {}

  ghost function TargetOf(p: PT): PT
    requires p.Group?
  {
    if p.kids == [] then p else Last(p.kids)
  }

  ghost function Retargeted(p: PT, x: PT): PT
    requires p.Group?
  {
    if p.kids == [] then x else p.(kids := Front(p.kids) + [x])
  }

  /** Only what is set for node `x` changed. */
  ghost predicate SetFor(n: Nodes, m: Nodes, x: Id) {
    && m == n.(loop := m.loop, params := m.params)
    && SameMap(n.loop, m.loop, {x}, {}) && SameMap(n.params, m.params, {x}, {})
  }

  /** The same node with other settings. */
  ghost predicate Reset(t: PT, x: PT) {
    match t
    case Entry(id, _, files) => x.Entry? && x.id == id && x.files == files
    case Group(id, _, _, kids) => x.Group? && x.id == id && x.kids == kids
  }

  lemma SetStands(n: Nodes, m: Nodes, t: PT, x: PT)
    requires IsTree(n, t) && Tidy(t) && SetFor(n, m, t.id) && Reset(t, x)
    requires m.params[t.id] == x.params && (x.Group? ==> m.loop[t.id] == x.loop)
    ensures IsTree(m, x) && Tidy(x) && Ids(x) == Ids(t)
  {
    if t.Group? {
      forall i | 0 <= i < |t.kids| ensures IsTree(m, t.kids[i]) && SiblingOk(m, t.kids, At(t.id), i) {
        IdsOf(t.kids, i);
        assert t.kids[i] in t.kids;
        TreeSame(n, m, t.kids[i]);
        SiblingAt(n, t.kids, At(t.id), i);
      }
      forall k | k in t.kids ensures IsTree(m, k) {
        var i :| 0 <= i < |t.kids| && t.kids[i] == k;
      }
    }
  }

  lemma TargetStands(n: Nodes, p: PT)
    requires IsTree(n, p) && Tidy(p) && p.Group?
    ensures IsTree(n, TargetOf(p)) && Tidy(TargetOf(p)) && Ids(TargetOf(p)) <= Ids(p)
    ensures TargetOf(p).id in Ids(TargetOf(p))
  {
    if p.kids != [] {
      assert Last(p.kids) in p.kids;
      IdsOf(p.kids, |p.kids| - 1);
      TidyOf(p.kids, |p.kids| - 1);
    }
  }

  /** Settings changed for the target of the innermost group. */
  lemma TargetSet(n: Nodes, m: Nodes, p: PT, x: PT)
    requires IsTree(n, p) && Tidy(p) && p.Group? && SetFor(n, m, TargetOf(p).id) && Reset(TargetOf(p), x)
    requires TargetOf(p).id in m.params && TargetOf(p).id in m.loop
    requires m.params[TargetOf(p).id] == x.params && (x.Group? ==> m.loop[TargetOf(p).id] == x.loop)
    ensures IsTree(m, Retargeted(p, x)) && Tidy(Retargeted(p, x)) && Ids(Retargeted(p, x)) == Ids(p)
    ensures OnlyInside(n, m, p, {})
  {
    TargetStands(n, p);
    SetStands(n, m, TargetOf(p), x);
    assert forall y :: y != TargetOf(p).id ==> SameNode(n, m, y);
    assert forall y :: SameLinks(n, m, y);
    if p.kids != [] {
      var last, front := Last(p.kids), Front(p.kids);
      assert p.kids == front + [last];
      Single(last);
      Single(x);
      TidyConcat(front, [last]);
      IdsAllConcat(front, [last]);
      TidyConcat(front, [x]);
      IdsAllConcat(front, [x]);
      assert last.id in Ids(last);
      forall i | 0 <= i < |p.kids| - 1 ensures IsTree(m, p.kids[i]) {
        TidyOf(p.kids, |p.kids| - 1);
        IdsOf(p.kids, i);
        assert p.kids[i] in p.kids;
        assert Ids(p.kids[i]) !! Ids(p.kids[|p.kids| - 1]);
        TreeSame(n, m, p.kids[i]);
      }
      PutKids(n, m, p, x);
    }
  }

  lemma ItemRetargeted(p: PT, x: PT, names: Names)
    requires p.Group?
    ensures ItemOf(TargetOf(p), names) == Target(ItemOf(p, names))
    ensures ItemOf(Retargeted(p, x), names) == Retarget(ItemOf(p, names), ItemOf(x, names))
  {
    if p.kids != [] {
      assert p.kids == Front(p.kids) + [Last(p.kids)];
      ItemsSnoc(Front(p.kids), Last(p.kids), names);
      ItemsSnoc(Front(p.kids), x, names);
      Tops(ItemsOf(Front(p.kids), names), ItemOf(Last(p.kids), names));
    }
  }

  lemma {:induction false} NamesSame(t: PT, a: Names, b: Names)
    requires forall y :: y in Ids(t) ==> Same(a, b, y) && (y in b ==> y in a)
    ensures ItemOf(t, a) == ItemOf(t, b)
    decreases t, 0
  {
    assert t.id in Ids(t);
    assert Same(a, b, t.id);
    if t.Group? {
      NamesSameAll(t.kids, a, b);
    }
  }

  lemma {:induction false} NamesSameAll(ts: seq<PT>, a: Names, b: Names)
    requires forall y :: y in IdsAll(ts) ==> Same(a, b, y) && (y in b ==> y in a)
    ensures ItemsOf(ts, a) == ItemsOf(ts, b)
    decreases ts, 1
  {
    if ts != [] {
      NamesSame(ts[0], a, b);
      NamesSameAll(ts[1..], a, b);
    }
  }

  lemma {:induction false} NamesOpen(t: PT, d: nat, a: Names, b: Names)
    requires Deep(t, d) && forall y :: y in Ids(t) ==> Same(a, b, y) && (y in b ==> y in a)
    ensures OpenOf(t, d, a) == OpenOf(t, d, b)
    decreases d
  {
    NamesSame(t, a, b);
    if d > 0 {
      var front, last := Front(t.kids), Last(t.kids);
      assert t.kids == front + [last];
      IdsAllConcat(front, [last]);
      Single(last);
      NamesSameAll(front, a, b);
      NamesOpen(last, d - 1, a, b);
    }
  }

  // ---------- the loop over the arguments ----------

  /** A new, unlinked node that lists no file. */
  function Extended(n: Nodes, x: Id): Nodes {
    Nodes(n.parent[x := Null], n.child[x := Null], n.next[x := Null], n.prev[x := Null],
          n.loop[x := 0], n.params[x := []], n.files[x := 0], n.isEntry[x := false])
  }

  lemma ExtendedSame(n: Nodes, x: Id, t: PT)
    requires IsTree(n, t) && x !in Ids(t)
    ensures IsTree(Extended(n, x), t) && IsTree(Extended(n, x), Group(x, [], 0, []))
    ensures IsList(Extended(n, x), [Group(x, [], 0, [])], Null)
    ensures IsList(n, [t], Null) ==> IsList(Extended(n, x), [t], Null)
  {
    var m := Extended(n, x);
    assert forall y :: y != x ==> SameNode(n, m, y);
    TreeSame(n, m, t);
    assert t.id in Ids(t);
    if IsList(n, [t], Null) {
      SiblingAt(n, [t], Null, 0);
      assert SiblingOk(m, [t], Null, 0);
    }
    assert SiblingOk(m, [Group(x, [], 0, [])], Null, 0);
  }

  /** The node becomes an entry that lists one file. */
  function Filled(n: Nodes, x: Id): Nodes
    requires x in n.files
  {
    n.(files := n.files[x := n.files[x] + 1], isEntry := n.isEntry[x := true])
  }

  lemma FilledSame(n: Nodes, x: Id, t: PT)
    requires IsTree(Extended(n, x), t) && x !in Ids(t)
    ensures var m := Filled(Extended(n, x), x);
      && IsTree(m, t) && IsTree(m, Entry(x, [], 1)) && IsList(m, [Entry(x, [], 1)], Null)
      && (IsList(Extended(n, x), [t], Null) ==> IsList(m, [t], Null))
  {
    var e := Extended(n, x);
    var m := Filled(e, x);
    assert forall y :: y != x ==> SameNode(e, m, y);
    TreeSame(e, m, t);
    if IsList(e, [t], Null) {
      SiblingAt(e, [t], Null, 0);
      assert SiblingOk(m, [t], Null, 0);
    }
    assert SiblingOk(m, [Entry(x, [], 1)], Null, 0);
  }

  /** The innermost group gets a new child: as items. */
  lemma KidOpen(t: PT, d: nat, e: PT, names: Names)
    requires Deep(t, d)
    ensures var p := Spine(t, d);
      && Deep(Put(t, d, WithKid(p, e)), d) && Spine(Put(t, d, WithKid(p, e)), d) == WithKid(p, e)
      && OpenOf(Put(t, d, WithKid(p, e)), d, names) ==
           Front(OpenOf(t, d, names)) + [Added(Last(OpenOf(t, d, names)), ItemOf(e, names))]
  {
    var p := Spine(t, d);
    PutOpen(t, d, WithKid(p, e), names);
    SpineOpen(t, d, names);
    ItemsSnoc(p.kids, e, names);
  }

  /** The change of the innermost group carries over to the whole tree. */
  lemma WholeStands(n: Nodes, m: Nodes, t: PT, d: nat, x: PT, spare: set<Id>)
    requires IsTree(n, t) && Tidy(t) && Deep(t, d) && x.Group? && x.id == Spine(t, d).id && IsList(n, [t], Null)
    requires IsTree(m, x) && Tidy(x) && OnlyInside(n, m, Spine(t, d), spare) && Ids(t) !! spare
    requires Ids(x) <= Ids(Spine(t, d)) + spare
    ensures var u := Put(t, d, x);
      IsTree(m, u) && Tidy(u) && u.id == t.id && Ids(u) <= Ids(t) + spare && IsList(m, [u], Null)
  {
    hide IsTree, Tidy, Ids;
    PutStands(n, m, t, d, x, spare);
    PutTidy(t, d, x, spare);
    SpineIds(t, d);
    RootApart(t, d);
    var u := Put(t, d, x);
    SiblingAt(n, [t], Null, 0);
    assert SameLinks(n, m, t.id);
    assert SiblingOk(m, [u], Null, 0);
  }

  lemma RootApart(t: PT, d: nat)
    requires Deep(t, d) && Tidy(t)
    ensures t.id in Ids(t) && (d > 0 ==> t.id !in Ids(Spine(t, d)))
  {
    if d > 0 {
      SpineIds(t, d);
      IdsOf(t.kids, |t.kids| - 1);
    }
  }

  ghost function LastId(p: PT): Ptr
    requires p.Group?
  {
    if p.kids == [] then Null else At(Last(p.kids).id)
  }

  lemma SpineStands(n: Nodes, t: PT, d: nat)
    requires IsTree(n, t) && Tidy(t) && Deep(t, d)
    ensures IsTree(n, Spine(t, d)) && Tidy(Spine(t, d)) && IsList(n, Spine(t, d).kids, At(Spine(t, d).id))
    decreases d
  {
    if d > 0 {
      assert Last(t.kids) in t.kids;
      TidyOf(t.kids, |t.kids| - 1);
      SpineStands(n, Last(t.kids), d - 1);
    } else {
      TidyRoots(t.kids);
    }
  }

  /** The parent link of the innermost group leads to the group around it. */
  lemma {:induction false} SpineParent(n: Nodes, t: PT, d: nat)
    requires IsTree(n, t) && Deep(t, d) && d > 0
    ensures Deep(t, d - 1) && Spine(t, d).id in n.parent && n.parent[Spine(t, d).id] == At(Spine(t, d - 1).id)
    ensures Spine(t, d - 1).kids != [] && Last(Spine(t, d - 1).kids) == Spine(t, d)
    decreases d
  {
    assert Last(t.kids) in t.kids;
    if d > 1 {
      SpineParent(n, Last(t.kids), d - 1);
    } else {
      SiblingAt(n, t.kids, At(t.id), |t.kids| - 1);
    }
  }

  lemma AloneIn(n: Nodes, e: PT)
    requires IsList(n, [e], Null)
    ensures e.id in n.next && e.id in n.prev && e.id in n.parent
  {
    SiblingAt(n, [e], Null, 0);
  }

  lemma NotRoot(p: PT, e: Id)
    requires p.Group? && Tidy(p) && e !in Ids(p)
    ensures e !in Roots(p.kids)
  {
    TidyRoots(p.kids);
  }

  lemma FirstKid(p: PT, e: PT)
    requires p.Group? && p.kids == []
    ensures Roots(p.kids) == {} && Roots([e]) == {e.id}
  {
    assert [e][0].id in Roots([e]);
  }

  lemma NamesGrow(t: PT, d: nat, names: Names, x: Id, name: string)
    requires Deep(t, d) && x !in Ids(t)
    ensures OpenOf(t, d, names) == OpenOf(t, d, names[x := name])
  {
    NamesOpen(t, d, names, names[x := name]);
  }

  lemma ItemEntry(x: Id, names: Names)
    ensures ItemOf(Entry(x, [], 1), names) == Leaf(if x in names then names[x] else "", [])
  {}

  lemma ItemGroup(x: Id, names: Names)
    ensures ItemOf(Group(x, [], 0, []), names) == Branch([], 0, [])
  {}

  lemma KidLast(p: PT)
    requires p.Group? && p.kids != []
    ensures LastId(p) == At(Last(p.kids).id)
  {}

  /** A new group was added as the last child; opening it. */
  lemma GroupOpened(t: PT, u: PT, d: nat, e: PT, names: Names)
    requires Deep(t, d) && Deep(u, d) && e.Group? && u == Put(t, d, WithKid(Spine(t, d), e))
    requires Spine(u, d) == WithKid(Spine(t, d), e) && ItemOf(e, names) == Branch([], 0, [])
    ensures Deep(u, d + 1) && Spine(u, d + 1) == e
    ensures OpenOf(u, d + 1, names) == OpenOf(t, d, names) + [Branch([], 0, [])]
  {
    hide Deep, OpenOf, Put, ItemOf, Spine;
    var p, open := Spine(t, d), OpenOf(t, d, names);
    KidInside(p, e);
    DeeperOpen(u, d, names);
    PutOpen(t, d, WithKid(p, e), names);
    SpineOpen(t, d, names);
    assert Front(open) + [Last(open)] == open;
    assert Front(Front(open) + [ItemOf(WithKid(p, e), names)]) == Front(open);
    assert Front(open) + [ItemOf(p, names), Branch([], 0, [])] == open + [Branch([], 0, [])];
  }

  lemma KidInside(p: PT, e: PT)
    requires p.Group?
    ensures WithKid(p, e).kids != [] && Last(WithKid(p, e).kids) == e
    ensures WithKid(p, e).(kids := Front(WithKid(p, e).kids)) == p
  {
    Tops(p.kids, e);
  }

  /** Closing the innermost group. */
  lemma GroupClosed(n: Nodes, t: PT, d: nat, names: Names)
    requires IsTree(n, t) && Deep(t, d) && d > 0
    ensures Deep(t, d - 1) && LastId(Spine(t, d - 1)) == At(Spine(t, d).id)
    ensures Spine(t, d).id in n.parent && n.parent[Spine(t, d).id] == At(Spine(t, d - 1).id)
    ensures OpenOf(t, d - 1, names) == Closed(OpenOf(t, d, names))
  {
    hide IsTree, OpenOf, Spine, Deep;
    SpineParent(n, t, d);
    CloseOpen(t, d - 1, names);
  }

  lemma NotClosed(n: Nodes, t: PT)
    requires IsList(n, [t], Null)
    ensures t.id in n.parent && n.parent[t.id] == Null
  {
    SiblingAt(n, [t], Null, 0);
  }

  /** Settings for the target of the innermost group: the whole tree stands. */
  lemma SetDoneFor(n: Nodes, m: Nodes, t: PT, d: nat, x: PT, names: Names)
    requires IsTree(n, t) && Tidy(t) && Deep(t, d) && IsList(n, [t], Null)
    requires var q := TargetOf(Spine(t, d));
      && q.id in m.params && q.id in m.loop && SetFor(n, m, q.id) && Reset(q, x)
      && m.params[q.id] == x.params && (x.Group? ==> m.loop[q.id] == x.loop)
    ensures var p := Retargeted(Spine(t, d), x);
      var u := Put(t, d, p);
      && IsTree(m, u) && Tidy(u) && Deep(u, d) && u.id == t.id && Ids(u) <= Ids(t) && IsList(m, [u], Null)
      && Spine(u, d) == p && p.Group? && p.id == Spine(t, d).id && LastId(p) == LastId(Spine(t, d))
      && OpenOf(u, d, names) == Front(OpenOf(t, d, names)) + [Retarget(Last(OpenOf(t, d, names)), ItemOf(x, names))]
  {
    hide IsTree, Tidy, Deep, Ids, IsList, OpenOf, Put, ItemOf, Spine, SetFor;
    var g := Spine(t, d);
    SpineStands(n, t, d);
    TargetSet(n, m, g, x);
    RetargetedKeeps(g, x);
    WholeStands(n, m, t, d, Retargeted(g, x), {});
    PutOpen(t, d, Retargeted(g, x), names);
    SpineOpen(t, d, names);
    ItemRetargeted(g, x, names);
  }

  lemma RetargetedKeeps(p: PT, x: PT)
    requires p.Group? && Reset(TargetOf(p), x)
    ensures var q := Retargeted(p, x); q.Group? && q.id == p.id && LastId(q) == LastId(p)
  {
    if p.kids != [] {
      Tops(Front(p.kids), x);
    }
  }

  /** What is set for a node. */
  lemma TargetFields(n: Nodes, t: PT, d: nat, names: Names)
    requires IsTree(n, t) && Tidy(t) && Deep(t, d)
    ensures var q := TargetOf(Spine(t, d));
      && q.id in n.params && n.params[q.id] == q.params && q.id in n.loop && q.id in n.child
      && (q.Group? ==> n.loop[q.id] == q.loop) && n.child[q.id] == IdAt(Kids(q), 0)
      && ItemOf(q, names) == Target(Last(OpenOf(t, d, names)))
      && (LastId(Spine(t, d)).Null? <==> q == Spine(t, d) && q.kids == [])
      && (LastId(Spine(t, d)).At? ==> LastId(Spine(t, d)).a == q.id)
      && (LoopsGroup(Last(OpenOf(t, d, names))) <==> LastId(Spine(t, d)).Null? || Kids(q) != [])
  {
    hide OpenOf, Deep, Tidy;
    var p := Spine(t, d);
    SpineStands(n, t, d);
    TargetStands(n, p);
    SpineOpen(t, d, names);
    ItemRetargeted(p, TargetOf(p), names);
  }

  class Builder {
    const store: Store
    const root: Id
    var names: Names
    var nextId: Id
    var lastParent: Id
    var lastEntry: Ptr
    var local: bool   // options are for files now
    ghost var tree: PT
    ghost var depth: nat

    ghost predicate TreeOk()
      reads this, store
    {
      && IsTree(store.n, tree) && Tidy(tree) && Deep(tree, depth) && tree.id == root && IsList(store.n, [tree], Null)
      && (forall y :: y in Ids(tree) ==> y < nextId)
    }

    ghost predicate Valid()
      reads this, store
    {
      TreeOk() && lastParent == Spine(tree, depth).id && lastEntry == LastId(Spine(tree, depth))
    }

    ghost function Read(): State
      reads this, store
      requires TreeOk()
    {
      State(OpenOf(tree, depth, names), local)
    }

    constructor ()
      ensures Valid() && Read() == EMPTY && fresh(store)
    {
      var e := Extended(Nodes(map[], map[], map[], map[], map[], map[], map[], map[]), 0);
      store := new Store(e);
      root, names, nextId, lastParent, lastEntry, local := 0, map[], 1, 0, Null, false;
      tree, depth := Group(0, [], 0, []), 0;
      new;
      assert SiblingOk(e, [Group(0, [], 0, [])], Null, 0);
    }

    /** `play_tree_new`. */
    method NewNode() returns (x: Id)
      requires Valid()
      modifies this`nextId, store
      ensures Valid() && Read() == old(Read()) && x < nextId && x !in Ids(tree)
      ensures store.n == Extended(old(store.n), x) && IsTree(store.n, Group(x, [], 0, []))
      ensures IsList(store.n, [Group(x, [], 0, [])], Null)
    {
      hide IsTree, IsList, Tidy, Deep, Ids, Extended;
      x := nextId;
      nextId := nextId + 1;
      ExtendedSame(store.n, x, tree);
      store.n := Extended(store.n, x);
    }

    /** Link a new node behind the last entry, or as the first child. */
    method Link(e: Id, ghost et: PT)
      requires Valid() && et.id == e && Kids(et) == [] && e !in Ids(tree) && e < nextId
      requires IsTree(store.n, et) && IsList(store.n, [et], Null)
      modifies this`tree, store
      ensures TreeOk() && tree == Put(old(tree), depth, WithKid(Spine(old(tree), depth), et))
      ensures Spine(tree, depth) == WithKid(Spine(old(tree), depth), et)
      ensures Read() ==
        old(State(Front(OpenOf(tree, depth, names)) + [Added(Last(OpenOf(tree, depth, names)), ItemOf(et, names))],
                  local))
    {
      hide IsTree, Tidy, Deep, Ids, Siblings, OpenOf, Put, ItemOf, Change, OnlyInside, IsList, Roots;
      ghost var n, p := store.n, Spine(tree, depth);
      SpineStands(n, tree, depth);
      SpineIds(tree, depth);
      AloneIn(n, et);
      NotRoot(p, e);
      if lastEntry.Null? {
        FirstKid(p, et);
        store.SetChild(lastParent, e, p.kids, [et], 0, Null);
        assert p.kids + [et] == [et];
        assert Roots(p.kids) + Roots([et]) == Roots(p.kids) + {e};
      } else {
        store.Append(lastEntry.a, e, p.kids, |p.kids| - 1, et, At(p.id));
      }
      KidAdded(n, store.n, p, et);
      WholeStands(n, store.n, tree, depth, WithKid(p, et), {e});
      KidOpen(tree, depth, et, names);
      tree := Put(tree, depth, WithKid(p, et));
    }

    /** A file name: a new entry. */
    method AddFile(name: string)
      requires Valid()
      modifies this, store
      ensures Valid() && Some(Read()) == Step(old(Read()), File(name))
    {
      hide IsTree, IsList, Tidy, Deep, Ids, OpenOf, Put, ItemOf;
      var x := NewNode();
      FilledSame(old(store.n), x, tree);
      ghost var names0 := names;
      store.n := Filled(store.n, x);
      names := names[x := name];
      NamesGrow(tree, depth, names0, x, name);
      Link(x, Entry(x, [], 1));
      ItemEntry(x, names);
      KidLast(Spine(tree, depth));
      lastEntry := At(x);
      local := true;
    }

    /** An opening brace: a new group. */
    method OpenGroup()
      requires Valid()
      modifies this, store
      ensures Valid() && Some(Read()) == Step(old(Read()), Open)
    {
      hide IsTree, IsList, Tidy, Ids, Extended, OpenOf, Put, ItemOf, Deep;
      var x := NewNode();
      ghost var p := Spine(tree, depth);
      ghost var t := tree;
      Link(x, Group(x, [], 0, []));
      ItemGroup(x, names);
      GroupOpened(t, tree, depth, Group(x, [], 0, []), names);
      lastEntry := Null;
      lastParent := x;
      local := true;
      depth := depth + 1;
    }

    /** A closing brace: back to the group around. */
    method CloseGroup() returns (ok: bool)
      requires Valid()
      modifies this`lastEntry, this`lastParent, this`depth
      ensures Valid() && ok == Step(old(Read()), Close).Some? && (ok ==> Some(Read()) == Step(old(Read()), Close))
      ensures !ok ==> Read() == old(Read())
    {
      hide IsTree, IsList, Tidy, Deep, Ids, OpenOf, Put, ItemOf, Spine;
      if depth > 0 {
        GroupClosed(store.n, tree, depth, names);
      } else {
        RootSpine(tree);
        NotClosed(store.n, tree);
      }
      if store.n.parent[lastParent].Null? {
        return false;
      }
      lastEntry := At(lastParent);
      lastParent := store.n.parent[lastParent].a;
      depth := depth - 1;
      ok := true;
    }

    /** `play_tree_set_param`, for the last entry or the group just opened. */
    method SetParam(name: string, value: string)
      requires Valid()
      modifies this`tree, store
      ensures Valid()
      ensures Read() == old(State(Front(Read().open) +
        [Retarget(Last(Read().open), WithParam(Target(Last(Read().open)), name, value))], local))
    {
      hide IsTree, IsList, Tidy, Deep, Ids, OpenOf, Put, Spine;
      ghost var q := TargetOf(Spine(tree, depth));
      TargetFields(store.n, tree, depth, names);
      var pt := if lastEntry.At? then lastEntry.a else lastParent;
      ghost var n := store.n;
      store.n := store.n.(params := store.n.params[pt := store.n.params[pt] + [(name, value)]]);
      ghost var x := q.(params := q.params + [(name, value)]);
      SetDoneFor(n, store.n, tree, depth, x, names);
      tree := Put(tree, depth, Retargeted(Spine(tree, depth), x));
    }

    /** A --loop option: for a group, or like any other option for a file. */
    method SetLoop(l: int, text: string)
      requires Valid()
      modifies this`tree, store
      ensures Valid() && Some(Read()) == Step(old(Read()), Loop(l, text))
    {
      hide IsTree, IsList, Tidy, Deep, Ids, OpenOf, Put, Spine;
      ghost var q := TargetOf(Spine(tree, depth));
      TargetFields(store.n, tree, depth, names);
      if lastEntry.Null? || store.n.child[lastEntry.a].At? {
        var pt := if lastEntry.At? then lastEntry.a else lastParent;
        ghost var n := store.n;
        store.n := store.n.(loop := store.n.loop[pt := if l <= 0 then -1 else l]);
        ghost var x := q.(loop := LoopCount(l));
        SetDoneFor(n, store.n, tree, depth, x, names);
        tree := Put(tree, depth, Retargeted(Spine(tree, depth), x));
      } else if local {
        SetParam("loop", text);
      }
    }

    /** The loop of `m_config_parse_mp_command_line`. */
    method Parse(args: seq<Arg>) returns (r: Ptr)
      requires Valid() && Read() == EMPTY
      modifies this, store
      ensures Run(EMPTY, args).None? ==> r == Null
      ensures Run(EMPTY, args).Some? ==>
        r == At(root) && IsTree(store.n, tree) && tree.id == root && Tidy(tree) && IsList(store.n, [tree], Null)
        && ItemOf(tree, names) == Whole(Run(EMPTY, args).value.open)
    {
      hide IsTree, IsList, Tidy, Deep, Ids, OpenOf, Put, Spine, Step, Run;
      assert args[0..] == args;
      for i := 0 to |args|
        invariant Valid() && Run(EMPTY, args) == Run(Read(), args[i..])
      {
        RunFirst(Read(), args[i..]);
        assert args[i..][0] == args[i] && args[i..][1..] == args[i + 1..];
        var ok := Take(args[i]);
        if !ok {
          AloneStands(store.n, tree);
          store.Free(root, [tree], Null);
          return Null;
        }
      }
      assert args[|args|..] == [];
      RunNone(Read());
      WholeOpen(tree, depth, names);
      r := At(root);
    }

    method Take(a: Arg) returns (ok: bool)
      requires Valid()
      modifies this, store
      ensures Valid() && ok == Step(old(Read()), a).Some? && (ok ==> Some(Read()) == Step(old(Read()), a))
    {
      ok := true;
      match a
      case Open => OpenGroup();
      case Close => ok := CloseGroup();
      case File(name) => AddFile(name);
      case Loop(l, text) => SetLoop(l, text);
      case Set(name, value) =>
        if local {
          SetParam(name, value);
        }
    }
  }

  lemma RootSpine(t: PT)
    requires Deep(t, 0)
    ensures Spine(t, 0) == t
  {}

  /** A playlist written as arguments is rebuilt in memory. */
  method Rebuild(items: seq<Item>, loop: int, globals: Params, w: Style) returns (b: Builder, r: Ptr)
    requires Printable(items, w) && Proper(w) && items != [] && loop >= -1
    ensures fresh(b) && fresh(b.store)
    ensures r == At(b.root) && IsTree(b.store.n, b.tree) && b.tree.id == b.root
    ensures Tidy(b.tree) && IsList(b.store.n, [b.tree], Null)
    ensures ItemOf(b.tree, b.names) == Branch(items, loop, [])
  {
    b := new Builder();
    ReadPrinted(items, loop, globals, w);
    r := b.Parse(Written(items, loop, globals, w));
  }
}
