/** The playlist iterator of playtree.c: a walk over the tree that pushes and pops the option store. */
module PlayTreeIter {
  import opened PlayTree
  import Config
  import Common

  const ITER_ERROR := 0
  const ITER_ENTRY := 1
  const ITER_NODE := 2
  const ITER_END := 3

  type Vars = Config.Vars
  type Parser = (string, string) -> Common.Option<Config.Value>

  // ---------- options along a path ----------

  /** The variables after setting the parameters of one node, in order. */
  ghost function ApplyAll(defs: seq<Config.Opt>, parse: Parser, vars: Vars, ps: Params): Vars
    decreases |ps|
  {
    if ps == [] then vars else ApplyAll(defs, parse, Config.SetTo(defs, parse, vars, ps[0].0, ps[0].1), ps[1..])
  }

  /** The base values overlaid with the parameters of the groups above a position. */
  ghost function Overlay(defs: seq<Config.Opt>, parse: Parser, base: Vars, p: Path): Vars
    decreases p
  {
    match p
    case Top(_, _) => base
    case In(_, _, _, up) =>
      if up.i < |up.kids| then ApplyAll(defs, parse, Overlay(defs, parse, base, up), Cur(up).params) else base
  }

  /** One saved set of variables for each group above the position, each being the overlay up to that group. */
  ghost predicate SavedOk(defs: seq<Config.Opt>, parse: Parser, s: set<Config.Var>, base: Vars, pre: seq<Vars>,
                          p: Path, saved: seq<Vars>)
    decreases p
  {
    match p
    case Top(_, _) => saved == pre
    case In(_, _, _, up) =>
      && saved != []
      && Config.SameOn(s, saved[|saved| - 1], Overlay(defs, parse, base, up))
      && SavedOk(defs, parse, s, base, pre, up, saved[..|saved| - 1])
  }

  /** The option store between entries: exactly the groups on the path are pushed. */
  ghost predicate AtNode(defs: seq<Config.Opt>, parse: Parser, s: set<Config.Var>, base: Vars, pre: seq<Vars>,
                         p: Path, saved: seq<Vars>, vars: Vars) {
    SavedOk(defs, parse, s, base, pre, p, saved) && Config.SameOn(s, vars, Overlay(defs, parse, base, p))
  }

  /** The option store while an entry plays: the path and the entry are pushed, and the current values are free. */
  ghost predicate AtEntry(defs: seq<Config.Opt>, parse: Parser, s: set<Config.Var>, base: Vars, pre: seq<Vars>,
                          p: Path, saved: seq<Vars>) {
    && saved != []
    && Config.SameOn(s, saved[|saved| - 1], Overlay(defs, parse, base, p))
    && SavedOk(defs, parse, s, base, pre, p, saved[..|saved| - 1])
  }

  lemma {:induction false} ApplySameOn(defs: seq<Config.Opt>, parse: Parser, s: set<Config.Var>, a: Vars, b: Vars,
                                       ps: Params)
    requires Config.SameOn(s, a, b)
    ensures Config.SameOn(s, ApplyAll(defs, parse, a, ps), ApplyAll(defs, parse, b, ps))
    decreases |ps|
  {
    if ps != [] {
      Config.SetSameOn(defs, parse, s, a, b, ps[0].0, ps[0].1);
      ApplySameOn(defs, parse, s, Config.SetTo(defs, parse, a, ps[0].0, ps[0].1),
                  Config.SetTo(defs, parse, b, ps[0].0, ps[0].1), ps[1..]);
    }
  }

  lemma {:induction false} ApplySnoc(defs: seq<Config.Opt>, parse: Parser, vars: Vars, ps: Params, i: nat)
    requires i < |ps|
    ensures ApplyAll(defs, parse, vars, ps[..i + 1]) ==
      Config.SetTo(defs, parse, ApplyAll(defs, parse, vars, ps[..i]), ps[i].0, ps[i].1)
    decreases i
  {
    if i > 0 {
      var v := Config.SetTo(defs, parse, vars, ps[0].0, ps[0].1);
      ApplySnoc(defs, parse, v, ps[1..], i - 1);
      assert ps[..i + 1][1..] == ps[1..][..i];
      assert ps[..i][1..] == ps[1..][..i - 1];
    }
  }

  /** None of the parameters changes `v`. */
  ghost predicate LeavesAlone(defs: seq<Config.Opt>, parse: Parser, ps: Params, v: Config.Var) {
    forall j :: 0 <= j < |ps| ==> !Config.Sets(defs, parse, ps[j].0, ps[j].1, v)
  }

  lemma {:induction false} NeverSet(defs: seq<Config.Opt>, parse: Parser, vars: Vars, ps: Params, v: Config.Var)
    requires LeavesAlone(defs, parse, ps, v) && v in vars
    ensures v in ApplyAll(defs, parse, vars, ps) && ApplyAll(defs, parse, vars, ps)[v] == vars[v]
    decreases |ps|
  {
    if ps != [] {
      NeverSet(defs, parse, Config.SetTo(defs, parse, vars, ps[0].0, ps[0].1), ps[1..], v);
    }
  }

  /** The last setting of a variable decides its value: `i` is the first option of that name. */
  lemma {:induction false} LastSet(defs: seq<Config.Opt>, parse: Parser, vars: Vars, ps: Params, k: nat, i: nat)
    requires k < |ps| && i < |defs| && defs[i].name == ps[k].0 && forall m :: 0 <= m < i ==> defs[m].name != ps[k].0
    requires defs[i].v.Some? && !defs[i].hasChild && parse(ps[k].0, ps[k].1).Some?
    requires LeavesAlone(defs, parse, ps[k + 1..], defs[i].v.value)
    ensures var after := ApplyAll(defs, parse, vars, ps);
      defs[i].v.value in after && after[defs[i].v.value] == parse(ps[k].0, ps[k].1).value
    decreases k
  {
    var next := Config.SetTo(defs, parse, vars, ps[0].0, ps[0].1);
    if k == 0 {
      Config.SetToIs(defs, parse, vars, ps[0].0, ps[0].1, i);
      NeverSet(defs, parse, next, ps[1..], defs[i].v.value);
    } else {
      assert ps[1..][k - 1] == ps[k] && ps[1..][k..] == ps[k + 1..];
      LastSet(defs, parse, next, ps[1..], k - 1, i);
    }
  }

  lemma PopEntry(defs: seq<Config.Opt>, parse: Parser, s: set<Config.Var>, base: Vars, pre: seq<Vars>,
                 p: Path, saved: seq<Vars>, vars: Vars)
    requires AtEntry(defs, parse, s, base, pre, p, saved) && s <= vars.Keys
    ensures AtNode(defs, parse, s, base, pre, p, saved[..|saved| - 1], Config.Restored(vars, saved[|saved| - 1], s))
  {}

  lemma PopGroup(defs: seq<Config.Opt>, parse: Parser, s: set<Config.Var>, base: Vars, pre: seq<Vars>,
                 p: Path, saved: seq<Vars>, vars: Vars)
    requires p.In? && AtNode(defs, parse, s, base, pre, p, saved, vars)
    ensures saved != []
    ensures AtNode(defs, parse, s, base, pre, p.up, saved[..|saved| - 1], Config.Restored(vars, saved[|saved| - 1], s))
  {}

  lemma PushGroup(defs: seq<Config.Opt>, parse: Parser, s: set<Config.Var>, base: Vars, pre: seq<Vars>,
                  p: Path, saved: seq<Vars>, vars: Vars, kids: seq<PT>, i: nat, passes: nat)
    requires p.i < |p.kids| && AtNode(defs, parse, s, base, pre, p, saved, vars)
    ensures AtNode(defs, parse, s, base, pre, In(kids, i, passes, p), saved + [vars],
                   ApplyAll(defs, parse, vars, Cur(p).params))
  {
    ApplySameOn(defs, parse, s, vars, Overlay(defs, parse, base, p), Cur(p).params);
    assert (saved + [vars])[..|saved|] == saved;
  }

  lemma PushEntry(defs: seq<Config.Opt>, parse: Parser, s: set<Config.Var>, base: Vars, pre: seq<Vars>,
                  p: Path, saved: seq<Vars>, vars: Vars)
    requires p.i < |p.kids| && AtNode(defs, parse, s, base, pre, p, saved, vars)
    ensures AtEntry(defs, parse, s, base, pre, p, saved + [vars])
    ensures Config.SameOn(s, ApplyAll(defs, parse, vars, Cur(p).params),
                          ApplyAll(defs, parse, Overlay(defs, parse, base, p), Cur(p).params))
  {
    ApplySameOn(defs, parse, s, vars, Overlay(defs, parse, base, p), Cur(p).params);
    assert (saved + [vars])[..|saved|] == saved;
  }

  // ---------- moving along a path ----------

  /** The same list, another index and count of passes. */
  ghost function Moved(p: Path, i: nat, passes: nat): Path {
    match p
    case Top(kids, _) => Top(kids, i)
    case In(kids, _, _, up) => In(kids, i, passes, up)
  }

  ghost function Passes(p: Path): nat {
    match p
    case Top(_, _) => 0
    case In(_, _, passes, _) => passes
  }

  lemma MovedSame(defs: seq<Config.Opt>, parse: Parser, s: set<Config.Var>, base: Vars, pre: seq<Vars>,
                  p: Path, i: nat, passes: nat, saved: seq<Vars>, vars: Vars)
    ensures AtNode(defs, parse, s, base, pre, Moved(p, i, passes), saved, vars) <==>
      AtNode(defs, parse, s, base, pre, p, saved, vars)
  {}

  lemma MovedOk(n: Nodes, p: Path, top: seq<PT>, i: nat, passes: nat)
    requires PathOk(p, top) && PathTrees(n, p) && i < |p.kids|
    ensures PathOk(Moved(p, i, passes), top) && PathTrees(n, Moved(p, i, passes))
    ensures Depth(Moved(p, i, passes)) == Depth(p) && Moved(p, i, passes).kids == p.kids && Moved(p, i, passes).i == i
  {}

  lemma FlatStep(ts: seq<PT>, n: nat)
    requires ts != []
    ensures FlatAll(ts, n) == Flat(ts[0], n) + FlatAll(ts[1..], n)
  {
    hide Flat;
  }

  /** What plays after the current list. */
  ghost function Beyond(p: Path, n: nat): seq<Id> {
    match p
    case Top(_, _) => []
    case In(kids, _, passes, up) => Repeat(FlatAll(kids, n), passes) + if up.i < |up.kids| then Rest(up, n) else []
  }

  lemma RestIs(p: Path, n: nat)
    requires p.i < |p.kids|
    ensures Rest(p, n) == FlatAll(p.kids[p.i + 1..], n) + Beyond(p, n)
  {
    hide FlatAll, Repeat;
  }

  /** Rest after stepping to the next sibling. */
  lemma RestNext(p: Path, n: nat)
    requires p.i + 1 < |p.kids|
    ensures Rest(p, n) == Flat(p.kids[p.i + 1], n) + Rest(Moved(p, p.i + 1, Passes(p)), n)
  {
    hide FlatAll, Flat, Rest;
    var q := Moved(p, p.i + 1, Passes(p));
    var tail := p.kids[p.i + 1..];
    assert tail[0] == p.kids[p.i + 1] && tail[1..] == p.kids[p.i + 2..];
    RestIs(p, n);
    RestIs(q, n);
    FlatStep(tail, n);
    Common.Grouped(Flat(tail[0], n), FlatAll(tail[1..], n), Beyond(p, n));
  }

  /** Rest after wrapping around to the first sibling. */
  lemma RestWrap(p: Path, n: nat)
    requires p.In? && p.i + 1 == |p.kids| && p.passes > 0
    ensures Rest(p, n) == Flat(p.kids[0], n) + Rest(Moved(p, 0, p.passes - 1), n)
  {
    hide FlatAll, Flat, Rest;
    var kids := p.kids;
    assert kids[p.i + 1..] == [];
    RestIs(p, n);
    RestIs(Moved(p, 0, p.passes - 1), n);
    FlatNothing(n);
    FlatStep(kids, n);
    var above := if p.up.i < |p.up.kids| then Rest(p.up, n) else [];
    var again := Repeat(FlatAll(kids, n), p.passes - 1);
    Common.Grouped(FlatAll(kids, n), again, above);
    Common.Grouped(Flat(kids[0], n), FlatAll(kids[1..], n), again + above);
  }

  lemma FlatNothing(n: nat)
    ensures FlatAll([], n) == []
  {}

  /** Rest at the end of a list without passes left is the rest of the group above. */
  lemma RestUp(p: Path, n: nat)
    requires p.In? && p.i + 1 == |p.kids| && p.passes == 0 && p.up.i < |p.up.kids|
    ensures Rest(p, n) == Rest(p.up, n)
  {
    assert p.kids[p.i + 1..] == [];
  }

  /** Entering a group: its first child, with the remaining passes pending. */
  lemma RestDown(p: Path, n: nat, passes: nat)
    requires p.i < |p.kids| && Cur(p).Group? && Cur(p).kids != [] && passes + 1 == Times(Cur(p).loop, n)
    ensures Flat(Cur(p), n) + Rest(p, n) == Flat(Cur(p).kids[0], n) + Rest(In(Cur(p).kids, 0, passes, p), n)
  {
    hide FlatAll, Rest;
    var kids := Cur(p).kids;
    var all := FlatAll(kids, n);
    RestIs(In(kids, 0, passes, p), n);
    FlatStep(kids, n);
    hide Flat;
    Common.Grouped(all, Repeat(all, passes), Rest(p, n));
    Common.Grouped(Flat(kids[0], n), FlatAll(kids[1..], n), Repeat(all, passes) + Rest(p, n));
  }

  ghost function Size(t: PT): nat
    decreases t, 0
  {
    match t
    case Entry(_, _, _) => 0
    case Group(_, _, _, kids) => 1 + SizeAll(kids)
  }

  ghost function SizeAll(ts: seq<PT>): nat
    decreases ts, 1
  {
    if ts == [] then 0 else Size(ts[0]) + SizeAll(ts[1..])
  }

  lemma {:induction false} KidSmaller(ts: seq<PT>, i: nat)
    requires i < |ts|
    ensures Size(ts[i]) <= SizeAll(ts)
    decreases i
  {
    if i > 0 {
      KidSmaller(ts[1..], i - 1);
    }
  }

  ghost predicate SupplyKept(p: Path, q: Path, k: nat, n: nat) {
    forall m: nat :: m <= n && Supply(p, m + k) ==> Supply(q, m)
  }

  lemma {:induction false} SupplyLess(p: Path, m: nat, k: nat)
    requires Supply(p, m) && k <= m
    ensures Supply(p, k)
    decreases p
  {
    if p.In? {
      SupplyLess(p.up, m, k);
    }
  }

  // ---------- what a step achieves ----------

  /** The move found the first of the entries still to come. */
  ghost predicate Plays(before: seq<Id>, r: int, q: Path, n: nat) {
    r == ITER_ENTRY && q.i < |q.kids| && Cur(q).Entry? && before == [Cur(q).id] + Rest(q, n)
  }

  /** Entering the current node plays its first entry and leaves the rest of it. */
  ghost predicate Enters(p: Path, r: int, q: Path, n: nat) {
    var ok := p.i < |p.kids| && Plays(Flat(Cur(p), n) + Rest(p, n), r, q, n) && SupplyKept(p, q, 0, n);
    ok
  }

  /** Stepping forward plays the next entry, or ends when there is none. */
  ghost predicate Advances(p: Path, r: int, q: Path, n: nat) {
    var ok :=
      && p.i < |p.kids|
      && (Supply(p, 1) ==> (r == ITER_END && Rest(p, n) == []) || Plays(Rest(p, n), r, q, n))
      && (r == ITER_ENTRY ==> SupplyKept(p, q, 1, n));
    ok
  }

  /** The result of a step of `d` over groups, from position p to q. */
  ghost predicate Forward(d: int, withNodes: bool, p: Path, r: int, q: Path, n: nat) {
    var ok :=
      && (r == ITER_ENTRY || r == ITER_NODE || r == ITER_END)
      && (r == ITER_NODE ==> withNodes)
      && (d == 0 && !withNodes ==> Enters(p, r, q, n))
      && (d == 1 && !withNodes ==> Advances(p, r, q, n));
    ok
  }

  lemma ForwardFrom(d: int, withNodes: bool, p: Path, r: int, q: Path, n: nat)
    requires r == ITER_ENTRY || r == ITER_NODE || r == ITER_END
    requires r == ITER_NODE ==> withNodes
    requires d == 0 && !withNodes ==> Enters(p, r, q, n)
    requires d == 1 && !withNodes ==> Advances(p, r, q, n)
    ensures Forward(d, withNodes, p, r, q, n)
  {
    hide Enters, Advances;
  }

  lemma ForwardParts(d: int, withNodes: bool, p: Path, r: int, q: Path, n: nat)
    requires Forward(d, withNodes, p, r, q, n)
    ensures r == ITER_ENTRY || r == ITER_NODE || r == ITER_END
    ensures r == ITER_NODE ==> withNodes
    ensures d == 0 && !withNodes ==> Enters(p, r, q, n)
    ensures d == 1 && !withNodes ==> Advances(p, r, q, n)
  {
    hide Enters, Advances;
  }

  lemma EntersEntry(p: Path, n: nat)
    requires p.i < |p.kids| && Cur(p).Entry?
    ensures Enters(p, ITER_ENTRY, p, n)
  {
    assert Flat(Cur(p), n) == [Cur(p).id];
  }

  /** The passes a group has left once its first one has started. */
  ghost function PassesLeft(loop: int, n: nat): nat {
    if loop < 0 then n else if loop == 0 then 0 else loop - 1
  }

  lemma CounterStarts(loop: int, n: nat)
    ensures CounterOk(loop, loop - 1, PassesLeft(loop, n))
  {}

  lemma EntersGroup(p: Path, r: int, q: Path, n: nat)
    requires p.i < |p.kids| && Cur(p).Group? && Cur(p).kids != []
    requires Enters(In(Cur(p).kids, 0, PassesLeft(Cur(p).loop, n), p), r, q, n)
    ensures Enters(p, r, q, n)
  {
    RestDown(p, n, PassesLeft(Cur(p).loop, n));
    var down := In(Cur(p).kids, 0, PassesLeft(Cur(p).loop, n), p);
    assert forall m: nat :: m <= n && Supply(p, m) ==> Supply(down, m);
    hide Plays, Rest, Flat, Supply;
  }

  lemma AdvancesNext(p: Path, r: int, q: Path, n: nat)
    requires p.i + 1 < |p.kids| && Enters(Moved(p, p.i + 1, Passes(p)), r, q, n)
    ensures Advances(p, r, q, n)
  {
    RestNext(p, n);
    var next := Moved(p, p.i + 1, Passes(p));
    forall m: nat | m <= n && Supply(p, m + 1) ensures Supply(next, m) {
      SupplyLess(p, m + 1, m);
    }
    hide Plays, Rest, Flat, Supply;
  }

  lemma AdvancesWrap(p: Path, r: int, q: Path, n: nat, passes: nat)
    requires p.In? && p.i + 1 == |p.kids| && p.up.i < |p.up.kids| && Cur(p.up).Group?
    requires Cur(p.up).loop >= 0 ==> p.passes > 0
    requires p.passes > 0 ==> passes == p.passes - 1
    requires Enters(Moved(p, 0, passes), r, q, n)
    ensures Advances(p, r, q, n)
  {
    var first := Moved(p, 0, passes);
    forall m: nat | m <= n && Supply(p, m + 1) ensures Supply(first, m) {
      SupplyLess(p.up, m + 1, m);
    }
    if Supply(p, 1) {
      RestWrap(p, n);
    }
    hide Plays, Rest, Flat, Supply;
  }

  lemma AdvancesUp(p: Path, r: int, q: Path, n: nat)
    requires p.In? && p.i + 1 == |p.kids| && p.passes == 0 && p.up.i < |p.up.kids| && Advances(p.up, r, q, n)
    ensures Advances(p, r, q, n)
  {
    RestUp(p, n);
    hide Plays, Rest;
  }

  lemma AdvancesEnd(p: Path, q: Path, n: nat)
    requires p.Top? && p.i + 1 == |p.kids|
    ensures Advances(p, ITER_END, q, n)
  {
    assert p.kids[p.i + 1..] == [];
  }

  // ---------- the iterator ----------

  /** Position and counters of a started iterator. */
  ghost predicate Placed(n: Nodes, top: seq<PT>, tree: Ptr, loop: int, stack: seq<int>, p: Path) {
    var ok :=
      && PathOk(p, top) && PathTrees(n, p) && tree == At(Cur(p).id)
      && CountersOk(p, loop, stack) && |stack| == Depth(p);
    ok
  }

  lemma PlacedParts(n: Nodes, top: seq<PT>, tree: Ptr, loop: int, stack: seq<int>, p: Path)
    requires Placed(n, top, tree, loop, stack, p)
    ensures PathOk(p, top) && PathTrees(n, p) && tree == At(Cur(p).id) && p.i < |p.kids|
    ensures CountersOk(p, loop, stack) && |stack| == Depth(p)
    ensures IsTree(n, Cur(p)) && Clean(Cur(p))
    ensures Siblings(n, p.kids, Above(p)) && SiblingOk(n, p.kids, Above(p), p.i)
    ensures p.In? ==>
      stack != [] && p.up.i < |p.up.kids| && Cur(p.up).Group? && CounterOk(Cur(p.up).loop, loop, p.passes)
  {
    CurTree(n, p);
  }

  lemma PlacedMoved(n: Nodes, top: seq<PT>, tree: Ptr, loop: int, stack: seq<int>, p: Path, i: nat, loop': int,
                    passes: nat)
    requires Placed(n, top, tree, loop, stack, p) && i < |p.kids|
    requires p.In? ==> p.up.i < |p.up.kids| && Cur(p.up).Group? && CounterOk(Cur(p.up).loop, loop', passes)
    ensures Placed(n, top, At(p.kids[i].id), loop', stack, Moved(p, i, passes))
  {
    PlacedParts(n, top, tree, loop, stack, p);
    MovedOk(n, p, top, i, passes);
  }

  lemma PlacedDown(n: Nodes, top: seq<PT>, tree: Ptr, loop: int, stack: seq<int>, p: Path, i: nat, loop': int,
                   passes: nat)
    requires Placed(n, top, tree, loop, stack, p) && p.i < |p.kids| && Cur(p).Group? && i < |Cur(p).kids|
    requires CounterOk(Cur(p).loop, loop', passes)
    ensures Placed(n, top, At(Cur(p).kids[i].id), loop', stack + [loop], In(Cur(p).kids, i, passes, p))
  {
    PlacedParts(n, top, tree, loop, stack, p);
    assert (stack + [loop])[..|stack|] == stack;
  }

  lemma PlacedUp(n: Nodes, top: seq<PT>, tree: Ptr, loop: int, stack: seq<int>, p: Path)
    requires Placed(n, top, tree, loop, stack, p) && p.In?
    ensures stack != [] && p.up.i < |p.up.kids|
    ensures Placed(n, top, At(Cur(p.up).id), stack[|stack| - 1], stack[..|stack| - 1], p.up)
  {
    PlacedParts(n, top, tree, loop, stack, p);
  }

  lemma {:induction false} SavedLength(defs: seq<Config.Opt>, parse: Parser, s: set<Config.Var>, base: Vars,
                                       pre: seq<Vars>,
                                       p: Path, saved: seq<Vars>)
    requires SavedOk(defs, parse, s, base, pre, p, saved)
    ensures |saved| == |pre| + Depth(p)
    decreases p
  {
    if p.In? {
      SavedLength(defs, parse, s, base, pre, p.up, saved[..|saved| - 1]);
    }
  }

  lemma AtNodeLength(defs: seq<Config.Opt>, parse: Parser, s: set<Config.Var>, base: Vars, pre: seq<Vars>,
                     p: Path, saved: seq<Vars>, vars: Vars)
    requires AtNode(defs, parse, s, base, pre, p, saved, vars)
    ensures |saved| == |pre| + Depth(p)
  {
    SavedLength(defs, parse, s, base, pre, p, saved);
  }

  /** One push for each group above the position, and one for the entry that is playing. */
  lemma LevelFor(defs: seq<Config.Opt>, parse: Parser, s: set<Config.Var>, base: Vars, pre: seq<Vars>,
                 p: Path, saved: seq<Vars>, vars: Vars, pushed: bool)
    requires if pushed then AtEntry(defs, parse, s, base, pre, p, saved)
             else AtNode(defs, parse, s, base, pre, p, saved, vars)
    ensures |saved| == |pre| + Depth(p) + if pushed then 1 else 0
  {
    SavedLength(defs, parse, s, base, pre, p, if pushed then saved[..|saved| - 1] else saved);
  }

  lemma PopAbove(defs: seq<Config.Opt>, parse: Parser, s: set<Config.Var>, base: Vars, pre: seq<Vars>,
                 p: Path, saved: seq<Vars>, vars: Vars, pushed: bool)
    requires p.In? && s <= vars.Keys
    requires pushed ==> AtEntry(defs, parse, s, base, pre, p, saved)
    requires !pushed ==> AtNode(defs, parse, s, base, pre, p, saved, vars)
    ensures saved != []
    ensures pushed ==> AtEntry(defs, parse, s, base, pre, p.up, saved[..|saved| - 1])
    ensures !pushed ==>
      AtNode(defs, parse, s, base, pre, p.up, saved[..|saved| - 1], Config.Restored(vars, saved[|saved| - 1], s))
  {
    if !pushed {
      PopGroup(defs, parse, s, base, pre, p, saved, vars);
    }
  }

  /** Leaving the list in this direction begins another pass over it. */
  ghost predicate Turns(d: int, p: Path, loop: int) {
    && p.In? && p.kids != [] && p.up.i < |p.up.kids| && Cur(p.up).Group? && Cur(p.up).loop != 0
    && ((d > 0 && loop != 0) || (d < 0 && (loop < 0 || loop < Cur(p.up).loop)))
  }

  /** So does going on by `d` from here. */
  ghost predicate Wraps(d: int, p: Path, loop: int) {
    Turns(d, p, loop) && (p.i + d < 0 || p.i + d >= |p.kids|)
  }

  /** Where that pass begins. */
  ghost function Turnpoint(d: int, p: Path): PT
    requires p.kids != []
  {
    if d > 0 then p.kids[0] else p.kids[|p.kids| - 1]
  }

  class PlayTreeIter {
    const n: Nodes
    const root: Id
    const cfg: Config.MConfig
    var tree: Ptr
    var loop: int
    var file: int
    var numFiles: nat
    var entryPushed: bool
    var stack: seq<int>   // status_stack, stack_size long

    ghost const top: seq<PT>   // the list the root is in
    ghost const start: nat     // and its place there
    ghost const unroll: nat    // how far endless loops are unrolled in the specification
    ghost const base: Vars     // the option values before anything was played
    ghost const pre: seq<Vars>
    ghost var path: Path

    ghost function S(): set<Config.Var>
      reads this, cfg
      requires |cfg.alias| == |cfg.defs|
    {
      Config.SavedVars(cfg.defs, cfg.alias)
    }

    ghost predicate Tree()
      reads this
    {
      AreTrees(n, top, Null) && AllClean(top) && start < |top| && top[start].id == root
    }

    ghost predicate Valid()
      reads this, cfg
    {
      && Tree() && cfg.Valid()
      && (tree.Null? ==>
            stack == [] && !entryPushed && cfg.saved == pre && Config.SameOn(S(), cfg.vars, base))
      && (tree.At? ==>
            && Placed(n, top, tree, loop, stack, path)
            && if entryPushed
               then AtEntry(cfg.defs, cfg.parse, S(), base, pre, path, cfg.saved)
               else AtNode(cfg.defs, cfg.parse, S(), base, pre, path, cfg.saved, cfg.vars))
    }

    /** At an entry just returned: the values its own path gives, and nothing else. */
    ghost predicate Playing()
      reads this, cfg
    {
      && Valid() && tree.At? && entryPushed && path.i < |path.kids| && Cur(path).Entry? && numFiles == Cur(path).files
      && Config.SameOn(S(), cfg.vars,
           ApplyAll(cfg.defs, cfg.parse, Overlay(cfg.defs, cfg.parse, base, path), Cur(path).params))
      && cfg.lvl == |pre| + 1 + |stack| + 1
    }

    /** `play_tree_iter_new`, for a tree that was cleaned. */
    constructor (n: Nodes, ghost top: seq<PT>, ghost start: nat, root: Id, cfg: Config.MConfig, ghost unroll: nat)
      requires AreTrees(n, top, Null) && AllClean(top) && start < |top| && top[start].id == root
      requires cfg.Valid()
      ensures Valid() && tree.Null? && this.n == n && this.cfg == cfg && this.unroll == unroll
      ensures this.top == top && this.start == start && base == cfg.vars && pre == cfg.saved
    {
      this.n, this.root, this.cfg := n, root, cfg;
      tree, loop, file, numFiles, entryPushed, stack := Null, 0, 0, 0, false, [];
      this.top, this.start, this.unroll := top, start, unroll;
      base, pre := cfg.vars, cfg.saved;
      path := Top(top, start);
    }

    // ---------- option store ----------

    /** `play_tree_iter_push_params`. */
    method PushParams(ps: Params)
      requires cfg.Valid()
      modifies cfg`lvl, cfg`slots, cfg`saved, cfg`vars
      ensures cfg.Valid() && cfg.saved == old(cfg.saved) + [old(cfg.vars)] && cfg.lvl == old(cfg.lvl) + 1
      ensures cfg.vars == ApplyAll(cfg.defs, cfg.parse, old(cfg.vars), ps)
    {
      // we always push, because some option can be set while playing
      cfg.Push();
      ghost var before := cfg.vars;
      var i := 0;
      while i < |ps|
        invariant i <= |ps| && cfg.Valid()
        invariant cfg.saved == old(cfg.saved) + [old(cfg.vars)] && cfg.lvl == old(cfg.lvl) + 1
        invariant cfg.vars == ApplyAll(cfg.defs, cfg.parse, before, ps[..i])
      {
        var _ := cfg.SetOption(ps[i].0, ps[i].1);
        ApplySnoc(cfg.defs, cfg.parse, before, ps, i);
        i := i + 1;
      }
      assert ps[..|ps|] == ps;
    }

    // ---------- stepping ----------

    /** `play_tree_iter_step`, `d` nodes forwards or backwards. */
    method Step(d: int, withNodes: bool) returns (r: int)
      requires Valid()
      modifies this`tree, this`loop, this`file, this`numFiles, this`entryPushed, this`stack, this`path
      modifies cfg`lvl, cfg`slots, cfg`saved, cfg`vars
      ensures Valid() && tree.At? && (r == ITER_ENTRY ==> Playing())
      ensures r == ITER_ENTRY || r == ITER_NODE || r == ITER_END
      ensures cfg.lvl == |pre| + 1 + |stack| + if entryPushed then 1 else 0
      ensures old(tree.Null?) ==> Forward(0, withNodes, Top(top, start), r, path, unroll)
      ensures old(tree.At?) ==> Forward(d, withNodes, old(path), r, path, unroll)
      ensures old(tree.At? && 0 <= path.i + d < |path.kids| && path.kids[path.i + d].Entry?) ==>
        r == ITER_ENTRY && tree == old(At(path.kids[path.i + d].id)) && loop == old(loop)
      ensures old(tree.At? && 0 <= path.i + d < |path.kids| && path.kids[path.i + d].Group?) && withNodes ==>
        r == ITER_NODE && tree == old(At(path.kids[path.i + d].id)) && !entryPushed
      ensures old(tree.Null?) && top[start].Group? && withNodes ==> r == ITER_NODE && tree == At(root)
      ensures file == -1
      ensures old(tree.At? && path.In? && path.up.i < |path.up.kids| && path.up.kids[path.up.i].Group?
                  && path.up.kids[path.up.i].loop != 0 && loop != 0
                  && path.i + d >= |path.kids| > 0 && path.kids[0].Entry?) ==>
        r == ITER_ENTRY && tree == old(At(path.kids[0].id)) && loop == old(if loop > 0 then loop - 1 else loop)
      ensures old(tree.At? && path.In? && path.up.i < |path.up.kids| && path.up.kids[path.up.i].Group?
                  && path.up.kids[path.up.i].loop != 0 && (loop < 0 || loop < path.up.kids[path.up.i].loop)
                  && path.i + d < 0 < |path.kids| && path.kids[|path.kids| - 1].Entry?) ==>
        r == ITER_ENTRY && tree == old(At(path.kids[|path.kids| - 1].id))
        && loop == old(if loop >= 0 then loop + 1 else loop)
    {
      if tree.Null? {
        tree := At(root);
        path := Top(top, start);
        assert Placed(n, top, tree, loop, stack, path);
        r := Go(0, withNodes);
        ForwardParts(0, withNodes, Top(top, start), r, path, unroll);
      } else {
        ghost var p := path;
        r := Go(d, withNodes);
        ForwardParts(d, withNodes, p, r, path, unroll);
      }
      LevelFor(cfg.defs, cfg.parse, S(), base, pre, path, cfg.saved, cfg.vars, entryPushed);
      PlacedParts(n, top, tree, loop, stack, path);
    }

    /** The step of a started iterator. */
    method Go(d: int, withNodes: bool) returns (r: int)
      requires Valid() && tree.At? && path.i < |path.kids|
      modifies this`tree, this`loop, this`file, this`numFiles, this`entryPushed, this`stack, this`path
      modifies cfg`lvl, cfg`slots, cfg`saved, cfg`vars
      ensures Valid() && tree.At? && (r == ITER_ENTRY ==> Playing())
      ensures Forward(d, withNodes, old(path), r, path, unroll)
      ensures old(0 <= path.i + d < |path.kids| && path.kids[path.i + d].Entry?) ==>
        r == ITER_ENTRY && tree == old(At(path.kids[path.i + d].id)) && loop == old(loop)
      ensures old(0 <= path.i + d < |path.kids| && path.kids[path.i + d].Group?) && withNodes ==>
        r == ITER_NODE && tree == old(At(path.kids[path.i + d].id)) && !entryPushed
      ensures file == -1
      ensures old(Wraps(d, path, loop) && Turnpoint(d, path).Entry?) ==>
        r == ITER_ENTRY && tree == old(At(Turnpoint(d, path).id))
        && loop == old(if d > 0 && loop > 0 then loop - 1
                       else if d < 0 && 0 <= loop < Cur(path.up).loop then loop + 1 else loop)
      decreases if d == 0 then 0 else 1, if d == 0 then Size(Cur(path)) else Depth(path), 4
    {
      hide Enters, Advances, Forward, AtNode, AtEntry, Placed, Plays;
      ghost var p := path;
      LeaveEntry();
      file := -1;
      var pt, d1 := Sibling(d);
      PlacedParts(n, top, tree, loop, stack, path);
      if pt.Null? {
        r := NoNext(d1, withNodes);
        ForwardFrom(d, withNodes, p, r, path, unroll);
      } else {
        r := Onward(pt, d, d1, withNodes);
        ForwardFrom(d, withNodes, p, r, path, unroll);
      }
    }

    /** On to a sibling, and into it. */
    method Onward(pt: Ptr, ghost d: int, d1: int, withNodes: bool) returns (r: int)
      requires Valid() && tree.At? && !entryPushed && path.i < |path.kids|
      requires 0 <= path.i + d < |path.kids| && pt == At(path.kids[path.i + d].id)
      requires d >= 0 ==> d1 >= 0
      modifies this`tree, this`loop, this`file, this`numFiles, this`entryPushed, this`stack, this`path
      modifies cfg`lvl, cfg`slots, cfg`saved, cfg`vars
      ensures Valid() && tree.At? && (r == ITER_ENTRY ==> Playing())
      ensures r == ITER_ENTRY || r == ITER_NODE || r == ITER_END
      ensures r == ITER_NODE ==> withNodes
      ensures d == 0 && !withNodes ==> Enters(old(path), r, path, unroll)
      ensures d == 1 && !withNodes ==> Advances(old(path), r, path, unroll)
      ensures old(path.kids[path.i + d].Entry?) ==> r == ITER_ENTRY && tree == pt && loop == old(loop)
      ensures old(path.kids[path.i + d].Group?) && withNodes ==> r == ITER_NODE && tree == pt && !entryPushed
      ensures old(file) == -1 ==> file == -1
      decreases if d == 0 then 0 else 1, if d == 0 then Size(Cur(path)) else Depth(path), 3
    {
      hide Enters, Advances, AtNode, AtEntry, Placed;
      ghost var p := path;
      MoveTo(pt, path.i + d);
      assert d == 0 ==> path == p;
      r := Arrive(d1, withNodes);
      if d == 1 && !withNodes {
        AdvancesNext(p, r, path, unroll);
      }
    }

    /** On to a sibling. */
    method MoveTo(pt: Ptr, ghost k: nat)
      requires Valid() && tree.At? && !entryPushed && k < |path.kids| && pt == At(path.kids[k].id)
      modifies this`tree, this`path
      ensures Valid() && tree == pt && path == Moved(old(path), k, Passes(old(path))) && path.i < |path.kids|
    {
      hide AtNode, AtEntry, Placed, CountersOk, PathTrees, PathOk;
      PlacedParts(n, top, tree, loop, stack, path);
      PlacedMoved(n, top, tree, loop, stack, path, k, loop, Passes(path));
      MovedSame(cfg.defs, cfg.parse, S(), base, pre, path, k, Passes(path), cfg.saved, cfg.vars);
      path := Moved(path, k, Passes(path));
      tree := pt;
    }

    /** Pop the options of the entry that was playing. */
    method LeaveEntry()
      requires Valid() && tree.At?
      modifies this`entryPushed, cfg`lvl, cfg`slots, cfg`saved, cfg`vars
      ensures Valid() && !entryPushed
    {
      if entryPushed {
        entryPushed := false;
        PopEntry(cfg.defs, cfg.parse, S(), base, pre, path, cfg.saved, cfg.vars);
        cfg.Pop();
      }
    }

    /** The sibling `d` places away, and the direction to go on in if there is none. */
    method Sibling(d: int) returns (pt: Ptr, d1: int)
      requires Valid() && tree.At? && path.i < |path.kids|
      ensures pt == IdAt(path.kids, path.i + d)
      ensures d == 0 ==> d1 == 0
      ensures d > 0 ==> d1 > 0 && (d == 1 || pt.At? ==> d1 == 1)
      ensures d < 0 ==> d1 < 0
    {
      PlacedParts(n, top, tree, loop, stack, path);
      hide Placed, PathOk, PathTrees, Siblings, IsTree, Clean, AtNode, AtEntry, Tree, CountersOk, Above;
      ghost var k := path.i;
      pt := tree;
      var i := d;
      if d > 0 {
        while i > 0 && pt.At?
          invariant 0 <= i <= d && k == path.i + (d - i)
          invariant pt == IdAt(path.kids, k)
          invariant pt.Null? ==> i < d
          decreases i
        {
          SiblingAt(n, path.kids, Above(path), k);
          pt := n.next[pt.a];
          i, k := i - 1, k + 1;
        }
        d1 := if i != 0 then i else 1;
      } else if d < 0 {
        while i < 0 && pt.At?
          invariant d <= i <= 0 && pt == IdAt(path.kids, path.i + (d - i))
          invariant pt.Null? ==> d < i
          decreases -i
        {
          SiblingAt(n, path.kids, Above(path), path.i + (d - i));
          pt := n.prev[pt.a];
          i := i + 1;
        }
        d1 := if i != 0 then i else -1;
      } else {
        d1 := 0;
      }
    }

    /** No sibling in that direction: repeat the list, or go up. */
    method NoNext(d: int, withNodes: bool) returns (r: int)
      requires Valid() && tree.At? && path.i < |path.kids| && !entryPushed && d != 0
      modifies this`tree, this`loop, this`file, this`numFiles, this`entryPushed, this`stack, this`path
      modifies cfg`lvl, cfg`slots, cfg`saved, cfg`vars
      ensures Valid() && tree.At? && (r == ITER_ENTRY ==> Playing())
      ensures r == ITER_ENTRY || r == ITER_NODE || r == ITER_END
      ensures r == ITER_NODE ==> withNodes
      ensures d == 1 && !withNodes && old(path).i + 1 == |old(path).kids| ==> Advances(old(path), r, path, unroll)
      ensures old(Turns(d, path, loop) && Turnpoint(d, path).Entry?) ==>
        r == ITER_ENTRY && tree == old(At(Turnpoint(d, path).id))
        && loop == old(if d > 0 && loop > 0 then loop - 1
                       else if d < 0 && 0 <= loop < Cur(path.up).loop then loop + 1 else loop)
      ensures old(file) == -1 ==> file == -1
      decreases 1, Depth(path), 2
    {
      hide Enters, Advances, Forward, AtNode;
      PlacedParts(n, top, tree, loop, stack, path);
      if path.In? {
        CurTree(n, path.up);
      }
      ghost var p := path;
      var parent := n.parent[tree.a];
      if parent.At? && n.loop[parent.a] != 0
          && ((d > 0 && loop != 0) || (d < 0 && (loop < 0 || loop < n.loop[parent.a]))) {
        Wrap(d, n.loop[parent.a]);
        ghost var q := path;
        r := Go(0, withNodes);
        ForwardParts(0, withNodes, q, r, path, unroll);
        if d == 1 && !withNodes && p.i + 1 == |p.kids| {
          AdvancesWrap(p, r, path, unroll, q.passes);
        }
      } else {
        r := UpStep(d, withNodes);
      }
    }

    /** Go back to the first of the siblings, or to the last one, and count the pass. */
    method Wrap(d: int, total: int)
      requires Valid() && path.In? && tree.At? && !entryPushed
      requires path.i < |path.kids| && path.up.i < |path.up.kids| && Cur(path.up).Group?
      requires total == Cur(path.up).loop != 0
      requires (d > 0 && loop != 0) || (d < 0 && (loop < 0 || loop < total))
      modifies this`tree, this`loop, this`path
      ensures Valid() && tree.At? && path.In? && path.i < |path.kids|
      ensures exists k: nat, m: nat :: path == Moved(old(path), k, m)
      ensures Cur(path) == old(Turnpoint(d, path)) && tree == At(Cur(path).id)
      ensures loop == old(if d > 0 && loop > 0 then loop - 1
                          else if d < 0 && 0 <= loop < total then loop + 1 else loop)
      ensures d > 0 ==> path.i == 0 && path.passes == if old(path).passes > 0 then old(path).passes - 1 else 0
    {
      hide AtNode, Placed, CountersOk, PathTrees, PathOk;
      PlacedParts(n, top, tree, loop, stack, path);
      ghost var loop0, m := loop, path.passes;
      var pt: Ptr;
      ghost var k;
      if d > 0 {
        pt, k := FirstSibling();
        if loop > 0 {
          loop := loop - 1;
        }
        m := if m > 0 then m - 1 else 0;
      } else {
        pt, k := LastSibling();
        if 0 <= loop < total {
          loop := loop + 1;
          m := m + 1;
        }
      }
      PlacedMoved(n, top, tree, loop0, stack, path, k, loop, m);
      MovedSame(cfg.defs, cfg.parse, S(), base, pre, path, k, m, cfg.saved, cfg.vars);
      path := Moved(path, k, m);
      tree := pt;
    }

    method FirstSibling() returns (pt: Ptr, ghost k: nat)
      requires Tree() && tree.At? && path.i < |path.kids| && Placed(n, top, tree, loop, stack, path)
      ensures k == 0 && pt == At(path.kids[0].id)
    {
      PlacedParts(n, top, tree, loop, stack, path);
      hide Placed, PathOk, PathTrees, Siblings, IsTree, Clean;
      pt := tree;
      k := path.i;
      while n.prev[pt.a].At?
        invariant k < |path.kids| && pt == At(path.kids[k].id) && SiblingOk(n, path.kids, Above(path), k)
        decreases k
      {
        pt := n.prev[pt.a];
        k := k - 1;
        SiblingAt(n, path.kids, Above(path), k);
      }
    }

    method LastSibling() returns (pt: Ptr, ghost k: nat)
      requires Tree() && tree.At? && path.i < |path.kids| && Placed(n, top, tree, loop, stack, path)
      ensures k + 1 == |path.kids| && pt == At(path.kids[k].id)
    {
      PlacedParts(n, top, tree, loop, stack, path);
      hide Placed, PathOk, PathTrees, Siblings, IsTree, Clean;
      pt := tree;
      k := path.i;
      while n.next[pt.a].At?
        invariant k < |path.kids| && pt == At(path.kids[k].id) && SiblingOk(n, path.kids, Above(path), k)
        decreases |path.kids| - k
      {
        pt := n.next[pt.a];
        k := k + 1;
        SiblingAt(n, path.kids, Above(path), k);
      }
    }

    /** A node with something to play below it, or an entry. */
    method Arrive(d: int, withNodes: bool) returns (r: int)
      requires Valid() && tree.At? && path.i < |path.kids| && !entryPushed
      modifies this`tree, this`loop, this`file, this`numFiles, this`entryPushed, this`stack, this`path
      modifies cfg`lvl, cfg`slots, cfg`saved, cfg`vars
      ensures Valid() && tree.At? && (r == ITER_ENTRY ==> Playing())
      ensures r == ITER_ENTRY || r == ITER_NODE || r == ITER_END
      ensures r == ITER_NODE ==> withNodes
      ensures d >= 0 && !withNodes ==> Enters(old(path), r, path, unroll)
      ensures Cur(old(path)).Entry? ==> r == ITER_ENTRY && tree == old(tree) && loop == old(loop)
      ensures Cur(old(path)).Group? && withNodes ==> r == ITER_NODE && tree == old(tree) && !entryPushed
      ensures old(file) == -1 ==> file == -1
      decreases 0, Size(Cur(path)), 2
    {
      hide Enters, AtNode, AtEntry, Flat, Plays;
      PlacedParts(n, top, tree, loop, stack, path);
      var c := n.child[tree.a];
      if c.At? {
        assert Cur(path).kids[0] in Cur(path).kids;
        var valid := IsValid(n, c.a, Cur(path).kids[0]);
        assert valid by { CleanPlayable(Cur(path).kids[0]); }
        if withNodes {
          return ITER_NODE;
        }
        r := DownStep(d, withNodes);
      } else {
        EntersEntry(path, unroll);
        PlayEntry();
        r := ITER_ENTRY;
      }
    }

    /** The end of a step: the current node is an entry, and its options are pushed. */
    method PlayEntry()
      requires Valid() && tree.At? && path.i < |path.kids| && !entryPushed && Cur(path).Entry?
      modifies this`numFiles, this`entryPushed, cfg`lvl, cfg`slots, cfg`saved, cfg`vars
      ensures Valid() && Playing()
    {
      hide AtNode, AtEntry, Placed;
      PlacedParts(n, top, tree, loop, stack, path);
      var valid := IsValid(n, tree.a, Cur(path));
      assert valid by { CleanPlayable(Cur(path)); }
      numFiles := n.files[tree.a];
      ghost var saved := cfg.saved;
      PushEntry(cfg.defs, cfg.parse, S(), base, pre, path, saved, cfg.vars);
      AtNodeLength(cfg.defs, cfg.parse, S(), base, pre, path, saved, cfg.vars);
      PushParams(n.params[tree.a]);
      entryPushed := true;
    }

    /** `play_tree_iter_down_step`: push the options of the group and go to its first or last child. */
    method DownStep(d: int, withNodes: bool) returns (r: int)
      requires Valid() && tree.At? && path.i < |path.kids| && !entryPushed && Cur(path).Group?
      modifies this`tree, this`loop, this`file, this`numFiles, this`entryPushed, this`stack, this`path
      modifies cfg`lvl, cfg`slots, cfg`saved, cfg`vars
      ensures Valid() && tree.At? && (r == ITER_ENTRY ==> Playing())
      ensures r == ITER_ENTRY || r == ITER_NODE || r == ITER_END
      ensures r == ITER_NODE ==> withNodes
      ensures d >= 0 && !withNodes ==> Enters(old(path), r, path, unroll)
      ensures file == -1
      decreases 0, Size(Cur(path)), 1
    {
      hide Enters, Forward, Flat, Plays, AtNode, AtEntry;
      ghost var p := path;
      PlacedParts(n, top, tree, loop, stack, path);
      ghost var kids := Cur(path).kids;
      ghost var k := Descend(d);
      KidSmaller(kids, k);
      ghost var q := path;
      r := Go(0, withNodes);
      ForwardParts(0, withNodes, q, r, path, unroll);
      if d >= 0 && !withNodes {
        EntersGroup(p, r, path, unroll);
      }
    }

    method LastChild(child: Ptr, ghost t: PT) returns (pt: Ptr, ghost k: nat)
      requires t.Group? && AreTrees(n, t.kids, At(t.id)) && t.kids != [] && child == At(t.kids[0].id)
      ensures k + 1 == |t.kids| && pt == At(t.kids[k].id)
    {
      hide IsTree, Clean, Siblings;
      pt := child;
      k := 0;
      SiblingAt(n, t.kids, At(t.id), k);
      while n.next[pt.a].At?
        invariant k < |t.kids| && pt == At(t.kids[k].id) && SiblingOk(n, t.kids, At(t.id), k)
        decreases |t.kids| - k
      {
        pt := n.next[pt.a];
        k := k + 1;
        SiblingAt(n, t.kids, At(t.id), k);
      }
    }

    /** Down into the group: options, counter and position. */
    method Descend(d: int) returns (ghost k: nat)
      requires Valid() && tree.At? && path.i < |path.kids| && !entryPushed && Cur(path).Group?
      modifies this`tree, this`loop, this`file, this`stack, this`path
      modifies cfg`lvl, cfg`slots, cfg`saved, cfg`vars
      ensures Valid() && tree.At? && k < |Cur(old(path)).kids| && (d >= 0 ==> k == 0)
      ensures file == -1
      ensures path == In(Cur(old(path)).kids, k, PassesLeft(Cur(old(path)).loop, unroll), old(path))
    {
      hide AtNode, AtEntry, Placed, CountersOk, PathTrees, PathOk, ApplyAll, Siblings, PassesLeft, CounterOk;
      PlacedParts(n, top, tree, loop, stack, path);
      ghost var p, loop0, stack0, tree0, saved, vars := path, loop, stack, tree, cfg.saved, cfg.vars;
      ghost var t := Cur(path);
      file := -1;
      PushParams(n.params[tree.a]);
      stack := stack + [loop];
      loop := n.loop[tree.a] - 1;
      tree := n.child[tree.a];
      k := 0;
      if d < 0 {
        tree, k := LastChild(tree, t);
      }
      ghost var passes := PassesLeft(t.loop, unroll);
      CounterStarts(t.loop, unroll);
      PlacedDown(n, top, tree0, loop0, stack0, p, k, loop, passes);
      PushGroup(cfg.defs, cfg.parse, S(), base, pre, p, saved, vars, t.kids, k, passes);
      path := In(t.kids, k, passes, p);
    }

    /** `play_tree_iter_up_step`: leave the group and go on after it. */
    method UpStep(d: int, withNodes: bool) returns (r: int)
      requires Valid() && tree.At? && path.i < |path.kids| && d != 0
      modifies this`tree, this`loop, this`file, this`numFiles, this`entryPushed, this`stack, this`path
      modifies cfg`lvl, cfg`slots, cfg`saved, cfg`vars
      ensures Valid() && tree.At? && (r == ITER_ENTRY ==> Playing())
      ensures r == ITER_ENTRY || r == ITER_NODE || r == ITER_END
      ensures r == ITER_NODE ==> withNodes
      ensures r == ITER_END && old(path).Top? ==> path == old(path)
      ensures old(path).In? && d == 1 && !withNodes ==>
        old(path).up.i < |old(path).up.kids| && Advances(old(path).up, r, path, unroll)
      ensures old(path).i + 1 == |old(path).kids| && (old(path).In? ==> old(path).passes == 0) ==>
        d == 1 && !withNodes ==> Advances(old(path), r, path, unroll)
      ensures file == -1
      decreases 1, Depth(path), 1
    {
      hide Enters, Advances, Forward, AtNode, AtEntry;
      PlacedParts(n, top, tree, loop, stack, path);
      SiblingAt(n, top, Null, start);
      ghost var p := path;
      file := -1;
      if n.parent[tree.a] == n.parent[root] {
        if p.i + 1 == |p.kids| {
          AdvancesEnd(p, path, unroll);
        }
        return ITER_END;
      }
      Ascend();
      r := Go(d, withNodes);
      ForwardParts(d, withNodes, p.up, r, path, unroll);
      if p.i + 1 == |p.kids| && p.passes == 0 && d == 1 && !withNodes {
        AdvancesUp(p, r, path, unroll);
      }
    }

    /** Up to the group: counter, position and options. */
    method Ascend()
      requires Valid() && path.In? && tree.At?
      modifies this`tree, this`loop, this`stack, this`path
      modifies cfg`lvl, cfg`slots, cfg`saved, cfg`vars
      ensures Valid() && tree.At? && path == old(path).up && path.i < |path.kids|
    {
      hide AtNode, AtEntry, Placed, CountersOk, PathTrees, PathOk, Siblings, IsTree, Clean;
      PlacedParts(n, top, tree, loop, stack, path);
      PlacedUp(n, top, tree, loop, stack, path);
      PlacedParts(n, top, At(Cur(path.up).id), stack[|stack| - 1], stack[..|stack| - 1], path.up);
      loop := stack[|stack| - 1];
      stack := stack[..|stack| - 1];
      tree := n.parent[tree.a];
      // if an entry was playing this pops its options, and the next step those of the group
      PopAbove(cfg.defs, cfg.parse, S(), base, pre, path, cfg.saved, cfg.vars, entryPushed);
      cfg.Pop();
      path := path.up;
    }
  }

  // ---------- whole runs ----------

  ghost predicate NoEndless(t: PT) {
    match t
    case Entry(_, _, _) => true
    case Group(_, _, loop, kids) => loop >= 0 && forall k :: k in kids ==> NoEndless(k)
  }

  ghost predicate Finite(ts: seq<PT>) {
    forall k :: k in ts ==> NoEndless(k)
  }

  lemma {:induction false} FiniteSupply(p: Path, top: seq<PT>, m: nat)
    requires PathOk(p, top) && Finite(top)
    ensures Supply(p, m) && NoEndless(Cur(p))
    decreases p
  {
    assert Cur(p) in p.kids;
    if p.In? {
      FiniteSupply(p.up, top, m);
    }
  }

  /** Without endless groups it does not matter how far endless groups are unrolled. */
  lemma {:induction false} FiniteFlat(ts: seq<PT>, n: nat, m: nat)
    requires Finite(ts)
    ensures FlatAll(ts, n) == FlatAll(ts, m)
    decreases ts
  {
    if ts != [] {
      FiniteFlat(ts[1..], n, m);
      assert ts[0] in ts;
      if ts[0].Group? {
        FiniteFlat(ts[0].kids, n, m);
      }
    }
  }

  // ---------- how often a group plays ----------

  /** A group of entries. */
  ghost predicate OfEntries(t: PT) {
    t.Group? && t.kids != [] && forall k :: k in t.kids ==> k.Entry?
  }

  lemma {:induction false} RepeatAt<T>(s: seq<T>, n: nat, i: nat)
    requires s != [] && i < n * |s|
    ensures |Repeat(s, n)| == n * |s| && Repeat(s, n)[i] == s[i % |s|]
    decreases n
  {
    RepeatLength(s, n);
    OneMore(n, |s|);
    if i < |s| {
      ModSmall(i, |s|);
    } else {
      RepeatAt(s, n - 1, i - |s|);
      ModLess(i, |s|);
    }
  }

  lemma OneMore(n: nat, m: nat)
    requires 0 < n * m
    ensures n > 0 && n * m == (n - 1) * m + m
  {}

  lemma ModSmall(i: nat, m: nat)
    requires i < m
    ensures i % m == i
  {}

  lemma ModLess(i: nat, m: nat)
    requires 0 < m <= i
    ensures i % m == (i - m) % m
  {
    var a, b := i / m, (i - m) / m;
    var r, t := i % m, (i - m) % m;
    assert i == m * a + r && i - m == m * b + t;
    NoMultiple(m, a, b, r, t);
  }

  lemma NoMultiple(m: nat, a: int, b: int, r: nat, t: nat)
    requires m * a + r == m * b + t + m && r < m && t < m
    ensures r == t
  {
    var d := a - b - 1;
    assert m * d == m * a - m * b - m;
    Multiple(m, d);
  }

  lemma {:induction false} Multiple(m: int, d: int)
    requires m >= 0
    ensures d == 0 || m * d >= m || m * d <= -m
    decreases if d < 0 then -d else d
  {
    if d > 1 {
      Multiple(m, d - 1);
      assert m * d == m * (d - 1) + m;
    } else if d < -1 {
      Multiple(m, d + 1);
      assert m * d == m * (d + 1) - m;
    }
  }

  lemma {:induction false} RepeatLength<T>(s: seq<T>, n: nat)
    ensures |Repeat(s, n)| == n * |s|
    decreases n
  {
    if n > 0 {
      RepeatLength(s, n - 1);
      assert n * |s| == (n - 1) * |s| + |s|;
    }
  }

  lemma {:induction false} FlatEntries(ts: seq<PT>, n: nat)
    requires forall k :: k in ts ==> k.Entry?
    ensures |FlatAll(ts, n)| == |ts| && forall i :: 0 <= i < |ts| ==> FlatAll(ts, n)[i] == ts[i].id
  {
    if ts != [] {
      assert ts[0] in ts;
      FlatEntries(ts[1..], n);
    }
  }

  /** A group of entries with loop count L plays them in order, over and over: L times, once for 0, and without end if
      L is negative, of which `n + 1` times are unrolled. */
  lemma GroupPlays(t: PT, n: nat)
    requires OfEntries(t)
    ensures |Flat(t, n)| == (if t.loop < 0 then n + 1 else if t.loop <= 1 then 1 else t.loop) * |t.kids|
    ensures forall i :: 0 <= i < |Flat(t, n)| ==> Flat(t, n)[i] == t.kids[i % |t.kids|].id
  {
    FlatEntries(t.kids, n);
    RepeatLength(FlatAll(t.kids, n), Times(t.loop, n));
    forall i | 0 <= i < |Flat(t, n)| ensures Flat(t, n)[i] == t.kids[i % |t.kids|].id {
      RepeatAt(FlatAll(t.kids, n), Times(t.loop, n), i);
    }
  }

  lemma RootPlays(top: seq<PT>, start: nat, n: nat)
    requires start + 1 == |top| && OfEntries(top[start])
    ensures FlatAll(top[start..], n) == Flat(top[start], n)
  {
    assert top[start..] == [top[start]] && top[start..][1..] == [];
    assert FlatAll([], n) == [];
    assert Flat(top[start], n) + [] == Flat(top[start], n);
  }

  /** One entry of the log of a run: what played, and the option values it played with. */
  datatype Played = Played(id: Id, vars: Vars)

  ghost function Ids(log: seq<Played>): seq<Id> {
    seq(|log|, i requires 0 <= i < |log| => log[i].id)
  }

  /** Every entry of the log played at a position of the tree, with the option values that position alone gives. */
  ghost predicate OwnOptions(it: PlayTreeIter, log: seq<Played>, at: seq<Path>)
    reads it, it.cfg
    requires |it.cfg.alias| == |it.cfg.defs|
  {
    |at| == |log| && forall i :: 0 <= i < |log| ==>
        OwnOption(it.S(), it.cfg.defs, it.cfg.parse, it.base, it.top, log[i], at[i])
  }

  ghost predicate OwnOption(s: set<Config.Var>, defs: seq<Config.Opt>, parse: Parser, base: Vars, top: seq<PT>,
                            e: Played, p: Path) {
    && PathOk(p, top) && Cur(p).Entry? && Cur(p).id == e.id
    && Config.SameOn(s, e.vars, ApplyAll(defs, parse, Overlay(defs, parse, base, p), Cur(p).params))
  }

  /** All there is to play is one group of entries. */
  ghost predicate GroupRoot(it: PlayTreeIter) {
    it.start + 1 == |it.top| && OfEntries(it.top[it.start])
  }

  ghost function RootKids(it: PlayTreeIter): seq<PT>
    requires GroupRoot(it)
  {
    it.top[it.start].kids
  }

  ghost function RootLoop(it: PlayTreeIter): int
    requires GroupRoot(it)
  {
    it.top[it.start].loop
  }

  lemma RootNotEndless(it: PlayTreeIter)
    requires GroupRoot(it) && Finite(it.top)
    ensures RootLoop(it) >= 0
  {
    assert it.top[it.start] in it.top;
  }

  lemma GroupLog(t: PT, n: nat, log: seq<Played>, limit: nat)
    requires OfEntries(t) && Ids(log) <= Flat(t, n) && |log| <= limit <= n
    requires |log| < limit ==> Ids(log) == Flat(t, n)
    ensures forall i :: 0 <= i < |log| ==> log[i].id == t.kids[i % |t.kids|].id
    ensures t.loop < 0 ==> |log| == limit
    ensures t.loop >= 0 ==>
      var all := (if t.loop <= 1 then 1 else t.loop) * |t.kids|; |log| == if limit < all then limit else all
  {
    GroupPlays(t, n);
    hide Flat;
    assert |Ids(log)| == |log|;
    forall i | 0 <= i < |log| ensures log[i].id == t.kids[i % |t.kids|].id {
      assert Ids(log)[i] == Flat(t, n)[i];
    }
    if t.loop < 0 {
      AtLeast(n + 1, |t.kids|);
    }
  }

  lemma AtLeast(a: nat, b: nat)
    requires b > 0
    ensures a * b >= a
  {}

  /** What is left to play, and how much of the unrolling: before the first step, and between steps. */
  ghost predicate Ahead(top: seq<PT>, start: nat, tree: Ptr, path: Path, unroll: nat, played: seq<Id>, steps: nat) {
    && start < |top|
    && if tree.Null? then played == [] && steps <= unroll
       else path.i < |path.kids| && played + Rest(path, unroll) == FlatAll(top[start..], unroll) && Supply(path, steps)
  }

  lemma AheadFirst(top: seq<PT>, start: nat, r: int, q: Path, unroll: nat, steps: nat)
    requires start < |top| && Enters(Top(top, start), r, q, unroll) && 1 <= steps <= unroll
    ensures r == ITER_ENTRY && q.i < |q.kids| && Ahead(top, start, At(Cur(q).id), q, unroll, [Cur(q).id], steps - 1)
  {
    var p := Top(top, start);
    assert top[start..][0] == top[start] && top[start..][1..] == top[start + 1..];
    assert Supply(p, steps - 1);
    hide Flat, FlatAll;
  }

  lemma AheadNext(top: seq<PT>, start: nat, p: Path, r: int, q: Path, unroll: nat, played: seq<Id>, steps: nat)
    requires p.i < |p.kids| && Ahead(top, start, At(Cur(p).id), p, unroll, played, steps) && 1 <= steps <= unroll + 1
    requires Advances(p, r, q, unroll)
    ensures r == ITER_END || r == ITER_ENTRY
    ensures r == ITER_END ==> played == FlatAll(top[start..], unroll)
    ensures r == ITER_ENTRY ==>
      q.i < |q.kids| && Ahead(top, start, At(Cur(q).id), q, unroll, played + [Cur(q).id], steps - 1)
  {
    SupplyLess(p, steps, 1);
    if r == ITER_ENTRY {
      assert Supply(p, (steps - 1) + 1);
      assert (played + [Cur(q).id]) + Rest(q, unroll) == played + ([Cur(q).id] + Rest(q, unroll));
    }
  }

  /** One step of a run. */
  method PlayNext(it: PlayTreeIter, log: seq<Played>, ghost at: seq<Path>, ghost steps: nat)
    returns (more: bool, log': seq<Played>, ghost at': seq<Path>)
    requires it.Valid() && OwnOptions(it, log, at) && 1 <= steps <= it.unroll
    requires it.tree.At? ==> it.path.i < |it.path.kids|
    requires Ahead(it.top, it.start, it.tree, it.path, it.unroll, Ids(log), steps)
    modifies it`tree, it`loop, it`file, it`numFiles, it`entryPushed, it`stack, it`path
    modifies it.cfg`lvl, it.cfg`slots, it.cfg`saved, it.cfg`vars
    ensures it.Valid() && it.tree.At? && OwnOptions(it, log', at') && (more ==> it.path.i < |it.path.kids|)
    ensures !more ==> log' == log && Ids(log) == FlatAll(it.top[it.start..], it.unroll)
    ensures more ==> it.Playing() && |log'| == |log| + 1 && log' == log + [log'[|log|]]
    ensures more ==> Ahead(it.top, it.start, it.tree, it.path, it.unroll, Ids(log'), steps - 1)
  {
    hide Enters, Advances, AtNode, AtEntry, Placed, Plays, Ahead, Rest, Forward;
    log', at' := log, at;
    ghost var ids := Ids(log);
    more := Forth(it, ids, steps);
    if more {
      PlacedParts(it.n, it.top, it.tree, it.loop, it.stack, it.path);
      log', at' := log + [Played(it.tree.a, it.cfg.vars)], at + [it.path];
      assert Ids(log') == ids + [it.tree.a];
    }
  }

  method Forth(it: PlayTreeIter, ghost ids: seq<Id>, ghost steps: nat) returns (more: bool)
    requires it.Valid() && 1 <= steps <= it.unroll
    requires it.tree.At? ==> it.path.i < |it.path.kids|
    requires Ahead(it.top, it.start, it.tree, it.path, it.unroll, ids, steps)
    modifies it`tree, it`loop, it`file, it`numFiles, it`entryPushed, it`stack, it`path
    modifies it.cfg`lvl, it.cfg`slots, it.cfg`saved, it.cfg`vars
    ensures it.Valid() && it.tree.At? && (more ==> it.Playing())
    ensures !more ==> ids == FlatAll(it.top[it.start..], it.unroll)
    ensures more ==> Ahead(it.top, it.start, it.tree, it.path, it.unroll, ids + [Cur(it.path).id], steps - 1)
  {
    ghost var tree, p := it.tree, it.path;
    if tree.At? {
      PlacedParts(it.n, it.top, it.tree, it.loop, it.stack, it.path);
    } else {
      assert ids == [];
    }
    hide Enters, Advances, AtNode, AtEntry, Placed, Plays, Ahead, Rest, Forward;
    var r := it.Step(1, false);
    PlacedParts(it.n, it.top, it.tree, it.loop, it.stack, it.path);
    if tree.Null? {
      ForwardParts(0, false, Top(it.top, it.start), r, it.path, it.unroll);
      AheadFirst(it.top, it.start, r, it.path, it.unroll, steps);
      assert ids + [Cur(it.path).id] == [Cur(it.path).id];
    } else {
      ForwardParts(1, false, p, r, it.path, it.unroll);
      AheadNext(it.top, it.start, p, r, it.path, it.unroll, ids, steps);
    }
    more := r == ITER_ENTRY;
  }

  /** Play at most `limit` entries. They are the first ones of the flattened tree, endless groups repeating
      without end, and there are fewer only if there is nothing more to play. */
  method Play(it: PlayTreeIter, limit: nat) returns (log: seq<Played>, ghost at: seq<Path>)
    requires it.Valid() && it.tree.Null? && limit <= it.unroll
    modifies it`tree, it`loop, it`file, it`numFiles, it`entryPushed, it`stack, it`path
    modifies it.cfg`lvl, it.cfg`slots, it.cfg`saved, it.cfg`vars
    ensures it.Valid() && it.cfg.Valid() && OwnOptions(it, log, at)
    ensures Ids(log) <= FlatAll(it.top[it.start..], it.unroll)
    ensures |log| <= limit && (|log| < limit ==> Ids(log) == FlatAll(it.top[it.start..], it.unroll))
    ensures GroupRoot(it) ==> forall i :: 0 <= i < |log| ==> log[i].id == RootKids(it)[i % |RootKids(it)|].id
    ensures GroupRoot(it) && RootLoop(it) < 0 ==> |log| == limit
    ensures GroupRoot(it) && RootLoop(it) >= 0 ==>
      var all := (if RootLoop(it) <= 1 then 1 else RootLoop(it)) * |RootKids(it)|;
      |log| == if limit < all then limit else all
  {
    hide Ahead, AtNode, AtEntry, Placed, Rest;
    log, at := [], [];
    var more := true;
    AheadStart(it.top, it.start, it.path, it.unroll, limit);
    assert Ids([]) == [];
    while |log| < limit && more
      invariant it.Valid() && OwnOptions(it, log, at) && |log| <= limit
      invariant more && it.tree.At? ==> it.path.i < |it.path.kids|
      invariant more ==> Ahead(it.top, it.start, it.tree, it.path, it.unroll, Ids(log), limit - |log|)
      invariant it.tree.At? || log == []
      invariant !more ==> Ids(log) == FlatAll(it.top[it.start..], it.unroll)
      decreases limit - |log|, more
    {
      more, log, at := PlayNext(it, log, at, limit - |log|);
    }
    if more && it.tree.At? {
      AheadPrefix(it.top, it.start, it.tree, it.path, it.unroll, Ids(log), 0);
    }
    if GroupRoot(it) {
      RootPlays(it.top, it.start, it.unroll);
      GroupLog(it.top[it.start], it.unroll, log, limit);
    }
  }

  lemma AheadStart(top: seq<PT>, start: nat, path: Path, unroll: nat, steps: nat)
    requires start < |top| && steps <= unroll
    ensures Ahead(top, start, Null, path, unroll, [], steps)
  {}

  lemma AheadPrefix(top: seq<PT>, start: nat, tree: Ptr, path: Path, unroll: nat, played: seq<Id>, steps: nat)
    requires tree.At? && Ahead(top, start, tree, path, unroll, played, steps)
    ensures start < |top| && played <= FlatAll(top[start..], unroll)
  {}

  /** Play everything, when no group repeats forever: exactly the flattened tree, then the end. */
  method PlayToEnd(it: PlayTreeIter) returns (log: seq<Played>, ghost at: seq<Path>)
    requires it.Valid() && it.tree.Null? && Finite(it.top) && it.unroll > 0
    modifies it`tree, it`loop, it`file, it`numFiles, it`entryPushed, it`stack, it`path
    modifies it.cfg`lvl, it.cfg`slots, it.cfg`saved, it.cfg`vars
    ensures it.Valid() && OwnOptions(it, log, at)
    ensures Ids(log) == FlatAll(it.top[it.start..], 0)
    ensures GroupRoot(it) ==> forall i :: 0 <= i < |log| ==> log[i].id == RootKids(it)[i % |RootKids(it)|].id
    ensures GroupRoot(it) ==> |log| == (if RootLoop(it) <= 1 then 1 else RootLoop(it)) * |RootKids(it)|
  {
    if GroupRoot(it) {
      RootNotEndless(it);
      RootPlays(it.top, it.start, 0);
      GroupPlays(it.top[it.start], 0);
    }
    log, at := [], [];
    var more := true;
    FiniteFlat(it.top[it.start..], it.unroll, 0);
    while more
      invariant it.Valid() && OwnOptions(it, log, at)
      invariant more && it.tree.At? ==> it.path.i < |it.path.kids|
      invariant more ==> Ahead(it.top, it.start, it.tree, it.path, it.unroll, Ids(log), 1)
      invariant !more ==> Ids(log) == FlatAll(it.top[it.start..], it.unroll)
      decreases |FlatAll(it.top[it.start..], it.unroll)| - |log|, more
    {
      more, log, at := PlayNext(it, log, at, 1);
      if more {
        PlacedParts(it.n, it.top, it.tree, it.loop, it.stack, it.path);
        FiniteSupply(it.path, it.top, 1);
      }
    }
  }
}
