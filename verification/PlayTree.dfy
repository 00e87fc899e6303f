/** The playlist tree of playtree.c: linked nodes, the tree they stand for, and what playing it means. */
module PlayTree {

  type Id = int

  datatype Ptr = Null | At(a: Id)

  type Params = seq<(string, string)>

  /** The fields of the play_tree nodes, one map per field. */
  datatype Nodes = Nodes(
    parent: map<Id, Ptr>, child: map<Id, Ptr>, next: map<Id, Ptr>, prev: map<Id, Ptr>,
    loop: map<Id, int>, params: map<Id, Params>, files: map<Id, nat>, isEntry: map<Id, bool>)

  /** The tree a node stands for. An entry knows how many files it lists, a group how often it repeats. */
  datatype PT =
    | Entry(id: Id, params: Params, files: nat)
    | Group(id: Id, params: Params, loop: int, kids: seq<PT>)

  // ---------- representation ----------

  ghost function IdAt(ts: seq<PT>, i: int): Ptr {
    if 0 <= i < |ts| then At(ts[i].id) else Null
  }

  /** The links of the sibling at `i`. */
  ghost predicate SiblingOk(n: Nodes, ts: seq<PT>, parent: Ptr, i: int)
    requires 0 <= i < |ts|
  {
    var x := ts[i].id;
    && x in n.next && x in n.prev && x in n.parent
    && n.next[x] == IdAt(ts, i + 1) && n.prev[x] == IdAt(ts, i - 1) && n.parent[x] == parent
  }

  ghost predicate Siblings(n: Nodes, ts: seq<PT>, parent: Ptr) {
    forall i {:trigger SiblingOk(n, ts, parent, i)} :: 0 <= i < |ts| ==> SiblingOk(n, ts, parent, i)
  }

  lemma SiblingAt(n: Nodes, ts: seq<PT>, parent: Ptr, i: int)
    requires Siblings(n, ts, parent)
    ensures 0 <= i < |ts| ==> SiblingOk(n, ts, parent, i)
  {
    assert 0 <= i < |ts| ==> SiblingOk(n, ts, parent, i);
  }

  /** Node `t.id` and everything below it stand for `t`. */
  ghost predicate IsTree(n: Nodes, t: PT)
    decreases t
  {
    && t.id in n.child && t.id in n.loop && t.id in n.params && t.id in n.files && t.id in n.isEntry
    && n.params[t.id] == t.params
    && match t
       case Entry(x, _, files) => n.isEntry[x] && n.child[x] == Null && n.files[x] == files
       case Group(x, _, loop, kids) =>
         && !n.isEntry[x] && n.loop[x] == loop && n.child[x] == IdAt(kids, 0)
         && Siblings(n, kids, At(x)) && forall k :: k in kids ==> IsTree(n, k)
  }

  ghost predicate AreTrees(n: Nodes, ts: seq<PT>, parent: Ptr) {
    Siblings(n, ts, parent) && forall k :: k in ts ==> IsTree(n, k)
  }

  // ---------- validity ----------

  /** Whether there is anything to play: an entry, or a group with something to play below it. */
  ghost predicate Playable(t: PT) {
    match t
    case Entry(_, _, _) => true
    case Group(_, _, _, kids) => exists k :: k in kids && Playable(k)
  }

  /** Every group has children and all of them are clean: what `play_tree_cleanup` leaves. */
  ghost predicate Clean(t: PT) {
    match t
    case Entry(_, _, _) => true
    case Group(_, _, _, kids) => kids != [] && forall k :: k in kids ==> Clean(k)
  }

  ghost predicate AllClean(ts: seq<PT>) {
    forall k :: k in ts ==> Clean(k)
  }

  lemma {:induction false} CleanPlayable(t: PT)
    requires Clean(t)
    ensures Playable(t)
  {
    match t
    case Entry(_, _, _) =>
    case Group(_, _, _, kids) =>
      var k := kids[0];
      assert k in kids;
      CleanPlayable(k);
  }

  /** `play_tree_is_valid`. */
  method IsValid(n: Nodes, x: Id, ghost t: PT) returns (r: bool)
    requires IsTree(n, t) && t.id == x
    ensures r <==> Playable(t)
    decreases t
  {
    if n.isEntry[x] {
      return true;
    }
    var c := n.child[x];
    ghost var i := 0;
    while c.At?
      invariant 0 <= i <= |t.kids| && c == IdAt(t.kids, i)
      invariant forall j :: 0 <= j < i ==> !Playable(t.kids[j])
      decreases |t.kids| - i
    {
      assert t.kids[i] in t.kids && SiblingOk(n, t.kids, At(x), i);
      var v := IsValid(n, c.a, t.kids[i]);
      if v {
        return true;
      }
      c := n.next[c.a];
      i := i + 1;
    }
    r := false;
  }

  // ---------- playing order ----------

  ghost function Repeat<T>(s: seq<T>, n: nat): seq<T> {
    if n == 0 then [] else s + Repeat(s, n - 1)
  }

  /** How often a group plays its children; a negative loop count means forever, unrolled here `n + 1` times. */
  ghost function Times(loop: int, n: nat): nat {
    if loop < 0 then n + 1 else if loop == 0 then 1 else loop
  }

  /** The entries of `t` in playing order. */
  ghost function Flat(t: PT, n: nat): seq<Id>
    decreases t, 0
  {
    match t
    case Entry(x, _, _) => [x]
    case Group(_, _, loop, kids) => Repeat(FlatAll(kids, n), Times(loop, n))
  }

  ghost function FlatAll(ts: seq<PT>, n: nat): seq<Id>
    decreases ts, 1
  {
    if ts == [] then [] else Flat(ts[0], n) + FlatAll(ts[1..], n)
  }

  // ---------- positions in the tree ----------

  /** A position: a sibling list and an index in it, inside the current node of the position above.
      `passes` counts the repetitions of the list still to come. */
  datatype Path =
    | Top(kids: seq<PT>, i: nat)
    | In(kids: seq<PT>, i: nat, passes: nat, up: Path)

  ghost predicate PathOk(p: Path, top: seq<PT>)
    decreases p
  {
    p.i < |p.kids| &&
    match p
    case Top(kids, _) => kids == top
    case In(kids, _, _, up) => PathOk(up, top) && up.kids[up.i].Group? && up.kids[up.i].kids == kids
  }

  ghost function Cur(p: Path): PT
    requires p.i < |p.kids|
  {
    p.kids[p.i]
  }

  ghost function Depth(p: Path): nat {
    match p
    case Top(_, _) => 0
    case In(_, _, _, up) => 1 + Depth(up)
  }

  /** The entries that play after the current node. */
  ghost function Rest(p: Path, n: nat): seq<Id>
    requires p.i < |p.kids|
    decreases p
  {
    FlatAll(p.kids[p.i + 1..], n) +
    match p
    case Top(_, _) => []
    case In(kids, _, passes, up) => Repeat(FlatAll(kids, n), passes) + if up.i < |up.kids| then Rest(up, n) else []
  }

  /** The loop counter of the innermost list and the stack of the counters above agree with the path. */
  ghost predicate CountersOk(p: Path, loop: int, stack: seq<int>)
    decreases p
  {
    match p
    case Top(_, _) => stack == []
    case In(_, _, passes, up) =>
      && up.i < |up.kids| && Cur(up).Group? && stack != []
      && CounterOk(Cur(up).loop, loop, passes)
      && CountersOk(up, stack[|stack| - 1], stack[..|stack| - 1])
  }

  ghost predicate CounterOk(total: int, loop: int, passes: nat) {
    if total == 0 then passes == 0 && loop == -1
    else if total > 0 then 0 <= loop <= total && passes == loop
    else loop < 0
  }

  /** Every endless group on the path still has `m` passes unrolled. */
  ghost predicate Supply(p: Path, m: nat)
    decreases p
  {
    match p
    case Top(_, _) => true
    case In(_, _, passes, up) =>
      (up.i < |up.kids| && Cur(up).Group? && Cur(up).loop < 0 ==> passes >= m) && Supply(up, m)
  }

  /** Nodes on a path stand for trees. */
  ghost predicate PathTrees(n: Nodes, p: Path)
    decreases p
  {
    match p
    case Top(kids, _) => AreTrees(n, kids, Null) && AllClean(kids)
    case In(kids, _, _, up) =>
      PathTrees(n, up) && up.i < |up.kids| && Cur(up).Group? && AreTrees(n, kids, At(Cur(up).id)) && AllClean(kids)
  }

  /** What the parent links of the list at this position say. */
  ghost function Above(p: Path): Ptr {
    match p
    case Top(_, _) => Null
    case In(_, _, _, up) => if up.i < |up.kids| then At(Cur(up).id) else Null
  }

  lemma CurTree(n: Nodes, p: Path)
    requires PathTrees(n, p) && p.i < |p.kids|
    ensures IsTree(n, Cur(p)) && Clean(Cur(p))
    ensures Siblings(n, p.kids, Above(p)) && SiblingOk(n, p.kids, Above(p), p.i)
  {
    assert Cur(p) in p.kids;
    hide IsTree, Clean, SiblingOk;
  }
}
