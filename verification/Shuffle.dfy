/** Shuffled playing in playtree.c: the next entry is drawn among the siblings that were not played yet. */
module Shuffle {
  import opened PlayTree
  import opened PlayTreeIter

  /** The siblings from `lo` up to `hi` that were not played, in order. */
  ghost function Free(kids: seq<PT>, played: set<Id>, lo: int, hi: int): (r: seq<Id>)
    requires 0 <= lo <= hi <= |kids|
    decreases hi - lo
  {
    if lo == hi then []
    else Free(kids, played, lo, hi - 1) + if kids[hi - 1].id in played then [] else [kids[hi - 1].id]
  }

  lemma {:induction false} FreeSplit(kids: seq<PT>, played: set<Id>, lo: int, mid: int, hi: int)
    requires 0 <= lo <= mid <= hi <= |kids|
    ensures Free(kids, played, lo, hi) == Free(kids, played, lo, mid) + Free(kids, played, mid, hi)
    decreases hi
  {
    if mid < hi {
      FreeSplit(kids, played, lo, mid, hi - 1);
    }
  }

  lemma {:induction false} FreeMembers(kids: seq<PT>, played: set<Id>, lo: int, hi: int)
    requires 0 <= lo <= hi <= |kids|
    ensures forall x :: x in Free(kids, played, lo, hi) <==> x !in played && exists i :: lo <= i < hi && kids[i].id == x
    decreases hi - lo
  {
    if lo < hi {
      FreeMembers(kids, played, lo, hi - 1);
      forall x
        ensures x in Free(kids, played, lo, hi) <==> x !in played && exists i :: lo <= i < hi && kids[i].id == x
      {
        if x == kids[hi - 1].id {
          assert lo <= hi - 1 < hi && kids[hi - 1].id == x;
        } else if exists i :: lo <= i < hi && kids[i].id == x {
          var i :| lo <= i < hi && kids[i].id == x;
          assert i < hi - 1;
        }
      }
    }
  }

  /** Playing one of them takes it out of the rest. */
  lemma {:induction false} FreeLess(kids: seq<PT>, played: set<Id>, x: Id, hi: int)
    requires 0 <= hi <= |kids| && x !in played
    requires forall i, j :: 0 <= i < j < |kids| ==> kids[i].id != kids[j].id
    ensures multiset(Free(kids, played, 0, hi)) ==
      multiset(Free(kids, played + {x}, 0, hi)) +
      if exists i :: 0 <= i < hi && kids[i].id == x then multiset{x} else multiset{}
    decreases hi
  {
    if hi > 0 {
      FreeLess(kids, played, x, hi - 1);
      var y := kids[hi - 1].id;
      if exists i :: 0 <= i < hi && kids[i].id == x {
        var i :| 0 <= i < hi && kids[i].id == x;
        assert y != x ==> 0 <= i < hi - 1;
      }
      assert y == x ==> 0 <= hi - 1 < hi && kids[hi - 1].id == x;
      assert multiset(Free(kids, played, 0, hi)) ==
        multiset(Free(kids, played, 0, hi - 1)) + if y in played then multiset{} else multiset{y};
      assert multiset(Free(kids, played + {x}, 0, hi)) ==
        multiset(Free(kids, played + {x}, 0, hi - 1)) + if y in played + {x} then multiset{} else multiset{y};
    }
  }

  /** A draw: any function that stays below the number of choices. */
  ghost predicate InRange(draw: (nat, nat) -> nat) {
    forall round: nat, count: nat :: count > 0 ==> draw(round, count) < count
  }

  /** The list of the current node, wherever it is. */
  ghost predicate InList(n: Nodes, kids: seq<PT>, parent: Ptr, tree: Id, k: nat) {
    Siblings(n, kids, parent) && k < |kids| && kids[k].id == tree
  }

  // ---------- `play_tree_rnd_step` ----------

  /** The counting pass: back to the head of the list, then forward from `pt`. */
  method CountPass(n: Nodes, pt: Id, played: set<Id>, ghost kids: seq<PT>, ghost parent: Ptr, ghost k: nat)
      returns (count: nat, head: Id)
    requires InList(n, kids, parent, pt, k)
    ensures count == |Free(kids, played, 0, |kids|)| && head == kids[0].id
  {
    hide Free, Siblings;
    count := 0;
    ghost var j: int := k;
    var i := pt;
    SiblingAt(n, kids, parent, k);
    assert Free(kids, played, j + 1, k + 1) == [] by { FreeNone(kids, played, k + 1); }
    while n.prev[i].At?
      invariant 0 <= j <= k && i == kids[j].id && SiblingOk(n, kids, parent, j)
      invariant count == |Free(kids, played, j + 1, k + 1)|
      decreases j
    {
      FreeOne(kids, played, j, k + 1);
      if i !in played {
        count := count + 1;
      }
      i := n.prev[i].a;
      j := j - 1;
      SiblingAt(n, kids, parent, j);
    }
    head := i;
    FreeOne(kids, played, 0, k + 1);
    if i !in played {
      count := count + 1;
    }
    SiblingAt(n, kids, parent, k);
    var next := n.next[pt];
    j := k + 1;
    while next.At?
      invariant k < j <= |kids| && next == IdAt(kids, j) && count == |Free(kids, played, 0, j)|
      decreases |kids| - j
    {
      SiblingAt(n, kids, parent, j);
      FreeSnoc(kids, played, 0, j);
      if next.a !in played {
        count := count + 1;
      }
      next := n.next[next.a];
      j := j + 1;
    }
  }

  /** The picking pass: the entry drawn, in the order of the list. The two passes agree for every draw. */
  method PickPass(n: Nodes, head: Id, r: nat, played: set<Id>, ghost kids: seq<PT>, ghost parent: Ptr)
      returns (x: Id, ghost at: nat)
    requires InList(n, kids, parent, head, 0) && r < |Free(kids, played, 0, |kids|)|
    ensures x == Free(kids, played, 0, |kids|)[r] && at < |kids| && kids[at].id == x
  {
    hide Free, Siblings;
    var left: int := r;
    var i := At(head);
    ghost var j := 0;
    FreeNone(kids, played, 0);
    while i.At?
      invariant 0 <= j <= |kids| && i == IdAt(kids, j) && left >= 0
      invariant r == |Free(kids, played, 0, j)| + left
      decreases |kids| - j
    {
      SiblingAt(n, kids, parent, j);
      FreeSnoc(kids, played, 0, j);
      FreeSplit(kids, played, 0, j + 1, |kids|);
      if i.a !in played {
        left := left - 1;
      }
      if left < 0 {
        return i.a, j;
      }
      i := n.next[i.a];
      j := j + 1;
    }
    assert false;
    x := head;
  }

  /** An unplayed sibling of `pt`, if there is one: which, the draw decides. */
  method RndStep(n: Nodes, pt: Id, played: set<Id>, round: nat, draw: (nat, nat) -> nat,
                 ghost kids: seq<PT>, ghost parent: Ptr, ghost k: nat) returns (r: Ptr, ghost at: nat)
    requires InList(n, kids, parent, pt, k) && InRange(draw)
    ensures r.Null? <==> Free(kids, played, 0, |kids|) == []
    ensures r.At? ==> r.a in Free(kids, played, 0, |kids|) && at < |kids| && kids[at].id == r.a
  {
    var count, head := CountPass(n, pt, played, kids, parent, k);
    if count == 0 {
      return Null, 0;
    }
    var x;
    x, at := PickPass(n, head, draw(round, count), played, kids, parent);
    r := At(x);
  }

  lemma FreeNone(kids: seq<PT>, played: set<Id>, i: int)
    requires 0 <= i <= |kids|
    ensures Free(kids, played, i, i) == []
  {}

  lemma FreeSnoc(kids: seq<PT>, played: set<Id>, lo: int, hi: int)
    requires 0 <= lo <= hi < |kids|
    ensures Free(kids, played, lo, hi + 1) ==
      Free(kids, played, lo, hi) + if kids[hi].id in played then [] else [kids[hi].id]
  {}

  lemma FreeOne(kids: seq<PT>, played: set<Id>, lo: int, hi: int)
    requires 0 <= lo < hi <= |kids|
    ensures |Free(kids, played, lo, hi)| == |Free(kids, played, lo + 1, hi)| + if kids[lo].id in played then 0 else 1
  {
    FreeSplit(kids, played, lo, lo + 1, hi);
    FreeSnoc(kids, played, lo, lo);
    FreeNone(kids, played, lo);
  }

  ghost function IdsOf(kids: seq<PT>): seq<Id> {
    seq(|kids|, i requires 0 <= i < |kids| => kids[i].id)
  }

  lemma {:induction false} AllFree(kids: seq<PT>, hi: int)
    requires 0 <= hi <= |kids|
    ensures Free(kids, {}, 0, hi) == IdsOf(kids)[..hi]
    decreases hi
  {
    if hi > 0 {
      AllFree(kids, hi - 1);
    }
  }

  // ---------- the iterator in shuffle mode ----------

  /** A group whose children are shuffled: they are entries. */
  ghost predicate Shuffled(t: PT) {
    && t.Group? && t.kids != [] && (forall k :: k in t.kids ==> k.Entry?)
    && forall i, j :: 0 <= i < j < |t.kids| ==> t.kids[i].id != t.kids[j].id
  }

  /** The iterator stands before the shuffled root, or among its children. */
  ghost predicate Among(top: seq<PT>, start: nat, tree: Ptr, path: Path) {
    && start < |top| && Shuffled(top[start])
    && (tree.At? ==>
          path.In? && path.up.Top? && path.up.kids == top && path.up.i == start && path.kids == top[start].kids
          && path.i < |path.kids|)
  }

  class Shuffler {
    const it: PlayTreeIter
    var played: set<Id>   // PLAY_TREE_RND_PLAYED
    var left: int         // root->loop, which this mode counts down

    ghost predicate Valid()
      reads this, it, it.cfg
    {
      it.Valid() && Among(it.top, it.start, it.tree, it.path)
    }

    constructor (it: PlayTreeIter)
      requires it.Valid() && it.tree.Null? && it.start < |it.top| && Shuffled(it.top[it.start])
      ensures Valid() && this.it == it && played == {} && left == it.top[it.start].loop && fresh(this)
    {
      assert it.top[it.start] in it.top && IsTree(it.n, it.top[it.start]);
      this.it, played, left := it, {}, it.n.loop[it.root];
    }

    ghost function Kids(): seq<PT>
      reads it
      requires it.start < |it.top| && it.top[it.start].Group?
    {
      it.top[it.start].kids
    }

    /** `play_tree_iter_step` where the parent of the current node has its children shuffled, and the first step,
        which goes down to them. */
    method Step(round: nat, draw: (nat, nat) -> nat) returns (r: int)
      requires Valid() && InRange(draw)
      modifies this`played, this`left, it`tree, it`loop, it`file, it`numFiles, it`entryPushed, it`stack, it`path
      modifies it.cfg`lvl, it.cfg`slots, it.cfg`saved, it.cfg`vars
      ensures Valid() && it.tree.At? && (r == ITER_ENTRY ==> it.Playing())
      ensures Stepped(Kids(), old(played), old(left), r, it.tree, played, left)
    {
      ghost var kids := Kids();
      if it.tree.Null? {
        Enter();
      }
      r := Next(round, draw);
    }

    /** The step of a started iterator. When every entry was played and the root is to be played again, all of them
        are free again. */
    method Next(round: nat, draw: (nat, nat) -> nat) returns (r: int)
      requires Valid() && InRange(draw) && it.tree.At?
      modifies this`played, this`left, it`tree, it`file, it`numFiles, it`entryPushed, it`path
      modifies it.cfg`lvl, it.cfg`slots, it.cfg`saved, it.cfg`vars
      ensures Valid() && it.tree.At? && (r == ITER_ENTRY ==> it.Playing())
      ensures Stepped(Kids(), old(played), old(left), r, it.tree, played, left)
      decreases Free(Kids(), played, 0, |Kids()|) == []
    {
      hide Placed, AtNode, AtEntry, Free, Shuffled, Draws, InList;
      it.LeaveEntry();
      it.file := -1;
      var drawn := Draw(round, draw);
      if drawn {
        return ITER_ENTRY;
      }
      // Must we loop?
      if left == 0 {
        return ITER_END;
      }
      FreeAgain(it.top[it.start]);
      played := {};
      if left > 0 {
        left := left - 1;
      }
      // try again
      r := Next(round, draw);
    }

    /** Draw one and settle there. */
    method Draw(round: nat, draw: (nat, nat) -> nat) returns (drawn: bool)
      requires Valid() && InRange(draw) && it.tree.At? && !it.entryPushed
      modifies this`played, it`tree, it`numFiles, it`entryPushed, it`path
      modifies it.cfg`lvl, it.cfg`slots, it.cfg`saved, it.cfg`vars
      ensures Valid() && it.tree.At? && (drawn <==> Free(Kids(), old(played), 0, |Kids()|) != [])
      ensures !drawn ==> played == old(played)
      ensures drawn ==> it.Playing() && Draws(Kids(), old(played), it.tree.a, played)
    {
      ghost var kids := Kids();
      hide Placed, AtNode, AtEntry, Free, Shuffled, Draws, InList;
      Here();
      var pt;
      ghost var k;
      pt, k := RndStep(it.n, it.tree.a, played, round, draw, kids, Above(it.path), it.path.i);
      if pt.Null? {
        return false;
      }
      Drawn(it.top[it.start], played, pt.a, k);
      Settle(pt, k);
      played := played + {pt.a};
      drawn := true;
    }

    /** On to the entry that was drawn. */
    method Settle(pt: Ptr, ghost k: nat)
      requires Valid() && it.tree.At? && !it.entryPushed
      requires k < |Kids()| && pt == At(Kids()[k].id) && Kids()[k].Entry?
      modifies it`tree, it`numFiles, it`entryPushed, it`path
      modifies it.cfg`lvl, it.cfg`slots, it.cfg`saved, it.cfg`vars
      ensures Valid() && it.tree == pt && it.Playing()
    {
      hide Placed, AtNode, AtEntry, Shuffled;
      it.MoveTo(pt, k);
      it.PlayEntry();
    }

    lemma Here()
      requires Valid() && it.tree.At?
      ensures InList(it.n, Kids(), Above(it.path), it.tree.a, it.path.i)
    {
      PlacedParts(it.n, it.top, it.tree, it.loop, it.stack, it.path);
    }

    /** Down to the first child. */
    method Enter()
      requires Valid() && it.tree.Null?
      modifies it`tree, it`loop, it`file, it`stack, it`path
      modifies it.cfg`lvl, it.cfg`slots, it.cfg`saved, it.cfg`vars
      ensures Valid() && it.tree.At?
    {
      it.tree := At(it.root);
      it.path := Top(it.top, it.start);
      assert Placed(it.n, it.top, it.tree, it.loop, it.stack, it.path);
      ghost var k := it.Descend(0);
    }
  }

  /** `x` was not played before, and that is all that changed. */
  ghost predicate Draws(kids: seq<PT>, played: set<Id>, x: Id, played': set<Id>) {
    && x !in played && played' == played + {x}
    && multiset(Free(kids, played, 0, |kids|)) == multiset(Free(kids, played', 0, |kids|)) + multiset{x}
  }

  lemma Drawn(t: PT, played: set<Id>, x: Id, at: nat)
    requires Shuffled(t) && at < |t.kids| && x in Free(t.kids, played, 0, |t.kids|) && t.kids[at].id == x
    ensures t.kids[at].Entry? && Draws(t.kids, played, x, played + {x})
  {
    FreeMembers(t.kids, played, 0, |t.kids|);
    FreeLess(t.kids, played, x, |t.kids|);
    assert t.kids[at] in t.kids;
  }

  lemma FreeAgain(t: PT)
    requires Shuffled(t)
    ensures Free(t.kids, {}, 0, |t.kids|) != []
  {
    AllFree(t.kids, |t.kids|);
  }

  /** A step among shuffled children: the end when all were played and no pass is left; one that was not played yet; or
      any one of them, when a new pass begins. */
  ghost predicate Stepped(kids: seq<PT>, played: set<Id>, left: int, r: int, tree: Ptr, played': set<Id>, left': int) {
    var over := Free(kids, played, 0, |kids|) == [];
    && (r == ITER_ENTRY || r == ITER_END)
    && (r == ITER_END <==> over && left == 0)
    && (r == ITER_END ==> played' == played && left' == left)
    && (r == ITER_ENTRY ==> tree.At? && Draws(kids, if over then {} else played, tree.a, played'))
    && (r == ITER_ENTRY ==> left' == if over && left > 0 then left - 1 else left)
  }

  /** What was played, what is playing and what is left are together the children, once each. */
  ghost predicate Accounted(kids: seq<PT>, log: seq<Played>, played: set<Id>, tree: Ptr, r: int) {
    || (r == ITER_END && multiset(Ids(log)) == multiset(IdsOf(kids)))
    || (r == ITER_ENTRY && tree.At?
        && multiset(Ids(log)) + multiset(Free(kids, played, 0, |kids|)) + multiset{tree.a} == multiset(IdsOf(kids)))
  }

  lemma AccountedNext(kids: seq<PT>, log: seq<Played>, played: set<Id>, x: Id, vars: Vars, played': set<Id>,
                      tree: Ptr, r: int)
    requires Accounted(kids, log, played, At(x), ITER_ENTRY) && (r == ITER_ENTRY || r == ITER_END)
    requires r == ITER_END <==> Free(kids, played, 0, |kids|) == []
    requires r == ITER_ENTRY ==> tree.At? && Draws(kids, played, tree.a, played')
    ensures Accounted(kids, log + [Played(x, vars)], played', tree, r)
    ensures r == ITER_ENTRY ==> |Free(kids, played', 0, |kids|)| < |Free(kids, played, 0, |kids|)|
  {
    hide Free, Ids, IdsOf;
    IdsAppend(log, Played(x, vars));
    if r == ITER_ENTRY {
      OneLess(Free(kids, played, 0, |kids|), Free(kids, played', 0, |kids|), tree.a);
    }
  }

  lemma OneLess(s: seq<Id>, t: seq<Id>, x: Id)
    requires multiset(s) == multiset(t) + multiset{x}
    ensures |t| < |s|
  {
    assert |multiset(s)| == |multiset(t)| + 1;
  }

  lemma IdsAppend(log: seq<Played>, e: Played)
    ensures Ids(log + [e]) == Ids(log) + [e.id]
  {}

  /** The list is `n` passes over the children, each in an order of its own. */
  ghost predicate Rounds(ids: seq<Id>, kids: seq<PT>, n: nat)
    decreases n
  {
    if n == 0 then ids == []
    else
      && |ids| >= |kids| && multiset(ids[|ids| - |kids|..]) == multiset(IdsOf(kids))
      && Rounds(ids[..|ids| - |kids|], kids, n - 1)
  }

  /** After `n` whole passes, the log up to `from`, comes the one that is going on. */
  ghost predicate Progress(kids: seq<PT>, log: seq<Played>, from: nat, n: nat, played: set<Id>, tree: Ptr, r: int) {
    && from <= |log| && Rounds(Ids(log[..from]), kids, n) && Accounted(kids, log[from..], played, tree, r)
  }

  lemma ProgressFirst(kids: seq<PT>, left: int, played: set<Id>, left': int, tree: Ptr, r: int)
    requires Stepped(kids, {}, left, r, tree, played, left') && kids != []
    ensures Progress(kids, [], 0, 0, played, tree, r) && r == ITER_ENTRY && left' == left
  {
    hide Free, Accounted, Draws;
    AllFree(kids, |kids|);
    AccountedFirst(kids, played, tree, r);
    assert Ids([]) == [];
  }

  /** A step goes on with the pass, or closes it. */
  lemma ProgressNext(kids: seq<PT>, log: seq<Played>, from: nat, n: nat, played: set<Id>, left: int, x: Id, vars: Vars,
                     played': set<Id>, left': int, tree: Ptr, r: int) returns (from': nat, n': nat)
    requires Progress(kids, log, from, n, played, At(x), ITER_ENTRY) && kids != [] && left >= 0
    requires Stepped(kids, played, left, r, tree, played', left')
    ensures Progress(kids, log + [Played(x, vars)], from', n', played', tree, r)
    ensures n' + left' == n + left && left' >= 0
    ensures r == ITER_ENTRY ==> left' <= left
    ensures r == ITER_ENTRY && left' == left ==>
      |Free(kids, played', 0, |kids|)| < |Free(kids, played, 0, |kids|)|
  {
    hide Free, Accounted, Draws, Rounds;
    var log' := log + [Played(x, vars)];
    assert log'[from..] == log[from..] + [Played(x, vars)] && log'[..from] == log[..from];
    from', n' := from, n;
    if r == ITER_ENTRY && Free(kids, played, 0, |kids|) == [] {
      AccountedNext(kids, log[from..], played, x, vars, played, Null, ITER_END);
      RoundClosed(kids, log', from, n, played);
      AllFree(kids, |kids|);
      AccountedFirst(kids, played', tree, r);
      from', n' := |log'|, n + 1;
      assert log'[from'..] == [] && log'[..from'] == log';
    } else {
      AccountedNext(kids, log[from..], played, x, vars, played', tree, r);
    }
  }

  lemma RoundClosed(kids: seq<PT>, log: seq<Played>, from: nat, n: nat, played: set<Id>)
    requires from <= |log| && Rounds(Ids(log[..from]), kids, n) && Accounted(kids, log[from..], played, Null, ITER_END)
    ensures Rounds(Ids(log), kids, n + 1)
  {
    hide *;
    AccountedAll(kids, log[from..], played, Null, ITER_END);
    IdsSplit(log, from);
    RoundsSnoc(Ids(log), kids, from, n);
  }

  lemma IdsSplit(log: seq<Played>, from: nat)
    requires from <= |log|
    ensures |Ids(log)| == |log| && Ids(log)[from..] == Ids(log[from..]) && Ids(log)[..from] == Ids(log[..from])
  {}

  lemma RoundsSnoc(ids: seq<Id>, kids: seq<PT>, from: nat, n: nat)
    requires from <= |ids| && |ids| - from == |kids| && multiset(ids[from..]) == multiset(IdsOf(kids))
    requires Rounds(ids[..from], kids, n)
    ensures Rounds(ids, kids, n + 1)
  {
    hide IdsOf;
    assert |ids| - |kids| == from;
  }

  /** Whatever is drawn, a root with loop count L >= 0 plays every entry exactly L + 1 times before the end, pass by
      pass, each with the values that the group and the entry itself give, and nothing else. */
  method PlayAll(s: Shuffler, draw: (nat, nat) -> nat) returns (log: seq<Played>, ghost at: seq<Path>)
    requires s.Valid() && s.it.tree.Null? && s.played == {} && InRange(draw) && s.left >= 0
    modifies s`played, s`left, s.it`tree, s.it`loop, s.it`file, s.it`numFiles, s.it`entryPushed, s.it`stack, s.it`path
    modifies s.it.cfg`lvl, s.it.cfg`slots, s.it.cfg`saved, s.it.cfg`vars
    ensures s.Valid() && Rounds(Ids(log), s.Kids(), old(s.left) + 1)
    ensures |log| == (old(s.left) + 1) * |s.Kids()|
    ensures forall i :: 0 <= i < |s.Kids()| ==> multiset(Ids(log))[s.Kids()[i].id] == old(s.left) + 1
    ensures OwnOptions(s.it, log, at)
  {
    ghost var kids := s.Kids();
    hide Free, Placed, AtNode, AtEntry, Progress, Draws, Rounds, Stepped;
    ghost var from, n: nat := 0, 0;
    log, at := [], [];
    var r := Begin(s, draw);
    while r == ITER_ENTRY
      invariant s.Valid() && s.it.tree.At? && OwnOptions(s.it, log, at) && (r == ITER_ENTRY || r == ITER_END)
      invariant r == ITER_ENTRY ==> s.it.Playing()
      invariant Progress(kids, log, from, n, s.played, s.it.tree, r)
      invariant n + s.left == old(s.left) && s.left >= 0 && (r == ITER_END ==> s.left == 0)
      decreases s.left, |Free(kids, s.played, 0, |kids|)|, r == ITER_ENTRY
    {
      r, log, at, from, n := Turn(s, draw, log, at, from, n);
    }
    ProgressEnds(kids, log, from, n, s.played, s.it.tree);
    RoundsTimes(s, log, n + 1);
  }

  method Begin(s: Shuffler, draw: (nat, nat) -> nat) returns (r: int)
    requires s.Valid() && s.it.tree.Null? && s.played == {} && InRange(draw)
    modifies s`played, s`left, s.it`tree, s.it`loop, s.it`file, s.it`numFiles, s.it`entryPushed, s.it`stack, s.it`path
    modifies s.it.cfg`lvl, s.it.cfg`slots, s.it.cfg`saved, s.it.cfg`vars
    ensures s.Valid() && s.it.tree.At? && s.it.Playing() && s.left == old(s.left) && r == ITER_ENTRY
    ensures Progress(s.Kids(), [], 0, 0, s.played, s.it.tree, r)
  {
    hide Free, Placed, AtNode, AtEntry, Progress, Draws, Stepped;
    ghost var kids := s.Kids();
    KidsThere(s);
    r := s.Step(0, draw);
    ProgressFirst(kids, old(s.left), s.played, s.left, s.it.tree, r);
  }

  lemma RoundsTimes(s: Shuffler, log: seq<Played>, n: nat)
    requires s.Valid() && Rounds(Ids(log), s.Kids(), n)
    ensures |log| == n * |s.Kids()|
    ensures forall i :: 0 <= i < |s.Kids()| ==> multiset(Ids(log))[s.Kids()[i].id] == n
  {
    forall i | 0 <= i < |s.Kids()| ensures multiset(Ids(log))[s.Kids()[i].id] == n {
      RoundsCount(Ids(log), s.Kids(), n, i);
    }
    RoundsLength(Ids(log), s.Kids(), n);
    IdsSplit(log, 0);
  }

  lemma {:induction false} RoundsLength(ids: seq<Id>, kids: seq<PT>, n: nat)
    requires Rounds(ids, kids, n)
    ensures |ids| == n * |kids|
    decreases n
  {
    if n > 0 {
      RoundsLength(ids[..|ids| - |kids|], kids, n - 1);
      assert n * |kids| == (n - 1) * |kids| + |kids|;
    }
  }

  lemma {:induction false} RoundsCount(ids: seq<Id>, kids: seq<PT>, n: nat, i: nat)
    requires Rounds(ids, kids, n) && i < |kids|
    requires forall a, b :: 0 <= a < b < |kids| ==> kids[a].id != kids[b].id
    ensures multiset(ids)[kids[i].id] == n
    decreases n
  {
    if n > 0 {
      var k := |ids| - |kids|;
      hide IdsOf;
      RoundsCount(ids[..k], kids, n - 1, i);
      OnceInPass(kids, i);
      CountParts(ids, k, kids[i].id);
    }
  }

  lemma CountParts(s: seq<Id>, k: nat, x: Id)
    requires k <= |s|
    ensures multiset(s)[x] == multiset(s[..k])[x] + multiset(s[k..])[x]
  {
    assert s == s[..k] + s[k..];
  }

  lemma OnceInPass(kids: seq<PT>, i: nat)
    requires i < |kids| && forall a, b :: 0 <= a < b < |kids| ==> kids[a].id != kids[b].id
    ensures multiset(IdsOf(kids))[kids[i].id] == 1
  {
    OnceListed(kids, i, |kids|);
    assert IdsOf(kids)[..|kids|] == IdsOf(kids);
  }

  lemma {:induction false} OnceListed(kids: seq<PT>, i: nat, n: nat)
    requires i < |kids| && n <= |kids|
    requires forall a, b :: 0 <= a < b < |kids| ==> kids[a].id != kids[b].id
    ensures multiset(IdsOf(kids)[..n])[kids[i].id] == if i < n then 1 else 0
    decreases n
  {
    if n > 0 {
      OnceListed(kids, i, n - 1);
      assert IdsOf(kids)[..n] == IdsOf(kids)[..n - 1] + [kids[n - 1].id];
    }
  }

  lemma ProgressEnds(kids: seq<PT>, log: seq<Played>, from: nat, n: nat, played: set<Id>, tree: Ptr)
    requires Progress(kids, log, from, n, played, tree, ITER_END)
    ensures Rounds(Ids(log), kids, n + 1)
  {
    hide Free, Rounds;
    RoundClosed(kids, log, from, n, played);
  }

  /** Note what plays, and step on. */
  method Turn(s: Shuffler, draw: (nat, nat) -> nat, log: seq<Played>, ghost at: seq<Path>, ghost from: nat,
              ghost n: nat)
      returns (r: int, log': seq<Played>, ghost at': seq<Path>, ghost from': nat, ghost n': nat)
    requires s.Valid() && s.it.tree.At? && s.it.Playing() && OwnOptions(s.it, log, at) && InRange(draw) && s.left >= 0
    requires Progress(s.Kids(), log, from, n, s.played, s.it.tree, ITER_ENTRY)
    modifies s`played, s`left, s.it`tree, s.it`loop, s.it`file, s.it`numFiles, s.it`entryPushed, s.it`stack, s.it`path
    modifies s.it.cfg`lvl, s.it.cfg`slots, s.it.cfg`saved, s.it.cfg`vars
    ensures s.Valid() && s.it.tree.At? && OwnOptions(s.it, log', at') && (r == ITER_ENTRY || r == ITER_END)
    ensures r == ITER_ENTRY ==> s.it.Playing()
    ensures Progress(s.Kids(), log', from', n', s.played, s.it.tree, r)
    ensures n' + s.left == n + old(s.left) && s.left >= 0
    ensures r == ITER_ENTRY ==> s.left <= old(s.left)
    ensures r == ITER_ENTRY && s.left == old(s.left) ==>
      |Free(s.Kids(), s.played, 0, |s.Kids()|)| < |Free(s.Kids(), old(s.played), 0, |s.Kids()|)|
    ensures r == ITER_END ==> s.left == 0 && s.left == old(s.left) && s.played == old(s.played)
  {
    ghost var kids, x, vars, played, left := s.Kids(), s.it.tree.a, s.it.cfg.vars, s.played, s.left;
    hide Free, Shuffled, Placed, AtNode, AtEntry, Progress, Draws, OwnOption, Among, PathOk, Config.SameOn;
    KidsThere(s);
    OwnMore(s.it, log, at);
    log', at' := log + [Played(s.it.tree.a, s.it.cfg.vars)], at + [s.it.path];
    r := s.Step(|log'|, draw);
    from', n' := ProgressNext(kids, log, from, n, played, left, x, vars, s.played, s.left, s.it.tree, r);
  }

  lemma KidsThere(s: Shuffler)
    requires s.Valid()
    ensures s.Kids() != []
  {}

  lemma OwnMore(it: PlayTreeIter, log: seq<Played>, at: seq<Path>)
    requires it.Playing() && OwnOptions(it, log, at)
    ensures OwnOptions(it, log + [Played(it.tree.a, it.cfg.vars)], at + [it.path])
  {
    PlacedParts(it.n, it.top, it.tree, it.loop, it.stack, it.path);
    hide Placed, AtNode, AtEntry, PathOk, PathTrees, ApplyAll, Overlay, Config.SameOn;
  }

  lemma AccountedFirst(kids: seq<PT>, played: set<Id>, tree: Ptr, r: int)
    requires r == ITER_ENTRY || r == ITER_END
    requires r == ITER_END <==> Free(kids, {}, 0, |kids|) == []
    requires r == ITER_ENTRY ==> tree.At? && Draws(kids, {}, tree.a, played)
    ensures Accounted(kids, [], played, tree, r)
  {
    AllFree(kids, |kids|);
    hide Free, IdsOf;
    assert IdsOf(kids)[..|kids|] == IdsOf(kids) by { IdsLength(kids); }
    assert Ids([]) == [];
    if r == ITER_ENTRY {
      NothingYet(multiset(IdsOf(kids)), multiset(Free(kids, played, 0, |kids|)), tree.a);
    }
  }

  lemma IdsLength(kids: seq<PT>)
    ensures |IdsOf(kids)| == |kids|
  {}

  lemma NothingYet(all: multiset<Id>, left: multiset<Id>, x: Id)
    requires all == left + multiset{x}
    ensures multiset{} + left + multiset{x} == all
  {}

  lemma AccountedAll(kids: seq<PT>, log: seq<Played>, played: set<Id>, tree: Ptr, r: int)
    requires Accounted(kids, log, played, tree, r) && r == ITER_END
    ensures multiset(Ids(log)) == multiset(IdsOf(kids)) && |log| == |kids|
  {
    assert |multiset(Ids(log))| == |Ids(log)| && |multiset(IdsOf(kids))| == |IdsOf(kids)|;
  }
}
