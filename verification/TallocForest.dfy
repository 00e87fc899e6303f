/** The shape of the talloc heap, seen without its pointers.
    A Forest says, for every live chunk, which chunk `talloc_parent_chunk` finds for it (up), the order of
    its children (kids), the order of the reference handles that point at it (refs), which chunk a
    handle refers to (target), which chunks are between unlinking and release inside `_talloc_free`
    (flight), and which of those still carry a `prev` link to a former sibling, live or not (stale). */
module TallocForest {

  /** A chunk address. */
  type Id = int

  datatype Ptr = Null | At(a: Id)

  datatype Forest = Forest(
    up: map<Id, Ptr>,
    kids: map<Id, seq<Id>>,
    refs: map<Id, seq<Id>>,
    target: map<Id, Id>,
    flight: set<Id>,
    stale: map<Id, Id>)

  const EMPTY_FOREST := Forest(map[], map[], map[], map[], {}, map[])

  // ---------- lists ----------

  ghost predicate Distinct(s: seq<Id>) {
    forall i, j :: 0 <= i < j < |s| ==> s[i] != s[j]
  }

  function Without(s: seq<Id>, c: Id): seq<Id> {
    if s == [] then [] else if s[0] == c then s[1..] else [s[0]] + Without(s[1..], c)
  }

  function Head(s: seq<Id>): Ptr {
    if s == [] then Null else At(s[0])
  }

  lemma {:induction false} WithoutAt(s: seq<Id>, i: nat)
    requires i < |s| && Distinct(s)
    ensures Without(s, s[i]) == s[..i] + s[i + 1..]
  {
    if i > 0 {
      WithoutAt(s[1..], i - 1);
      assert s[1..][..i - 1] == s[1..i];
      assert s[1..][i..] == s[i + 1..];
    }
  }

  lemma {:induction false} WithoutMembers(s: seq<Id>, c: Id)
    requires Distinct(s)
    ensures Distinct(Without(s, c))
    ensures forall x :: x in Without(s, c) <==> x in s && x != c
  {
    if c in s {
      var i :| 0 <= i < |s| && s[i] == c;
      WithoutAt(s, i);
      var w := s[..i] + s[i + 1..];
      assert forall k :: 0 <= k < |w| ==> w[k] == if k < i then s[k] else s[k + 1];
      forall x | x in s && x != c ensures x in w {
        var k :| 0 <= k < |s| && s[k] == x;
        assert w[if k < i then k else k - 1] == x;
      }
    } else {
      WithoutAbsent(s, c);
    }
  }

  lemma {:induction false} WithoutAbsent(s: seq<Id>, c: Id)
    requires c !in s
    ensures Without(s, c) == s
  {
    if s != [] {
      WithoutAbsent(s[1..], c);
    }
  }

  // ---------- well-formed forests ----------

  ghost predicate Ranked(up: map<Id, Ptr>, rank: map<Id, nat>) {
    && up.Keys <= rank.Keys
    && forall x :: x in up && up[x].At? ==> up[x].a in up && rank[up[x].a] < rank[x]
  }

  /** The parent links form a forest: some ranking strictly decreases along every one of them. */
  ghost predicate Forested(up: map<Id, Ptr>) {
    exists rank :: Ranked(up, rank)
  }

  ghost predicate Shape(F: Forest) {
    && F.kids.Keys == F.up.Keys
    && F.refs.Keys == F.up.Keys
    && F.target.Keys <= F.up.Keys
    && F.flight <= F.up.Keys
  }

  /** Every chunk outside the free cascade is on exactly the child list of its parent, once. */
  ghost predicate KidsOk(up: map<Id, Ptr>, kids: map<Id, seq<Id>>, flight: set<Id>) {
    && (forall a, c :: a in kids && c in kids[a] ==> c in up && c !in flight && up[c] == At(a))
    && (forall c :: c in up && c !in flight && up[c].At? ==> up[c].a in kids && c in kids[up[c].a])
    && (forall a :: a in kids ==> Distinct(kids[a]))
  }

  /** `refs` lists exactly the live handles that point at the chunk, once each. */
  ghost predicate RefsOk(refs: map<Id, seq<Id>>, target: map<Id, Id>) {
    && (forall c, h :: c in refs && h in refs[c] ==> h in target && target[h] == c)
    && (forall h :: h in target ==> target[h] in refs && h in refs[target[h]])
    && (forall c :: c in refs ==> Distinct(refs[c]))
  }

  /** Handles own nothing, nothing refers to them, and they are never in flight as handles. */
  ghost predicate HandlesOk(up: map<Id, Ptr>, refs: map<Id, seq<Id>>, target: map<Id, Id>, flight: set<Id>)
    requires target.Keys <= refs.Keys
  {
    && (forall h :: h in target ==> refs[h] == [] && h !in flight)
    && (forall x :: x in up && up[x].At? ==> up[x].a !in target)
  }

  /** Chunks in flight are no longer referenced; only a chunk with a parent has a leftover `prev`. */
  ghost predicate FlightOk(up: map<Id, Ptr>, refs: map<Id, seq<Id>>, flight: set<Id>, stale: map<Id, Id>)
    requires flight <= up.Keys && refs.Keys == up.Keys
  {
    && (forall f :: f in flight ==> refs[f] == [])
    && (forall f :: f in stale ==> f in flight && up[f].At?)
  }

  ghost predicate WF(F: Forest) {
    && Shape(F)
    && KidsOk(F.up, F.kids, F.flight)
    && RefsOk(F.refs, F.target)
    && HandlesOk(F.up, F.refs, F.target, F.flight)
    && FlightOk(F.up, F.refs, F.flight, F.stale)
    && Forested(F.up)
  }

  lemma WFParts(F: Forest)
    requires WF(F)
    ensures Shape(F) && KidsOk(F.up, F.kids, F.flight) && RefsOk(F.refs, F.target) && Forested(F.up)
  {}

  // ---------- ancestry ----------

  ghost predicate Climb(up: map<Id, Ptr>, x: Id, a: Id, n: nat)
    decreases n
  {
    if n == 0 then x == a
    else x in up && up[x].At? && Climb(up, up[x].a, a, n - 1)
  }

  /** `a` is `x` or one of its ancestors. */
  ghost predicate Below(up: map<Id, Ptr>, x: Id, a: Id) {
    exists n: nat :: Climb(up, x, a, n)
  }

  /** The sibling that `f` points back at is still there: a walk may pass through `f`. */
  ghost predicate LivePrev(F: Forest, f: Id) {
    f in F.stale ==>
      var s := F.stale[f];
      f in F.up && s in F.up && s !in F.flight && F.up[s] == F.up[f]
  }

  ghost function Subtree(F: Forest, p: Id): set<Id> {
    set x | x in F.up && Below(F.up, x, p)
  }

  lemma BelowSelf(up: map<Id, Ptr>, x: Id)
    ensures Below(up, x, x)
  {
    assert Climb(up, x, x, 0);
  }

  lemma BelowStep(up: map<Id, Ptr>, x: Id, a: Id)
    requires x in up && x != a
    ensures Below(up, x, a) <==> up[x].At? && Below(up, up[x].a, a)
  {
    if Below(up, x, a) {
      var n: nat :| Climb(up, x, a, n);
      assert Climb(up, up[x].a, a, n - 1);
    }
    if up[x].At? && Below(up, up[x].a, a) {
      var n: nat :| Climb(up, up[x].a, a, n);
      assert Climb(up, x, a, n + 1);
    }
  }

  lemma {:induction false} ClimbTrans(up: map<Id, Ptr>, x: Id, y: Id, z: Id, m: nat, n: nat)
    requires Climb(up, x, y, m) && Climb(up, y, z, n)
    ensures Climb(up, x, z, m + n)
    decreases m
  {
    if m > 0 {
      ClimbTrans(up, up[x].a, y, z, m - 1, n);
    }
  }

  lemma BelowTrans(up: map<Id, Ptr>, x: Id, y: Id, z: Id)
    requires Below(up, x, y) && Below(up, y, z)
    ensures Below(up, x, z)
  {
    var m: nat :| Climb(up, x, y, m);
    var n: nat :| Climb(up, y, z, n);
    ClimbTrans(up, x, y, z, m, n);
  }

  lemma {:induction false} ClimbRank(up: map<Id, Ptr>, rank: map<Id, nat>, x: Id, a: Id, n: nat)
    requires Ranked(up, rank) && x in up && Climb(up, x, a, n)
    ensures a in up && rank[a] + n <= rank[x]
    decreases n
  {
    if n > 0 {
      ClimbRank(up, rank, up[x].a, a, n - 1);
    }
  }

  /** A chunk is not below its own child: this is what makes the forest acyclic. */
  lemma ParentNotBelow(up: map<Id, Ptr>, x: Id, a: Id)
    requires Forested(up) && x in up && up[x] == At(a)
    ensures a in up && !Below(up, a, x)
  {
    var rank :| Ranked(up, rank);
    if Below(up, a, x) {
      var n: nat :| Climb(up, a, x, n);
      ClimbRank(up, rank, a, x, n);
    }
  }

  /** Dropping a chunk nobody hangs from changes no ancestry among the rest. */
  lemma {:induction false} ClimbDrop(up: map<Id, Ptr>, d: Id, x: Id, a: Id, n: nat)
    requires forall y :: y in up ==> up[y] != At(d)
    requires x != d
    ensures Climb(up, x, a, n) <==> Climb(up - {d}, x, a, n)
    decreases n
  {
    if n > 0 && x in up && up[x].At? {
      ClimbDrop(up, d, up[x].a, a, n - 1);
    }
  }

  lemma BelowDrop(up: map<Id, Ptr>, d: Id, x: Id, a: Id)
    requires forall y :: y in up ==> up[y] != At(d)
    requires x != d
    ensures Below(up, x, a) <==> Below(up - {d}, x, a)
  {
    forall n: nat ensures Climb(up, x, a, n) <==> Climb(up - {d}, x, a, n) {
      ClimbDrop(up, d, x, a, n);
    }
  }

  // ---------- the steps the code takes ----------

  /** The reference destructor: take handle `h` off the list of the chunk it points at. */
  ghost function Unref(F: Forest, h: Id): Forest
    requires h in F.target && F.target[h] in F.refs
  {
    var t := F.target[h];
    F.(refs := F.refs[t := Without(F.refs[t], h)], target := F.target - {h})
  }

  ghost function Unlisted(F: Forest, c: Id): map<Id, seq<Id>>
    requires c in F.up && (F.up[c].At? ==> F.up[c].a in F.kids)
  {
    if F.up[c].At? then F.kids[F.up[c].a := Without(F.kids[F.up[c].a], c)] else F.kids
  }

  /** The element before `c` in `s`, if any. */
  ghost function Before(s: seq<Id>, c: Id): Ptr {
    if |s| < 2 then Null else if s[1] == c && s[0] != c then At(s[0]) else if s[0] == c then Null else Before(s[1..], c)
  }

  lemma {:induction false} BeforeAt(s: seq<Id>, i: nat)
    requires i < |s| && Distinct(s)
    ensures Before(s, s[i]) == if i == 0 then Null else At(s[i - 1])
  {
    if i > 1 {
      BeforeAt(s[1..], i - 1);
    }
  }

  ghost function PrevOf(F: Forest, c: Id): Ptr
    requires c in F.up && (F.up[c].At? ==> F.up[c].a in F.kids)
  {
    if F.up[c].At? then Before(F.kids[F.up[c].a], c) else Null
  }

  /** Unlink `p` from its siblings and mark it; its own parent link stays behind. */
  ghost function Detach(F: Forest, p: Id): Forest
    requires p in F.up && (F.up[p].At? ==> F.up[p].a in F.kids)
  {
    F.(kids := Unlisted(F, p), flight := F.flight + {p},
       stale := if PrevOf(F, p).At? then F.stale[p := PrevOf(F, p).a] else F.stale)
  }

  /** Release the memory of `p`. */
  ghost function Drop(F: Forest, p: Id): Forest {
    F.(up := F.up - {p}, kids := F.kids - {p}, refs := F.refs - {p}, flight := F.flight - {p},
       stale := F.stale - {p})
  }

  /** What freeing a reference handle does. */
  ghost function RemoveHandle(F: Forest, h: Id): Forest
    requires WF(F) && h in F.target
  {
    Drop(Detach(Unref(F, h), h), h)
  }

  /** Make `c` the first child of `q`, or a root. */
  ghost function Move(F: Forest, c: Id, q: Ptr): Forest
    requires Shape(F) && c in F.up && (F.up[c].At? ==> F.up[c].a in F.kids)
    requires q.At? ==> q.a in F.kids
  {
    var k := Unlisted(F, c);
    F.(up := F.up[c := q], kids := if q.At? then k[q.a := [c] + k[q.a]] else k)
  }

  /** `_talloc_steal`: stealing a chunk into itself does nothing. */
  ghost function Stolen(F: Forest, c: Id, q: Ptr): Forest
    requires WF(F) && c in F.up && (q.At? ==> q.a in F.up)
  {
    ParentListed(F, c);
    if q == At(c) then F else Move(F, c, q)
  }

  lemma MoveFields(F: Forest, c: Id, q: Ptr)
    requires Shape(F) && c in F.up && (F.up[c].At? ==> F.up[c].a in F.kids) && (q.At? ==> q.a in F.kids)
    ensures var G := Move(F, c, q);
      G.up == F.up[c := q] && G.flight == F.flight && G.stale == F.stale && G.refs == F.refs && G.target == F.target
    ensures Move(F, c, q).up.Keys == F.up.Keys
  {}

  ghost function Add(F: Forest, ctx: Ptr, n: Id): Forest
    requires ctx.At? ==> ctx.a in F.kids
  {
    var k := if ctx.At? then F.kids[ctx.a := [n] + F.kids[ctx.a]] else F.kids;
    F.(up := F.up[n := ctx], kids := k[n := []], refs := F.refs[n := []])
  }

  /** A stolen chunk is the first child of its new parent. */
  lemma StolenFirst(F: Forest, c: Id, q: Ptr)
    requires WF(F) && c in F.up && (q.At? ==> q.a in F.up && q.a != c)
    ensures var G := Stolen(F, c, q);
      G.up == F.up[c := q] && (q.At? ==> q.a in G.kids && G.kids[q.a] != [] && G.kids[q.a][0] == c)
  {
    hide WF;
  }

  /** A new chunk is the first child of its context. */
  lemma AddedFirst(F: Forest, ctx: Ptr, n: Id)
    requires ctx.At? ==> ctx.a in F.kids && ctx.a != n
    ensures var G := Add(F, ctx, n);
      n in G.up && G.up[n] == ctx && (ctx.At? ==> ctx.a in G.kids && G.kids[ctx.a] == [n] + F.kids[ctx.a])
  {}

  ghost function Attach(F: Forest, h: Id, c: Id): Forest
    requires c in F.refs
  {
    F.(refs := F.refs[c := [h] + F.refs[c]], target := F.target[h := c])
  }

  // ---------- each step keeps the forest ----------

  lemma RefsWithout(refs: map<Id, seq<Id>>, target: map<Id, Id>, h: Id)
    requires RefsOk(refs, target) && h in target
    ensures RefsOk(refs[target[h] := Without(refs[target[h]], h)], target - {h})
  {
    var t := target[h];
    assert t in refs;
    WithoutMembers(refs[t], h);
  }

  lemma UnrefWF(F: Forest, h: Id)
    requires WF(F) && h in F.target
    ensures WF(Unref(F, h))
    ensures forall x :: x in F.up ==> F.up[x] != At(h)
  {
    RefsWithout(F.refs, F.target, h);
    var G := Unref(F, h);
    assert F.refs[h] == [];
    assert Without([], h) == [];
    assert h != F.target[h];
    assert HandlesOk(G.up, G.refs, G.target, G.flight);
    assert FlightOk(G.up, G.refs, G.flight, G.stale);
  }

  lemma UnlistedMembers(F: Forest, c: Id)
    requires Shape(F) && KidsOk(F.up, F.kids, F.flight) && c in F.up && (F.up[c].At? ==> F.up[c].a in F.kids)
    ensures Unlisted(F, c).Keys == F.kids.Keys
    ensures forall a :: a in F.kids ==> Distinct(Unlisted(F, c)[a])
    ensures forall a, x :: a in F.kids ==>
      (x in Unlisted(F, c)[a] <==> x in F.kids[a] && x != c)
  {
    if F.up[c].At? {
      WithoutMembers(F.kids[F.up[c].a], c);
    }
  }

  lemma PrevOfSibling(F: Forest, p: Id)
    requires Shape(F) && KidsOk(F.up, F.kids, F.flight) && p in F.up && p !in F.flight && PrevOf(F, p).At?
    ensures F.up[p].At? && PrevOf(F, p).a in F.up && PrevOf(F, p).a !in F.flight && PrevOf(F, p).a != p
    ensures F.up[PrevOf(F, p).a] == F.up[p]
  {
    var s := F.kids[F.up[p].a];
    var i :| 0 <= i < |s| && s[i] == p;
    BeforeAt(s, i);
    assert s[i - 1] in s;
  }

  lemma ParentLive(F: Forest, x: Id)
    requires Shape(F) && Forested(F.up) && x in F.up && F.up[x].At?
    ensures F.up[x].a in F.up && F.up[x].a in F.kids
  {
    var rank :| Ranked(F.up, rank);
  }

  lemma ParentListed(F: Forest, x: Id)
    requires Shape(F) && Forested(F.up) && x in F.up
    ensures F.up[x].At? ==> F.up[x].a in F.up && F.up[x].a in F.kids
  {
    if F.up[x].At? {
      ParentLive(F, x);
    }
  }

  lemma DetachKids(F: Forest, p: Id)
    requires Shape(F) && KidsOk(F.up, F.kids, F.flight) && Forested(F.up) && p in F.up && p !in F.flight
    ensures KidsOk(F.up, Unlisted(F, p), F.flight + {p}) && Unlisted(F, p).Keys == F.up.Keys
  {
    UnlistedMembers(F, p);
  }

  lemma DetachWF(F: Forest, p: Id)
    requires WF(F) && p in F.up && p !in F.flight && p !in F.target && F.refs[p] == []
    ensures WF(Detach(F, p))
  {
    DetachKids(F, p);
    FlightMore(F.up, F.refs, F.flight, F.stale, p, PrevOf(F, p));
  }

  lemma FlightMore(up: map<Id, Ptr>, refs: map<Id, seq<Id>>, flight: set<Id>, stale: map<Id, Id>, p: Id, s: Ptr)
    requires flight <= up.Keys && refs.Keys == up.Keys && FlightOk(up, refs, flight, stale)
    requires p in up && p !in flight && refs[p] == []
    requires s.At? ==> up[p].At?
    ensures FlightOk(up, refs, flight + {p}, if s.At? then stale[p := s.a] else stale)
  {}

  lemma DropForested(up: map<Id, Ptr>, p: Id)
    requires Forested(up) && (forall x :: x in up ==> up[x] != At(p))
    ensures Forested(up - {p})
  {
    var rank :| Ranked(up, rank);
    assert Ranked(up - {p}, rank);
  }

  lemma DropKids(up: map<Id, Ptr>, kids: map<Id, seq<Id>>, flight: set<Id>, p: Id)
    requires KidsOk(up, kids, flight) && p in flight
    requires forall x :: x in up ==> up[x] != At(p)
    ensures KidsOk(up - {p}, kids - {p}, flight - {p})
  {}

  lemma DropWF(F: Forest, p: Id)
    requires WF(F) && p in F.flight
    requires forall x :: x in F.up ==> F.up[x] != At(p)
    ensures WF(Drop(F, p))
  {
    DropForested(F.up, p);
    DropKids(F.up, F.kids, F.flight, p);
    DropRefs(F.refs, F.target, p);
    DropFlight(F.up, F.refs, F.flight, F.stale, p);
    DropHandles(F.up, F.refs, F.target, F.flight, p);
  }

  lemma DropRefs(refs: map<Id, seq<Id>>, target: map<Id, Id>, p: Id)
    requires RefsOk(refs, target) && p in refs && refs[p] == []
    ensures RefsOk(refs - {p}, target)
  {
    forall h | h in target ensures target[h] in refs - {p} {
      assert h in refs[target[h]];
    }
  }

  lemma DropHandles(up: map<Id, Ptr>, refs: map<Id, seq<Id>>, target: map<Id, Id>, flight: set<Id>, p: Id)
    requires target.Keys <= refs.Keys && HandlesOk(up, refs, target, flight) && p in flight
    ensures HandlesOk(up - {p}, refs - {p}, target, flight - {p})
  {}

  lemma DropFlight(up: map<Id, Ptr>, refs: map<Id, seq<Id>>, flight: set<Id>, stale: map<Id, Id>, p: Id)
    requires flight <= up.Keys && refs.Keys == up.Keys && FlightOk(up, refs, flight, stale) && p in flight
    ensures FlightOk(up - {p}, refs - {p}, flight - {p}, stale - {p})
  {}

  lemma RemoveHandleSteps(F: Forest, h: Id)
    requires WF(F) && h in F.target
    ensures WF(Detach(Unref(F, h), h)) && WF(RemoveHandle(F, h))
    ensures h in F.up && h !in F.flight && h !in F.stale
  {
    UnrefWF(F, h);
    var U := Unref(F, h);
    assert U.refs[h] == [] && h !in F.flight && h !in F.stale && h in F.up by {
      assert F.refs[h] == [];
      assert h != F.target[h];
    }
    DetachWF(U, h);
    DropWF(Detach(U, h), h);
  }

  /** The forest left after freeing a handle: only the handle is gone. */
  lemma RemoveHandleWF(F: Forest, h: Id)
    requires WF(F) && h in F.target
    ensures WF(RemoveHandle(F, h))
    ensures RemoveHandle(F, h).up == F.up - {h}
    ensures RemoveHandle(F, h).target == F.target - {h}
    ensures RemoveHandle(F, h).flight == F.flight
    ensures RemoveHandle(F, h).refs == F.refs[F.target[h] := Without(F.refs[F.target[h]], h)] - {h}
    ensures RemoveHandle(F, h).stale == F.stale
  {
    RemoveHandleSteps(F, h);
    ParentListed(F, h);
    RemoveHandleFields(F, h);
  }

  lemma RemoveHandleFields(F: Forest, h: Id)
    requires h in F.target && F.target[h] in F.refs && h in F.up && (F.up[h].At? ==> F.up[h].a in F.kids)
    requires h !in F.flight && h !in F.stale
    ensures var R := Drop(Detach(Unref(F, h), h), h);
      && R.up == F.up - {h}
      && R.target == F.target - {h}
      && R.flight == F.flight
      && R.refs == F.refs[F.target[h] := Without(F.refs[F.target[h]], h)] - {h}
      && R.stale == F.stale
  {
    var T := Detach(Unref(F, h), h);
    assert T.stale - {h} == F.stale;
    assert T.flight - {h} == F.flight;
  }

  /** Moving a subtree under a chunk outside it keeps the forest acyclic. */
  lemma MoveForested(up: map<Id, Ptr>, c: Id, q: Ptr)
    requires Forested(up) && c in up
    requires q.At? ==> q.a in up && !Below(up, q.a, c)
    ensures Forested(up[c := q])
  {
    var rank :| Ranked(up, rank);
    var base := if q.At? then rank[q.a] + 1 else 0;
    var rank' := map x | x in up :: if Below(up, x, c) then rank[x] + base else rank[x];
    BelowSelf(up, c);
    forall x | x in up && up[c := q][x].At?
      ensures up[c := q][x].a in up && rank'[up[c := q][x].a] < rank'[x]
    {
      if x != c {
        BelowStep(up, x, c);
      }
    }
    assert Ranked(up[c := q], rank');
  }

  lemma MoveKids(F: Forest, c: Id, q: Ptr)
    requires Shape(F) && KidsOk(F.up, F.kids, F.flight) && c in F.up && c !in F.flight
    requires F.up[c].At? ==> F.up[c].a in F.kids
    requires q.At? ==> q.a in F.kids
    ensures KidsOk(Move(F, c, q).up, Move(F, c, q).kids, F.flight)
    ensures Move(F, c, q).kids.Keys == F.kids.Keys
  {
    hide Move, Shape, Distinct;
    MoveFields(F, c, q);
    var G := Move(F, c, q);
    forall a | a in G.kids
      ensures a in F.kids && Distinct(G.kids[a])
      ensures forall x :: x in G.kids[a] <==> (x in F.kids[a] && x != c) || (x == c && q == At(a))
    {
      MovedList(F, c, q, a);
    }
    MovedKeys(F, c, q);
    MovedListsOk(F.up, F.kids, F.flight, G.kids, c, q);
  }

  lemma MovedKeys(F: Forest, c: Id, q: Ptr)
    requires Shape(F) && c in F.up && (F.up[c].At? ==> F.up[c].a in F.kids) && (q.At? ==> q.a in F.kids)
    ensures Move(F, c, q).kids.Keys == F.kids.Keys
  {}

  lemma MovedListsOk(up: map<Id, Ptr>, kids: map<Id, seq<Id>>, flight: set<Id>, k: map<Id, seq<Id>>, c: Id, q: Ptr)
    requires KidsOk(up, kids, flight) && c in up && c !in flight && k.Keys == kids.Keys && (q.At? ==> q.a in kids)
    requires forall a :: a in k ==> Distinct(k[a])
    requires forall a, x :: a in k ==> (x in k[a] <==> (x in kids[a] && x != c) || (x == c && q == At(a)))
    ensures KidsOk(up[c := q], k, flight)
  {
    hide Distinct;
  }

  lemma MovedList(F: Forest, c: Id, q: Ptr, a: Id)
    requires Shape(F) && KidsOk(F.up, F.kids, F.flight) && c in F.up && c !in F.flight
    requires F.up[c].At? ==> F.up[c].a in F.kids
    requires (q.At? ==> q.a in F.kids) && a in Move(F, c, q).kids
    ensures a in F.kids && Distinct(Move(F, c, q).kids[a])
    ensures forall x :: x in Move(F, c, q).kids[a] <==> (x in F.kids[a] && x != c) || (x == c && q == At(a))
  {
    UnlistedMembers(F, c);
    var k := Unlisted(F, c);
    assert c !in k[a];
    if q == At(a) {
      assert Move(F, c, q).kids[a] == [c] + k[a];
    }
  }

  lemma MoveWF(F: Forest, c: Id, q: Ptr)
    requires WF(F) && c in F.up && c !in F.flight
    requires q.At? ==> q.a in F.up && !Below(F.up, q.a, c) && q.a !in F.target
    ensures F.up[c].At? ==> F.up[c].a in F.kids
    ensures WF(Move(F, c, q))
  {
    if F.up[c].At? {
      ParentLive(F, c);
    }
    MoveForested(F.up, c, q);
    MoveKids(F, c, q);
    MoveFlight(F.up, F.refs, F.flight, F.stale, c, q);
    MoveHandles(F.up, F.refs, F.target, F.flight, c, q);
  }

  lemma MoveFlight(up: map<Id, Ptr>, refs: map<Id, seq<Id>>, flight: set<Id>, stale: map<Id, Id>, c: Id, q: Ptr)
    requires flight <= up.Keys && refs.Keys == up.Keys && FlightOk(up, refs, flight, stale)
    requires c in up && c !in flight
    ensures FlightOk(up[c := q], refs, flight, stale)
  {}

  lemma MoveHandles(up: map<Id, Ptr>, refs: map<Id, seq<Id>>, target: map<Id, Id>, flight: set<Id>, c: Id, q: Ptr)
    requires target.Keys <= refs.Keys && HandlesOk(up, refs, target, flight)
    requires q.At? ==> q.a !in target
    ensures HandlesOk(up[c := q], refs, target, flight)
  {}

  /** Stealing to the parent whose first child it already is changes nothing. */
  lemma MoveHeadIsNoop(F: Forest, c: Id, q: Id)
    requires WF(F) && q in F.kids && F.kids[q] != [] && F.kids[q][0] == c
    ensures c in F.up && F.up[c] == At(q)
    ensures Move(F, c, At(q)) == F
  {
    var k := F.kids[q];
    assert c in k;
    assert Without(k, c) == k[1..];
    assert [c] + k[1..] == k;
    assert F.kids[q := Without(k, c)][q := k] == F.kids;
    assert F.up[c := At(q)] == F.up;
  }

  lemma AddKids(up: map<Id, Ptr>, kids: map<Id, seq<Id>>, flight: set<Id>, ctx: Ptr, n: Id)
    requires KidsOk(up, kids, flight) && n !in up && kids.Keys == up.Keys && flight <= up.Keys
    requires ctx.At? ==> ctx.a in kids
    ensures var k := if ctx.At? then kids[ctx.a := [n] + kids[ctx.a]] else kids;
      KidsOk(up[n := ctx], k[n := []], flight)
  {
    var k := (if ctx.At? then kids[ctx.a := [n] + kids[ctx.a]] else kids)[n := []];
    forall a | a in k
      ensures Distinct(k[a])
      ensures forall x :: x in k[a] <==> a != n && (x in kids[a] || (x == n && ctx == At(a)))
    {
      if a != n {
        assert n !in kids[a];
        if ctx == At(a) {
          assert k[a] == [n] + kids[a];
        }
      }
    }
  }

  lemma AddWF(F: Forest, ctx: Ptr, n: Id)
    requires WF(F) && n !in F.up
    requires ctx.At? ==> ctx.a in F.up && ctx.a !in F.target
    ensures WF(Add(F, ctx, n))
    ensures forall x :: x in F.up ==> F.up[x] != At(n)
  {
    AddForested(F.up, ctx, n);
    AddKids(F.up, F.kids, F.flight, ctx, n);
    AddRefs(F.refs, F.target, n);
    AddHandles(F.up, F.refs, F.target, F.flight, ctx, n);
    AddFlight(F.up, F.refs, F.flight, F.stale, ctx, n);
  }

  lemma AddForested(up: map<Id, Ptr>, ctx: Ptr, n: Id)
    requires Forested(up) && n !in up && (ctx.At? ==> ctx.a in up)
    ensures Forested(up[n := ctx])
    ensures forall x :: x in up ==> up[x] != At(n)
  {
    var rank :| Ranked(up, rank);
    assert Ranked(up[n := ctx], rank[n := if ctx.At? then rank[ctx.a] + 1 else 0]);
  }

  lemma AddRefs(refs: map<Id, seq<Id>>, target: map<Id, Id>, n: Id)
    requires RefsOk(refs, target) && n !in refs
    ensures RefsOk(refs[n := []], target)
  {}

  lemma AddHandles(up: map<Id, Ptr>, refs: map<Id, seq<Id>>, target: map<Id, Id>, flight: set<Id>, ctx: Ptr, n: Id)
    requires target.Keys <= refs.Keys && HandlesOk(up, refs, target, flight) && n !in refs
    requires ctx.At? ==> ctx.a !in target
    ensures HandlesOk(up[n := ctx], refs[n := []], target, flight)
  {}

  lemma AddFlight(up: map<Id, Ptr>, refs: map<Id, seq<Id>>, flight: set<Id>, stale: map<Id, Id>, ctx: Ptr, n: Id)
    requires flight <= up.Keys && refs.Keys == up.Keys && FlightOk(up, refs, flight, stale) && n !in up
    ensures FlightOk(up[n := ctx], refs[n := []], flight, stale)
  {}

  lemma AttachRefs(refs: map<Id, seq<Id>>, target: map<Id, Id>, h: Id, c: Id)
    requires RefsOk(refs, target) && h !in target && c in refs
    ensures RefsOk(refs[c := [h] + refs[c]], target[h := c])
  {
    var r := refs[c := [h] + refs[c]];
    forall a | a in r
      ensures Distinct(r[a])
      ensures forall x :: x in r[a] <==> x in refs[a] || (a == c && x == h)
    {
      assert h !in refs[a];
    }
  }

  lemma AttachWF(F: Forest, h: Id, c: Id)
    requires WF(F) && h in F.up && c in F.up && h != c
    requires h !in F.target && c !in F.target && h !in F.flight && c !in F.flight
    requires F.refs[h] == [] && (forall x :: x in F.up ==> F.up[x] != At(h))
    ensures WF(Attach(F, h, c))
  {
    AttachRefs(F.refs, F.target, h, c);
    AttachHandles(F.up, F.refs, F.target, F.flight, h, c);
    AttachFlight(F.up, F.refs, F.flight, F.stale, h, c);
  }

  lemma AttachHandles(up: map<Id, Ptr>, refs: map<Id, seq<Id>>, target: map<Id, Id>, flight: set<Id>, h: Id, c: Id)
    requires target.Keys <= refs.Keys && HandlesOk(up, refs, target, flight)
    requires c in refs && h in refs && h != c && c !in target && h !in flight && refs[h] == []
    requires forall x :: x in up ==> up[x] != At(h)
    ensures HandlesOk(up, refs[c := [h] + refs[c]], target[h := c], flight)
  {}

  lemma AttachFlight(up: map<Id, Ptr>, refs: map<Id, seq<Id>>, flight: set<Id>, stale: map<Id, Id>, h: Id, c: Id)
    requires flight <= up.Keys && refs.Keys == up.Keys && FlightOk(up, refs, flight, stale)
    requires c in refs && c !in flight
    ensures FlightOk(up, refs[c := [h] + refs[c]], flight, stale)
  {}
}
