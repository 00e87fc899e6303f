/** When a free follows the link to a sibling that it has released.
    A chunk that is unlinked while a sibling stands before it keeps its `prev` link. If that sibling is a reference to
    something below the chunk, the free may release it, and later climb through the chunk: to find a new parent for a
    child (line 576 of talloc.c), or to see whether the newest reference of a child is from below it (line 523). */
module TallocStale {
  import opened TallocForest
  import opened TallocOwnership
  import opened TallocPaths
  import opened TallocCascade

  /** References from below `p` to something below `p` are to children of `p`, which have no other reference; nothing
      below `p` is on an ownership cycle, and NULL holds at most children of `p`. */
  ghost predicate Sheltered(F: Forest, p: Id) {
    && (forall c, h :: c in F.up && Below(F.up, c, p) && c in F.refs && h in F.refs[c] && Below(F.up, h, p) ==>
          c != p && F.up[c] == At(p) && |F.refs[c]| == 1)
    && (forall c :: c in F.up && Below(F.up, c, p) && c != p ==> !Owns(F, c, c))
    && (forall c :: c in F.up && Below(F.up, c, p) && c != p && NullHeld(F, c) ==> F.up[c] == At(p))
  }

  /** No reference to `c` is from below `p`. */
  ghost predicate Outer(F: Forest, p: Id, c: Id) {
    forall h :: c in F.refs && h in F.refs[c] ==> !Below(F.up, h, p)
  }

  /** If `s` refers to something below `p`, it is the only reference to it, and the child of `p` above that is not
      referenced from below `p`. */
  ghost predicate Sole(F: Forest, p: Id, s: Id) {
    s in F.target && F.target[s] in F.refs && Below(F.up, F.target[s], p) && F.target[s] != p ==>
      && F.refs[F.target[s]] == [s]
      && forall k :: k in F.up && F.up[k] == At(p) && Below(F.up, F.target[s], k) ==> Outer(F, p, k)
  }

  /** The newest reference of `k` has no context. */
  ghost predicate Late(F: Forest, k: Id) {
    k in F.refs && F.refs[k] != [] && F.refs[k][0] in F.up && F.up[F.refs[k][0]] == Null
  }

  /** `b` comes after `a`. */
  ghost predicate After(ks: seq<Id>, a: Id, b: Id) {
    exists i, j :: 0 <= i < j < |ks| && ks[i] == a && ks[j] == b
  }

  /** The newest reference of `k` is `m` or below `m`. */
  ghost predicate Holder(F: Forest, k: Id, m: Id) {
    k != m && k in F.refs && F.refs[k] != [] && Below(F.up, F.refs[k][0], m)
  }

  /** On its turn `k` is handed over to something below `m`. */
  ghost predicate Passes(F: Forest, k: Id, m: Id) {
    Holder(F, k, m) && F.refs[k][0] != m
  }

  /** From `b` on, one child below the next, the holders lead to a child after `a`. */
  ghost predicate Leads(F: Forest, ks: seq<Id>, a: Id, b: Id, n: nat)
    decreases n
  {
    After(ks, a, b) || (n > 0 && exists d :: d in ks && Passes(F, b, d) && Leads(F, ks, a, d, n - 1))
  }

  ghost predicate LeadsTo(F: Forest, ks: seq<Id>, a: Id, b: Id) {
    exists n: nat :: Leads(F, ks, a, b, n)
  }

  /** On the turn of `a` its reference is still there, and below a later child. */
  ghost predicate Trips(F: Forest, ks: seq<Id>, a: Id) {
    exists b :: b in ks && Holder(F, a, b) && LeadsTo(F, ks, a, b)
  }

  /** The turn of `a` climbs through the chunk whose children are `ks`: its newest reference has no context, or is from
      below a child that is still to come by then. */
  ghost predicate GoesBack(F: Forest, ks: seq<Id>, a: Id) {
    Late(F, a) || Trips(F, ks, a)
  }

  ghost predicate AnyBack(F: Forest, ks: seq<Id>) {
    exists a :: a in ks && GoesBack(F, ks, a)
  }

  /** After the turn that reaches `t` comes one that climbs through the chunk whose children are `ks`. */
  ghost predicate BackAfter(F: Forest, ks: seq<Id>, t: Id) {
    exists k, a :: After(ks, k, a) && Reached(F, t, k) && GoesBack(F, ks, a)
  }

  /** `t` is `k` or below it, and no reference keeps `k` or anything on the way down to `t`. */
  ghost predicate Reached(F: Forest, t: Id, k: Id) {
    && Below(F.up, t, k)
    && forall x :: Below(F.up, t, x) && x != t && Below(F.up, x, k) ==> x in F.refs && F.refs[x] == []
  }

  /** From here on the loop over the children of `p` climbs through `p` after `s` is released. */
  ghost predicate Follows(F: Forest, p: Id, s: Id) {
    p in F.kids &&
    if s !in F.up then AnyBack(F, F.kids[p]) else s in F.target && BackAfter(F, F.kids[p], F.target[s])
  }

  /** Freeing `p` follows a released sibling: nothing refers to `p`, the sibling before it is a reference to a chunk
      that the free reaches on the turn of a child of `p`, and the turn of a later child climbs through `p`. */
  ghost predicate Followed(F: Forest, p: Id) {
    && p in F.refs && F.refs[p] == [] && p in F.up && (F.up[p].At? ==> F.up[p].a in F.kids)
    && PrevOf(F, p).At? && Follows(F, p, PrevOf(F, p).a)
  }

  /** The heaps whose frees are decided by `Followed`. */
  ghost predicate Plain(F: Forest, p: Id) {
    && WF(F) && F.flight == {} && p in F.up && p !in F.target && Sheltered(F, p)
    && (F.up[p].At? ==> F.up[p].a in F.kids) && (PrevOf(F, p).At? ==> Sole(F, p, PrevOf(F, p).a))
  }

  /** What the source relies on when the caller frees `p`: below `p`, no chunk with several references is on an
      ownership cycle, and the free does not climb through `p` to a sibling that it released. For that `PrevSafe` is
      enough on any heap, and on plain heaps `Followed` decides. */
  ghost predicate MayFree(F: Forest, p: Id) {
    && WF(F) && p in F.up && F.flight == {}
    && Steady(F, Subtree(F, p) - {p})
    && (F.up[p].At? ==> F.up[p].a in F.kids)
    && (PrevSafe(F, Subtree(F, p), p) || (Plain(F, p) && !Followed(F, p)))
  }

  // ---------- the child loop, watched ----------

  /** Between unlinking `p` and releasing it. */
  ghost predicate Watched(F: Forest, p: Id) {
    && WF(F) && p in F.up && p in F.kids && p in F.refs && F.refs[p] == [] && p !in F.target && F.flight == {p}
    && Sheltered(F, p)
    && (p in F.stale ==> F.up[p].At? && LivePrevIf(F, p) && Sole(F, p, F.stale[p]))
  }

  ghost predicate LivePrevIf(F: Forest, p: Id) {
    p in F.stale && F.stale[p] in F.up ==> LivePrev(F, p)
  }

  ghost predicate Watch(F: Forest, p: Id) {
    p in F.stale && Follows(F, p, F.stale[p])
  }

  /** The whole subtree of `p` is freed, and no released sibling is followed. */
  ghost predicate Unfollowed(F: Forest, D: set<Id>, p: Id) {
    Plain(F, p) && !Followed(F, p) && D == Subtree(F, p)
  }

  /** The loop over the children of `p` within D can ask for the parent of `p` whenever it does. */
  ghost predicate Calm(F: Forest, D: set<Id>, p: Id) {
    OwnPrev(F, D, p) || (Watched(F, p) && !Watch(F, p))
  }

  lemma WatchedParts(F: Forest, p: Id)
    requires Watched(F, p)
    ensures WF(F) && Shape(F) && Forested(F.up) && KidsOk(F.up, F.kids, F.flight) && RefsOk(F.refs, F.target)
    ensures p in F.up && p in F.kids && p in F.refs && F.refs[p] == [] && p !in F.target && F.flight == {p}
    ensures Sheltered(F, p)
    ensures p in F.stale ==> F.up[p].At? && Sole(F, p, F.stale[p])
    ensures p in F.stale && F.stale[p] in F.up ==> LivePrev(F, p)
  {
    hide HandlesOk, FlightOk, Sheltered, Sole, LivePrev;
  }

  // ---------- where chunks are below p ----------

  /** Children of `p` have nothing below them in common. */
  lemma SiblingsApart(F: Forest, p: Id, k: Id, c: Id, x: Id)
    requires Forested(F.up) && k in F.up && c in F.up && F.up[k] == At(p) && F.up[c] == At(p) && k != c
    requires Below(F.up, x, k)
    ensures !Below(F.up, x, c)
  {
    if Below(F.up, x, c) {
      var n := ClimbOf(F.up, x, k);
      Comparable(F.up, x, k, c, n);
      ParentNotBelow(F.up, k, p);
      ParentNotBelow(F.up, c, p);
      BelowStep(F.up, k, c);
      BelowStep(F.up, c, k);
    }
  }

  /** What is below `p` is below one of its children. */
  lemma {:induction false} KidAbove(F: Forest, p: Id, x: Id, n: nat) returns (k: Id)
    requires Shape(F) && KidsOk(F.up, F.kids, F.flight) && F.flight == {p} && p in F.kids
    requires x in F.up && x != p && Climb(F.up, x, p, n) && Forested(F.up)
    ensures k in F.kids[p] && k in F.up && F.up[k] == At(p) && Below(F.up, x, k)
    decreases n
  {
    ParentLive(F, x);
    if F.up[x].a == p {
      k := x;
      BelowSelf(F.up, x);
    } else {
      k := KidAbove(F, p, F.up[x].a, n - 1);
      StepUp(F.up, x, k);
    }
  }

  lemma KidIs(F: Forest, p: Id, i: nat)
    requires KidsOk(F.up, F.kids, F.flight) && Shape(F) && p in F.kids && i < |F.kids[p]|
    ensures var k := F.kids[p][i];
      k in F.kids[p] && k in F.up && k in F.refs && k !in F.flight && F.up[k] == At(p) && Below(F.up, k, p)
    ensures forall j :: 0 <= j < |F.kids[p]| && j != i ==> F.kids[p][j] != F.kids[p][i]
  {
    assert F.kids[p][i] in F.kids[p];
    BelowSelf(F.up, p);
    StepUp(F.up, F.kids[p][i], p);
  }

  // ---------- one turn of the loop ----------

  /** The turn of the first child `c` of `p`, which has no reference from below `p`, led from F to G. */
  ghost predicate Turned(F: Forest, G: Forest, p: Id, c: Id) {
    && Watched(F, p) && WF(G) && F.kids[p] != [] && F.kids[p][0] == c && p in G.kids && Outer(F, p, c)
    && Cascade(F, G, Subtree(F, c)) && Trails(F, G, Subtree(F, c))
    && G.kids[p] == F.kids[p][1..] && G.flight == F.flight && G.stale == F.stale
  }

  lemma TurnedParts(F: Forest, G: Forest, p: Id, c: Id)
    requires Turned(F, G, p, c)
    ensures Watched(F, p) && WF(G) && F.kids[p] != [] && F.kids[p][0] == c && p in G.kids && Outer(F, p, c)
    ensures Cascade(F, G, Subtree(F, c)) && Confined(F, G, Subtree(F, c)) && Loosened(F, G, Subtree(F, c))
    ensures Tightens(F, G) && Trails(F, G, Subtree(F, c))
    ensures G.kids[p] == F.kids[p][1..] && G.flight == F.flight && G.stale == F.stale
  {
    hide Watched, WF, Confined, Loosened, Tightens, Trails, Subtree, Outer;
  }

  /** A chunk below another child of `p` is as it was, with its references unless it is that child and its one
      reference was from below `c`. */
  lemma Untouched(F: Forest, G: Forest, p: Id, c: Id, k: Id, x: Id)
    requires Turned(F, G, p, c) && k in F.up && c in F.up && F.up[k] == At(p) && F.up[c] == At(p) && k != c
    requires x in F.up && Below(F.up, x, k)
    ensures x in G.up && G.up[x] == F.up[x] && x in F.refs && x in G.refs
    ensures x != k || !Holder(F, k, c) ==> G.refs[x] == F.refs[x]
    ensures forall h :: h in G.refs[x] ==> h in F.refs[x] && h in G.target
  {
    hide *;
    TurnedParts(F, G, p, c);
    WatchedParts(F, p);
    WFParts(G);
    BelowSelf(F.up, p);
    StepUp(F.up, k, p);
    BelowTrans(F.up, x, k, p);
    SiblingsApart(F, p, k, c, x);
    NoHandleFrom(F, p, c, x);
    NotInSubtree(F, c, x);
    Kept(F, G, Subtree(F, c), x);
    RefsKeyed(F);
    RefsKeyed(G);
    ConfinedHandles(F, G, Subtree(F, c));
    FewerHandles(F, G, x);
    if x != k || !Holder(F, k, c) {
      RefsKept(F, G, p, c, k, x);
      SameRefs(F, G, Subtree(F, c), x);
    }
  }

  lemma FewerHandles(F: Forest, G: Forest, x: Id)
    requires RefsOk(F.refs, F.target) && RefsOk(G.refs, G.target) && x in F.refs && x in G.refs
    requires forall h :: h in G.target ==> h in F.target && G.target[h] == F.target[h]
    ensures forall h :: h in G.refs[x] ==> h in F.refs[x] && h in G.target
  {
    forall h | h in G.refs[x] ensures h in F.refs[x] && h in G.target {
      assert G.target[h] == x;
      assert F.target[h] == x;
    }
  }

  lemma NotInSubtree(F: Forest, c: Id, x: Id)
    requires !Below(F.up, x, c)
    ensures x !in Subtree(F, c)
  {}

  lemma RefsKept(F: Forest, G: Forest, p: Id, c: Id, k: Id, x: Id)
    requires Sheltered(F, p) && RefsOk(F.refs, F.target) && Shape(F) && Forested(F.up) && c in F.up && F.up[c] == At(p)
    requires k in F.up && F.up[k] == At(p) && k != c && x in F.up && x in F.refs && Below(F.up, x, k)
    requires (x != k || !Holder(F, k, c)) && Confined(F, G, Subtree(F, c))
    ensures forall h :: h in F.refs[x] ==> h in G.target && G.target[h] == x
    ensures forall h :: h in G.target ==> h in F.target && G.target[h] == F.target[h]
  {
    hide Sheltered, RefsOk, Shape, Below, Subtree, Forested, Holder;
    forall h | h in F.refs[x] ensures h in G.target && G.target[h] == x {
      NotBelowKid(F, p, c, k, x, h);
      Kept(F, G, Subtree(F, c), h);
    }
    ConfinedHandles(F, G, Subtree(F, c));
  }

  lemma ConfinedHandles(F: Forest, G: Forest, D: set<Id>)
    requires Confined(F, G, D) && Shape(F)
    ensures forall h :: h in G.target ==> h in F.target && G.target[h] == F.target[h]
  {}

  /** A chunk that lost no handle has the same list of them. */
  lemma SameRefs(F: Forest, G: Forest, D: set<Id>, x: Id)
    requires RefsOk(F.refs, F.target) && RefsOk(G.refs, G.target) && Loosened(F, G, D) && x in F.refs && x in G.refs
    requires forall h :: h in F.refs[x] ==> h in G.target && G.target[h] == x
    requires forall h :: h in G.target ==> h in F.target && G.target[h] == F.target[h]
    ensures G.refs[x] == F.refs[x]
  {
    assert forall h :: h in F.refs[x] ==> h in G.refs[x];
    forall h | h in G.refs[x] ensures h in F.refs[x] {
      assert h in G.target && G.target[h] == x;
      assert F.target[h] == x;
    }
    SameLength(F.refs[x], G.refs[x]);
  }

  /** Nothing below `p` refers to anything below a child with no reference from below `p`. */
  lemma NoHandleFrom(F: Forest, p: Id, c: Id, h: Id)
    requires Sheltered(F, p) && RefsOk(F.refs, F.target) && Shape(F) && Forested(F.up) && c in F.up && F.up[c] == At(p)
    requires Below(F.up, h, p) && Outer(F, p, c)
    ensures h in F.target ==> F.target[h] !in Subtree(F, c)
  {
    if h in F.target && F.target[h] in Subtree(F, c) {
      var t := F.target[h];
      assert h in F.refs[t];
      OuterRefs(F, p, c, t, h);
    }
  }

  /** A reference to something below such a child is not from below `p`. */
  lemma OuterRefs(F: Forest, p: Id, c: Id, x: Id, h: Id)
    requires Sheltered(F, p) && Forested(F.up) && c in F.up && F.up[c] == At(p) && Outer(F, p, c)
    requires x in F.up && Below(F.up, x, c) && x in F.refs && h in F.refs[x]
    ensures !Below(F.up, h, p)
  {
    BelowKid(F, p, c, x);
  }

  lemma BelowKid(F: Forest, p: Id, c: Id, x: Id)
    requires c in F.up && F.up[c] == At(p) && Forested(F.up) && x in F.up && Below(F.up, x, c)
    ensures Below(F.up, x, p) && x != p
    ensures x != c ==> F.up[x] != At(p)
  {
    BelowSelf(F.up, p);
    StepUp(F.up, c, p);
    BelowTrans(F.up, x, c, p);
    ParentNotBelow(F.up, c, p);
    if x != c {
      BelowStep(F.up, x, c);
    }
  }

  lemma NotBelowKid(F: Forest, p: Id, c: Id, k: Id, x: Id, h: Id)
    requires Sheltered(F, p) && RefsOk(F.refs, F.target) && Shape(F) && Forested(F.up) && c in F.up && F.up[c] == At(p)
    requires k in F.up && F.up[k] == At(p) && k != c && x in F.up && x in F.refs && Below(F.up, x, k)
    requires h in F.refs[x] && (x != k || !Holder(F, k, c))
    ensures h in F.target && F.target[h] == x && h in F.up && h !in Subtree(F, c) && x !in Subtree(F, c)
  {
    SiblingsApart(F, p, k, c, x);
    BelowKid(F, p, k, x);
    if Below(F.up, h, c) {
      BelowSelf(F.up, p);
      StepUp(F.up, c, p);
      BelowTrans(F.up, h, c, p);
    }
  }

  lemma Kept(F: Forest, G: Forest, D: set<Id>, x: Id)
    requires Confined(F, G, D) && x in F.up && x !in D && (x in F.target ==> F.target[x] !in D)
    ensures x in G.up && G.up[x] == F.up[x] && (x in G.target <==> x in F.target)
    ensures x in F.target ==> G.target[x] == F.target[x]
  {}

  lemma SameLength(s: seq<Id>, t: seq<Id>)
    requires Distinct(s) && Distinct(t) && forall x :: x in s <==> x in t
    ensures |s| == |t|
  {
    DistinctSize(s);
    DistinctSize(t);
    assert (set x | x in s) == (set x | x in t);
  }

  lemma {:induction false} DistinctSize(s: seq<Id>)
    requires Distinct(s)
    ensures |set x | x in s| == |s|
  {
    if s != [] {
      DistinctSize(s[1..]);
      assert (set x | x in s) == {s[0]} + (set x | x in s[1..]);
      assert s[0] !in s[1..];
    }
  }

  /** Where chunks are below another child is as it was. */
  lemma {:induction false} SamePath(F: Forest, G: Forest, p: Id, c: Id, k: Id, x: Id, y: Id, n: nat)
    requires Turned(F, G, p, c) && k in F.up && c in F.up && F.up[k] == At(p) && F.up[c] == At(p) && k != c
    requires x in F.up && Climb(F.up, x, k, n) && Forested(F.up) && Forested(G.up) && Shape(F)
    ensures Below(G.up, x, k)
    ensures Below(F.up, x, y) && Below(F.up, y, k) <==> Below(G.up, x, y) && Below(G.up, y, k)
    decreases n
  {
    hide Turned, Below, Forested, Shape;
    ClimbBelow(F.up, x, k, n);
    Untouched(F, G, p, c, k, x);
    BelowSelf(G.up, k);
    BelowSelf(F.up, k);
    if n == 0 {
      OnlySelf(F.up, k, y);
      OnlySelf(G.up, k, y);
    } else {
      var z := F.up[x].a;
      ParentLive(F, x);
      SamePath(F, G, p, c, k, z, y, n - 1);
      StepUp(G.up, x, k);
      PathStep(F.up, x, y, k);
      PathStep(G.up, x, y, k);
    }
  }

  lemma OnlySelf(up: map<Id, Ptr>, k: Id, y: Id)
    requires Forested(up) && k in up
    ensures Below(up, k, y) && Below(up, y, k) <==> y == k
  {
    BelowSelf(up, k);
    if Below(up, k, y) && Below(up, y, k) && y != k {
      BelowStep(up, k, y);
      BelowTrans(up, up[k].a, y, k);
      ParentNotBelow(up, k, up[k].a);
    }
  }

  lemma PathStep(up: map<Id, Ptr>, x: Id, y: Id, k: Id)
    requires x in up && up[x].At? && Below(up, up[x].a, k)
    ensures Below(up, x, y) && Below(up, y, k) <==> y == x || (Below(up, up[x].a, y) && Below(up, y, k))
  {
    StepUp(up, x, k);
    BelowSelf(up, x);
    if x != y {
      BelowStep(up, x, y);
    }
  }

  /** What is below a later child after the turn was below it before. */
  lemma PathBefore(F: Forest, G: Forest, p: Id, c: Id, k: Id, x: Id)
    requires Turned(F, G, p, c) && c in F.up && F.up[c] == At(p)
    requires k in F.up && F.up[k] == At(p) && k != c && x in G.up && Below(G.up, x, k)
    ensures x in F.up && Below(F.up, x, k)
  {
    hide *;
    TurnedParts(F, G, p, c);
    WatchedParts(F, p);
    ConfinedLive(F, G, Subtree(F, c));
    if k in F.target {
      BelowSelf(F.up, k);
      if x != k {
        NothingBelowHandle(F, G, Subtree(F, c), k, x);
      }
    } else {
      TracedKid(F, p, c, k);
      OnTrail(F, G, Subtree(F, c), k, x);
    }
  }

  lemma OnTrail(F: Forest, G: Forest, D: set<Id>, f: Id, x: Id)
    requires Trails(F, G, D) && Traced(F, D, f) && x in G.up && Below(G.up, x, f)
    ensures Below(F.up, x, f)
  {}

  lemma NothingBelowHandle(F: Forest, G: Forest, D: set<Id>, k: Id, x: Id)
    requires WF(G) && Confined(F, G, D) && k in F.target && x in G.up && x != k
    ensures !Below(G.up, x, k)
  {
    if Below(G.up, x, k) {
      var n := ClimbOf(G.up, x, k);
      WFParts(G);
      hide WF;
      ClimbLands(G, x, k, n);
      HandleClimb(G, x, k, n);
    }
  }

  lemma {:induction false} ClimbLands(G: Forest, x: Id, k: Id, n: nat)
    requires Shape(G) && Forested(G.up) && x in G.up && Climb(G.up, x, k, n)
    ensures k in G.up
    decreases n
  {
    if n > 0 {
      ParentLive(G, x);
      ClimbLands(G, G.up[x].a, k, n - 1);
    }
  }

  lemma {:induction false} HandleClimb(G: Forest, x: Id, k: Id, n: nat)
    requires WF(G) && k in G.target && x in G.up && n > 0
    ensures !Climb(G.up, x, k, n)
    decreases n
  {
    if Climb(G.up, x, k, n) {
      UnrefWF(G, k);
      WFParts(G);
      hide WF;
      ParentLive(G, x);
      if n > 1 {
        HandleClimb(G, G.up[x].a, k, n - 1);
      }
    }
  }

  lemma TracedKid(F: Forest, p: Id, c: Id, k: Id)
    requires WF(F) && Sheltered(F, p) && k in F.up && c in F.up && F.up[k] == At(p) && F.up[c] == At(p) && k != c
    requires k !in F.target && Outer(F, p, c)
    ensures Traced(F, Subtree(F, c), k)
  {
    WFParts(F);
    BelowSelf(F.up, k);
    BelowSelf(F.up, p);
    SiblingsApart(F, p, k, c, k);
    StepUp(F.up, k, p);
    hide WF, Sheltered, Below, KidsOk, RefsOk, Forested, Outer;
    forall x, h | x in Subtree(F, c) && x in F.refs && h in F.refs[x] ensures !Below(F.up, h, k) {
      OuterRefs(F, p, c, x, h);
      if Below(F.up, h, k) {
        BelowTrans(F.up, h, k, p);
      }
    }
  }

  /** After the turn, what is below `p` is below one of its later children, and where it was. */
  lemma StillBelow(F: Forest, G: Forest, p: Id, c: Id, x: Id) returns (k: Id)
    requires Turned(F, G, p, c) && c in F.up && F.up[c] == At(p) && x in G.up && x != p && Below(G.up, x, p)
    ensures k in G.kids[p] && k in F.up && F.up[k] == At(p) && k != c && Below(G.up, x, k)
    ensures x in F.up && Below(F.up, x, k) && Below(F.up, x, p)
    ensures G.up[x] == F.up[x] && x in F.refs && x in G.refs && forall h :: h in G.refs[x] ==> h in F.refs[x]
    ensures x != k || !Holder(F, k, c) ==> G.refs[x] == F.refs[x]
  {
    hide *;
    TurnedParts(F, G, p, c);
    WatchedParts(F, p);
    WFParts(G);
    var n := ClimbOf(G.up, x, p);
    k := KidAbove(G, p, x, n);
    LaterKid(F, p, k, c);
    PathBefore(F, G, p, c, k, x);
    Untouched(F, G, p, c, k, x);
    BelowSelf(F.up, p);
    StepUp(F.up, k, p);
    BelowTrans(F.up, x, k, p);
  }

  lemma LaterKid(F: Forest, p: Id, k: Id, c: Id)
    requires KidsOk(F.up, F.kids, F.flight) && p in F.kids && F.kids[p] != [] && F.kids[p][0] == c
    requires k in F.kids[p][1..]
    ensures k != c && k in F.up && F.up[k] == At(p)
  {
    assert k in F.kids[p];
    var i :| 0 <= i < |F.kids[p][1..]| && F.kids[p][1..][i] == k;
    assert F.kids[p][i + 1] == k;
  }

  lemma ShelteredStays(F: Forest, G: Forest, p: Id, c: Id)
    requires Turned(F, G, p, c) && c in F.up && F.up[c] == At(p) && p in G.refs && G.refs[p] == []
    ensures Sheltered(G, p)
  {
    hide Turned, Below, Owns, NullHeld;
    forall x | x in G.up && x != p && Below(G.up, x, p)
      ensures !Owns(G, x, x) && (NullHeld(G, x) ==> G.up[x] == At(p))
    {
      StillOwned(F, G, p, c, x);
    }
    forall x, h | x in G.up && Below(G.up, x, p) && x in G.refs && h in G.refs[x] && Below(G.up, h, p)
      ensures x != p && G.up[x] == At(p) && |G.refs[x]| == 1
    {
      StillInner(F, G, p, c, x, h);
    }
  }

  lemma StillOwned(F: Forest, G: Forest, p: Id, c: Id, x: Id)
    requires Turned(F, G, p, c) && c in F.up && F.up[c] == At(p) && x in G.up && x != p && Below(G.up, x, p)
    ensures !Owns(G, x, x) && (NullHeld(G, x) ==> G.up[x] == At(p))
  {
    TurnedParts(F, G, p, c);
    WatchedParts(F, p);
    TightensOwns(F, G);
    hide Turned, Watched, WF, Below, Owns, NullHeld, Subtree, Cascade, Confined, Tightens, Trails, KidsOk, RefsOk;
    hide Forested;
    var k := StillBelow(F, G, p, c, x);
  }

  lemma StillInner(F: Forest, G: Forest, p: Id, c: Id, x: Id, h: Id)
    requires Turned(F, G, p, c) && c in F.up && F.up[c] == At(p) && p in G.refs && G.refs[p] == []
    requires x in G.up && Below(G.up, x, p) && x in G.refs && h in G.refs[x] && Below(G.up, h, p)
    ensures x != p && G.up[x] == At(p) && |G.refs[x]| == 1
  {
    hide *;
    TurnedParts(F, G, p, c);
    WatchedParts(F, p);
    WFParts(G);
    var k := StillBelow(F, G, p, c, x);
    HandleUp(G, x, h);
    ConfinedHandles(F, G, Subtree(F, c));
    var k' := StillBelow(F, G, p, c, h);
    InnerKid(F, p, x, h);
    FewerRefs'(F, G, Subtree(F, c), x);
  }

  lemma InnerKid(F: Forest, p: Id, x: Id, h: Id)
    requires Sheltered(F, p) && x in F.up && Below(F.up, x, p) && x in F.refs && h in F.refs[x] && Below(F.up, h, p)
    ensures x != p && F.up[x] == At(p) && F.refs[x] == [h]
  {}

  lemma FewerRefs'(F: Forest, G: Forest, D: set<Id>, x: Id)
    requires Loosened(F, G, D) && x in G.refs && x in F.refs
    ensures |G.refs[x]| <= |F.refs[x]|
  {}

  lemma HandleUp(G: Forest, x: Id, h: Id)
    requires RefsOk(G.refs, G.target) && Shape(G) && x in G.refs && h in G.refs[x]
    ensures h in G.up && h in G.target
  {}

  lemma FirstKid(F: Forest, p: Id)
    requires Watched(F, p) && F.kids[p] != []
    ensures var c := F.kids[p][0]; c in F.up && c in F.refs && c !in F.flight && F.up[c] == At(p) && Below(F.up, c, p)
  {
    WatchedParts(F, p);
    KidIs(F, p, 0);
  }

  /** The sibling that `p` points back at is not below a child of `p`. */
  lemma SiblingAside(F: Forest, p: Id, c: Id)
    requires Watched(F, p) && c in F.up && F.up[c] == At(p) && p in F.stale && F.stale[p] in F.up
    ensures F.stale[p] !in Subtree(F, c)
  {
    WatchedParts(F, p);
    hide Watched, WF, Sheltered, KidsOk, RefsOk;
    var s := F.stale[p];
    ParentNotBelow(F.up, p, F.up[p].a);
    ParentNotBelow(F.up, c, p);
    BelowSelf(F.up, p);
    BelowSelf(F.up, c);
    if Below(F.up, s, c) {
      assert F.up[s] == F.up[p];
      BelowStep(F.up, s, c);
      BelowStep(F.up, c, p);
      BelowTrans(F.up, F.up[p].a, c, p);
    }
  }

  lemma ParentAside(F: Forest, p: Id, c: Id)
    requires Forested(F.up) && c in F.up && F.up[c] == At(p)
    ensures p !in Subtree(F, c)
  {
    ParentNotBelow(F.up, c, p);
  }

  lemma FlightUnreferred(F: Forest, p: Id)
    requires WF(F) && p in F.flight
    ensures p in F.up && p in F.refs && F.refs[p] == [] && p !in F.target
  {
    hide KidsOk, RefsOk, Forested;
  }

  /** The loop stays watched. */
  lemma WatchedStays(F: Forest, G: Forest, p: Id, c: Id)
    requires Turned(F, G, p, c) && c in F.up && F.up[c] == At(p)
    ensures Watched(G, p)
  {
    hide *;
    TurnedParts(F, G, p, c);
    WatchedParts(F, p);
    FlightUnreferred(G, p);
    ShelteredStays(F, G, p, c);
    ParentAside(F, p, c);
    Kept(F, G, Subtree(F, c), p);
    if p in G.stale {
      SoleStays(F, G, p, c);
      if F.stale[p] in G.up {
        SiblingStays(F, G, p, c);
      }
    }
    WatchedFrom(G, p);
  }

  lemma WatchedFrom(F: Forest, p: Id)
    requires WF(F) && p in F.up && p in F.kids && p in F.refs && F.refs[p] == [] && p !in F.target && F.flight == {p}
    requires Sheltered(F, p) && (p in F.stale ==> F.up[p].At? && Sole(F, p, F.stale[p]))
    requires p in F.stale && F.stale[p] in F.up ==> LivePrev(F, p)
    ensures Watched(F, p)
  {
    hide WF, Sheltered, Sole, LivePrev;
  }

  lemma SiblingStays(F: Forest, G: Forest, p: Id, c: Id)
    requires Turned(F, G, p, c) && c in F.up && F.up[c] == At(p) && p in F.stale && F.stale[p] in G.up
    ensures F.stale[p] in F.up && F.up[F.stale[p]] == F.up[p] && LivePrev(G, p)
  {
    TurnedParts(F, G, p, c);
    WatchedParts(F, p);
    ParentAside(F, p, c);
    hide Turned, Watched, WF, Sheltered, Cascade, Trails, Tightens, Loosened, Sole, KidsOk, RefsOk, Subtree;
    Kept(F, G, Subtree(F, c), p);
    ConfinedLive(F, G, Subtree(F, c));
    SiblingAside(F, p, c);
  }

  lemma SoleStays(F: Forest, G: Forest, p: Id, c: Id)
    requires Turned(F, G, p, c) && c in F.up && F.up[c] == At(p) && p in F.stale
    ensures Sole(G, p, F.stale[p])
  {
    hide *;
    TurnedParts(F, G, p, c);
    WatchedParts(F, p);
    WFParts(G);
    ConfinedHandles(F, G, Subtree(F, c));
    var s := F.stale[p];
    if s in G.target && G.target[s] in G.refs && Below(G.up, G.target[s], p) && G.target[s] != p {
      var t := G.target[s];
      TargetLive(F, s);
      TargetLive(G, s);
      var k := StillBelow(F, G, p, c, t);
      SoleParts(F, p, s, k);
      if t == k && Holder(F, k, c) {
        HolderIs(F, k, c);
        BelowSelf(F.up, p);
        StepUp(F.up, c, p);
        BelowTrans(F.up, s, c, p);
        OuterIs(F, p, k, s);
      }
      forall k | k in G.up && G.up[k] == At(p) && Below(G.up, t, k) ensures Outer(G, p, k) {
        OuterAbove(F, G, p, c, s, k);
      }
    }
    SoleFrom(G, p, s);
  }

  lemma SoleParts(F: Forest, p: Id, s: Id, k: Id)
    requires Sole(F, p, s) && s in F.target && F.target[s] in F.refs && Below(F.up, F.target[s], p) && F.target[s] != p
    ensures F.refs[F.target[s]] == [s]
    ensures k in F.up && F.up[k] == At(p) && Below(F.up, F.target[s], k) ==> Outer(F, p, k)
  {
    hide Below, Outer;
  }

  lemma SoleFrom(F: Forest, p: Id, s: Id)
    requires s in F.target && F.target[s] in F.refs && Below(F.up, F.target[s], p) && F.target[s] != p ==>
      && F.refs[F.target[s]] == [s]
      && forall k :: k in F.up && F.up[k] == At(p) && Below(F.up, F.target[s], k) ==> Outer(F, p, k)
    ensures Sole(F, p, s)
  {
    hide Below, Outer;
  }

  lemma HolderIs(F: Forest, k: Id, m: Id)
    ensures Holder(F, k, m) <==> k != m && k in F.refs && F.refs[k] != [] && Below(F.up, F.refs[k][0], m)
    ensures Passes(F, k, m) <==> Holder(F, k, m) && F.refs[k][0] != m
  {}

  lemma OuterIs(F: Forest, p: Id, c: Id, h: Id)
    requires Outer(F, p, c) && c in F.refs && h in F.refs[c]
    ensures !Below(F.up, h, p)
  {}

  lemma OuterFrom(F: Forest, p: Id, c: Id)
    requires forall h :: c in F.refs && h in F.refs[c] ==> !Below(F.up, h, p)
    ensures Outer(F, p, c)
  {}

  /** The children of `p` after the turn are its later children. */
  lemma KidStays(F: Forest, G: Forest, p: Id, c: Id, k: Id)
    requires Turned(F, G, p, c) && k in G.up && G.up[k] == At(p)
    ensures k != c && k != p && k in F.up && F.up[k] == At(p) && k in G.kids[p]
  {
    hide *;
    TurnedParts(F, G, p, c);
    WatchedParts(F, p);
    WFParts(G);
    ParentNotBelow(G.up, k, p);
    BelowSelf(G.up, p);
    KidListed(G, p, k);
    LaterKid(F, p, k, c);
  }

  lemma KidListed(G: Forest, p: Id, k: Id)
    requires KidsOk(G.up, G.kids, G.flight) && p in G.kids && k in G.up && G.up[k] == At(p) && k !in G.flight
    ensures k in G.kids[p]
  {}

  lemma OuterAbove(F: Forest, G: Forest, p: Id, c: Id, s: Id, k: Id)
    requires Turned(F, G, p, c) && c in F.up && F.up[c] == At(p) && Sole(F, p, s) && s in F.target && s in G.target
    requires G.target[s] == F.target[s] && F.target[s] in F.refs && F.target[s] in G.up && F.target[s] != p
    requires Below(F.up, F.target[s], p) && k in G.up && G.up[k] == At(p) && Below(G.up, F.target[s], k)
    ensures Outer(G, p, k)
  {
    hide *;
    TurnedParts(F, G, p, c);
    WatchedParts(F, p);
    WFParts(G);
    KidStays(F, G, p, c, k);
    BelowSelf(F.up, k);
    Untouched(F, G, p, c, k, k);
    SoleParts(F, p, s, k);
    PathBefore(F, G, p, c, k, F.target[s]);
    forall h | k in G.refs && h in G.refs[k] ensures !Below(G.up, h, p) {
      OuterIs(F, p, k, h);
      HandleUp(G, k, h);
      if Below(G.up, h, p) {
        ConfinedHandles(F, G, Subtree(F, c));
        var m := StillBelow(F, G, p, c, h);
      }
    }
    OuterFrom(G, p, k);
  }

  // ---------- what a turn does to the verdict ----------

  lemma LateSame(F: Forest, G: Forest, p: Id, c: Id, k: Id)
    requires Turned(F, G, p, c) && c in F.up && F.up[c] == At(p) && k in F.up && F.up[k] == At(p) && k != c
    ensures Late(F, k) <==> Late(G, k)
  {
    hide *;
    TurnedParts(F, G, p, c);
    WatchedParts(F, p);
    WFParts(G);
    BelowSelf(F.up, k);
    Untouched(F, G, p, c, k, k);
    ConfinedHandles(F, G, Subtree(F, c));
    LateIs(F, k);
    LateIs(G, k);
    if F.refs[k] != [] {
      HandleOf(F, k);
      if Holder(F, k, c) {
        InnerHandle(F, p, c, k);
      }
    }
    if G.refs[k] != [] {
      HandleOf(G, k);
      SameContext(F, G, Subtree(F, c), G.refs[k][0]);
    }
  }

  /** The one reference of a child that is held from below another child has a context. */
  lemma InnerHandle(F: Forest, p: Id, c: Id, k: Id)
    requires Sheltered(F, p) && Shape(F) && RefsOk(F.refs, F.target) && Forested(F.up) && c in F.up && F.up[c] == At(p)
    requires k in F.up && F.up[k] == At(p) && Holder(F, k, c)
    ensures k in F.refs && |F.refs[k]| == 1 && F.refs[k][0] in F.up && F.up[F.refs[k][0]].At?
    ensures Below(F.up, F.refs[k][0], p)
  {
    HolderIs(F, k, c);
    HandleOf(F, k);
    var h := F.refs[k][0];
    BelowKid(F, p, c, h);
    BelowKidSelf(F, p, k);
    InnerKid(F, p, k, h);
    hide Below, Sheltered, Holder;
    BelowStep(F.up, h, p);
  }

  lemma BelowKidSelf(F: Forest, p: Id, c: Id)
    requires c in F.up && F.up[c] == At(p)
    ensures Below(F.up, c, p)
  {
    BelowSelf(F.up, p);
    StepUp(F.up, c, p);
  }

  lemma LateIs(F: Forest, k: Id)
    ensures Late(F, k) <==> k in F.refs && F.refs[k] != [] && F.refs[k][0] in F.up && F.up[F.refs[k][0]] == Null
  {}

  lemma HandleOf(F: Forest, k: Id)
    requires RefsOk(F.refs, F.target) && Shape(F) && k in F.refs && F.refs[k] != []
    ensures var h := F.refs[k][0]; h in F.refs[k] && h in F.target && h in F.up && F.target[h] == k
  {
    assert F.refs[k][0] in F.refs[k];
  }

  lemma SameContext(F: Forest, G: Forest, D: set<Id>, h: Id)
    requires Confined(F, G, D) && h in G.target && h in G.up
    ensures h in F.up && G.up[h] == F.up[h]
  {}

  /** Who holds whom among the later children is as it was. */
  lemma PairSame(F: Forest, G: Forest, p: Id, c: Id, k: Id, m: Id)
    requires Turned(F, G, p, c) && c in F.up && F.up[c] == At(p)
    requires k in F.up && F.up[k] == At(p) && k != c && m in F.up && F.up[m] == At(p) && m != c
    ensures Holder(F, k, m) <==> Holder(G, k, m)
    ensures Passes(F, k, m) <==> Passes(G, k, m)
  {
    hide *;
    TurnedParts(F, G, p, c);
    WatchedParts(F, p);
    WFParts(G);
    BelowSelf(F.up, k);
    Untouched(F, G, p, c, k, k);
    HolderIs(F, k, m);
    HolderIs(G, k, m);
    HolderIs(F, k, c);
    if Holder(F, k, m) {
      HandleOf(F, k);
      var h := F.refs[k][0];
      SiblingsApart(F, p, m, c, h);
      var n := ClimbOf(F.up, h, m);
      SamePath(F, G, p, c, m, h, h, n);
    }
    if Holder(G, k, m) {
      HandleOf(G, k);
      var h := G.refs[k][0];
      PathBefore(F, G, p, c, m, h);
      BelowKidSelf(F, p, m);
      BelowTrans(F.up, h, m, p);
      BelowKidSelf(F, p, k);
      InnerKid(F, p, k, h);
    }
  }

  lemma LaterKids(F: Forest, p: Id, c: Id)
    requires Watched(F, p) && F.kids[p] != [] && F.kids[p][0] == c
    ensures p in F.kids && c in F.kids[p] && Distinct(F.kids[p]) && Without(F.kids[p], c) == F.kids[p][1..]
    ensures forall k :: k in F.kids[p] ==> k in F.up && F.up[k] == At(p) && k in F.refs
    ensures forall k :: k in F.kids[p][1..] <==> k in F.kids[p] && k != c
  {
    hide *;
    WatchedParts(F, p);
    RefsKeyed(F);
    KidsUp(F, p);
    ListDistinct(F, p);
    WithoutMembers(F.kids[p], c);
    WithoutFirst(F.kids[p]);
  }

  lemma ListDistinct(F: Forest, p: Id)
    requires KidsOk(F.up, F.kids, F.flight) && p in F.kids
    ensures Distinct(F.kids[p])
  {}

  lemma WithoutFirst(s: seq<Id>)
    requires s != []
    ensures Without(s, s[0]) == s[1..] && s[0] in s
  {}

  lemma ReachedSame(F: Forest, G: Forest, p: Id, c: Id, k: Id, t: Id)
    requires Turned(F, G, p, c) && c in F.up && F.up[c] == At(p) && k in F.up && F.up[k] == At(p) && k != c
    requires t in F.up && Below(F.up, t, k) && Outer(F, p, k)
    ensures Reached(F, t, k) <==> Reached(G, t, k)
  {
    hide Turned, Below, Outer;
    forall x
      ensures Below(F.up, t, x) && Below(F.up, x, k) <==> Below(G.up, t, x) && Below(G.up, x, k)
      ensures Below(F.up, t, x) && Below(F.up, x, k) ==> x in F.refs && x in G.refs && G.refs[x] == F.refs[x]
    {
      OnPathSame(F, G, p, c, k, t, x);
    }
    OnPathSame(F, G, p, c, k, t, t);
    BelowSelf(F.up, t);
  }

  lemma OnPathSame(F: Forest, G: Forest, p: Id, c: Id, k: Id, t: Id, x: Id)
    requires Turned(F, G, p, c) && c in F.up && F.up[c] == At(p) && k in F.up && F.up[k] == At(p) && k != c
    requires t in F.up && Below(F.up, t, k) && Outer(F, p, k)
    ensures Below(F.up, t, x) && Below(F.up, x, k) <==> Below(G.up, t, x) && Below(G.up, x, k)
    ensures Below(F.up, t, x) && Below(F.up, x, k) ==> x in F.refs && x in G.refs && G.refs[x] == F.refs[x]
  {
    hide *;
    TurnedParts(F, G, p, c);
    WatchedParts(F, p);
    WFParts(G);
    var n := ClimbOf(F.up, t, k);
    SamePath(F, G, p, c, k, t, x, n);
    if Below(F.up, t, x) && Below(F.up, x, k) {
      var m := ClimbOf(F.up, t, x);
      ClimbLands(F, t, x, m);
      NotHeld(F, p, c, k);
      Untouched(F, G, p, c, k, x);
    }
  }

  lemma NotHeld(F: Forest, p: Id, c: Id, k: Id)
    requires Outer(F, p, k) && c in F.up && F.up[c] == At(p)
    ensures !Holder(F, k, c)
  {
    if Holder(F, k, c) {
      var h := F.refs[k][0];
      assert h in F.refs[k];
      BelowKidSelf(F, p, c);
      BelowTrans(F.up, h, c, p);
    }
  }

  // ---------- before and after in a list ----------

  lemma AfterMembers(ks: seq<Id>, a: Id, b: Id)
    requires After(ks, a, b)
    ensures a in ks && b in ks
  {}

  /** Nothing comes before the first. */
  lemma AfterFirst(ks: seq<Id>, a: Id)
    requires Distinct(ks) && ks != []
    ensures !After(ks, a, ks[0])
  {}

  lemma FirstAfter(ks: seq<Id>, b: Id)
    requires b in ks && b != ks[0]
    ensures After(ks, ks[0], b)
  {
    var j :| 0 <= j < |ks| && ks[j] == b;
    assert 0 <= 0 < j < |ks| && ks[0] == ks[0] && ks[j] == b;
  }

  /** Where the elements of a list are after `x` was taken out. */
  ghost predicate Places(ks: seq<Id>, w: seq<Id>, x: Id, l: nat) {
    && l < |ks| && ks[l] == x && |w| == |ks| - 1
    && forall i :: 0 <= i < |w| ==> w[i] == ks[if i < l then i else i + 1]
  }

  lemma PlacesOf(ks: seq<Id>, x: Id) returns (l: nat)
    requires Distinct(ks) && x in ks
    ensures Places(ks, Without(ks, x), x, l)
  {
    l :| 0 <= l < |ks| && ks[l] == x;
    WithoutAt(ks, l);
  }

  lemma AfterDown(ks: seq<Id>, w: seq<Id>, x: Id, l: nat, a: Id, b: Id)
    requires Places(ks, w, x, l) && a != x && b != x && After(ks, a, b)
    ensures After(w, a, b)
  {
    var i, j :| 0 <= i < j < |ks| && ks[i] == a && ks[j] == b;
    var i', j' := if i < l then i else i - 1, if j < l then j else j - 1;
    assert 0 <= i' < j' < |w| && w[i'] == a && w[j'] == b;
  }

  lemma AfterUp(ks: seq<Id>, w: seq<Id>, x: Id, l: nat, a: Id, b: Id)
    requires Places(ks, w, x, l) && After(w, a, b)
    ensures After(ks, a, b)
  {
    var i, j :| 0 <= i < j < |w| && w[i] == a && w[j] == b;
    var i', j' := if i < l then i else i + 1, if j < l then j else j + 1;
    assert 0 <= i' < j' < |ks| && ks[i'] == a && ks[j'] == b;
  }

  /** Taking one out leaves the order of the others. */
  lemma AfterWithout(ks: seq<Id>, x: Id, a: Id, b: Id)
    requires Distinct(ks) && x in ks && a != x && b != x
    ensures After(Without(ks, x), a, b) <==> After(ks, a, b)
  {
    hide After, Places, Distinct;
    var l := PlacesOf(ks, x);
    if After(ks, a, b) {
      AfterDown(ks, Without(ks, x), x, l, a, b);
    }
    if After(Without(ks, x), a, b) {
      AfterUp(ks, Without(ks, x), x, l, a, b);
    }
  }

  // ---------- chains of holders ----------

  lemma LeadsHere(F: Forest, ks: seq<Id>, a: Id, b: Id)
    requires After(ks, a, b)
    ensures LeadsTo(F, ks, a, b)
  {
    assert Leads(F, ks, a, b, 0);
  }

  lemma LeadsOn(F: Forest, ks: seq<Id>, a: Id, b: Id, d: Id)
    requires d in ks && Passes(F, b, d) && LeadsTo(F, ks, a, d)
    ensures LeadsTo(F, ks, a, b)
  {
    var n: nat :| Leads(F, ks, a, d, n);
    assert Leads(F, ks, a, b, n + 1);
  }

  /** The same pairs give the same chains, when `x` is taken out and no chain needs it. */
  ghost predicate SamePairs(F: Forest, G: Forest, ks: seq<Id>, x: Id) {
    forall k, m :: k in ks && m in ks && k != x && m != x ==>
      (Holder(F, k, m) <==> Holder(G, k, m)) && (Passes(F, k, m) <==> Passes(G, k, m))
  }

  /** No chain from another child that passes `x` leads behind `a`. */
  ghost predicate NoWay(F: Forest, ks: seq<Id>, a: Id, x: Id) {
    (Holder(F, a, x) || exists k :: k in ks && k != x && Passes(F, k, x)) ==> !LeadsTo(F, ks, a, x)
  }

  lemma {:induction false} LeadsSame(F: Forest, G: Forest, ks: seq<Id>, x: Id, a: Id, b: Id, n: nat)
    requires Distinct(ks) && x in ks && a in ks && b in ks && a != x && b != x
    requires SamePairs(F, G, ks, x) && NoWay(F, ks, a, x)
    ensures Leads(F, ks, a, b, n) ==> Leads(G, Without(ks, x), a, b, n)
    ensures Leads(G, Without(ks, x), a, b, n) ==> Leads(F, ks, a, b, n)
    decreases n
  {
    hide Holder, Passes, After;
    var w := Without(ks, x);
    WithoutMembers(ks, x);
    AfterWithout(ks, x, a, b);
    if Leads(F, ks, a, b, n) && !After(ks, a, b) {
      var d :| d in ks && Passes(F, b, d) && Leads(F, ks, a, d, n - 1);
      assert LeadsTo(F, ks, a, d);
      LeadsSame(F, G, ks, x, a, d, n - 1);
      assert d in w;
    }
    if Leads(G, w, a, b, n) && !After(w, a, b) {
      var d :| d in w && Passes(G, b, d) && Leads(G, w, a, d, n - 1);
      LeadsSame(F, G, ks, x, a, d, n - 1);
    }
  }

  lemma TripsSame(F: Forest, G: Forest, ks: seq<Id>, x: Id, a: Id)
    requires Distinct(ks) && x in ks && a in ks && a != x && SamePairs(F, G, ks, x) && NoWay(F, ks, a, x)
    ensures Trips(F, ks, a) <==> Trips(G, Without(ks, x), a)
  {
    hide Holder, Passes, Leads;
    var w := Without(ks, x);
    WithoutMembers(ks, x);
    if Trips(F, ks, a) {
      var b :| b in ks && Holder(F, a, b) && LeadsTo(F, ks, a, b);
      var n: nat :| Leads(F, ks, a, b, n);
      LeadsSame(F, G, ks, x, a, b, n);
      assert b in w && LeadsTo(G, w, a, b);
    }
    if Trips(G, w, a) {
      var b :| b in w && Holder(G, a, b) && LeadsTo(G, w, a, b);
      var n: nat :| Leads(G, w, a, b, n);
      LeadsSame(F, G, ks, x, a, b, n);
      assert LeadsTo(F, ks, a, b);
    }
  }

  // ---------- the verdict, case by case ----------

  /** Nothing leads on from a first child without a reference from below `p`. */
  lemma FirstNoWay(F: Forest, p: Id, c: Id, a: Id)
    requires Watched(F, p) && F.kids[p] != [] && F.kids[p][0] == c && Outer(F, p, c)
    ensures NoWay(F, F.kids[p], a, c) && !Trips(F, F.kids[p], c)
  {
    hide *;
    LaterKids(F, p, c);
    forall d | d in F.kids[p] ensures !Holder(F, c, d) && !Passes(F, c, d) {
      NotHeld(F, p, d, c);
      HolderIs(F, c, d);
    }
    AfterFirst(F.kids[p], a);
    NoChain(F, F.kids[p], a, c);
  }

  lemma NoChain(F: Forest, ks: seq<Id>, a: Id, c: Id)
    requires !After(ks, a, c) && forall d :: d in ks ==> !Holder(F, c, d) && !Passes(F, c, d)
    ensures NoWay(F, ks, a, c) && !Trips(F, ks, c)
  {
    hide Holder, Passes, After;
    assert forall n: nat :: !Leads(F, ks, a, c, n);
  }

  lemma BackSame(F: Forest, G: Forest, p: Id, c: Id, a: Id)
    requires Turned(F, G, p, c) && c in F.up && F.up[c] == At(p) && p in F.kids && a in F.kids[p]
    requires a != c && p in G.kids
    ensures GoesBack(F, F.kids[p], a) <==> GoesBack(G, G.kids[p], a)
  {
    hide *;
    TurnedParts(F, G, p, c);
    LaterKids(F, p, c);
    LateSame(F, G, p, c, a);
    FirstNoWay(F, p, c, a);
    PairsSame(F, G, p, c);
    TripsSame(F, G, F.kids[p], c, a);
    GoesBackIs(F, F.kids[p], a);
    GoesBackIs(G, G.kids[p], a);
  }

  lemma GoesBackIs(F: Forest, ks: seq<Id>, a: Id)
    ensures GoesBack(F, ks, a) <==> Late(F, a) || Trips(F, ks, a)
  {}

  lemma PairsSame(F: Forest, G: Forest, p: Id, c: Id)
    requires Turned(F, G, p, c) && c in F.up && F.up[c] == At(p) && p in F.kids
    ensures SamePairs(F, G, F.kids[p], c)
  {
    hide Turned, Holder, Passes, Watched, WF, Cascade, Confined, Loosened, Tightens, Trails, Outer, Distinct;
    TurnedParts(F, G, p, c);
    LaterKids(F, p, c);
    forall k, m | k in F.kids[p] && m in F.kids[p] && k != c && m != c
      ensures (Holder(F, k, m) <==> Holder(G, k, m)) && (Passes(F, k, m) <==> Passes(G, k, m))
    {
      PairSame(F, G, p, c, k, m);
    }
  }

  /** Taking `x` out of the children changes nothing if `x` matters on neither side. */
  lemma BackAfterSame(F: Forest, G: Forest, ks: seq<Id>, x: Id, t: Id)
    requires Distinct(ks) && x in ks && !Reached(F, t, x)
    requires forall k :: k in ks && k != x ==> (Reached(F, t, k) <==> Reached(G, t, k))
    requires forall k, a :: After(ks, k, a) ==>
      if a == x then !GoesBack(F, ks, a) else GoesBack(F, ks, a) <==> GoesBack(G, Without(ks, x), a)
    ensures BackAfter(F, ks, t) <==> BackAfter(G, Without(ks, x), t)
  {
    hide Reached, GoesBack, After;
    var w := Without(ks, x);
    WithoutMembers(ks, x);
    if BackAfter(F, ks, t) {
      var k, a :| After(ks, k, a) && Reached(F, t, k) && GoesBack(F, ks, a);
      AfterMembers(ks, k, a);
      AfterWithout(ks, x, k, a);
      assert After(w, k, a) && Reached(G, t, k) && GoesBack(G, w, a);
    }
    if BackAfter(G, w, t) {
      var k, a :| After(w, k, a) && Reached(G, t, k) && GoesBack(G, w, a);
      AfterMembers(w, k, a);
      AfterWithout(ks, x, k, a);
      assert After(ks, k, a) && Reached(F, t, k) && GoesBack(F, ks, a);
    }
  }

  lemma TargetSame(F: Forest, G: Forest, D: set<Id>, s: Id)
    requires Confined(F, G, D) && s in F.up && s in G.up
    ensures s in F.target <==> s in G.target
    ensures s in F.target ==> G.target[s] == F.target[s]
  {}

  lemma ReachedBelow(F: Forest, t: Id, k: Id)
    requires Reached(F, t, k)
    ensures Below(F.up, t, k)
  {}

  lemma TargetLive(F: Forest, s: Id)
    requires Shape(F) && RefsOk(F.refs, F.target) && s in F.target
    ensures F.target[s] in F.up && F.target[s] in F.refs && s in F.refs[F.target[s]]
  {}

  lemma FollowsLive(F: Forest, p: Id, s: Id)
    requires p in F.kids && s in F.up
    ensures Follows(F, p, s) <==> s in F.target && BackAfter(F, F.kids[p], F.target[s])
  {
    hide BackAfter;
  }

  lemma FollowsDead(F: Forest, p: Id, s: Id)
    requires p in F.kids && s !in F.up
    ensures Follows(F, p, s) <==> AnyBack(F, F.kids[p])
  {
    hide AnyBack;
  }

  /** Whether a later child is reached from is as it was. */
  lemma ReachedLater(F: Forest, G: Forest, p: Id, c: Id, s: Id, k: Id)
    requires Turned(F, G, p, c) && c in F.up && F.up[c] == At(p) && k in F.up && F.up[k] == At(p) && k != c
    requires Sole(F, p, s) && s in F.target && F.target[s] in F.up && F.target[s] in F.refs && F.target[s] in G.up
    ensures Reached(F, F.target[s], k) <==> Reached(G, F.target[s], k)
  {
    hide *;
    TurnedParts(F, G, p, c);
    WatchedParts(F, p);
    var t := F.target[s];
    if Reached(G, t, k) {
      ReachedBelow(G, t, k);
      PathBefore(F, G, p, c, k, t);
    } else if Reached(F, t, k) {
      ReachedBelow(F, t, k);
    }
    if Below(F.up, t, k) {
      BelowKid(F, p, k, t);
      SoleParts(F, p, s, k);
      ReachedSame(F, G, p, c, k, t);
    }
  }

  /** The sibling is alive, and what it refers to is not below the child of this turn. */
  lemma FollowsElsewhere(F: Forest, G: Forest, p: Id, c: Id, s: Id)
    requires Turned(F, G, p, c) && c in F.up && F.up[c] == At(p) && s in F.up && s in G.up && Sole(F, p, s)
    requires s in F.target ==> !Below(F.up, F.target[s], c)
    ensures Follows(F, p, s) <==> Follows(G, p, s)
  {
    hide *;
    TurnedParts(F, G, p, c);
    WatchedParts(F, p);
    WFParts(G);
    LaterKids(F, p, c);
    TargetSame(F, G, Subtree(F, c), s);
    if s in F.target {
      var t := F.target[s];
      TargetLive(F, s);
      TargetLive(G, s);
      if Reached(F, t, c) {
        ReachedBelow(F, t, c);
      }
      ElsewhereSame(F, G, p, c, s);
    }
    FollowsLive(F, p, s);
    FollowsLive(G, p, s);
  }

  lemma ElsewhereSame(F: Forest, G: Forest, p: Id, c: Id, s: Id)
    requires Turned(F, G, p, c) && c in F.up && F.up[c] == At(p) && p in F.kids && p in G.kids
    requires Sole(F, p, s) && s in F.target && F.target[s] in F.up && F.target[s] in F.refs && F.target[s] in G.up
    requires !Reached(F, F.target[s], c) && F.kids[p] != [] && F.kids[p][0] == c
    ensures BackAfter(F, F.kids[p], F.target[s]) <==> BackAfter(G, G.kids[p], F.target[s])
  {
    hide *;
    TurnedParts(F, G, p, c);
    LaterKids(F, p, c);
    var ks := F.kids[p];
    forall k | k in ks && k != c ensures Reached(F, F.target[s], k) <==> Reached(G, F.target[s], k) {
      ReachedLater(F, G, p, c, s, k);
    }
    forall k, a | After(ks, k, a) ensures a != c && (GoesBack(F, ks, a) <==> GoesBack(G, Without(ks, c), a)) {
      AfterMembers(ks, k, a);
      AfterFirst(ks, k);
      BackSame(F, G, p, c, a);
    }
    BackAfterSame(F, G, ks, c, F.target[s]);
  }

  /** What of the children climbs back is the same after the turn, the first child aside. */
  lemma AnyBackSame(F: Forest, G: Forest, p: Id, c: Id)
    requires Turned(F, G, p, c) && c in F.up && F.up[c] == At(p) && p in F.kids && p in G.kids
    ensures AnyBack(F, F.kids[p]) <==> GoesBack(F, F.kids[p], c) || AnyBack(G, G.kids[p])
    ensures AnyBack(G, G.kids[p]) <==> exists a :: a in F.kids[p] && a != c && GoesBack(F, F.kids[p], a)
  {
    hide Turned, GoesBack;
    TurnedParts(F, G, p, c);
    LaterKids(F, p, c);
    assert c in F.kids[p];
    forall a | a in F.kids[p] && a != c ensures GoesBack(F, F.kids[p], a) <==> GoesBack(G, G.kids[p], a) {
      BackSame(F, G, p, c, a);
    }
    assert forall a :: a in G.kids[p] <==> a in F.kids[p] && a != c;
  }

  /** The sibling goes in this turn. */
  lemma FollowsGone(F: Forest, G: Forest, p: Id, c: Id, s: Id)
    requires Turned(F, G, p, c) && c in F.up && F.up[c] == At(p) && s in F.up && s !in G.up
    requires s in F.target && Reached(F, F.target[s], c)
    ensures Follows(F, p, s) <==> Follows(G, p, s)
  {
    hide *;
    TurnedParts(F, G, p, c);
    LaterKids(F, p, c);
    var t, ks := F.target[s], F.kids[p];
    ReachedBelow(F, t, c);
    OnlyFirst(F, p, t);
    FollowsLive(F, p, s);
    FollowsDead(G, p, s);
    AnyBackSame(F, G, p, c);
    BackAfterFirst(F, ks, t);
  }

  /** Once the first child reaches `t`, what counts is the others. */
  lemma BackAfterFirst(F: Forest, ks: seq<Id>, t: Id)
    requires Distinct(ks) && ks != [] && Reached(F, t, ks[0])
    requires forall k :: k in ks && k != ks[0] ==> !Reached(F, t, k)
    ensures BackAfter(F, ks, t) <==> exists a :: a in ks && a != ks[0] && GoesBack(F, ks, a)
  {
    hide Reached, GoesBack, After;
    if BackAfter(F, ks, t) {
      var k, a :| After(ks, k, a) && Reached(F, t, k) && GoesBack(F, ks, a);
      AfterMembers(ks, k, a);
      AfterFirst(ks, k);
    }
    if a :| a in ks && a != ks[0] && GoesBack(F, ks, a) {
      FirstAfter(ks, a);
    }
  }

  lemma OnlyFirst(F: Forest, p: Id, t: Id)
    requires Watched(F, p) && F.kids[p] != [] && Below(F.up, t, F.kids[p][0])
    ensures forall k :: k in F.kids[p] && k != F.kids[p][0] ==> !Reached(F, t, k)
  {
    WatchedParts(F, p);
    LaterKids(F, p, F.kids[p][0]);
    hide Watched, WF, Sheltered, Sole, KidsOk, RefsOk, Forested, Below, Reached;
    assert F.kids[p][0] in F.kids[p];
    forall k | k in F.kids[p] && k != F.kids[p][0] ensures !Reached(F, t, k) {
      SiblingsApart(F, p, F.kids[p][0], k, t);
      if Reached(F, t, k) {
        ReachedBelow(F, t, k);
      }
    }
  }

  /** What the sibling refers to leaves with the child of this turn, and keeps its reference. */
  lemma FollowsNever(F: Forest, G: Forest, p: Id, c: Id, s: Id)
    requires Turned(F, G, p, c) && c in F.up && F.up[c] == At(p) && s in F.up && s in G.up
    requires s in F.target && Below(F.up, F.target[s], c) && !Reached(F, F.target[s], c)
    ensures !Follows(F, p, s) && !Follows(G, p, s)
  {
    hide *;
    TurnedParts(F, G, p, c);
    WatchedParts(F, p);
    WFParts(G);
    LaterKids(F, p, c);
    var t := F.target[s];
    OnlyFirst(F, p, t);
    FollowsLive(F, p, s);
    FollowsLive(G, p, s);
    TargetSame(F, G, Subtree(F, c), s);
    TargetLive(G, s);
    NotReached(F, F.kids[p], t);
    forall k | k in G.kids[p] ensures !Reached(G, t, k) {
      if Reached(G, t, k) {
        ReachedBelow(G, t, k);
        PathBefore(F, G, p, c, k, t);
        SiblingsApart(F, p, k, c, t);
      }
    }
    NotReached(G, G.kids[p], t);
  }

  lemma NotReached(F: Forest, ks: seq<Id>, t: Id)
    requires forall k :: k in ks ==> !Reached(F, t, k)
    ensures !BackAfter(F, ks, t)
  {
    hide Reached, GoesBack;
  }

  /** The sibling went before this turn. */
  lemma FollowsOn(F: Forest, G: Forest, p: Id, c: Id, s: Id)
    requires Turned(F, G, p, c) && c in F.up && F.up[c] == At(p) && s !in F.up && s !in G.up && !Late(F, c)
    ensures Follows(F, p, s) <==> Follows(G, p, s)
  {
    hide *;
    TurnedParts(F, G, p, c);
    LaterKids(F, p, c);
    WatchedParts(F, p);
    FollowsDead(F, p, s);
    FollowsDead(G, p, s);
    AnyBackSame(F, G, p, c);
    FirstNoWay(F, p, c, c);
    GoesBackIs(F, F.kids[p], c);
  }

  /** Which turns release the sibling. */
  ghost predicate Fate(F: Forest, G: Forest, c: Id, s: Id) {
    if s in F.up then
      s in G.up <==> !(s in F.target && Below(F.up, F.target[s], c) && Reached(F, F.target[s], c))
    else s !in G.up && !Late(F, c)
  }

  /** No such turn changes what is going to happen. */
  lemma WatchSame(F: Forest, G: Forest, p: Id, c: Id)
    requires Turned(F, G, p, c) && c in F.up && F.up[c] == At(p)
    requires p in F.stale ==> Fate(F, G, c, F.stale[p])
    ensures Watch(F, p) <==> Watch(G, p)
  {
    hide Turned, Follows, Reached, Below, Late, Sole, WF, Watched;
    TurnedParts(F, G, p, c);
    WatchedParts(F, p);
    if p in F.stale {
      var s := F.stale[p];
      if s !in F.up {
        FollowsOn(F, G, p, c, s);
      } else if s !in G.up {
        FollowsGone(F, G, p, c, s);
      } else if s in F.target && Below(F.up, F.target[s], c) {
        FollowsNever(F, G, p, c, s);
      } else {
        FollowsElsewhere(F, G, p, c, s);
      }
    }
  }
}
