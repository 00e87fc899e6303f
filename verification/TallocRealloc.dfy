/** `talloc_realloc`: a chunk may come to live at another address, and everything that points at it follows. */
module TallocRealloc {
  import opened TallocForest
  import opened TallocOwnership
  import opened TallocCells
  import opened TallocCascade
  import opened TallocPaths
  import opened TallocStale
  import opened TallocHeap
  import opened TallocApi

  // ---------- the forest after a chunk moved ----------

  /** The address of `x` once `p` has moved to `q`. */
  ghost function To(x: Id, p: Id, q: Id): Id {
    if x == p then q else x
  }

  ghost function From(x: Id, p: Id, q: Id): Id {
    if x == q then p else x
  }

  ghost function ToPtr(x: Ptr, p: Id, q: Id): Ptr {
    if x == At(p) then At(q) else x
  }

  ghost function ToSeq(s: seq<Id>, p: Id, q: Id): (r: seq<Id>)
    ensures |r| == |s|
  {
    seq(|s|, i requires 0 <= i < |s| => To(s[i], p, q))
  }

  /** `p` can move: it is live, nothing refers to it, it is no handle, and nothing is being freed. */
  ghost predicate Moves(F: Forest, p: Id, q: Id) {
    WF(F) && p in F.up && q !in F.up && p !in F.target && p in F.refs && F.refs[p] == [] && F.flight == {}
  }

  /** The same forest with `q` in the place of `p`. */
  ghost function Renamed(F: Forest, p: Id, q: Id): Forest
    requires Moves(F, p, q)
  {
    var live := F.up.Keys - {p} + {q};
    Forest(
      map x | x in live :: ToPtr(F.up[From(x, p, q)], p, q),
      map x | x in live :: ToSeq(F.kids[From(x, p, q)], p, q),
      map x | x in live :: F.refs[From(x, p, q)],
      F.target, {}, map[])
  }

  lemma RenamedKids(F: Forest, p: Id, q: Id)
    requires Moves(F, p, q)
    ensures KidsOk(Renamed(F, p, q).up, Renamed(F, p, q).kids, {})
  {
    hide Moves, Renamed, Distinct;
    var G := Renamed(F, p, q);
    forall a, c | a in G.kids && c in G.kids[a] ensures c in G.up && G.up[c] == At(a) {
      KidRenamed(F, p, q, a, c);
    }
    forall c | c in G.up && G.up[c].At? ensures G.up[c].a in G.kids && c in G.kids[G.up[c].a] {
      ParentRenamed(F, p, q, c);
    }
    forall a | a in G.kids ensures Distinct(G.kids[a]) {
      ListRenamed(F, p, q, a);
    }
  }

  lemma ListRenamed(F: Forest, p: Id, q: Id, a: Id)
    requires Moves(F, p, q) && a in Renamed(F, p, q).kids
    ensures Distinct(Renamed(F, p, q).kids[a])
  {
    hide RefsOk, HandlesOk, FlightOk, Forested;
    DistinctRenamed(F.kids[From(a, p, q)], p, q);
    assert forall x :: x in F.kids[From(a, p, q)] ==> x in F.up;
  }

  lemma KidRenamed(F: Forest, p: Id, q: Id, a: Id, c: Id)
    requires Moves(F, p, q) && a in Renamed(F, p, q).kids && c in Renamed(F, p, q).kids[a]
    ensures c in Renamed(F, p, q).up && Renamed(F, p, q).up[c] == At(a)
  {
    hide RefsOk, HandlesOk, FlightOk, Forested;
    var s := F.kids[From(a, p, q)];
    var i :| 0 <= i < |s| && ToSeq(s, p, q)[i] == c;
    var x := s[i];
    assert x in s && c == To(x, p, q);
  }

  lemma ParentRenamed(F: Forest, p: Id, q: Id, c: Id)
    requires Moves(F, p, q) && c in Renamed(F, p, q).up && Renamed(F, p, q).up[c].At?
    ensures var G := Renamed(F, p, q); G.up[c].a in G.kids && c in G.kids[G.up[c].a]
  {
    hide RefsOk, HandlesOk, FlightOk, Forested;
    var x := From(c, p, q);
    var s := F.kids[F.up[x].a];
    assert x in s;
    var i :| 0 <= i < |s| && s[i] == x;
    assert ToSeq(s, p, q)[i] == c;
  }

  lemma DistinctRenamed(s: seq<Id>, p: Id, q: Id)
    requires Distinct(s)
    ensures q !in s ==> Distinct(ToSeq(s, p, q))
  {
    if q !in s {
      assert forall i :: 0 <= i < |s| ==> s[i] in s;
    }
  }

  lemma TargetsStay(F: Forest, p: Id, q: Id)
    requires Moves(F, p, q)
    ensures forall h :: h in F.target ==>
      F.target[h] != p && h != p && h != q && F.target[h] in F.refs && h in F.refs[F.target[h]]
  {
    hide KidsOk, Forested, HandlesOk, FlightOk;
    forall h | h in F.target ensures F.target[h] != p {
      assert h in F.refs[F.target[h]];
    }
  }

  lemma RefsFrom(F: Forest, p: Id, q: Id)
    requires Moves(F, p, q)
    ensures forall c :: c in Renamed(F, p, q).refs ==>
      Renamed(F, p, q).refs[c] == if c == q then [] else if c in F.refs then F.refs[c] else []
    ensures Shape(Renamed(F, p, q))
  {
    hide KidsOk, Forested, HandlesOk, FlightOk, RefsOk;
  }

  lemma RenamedRefs(F: Forest, p: Id, q: Id)
    requires Moves(F, p, q)
    ensures RefsOk(Renamed(F, p, q).refs, F.target)
  {
    hide KidsOk, RefsOk, HandlesOk, FlightOk, Forested;
    RenamedFields(F, p, q);
    RefsCarried(F.refs, F.target, p, q);
  }

  lemma RefsCarried(refs: map<Id, seq<Id>>, target: map<Id, Id>, p: Id, q: Id)
    requires RefsOk(refs, target) && p in refs && refs[p] == [] && q !in refs
    ensures RefsOk((refs - {p})[q := []], target)
  {
    forall h | h in target ensures target[h] != p {
      assert h in refs[target[h]];
    }
  }

  lemma RenamedHandles(F: Forest, p: Id, q: Id)
    requires Moves(F, p, q)
    ensures var G := Renamed(F, p, q);
      Shape(G) && RefsOk(G.refs, G.target) && HandlesOk(G.up, G.refs, G.target, {}) && FlightOk(G.up, G.refs, {}, map[])
  {
    hide KidsOk, Forested, RefsOk, FlightOk;
    RenamedRefs(F, p, q);
    RefsFrom(F, p, q);
    TargetsStay(F, p, q);
    NoFlight(Renamed(F, p, q).up, Renamed(F, p, q).refs);
  }

  lemma NoFlight(up: map<Id, Ptr>, refs: map<Id, seq<Id>>)
    requires refs.Keys == up.Keys
    ensures FlightOk(up, refs, {}, map[])
  {}

  lemma RenamedForested(F: Forest, p: Id, q: Id)
    requires Moves(F, p, q)
    ensures Forested(Renamed(F, p, q).up)
  {
    var rank :| Ranked(F.up, rank);
    var G := Renamed(F, p, q);
    var rank' := rank[q := rank[p]];
    forall x | x in G.up && G.up[x].At? ensures G.up[x].a in G.up && rank'[G.up[x].a] < rank'[x] {
      var y := From(x, p, q);
      assert y in F.up && F.up[y].At?;
      assert F.up[y].a in F.up && rank[F.up[y].a] < rank[y];
    }
    assert Ranked(G.up, rank');
  }

  lemma RenamedWF(F: Forest, p: Id, q: Id)
    requires Moves(F, p, q)
    ensures WF(Renamed(F, p, q))
  {
    hide KidsOk, RefsOk, HandlesOk, FlightOk, Forested, Shape;
    RenamedKids(F, p, q);
    RenamedHandles(F, p, q);
    RenamedForested(F, p, q);
  }

  // ---------- the links ----------

  /** The pointers of one header field followed the move. */
  ghost predicate Redirected(m: Links, n: Links, p: Id, q: Id) {
    n.Keys == m.Keys - {p} + {q} && forall x :: x in m ==> To(x, p, q) in n && n[To(x, p, q)] == ToPtr(m[x], p, q)
  }

  /** Forward and backward links mirror each other, and nothing points at itself. */
  ghost predicate Mirrored(a: Links, b: Links, x: Id) {
    && x in a && x in b
    && (a[x].At? ==> a[x].a in b && b[a[x].a] == At(x) && a[x].a != x)
    && (b[x].At? ==> b[x].a in a && a[b[x].a] == At(x) && b[x].a != x)
  }

  lemma SiblingsMirrored(next: Links, prev: Links, parent: Links, child: Links, F: Forest, x: Id)
    requires TreeRep(next, prev, parent, child, F) && F.flight == {} && x in F.up
    ensures Mirrored(next, prev, x)
  {
    hide *;
    TreeRepParts(next, prev, parent, child, F);
    if F.up[x].At? {
      var a, i := ListedLinks(next, prev, parent, child, F, x);
      ListMirrored(next, prev, F.kids[a], i);
    } else {
      LoneAt(next, prev, parent, F, x);
      NoMirror(next, prev, x);
    }
  }

  lemma LoneAt(next: Links, prev: Links, parent: Links, F: Forest, x: Id)
    requires RootsRep(next, prev, parent, F.up, F.flight) && F.flight == {} && x in F.up && F.up[x].Null?
    ensures Lone(next, prev, parent, x) && x in next && x in prev && x in parent
    ensures next[x] == Null && prev[x] == Null && parent[x] == Null
  {}

  lemma NoMirror(a: Links, b: Links, x: Id)
    requires x in a && x in b && a[x] == Null && b[x] == Null
    ensures Mirrored(a, b, x)
  {}

  lemma ListMirrored(next: Links, prev: Links, s: seq<Id>, i: nat)
    requires Chained(next, prev, s) && Distinct(s) && i < |s|
    ensures Mirrored(next, prev, s[i])
  {
    ChainedHere(next, prev, s, i);
    if i > 0 {
      ChainedHere(next, prev, s, i - 1);
      DistinctAt(s, i, i - 1);
    }
    if i + 1 < |s| {
      ChainedHere(next, prev, s, i + 1);
      DistinctAt(s, i, i + 1);
    }
    hide Chained, Distinct;
  }

  lemma ParentsMirrored(next: Links, prev: Links, parent: Links, child: Links, F: Forest, x: Id)
    requires TreeRep(next, prev, parent, child, F) && F.flight == {} && x in F.up
    ensures Mirrored(parent, child, x)
  {
    hide *;
    TreeRepParts(next, prev, parent, child, F);
    KeyedLive(next, prev, parent, child, F);
    ChildMirrored(next, prev, parent, child, F, x);
    if F.up[x].At? {
      var a, i := ListedLinks(next, prev, parent, child, F, x);
      HeadMirrored(parent, child, F.kids[a], a, i, PrevOf(F, x));
    } else {
      LoneAt(next, prev, parent, F, x);
    }
    MirrorFrom(parent, child, x);
  }

  lemma KeyedLive(next: Links, prev: Links, parent: Links, child: Links, F: Forest)
    requires TreeRep(next, prev, parent, child, F)
    ensures next.Keys == F.up.Keys && prev.Keys == F.up.Keys && parent.Keys == F.up.Keys && child.Keys == F.up.Keys
    ensures F.kids.Keys == F.up.Keys
  {}

  lemma ChildMirrored(next: Links, prev: Links, parent: Links, child: Links, F: Forest, x: Id)
    requires TreeRep(next, prev, parent, child, F) && F.flight == {} && x in F.up
    ensures x in child && (child[x].At? ==> child[x].a in parent && parent[child[x].a] == At(x) && child[x].a != x)
  {
    hide *;
    TreeRepParts(next, prev, parent, child, F);
    KeyedLive(next, prev, parent, child, F);
    WFParts(F);
    ListAt(next, prev, parent, child, F.kids, x);
    NotOwnKid(F, x);
    HeadIs(F.kids[x]);
    if F.kids[x] != [] {
      HeadedHere(parent, F.kids[x], x, 0);
      assert F.kids[x][0] in F.kids[x];
    }
  }

  lemma HeadIs(s: seq<Id>)
    ensures Head(s) == if s == [] then Null else At(s[0])
  {}

  lemma HeadMirrored(parent: Links, child: Links, s: seq<Id>, a: Id, i: nat, before: Ptr)
    requires Headed(parent, s, a) && i < |s| && a in child && child[a] == Head(s) && before == Elem(s, i - 1) && a !in s
    ensures s[i] in parent
    ensures parent[s[i]].At? ==>
      parent[s[i]].a in child && child[parent[s[i]].a] == At(s[i]) && parent[s[i]].a != s[i]
  {
    HeadedHere(parent, s, a, i);
    assert s[i] in s;
  }

  lemma MirrorFrom(a: Links, b: Links, x: Id)
    requires x in a && (a[x].At? ==> a[x].a in b && b[a[x].a] == At(x) && a[x].a != x)
    requires x in b && (b[x].At? ==> b[x].a in a && a[b[x].a] == At(x) && b[x].a != x)
    ensures Mirrored(a, b, x)
  {}

  /** One field after the copy and the fix of the one pointer that named the chunk. */
  ghost function Fixed(m: Links, back: Ptr, p: Id, q: Id): Links
    requires p in m
  {
    var n := (m - {p})[q := m[p]];
    if back.At? then n[back.a := At(q)] else n
  }

  lemma FixedFollows(m: Links, b: Links, p: Id, q: Id)
    requires p in m && p in b && q !in m && m.Keys == b.Keys && forall x :: x in m ==> Mirrored(m, b, x)
    ensures Redirected(m, Fixed(m, b[p], p, q), p, q)
  {
    var n := Fixed(m, b[p], p, q);
    assert Mirrored(m, b, p);
    forall x | x in m ensures To(x, p, q) in n && n[To(x, p, q)] == ToPtr(m[x], p, q) {
      assert Mirrored(m, b, x);
    }
  }

  // ---------- the representation follows ----------

  lemma HeadFollows(s: seq<Id>, p: Id, q: Id)
    ensures ToPtr(Head(s), p, q) == Head(ToSeq(s, p, q))
  {}

  lemma ElemFollows(s: seq<Id>, p: Id, q: Id, i: int)
    ensures ToPtr(Elem(s, i), p, q) == Elem(ToSeq(s, p, q), i)
  {}

  lemma ChainFollows(next: Links, prev: Links, n: Links, v: Links, s: seq<Id>, p: Id, q: Id)
    requires Chained(next, prev, s) && Redirected(next, n, p, q) && Redirected(prev, v, p, q)
    ensures Chained(n, v, ToSeq(s, p, q))
  {
    var t := ToSeq(s, p, q);
    hide Redirected, ToSeq, Elem;
    forall i | 0 <= i < |t| ensures t[i] in n && t[i] in v && v[t[i]] == Elem(t, i - 1) && n[t[i]] == Elem(t, i + 1) {
      LinkFollows(next, prev, n, v, s, p, q, i);
    }
  }

  lemma LinkFollows(next: Links, prev: Links, n: Links, v: Links, s: seq<Id>, p: Id, q: Id, i: nat)
    requires Chained(next, prev, s) && Redirected(next, n, p, q) && Redirected(prev, v, p, q) && i < |s|
    ensures var t := ToSeq(s, p, q); t[i] in n && t[i] in v && v[t[i]] == Elem(t, i - 1) && n[t[i]] == Elem(t, i + 1)
  {
    hide Elem;
    ChainedHere(next, prev, s, i);
    ElemFollows(s, p, q, i - 1);
    ElemFollows(s, p, q, i + 1);
  }

  lemma HeadedFollows(parent: Links, u: Links, s: seq<Id>, a: Id, p: Id, q: Id)
    requires Headed(parent, s, a) && Redirected(parent, u, p, q)
    ensures Headed(u, ToSeq(s, p, q), To(a, p, q))
  {
    var t := ToSeq(s, p, q);
    forall i | 0 <= i < |t| ensures t[i] in u && u[t[i]] == if i == 0 then At(To(a, p, q)) else Null {
      HeadedHere(parent, s, a, i);
    }
  }

  lemma ListsFollow(next: Links, prev: Links, parent: Links, child: Links, n: Links, v: Links, u: Links, c: Links,
                    F: Forest, p: Id, q: Id)
    requires ListsRep(next, prev, parent, child, F.kids) && Moves(F, p, q)
    requires Redirected(next, n, p, q) && Redirected(prev, v, p, q) && Redirected(parent, u, p, q)
    requires Redirected(child, c, p, q)
    ensures ListsRep(n, v, u, c, Renamed(F, p, q).kids)
  {
    var G := Renamed(F, p, q);
    forall a | a in G.kids
      ensures a in c && c[a] == Head(G.kids[a]) && Chained(n, v, G.kids[a]) && Headed(u, G.kids[a], a)
    {
      var b := From(a, p, q);
      assert b in F.kids && To(b, p, q) == a && G.kids[a] == ToSeq(F.kids[b], p, q);
      hide WF, Chained, Headed;
      ChainFollows(next, prev, n, v, F.kids[b], p, q);
      HeadedFollows(parent, u, F.kids[b], b, p, q);
      HeadFollows(F.kids[b], p, q);
    }
  }

  lemma RootsFollow(next: Links, prev: Links, parent: Links, n: Links, v: Links, u: Links, F: Forest, p: Id, q: Id)
    requires RootsRep(next, prev, parent, F.up, F.flight) && Moves(F, p, q)
    requires Redirected(next, n, p, q) && Redirected(prev, v, p, q) && Redirected(parent, u, p, q)
    ensures RootsRep(n, v, u, Renamed(F, p, q).up, {})
  {
    hide WF;
    var G := Renamed(F, p, q);
    forall c | c in G.up && G.up[c] == Null ensures Lone(n, v, u, c) {
      var x := From(c, p, q);
      assert To(x, p, q) == c && F.up[x] == Null;
      assert Lone(next, prev, parent, x);
    }
  }

  lemma TreeFollows(next: Links, prev: Links, parent: Links, child: Links, n: Links, v: Links, u: Links, c: Links,
                    F: Forest, p: Id, q: Id)
    requires TreeRep(next, prev, parent, child, F) && Moves(F, p, q)
    requires Redirected(next, n, p, q) && Redirected(prev, v, p, q) && Redirected(parent, u, p, q)
    requires Redirected(child, c, p, q)
    ensures TreeRep(n, v, u, c, Renamed(F, p, q))
  {
    hide WF, ListsRep, RootsRep;
    TreeRepParts(next, prev, parent, child, F);
    RenamedWF(F, p, q);
    ListsFollow(next, prev, parent, child, n, v, u, c, F, p, q);
    RootsFollow(next, prev, parent, n, v, u, F, p, q);
    RenamedFields(F, p, q);
  }

  lemma RenamedFields(F: Forest, p: Id, q: Id)
    requires Moves(F, p, q)
    ensures var G := Renamed(F, p, q);
      && G.up.Keys == F.up.Keys - {p} + {q} && G.flight == {} && G.stale == map[] && G.target == F.target
      && G.refs == (F.refs - {p})[q := []] && F.refs.Keys == F.up.Keys
  {
    hide KidsOk, RefsOk, HandlesOk, FlightOk, Forested;
  }

  lemma HandlesFollow(first: Links, size: map<Id, nat>, looping: set<Id>, refDestructor: set<Id>,
                      hnext: Links, hprev: Links, ptr: map<Id, Id>, F: Forest, p: Id, q: Id, sz: nat)
    requires HandleRep(first, size, looping, refDestructor, hnext, hprev, ptr, F) && Moves(F, p, q)
    ensures HandleRep((first - {p})[q := Null], (size - {p})[q := sz], looping, refDestructor, hnext, hprev, ptr,
                      Renamed(F, p, q))
  {
    hide WF, RefsRep;
    RenamedFields(F, p, q);
    HandleRepParts(first, size, looping, refDestructor, hnext, hprev, ptr, F);
    RefsFollow(first, hnext, hprev, ptr, F.refs, p, q);
  }

  lemma RefsFollow(first: Links, hnext: Links, hprev: Links, ptr: map<Id, Id>, refs: map<Id, seq<Id>>, p: Id, q: Id)
    requires RefsRep(first, hnext, hprev, ptr, refs)
    ensures RefsRep((first - {p})[q := Null], hnext, hprev, ptr, (refs - {p})[q := []])
  {
    hide Chained;
    EmptyChain(hnext, hprev);
  }

  lemma EmptyChain(hnext: Links, hprev: Links)
    ensures Chained(hnext, hprev, [])
  {}

  // ---------- the call ----------

  /** The branch of `_talloc_realloc` that moves a chunk to `q`. */
  method MoveChunk(t: Talloc, p: Id, q: Id, sz: nat)
    requires t.Valid() && Moves(t.F, p, q)
    modifies t
    ensures t.Valid() && Moves(old(t.F), p, q) && t.F == Renamed(old(t.F), p, q)
    ensures t.size == (old(t.size) - {p})[q := sz] && t.room == old(t.room)[q := sz]
  {
    hide WF, TreeRep, HandleRep, Mirrored, Redirected, Renamed, RefsRep, Fixed;
    ghost var F := t.F;
    ghost var m := (t.next, t.prev, t.parent, t.child);
    LinksFollow(t.next, t.prev, t.parent, t.child, F, p, q);
    HandleRepParts(t.refs, t.size, t.looping, t.refDestructor, t.hnext, t.hprev, t.ptr, t.F);
    HandlesFollow(t.refs, t.size, t.looping, t.refDestructor, t.hnext, t.hprev, t.ptr, F, p, q, sz);
    RefsHead(t.refs, t.hnext, t.hprev, t.ptr, t.F.refs, p);
    CopyHeader(t, p, q, sz);
    TreeFollows(m.0, m.1, m.2, m.3, t.next, t.prev, t.parent, t.child, F, p, q);
    t.F := Renamed(F, p, q);
  }

  /** The fixed links are the same links with the new address. */
  lemma LinksFollow(next: Links, prev: Links, parent: Links, child: Links, F: Forest, p: Id, q: Id)
    requires TreeRep(next, prev, parent, child, F) && Moves(F, p, q)
    ensures p in next && p in prev && p in parent && p in child && p != q
    ensures next[p] != At(q) && prev[p] != At(q) && parent[p] != At(q) && child[p] != At(q)
    ensures Redirected(next, Fixed(next, prev[p], p, q), p, q) && Redirected(prev, Fixed(prev, next[p], p, q), p, q)
    ensures Redirected(parent, Fixed(parent, child[p], p, q), p, q)
    ensures Redirected(child, Fixed(child, parent[p], p, q), p, q)
  {
    hide WF, TreeRep, Mirrored, Redirected, Fixed, ListsRep, RootsRep, FlightRep;
    TreeRepParts(next, prev, parent, child, F);
    LinksMirrored(next, prev, parent, child, F);
    FixedFollows(next, prev, p, q);
    FixedFollows(prev, next, p, q);
    FixedFollows(parent, child, p, q);
    FixedFollows(child, parent, p, q);
    NotAt(next, prev, p, q);
    NotAt(prev, next, p, q);
    NotAt(parent, child, p, q);
    NotAt(child, parent, p, q);
  }

  lemma LinksMirrored(next: Links, prev: Links, parent: Links, child: Links, F: Forest)
    requires TreeRep(next, prev, parent, child, F) && F.flight == {}
    ensures forall x :: x in F.up ==> Mirrored(next, prev, x) && Mirrored(prev, next, x)
    ensures forall x :: x in F.up ==> Mirrored(parent, child, x) && Mirrored(child, parent, x)
  {
    hide WF, TreeRep, Mirrored;
    forall x | x in F.up ensures Mirrored(next, prev, x) && Mirrored(prev, next, x) {
      SiblingsMirrored(next, prev, parent, child, F, x);
      MirrorBack(next, prev, x);
    }
    forall x | x in F.up ensures Mirrored(parent, child, x) && Mirrored(child, parent, x) {
      ParentsMirrored(next, prev, parent, child, F, x);
      MirrorBack(parent, child, x);
    }
  }

  lemma MirrorBack(a: Links, b: Links, x: Id)
    requires Mirrored(a, b, x)
    ensures Mirrored(b, a, x)
  {}

  lemma NotAt(a: Links, b: Links, p: Id, q: Id)
    requires Mirrored(a, b, p) && q !in b
    ensures a[p] != At(q)
  {}

  /** The header is copied and the four pointers at it are fixed. */
  method CopyHeader(t: Talloc, p: Id, q: Id, sz: nat)
    requires p in t.next && p in t.prev && p in t.parent && p in t.child && p in t.refs && p in t.size && p != q
    requires t.refs[p] == Null
    requires t.next[p] != At(q) && t.prev[p] != At(q) && t.parent[p] != At(q) && t.child[p] != At(q)
    modifies t`next, t`prev, t`parent, t`child, t`refs, t`size, t`room
    ensures t.next == Fixed(old(t.next), old(t.prev)[p], p, q) && t.prev == Fixed(old(t.prev), old(t.next)[p], p, q)
    ensures t.parent == Fixed(old(t.parent), old(t.child)[p], p, q)
    ensures t.child == Fixed(old(t.child), old(t.parent)[p], p, q)
    ensures t.refs == (old(t.refs) - {p})[q := Null] && t.size == (old(t.size) - {p})[q := sz]
    ensures t.room == old(t.room)[q := sz]
  {
    FixParents(t, p, q);
    FixSiblings(t, p, q);
    t.refs, t.size, t.room := (t.refs - {p})[q := t.refs[p]], (t.size - {p})[q := sz], t.room[q := sz];
  }

  method FixParents(t: Talloc, p: Id, q: Id)
    requires p in t.parent && p in t.child && p != q && t.parent[p] != At(q) && t.child[p] != At(q)
    modifies t`parent, t`child
    ensures t.parent == Fixed(old(t.parent), old(t.child)[p], p, q)
    ensures t.child == Fixed(old(t.child), old(t.parent)[p], p, q)
  {
    t.parent, t.child := (t.parent - {p})[q := t.parent[p]], (t.child - {p})[q := t.child[p]];
    if t.parent[q].At? {
      t.child := t.child[t.parent[q].a := At(q)];
    }
    if t.child[q].At? {
      t.parent := t.parent[t.child[q].a := At(q)];
    }
  }

  method FixSiblings(t: Talloc, p: Id, q: Id)
    requires p in t.next && p in t.prev && p != q && t.next[p] != At(q) && t.prev[p] != At(q)
    modifies t`next, t`prev
    ensures t.next == Fixed(old(t.next), old(t.prev)[p], p, q) && t.prev == Fixed(old(t.prev), old(t.next)[p], p, q)
  {
    t.next, t.prev := (t.next - {p})[q := t.next[p]], (t.prev - {p})[q := t.prev[p]];
    if t.prev[q].At? {
      t.next := t.next[t.prev[q].a := At(q)];
    }
    if t.next[q].At? {
      t.prev := t.prev[t.next[q].a := At(q)];
    }
  }

  /** How a reallocation ends. */
  datatype Outcome = Aborted | Freed(code: int) | Placed(p: Id)

  /** `_talloc_realloc`. The system's `realloc` answers with the address `at`, the old one or an unused one; another
      address is refused only for a small shrink, for which the system is not asked. Whatever happens, no chunk comes
      to use more bytes than the system gave out for it. */
  method Realloc(t: Talloc, ctx: Ptr, ptr: Ptr, sz: nat, at: Id) returns (r: Outcome)
    requires t.Valid() && t.F.flight == {}
    requires sz == 0 && ptr.At? ==> MayFree(t.F, ptr.a)
    requires ptr.At? ==> ptr.a in t.F.up && ptr.a !in t.F.target
    requires at !in t.F.up || ptr == At(at)
    requires ptr.Null? && ctx.At? ==> ctx.a in t.F.up && ctx.a !in t.F.target
    modifies t
    ensures t.Valid() && (Roomy(old(t.size), old(t.room)) ==> Roomy(t.size, t.room))
    ensures r.Aborted? <==>
      sz > 0 && (sz >= MAX_TALLOC_SIZE || (ptr.At? && ptr.a in old(t.F).refs && old(t.F).refs[ptr.a] != []))
    ensures r.Aborted? ==> t.F == old(t.F) && t.size == old(t.size) && t.room == old(t.room)
    ensures sz == 0 && ptr.Null? ==> r == Freed(-1) && t.F == old(t.F) && t.size == old(t.size)
    ensures sz == 0 && ptr.At? ==> r.Freed? && FreeEffect(old(t.F), t.F, ptr.a, Subtree(old(t.F), ptr.a), r.code)
    ensures sz == 0 ==> SizesKept(old(t.size), t.size) && t.room == old(t.room)
    ensures !r.Aborted? && sz > 0 ==> r.Placed? && r.p in t.F.up
    ensures r.Placed? && ptr.Null? ==> t.size == old(t.size)[at := sz] && t.room == old(t.room)[at := sz]
    ensures r.Placed? && ptr.At? ==> ptr.a in old(t.size) && t.size == (old(t.size) - {ptr.a})[r.p := sz]
    ensures r.Placed? && ptr.At? && sz < old(t.size)[ptr.a] && old(t.size)[ptr.a] - sz < 1024 ==>
      r.p == ptr.a && t.room == old(t.room)
    ensures r.Placed? && ptr.At? && (sz >= old(t.size)[ptr.a] || old(t.size)[ptr.a] - sz >= 1024) ==>
      r.p == at && t.room == old(t.room)[at := sz]
    ensures r.Placed? && ptr.Null? ==>
      r.p == at && (ctx.At? ==> ctx.a in old(t.F).kids) && t.F == Add(old(t.F), ctx, at)
    ensures r.Placed? && ptr.At? && r.p == ptr.a ==> t.F == old(t.F)
    ensures r.Placed? && ptr.At? && r.p != ptr.a ==>
      r.p == at && Moves(old(t.F), ptr.a, r.p) && t.F == Renamed(old(t.F), ptr.a, r.p)
  {
    hide WF, TreeRep, HandleRep, MayFree, FreeEffect, Renamed, Add, Subtree, Moves, SizesKept, Roomy;
    ghost var size0, room0 := t.size, t.room;
    if sz == 0 {
      var code := TallocFree(t, ptr);
      RoomyFewer(size0, t.size, room0);
      return Freed(code);
    }
    if sz >= MAX_TALLOC_SIZE {
      return Aborted;
    }
    TreeRepParts(t.next, t.prev, t.parent, t.child, t.F);
    HandleRepParts(t.refs, t.size, t.looping, t.refDestructor, t.hnext, t.hprev, t.ptr, t.F);
    WFParts(t.F);
    RefsKeys(t.F);
    if ptr.Null? {
      t.Alloc(ctx, sz, at);
      TreeRepParts(t.next, t.prev, t.parent, t.child, t.F);
      RoomyPut(size0, room0, at, at, sz);
      return Placed(at);
    }
    var p := ptr.a;
    RefsHead(t.refs, t.hnext, t.hprev, t.ptr, t.F.refs, p);
    if t.refs[p].At? {
      return Aborted;
    }
    var q := Resize(t, p, sz, at);
    r := Placed(q);
  }

  lemma RoomyFewer(size0: map<Id, nat>, size: map<Id, nat>, room: map<Id, nat>)
    requires SizesKept(size0, size)
    ensures Roomy(size0, room) ==> Roomy(size, room)
  {}

  /** A size and the bytes for it change together. */
  lemma RoomyPut(size: map<Id, nat>, room: map<Id, nat>, p: Id, q: Id, sz: nat)
    ensures Roomy(size, room) ==> Roomy((size - {p})[q := sz], room[q := sz]) && Roomy(size[q := sz], room[q := sz])
  {}

  lemma RoomyShrunk(size: map<Id, nat>, room: map<Id, nat>, p: Id, sz: nat)
    requires p in size && sz <= size[p]
    ensures Roomy(size, room) ==> Roomy(size[p := sz], room)
  {}

  lemma PutAgain(m: map<Id, nat>, p: Id, n: nat)
    ensures (m - {p})[p := n] == m[p := n]
  {}

  /** The rest of `_talloc_realloc`, for a live chunk without references. */
  method Resize(t: Talloc, p: Id, sz: nat, at: Id) returns (q: Id)
    requires t.Valid() && t.F.flight == {} && p in t.F.up && p !in t.F.target && p in t.F.refs && t.F.refs[p] == []
    requires at !in t.F.up || at == p
    modifies t
    ensures t.Valid() && q in t.F.up && p in old(t.size) && t.size == (old(t.size) - {p})[q := sz]
    ensures Roomy(old(t.size), old(t.room)) ==> Roomy(t.size, t.room)
    ensures sz < old(t.size)[p] && old(t.size)[p] - sz < 1024 ==> q == p && t.room == old(t.room)
    ensures sz >= old(t.size)[p] || old(t.size)[p] - sz >= 1024 ==> q == at && t.room == old(t.room)[at := sz]
    ensures if q == p then t.F == old(t.F) else Moves(old(t.F), p, q) && t.F == Renamed(old(t.F), p, q)
  {
    hide WF, TreeRep, HandleRep, Renamed, Roomy;
    ghost var size0, room0 := t.size, t.room;
    TreeRepParts(t.next, t.prev, t.parent, t.child, t.F);
    HandleRepParts(t.refs, t.size, t.looping, t.refDestructor, t.hnext, t.hprev, t.ptr, t.F);
    PutAgain(t.size, p, sz);
    ResizedHandles(t.refs, t.size, t.looping, t.refDestructor, t.hnext, t.hprev, t.ptr, t.F, p, sz);
    // don't shrink if we have less than 1k to gain
    if sz < t.size[p] && t.size[p] - sz < 1024 {
      RoomyShrunk(t.size, t.room, p, sz);
      t.size := t.size[p := sz];
      return p;
    }
    RoomyPut(t.size, t.room, p, at, sz);
    if at == p {
      t.size, t.room := t.size[p := sz], t.room[p := sz];
    } else {
      MoveChunk(t, p, at, sz);
      TreeRepParts(t.next, t.prev, t.parent, t.child, t.F);
      HandleRepParts(t.refs, t.size, t.looping, t.refDestructor, t.hnext, t.hprev, t.ptr, t.F);
    }
    q := at;
  }

  lemma ResizedHandles(first: Links, size: map<Id, nat>, looping: set<Id>, refDestructor: set<Id>,
                       hnext: Links, hprev: Links, ptr: map<Id, Id>, F: Forest, p: Id, sz: nat)
    requires HandleRep(first, size, looping, refDestructor, hnext, hprev, ptr, F) && p in F.up
    ensures HandleRep(first, size[p := sz], looping, refDestructor, hnext, hprev, ptr, F)
  {
    hide RefsRep;
  }
}
