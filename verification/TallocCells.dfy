/** The links in talloc chunk headers and the list surgery on them.
    Each header field is a map from addresses: following a pointer that is not in the map is an error
    the verifier rules out, and freeing a chunk takes its address out of every map. */
module TallocCells {
  import opened TallocForest

  type Links = map<Id, Ptr>

  // ---------- how the headers represent a forest ----------

  /** The element of `s` at index `i`, or NULL past either end. */
  ghost function Elem(s: seq<Id>, i: int): Ptr {
    if 0 <= i < |s| then At(s[i]) else Null
  }

  ghost predicate Chained(next: Links, prev: Links, s: seq<Id>) {
    forall i {:trigger s[i]} :: 0 <= i < |s| ==>
      && s[i] in next && s[i] in prev
      && prev[s[i]] == Elem(s, i - 1)
      && next[s[i]] == Elem(s, i + 1)
  }

  /** Only the first child knows its parent. */
  ghost predicate Headed(parent: Links, s: seq<Id>, a: Id) {
    forall i {:trigger s[i]} :: 0 <= i < |s| ==>
      s[i] in parent && parent[s[i]] == (if i == 0 then At(a) else Null)
  }

  ghost predicate ListsRep(next: Links, prev: Links, parent: Links, child: Links, kids: map<Id, seq<Id>>) {
    forall a :: a in kids ==>
      && a in child && child[a] == Head(kids[a])
      && Chained(next, prev, kids[a]) && Headed(parent, kids[a], a)
  }

  ghost predicate Lone(next: Links, prev: Links, parent: Links, c: Id) {
    && c in next && c in prev && c in parent
    && next[c] == Null && prev[c] == Null && parent[c] == Null
  }

  ghost predicate RootsRep(next: Links, prev: Links, parent: Links, up: map<Id, Ptr>, flight: set<Id>) {
    forall c :: c in up && c !in flight && up[c] == Null ==> Lone(next, prev, parent, c)
  }

  /** A chunk in flight keeps the links it had: `prev` if it had a sibling before it, else `parent`. */
  ghost predicate FlightRep(prev: Links, parent: Links, up: map<Id, Ptr>, flight: set<Id>, stale: map<Id, Id>) {
    forall f :: f in flight ==>
      && f in prev && f in parent && f in up
      && prev[f] == (if f in stale then At(stale[f]) else Null)
      && parent[f] == (if f in stale then Null else up[f])
  }

  /** The reference lists: `first` in the chunk, links and `ptr` in the handles. */
  ghost predicate RefsRep(first: Links, hnext: Links, hprev: Links, ptr: map<Id, Id>, refs: map<Id, seq<Id>>) {
    forall c :: c in refs ==>
      && c in first && first[c] == Head(refs[c])
      && Chained(hnext, hprev, refs[c])
      && forall h :: h in refs[c] ==> h in ptr && ptr[h] == c
  }

  ghost predicate Keyed(next: Links, prev: Links, parent: Links, child: Links, live: set<Id>) {
    next.Keys == live && prev.Keys == live && parent.Keys == live && child.Keys == live
  }

  /** The tree links represent the well-formed forest F. */
  ghost predicate TreeRep(next: Links, prev: Links, parent: Links, child: Links, F: Forest) {
    var ok :=
      && WF(F)
      && Keyed(next, prev, parent, child, F.up.Keys)
      && ListsRep(next, prev, parent, child, F.kids)
      && RootsRep(next, prev, parent, F.up, F.flight)
      && FlightRep(prev, parent, F.up, F.flight, F.stale);
    ok
  }

  lemma TreeRepParts(next: Links, prev: Links, parent: Links, child: Links, F: Forest)
    requires TreeRep(next, prev, parent, child, F)
    ensures WF(F) && Keyed(next, prev, parent, child, F.up.Keys)
    ensures ListsRep(next, prev, parent, child, F.kids)
    ensures RootsRep(next, prev, parent, F.up, F.flight) && FlightRep(prev, parent, F.up, F.flight, F.stale)
    ensures next.Keys == F.up.Keys && prev.Keys == F.up.Keys && parent.Keys == F.up.Keys && child.Keys == F.up.Keys
  {}

  /** Chunks went, and the others kept their size. */
  ghost predicate SizesKept(m0: map<Id, nat>, m: map<Id, nat>) {
    forall x :: x in m ==> x in m0 && m[x] == m0[x]
  }

  /** No chunk uses more bytes than it was given. */
  ghost predicate Roomy(size: map<Id, nat>, room: map<Id, nat>) {
    forall x :: x in size ==> x in room && size[x] <= room[x]
  }

  lemma SizesKeptOn(m0: map<Id, nat>, m1: map<Id, nat>, m: map<Id, nat>)
    requires SizesKept(m0, m1) && SizesKept(m1, m)
    ensures SizesKept(m0, m)
  {}

  /** The flags and reference lists agree with F. */
  ghost predicate HandleRep(first: Links, size: map<Id, nat>, looping: set<Id>, refDestructor: set<Id>,
                            hnext: Links, hprev: Links, ptr: map<Id, Id>, F: Forest) {
    var ok :=
      && first.Keys == F.up.Keys && size.Keys == F.up.Keys
      && looping == F.flight && refDestructor == F.target.Keys
      && RefsRep(first, hnext, hprev, ptr, F.refs);
    ok
  }

  lemma HandleRepParts(first: Links, size: map<Id, nat>, looping: set<Id>, refDestructor: set<Id>,
                       hnext: Links, hprev: Links, ptr: map<Id, Id>, F: Forest)
    requires HandleRep(first, size, looping, refDestructor, hnext, hprev, ptr, F)
    ensures first.Keys == F.up.Keys && size.Keys == F.up.Keys
    ensures looping == F.flight && refDestructor == F.target.Keys
    ensures RefsRep(first, hnext, hprev, ptr, F.refs)
  {}

  lemma HandleRepSame(first: Links, size: map<Id, nat>, looping: set<Id>, refDestructor: set<Id>,
                      hnext: Links, hprev: Links, ptr: map<Id, Id>, F: Forest, G: Forest)
    requires HandleRep(first, size, looping, refDestructor, hnext, hprev, ptr, F)
    requires G.up.Keys == F.up.Keys && G.flight == F.flight && G.target == F.target && G.refs == F.refs
    ensures HandleRep(first, size, looping, refDestructor, hnext, hprev, ptr, G)
  {
    hide RefsRep;
  }

  // ---------- one list at a time ----------

  /** `n` and `v` agree with `next` and `prev` except on `touched`. */
  ghost predicate Apart(next: Links, n: Links, touched: set<Id>) {
    n.Keys == next.Keys && forall x :: x in next && x !in touched ==> n[x] == next[x]
  }

  ghost function Members(s: seq<Id>): set<Id> {
    set x | x in s
  }

  lemma ChainedHere(next: Links, prev: Links, s: seq<Id>, i: nat)
    requires Chained(next, prev, s) && i < |s|
    ensures s[i] in next && s[i] in prev && prev[s[i]] == Elem(s, i - 1) && next[s[i]] == Elem(s, i + 1)
  {}

  lemma ChainedFrame(next: Links, prev: Links, n: Links, v: Links, s: seq<Id>, touched: set<Id>)
    requires Chained(next, prev, s) && Apart(next, n, touched) && Apart(prev, v, touched)
    requires forall x :: x in s ==> x !in touched
    ensures Chained(n, v, s)
  {
    forall i | 0 <= i < |s| ensures s[i] !in touched {
      var x := s[i];
      assert x in s;
    }
  }

  lemma HeadedFrame(parent: Links, p: Links, s: seq<Id>, a: Id, touched: set<Id>)
    requires Headed(parent, s, a) && Apart(parent, p, touched)
    requires forall x :: x in s ==> x !in touched
    ensures Headed(p, s, a)
  {
    forall i | 0 <= i < |s| ensures s[i] in p && p[s[i]] == if i == 0 then At(a) else Null {
      var x := s[i];
      assert x in s;
      assert p[x] == parent[x];
    }
  }

  // ---------- an element leaves ----------

  /** The chain after its first element was taken out. */
  lemma ChainedTail(next: Links, prev: Links, n: Links, v: Links, s: seq<Id>)
    requires s != [] && Distinct(s) && Chained(next, prev, s)
    requires n == next[s[0] := Null]
    requires v == if |s| > 1 then prev[s[1] := Null][s[0] := Null] else prev[s[0] := Null]
    ensures Chained(n, v, s[1..])
  {
    var t := s[1..];
    forall i | 0 <= i < |t|
      ensures t[i] in n && t[i] in v && v[t[i]] == Elem(t, i - 1) && n[t[i]] == Elem(t, i + 1)
    {
      assert t[i] == s[i + 1];
      ChainedHere(next, prev, s, i + 1);
    }
  }

  lemma DistinctAt(s: seq<Id>, j: nat, k: nat)
    requires Distinct(s) && j < |s| && k < |s|
    ensures s[j] == s[k] <==> j == k
  {}

  lemma BridgeAt(next: Links, prev: Links, n: Links, v: Links, s: seq<Id>, i: nat, j: nat)
    requires 0 < i < |s| && Distinct(s) && Chained(next, prev, s)
    requires n == next[s[i - 1] := Elem(s, i + 1)]
    requires v == if i + 1 < |s| then prev[s[i + 1] := At(s[i - 1])] else prev
    requires j < |s| && j != i
    ensures s[j] in n && s[j] in v
    ensures n[s[j]] == if j == i - 1 then Elem(s, i + 1) else Elem(s, j + 1)
    ensures v[s[j]] == if j == i + 1 then Elem(s, i - 1) else Elem(s, j - 1)
  {
    hide Distinct, Chained;
    ChainedHere(next, prev, s, j);
    DistinctAt(s, j, i - 1);
    if i + 1 < |s| {
      DistinctAt(s, j, i + 1);
    }
  }

  lemma BridgeElem(s: seq<Id>, i: nat, k: int)
    requires i < |s|
    ensures Elem(s[..i] + s[i + 1..], k) == if k < i then Elem(s, k) else Elem(s, k + 1)
  {}

  lemma BridgeStep(next: Links, prev: Links, n: Links, v: Links, s: seq<Id>, i: nat, k: nat)
    requires 0 < i < |s| && k + 1 < |s| && Distinct(s) && Chained(next, prev, s)
    requires n == next[s[i - 1] := Elem(s, i + 1)]
    requires v == if i + 1 < |s| then prev[s[i + 1] := At(s[i - 1])] else prev
    ensures var t := s[..i] + s[i + 1..];
      t[k] in n && t[k] in v && v[t[k]] == Elem(t, k - 1) && n[t[k]] == Elem(t, k + 1)
  {
    hide Distinct, Chained, Elem;
    BridgeAt(next, prev, n, v, s, i, if k < i then k else k + 1);
    BridgeElem(s, i, k + 1);
    BridgeElem(s, i, k - 1);
  }

  /** The chain after the element at index `i` was bridged. */
  lemma ChainedBridge(next: Links, prev: Links, n: Links, v: Links, s: seq<Id>, i: nat)
    requires 0 < i < |s| && Distinct(s) && Chained(next, prev, s)
    requires n == next[s[i - 1] := Elem(s, i + 1)]
    requires v == if i + 1 < |s| then prev[s[i + 1] := At(s[i - 1])] else prev
    ensures Chained(n, v, s[..i] + s[i + 1..])
  {
    hide Distinct;
    var t := s[..i] + s[i + 1..];
    forall k: nat | k < |t|
      ensures t[k] in n && t[k] in v && v[t[k]] == Elem(t, k - 1) && n[t[k]] == Elem(t, k + 1)
    {
      BridgeStep(next, prev, n, v, s, i, k);
    }
  }

  lemma HeadedTail(parent: Links, p: Links, s: seq<Id>, a: Id)
    requires s != [] && Distinct(s) && Headed(parent, s, a)
    requires p == if |s| > 1 then parent[s[1] := At(a)] else parent
    ensures Headed(p, s[1..], a)
  {
    var t := s[1..];
    forall i | 0 <= i < |t| ensures t[i] in p && p[t[i]] == if i == 0 then At(a) else Null {
      assert t[i] == s[i + 1];
    }
  }

  lemma HeadedBridge(parent: Links, s: seq<Id>, a: Id, i: nat)
    requires 0 < i < |s| && Headed(parent, s, a)
    ensures Headed(parent, s[..i] + s[i + 1..], a)
  {
    var t := s[..i] + s[i + 1..];
    forall k | 0 <= k < |t| ensures t[k] in parent && parent[t[k]] == if k == 0 then At(a) else Null {
      assert t[k] == s[if k < i then k else k + 1];
    }
  }

  // ---------- an element enters at the front ----------

  lemma ChainedFront(next: Links, prev: Links, n: Links, v: Links, s: seq<Id>, c: Id)
    requires Chained(next, prev, s) && c !in s && Distinct(s)
    requires n == next[c := Head(s)]
    requires v == if s == [] then prev[c := Null] else prev[s[0] := At(c)][c := Null]
    ensures Chained(n, v, [c] + s)
  {
    var t := [c] + s;
    forall k | 0 <= k < |t|
      ensures t[k] in n && t[k] in v && v[t[k]] == Elem(t, k - 1) && n[t[k]] == Elem(t, k + 1)
    {
      if k > 0 {
        assert t[k] == s[k - 1];
        ChainedHere(next, prev, s, k - 1);
      }
    }
  }

  lemma HeadedFront(parent: Links, p: Links, s: seq<Id>, a: Id, c: Id)
    requires Headed(parent, s, a) && c !in s && Distinct(s)
    requires p == if s == [] then parent[c := At(a)] else parent[s[0] := Null][c := At(a)]
    ensures Headed(p, [c] + s, a)
  {
    var t := [c] + s;
    forall k | 0 <= k < |t| ensures t[k] in p && p[t[k]] == if k == 0 then At(a) else Null {
      if k > 0 {
        assert t[k] == s[k - 1];
      }
    }
  }

  // ---------- all lists ----------

  lemma KidsOf(up: map<Id, Ptr>, kids: map<Id, seq<Id>>, flight: set<Id>, b: Id)
    requires KidsOk(up, kids, flight) && b in kids
    ensures Distinct(kids[b])
    ensures forall x :: x in kids[b] ==> x in up && x !in flight && up[x] == At(b)
  {}

  /** Links touched only at children of `a` leave the lists of everyone else as they were. */
  lemma OtherLists(next: Links, prev: Links, parent: Links, child: Links, n: Links, v: Links, p: Links, ch: Links,
                   up: map<Id, Ptr>, kids: map<Id, seq<Id>>, flight: set<Id>, a: Id, touched: set<Id>)
    requires KidsOk(up, kids, flight) && ListsRep(next, prev, parent, child, kids)
    requires Apart(next, n, touched) && Apart(prev, v, touched) && Apart(parent, p, touched) && Apart(child, ch, {a})
    requires forall x :: x in touched && x in up && x !in flight ==> up[x] == At(a)
    ensures ListsRep(n, v, p, ch, kids - {a})
  {
    forall b | b in kids && b != a
      ensures b in ch && ch[b] == Head(kids[b]) && Chained(n, v, kids[b]) && Headed(p, kids[b], b)
    {
      hide KidsOk, Chained, Headed;
      KidsOf(up, kids, flight, b);
      ChainedFrame(next, prev, n, v, kids[b], touched);
      HeadedFrame(parent, p, kids[b], b, touched);
    }
  }

  lemma OneMoreList(n: Links, v: Links, p: Links, ch: Links, kids: map<Id, seq<Id>>, a: Id, t: seq<Id>)
    requires ListsRep(n, v, p, ch, kids - {a})
    requires a in ch && ch[a] == Head(t) && Chained(n, v, t) && Headed(p, t, a)
    ensures ListsRep(n, v, p, ch, kids[a := t])
  {
    hide Chained, Headed;
    forall b | b in kids[a := t] && b != a ensures b in kids - {a} {}
  }

  /** Roots and chunks in flight keep their links when only children of `a` are touched. */
  lemma OtherChunks(next: Links, prev: Links, parent: Links, n: Links, v: Links, p: Links, F: Forest, a: Id,
                    touched: set<Id>)
    requires RootsRep(next, prev, parent, F.up, F.flight) && FlightRep(prev, parent, F.up, F.flight, F.stale)
    requires Apart(next, n, touched) && Apart(prev, v, touched) && Apart(parent, p, touched)
    requires forall x :: x in touched ==> x in F.up && x !in F.flight && F.up[x] == At(a)
    ensures RootsRep(n, v, p, F.up, F.flight) && FlightRep(v, p, F.up, F.flight, F.stale)
  {}

  // ---------- reading links ----------

  ghost function IndexOf(s: seq<Id>, c: Id): nat {
    if s == [] || s[0] == c then 0 else 1 + IndexOf(s[1..], c)
  }

  lemma {:induction false} IndexOfAt(s: seq<Id>, i: nat)
    requires i < |s| && Distinct(s)
    ensures IndexOf(s, s[i]) == i
  {
    if i > 0 {
      IndexOfAt(s[1..], i - 1);
    }
  }

  ghost function Place(F: Forest, x: Id): nat {
    if x in F.up && F.up[x].At? && F.up[x].a in F.kids then IndexOf(F.kids[F.up[x].a], x) else 0
  }

  lemma NotOwnKid(F: Forest, a: Id)
    requires KidsOk(F.up, F.kids, F.flight) && Forested(F.up) && a in F.kids
    ensures a !in F.kids[a]
  {
    KidsOf(F.up, F.kids, F.flight, a);
    var rank :| Ranked(F.up, rank);
  }

  /** Where a listed chunk sits. */
  lemma Listed(F: Forest, p: Id) returns (a: Id, i: nat)
    requires Shape(F) && KidsOk(F.up, F.kids, F.flight) && Forested(F.up) && p in F.up && p !in F.flight && F.up[p].At?
    ensures F.up[p] == At(a) && a in F.kids && a in F.up
    ensures i < |F.kids[a]| && F.kids[a][i] == p && Distinct(F.kids[a]) && a !in F.kids[a]
    ensures PrevOf(F, p) == Elem(F.kids[a], i - 1) && Place(F, p) == i
  {
    ParentLive(F, p);
    NotOwnKid(F, F.up[p].a);
    a := F.up[p].a;
    i :| 0 <= i < |F.kids[a]| && F.kids[a][i] == p;
    BeforeAt(F.kids[a], i);
    IndexOfAt(F.kids[a], i);
  }

  /** The links of a listed chunk. */
  lemma ListedLinks(next: Links, prev: Links, parent: Links, child: Links, F: Forest, p: Id)
    returns (a: Id, i: nat)
    requires TreeRep(next, prev, parent, child, F) && p in F.up && p !in F.flight && F.up[p].At?
    ensures F.up[p] == At(a) && a in F.kids && a in F.up && a in child && child[a] == Head(F.kids[a])
    ensures i < |F.kids[a]| && F.kids[a][i] == p && Distinct(F.kids[a]) && a !in F.kids[a]
    ensures PrevOf(F, p) == Elem(F.kids[a], i - 1) && Place(F, p) == i
    ensures Chained(next, prev, F.kids[a]) && Headed(parent, F.kids[a], a)
    ensures p in next && p in prev && p in parent
    ensures next[p] == Elem(F.kids[a], i + 1) && prev[p] == PrevOf(F, p)
    ensures parent[p] == if PrevOf(F, p).At? then Null else F.up[p]
  {
    hide *;
    TreeRepParts(next, prev, parent, child, F);
    WFParts(F);
    a, i := Listed(F, p);
    ListAt(next, prev, parent, child, F.kids, a);
    ChainedHere(next, prev, F.kids[a], i);
    HeadedHere(parent, F.kids[a], a, i);
    ElemIs(F.kids[a], i);
  }

  lemma ElemIs(s: seq<Id>, i: nat)
    requires i < |s|
    ensures Elem(s, i - 1) == if i == 0 then Null else At(s[i - 1])
    ensures Elem(s, i + 1) == if i + 1 == |s| then Null else At(s[i + 1])
  {}

  /** One step of the walk that looks for the parent. */
  lemma WalkBack(next: Links, prev: Links, parent: Links, child: Links, F: Forest, x: Id)
    requires TreeRep(next, prev, parent, child, F) && x in F.up && (x in F.flight ==> LivePrev(F, x))
    ensures x in prev && x in parent
    ensures prev[x].Null? ==> parent[x] == F.up[x]
    ensures prev[x].At? ==>
      var s := prev[x].a;
      && s in F.up && s !in F.flight && F.up[s] == F.up[x]
      && (x in F.flight || Place(F, s) < Place(F, x))
  {
    hide *;
    TreeRepParts(next, prev, parent, child, F);
    if x in F.flight {
      WalkBackFlight(next, prev, parent, F, x);
    } else if F.up[x].At? {
      var a, i := ListedLinks(next, prev, parent, child, F, x);
      ElemIs(F.kids[a], i);
      if prev[x].At? {
        WFParts(F);
        PrevOfSibling(F, x);
        IndexOfAt(F.kids[a], i - 1);
        PlaceIs(F, F.kids[a][i - 1], a);
      }
    } else {
      RootLinks(next, prev, parent, F, x);
    }
  }

  lemma PlaceIs(F: Forest, x: Id, a: Id)
    requires x in F.up && F.up[x] == At(a) && a in F.kids
    ensures Place(F, x) == IndexOf(F.kids[a], x)
  {}

  lemma RootLinks(next: Links, prev: Links, parent: Links, F: Forest, x: Id)
    requires RootsRep(next, prev, parent, F.up, F.flight) && x in F.up && x !in F.flight && F.up[x].Null?
    ensures x in prev && x in parent && prev[x] == Null && parent[x] == Null
  {
    assert Lone(next, prev, parent, x);
  }

  lemma WalkBackFlight(next: Links, prev: Links, parent: Links, F: Forest, x: Id)
    requires WF(F) && FlightRep(prev, parent, F.up, F.flight, F.stale) && x in F.flight && LivePrev(F, x)
    ensures x in prev && x in parent && x in F.up
    ensures prev[x].Null? ==> parent[x] == F.up[x]
    ensures prev[x].At? ==>
      var s := prev[x].a;
      s in F.up && s !in F.flight && F.up[s] == F.up[x]
  {}

  // ---------- unlinking, as the source does it ----------

  /** `p` is off its sibling list and still carries the links that listed it. */
  ghost predicate Unhooked(next: Links, prev: Links, parent: Links, child: Links, F: Forest, p: Id) {
    && Keyed(next, prev, parent, child, F.up.Keys)
    && p in F.up && (F.up[p].At? ==> F.up[p].a in F.kids)
    && ListsRep(next, prev, parent, child, Unlisted(F, p))
    && RootsRep(next, prev, parent, F.up, F.flight + {p})
    && FlightRep(prev, parent, F.up, F.flight, F.stale)
    && prev[p] == PrevOf(F, p)
    && parent[p] == if PrevOf(F, p).At? then Null else F.up[p]
  }

  lemma ListApart(F: Forest, a: Id)
    requires KidsOk(F.up, F.kids, F.flight) && a in F.kids
    ensures Distinct(F.kids[a])
    ensures forall x :: x in Members(F.kids[a]) ==> x in F.up && x !in F.flight && F.up[x] == At(a)
  {}

  lemma UnhookedFirst(next: Links, prev: Links, parent: Links, child: Links,
                      n: Links, v: Links, p: Links, ch: Links, F: Forest, c: Id, a: Id)
    requires TreeRep(next, prev, parent, child, F) && c in F.up && F.up[c] == At(a) && a in F.kids
    requires F.kids[a] != [] && F.kids[a][0] == c
    requires n == next[c := Null] && ch == child[a := Head(F.kids[a][1..])]
    requires v == if |F.kids[a]| > 1 then prev[F.kids[a][1] := Null][c := Null] else prev[c := Null]
    requires p == if |F.kids[a]| > 1 then parent[F.kids[a][1] := At(a)] else parent
    ensures Unhooked(n, v, p, ch, F, c)
  {
    hide *;
    var s := F.kids[a];
    TreeRepParts(next, prev, parent, child, F);
    WFParts(F);
    ListApart(F, a);
    ListAt(next, prev, parent, child, F.kids, a);
    WithoutAt(s, 0);
    assert s[..0] + s[1..] == s[1..];
    FirstChild(next, prev, parent, n, v, p, s, a);
    UnhookedList(next, prev, parent, child, n, v, p, ch, F, c, a, s[1..]);
    BeforeAt(s, 0);
    ChainedHere(next, prev, s, 0);
    HeadedHere(parent, s, a, 0);
    ChainedKeys(next, prev, s, 0);
    if |s| > 1 {
      DistinctAt(s, 0, 1);
    }
    KeyedFirst(next, prev, parent, child, n, v, p, ch, F.up.Keys, s, a);
    UnhookedAt(next, prev, parent, child, n, v, p, ch, F, c, a, 0);
  }

  lemma KeyedFirst(next: Links, prev: Links, parent: Links, child: Links,
                   n: Links, v: Links, p: Links, ch: Links, live: set<Id>, s: seq<Id>, a: Id)
    requires Keyed(next, prev, parent, child, live) && s != [] && s[0] in live && a in live
    requires |s| > 1 ==> s[1] in live && s[0] != s[1]
    requires n == next[s[0] := Null] && ch == child[a := Head(s[1..])]
    requires v == if |s| > 1 then prev[s[1] := Null][s[0] := Null] else prev[s[0] := Null]
    requires p == if |s| > 1 then parent[s[1] := At(a)] else parent
    ensures Keyed(n, v, p, ch, live) && v[s[0]] == Null && p[s[0]] == parent[s[0]]
  {}

  lemma HeadedHere(parent: Links, s: seq<Id>, a: Id, i: nat)
    requires Headed(parent, s, a) && i < |s|
    ensures s[i] in parent && parent[s[i]] == if i == 0 then At(a) else Null
  {}

  lemma UnhookedAt(next: Links, prev: Links, parent: Links, child: Links,
                   n: Links, v: Links, p: Links, ch: Links, F: Forest, c: Id, a: Id, i: nat)
    requires Keyed(next, prev, parent, child, F.up.Keys) && c in F.up && F.up[c] == At(a) && a in F.kids
    requires Keyed(n, v, p, ch, F.up.Keys)
    requires Before(F.kids[a], c) == if i == 0 then Null else v[c]
    requires p[c] == if i == 0 then At(a) else Null
    requires v[c] == if i == 0 then Null else v[c]
    requires i > 0 ==> v[c].At?
    requires ListsRep(n, v, p, ch, Unlisted(F, c))
    requires RootsRep(n, v, p, F.up, F.flight + {c}) && FlightRep(v, p, F.up, F.flight, F.stale)
    ensures Unhooked(n, v, p, ch, F, c)
  {
    hide Before, ListsRep, RootsRep, FlightRep, Unlisted;
  }

  lemma ListAt(next: Links, prev: Links, parent: Links, child: Links, kids: map<Id, seq<Id>>, a: Id)
    requires ListsRep(next, prev, parent, child, kids) && a in kids
    ensures a in child && child[a] == Head(kids[a]) && Chained(next, prev, kids[a]) && Headed(parent, kids[a], a)
  {}

  lemma RootsMore(next: Links, prev: Links, parent: Links, up: map<Id, Ptr>, flight: set<Id>, c: Id)
    requires RootsRep(next, prev, parent, up, flight)
    ensures RootsRep(next, prev, parent, up, flight + {c})
  {}

  lemma FirstChild(next: Links, prev: Links, parent: Links, n: Links, v: Links, p: Links, s: seq<Id>, a: Id)
    requires Chained(next, prev, s) && Headed(parent, s, a) && s != [] && Distinct(s)
    requires n == next[s[0] := Null]
    requires v == if |s| > 1 then prev[s[1] := Null][s[0] := Null] else prev[s[0] := Null]
    requires p == if |s| > 1 then parent[s[1] := At(a)] else parent
    ensures Chained(n, v, s[1..]) && Headed(p, s[1..], a)
    ensures Apart(next, n, Members(s)) && Apart(prev, v, Members(s)) && Apart(parent, p, Members(s))
  {
    ChainedTail(next, prev, n, v, s);
    HeadedTail(parent, p, s, a);
    ChainedHere(next, prev, s, 0);
    if |s| > 1 {
      ChainedHere(next, prev, s, 1);
      assert s[1] in s;
    }
  }

  lemma LaterChild(next: Links, prev: Links, parent: Links, n: Links, v: Links, s: seq<Id>, a: Id, i: nat)
    requires Chained(next, prev, s) && Headed(parent, s, a) && 0 < i < |s| && Distinct(s)
    requires n == next[s[i - 1] := Elem(s, i + 1)]
    requires v == if i + 1 < |s| then prev[s[i + 1] := At(s[i - 1])] else prev
    ensures Chained(n, v, s[..i] + s[i + 1..]) && Headed(parent, s[..i] + s[i + 1..], a)
    ensures Apart(next, n, Members(s)) && Apart(prev, v, Members(s))
  {
    ChainedBridge(next, prev, n, v, s, i);
    HeadedBridge(parent, s, a, i);
    ChainedHere(next, prev, s, i - 1);
    assert s[i - 1] in s;
    if i + 1 < |s| {
      ChainedHere(next, prev, s, i + 1);
      assert s[i + 1] in s;
    }
  }

  lemma UnhookedLater(next: Links, prev: Links, parent: Links, child: Links,
                      n: Links, v: Links, F: Forest, c: Id, a: Id, i: nat)
    requires TreeRep(next, prev, parent, child, F) && c in F.up && F.up[c] == At(a) && a in F.kids
    requires 0 < i < |F.kids[a]| && F.kids[a][i] == c
    requires n == next[F.kids[a][i - 1] := Elem(F.kids[a], i + 1)]
    requires v == if i + 1 < |F.kids[a]| then prev[F.kids[a][i + 1] := At(F.kids[a][i - 1])] else prev
    ensures Unhooked(n, v, parent, child, F, c)
  {
    hide *;
    var s := F.kids[a];
    TreeRepParts(next, prev, parent, child, F);
    WFParts(F);
    ListApart(F, a);
    ListAt(next, prev, parent, child, F.kids, a);
    WithoutAt(s, i);
    LaterChild(next, prev, parent, n, v, s, a, i);
    HeadKept(s, i);
    assert child[a := child[a]] == child;
    ApartSelf(parent, Members(s));
    UnhookedList(next, prev, parent, child, n, v, parent, child, F, c, a, s[..i] + s[i + 1..]);
    BeforeAt(s, i);
    ChainedHere(next, prev, s, i);
    HeadedHere(parent, s, a, i);
    ChainedKeys(next, prev, s, i);
    ElemBefore(s, i);
    BridgedAt(next, prev, n, v, s, i);
    KeyedBridge(next, prev, parent, child, n, v, F.up.Keys, s, i);
    UnhookedAt(next, prev, parent, child, n, v, parent, child, F, c, a, i);
  }

  lemma ElemBefore(s: seq<Id>, i: nat)
    requires 0 < i < |s|
    ensures Elem(s, i - 1) == At(s[i - 1])
  {}

  lemma BridgedAt(next: Links, prev: Links, n: Links, v: Links, s: seq<Id>, i: nat)
    requires 0 < i < |s| && Distinct(s) && Chained(next, prev, s)
    requires v == if i + 1 < |s| then prev[s[i + 1] := At(s[i - 1])] else prev
    ensures s[i] in v && v[s[i]] == prev[s[i]]
  {
    ChainedHere(next, prev, s, i);
    if i + 1 < |s| {
      DistinctAt(s, i, i + 1);
    }
  }

  lemma KeyedBridge(next: Links, prev: Links, parent: Links, child: Links, n: Links, v: Links, live: set<Id>,
                    s: seq<Id>, i: nat)
    requires Keyed(next, prev, parent, child, live) && 0 < i < |s|
    requires s[i - 1] in next && (i + 1 < |s| ==> s[i + 1] in prev)
    requires n == next[s[i - 1] := Elem(s, i + 1)]
    requires v == if i + 1 < |s| then prev[s[i + 1] := At(s[i - 1])] else prev
    ensures Keyed(n, v, parent, child, live)
  {}

  lemma HeadKept(s: seq<Id>, i: nat)
    requires 0 < i < |s|
    ensures Head(s) == Head(s[..i] + s[i + 1..])
  {}

  lemma ApartSelf(m: Links, touched: set<Id>)
    ensures Apart(m, m, touched)
  {}

  lemma ApartOne(m: Links, a: Id, x: Ptr)
    requires a in m
    ensures Apart(m, m[a := x], {a})
  {}

  lemma UnhookedList(next: Links, prev: Links, parent: Links, child: Links,
                     n: Links, v: Links, p: Links, ch: Links, F: Forest, c: Id, a: Id, t: seq<Id>)
    requires WF(F) && ListsRep(next, prev, parent, child, F.kids) && c in F.up && F.up[c] == At(a) && a in F.kids
    requires RootsRep(next, prev, parent, F.up, F.flight) && FlightRep(prev, parent, F.up, F.flight, F.stale)
    requires forall x :: x in Members(F.kids[a]) ==> x in F.up && x !in F.flight && F.up[x] == At(a)
    requires t == Without(F.kids[a], c) && ch == child[a := Head(t)]
    requires Apart(next, n, Members(F.kids[a])) && Apart(prev, v, Members(F.kids[a]))
    requires Apart(parent, p, Members(F.kids[a]))
    requires Chained(n, v, t) && Headed(p, t, a)
    ensures ListsRep(n, v, p, ch, Unlisted(F, c))
    ensures RootsRep(n, v, p, F.up, F.flight + {c}) && FlightRep(v, p, F.up, F.flight, F.stale)
  {
    hide *;
    WFParts(F);
    ListAt(next, prev, parent, child, F.kids, a);
    ApartOne(child, a, Head(t));
    OtherLists(next, prev, parent, child, n, v, p, ch, F.up, F.kids, F.flight, a, Members(F.kids[a]));
    OneMoreList(n, v, p, ch, F.kids, a, t);
    UnlistedIs(F, c, a);
    OtherChunks(next, prev, parent, n, v, p, F, a, Members(F.kids[a]));
    RootsMore(n, v, p, F.up, F.flight, c);
  }

  lemma UnlistedIs(F: Forest, c: Id, a: Id)
    requires c in F.up && F.up[c] == At(a) && a in F.kids
    ensures Unlisted(F, c) == F.kids[a := Without(F.kids[a], c)]
  {}

  /** The neighbours of a chained element have links of their own. */
  lemma ChainedKeys(next: Links, prev: Links, s: seq<Id>, i: nat)
    requires Chained(next, prev, s) && i < |s|
    ensures i > 0 ==> s[i - 1] in next && s[i - 1] in prev
    ensures i + 1 < |s| ==> s[i + 1] in next && s[i + 1] in prev
  {
    if i > 0 {
      ChainedHere(next, prev, s, i - 1);
    }
    if i + 1 < |s| {
      ChainedHere(next, prev, s, i + 1);
    }
  }

  lemma UnhookedLone(next: Links, prev: Links, parent: Links, child: Links, F: Forest, p: Id)
    requires TreeRep(next, prev, parent, child, F) && p in F.up && p !in F.flight && F.up[p].Null?
    ensures prev[p] == Null && parent[p] == Null
    ensures Unhooked(next, prev, parent, child, F, p)
  {
    assert Lone(next, prev, parent, p);
    hide ListsRep, FlightRep;
    assert RootsRep(next, prev, parent, F.up, F.flight + {p});
  }

  lemma EmptyForestWF()
    ensures WF(EMPTY_FOREST)
  {
    assert Ranked(EMPTY_FOREST.up, map[]);
  }

  lemma EmptyRep(next: Links, prev: Links, parent: Links, child: Links, first: Links, hnext: Links, hprev: Links,
                 ptr: map<Id, Id>)
    requires next == map[] && prev == map[] && parent == map[] && child == map[]
    ensures TreeRep(next, prev, parent, child, EMPTY_FOREST) && RefsRep(first, hnext, hprev, ptr, EMPTY_FOREST.refs)
  {
    EmptyForestWF();
    hide WF;
  }

  // ---------- a chunk becomes the first child of another ----------

  /** Links touched only outside the other lists leave those lists as they were. */
  lemma UntouchedLists(next: Links, prev: Links, parent: Links, child: Links, n: Links, v: Links, p: Links, ch: Links,
                       kids: map<Id, seq<Id>>, a: Id, touched: set<Id>)
    requires ListsRep(next, prev, parent, child, kids)
    requires Apart(next, n, touched) && Apart(prev, v, touched) && Apart(parent, p, touched) && Apart(child, ch, {a})
    requires forall b, x :: b in kids && b != a && x in kids[b] ==> x !in touched
    ensures ListsRep(n, v, p, ch, kids - {a})
  {
    forall b | b in kids && b != a
      ensures b in ch && ch[b] == Head(kids[b]) && Chained(n, v, kids[b]) && Headed(p, kids[b], b)
    {
      hide Chained, Headed;
      ChainedFrame(next, prev, n, v, kids[b], touched);
      HeadedFrame(parent, p, kids[b], b, touched);
    }
  }

  /** What `HookFront` does to the links, `s` being the old child list of `q`. */
  ghost predicate Fronted(next: Links, prev: Links, parent: Links, child: Links,
                          n: Links, v: Links, p: Links, ch: Links, s: seq<Id>, c: Id, q: Id) {
    && n == next[c := Head(s)] && ch == child[q := At(c)]
    && v == (if s == [] then prev[c := Null] else prev[s[0] := At(c)][c := Null])
    && p == (if s == [] then parent[c := At(q)] else parent[s[0] := Null][c := At(q)])
  }

  lemma FrontedLists(next: Links, prev: Links, parent: Links, child: Links, n: Links, v: Links, p: Links, ch: Links,
                     kids: map<Id, seq<Id>>, c: Id, q: Id)
    requires ListsRep(next, prev, parent, child, kids) && q in kids && Distinct(kids[q])
    requires Fronted(next, prev, parent, child, n, v, p, ch, kids[q], c, q)
    requires c in next && c in prev && c in parent
    requires forall b :: b in kids ==> c !in kids[b]
    requires forall b :: b in kids && b != q && kids[q] != [] ==> kids[q][0] !in kids[b]
    ensures ListsRep(n, v, p, ch, kids[q := [c] + kids[q]])
  {
    var s := kids[q];
    var touched := if s == [] then {c} else {c, s[0]};
    hide Distinct, Chained, Headed;
    ListAt(next, prev, parent, child, kids, q);
    FrontApart(next, prev, parent, child, n, v, p, ch, s, c, q, touched);
    ChainedFront(next, prev, n, v, s, c);
    HeadedFront(parent, p, s, q, c);
    UntouchedLists(next, prev, parent, child, n, v, p, ch, kids, q, touched);
    OneMoreList(n, v, p, ch, kids, q, [c] + s);
  }

  lemma FrontApart(next: Links, prev: Links, parent: Links, child: Links, n: Links, v: Links, p: Links, ch: Links,
                   s: seq<Id>, c: Id, q: Id, touched: set<Id>)
    requires Chained(next, prev, s) && Headed(parent, s, q) && q in child && c in next && c in prev && c in parent
    requires Fronted(next, prev, parent, child, n, v, p, ch, s, c, q)
    requires touched == if s == [] then {c} else {c, s[0]}
    ensures Apart(next, n, touched) && Apart(prev, v, touched) && Apart(parent, p, touched) && Apart(child, ch, {q})
    ensures ch[q] == Head([c] + s)
  {
    if s != [] {
      ChainedHere(next, prev, s, 0);
      HeadedHere(parent, s, q, 0);
    }
  }

  lemma FrontedRoots(next: Links, prev: Links, parent: Links, n: Links, v: Links, p: Links,
                     up: map<Id, Ptr>, flight: set<Id>, stale: map<Id, Id>, s: seq<Id>, c: Id, q: Id, touched: set<Id>)
    requires RootsRep(next, prev, parent, up, flight + {c}) && FlightRep(prev, parent, up, flight, stale)
    requires Apart(next, n, touched) && Apart(prev, v, touched) && Apart(parent, p, touched)
    requires c in up && c !in flight && touched <= {c} + Members(s)
    requires forall x :: x in s ==> x in up && x !in flight && up[x] == At(q)
    ensures RootsRep(n, v, p, up[c := At(q)], flight) && FlightRep(v, p, up[c := At(q)], flight, stale)
  {}

  lemma MovedKids(F: Forest, c: Id, q: Ptr)
    requires Shape(F) && KidsOk(F.up, F.kids, F.flight) && c in F.up && (F.up[c].At? ==> F.up[c].a in F.kids)
    requires q.At? ==> q.a in F.kids
    ensures var k := Unlisted(F, c);
      && k.Keys == F.kids.Keys
      && (forall b :: b in k ==> c !in k[b] && Distinct(k[b]))
      && (forall b, x :: b in k && x in k[b] ==> x in F.up && x !in F.flight && F.up[x] == At(b))
      && Move(F, c, q).kids == if q.At? then k[q.a := [c] + k[q.a]] else k
  {
    UnlistedMembers(F, c);
  }

  /** Moving `c` to `q` makes sense and keeps the forest well formed. */
  ghost predicate Movable(F: Forest, c: Id, q: Ptr) {
    var ok :=
      && WF(F) && Shape(F) && c in F.up && c !in F.flight
      && (F.up[c].At? ==> F.up[c].a in F.kids) && (q.At? ==> q.a in F.kids)
      && WF(Move(F, c, q));
    ok
  }

  /** `Move`, or F where there is nothing to move. */
  ghost function Relinked(F: Forest, c: Id, q: Ptr): Forest {
    if Shape(F) && c in F.up && (F.up[c].At? ==> F.up[c].a in F.kids) && (q.At? ==> q.a in F.kids)
    then Move(F, c, q) else F
  }

  lemma MovableParts(F: Forest, c: Id, q: Ptr)
    requires Movable(F, c, q)
    ensures c in F.up && Shape(F) && (F.up[c].At? ==> F.up[c].a in F.kids) && (q.At? ==> q.a in F.kids)
    ensures Relinked(F, c, q) == Move(F, c, q)
    ensures Shape(F) && KidsOk(F.up, F.kids, F.flight) && c in F.up && c !in F.flight
    ensures (F.up[c].At? ==> F.up[c].a in F.kids) && (q.At? ==> q.a in F.kids && q.a in F.up)
    ensures WF(Move(F, c, q))
  {}

  lemma MovableIf(F: Forest, c: Id, q: Ptr)
    requires WF(F) && c in F.up && c !in F.flight
    requires q.At? ==> q.a in F.up && !Below(F.up, q.a, c) && q.a !in F.target
    ensures Movable(F, c, q)
  {
    MoveWF(F, c, q);
    hide KidsOk, RefsOk, HandlesOk, FlightOk, Forested, Move;
  }

  /** Moving leaves the references and the sizes alone. */
  lemma MovedHandles(first: Links, size: map<Id, nat>, looping: set<Id>, refDestructor: set<Id>,
                     hnext: Links, hprev: Links, ptr: map<Id, Id>, F: Forest, c: Id, q: Ptr)
    requires HandleRep(first, size, looping, refDestructor, hnext, hprev, ptr, F) && Movable(F, c, q)
    ensures Shape(F) && c in F.up && (F.up[c].At? ==> F.up[c].a in F.kids) && (q.At? ==> q.a in F.kids)
    ensures HandleRep(first, size, looping, refDestructor, hnext, hprev, ptr, Move(F, c, q))
  {
    hide *;
    MovableParts(F, c, q);
    MoveFields(F, c, q);
    HandleRepSame(first, size, looping, refDestructor, hnext, hprev, ptr, F, Move(F, c, q));
  }

  /** Unlinking and hooking at the front is `Move`. */
  lemma HookedMove(next: Links, prev: Links, parent: Links, child: Links, n: Links, v: Links, p: Links, ch: Links,
                   F: Forest, c: Id, q: Id)
    requires Movable(F, c, At(q)) && Unhooked(next, prev, parent, child, F, c)
    requires Shape(F) && c in F.up && (F.up[c].At? ==> F.up[c].a in F.kids) && q in F.kids && q in Unlisted(F, c)
    requires Fronted(next, prev, parent, child, n, v, p, ch, Unlisted(F, c)[q], c, q)
    ensures TreeRep(n, v, p, ch, Move(F, c, At(q)))
  {
    hide *;
    MovableParts(F, c, At(q));
    UnhookedParts(next, prev, parent, child, F, c);
    MovedKids(F, c, At(q));
    var k := Unlisted(F, c);
    var s := k[q];
    ListAt(next, prev, parent, child, k, q);
    HeadNotElsewhere(F, k, q);
    FrontedLists(next, prev, parent, child, n, v, p, ch, k, c, q);
    var touched := if s == [] then {c} else {c, s[0]};
    FrontApart(next, prev, parent, child, n, v, p, ch, s, c, q, touched);
    FrontTouched(s, c, touched);
    FrontedRoots(next, prev, parent, n, v, p, F.up, F.flight, F.stale, s, c, q, touched);
    FrontKeyed(next, prev, parent, child, n, v, p, ch, s, c, q, F.up.Keys);
    MoveFields(F, c, At(q));
    TreeRepFrom(n, v, p, ch, Move(F, c, At(q)));
  }

  lemma FrontTouched(s: seq<Id>, c: Id, touched: set<Id>)
    requires touched == if s == [] then {c} else {c, s[0]}
    ensures touched <= {c} + Members(s)
  {
    if s != [] {
      assert s[0] in s;
    }
  }

  lemma HeadNotElsewhere(F: Forest, k: map<Id, seq<Id>>, q: Id)
    requires forall b, x :: b in k && x in k[b] ==> x in F.up && x !in F.flight && F.up[x] == At(b)
    requires q in k
    ensures forall b :: b in k && b != q && k[q] != [] ==> k[q][0] !in k[b]
    ensures forall x :: x in k[q] ==> x in F.up && x !in F.flight && F.up[x] == At(q)
  {
    if k[q] != [] {
      var x := k[q][0];
      assert x in k[q] && F.up[x] == At(q);
      forall b | b in k && b != q ensures k[q][0] !in k[b] {
        assert x !in k[b];
      }
    }
  }

  lemma FrontKeyed(next: Links, prev: Links, parent: Links, child: Links, n: Links, v: Links, p: Links, ch: Links,
                   s: seq<Id>, c: Id, q: Id, live: set<Id>)
    requires Keyed(next, prev, parent, child, live) && c in live && q in live
    requires Chained(next, prev, s) && Headed(parent, s, q)
    requires Fronted(next, prev, parent, child, n, v, p, ch, s, c, q)
    ensures Keyed(n, v, p, ch, live)
  {
    if s != [] {
      ChainedHere(next, prev, s, 0);
      HeadedHere(parent, s, q, 0);
    }
  }

  lemma UnhookedParts(next: Links, prev: Links, parent: Links, child: Links, F: Forest, p: Id)
    requires Unhooked(next, prev, parent, child, F, p)
    ensures p in F.up && (F.up[p].At? ==> F.up[p].a in F.kids)
    ensures next.Keys == F.up.Keys && prev.Keys == F.up.Keys && parent.Keys == F.up.Keys && child.Keys == F.up.Keys
    ensures Keyed(next, prev, parent, child, F.up.Keys)
    ensures ListsRep(next, prev, parent, child, Unlisted(F, p))
    ensures RootsRep(next, prev, parent, F.up, F.flight + {p})
    ensures FlightRep(prev, parent, F.up, F.flight, F.stale)
  {}

  lemma TreeRepFrom(next: Links, prev: Links, parent: Links, child: Links, F: Forest)
    requires WF(F) && Keyed(next, prev, parent, child, F.up.Keys)
    requires ListsRep(next, prev, parent, child, F.kids)
    requires RootsRep(next, prev, parent, F.up, F.flight) && FlightRep(prev, parent, F.up, F.flight, F.stale)
    ensures TreeRep(next, prev, parent, child, F)
  {
    hide WF, Keyed, ListsRep, RootsRep, FlightRep;
  }

  /** A chunk that holds the parent link of `q` is already its first child. */
  lemma StealNoop(next: Links, prev: Links, parent: Links, child: Links, F: Forest, c: Id, q: Id)
    requires TreeRep(next, prev, parent, child, F) && c in F.up && c !in F.flight && c in parent && parent[c] == At(q)
    ensures q in F.kids && c in F.up && F.up[c] == At(q) && Shape(F)
    ensures Move(F, c, At(q)) == F
  {
    hide *;
    TreeRepParts(next, prev, parent, child, F);
    WFParts(F);
    if F.up[c].At? {
      var a, i := ListedLinks(next, prev, parent, child, F, c);
      ElemIs(F.kids[a], i);
      MoveHeadIsNoop(F, c, a);
    } else {
      RootLinks(next, prev, parent, F, c);
    }
  }

  // ---------- a chunk becomes a root ----------

  lemma RootedMove(next: Links, prev: Links, parent: Links, child: Links, F: Forest, c: Id)
    requires Movable(F, c, Null) && Unhooked(next, prev, parent, child, F, c)
    requires Shape(F) && c in F.up && (F.up[c].At? ==> F.up[c].a in F.kids) && c in next && c in prev && c in parent
    ensures TreeRep(next[c := Null], prev[c := Null], parent[c := Null], child, Move(F, c, Null))
  {
    hide *;
    MovableParts(F, c, Null);
    UnhookedParts(next, prev, parent, child, F, c);
    MovedKids(F, c, Null);
    var k := Unlisted(F, c);
    LooseLists(next, prev, parent, child, k, c);
    LooseRoots(next, prev, parent, F.up, F.flight, F.stale, c);
    LooseKeyed(next, prev, parent, child, c, F.up.Keys);
    MoveFields(F, c, Null);
    TreeRepFrom(next[c := Null], prev[c := Null], parent[c := Null], child, Move(F, c, Null));
  }

  lemma LooseLists(next: Links, prev: Links, parent: Links, child: Links, k: map<Id, seq<Id>>, c: Id)
    requires ListsRep(next, prev, parent, child, k) && c in next && c in prev && c in parent
    requires forall b :: b in k ==> c !in k[b]
    ensures ListsRep(next[c := Null], prev[c := Null], parent[c := Null], child, k)
  {
    forall b | b in k
      ensures Chained(next[c := Null], prev[c := Null], k[b]) && Headed(parent[c := Null], k[b], b)
    {
      hide Chained, Headed;
      ChainedFrame(next, prev, next[c := Null], prev[c := Null], k[b], {c});
      HeadedFrame(parent, parent[c := Null], k[b], b, {c});
    }
  }

  lemma LooseRoots(next: Links, prev: Links, parent: Links, up: map<Id, Ptr>, flight: set<Id>, stale: map<Id, Id>,
                   c: Id)
    requires RootsRep(next, prev, parent, up, flight + {c}) && FlightRep(prev, parent, up, flight, stale)
    requires c in up && c !in flight
    ensures RootsRep(next[c := Null], prev[c := Null], parent[c := Null], up[c := Null], flight)
    ensures FlightRep(prev[c := Null], parent[c := Null], up[c := Null], flight, stale)
  {}

  lemma LooseKeyed(next: Links, prev: Links, parent: Links, child: Links, c: Id, live: set<Id>)
    requires Keyed(next, prev, parent, child, live) && c in live
    ensures Keyed(next[c := Null], prev[c := Null], parent[c := Null], child, live)
  {}

  // ---------- a chunk goes in flight, and is released ----------

  lemma DetachFlightRep(prev: Links, parent: Links, F: Forest, p: Id, s: Ptr)
    requires FlightRep(prev, parent, F.up, F.flight, F.stale) && p in F.up && p in prev && p in parent && p !in F.flight
    requires forall f :: f in F.stale ==> f in F.flight
    requires prev[p] == s && parent[p] == if s.At? then Null else F.up[p]
    ensures FlightRep(prev, parent, F.up, F.flight + {p}, if s.At? then F.stale[p := s.a] else F.stale)
  {}

  lemma StaleInFlight(F: Forest)
    requires WF(F)
    ensures forall f :: f in F.stale ==> f in F.flight
  {}

  lemma DetachFields(F: Forest, p: Id)
    requires p in F.up && (F.up[p].At? ==> F.up[p].a in F.kids)
    ensures var G := Detach(F, p);
      && G.up == F.up && G.kids == Unlisted(F, p) && G.flight == F.flight + {p} && G.refs == F.refs
      && G.target == F.target
      && G.stale == if PrevOf(F, p).At? then F.stale[p := PrevOf(F, p).a] else F.stale
  {}

  lemma UnhookedLinks(next: Links, prev: Links, parent: Links, child: Links, F: Forest, p: Id)
    requires Unhooked(next, prev, parent, child, F, p)
    ensures p in F.up && (F.up[p].At? ==> F.up[p].a in F.kids) && p in prev && p in parent
    ensures prev[p] == PrevOf(F, p) && parent[p] == if PrevOf(F, p).At? then Null else F.up[p]
  {}

  lemma DetachedRep(next: Links, prev: Links, parent: Links, child: Links, F: Forest, p: Id)
    requires WF(F) && p !in F.flight && Unhooked(next, prev, parent, child, F, p)
    requires p in F.up && (F.up[p].At? ==> F.up[p].a in F.kids) && WF(Detach(F, p))
    ensures TreeRep(next, prev, parent, child, Detach(F, p))
  {
    hide *;
    UnhookedParts(next, prev, parent, child, F, p);
    UnhookedLinks(next, prev, parent, child, F, p);
    StaleInFlight(F);
    DetachFlightRep(prev, parent, F, p, PrevOf(F, p));
    DetachFields(F, p);
    TreeRepFrom(next, prev, parent, child, Detach(F, p));
  }

  lemma DropLists(next: Links, prev: Links, parent: Links, child: Links, kids: map<Id, seq<Id>>, p: Id)
    requires ListsRep(next, prev, parent, child, kids) && (forall b :: b in kids ==> p !in kids[b])
    ensures ListsRep(next - {p}, prev - {p}, parent - {p}, child - {p}, kids - {p})
  {
    forall b | b in kids && b != p
      ensures Chained(next - {p}, prev - {p}, kids[b]) && Headed(parent - {p}, kids[b], b)
    {
      DropChained(next, prev, kids[b], p);
      DropHeaded(parent, kids[b], b, p);
    }
  }

  lemma DropChained(next: Links, prev: Links, s: seq<Id>, p: Id)
    requires Chained(next, prev, s) && p !in s
    ensures Chained(next - {p}, prev - {p}, s)
  {
    forall i | 0 <= i < |s| ensures s[i] != p {
      var x := s[i];
      assert x in s;
    }
  }

  lemma DropHeaded(parent: Links, s: seq<Id>, a: Id, p: Id)
    requires Headed(parent, s, a) && p !in s
    ensures Headed(parent - {p}, s, a)
  {
    forall i | 0 <= i < |s| ensures s[i] != p {
      var x := s[i];
      assert x in s;
    }
  }

  lemma DropRoots(next: Links, prev: Links, parent: Links, up: map<Id, Ptr>, flight: set<Id>, stale: map<Id, Id>, p: Id)
    requires RootsRep(next, prev, parent, up, flight) && FlightRep(prev, parent, up, flight, stale) && p in flight
    ensures RootsRep(next - {p}, prev - {p}, parent - {p}, up - {p}, flight - {p})
    ensures FlightRep(prev - {p}, parent - {p}, up - {p}, flight - {p}, stale - {p})
  {}

  lemma DropKeyed(next: Links, prev: Links, parent: Links, child: Links, live: set<Id>, p: Id)
    requires Keyed(next, prev, parent, child, live)
    ensures Keyed(next - {p}, prev - {p}, parent - {p}, child - {p}, live - {p})
  {}

  lemma FlightUnlisted(F: Forest, p: Id)
    requires KidsOk(F.up, F.kids, F.flight) && p in F.flight
    ensures forall b :: b in F.kids ==> p !in F.kids[b]
  {}

  lemma DropFields(F: Forest, p: Id)
    ensures var G := Drop(F, p);
      && G.up == F.up - {p} && G.kids == F.kids - {p} && G.refs == F.refs - {p} && G.target == F.target
      && G.flight == F.flight - {p} && G.stale == F.stale - {p} && G.up.Keys == F.up.Keys - {p}
  {}

  lemma DroppedRep(next: Links, prev: Links, parent: Links, child: Links, F: Forest, p: Id)
    requires TreeRep(next, prev, parent, child, F) && p in F.flight && WF(Drop(F, p))
    ensures TreeRep(next - {p}, prev - {p}, parent - {p}, child - {p}, Drop(F, p))
  {
    hide *;
    TreeRepParts(next, prev, parent, child, F);
    WFParts(F);
    FlightUnlisted(F, p);
    DropLists(next, prev, parent, child, F.kids, p);
    DropRoots(next, prev, parent, F.up, F.flight, F.stale, p);
    DropKeyed(next, prev, parent, child, F.up.Keys, p);
    DropFields(F, p);
    TreeRepFrom(next - {p}, prev - {p}, parent - {p}, child - {p}, Drop(F, p));
  }

  /** Trees are untouched by changes to references. */
  lemma TreeRepSame(next: Links, prev: Links, parent: Links, child: Links, F: Forest, G: Forest)
    requires TreeRep(next, prev, parent, child, F) && WF(G)
    requires G.up == F.up && G.kids == F.kids && G.flight == F.flight && G.stale == F.stale
    ensures TreeRep(next, prev, parent, child, G)
  {
    hide *;
    TreeRepParts(next, prev, parent, child, F);
    TreeRepFrom(next, prev, parent, child, G);
  }

  // ---------- reference lists ----------

  lemma HandleRepFrom(first: Links, size: map<Id, nat>, looping: set<Id>, refDestructor: set<Id>,
                      hnext: Links, hprev: Links, ptr: map<Id, Id>, F: Forest)
    requires first.Keys == F.up.Keys && size.Keys == F.up.Keys
    requires looping == F.flight && refDestructor == F.target.Keys
    requires RefsRep(first, hnext, hprev, ptr, F.refs)
    ensures HandleRep(first, size, looping, refDestructor, hnext, hprev, ptr, F)
  {
    hide RefsRep;
  }

  lemma RefsAt(first: Links, hnext: Links, hprev: Links, ptr: map<Id, Id>, refs: map<Id, seq<Id>>, c: Id)
    requires RefsRep(first, hnext, hprev, ptr, refs) && c in refs
    ensures c in first && first[c] == Head(refs[c]) && Chained(hnext, hprev, refs[c])
    ensures forall h :: h in refs[c] ==> h in ptr && ptr[h] == c
  {}

  lemma OtherRefs(first: Links, hnext: Links, hprev: Links, ptr: map<Id, Id>, f: Links, n: Links, v: Links,
                  q: map<Id, Id>,
                  refs: map<Id, seq<Id>>, t: Id, s: seq<Id>, touched: set<Id>)
    requires RefsRep(first, hnext, hprev, ptr, refs)
    requires Apart(hnext, n, touched) && Apart(hprev, v, touched) && Apart(first, f, {t})
    requires forall b, x :: b in refs && b != t && x in refs[b] ==> x !in touched && x in q && q[x] == b
    requires t in f && f[t] == Head(s) && Chained(n, v, s) && (forall x :: x in s ==> x in q && q[x] == t)
    ensures RefsRep(f, n, v, q, refs[t := s])
  {
    var r := refs[t := s];
    forall c | c in r
      ensures c in f && f[c] == Head(r[c]) && Chained(n, v, r[c])
    {
      hide Chained;
      if c != t {
        ChainedFrame(hnext, hprev, n, v, refs[c], touched);
      }
    }
  }

  lemma RefsApart(refs: map<Id, seq<Id>>, target: map<Id, Id>, t: Id)
    requires RefsOk(refs, target) && t in refs
    ensures Distinct(refs[t])
    ensures forall b, x :: b in refs && b != t && x in refs[b] ==> x !in Members(refs[t])
  {
    forall b, x | b in refs && b != t && x in refs[b] ensures x !in Members(refs[t]) {
      assert target[x] == b;
      assert x !in refs[t];
    }
  }

  lemma MemberAt(s: seq<Id>, x: Id) returns (i: nat)
    requires x in s
    ensures i < |s| && s[i] == x
  {
    i :| 0 <= i < |s| && s[i] == x;
  }

  /** What the destructor of handle `h`, at index `i` of list `s`, does to the handle links. */
  ghost predicate Unrefed(hnext: Links, hprev: Links, n: Links, v: Links, s: seq<Id>, i: nat)
    requires i < |s|
  {
    if i == 0 then
      && n == hnext[s[0] := Null]
      && v == if |s| > 1 then hprev[s[1] := Null][s[0] := Null] else hprev[s[0] := Null]
    else
      && n == hnext[s[i - 1] := Elem(s, i + 1)][s[i] := Null]
      && v == (if i + 1 < |s| then hprev[s[i + 1] := At(s[i - 1])] else hprev)[s[i] := Null]
  }

  lemma UnrefedChain(hnext: Links, hprev: Links, n: Links, v: Links, s: seq<Id>, i: nat)
    requires i < |s| && Distinct(s) && Chained(hnext, hprev, s) && Unrefed(hnext, hprev, n, v, s, i)
    ensures Chained(n, v, s[..i] + s[i + 1..])
    ensures Apart(hnext, n, Members(s)) && Apart(hprev, v, Members(s))
  {
    if i == 0 {
      hide Chained, Distinct;
      ChainedTail(hnext, hprev, n, v, s);
      assert s[..0] + s[1..] == s[1..];
    } else {
      var n' := hnext[s[i - 1] := Elem(s, i + 1)];
      var v' := if i + 1 < |s| then hprev[s[i + 1] := At(s[i - 1])] else hprev;
      UnrefedLater(hnext, hprev, n', v', s, i);
    }
    UnrefedApart(hnext, hprev, n, v, s, i);
  }

  lemma UnrefedLater(hnext: Links, hprev: Links, n: Links, v: Links, s: seq<Id>, i: nat)
    requires 0 < i < |s| && Distinct(s) && Chained(hnext, hprev, s)
    requires n == hnext[s[i - 1] := Elem(s, i + 1)]
    requires v == if i + 1 < |s| then hprev[s[i + 1] := At(s[i - 1])] else hprev
    ensures Chained(n[s[i] := Null], v[s[i] := Null], s[..i] + s[i + 1..])
  {
    ChainedBridge(hnext, hprev, n, v, s, i);
    ChainedHere(hnext, hprev, s, i);
    ChainedKeys(hnext, hprev, s, i);
    WithoutMembers(s, s[i]);
    WithoutAt(s, i);
    hide Chained, Distinct;
    ChainedFrame(n, v, n[s[i] := Null], v[s[i] := Null], s[..i] + s[i + 1..], {s[i]});
  }

  lemma UnrefedApart(hnext: Links, hprev: Links, n: Links, v: Links, s: seq<Id>, i: nat)
    requires i < |s| && Chained(hnext, hprev, s) && Unrefed(hnext, hprev, n, v, s, i)
    ensures Apart(hnext, n, Members(s)) && Apart(hprev, v, Members(s))
  {
    ChainedHere(hnext, hprev, s, i);
    ChainedKeys(hnext, hprev, s, i);
    MemberOf(s, i);
    if i == 0 {
      if |s| > 1 {
        MemberOf(s, 1);
      }
    } else {
      MemberOf(s, i - 1);
      if i + 1 < |s| {
        MemberOf(s, i + 1);
      }
    }
    hide Chained, Members;
  }

  lemma MemberOf(s: seq<Id>, i: nat)
    requires i < |s|
    ensures s[i] in Members(s)
  {}

  lemma UnrefRep(first: Links, hnext: Links, hprev: Links, ptr: map<Id, Id>, f: Links, n: Links, v: Links,
                 F: Forest, h: Id, i: nat)
    requires RefsOk(F.refs, F.target) && RefsRep(first, hnext, hprev, ptr, F.refs)
    requires h in F.target && F.target[h] in F.refs
    requires var s := F.refs[F.target[h]];
      && i < |s| && s[i] == h && Unrefed(hnext, hprev, n, v, s, i)
      && f == first[F.target[h] := Head(s[..i] + s[i + 1..])]
    ensures RefsRep(f, n, v, ptr, Unref(F, h).refs)
  {
    var t := F.target[h];
    var s := F.refs[t];
    RefsApart(F.refs, F.target, t);
    RefsAt(first, hnext, hprev, ptr, F.refs, t);
    UnrefedChain(hnext, hprev, n, v, s, i);
    WithoutAt(s, i);
    WithoutMembers(s, h);
    RefsPtr(first, hnext, hprev, ptr, F.refs);
    UnrefRefs(F, h);
    hide *;
    ApartOne(first, t, Head(s[..i] + s[i + 1..]));
    OtherRefs(first, hnext, hprev, ptr, f, n, v, ptr, F.refs, t, s[..i] + s[i + 1..], Members(s));
  }

  lemma UnrefRefs(F: Forest, h: Id)
    requires h in F.target && F.target[h] in F.refs
    ensures Unref(F, h).refs == F.refs[F.target[h] := Without(F.refs[F.target[h]], h)]
    ensures Unref(F, h).up == F.up && Unref(F, h).kids == F.kids && Unref(F, h).flight == F.flight
    ensures Unref(F, h).stale == F.stale
    ensures Unref(F, h).target == F.target - {h}
  {}

  lemma RefsPtr(first: Links, hnext: Links, hprev: Links, ptr: map<Id, Id>, refs: map<Id, seq<Id>>)
    requires RefsRep(first, hnext, hprev, ptr, refs)
    ensures forall b, x :: b in refs && x in refs[b] ==> x in ptr && ptr[x] == b
  {}

  lemma DropRefsRep(first: Links, hnext: Links, hprev: Links, ptr: map<Id, Id>, refs: map<Id, seq<Id>>, p: Id)
    requires RefsRep(first, hnext, hprev, ptr, refs) && (forall b :: b in refs ==> p !in refs[b])
    ensures RefsRep(first - {p}, hnext - {p}, hprev - {p}, ptr - {p}, refs - {p})
  {
    forall b | b in refs && b != p
      ensures Chained(hnext - {p}, hprev - {p}, refs[b]) && forall h :: h in refs[b] ==> h != p
    {
      DropChained(hnext, hprev, refs[b], p);
    }
  }

  /** Where a handle sits in the list of the chunk it points at. */
  lemma HandlePlace(first: Links, size: map<Id, nat>, looping: set<Id>, refDestructor: set<Id>,
                    hnext: Links, hprev: Links, ptr: map<Id, Id>, F: Forest, h: Id) returns (s: seq<Id>, i: nat)
    requires HandleRep(first, size, looping, refDestructor, hnext, hprev, ptr, F) && WF(F) && h in F.target
    ensures F.target[h] in F.refs && s == F.refs[F.target[h]] && i < |s| && s[i] == h && Distinct(s)
    ensures Chained(hnext, hprev, s) && h in ptr && ptr[h] == F.target[h]
    ensures F.target[h] in first && first[F.target[h]] == Head(s)
  {
    HandleRepParts(first, size, looping, refDestructor, hnext, hprev, ptr, F);
    WFParts(F);
    hide WF, HandleRep, Chained;
    var t := F.target[h];
    assert t in F.refs && h in F.refs[t];
    RefsAt(first, hnext, hprev, ptr, F.refs, t);
    s := F.refs[t];
    i := MemberAt(s, h);
    assert Distinct(s);
  }

  lemma DestroyedRep(first: Links, size: map<Id, nat>, looping: set<Id>, refDestructor: set<Id>,
                     hnext: Links, hprev: Links, ptr: map<Id, Id>, f: Links, n: Links, v: Links, F: Forest, h: Id,
                     i: nat)
    requires HandleRep(first, size, looping, refDestructor, hnext, hprev, ptr, F) && WF(F) && h in F.target
    requires F.target[h] in F.refs && F.target[h] in first
    requires var s := F.refs[F.target[h]];
      && i < |s| && s[i] == h && Unrefed(hnext, hprev, n, v, s, i)
      && f == first[F.target[h] := Head(s[..i] + s[i + 1..])]
    ensures HandleRep(f, size, looping, refDestructor - {h}, n, v, ptr, Unref(F, h))
  {
    hide *;
    HandleRepParts(first, size, looping, refDestructor, hnext, hprev, ptr, F);
    WFParts(F);
    UnrefRep(first, hnext, hprev, ptr, f, n, v, F, h, i);
    UnrefRefs(F, h);
    HandleRepFrom(f, size, looping, refDestructor - {h}, n, v, ptr, Unref(F, h));
  }

  lemma RefsHead(first: Links, hnext: Links, hprev: Links, ptr: map<Id, Id>, refs: map<Id, seq<Id>>, p: Id)
    requires RefsRep(first, hnext, hprev, ptr, refs) && p in refs
    ensures p in first && (first[p].At? <==> refs[p] != []) && (first[p].At? ==> first[p].a == refs[p][0])
  {}

  lemma ChildHead(next: Links, prev: Links, parent: Links, child: Links, kids: map<Id, seq<Id>>, p: Id)
    requires ListsRep(next, prev, parent, child, kids) && p in kids
    ensures p in child && (child[p].At? <==> kids[p] != []) && (child[p].At? ==> child[p].a == kids[p][0])
  {}

  lemma DetachedHandles(first: Links, size: map<Id, nat>, looping: set<Id>, refDestructor: set<Id>,
                        hnext: Links, hprev: Links, ptr: map<Id, Id>, F: Forest, p: Id)
    requires HandleRep(first, size, looping, refDestructor, hnext, hprev, ptr, F)
    requires p in F.up && (F.up[p].At? ==> F.up[p].a in F.kids)
    ensures HandleRep(first, size, looping + {p}, refDestructor, hnext, hprev, ptr, Detach(F, p))
  {
    hide *;
    HandleRepParts(first, size, looping, refDestructor, hnext, hprev, ptr, F);
    DetachFields(F, p);
    HandleRepFrom(first, size, looping + {p}, refDestructor, hnext, hprev, ptr, Detach(F, p));
  }

  lemma NotListed(F: Forest, p: Id)
    requires RefsOk(F.refs, F.target) && p !in F.target
    ensures forall b :: b in F.refs ==> p !in F.refs[b]
  {}

  lemma DroppedHandles(first: Links, size: map<Id, nat>, looping: set<Id>, refDestructor: set<Id>,
                       hnext: Links, hprev: Links, ptr: map<Id, Id>, F: Forest, p: Id)
    requires HandleRep(first, size, looping, refDestructor, hnext, hprev, ptr, F) && WF(F) && p !in F.target
    ensures HandleRep(first - {p}, size - {p}, looping - {p}, refDestructor - {p}, hnext - {p}, hprev - {p},
      ptr - {p}, Drop(F, p))
  {
    hide *;
    HandleRepParts(first, size, looping, refDestructor, hnext, hprev, ptr, F);
    WFParts(F);
    NotListed(F, p);
    DropRefsRep(first, hnext, hprev, ptr, F.refs, p);
    DropFields(F, p);
    HandleRepFrom(first - {p}, size - {p}, looping - {p}, refDestructor - {p}, hnext - {p}, hprev - {p}, ptr - {p},
        Drop(F, p));
  }

  lemma FlightUnreferenced(F: Forest, p: Id)
    requires WF(F) && p in F.flight
    ensures p in F.refs && F.refs[p] == [] && p !in F.target
  {}

  // ---------- a new chunk ----------

  lemma AddNullFields(F: Forest, n: Id)
    ensures var G := Add(F, Null, n);
      && G.up == F.up[n := Null] && G.kids == F.kids[n := []] && G.refs == F.refs[n := []]
      && G.target == F.target && G.flight == F.flight && G.stale == F.stale
  {}

  lemma NewLists(next: Links, prev: Links, parent: Links, child: Links, kids: map<Id, seq<Id>>, n: Id, live: set<Id>)
    requires ListsRep(next, prev, parent, child, kids) && Keyed(next, prev, parent, child, live) && n !in live
    ensures ListsRep(next[n := Null], prev[n := Null], parent[n := Null], child[n := Null], kids[n := []])
  {
    forall b | b in kids && b != n
      ensures b in child[n := Null] && child[n := Null][b] == Head(kids[b])
      ensures Chained(next[n := Null], prev[n := Null], kids[b]) && Headed(parent[n := Null], kids[b], b)
    {
      MoreKeys(next, prev, parent, kids[b], b, n);
    }
  }

  lemma MoreKeys(next: Links, prev: Links, parent: Links, s: seq<Id>, b: Id, n: Id)
    requires Chained(next, prev, s) && Headed(parent, s, b) && n !in next
    ensures Chained(next[n := Null], prev[n := Null], s) && Headed(parent[n := Null], s, b)
  {
    forall i | 0 <= i < |s| ensures s[i] in next && s[i] != n {
    }
  }

  lemma NewRoots(next: Links, prev: Links, parent: Links, up: map<Id, Ptr>, flight: set<Id>, stale: map<Id, Id>, n: Id)
    requires RootsRep(next, prev, parent, up, flight) && FlightRep(prev, parent, up, flight, stale) && n !in up
    ensures RootsRep(next[n := Null], prev[n := Null], parent[n := Null], up[n := Null], flight)
    ensures FlightRep(prev[n := Null], parent[n := Null], up[n := Null], flight, stale)
  {}

  lemma NewKeyed(next: Links, prev: Links, parent: Links, child: Links, live: set<Id>, n: Id)
    requires Keyed(next, prev, parent, child, live)
    ensures Keyed(next[n := Null], prev[n := Null], parent[n := Null], child[n := Null], live + {n})
  {}

  /** A chunk fresh from malloc, before it is hooked anywhere. */
  lemma NewRootRep(next: Links, prev: Links, parent: Links, child: Links, F: Forest, n: Id)
    requires TreeRep(next, prev, parent, child, F) && n !in F.up
    ensures WF(Add(F, Null, n))
    ensures TreeRep(next[n := Null], prev[n := Null], parent[n := Null], child[n := Null], Add(F, Null, n))
  {
    hide *;
    TreeRepParts(next, prev, parent, child, F);
    AddWF(F, Null, n);
    AddNullFields(F, n);
    NewLists(next, prev, parent, child, F.kids, n, F.up.Keys);
    NewRoots(next, prev, parent, F.up, F.flight, F.stale, n);
    NewKeyed(next, prev, parent, child, F.up.Keys, n);
    assert F.up[n := Null].Keys == F.up.Keys + {n};
    TreeRepFrom(next[n := Null], prev[n := Null], parent[n := Null], child[n := Null], Add(F, Null, n));
  }

  lemma NewRefs(first: Links, hnext: Links, hprev: Links, ptr: map<Id, Id>, refs: map<Id, seq<Id>>, n: Id)
    requires RefsRep(first, hnext, hprev, ptr, refs) && n !in refs
    ensures RefsRep(first[n := Null], hnext, hprev, ptr, refs[n := []])
  {}

  lemma RefsKeys(F: Forest)
    requires Shape(F)
    ensures F.refs.Keys == F.up.Keys && F.kids.Keys == F.up.Keys
  {}

  lemma NewHandles(first: Links, size: map<Id, nat>, looping: set<Id>, refDestructor: set<Id>,
                   hnext: Links, hprev: Links, ptr: map<Id, Id>, F: Forest, n: Id, sz: nat)
    requires HandleRep(first, size, looping, refDestructor, hnext, hprev, ptr, F) && Shape(F) && n !in F.up
    ensures HandleRep(first[n := Null], size[n := sz], looping, refDestructor, hnext, hprev, ptr, Add(F, Null, n))
  {
    RefsKeys(F);
    hide *;
    HandleRepParts(first, size, looping, refDestructor, hnext, hprev, ptr, F);
    AddNullFields(F, n);
    NewRefs(first, hnext, hprev, ptr, F.refs, n);
    HandleRepFrom(first[n := Null], size[n := sz], looping, refDestructor, hnext, hprev, ptr, Add(F, Null, n));
  }

  lemma AddIsMove(F: Forest, n: Id, q: Id)
    requires Shape(F) && n !in F.up && q in F.kids
    ensures var R := Add(F, Null, n); Shape(R) && n in R.up && R.up[n] == Null && q in R.kids
    ensures Move(Add(F, Null, n), n, At(q)) == Add(F, At(q), n)
  {
    var R := Add(F, Null, n);
    assert R.kids[q := [n] + R.kids[q]] == F.kids[q := [n] + F.kids[q]][n := []];
    assert R.up[n := At(q)] == F.up[n := At(q)];
  }

  lemma NewMovable(F: Forest, n: Id, q: Id)
    requires WF(F) && n !in F.up && q in F.up && q !in F.target
    ensures Movable(Add(F, Null, n), n, At(q))
  {
    AddWF(F, Null, n);
    WFParts(F);
    NewNotAbove(F, n, q);
    FlightKeys(F);
    AddNullFields(F, n);
    hide WF, Add, Below, KidsOk, RefsOk, Forested, Movable;
    assert n !in F.flight;
    MovableIf(Add(F, Null, n), n, At(q));
  }

  lemma FlightKeys(F: Forest)
    requires WF(F)
    ensures F.flight <= F.up.Keys
  {}

  lemma NewNotAbove(F: Forest, n: Id, q: Id)
    requires WF(F) && n !in F.up && q in F.up
    ensures !Below(Add(F, Null, n).up, q, n)
  {
    AddWF(F, Null, n);
    if Below(Add(F, Null, n).up, q, n) {
      BelowParent(Add(F, Null, n).up, q, n);
    }
  }

  /** Something hangs from a proper ancestor. */
  lemma BelowParent(up: map<Id, Ptr>, x: Id, a: Id)
    requires Below(up, x, a) && x != a
    ensures exists y :: y in up && up[y] == At(a)
  {
    var k: nat :| Climb(up, x, a, k);
    ClimbParent(up, x, a, k);
  }

  lemma {:induction false} ClimbParent(up: map<Id, Ptr>, x: Id, a: Id, k: nat)
    requires Climb(up, x, a, k) && x != a
    ensures exists y :: y in up && up[y] == At(a)
    decreases k
  {
    if up[x] != At(a) {
      ClimbParent(up, up[x].a, a, k - 1);
    }
  }

  // ---------- a new reference ----------

  lemma AttachFields(F: Forest, h: Id, c: Id)
    requires c in F.refs
    ensures var G := Attach(F, h, c);
      && G.up == F.up && G.kids == F.kids && G.flight == F.flight && G.stale == F.stale
      && G.refs == F.refs[c := [h] + F.refs[c]] && G.target == F.target[h := c]
  {}

  /** What `_TLIST_ADD` of handle `h` to reference list `s` does to the handle links. */
  ghost predicate RefFronted(hnext: Links, hprev: Links, n: Links, v: Links, s: seq<Id>, h: Id) {
    && n == hnext[h := Head(s)]
    && v == (if s == [] then hprev[h := Null] else hprev[s[0] := At(h)][h := Null])
  }

  lemma AttachedRefs(first: Links, hnext: Links, hprev: Links, ptr: map<Id, Id>, n: Links, v: Links,
                     F: Forest, h: Id, c: Id)
    requires RefsOk(F.refs, F.target) && RefsRep(first, hnext, hprev, ptr, F.refs) && c in F.refs && h !in F.target
    requires RefFronted(hnext, hprev, n, v, F.refs[c], h)
    ensures RefsRep(first[c := At(h)], n, v, ptr[h := c], F.refs[c := [h] + F.refs[c]])
  {
    hide RefsOk;
    var s := F.refs[c];
    RefsAt(first, hnext, hprev, ptr, F.refs, c);
    HandleElsewhere(F, h);
    RefsApart(F.refs, F.target, c);
    ChainedFront(hnext, hprev, n, v, s, h);
    RefsPtr(first, hnext, hprev, ptr, F.refs);
    forall b | b in F.refs && b != c
      ensures Chained(n, v, F.refs[b]) && (forall x :: x in F.refs[b] ==> x in ptr[h := c] && ptr[h := c][x] == b)
    {
      hide Chained;
      FrontedElsewhere(hnext, hprev, n, v, s, h, F.refs[b]);
    }
  }

  lemma HandleElsewhere(F: Forest, h: Id)
    requires RefsOk(F.refs, F.target) && h !in F.target
    ensures forall b :: b in F.refs ==> h !in F.refs[b]
  {}

  lemma FrontedElsewhere(hnext: Links, hprev: Links, n: Links, v: Links, s: seq<Id>, h: Id, t: seq<Id>)
    requires Chained(hnext, hprev, t) && h !in t && (forall x :: x in t ==> x !in Members(s))
    requires RefFronted(hnext, hprev, n, v, s, h)
    ensures Chained(n, v, t)
  {
    forall i | 0 <= i < |t| ensures t[i] in n && t[i] in v && v[t[i]] == hprev[t[i]] && n[t[i]] == hnext[t[i]] {
      var x := t[i];
      assert x in t && x in hnext && x in hprev;
      if s != [] {
        var y := s[0];
        assert y in s && x != y;
      }
    }
  }

  lemma AttachedHandles(first: Links, size: map<Id, nat>, looping: set<Id>, refDestructor: set<Id>,
                        hnext: Links, hprev: Links, ptr: map<Id, Id>, n: Links, v: Links, F: Forest, h: Id, c: Id)
    requires HandleRep(first, size, looping, refDestructor, hnext, hprev, ptr, F) && WF(F) && c in F.refs && c in F.up
    requires h !in F.target
    requires RefFronted(hnext, hprev, n, v, F.refs[c], h)
    ensures HandleRep(first[c := At(h)], size, looping, refDestructor + {h}, n, v, ptr[h := c], Attach(F, h, c))
  {
    hide *;
    HandleRepParts(first, size, looping, refDestructor, hnext, hprev, ptr, F);
    WFParts(F);
    AttachedRefs(first, hnext, hprev, ptr, n, v, F, h, c);
    AttachFields(F, h, c);
    HandleRepFrom(first[c := At(h)], size, looping, refDestructor + {h}, n, v, ptr[h := c], Attach(F, h, c));
  }

  lemma ListedHead(first: Links, hnext: Links, hprev: Links, ptr: map<Id, Id>, refs: map<Id, seq<Id>>, c: Id)
    requires RefsRep(first, hnext, hprev, ptr, refs) && c in refs
    ensures refs[c] != [] ==> refs[c][0] in hnext && refs[c][0] in hprev
    ensures c in first && first[c] == Head(refs[c])
  {
    if refs[c] != [] {
      ChainedHere(hnext, hprev, refs[c], 0);
    }
  }

  /** A chunk fresh from `__talloc` can become a handle to `c`. */
  lemma NewHandleReady(F: Forest, ctx: Ptr, h: Id, c: Id)
    requires WF(F) && h !in F.up && c in F.up && c !in F.target && c !in F.flight
    requires (ctx.At? ==> ctx.a in F.up && ctx.a !in F.target) && (ctx.At? ==> ctx.a in F.kids)
    ensures var G := Add(F, ctx, h);
      && WF(G) && h in G.up && c in G.up && h != c && h !in G.target && c !in G.target && h !in G.flight
      && c !in G.flight
      && c in G.refs && h in G.refs && G.refs[h] == [] && (forall x :: x in G.up ==> G.up[x] != At(h))
  {
    AddWF(F, ctx, h);
    FlightKeys(F);
    WFParts(F);
    hide WF, KidsOk, RefsOk;
    assert ctx != At(h);
  }

  /** Adding under `q` is adding as a root and moving. */
  lemma AddThenMove(F: Forest, n: Id, q: Id)
    requires WF(F) && n !in F.up && q in F.up && q !in F.target
    ensures Movable(Add(F, Null, n), n, At(q)) && q in F.kids
    ensures Relinked(Add(F, Null, n), n, At(q)) == Add(F, At(q), n)
    ensures WF(Add(F, At(q), n))
    ensures Add(F, At(q), n).up == F.up[n := At(q)]
  {
    WFParts(F);
    NewMovable(F, n, q);
    AddWF(F, At(q), n);
    RefsKeys(F);
    AddIsMove(F, n, q);
    hide WF, Movable, Add, Move, KidsOk, RefsOk;
    MovableParts(Add(F, Null, n), n, At(q));
    AddUp(F, At(q), n);
  }

  lemma AddUp(F: Forest, ctx: Ptr, n: Id)
    requires ctx.At? ==> ctx.a in F.kids
    ensures var G := Add(F, ctx, n);
      G.up == F.up[n := ctx] && G.refs == F.refs[n := []] && G.target == F.target && G.flight == F.flight
  {}

  lemma ValidWF(next: Links, prev: Links, parent: Links, child: Links, F: Forest)
    requires TreeRep(next, prev, parent, child, F)
    ensures WF(F)
  {
    TreeRepParts(next, prev, parent, child, F);
  }
}
