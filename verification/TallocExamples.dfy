/** Small heaps, each built by a few calls, that show where the allocator's promises end. */
module TallocExamples {
  import opened TallocForest
  import opened TallocOwnership
  import opened TallocPaths
  import opened TallocCells
  import opened TallocCascade
  import opened TallocTheorems
  import opened TallocStale
  import opened TallocTurns
  import opened TallocInner
  import opened TallocLoop

  lemma Grow(F: Forest, ctx: Ptr, n: Id) returns (G: Forest)
    requires WF(F) && F.flight == {} && n !in F.up
    requires (ctx.At? ==> ctx.a in F.up && ctx.a in F.kids && ctx.a !in F.target)
    ensures WF(G) && G.flight == {} && G.stale == map[] && G == Add(F, ctx, n)
  {
    AddWF(F, ctx, n);
    NoStale(F, {});
    G := Add(F, ctx, n);
    hide WF;
  }

  lemma Refer(F: Forest, ctx: Ptr, h: Id, c: Id) returns (G: Forest)
    requires WF(F) && F.flight == {} && h !in F.up
    requires (ctx.At? ==> ctx.a in F.up && ctx.a in F.kids && ctx.a !in F.target)
    requires c in F.up && c in F.refs && c !in F.target
    ensures WF(G) && G.flight == {} && G.stale == map[] && c in Add(F, ctx, h).refs && G == Attach(Add(F, ctx, h), h, c)
  {
    AddWF(F, ctx, h);
    NoStale(F, {});
    var A := Add(F, ctx, h);
    AttachWF(A, h, c);
    G := Attach(A, h, c);
    hide WF;
  }

  lemma ClimbFixed(up: map<Id, Ptr>, x: Id, y: Id, a: Id)
    requires x in up && up[x] == At(y) && x != a
    ensures Below(up, x, a) <==> Below(up, y, a)
  {
    BelowStep(up, x, a);
  }

  lemma RootAbove(up: map<Id, Ptr>, x: Id, a: Id)
    requires x in up && up[x] == Null && x != a
    ensures !Below(up, x, a)
  {
    BelowStep(up, x, a);
  }

  // ---------- a reference from below the chunk itself ----------

  /** Two references, the newer one from below the chunk itself: 1 has child 2, 2 has child 3, 3 holds
      reference 4 to 2, and root 5 holds reference 6 to 2. */
  ghost const BACK_REFERENCED := Forest(
    map[1 := Null, 2 := At(1), 3 := At(2), 4 := At(3), 5 := Null, 6 := At(5)],
    map[1 := [2], 2 := [3], 3 := [4], 4 := [], 5 := [6], 6 := []],
    map[1 := [], 2 := [4, 6], 3 := [], 4 := [], 5 := [], 6 := []],
    map[4 := 2, 6 := 2], {}, map[])

  lemma BackReferencedWF()
    ensures WF(BACK_REFERENCED)
  {
    hide WF;
    EmptyForestWF();
    var F := Grow(EMPTY_FOREST, Null, 1);
    F := Grow(F, At(1), 2);
    F := Grow(F, At(2), 3);
    F := Grow(F, Null, 5);
    F := Refer(F, At(5), 6, 2);
    F := Refer(F, At(3), 4, 2);
    var G := BACK_REFERENCED;
    assert F.up.Keys == {1, 2, 3, 4, 5, 6};
    assert F.up == G.up;
    assert F.kids[1] == [2] && F.kids[2] == [3] && F.kids[3] == [4] && F.kids[5] == [6];
    assert F.kids[4] == [] && F.kids[6] == [];
    assert F.kids == G.kids;
    assert F.refs[2] == [4, 6];
    assert F.refs == G.refs;
    assert F.target == G.target;
  }

  /** Freeing 1 here would steal 2 under its own child 3. */
  lemma BackReferenceBreaksHandOver()
    ensures WF(BACK_REFERENCED) && Held(BACK_REFERENCED, 2)
    ensures Receiver(BACK_REFERENCED, 1, 2) == At(3)
    ensures WF(Shed(BACK_REFERENCED, 2)) && 2 in Shed(BACK_REFERENCED, 2).up
    ensures !Forested(Shed(BACK_REFERENCED, 2).up[2 := At(3)])
  {
    BackReferencedWF();
    var F := BACK_REFERENCED;
    hide WF, Below;
    ClimbFixed(F.up, 6, 5, 2);
    RootAbove(F.up, 5, 2);
    assert 6 in F.refs[2] && !Below(F.up, 6, 2);
    ClimbFixed(F.up, 4, 3, 2);
    ClimbFixed(F.up, 3, 2, 2);
    BelowSelf(F.up, 2);
    HandOverSoundIff(F, 2, 3);
  }

  // ---------- a released sibling ----------

  /** Root 1 has children 5 and 2, and 2 has child 3, which is kept by 5: a reference that is the sibling before the
      chunk its target is below. */
  ghost const STALE_SIBLING := Forest(
    map[1 := Null, 2 := At(1), 3 := At(2), 5 := At(1)],
    map[1 := [5, 2], 2 := [3], 3 := [], 5 := []],
    map[1 := [], 2 := [], 3 := [5], 5 := []],
    map[5 := 3], {}, map[])

  lemma StaleSiblingWF()
    ensures WF(STALE_SIBLING)
  {
    hide WF;
    EmptyForestWF();
    var F := Grow(EMPTY_FOREST, Null, 1);
    F := Grow(F, At(1), 2);
    F := Grow(F, At(2), 3);
    F := Refer(F, At(1), 5, 3);
    assert F.up.Keys == {1, 2, 3, 5};
    assert F.up == STALE_SIBLING.up;
    assert F.kids[1] == [5, 2] && F.kids[2] == [3] && F.kids[3] == [] && F.kids[5] == [];
    assert F.kids == STALE_SIBLING.kids;
    assert F.refs[3] == [5];
    assert F.refs == STALE_SIBLING.refs;
    assert F.target == STALE_SIBLING.target;
  }

  lemma StaleSiblingLinks()
    ensures var F := STALE_SIBLING; PrevOf(F, 2) == At(5) && !Below(F.up, 5, 2) && !Below(F.up, 1, 2)
    ensures forall c :: c in STALE_SIBLING.refs ==> !NullHeld(STALE_SIBLING, c)
  {
    var F := STALE_SIBLING;
    ClimbFixed(F.up, 5, 1, 2);
    RootAbove(F.up, 1, 2);
    assert [5, 2][1..] == [2] && Before([2], 2) == Null;
  }

  /** Freeing 2 releases its sibling 5 on the way, and never asks for its parent through it. */
  lemma StaleSiblingFreed()
    ensures MayFree(STALE_SIBLING, 2) && PrevOf(STALE_SIBLING, 2) == At(5)
    ensures !Followed(STALE_SIBLING, 2)
  {
    StaleSiblingWF();
    StaleSiblingLinks();
    var F := STALE_SIBLING;
    hide WF, Below, NullHeld, PrevOf, Owns;
    assert Steady(F, Subtree(F, 2) - {2});
    assert Unread(F, Subtree(F, 2), 2);
    assert NullFree(F, Subtree(F, 2) - {2}) by {
      NullOnlyLive(F);
    }
    MayFreeNotFollowed(F, 2);
  }

  lemma NullOnlyLive(F: Forest)
    requires forall c :: c in F.refs ==> !NullHeld(F, c)
    ensures forall c :: !NullHeld(F, c)
  {}

  /** The same, and 2 has a second child 4, which is kept by root 6: a reference without a context. */
  ghost const FOLLOWED := Forest(
    map[1 := Null, 2 := At(1), 3 := At(2), 4 := At(2), 5 := At(1), 6 := Null],
    map[1 := [5, 2], 2 := [3, 4], 3 := [], 4 := [], 5 := [], 6 := []],
    map[1 := [], 2 := [], 3 := [5], 4 := [6], 5 := [], 6 := []],
    map[5 := 3, 6 := 4], {}, map[])

  lemma FollowedWF()
    ensures WF(FOLLOWED)
  {
    hide WF;
    EmptyForestWF();
    var F := Grow(EMPTY_FOREST, Null, 1);
    F := Grow(F, At(1), 2);
    F := Grow(F, At(2), 4);
    F := Grow(F, At(2), 3);
    F := Refer(F, At(1), 5, 3);
    F := Refer(F, Null, 6, 4);
    var G := FOLLOWED;
    assert F.up.Keys == {1, 2, 3, 4, 5, 6};
    assert F.up == G.up;
    assert F.kids[1] == [5, 2] && F.kids[2] == [3, 4] && F.kids[3] == [] && F.kids[4] == [] && F.kids[5] == [];
    assert F.kids == G.kids;
    assert F.refs[3] == [5] && F.refs[4] == [6];
    assert F.refs == G.refs;
    assert F.target == G.target;
  }

  lemma FollowedLinks()
    ensures var F := FOLLOWED;
      && PrevOf(F, 2) == At(5) && !Below(F.up, 5, 2) && !Below(F.up, 6, 2) && !Below(F.up, 1, 2)
      && Below(F.up, 3, 2) && Below(F.up, 4, 2)
  {
    var F := FOLLOWED;
    BelowSelf(F.up, 2);
    ClimbFixed(F.up, 5, 1, 2);
    ClimbFixed(F.up, 3, 2, 2);
    ClimbFixed(F.up, 4, 2, 2);
    RootAbove(F.up, 1, 2);
    RootAbove(F.up, 6, 2);
    assert [5, 2][1..] == [2] && Before([2], 2) == Null;
  }

  /** Owners come first in this order. */
  lemma {:induction false} OwnsRanked(F: Forest, rank: map<Id, nat>, a: Id, c: Id, n: nat)
    requires forall x, y :: Owner(F, x, y) ==> x in rank && y in rank && rank[x] < rank[y]
    requires OwnPath(F, a, c, n)
    ensures a in rank && c in rank && rank[a] < rank[c]
    decreases n
  {
    if n > 0 {
      var b :| Owner(F, a, b) && OwnPath(F, b, c, n - 1);
      OwnsRanked(F, rank, b, c, n - 1);
    }
  }

  lemma RankedAcyclic(F: Forest, rank: map<Id, nat>)
    requires forall x, y :: Owner(F, x, y) ==> x in rank && y in rank && rank[x] < rank[y]
    ensures forall c :: !Owns(F, c, c)
  {
    forall c ensures !Owns(F, c, c) {
      if n: nat :| OwnPath(F, c, c, n) {
        OwnsRanked(F, rank, c, c, n);
      }
    }
  }

  lemma FollowedAcyclic()
    ensures forall c :: !Owns(FOLLOWED, c, c)
  {
    hide Owns;
    RankedAcyclic(FOLLOWED, map[1 := 0, 2 := 1, 3 := 2, 4 := 2, 5 := 1, 6 := 0]);
  }

  lemma FollowedSheltered()
    ensures Sheltered(FOLLOWED, 2) && Sole(FOLLOWED, 2, 5)
  {
    var F := FOLLOWED;
    FollowedLinks();
    FollowedAcyclic();
    hide Below, Owns, PrevOf, Owner;
    forall c | c in F.up && NullHeld(F, c) ensures c == 4 {}
  }

  lemma FollowedParts()
    ensures var F := FOLLOWED;
      && Forested(F.up) && 2 in F.kids && F.kids[2] == [3, 4] && 5 in F.target && F.target[5] == 3 && 5 in F.up
      && 3 in F.up && 6 in F.up && F.up[6] == Null && 4 in F.refs && F.refs[4] == [6]
  {
    FollowedWF();
    WFParts(FOLLOWED);
    hide WF;
  }

  lemma FollowedVerdict()
    ensures Follows(FOLLOWED, 2, 5)
  {
    hide *;
    var F := FOLLOWED;
    FollowedParts();
    OnlyItself(F, 3);
    LateIs(F, 4);
    GoesBackIs(F, [3, 4], 4);
    AfterAt([3, 4], 0, 1);
    BackAfterFrom(F, [3, 4], 3, 3, 4);
    FollowsLive(F, 2, 5);
  }

  lemma AfterAt(ks: seq<Id>, i: nat, j: nat)
    requires i < j < |ks|
    ensures After(ks, ks[i], ks[j])
  {}

  lemma BackAfterFrom(F: Forest, ks: seq<Id>, t: Id, k: Id, a: Id)
    requires After(ks, k, a) && Reached(F, t, k) && GoesBack(F, ks, a)
    ensures BackAfter(F, ks, t)
  {}

  /** Freeing 2 releases 5, and then goes back through it to find the parent that receives 4. */
  lemma SiblingFollowed()
    ensures Plain(FOLLOWED, 2) && Followed(FOLLOWED, 2) && !MayFree(FOLLOWED, 2)
  {
    var F := FOLLOWED;
    FollowedWF();
    FollowedLinks();
    FollowedSheltered();
    FollowedVerdict();
    hide WF, Below, Sheltered, Sole, PrevOf, Follows, MayFree;
    if MayFree(F, 2) {
      MayFreeNotFollowed(F, 2);
    }
  }

  // ---------- a released sibling, with one reference to every chunk ----------

  /** Root 1 has children 5 and 2, and 2 has children 3, 4 and 6 in the order `ks`. The sibling 5 is a reference to 3,
      and 4 has child 7, a reference to 6. */
  ghost function Searched(ks: seq<Id>): Forest {
    Forest(
      map[1 := Null, 2 := At(1), 3 := At(2), 4 := At(2), 5 := At(1), 6 := At(2), 7 := At(4)],
      map[1 := [5, 2], 2 := ks, 3 := [], 4 := [7], 5 := [], 6 := [], 7 := []],
      map[1 := [], 2 := [], 3 := [5], 4 := [], 5 := [], 6 := [7], 7 := []],
      map[5 := 3, 7 := 6], {}, map[])
  }

  lemma SearchedWF()
    ensures WF(Searched([3, 6, 4])) && WF(Searched([6, 3, 4]))
  {
    hide WF;
    EmptyForestWF();
    var E := Grow(EMPTY_FOREST, Null, 1);
    E := Grow(E, At(1), 2);
    E := Grow(E, At(2), 4);
    assert E.kids[1] == [2] && E.kids[2] == [4] && E.kids[4] == [];
    SearchedBase(E, 6, 3);
    SearchedBase(E, 3, 6);
  }

  /** Two more children for 2. */
  lemma SearchedBase(E: Forest, a: Id, b: Id)
    requires WF(E) && E.flight == {} && E.up == map[1 := Null, 2 := At(1), 4 := At(2)] && {a, b} == {3, 6}
    requires E.kids == map[1 := [2], 2 := [4], 4 := []] && E.refs == map[1 := [], 2 := [], 4 := []]
    requires E.target == map[]
    ensures WF(Searched([b, a, 4]))
  {
    hide WF;
    assert a != b && a in {3, 6} && b in {3, 6};
    var F := Grow(E, At(2), a);
    F := Grow(F, At(2), b);
    assert F.kids[1] == [2] && F.kids[2] == [b, a, 4] && F.kids[4] == [] && F.kids[a] == [] && F.kids[b] == [];
    SearchedEnd(F, [b, a, 4]);
  }

  /** The two references are made last. */
  lemma SearchedEnd(B: Forest, ks: seq<Id>)
    requires WF(B) && B.flight == {} && B.up == map[1 := Null, 2 := At(1), 3 := At(2), 4 := At(2), 6 := At(2)]
    requires B.kids == map[1 := [2], 2 := ks, 3 := [], 4 := [], 6 := []]
    requires B.refs == map[1 := [], 2 := [], 3 := [], 4 := [], 6 := []] && B.target == map[]
    ensures WF(Searched(ks))
  {
    hide WF;
    var F := Refer(B, At(1), 5, 3);
    F := Refer(F, At(4), 7, 6);
    var G := Searched(ks);
    assert F.up.Keys == {1, 2, 3, 4, 5, 6, 7};
    assert F.up == G.up;
    assert F.kids[1] == [5, 2] && F.kids[2] == ks && F.kids[3] == [] && F.kids[4] == [7] && F.kids[5] == [];
    assert F.kids == G.kids;
    assert F.refs[3] == [5] && F.refs[6] == [7];
    assert F.refs == G.refs;
    assert F.target == G.target;
  }

  lemma SearchedLinks(ks: seq<Id>)
    ensures var F := Searched(ks);
      && PrevOf(F, 2) == At(5) && !Below(F.up, 1, 2) && !Below(F.up, 5, 2) && Below(F.up, 3, 2) && Below(F.up, 7, 2)
      && Below(F.up, 7, 4) && !Below(F.up, 3, 6) && !Below(F.up, 3, 4) && Below(F.up, 6, 2) && Below(F.up, 3, 3)
  {
    var F := Searched(ks);
    BelowSelf(F.up, 2);
    BelowSelf(F.up, 3);
    BelowSelf(F.up, 4);
    RootAbove(F.up, 1, 2);
    RootAbove(F.up, 1, 4);
    RootAbove(F.up, 1, 6);
    ClimbFixed(F.up, 5, 1, 2);
    ClimbFixed(F.up, 3, 2, 2);
    ClimbFixed(F.up, 6, 2, 2);
    ClimbFixed(F.up, 4, 2, 2);
    ClimbFixed(F.up, 7, 4, 2);
    ClimbFixed(F.up, 7, 4, 4);
    ClimbFixed(F.up, 3, 2, 6);
    ClimbFixed(F.up, 2, 1, 6);
    ClimbFixed(F.up, 3, 2, 4);
    ClimbFixed(F.up, 2, 1, 4);
    assert [5, 2][1..] == [2] && Before([2], 2) == Null;
  }

  lemma SearchedAcyclic(ks: seq<Id>)
    ensures forall c :: !Owns(Searched(ks), c, c)
  {
    hide Owns;
    RankedAcyclic(Searched(ks), map[1 := 0, 2 := 1, 5 := 1, 3 := 2, 4 := 2, 6 := 3, 7 := 3]);
  }

  lemma SearchedHandles(ks: seq<Id>, c: Id, h: Id)
    requires c in Searched(ks).refs && h in Searched(ks).refs[c]
    ensures (c == 3 && h == 5) || (c == 6 && h == 7)
  {}

  lemma SearchedUnheld(ks: seq<Id>)
    ensures forall c :: !NullHeld(Searched(ks), c)
  {}

  lemma SearchedSheltered(ks: seq<Id>)
    ensures Sheltered(Searched(ks), 2)
  {
    var F := Searched(ks);
    SearchedLinks(ks);
    SearchedAcyclic(ks);
    SearchedUnheld(ks);
    assert F.up[6] == At(2) && |F.refs[6]| == 1;
    hide Below, Owns, PrevOf, NullHeld, Searched;
    forall c, h | c in F.refs && h in F.refs[c] && Below(F.up, h, 2) ensures c == 6 {
      SearchedHandles(ks, c, h);
    }
  }

  lemma SearchedSole(ks: seq<Id>)
    ensures Sole(Searched(ks), 2, 5)
  {
    var F := Searched(ks);
    SearchedLinks(ks);
    hide Below, PrevOf;
    forall k | k in F.up && F.up[k] == At(2) && Below(F.up, 3, k) ensures k == 3 {}
  }

  /** Every chunk has at most one reference, and none is held by NULL, and still freeing 2 goes back through 5: the
      turn of 3 releases it, and on the turn of 6 the search whether its reference 7 is from below climbs from 4 to
      the head of the list, to 2, and on to the sibling that is gone. */
  lemma SearchFollowed()
    ensures var F := Searched([3, 6, 4]);
      && Plain(F, 2) && Followed(F, 2) && !MayFree(F, 2)
      && (forall c :: c in F.refs ==> |F.refs[c]| <= 1 && !NullHeld(F, c))
  {
    var F := Searched([3, 6, 4]);
    SearchedWF();
    SearchedLinks([3, 6, 4]);
    SearchedSheltered([3, 6, 4]);
    SearchedSole([3, 6, 4]);
    SearchedUnheld([3, 6, 4]);
    SearchVerdict();
    hide WF, Below, Sheltered, Sole, PrevOf, Follows, MayFree;
    if MayFree(F, 2) {
      MayFreeNotFollowed(F, 2);
    }
  }

  lemma SearchedParts(ks: seq<Id>)
    requires WF(Searched(ks))
    ensures var F := Searched(ks);
      && Forested(F.up) && 2 in F.kids && F.kids[2] == ks && 5 in F.target && F.target[5] == 3 && 5 in F.up && 3 in F.up
      && 6 in F.refs && F.refs[6] == [7] && Below(F.up, 7, 2) && Below(F.up, 7, 4)
  {
    WFParts(Searched(ks));
    SearchedLinks(ks);
    hide WF, Below;
  }

  lemma SearchVerdict()
    ensures Follows(Searched([3, 6, 4]), 2, 5)
  {
    hide *;
    var ks := [3, 6, 4];
    var F := Searched(ks);
    SearchedWF();
    SearchedParts(ks);
    OnlyItself(F, 3);
    HolderIs(F, 6, 4);
    AfterAt(ks, 1, 2);
    LeadsHere(F, ks, 6, 4);
    TripsFrom(F, ks, 6, 4);
    GoesBackIs(F, ks, 6);
    AfterAt(ks, 0, 1);
    BackAfterFrom(F, ks, 3, 3, 6);
    FollowsLive(F, 2, 5);
  }

  /** With 6 before 3 its turn comes while 5 is still there: 6 is handed to 4, and nothing released is read. */
  lemma SearchedFreed()
    ensures var F := Searched([6, 3, 4]); MayFree(F, 2) && !Followed(F, 2) && !PrevSafe(F, Subtree(F, 2), 2)
  {
    var F := Searched([6, 3, 4]);
    SearchedWF();
    SearchedLinks([6, 3, 4]);
    SearchedSheltered([6, 3, 4]);
    SearchedSole([6, 3, 4]);
    NoSearchAfter();
    SearchedUnsafe([6, 3, 4]);
    hide WF, Below, Sheltered, Sole, PrevOf, Follows, PrevSafe, Owns;
    assert Steady(F, Subtree(F, 2) - {2});
  }

  lemma SearchedUnsafe(ks: seq<Id>)
    ensures !PrevSafe(Searched(ks), Subtree(Searched(ks), 2), 2)
  {
    var F := Searched(ks);
    SearchedLinks(ks);
    RootAbove(F.up, 1, 6);
    ClimbFixed(F.up, 2, 1, 6);
    ClimbFixed(F.up, 4, 2, 6);
    ClimbFixed(F.up, 7, 4, 6);
    hide Below, PrevOf;
    assert 6 in Subtree(F, 2) && 3 in Subtree(F, 2) && 7 in F.refs[6];
    assert !Unread(F, Subtree(F, 2), 2);
  }

  lemma NoSearchAfter()
    ensures !Follows(Searched([6, 3, 4]), 2, 5)
  {
    var ks := [6, 3, 4];
    var F := Searched(ks);
    SearchedLinks(ks);
    hide Below;
    forall k, a | After(ks, k, a) && Reached(F, 3, k) ensures !GoesBack(F, ks, a) {
      assert k == 3 && a == 4;
    }
  }
}
