/** The loop over the children of a chunk, and which chunks a caller may therefore free. */
module TallocLoop {
  import opened TallocForest
  import opened TallocOwnership
  import opened TallocPaths
  import opened TallocCascade
  import opened TallocStale
  import opened TallocTurns
  import opened TallocInner

  // ---------- before the loop and at its end ----------

  /** Unlinking `p` starts the watch. */
  lemma WatchStarts(F: Forest, p: Id)
    requires Plain(F, p) && p in F.refs && F.refs[p] == []
    ensures p in F.up && (F.up[p].At? ==> F.up[p].a in F.kids) && WF(Detach(F, p)) && Watched(Detach(F, p), p)
    ensures Watch(Detach(F, p), p) <==> Followed(F, p)
  {
    var G := Detach(F, p);
    DetachWF(F, p);
    WFParts(F);
    WFParts(G);
    NoStale(F, {});
    if PrevOf(F, p).At? {
      PrevOfSibling(F, p);
    }
    DetachKeeps(F, p);
    SameSheltered(F, G, p);
    OwnListSame(F, p);
    hide WF, Sheltered, KidsOk, RefsOk, Forested, PrevOf, Follows, Below, Sole;
    KidsKeyed(G);
    RefsKeyed(G);
    FlightUnreferred(G, p);
    if PrevOf(F, p).At? {
      SameFollows(F, G, p, PrevOf(F, p).a);
      SameSole(F, G, p, PrevOf(F, p).a);
    }
    WatchedFrom(G, p);
  }

  lemma OwnListSame(F: Forest, p: Id)
    requires Forested(F.up) && p in F.up && p in F.kids && (F.up[p].At? ==> F.up[p].a in F.kids)
    ensures p in Detach(F, p).kids && Detach(F, p).kids[p] == F.kids[p]
  {
    if F.up[p].At? {
      ParentNotBelow(F.up, p, F.up[p].a);
      BelowSelf(F.up, p);
    }
  }

  lemma SameSheltered(F: Forest, G: Forest, p: Id)
    requires Sheltered(F, p) && G.up == F.up && G.refs == F.refs
    ensures Sheltered(G, p)
  {
    SameOwners(F, G);
    hide Below, Owns;
  }

  lemma SameSole(F: Forest, G: Forest, p: Id, s: Id)
    requires Sole(F, p, s) && G.up == F.up && G.refs == F.refs && G.target == F.target
    ensures Sole(G, p, s)
  {
    hide Below;
    assert forall k :: Outer(F, p, k) ==> Outer(G, p, k);
  }

  lemma SameOwners(F: Forest, G: Forest)
    requires G.up == F.up && G.refs == F.refs
    ensures forall a, c :: Owns(G, a, c) ==> Owns(F, a, c)
  {
    SameLinks(F, G);
    hide Owner;
    TightensSelf(F, G);
    TightensOwns(F, G);
  }

  lemma SameFollows(F: Forest, G: Forest, p: Id, s: Id)
    requires G.up == F.up && G.refs == F.refs && G.target == F.target && p in F.kids && p in G.kids
    requires G.kids[p] == F.kids[p]
    ensures Follows(G, p, s) <==> Follows(F, p, s)
  {
    var ks := F.kids[p];
    hide Follows, GoesBack, Reached;
    assert forall a :: Late(F, a) <==> Late(G, a);
    forall a ensures GoesBack(F, ks, a) <==> GoesBack(G, ks, a) {
      SameTrips(F, G, ks, a);
      GoesBackIs(F, ks, a);
      GoesBackIs(G, ks, a);
    }
    forall t, k ensures Reached(F, t, k) <==> Reached(G, t, k) {
      SameReached(F, G, t, k);
    }
    if s in F.up {
      FollowsLive(F, p, s);
      FollowsLive(G, p, s);
    } else {
      FollowsDead(F, p, s);
      FollowsDead(G, p, s);
    }
  }

  lemma SameReached(F: Forest, G: Forest, t: Id, k: Id)
    requires G.up == F.up && G.refs == F.refs
    ensures Reached(F, t, k) <==> Reached(G, t, k)
  {
    hide Below;
  }

  lemma SameTrips(F: Forest, G: Forest, ks: seq<Id>, a: Id)
    requires G.up == F.up && G.refs == F.refs
    ensures Trips(F, ks, a) <==> Trips(G, ks, a)
  {
    hide Below;
    forall b, n: nat ensures Leads(F, ks, a, b, n) <==> Leads(G, ks, a, b, n) {
      SameLeads(F, G, ks, a, b, n);
    }
    assert forall b :: LeadsTo(F, ks, a, b) <==> LeadsTo(G, ks, a, b);
  }

  lemma {:induction false} SameLeads(F: Forest, G: Forest, ks: seq<Id>, a: Id, b: Id, n: nat)
    requires G.up == F.up && G.refs == F.refs
    ensures Leads(F, ks, a, b, n) <==> Leads(G, ks, a, b, n)
    decreases n
  {
    hide After, Passes;
    if Leads(F, ks, a, b, n) && !After(ks, a, b) {
      var d :| d in ks && Passes(F, b, d) && Leads(F, ks, a, d, n - 1);
      SameLeads(F, G, ks, a, d, n - 1);
      SamePasses(F, G, b, d);
    }
    if Leads(G, ks, a, b, n) && !After(ks, a, b) {
      var d :| d in ks && Passes(G, b, d) && Leads(G, ks, a, d, n - 1);
      SameLeads(F, G, ks, a, d, n - 1);
      SamePasses(F, G, b, d);
    }
  }

  lemma SamePasses(F: Forest, G: Forest, k: Id, m: Id)
    requires G.up == F.up && G.refs == F.refs
    ensures Passes(F, k, m) <==> Passes(G, k, m)
  {
    hide Below;
  }

  /** With no child left, nothing more is followed. */
  lemma WatchEnds(F: Forest, p: Id)
    requires p in F.kids && F.kids[p] == []
    ensures !Watch(F, p)
  {
    hide Reached, GoesBack;
  }

  /** A first child whose newest reference has no context or is from below `p`, after the sibling went. */
  lemma WatchNow(F: Forest, p: Id, c: Id)
    requires Watched(F, p) && F.kids[p] != [] && F.kids[p][0] == c && p in F.stale && F.stale[p] !in F.up
    requires Late(F, c) || !Outer(F, p, c)
    ensures Watch(F, p)
  {
    hide *;
    WatchedParts(F, p);
    LaterKids(F, p, c);
    FollowsDead(F, p, F.stale[p]);
    if !Late(F, c) {
      FirstTrips(F, p, c);
    }
    GoesBackIs(F, F.kids[p], c);
    AnyBackFrom(F, F.kids[p], c);
    WatchIs(F, p);
  }

  lemma AnyBackFrom(F: Forest, ks: seq<Id>, a: Id)
    requires a in ks && GoesBack(F, ks, a)
    ensures AnyBack(F, ks)
  {}

  /** The first child is not referenced from below `p`, or the chunk is held from below a later child. */
  lemma FirstTrips(F: Forest, p: Id, c: Id)
    requires Watched(F, p) && F.kids[p] != [] && F.kids[p][0] == c && !Outer(F, p, c)
    ensures Trips(F, F.kids[p], c)
  {
    hide *;
    WatchedParts(F, p);
    LaterKids(F, p, c);
    var h, d := InnerHolder(F, p, c);
    HolderIs(F, c, d);
    FirstAfter(F.kids[p], d);
    LeadsHere(F, F.kids[p], c, d);
    TripsFrom(F, F.kids[p], c, d);
  }

  // ---------- the loop ----------

  /** The effect of a free, seen within a larger region. */
  lemma FreeEffectWiden(F0: Forest, F: Forest, c: Id, D: set<Id>, E: set<Id>, r: int)
    requires FreeEffect(F0, F, c, D, r) && D <= E
    ensures FreeEffect(F0, F, c, E, r)
  {
    FreeEffectParts(F0, F, c, D, r);
    hide FreeEffect, Cascade, Trails, FreeLists, Exact, Held, Shed, RemoveHandle, WF;
    CascadeWiden(F0, F, D, E);
    TrailsWiden(F0, F, D, E);
    ListsWiden(F0, F, c, D, E);
    if Gentle(F0, E) {
      GentleFewer(F0, E, D);
    }
    FreeEffectFrom(F0, F, c, E, r);
  }

  lemma ListsWiden(F0: Forest, F: Forest, c: Id, D: set<Id>, E: set<Id>)
    requires FreeLists(F0, F, c, D) && D <= E
    ensures FreeLists(F0, F, c, E)
  {
    hide NullHeld;
    forall a | a !in E && NoHandleInto(F0, a, E) && NullFree(F0, E - {c})
      ensures NoHandleInto(F0, a, D) && NullFree(F0, D - {c})
    {}
  }

  /** The first child can be freed within its own subtree. */
  lemma TurnReady(F: Forest, p: Id, c: Id)
    requires Watched(F, p) && F.kids[p] != [] && F.kids[p][0] == c
    requires Outer(F, p, c) || p !in F.stale || F.stale[p] in F.up
    ensures
      && c in F.up && c in F.refs && c !in F.flight && F.up[c] == At(p) && Ready(F, Subtree(F, c), c)
      && (F.refs[c] != [] ==> F.refs[c][0] in F.up && F.refs[c][0] !in F.flight)
  {
    hide *;
    FirstKid(F, p);
    WatchedParts(F, p);
    KidRegion(F, p, c);
    BelowSelf(F.up, c);
    InSubtree(F, c, c);
    FirstHasNoPrev(F, p);
    ReadyFrom(F, Subtree(F, c), c);
    if F.refs[c] != [] {
      NewestHandle(F, c);
    }
  }

  lemma FirstHasNoPrev(F: Forest, p: Id)
    requires Watched(F, p) && F.kids[p] != [] && F.kids[p][0] in F.up && F.up[F.kids[p][0]] == At(p)
    ensures PrevSafe(F, Subtree(F, F.kids[p][0]), F.kids[p][0])
  {
    WatchedParts(F, p);
    BeforeAt(F.kids[p], 0);
    hide Watched, WF, Sheltered, RefsOk, Forested;
  }

  lemma KidInside(F: Forest, D: set<Id>, p: Id, c: Id)
    requires Drainable(F, D, p) && c in F.kids[p]
    ensures Subtree(F, c) <= D && c in D
  {
    DrainableParts(F, D, p);
    hide Drainable, WF, ChildRegion, Steady, DownClosed;
    forall x | x in Subtree(F, c) ensures x in D {
      var n := ClimbOf(F.up, x, c);
      ClimbInside(F, D, x, c, n);
    }
  }

  /** The turn freed the child. */
  lemma WatchedFreed(F: Forest, G: Forest, p: Id, c: Id)
    requires Watched(F, p) && F.kids[p] != [] && F.kids[p][0] == c && FreeEffect(F, G, c, Subtree(F, c), 0)
    ensures Watched(G, p) && (Watch(F, p) <==> Watch(G, p))
  {
    hide *;
    FirstKid(F, p);
    FreedTurned(F, G, p, c);
    WatchedStays(F, G, p, c);
    if p in F.stale {
      FreedFate(F, G, p, c);
    }
    WatchSame(F, G, p, c);
  }

  /** The child stays referenced, and the free asks for the parent of `p` if the reference has no context. */
  lemma WatchedHeld(F: Forest, R: Forest, p: Id, D: set<Id>, c: Id)
    requires Watched(F, p) && Drainable(F, D, p) && F.kids[p] != [] && F.kids[p][0] == c && FreeEffect(F, R, c, D, -1)
    requires c in F.refs
    ensures F.refs[c] != [] && F.refs[c][0] in F.up && (Late(F, c) <==> F.up[F.refs[c][0]] == Null)
    ensures p in R.flight && R.stale == F.stale
    ensures Late(F, c) && p in R.stale && R.stale[p] !in R.up ==> Watch(F, p)
    ensures p in R.stale && R.stale[p] in R.up ==> R.stale[p] in F.up && LivePrev(R, p)
  {
    hide *;
    FirstKid(F, p);
    WatchedParts(F, p);
    HeldChild(F, R, p, D, c);
    HandleOf(F, c);
    RemoveHandleWF(F, F.refs[c][0]);
    LateIs(F, c);
    if p in R.stale {
      ContextOfHandle(F, R, p, F.refs[c][0]);
      if Late(F, c) && F.stale[p] !in R.up {
        WatchNow(F, p, c);
      }
    }
  }

  lemma ContextOfHandle(F: Forest, R: Forest, p: Id, h: Id)
    requires p in F.stale && p in F.up && F.up[p].At? && R.up == F.up - {h} && R.stale == F.stale
    requires R.flight == F.flight
    requires F.stale[p] in F.up ==> LivePrev(F, p)
    requires h in F.up && h != p
    ensures F.up[h] == Null && F.stale[p] !in R.up ==> F.stale[p] !in F.up
    ensures F.stale[p] in R.up ==> F.stale[p] in F.up && LivePrev(R, p)
  {}

  lemma WatchedHanded(F: Forest, R: Forest, G: Forest, p: Id, D: set<Id>, c: Id)
    requires Watched(F, p) && Drainable(F, D, p) && F.kids[p] != [] && F.kids[p][0] == c && FreeEffect(F, R, c, D, -1)
    requires WF(R) && WF(G) && c in R.up && c in F.refs && F.refs[c] != [] && F.refs[c][0] in F.up && p in F.up
    requires Receiver(F, p, c).At? ==> Receiver(F, p, c).a in R.up
    requires G == Stolen(R, c, Receiver(F, p, c))
    requires (Late(F, c) || !Outer(F, p, c)) && p in F.stale ==> F.stale[p] in F.up
    ensures Watched(G, p) && (Watch(F, p) <==> Watch(G, p))
  {
    hide *;
    FirstKid(F, p);
    WatchedParts(F, p);
    HeldChild(F, R, p, D, c);
    StealReady(F, R, p, D, c);
    if Outer(F, p, c) {
      HandedTurned(F, R, G, p, c);
      RemoveHandleWF(F, F.refs[c][0]);
      StolenIsMove(R, c, Receiver(F, p, c));
      MoveFields(R, c, Receiver(F, p, c));
      WatchedStays(F, G, p, c);
      if p in F.stale {
        HandedFate(F, G, p, c);
      }
      WatchSame(F, G, p, c);
    } else {
      LaterKids(F, p, c);
      var h, d := InnerHolder(F, p, c);
      InnerHanded(F, R, G, p, c, h);
      var q :| InnerTurn(F, G, p, c, h, q);
      InnerWatched(F, G, p, c, h, q);
      InnerSame(F, G, p, c, h, q);
    }
  }

  // ---------- the whole free ----------

  /** Nothing refers to `p`: it can be unlinked, and its children freed one by one. */
  lemma PlainReleasable(F: Forest, p: Id)
    requires Plain(F, p) && p in F.refs && F.refs[p] == []
    ensures p in F.up && (F.up[p].At? ==> F.up[p].a in F.kids) && p in Subtree(F, p) && p !in F.flight
    ensures Releasable(F, Subtree(F, p) - {p}, p) && WF(Detach(F, p)) && Drainable(Detach(F, p), Subtree(F, p) - {p}, p)
  {
    var D := Subtree(F, p);
    var G := Detach(F, p);
    WatchStarts(F, p);
    WFParts(F);
    SubtreeDownClosed(F, p);
    BelowSelf(F.up, p);
    DetachKeeps(F, p);
    DetachedKids(F, D, p);
    hide *;
    PlainParts(F, p);
    InSubtree(F, p, p);
    WatchedParts(G, p);
    WatchedRegion(F, p);
    if F.up[p].At? {
      ParentNotBelow(F.up, p, F.up[p].a);
    }
    DrainableFrom(G, D - {p}, p);
    ReleasableFrom(F, D - {p}, p);
  }

  lemma PlainParts(F: Forest, p: Id)
    requires Plain(F, p)
    ensures WF(F) && F.flight == {} && p in F.up && p !in F.target && Sheltered(F, p)
    ensures F.up[p].At? ==> F.up[p].a in F.kids
  {
    hide WF, Sheltered, Sole, PrevOf;
  }

  lemma WatchedRegion(F: Forest, p: Id)
    requires Plain(F, p) && p in F.refs && F.refs[p] == []
    ensures p in F.up && (F.up[p].At? ==> F.up[p].a in F.kids)
    ensures ChildRegion(Detach(F, p), Subtree(F, p) - {p}, p) && Steady(Detach(F, p), Subtree(F, p) - {p})
  {
    hide *;
    PlainParts(F, p);
    WatchStarts(F, p);
    WatchedParts(Detach(F, p), p);
    WFParts(F);
    DetachKeeps(F, p);
    SubtreeDownClosed(F, p);
    if F.up[p].At? {
      ParentOutside(F, p);
    }
    SameDown(F, Detach(F, p), Subtree(F, p), p);
    SubtreeSame(F, Detach(F, p), p);
    ShelteredRegion(Detach(F, p), p);
  }

  lemma SameDown(F: Forest, G: Forest, D: set<Id>, p: Id)
    requires DownClosed(F, D) && G.up == F.up && p in F.up && (F.up[p].At? ==> F.up[p].a !in D)
    ensures DownClosed(G, D - {p})
  {}

  lemma SubtreeSame(F: Forest, G: Forest, p: Id)
    requires G.up == F.up
    ensures Subtree(G, p) == Subtree(F, p)
  {}

  lemma ShelteredRegion(G: Forest, p: Id)
    requires Sheltered(G, p) && WF(G) && G.flight == {p} && DownClosed(G, Subtree(G, p) - {p})
    ensures ChildRegion(G, Subtree(G, p) - {p}, p) && Steady(G, Subtree(G, p) - {p})
  {
    StaleInUp(G);
    hide WF, DownClosed, Owns, Below, Guarded;
  }

  /** A reference to `p` keeps it, whatever the sibling before it is. */
  lemma PlainHeld(F: Forest, p: Id)
    requires Plain(F, p) && p in F.refs && F.refs[p] != []
    ensures Ready(F, Subtree(F, p), p) && !Followed(F, p)
  {
    hide *;
    PlainParts(F, p);
    WFParts(F);
    BelowSelf(F.up, p);
    InSubtree(F, p, p);
    SubtreeDownClosed(F, p);
    NoStale(F, Subtree(F, p));
    QuietRegion(F, Subtree(F, p));
    PlainSteady(F, p);
    if F.up[p].At? {
      ParentOutside(F, p);
    }
    HandleOf(F, p);
    OwnOuter(F, p, F.refs[p][0]);
    HeldPrevSafe(F, Subtree(F, p), p, F.refs[p][0]);
    ReadyFrom(F, Subtree(F, p), p);
  }

  lemma OwnOuter(F: Forest, p: Id, h: Id)
    requires Sheltered(F, p) && p in F.up && Below(F.up, p, p) && p in F.refs && h in F.refs[p]
    ensures !Below(F.up, h, p)
  {}

  lemma QuietRegion(F: Forest, D: set<Id>)
    requires DownClosed(F, D) && StaleSafe(F, D) && F.flight == {}
    ensures Region(F, D) && forall p :: p !in F.flight
  {}

  lemma PlainSteady(F: Forest, p: Id)
    requires Plain(F, p)
    ensures Steady(F, Subtree(F, p) - {p})
  {
    hide WF, Below, Owns, PrevOf;
  }

  lemma HeldPrevSafe(F: Forest, D: set<Id>, p: Id, h: Id)
    requires p in F.up && (F.up[p].At? ==> F.up[p].a in F.kids) && p in F.refs && h in F.refs[p] && !Below(F.up, h, p)
    ensures PrevSafe(F, D, p) && !Followed(F, p)
  {
    hide Below, PrevOf, Follows;
    assert Held(F, p);
  }

  // ---------- what the free of a chunk needs ----------

  lemma FreeStarts(F: Forest, D: set<Id>, p: Id)
    requires Ready(F, D, p) || Unfollowed(F, D, p)
    requires p in F.refs && F.refs[p] == [] && p !in F.target
    ensures p in F.up && (F.up[p].At? ==> F.up[p].a in F.kids) && p in D
    ensures Releasable(F, D - {p}, p) && Calm(Detach(F, p), D - {p}, p)
  {
    hide Ready, Releasable, Plain, Followed, Detach, Subtree, Watched, Watch, OwnPrev;
    if Ready(F, D, p) {
      ReadyReleasable(F, D, p);
      ReadyParts(F, D, p);
    } else {
      WatchStarts(F, p);
      PlainReleasable(F, p);
    }
  }

  lemma OwnCalm(F: Forest, D: set<Id>, p: Id)
    requires OwnPrev(F, D, p)
    ensures Calm(F, D, p)
  {}

  /** Where the free of the child `c` is confined to. */
  ghost function TurnRegion(F: Forest, D: set<Id>, p: Id, c: Id): set<Id> {
    if OwnPrev(F, D, p) then D else Subtree(F, c)
  }

  /** While the verdict is no, a child that would be searched for through `p` finds the sibling there. */
  lemma CalmNow(F: Forest, p: Id, c: Id)
    requires Watched(F, p) && !Watch(F, p) && F.kids[p] != [] && F.kids[p][0] == c
    ensures (Late(F, c) || !Outer(F, p, c)) && p in F.stale ==> F.stale[p] in F.up
  {
    hide *;
    if (Late(F, c) || !Outer(F, p, c)) && p in F.stale && F.stale[p] !in F.up {
      WatchNow(F, p, c);
    }
  }

  /** What one turn of the child loop needs to know about the first child. */
  lemma CalmStart(F: Forest, D: set<Id>, p: Id, c: Id)
    requires Drainable(F, D, p) && Calm(F, D, p) && p in F.kids && F.kids[p] != [] && F.kids[p][0] == c
    ensures Ready(F, TurnRegion(F, D, p, c), c) && TurnRegion(F, D, p, c) <= D
    ensures c in F.up && c in F.refs && c !in F.flight && p in F.up
    ensures F.refs[c] != [] ==> F.refs[c][0] in F.up && F.refs[c][0] !in F.flight
  {
    hide Ready, Drainable, Watched, Watch, OwnPrev, Subtree, Outer, Late;
    if OwnPrev(F, D, p) {
      TurnStart(F, D, p);
    } else {
      WatchedLive(F, p);
      CalmNow(F, p, c);
      TurnReady(F, p, c);
      assert c in F.kids[p];
      KidInside(F, D, p, c);
    }
  }

  lemma WatchedLive(F: Forest, p: Id)
    requires Watched(F, p)
    ensures p in F.up
  {}

  lemma CalmFreed(F: Forest, G: Forest, D: set<Id>, p: Id, c: Id, r: int)
    requires Calm(F, D, p) && p in F.kids && F.kids[p] != [] && F.kids[p][0] == c && r != -1
    requires FreeEffect(F, G, c, TurnRegion(F, D, p, c), r) && (OwnPrev(F, D, p) ==> OwnPrev(G, D, p))
    ensures Calm(G, D, p)
  {
    FreeEffectParts(F, G, c, TurnRegion(F, D, p, c), r);
    hide Watched, Watch, OwnPrev, FreeEffect, Held, Subtree, Cascade, Trails, FreeLists, Exact, WF, Shed;
    if !OwnPrev(F, D, p) {
      WatchedFreed(F, G, p, c);
    }
  }

  lemma CalmHeld(F: Forest, R: Forest, D: set<Id>, p: Id, c: Id, q: Ptr)
    requires Drainable(F, D, p) && Calm(F, D, p) && FreeEffect(F, R, c, D, -1) && c in D
    requires p in F.kids && F.kids[p] != [] && F.kids[p][0] == c
    requires c in F.refs && F.refs[c] != [] && F.refs[c][0] in F.up && q == F.up[F.refs[c][0]]
    ensures q == Null && p in R.flight ==> LivePrev(R, p)
  {
    hide Drainable, Watched, Watch, OwnPrev, FreeEffect, LivePrev, Late;
    NotStaleLive(R, p);
    if OwnPrev(F, D, p) {
      ParentReachable(F, R, p, D, c, q);
    } else {
      WatchedHeld(F, R, p, D, c);
    }
  }

  lemma CalmHanded(F: Forest, R: Forest, G: Forest, D: set<Id>, p: Id, c: Id)
    requires Drainable(F, D, p) && Calm(F, D, p) && FreeEffect(F, R, c, D, -1) && WF(R) && WF(G)
    requires p in F.kids && F.kids[p] != [] && F.kids[p][0] == c && c in R.up && p in F.up
    requires c in F.refs && F.refs[c] != [] && F.refs[c][0] in F.up
    requires Receiver(F, p, c).At? ==> Receiver(F, p, c).a in R.up
    requires G == Stolen(R, c, Receiver(F, p, c)) && (OwnPrev(F, D, p) ==> OwnPrev(G, D, p))
    ensures Calm(G, D, p)
  {
    hide Drainable, Watched, Watch, OwnPrev, FreeEffect, LivePrev, Late, Outer, Receiver, Stolen, WF;
    if !OwnPrev(F, D, p) {
      CalmNow(F, p, c);
      WatchedHanded(F, R, G, p, D, c);
    }
  }

  // ---------- the two conditions together ----------

  lemma FollowedBack(F: Forest, p: Id) returns (s: Id, c: Id, a: Id)
    requires Followed(F, p) && PrevOf(F, p).a in F.up
    ensures p in F.up && (F.up[p].At? ==> F.up[p].a in F.kids) && PrevOf(F, p) == At(s) && s in F.target && p in F.kids
    ensures p in F.refs && F.refs[p] == [] && c in F.kids[p] && Below(F.up, F.target[s], c) && a in F.kids[p]
    ensures Late(F, a) || Trips(F, F.kids[p], a)
  {
    hide PrevOf, Below, Late, Trips, After, Reached;
    s := PrevOf(F, p).a;
    var k, b :| After(F.kids[p], k, b) && Reached(F, F.target[s], k) && GoesBack(F, F.kids[p], b);
    AfterMembers(F.kids[p], k, b);
    ReachedBelow(F, F.target[s], k);
    c, a := k, b;
  }

  lemma LateHeld(F: Forest, k: Id)
    requires Late(F, k)
    ensures NullHeld(F, k)
  {
    var h := F.refs[k][0];
    assert h in F.refs[k] && h in F.up;
  }

  /** `MayFree` rules out every heap on which the released sibling is followed. */
  lemma MayFreeNotFollowed(F: Forest, p: Id)
    requires MayFree(F, p)
    ensures !Followed(F, p)
  {
    if Followed(F, p) && PrevSafe(F, Subtree(F, p), p) {
      WFParts(F);
      hide WF, Steady, KidsOk, RefsOk, Forested, Unread, Followed, Below, Late, Trips, PrevOf, NullHeld;
      PrevOfSibling(F, p) by { FollowedPrev(F, p); }
      var s, c, a := FollowedBack(F, p);
      KidMembers(F, p, a);
      KidMembers(F, p, c);
      TargetLive(F, s);
      BelowTrans(F.up, F.target[s], c, p);
      InSubtree(F, p, F.target[s]);
      Unheld(F, p);
      if Late(F, a) {
        LateHeld(F, a);
      } else {
        UnreadNoTrips(F, p, a);
      }
    }
  }

  /** Where no search leads up to `p`, no child is held from below another. */
  lemma UnreadNoTrips(F: Forest, p: Id, a: Id)
    requires WF(F) && Unread(F, Subtree(F, p), p) && p in F.kids && a in F.kids[p]
    ensures !Trips(F, F.kids[p], a)
  {
    WFParts(F);
    KidMembers(F, p, a);
    hide WF, KidsOk, RefsOk, Forested, Below, LeadsTo;
    if Trips(F, F.kids[p], a) {
      var b :| b in F.kids[p] && Holder(F, a, b) && LeadsTo(F, F.kids[p], a, b);
      KidMembers(F, p, b);
      var h := F.refs[a][0];
      assert h in F.refs[a];
      BelowTrans(F.up, h, b, p);
      SiblingsApart(F, p, b, a, h);
    }
  }

  lemma FollowedPrev(F: Forest, p: Id)
    requires Followed(F, p)
    ensures p in F.up && (F.up[p].At? ==> F.up[p].a in F.kids) && PrevOf(F, p).At?
  {
    hide Follows, PrevOf;
  }

  /** Where everything below the chunk is plain, `MayFree` is exact. */
  lemma MayFreeIff(F: Forest, p: Id)
    requires Plain(F, p)
    ensures MayFree(F, p) <==> !Followed(F, p)
  {
    PlainParts(F, p);
    PlainSteady(F, p);
    hide Plain, WF, Followed, Steady, PrevSafe;
    if MayFree(F, p) {
      MayFreeNotFollowed(F, p);
    }
  }

  lemma MayFreeReady(F: Forest, p: Id)
    requires MayFree(F, p)
    ensures Ready(F, Subtree(F, p), p) || Unfollowed(F, Subtree(F, p), p)
  {
    WFParts(F);
    SubtreeDownClosed(F, p);
    NoStale(F, Subtree(F, p));
    BelowSelf(F.up, p);
    if F.up[p].At? {
      ParentOutside(F, p);
    }
    hide WF, Steady, PrevSafe, DownClosed, StaleSafe, Plain, Followed, KidsOk, RefsOk, Forested, Below;
    if PrevSafe(F, Subtree(F, p), p) {
      ReadyFrom(F, Subtree(F, p), p);
    }
  }

  lemma KidMembers(F: Forest, p: Id, k: Id)
    requires KidsOk(F.up, F.kids, F.flight) && Shape(F) && Forested(F.up) && p in F.kids && k in F.kids[p]
    ensures k in F.up && F.up[k] == At(p) && Below(F.up, k, p) && k != p && k in Subtree(F, p)
  {
    BelowSelf(F.up, p);
    StepUp(F.up, k, p);
    ParentNotBelow(F.up, k, p);
  }
}
