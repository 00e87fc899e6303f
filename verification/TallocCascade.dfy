/** What one call of `_talloc_free` does to a heap, and what each turn of its child loop does. */
module TallocCascade {
  import opened TallocForest
  import opened TallocOwnership
  import opened TallocPaths

  /** The outcome of freeing `p` in heap F0, when the cascade is confined to D. */
  ghost predicate FreeEffect(F0: Forest, F: Forest, p: Id, D: set<Id>, r: int) {
    var ok :=
      && WF(F0) && WF(F) && p in F0.up
      && r == (if Held(F0, p) then -1 else 0)
      && (r == -1 ==> F == Shed(F0, p))
      && (r == 0 ==> p !in F.up)
      && Cascade(F0, F, D) && Trails(F0, F, D) && FreeLists(F0, F, p, D)
      && F.flight == F0.flight && F.stale == F0.stale
      && (p in F0.target ==> F == RemoveHandle(F0, p))
      && (Gentle(F0, D) && p !in F0.target ==> Exact(F0, F, F.flight, {p}));
    ok
  }

  lemma FreeEffectParts(F0: Forest, F: Forest, p: Id, D: set<Id>, r: int)
    requires FreeEffect(F0, F, p, D, r)
    ensures WF(F0) && WF(F) && p in F0.up
    ensures r == if Held(F0, p) then -1 else 0
    ensures r == -1 ==> F == Shed(F0, p)
    ensures r == 0 ==> p !in F.up
    ensures Cascade(F0, F, D) && Trails(F0, F, D) && FreeLists(F0, F, p, D)
    ensures F.flight == F0.flight && F.stale == F0.stale
    ensures p in F0.target ==> F == RemoveHandle(F0, p)
    ensures Gentle(F0, D) && p !in F0.target ==> Exact(F0, F, F.flight, {p})
  {
    hide WF, Held, Shed, Cascade, Trails, FreeLists, RemoveHandle, Gentle, Exact;
  }

  lemma FreeEffectFrom(F0: Forest, F: Forest, p: Id, D: set<Id>, r: int)
    requires WF(F0) && WF(F) && p in F0.up
    requires r == if Held(F0, p) then -1 else 0
    requires r == -1 ==> F == Shed(F0, p)
    requires r == 0 ==> p !in F.up
    requires Cascade(F0, F, D) && Trails(F0, F, D) && FreeLists(F0, F, p, D)
    requires F.flight == F0.flight && F.stale == F0.stale
    requires p in F0.target ==> F == RemoveHandle(F0, p)
    requires Gentle(F0, D) && p !in F0.target ==> Exact(F0, F, F.flight, {p})
    ensures FreeEffect(F0, F, p, D, r)
  {
    hide WF, Held, Shed, Cascade, Trails, FreeLists, RemoveHandle, Gentle, Exact;
  }

  /** `p` can be freed by a cascade confined to D. */
  ghost predicate Ready(F: Forest, D: set<Id>, p: Id) {
    var ok := WF(F) && p in F.up && p !in F.flight && Freeable(F, D, p);
    ok
  }

  lemma ReadyParts(F: Forest, D: set<Id>, p: Id)
    requires Ready(F, D, p)
    ensures WF(F) && p in F.up && p !in F.flight && p in D && Region(F, D) && Steady(F, D - {p})
    ensures F.up[p].At? ==> F.up[p].a !in D && F.up[p].a in F.kids && PrevSafe(F, D, p)
    ensures p in F.refs
  {
    hide KidsOk, RefsOk, HandlesOk, FlightOk, Forested, Region, Steady, PrevSafe;
  }

  lemma ReadyFrom(F: Forest, D: set<Id>, p: Id)
    requires WF(F) && p in F.up && p !in F.flight && p in D && Region(F, D) && Steady(F, D - {p})
    requires F.up[p].At? ==> F.up[p].a !in D && F.up[p].a in F.kids && PrevSafe(F, D, p)
    ensures Ready(F, D, p)
  {
    hide WF, Region, Steady, PrevSafe;
  }

  // ---------- freeing a referenced chunk ----------

  lemma HandleRegion(F: Forest, h: Id)
    requires WF(F) && h in F.target
    ensures Region(F, {h})
  {
    LeafHandle(F, h);
    hide KidsOk, RefsOk, Forested, Below;
  }

  lemma HandlePrev(F: Forest, h: Id)
    requires WF(F) && h in F.target && h in F.up && h !in F.flight
    ensures F.up[h].At? ==> F.up[h].a != h && F.up[h].a in F.kids && PrevSafe(F, {h}, h)
  {
    if F.up[h].At? {
      ParentLive(F, h);
      ParentNotBelow(F.up, h, F.up[h].a);
      BelowSelf(F.up, h);
      HandlePrevSafe(F, h);
    }
  }

  lemma HandlePrevSafe(F: Forest, h: Id)
    requires WF(F) && h in F.target && h in F.up && h !in F.flight && F.up[h].At? && F.up[h].a in F.kids
    ensures PrevSafe(F, {h}, h)
  {
    LeafHandle(F, h);
    hide WF, PrevOf, Below;
    assert {h} - {h} == {};
  }

  /** The newest handle of `p` can itself be freed. */
  lemma HandleReady(F: Forest, D: set<Id>, p: Id)
    requires Ready(F, D, p) && p in F.refs && F.refs[p] != []
    ensures var h := F.refs[p][0];
      && h in F.up && h in F.target && F.target[h] == p && h != p && h !in F.flight
      && h in F.refs && F.refs[h] == [] && Ready(F, {h}, h)
  {
    ReadyParts(F, D, p);
    hide Ready;
    NewestHandle(F, p);
    var h := F.refs[p][0];
    LeafHandle(F, h);
    hide WF, RemoveHandle, Region;
    HandleRegion(F, h);
    HandlePrev(F, h);
    ReadyFrom(F, {h}, h);
  }

  /** Asking whether the newest handle of `p` is from below `p` follows no dangling link. */
  lemma ReadyClear(F: Forest, D: set<Id>, p: Id)
    requires Ready(F, D, p) && p in F.refs && F.refs[p] != []
    ensures ClearTo(F, F.refs[p][0], p)
  {
    ReadyParts(F, D, p);
    WFParts(F);
    FlightLive(F);
    var h := F.refs[p][0];
    assert h in F.refs[p];
    RegionSplit(F, D);
    hide WF, Ready, Steady, PrevSafe, KidsOk, RefsOk, Forested, Below, LivePrev, Region;
    forall f | f in F.flight && Below(F.up, h, f) && !LivePrev(F, f)
      ensures Below(F.up, h, p) && Below(F.up, p, f)
    {
      ClearBy(F, D, p, h, f);
      var n := ClimbOf(F.up, h, p);
      Comparable(F.up, h, p, f, n);
      OutsideAside(F, D, p, f);
    }
  }

  lemma ClearBy(F: Forest, D: set<Id>, p: Id, h: Id, f: Id)
    requires Region(F, D) && p in D && p in F.refs && h in F.refs[p] && !LivePrev(F, f) && Below(F.up, h, f)
    ensures Below(F.up, h, p)
  {
    hide Below;
    assert f in F.stale && Guarded(F, D, f);
  }

  lemma LeafHandle(F: Forest, h: Id)
    requires WF(F) && h in F.target
    ensures h in F.refs && F.refs[h] == []
  {}

  /** Removing a handle of `p` keeps `p` ready. */
  lemma ReadyAfterHandle(F: Forest, D: set<Id>, p: Id)
    requires Ready(F, D, p) && p in F.refs && F.refs[p] != [] && WF(F)
    requires F.refs[p][0] in F.target && F.refs[p][0] in F.up && Below(F.up, F.refs[p][0], p)
    ensures Ready(RemoveHandle(F, F.refs[p][0]), D, p)
  {
    ReadyParts(F, D, p);
    hide Ready;
    NewestHandle(F, p);
    var h := F.refs[p][0];
    hide WF, RemoveHandle, Below, Region, Steady, Cascade, Confined, PrevSafe, Trails;
    RemoveHandleWF(F, h);
    RemoveHandleCascade(F, h, D);
    RemoveHandleTrails(F, h, D);
    var G := RemoveHandle(F, h);
    CascadeConfined(F, G, D);
    RegionStays(F, G, D);
    SteadyStays(F, G, D - {p}, D);
    PrevAfterHandle(F, D, p);
    ReadyFrom(G, D, p);
  }

  lemma CascadeConfined(F0: Forest, F: Forest, D: set<Id>)
    requires Cascade(F0, F, D)
    ensures Confined(F0, F, D)
  {}

  lemma CascadeLoosened(F0: Forest, F: Forest, D: set<Id>)
    requires Cascade(F0, F, D)
    ensures Loosened(F0, F, D)
  {}

  lemma PrevAfterHandle(F: Forest, D: set<Id>, p: Id)
    requires WF(F) && p in F.up && p in F.refs && F.refs[p] != [] && p !in F.flight && p in D && Region(F, D)
    requires F.refs[p][0] in F.target && F.refs[p][0] in F.up && Below(F.up, F.refs[p][0], p)
    requires F.up[p].At? ==> F.up[p].a !in D && F.up[p].a in F.kids && PrevSafe(F, D, p)
    ensures var G := RemoveHandle(F, F.refs[p][0]);
      p in G.up && G.up[p] == F.up[p] && (G.up[p].At? ==> G.up[p].a in G.kids && PrevSafe(G, D, p))
  {
    NewestHandle(F, p);
    var h := F.refs[p][0];
    var G := RemoveHandle(F, h);
    RemoveHandleWF(F, h);
    if F.up[p].At? {
      SiblingNotBelow(F, h, p);
      hide WF, RemoveHandle, Region, PrevSafe, Below, Unread, Trail, NullFree;
      SameSiblingList(F, h, F.up[p].a);
      HeldStep(F, p);
      UnreadAfterHandle(F, D, p, h, p);
      RemoveHandleCascade(F, h, D);
      CascadeLoosened(F, G, D);
      CascadeConfined(F, G, D);
      if NullFree(F, D - {p}) {
        NullFreeStays(F, G, D, D - {p});
      }
      PrevStillSafe(F, G, D, p);
    }
  }

  lemma UnreadAfterHandle(F: Forest, D: set<Id>, p: Id, h: Id, f: Id)
    requires WF(F) && h in F.target && F.target[h] == p && p in D && Region(F, D)
    ensures Unread(F, D, f) ==> Unread(RemoveHandle(F, h), D, f)
  {
    if Unread(F, D, f) {
      var G := RemoveHandle(F, h);
      RemoveHandleWF(F, h);
      RemoveHandleTrail(F, h, f);
      RemoveHandleCascade(F, h, D);
      CascadeConfined(F, G, D);
      RegionSplit(F, D);
      WFParts(F);
      WFParts(G);
      hide WF, RemoveHandle, Region, Unread, Trail, Cascade, Confined, KidsOk, RefsOk, Forested;
      UnreadStays(F, G, D, f);
    }
  }

  lemma PrevStillSafe(F: Forest, G: Forest, D: set<Id>, p: Id)
    requires p in F.up && F.up[p].At? && F.up[p].a in F.kids && PrevSafe(F, D, p)
    requires p in G.up && G.up[p] == F.up[p] && G.up[p].a in G.kids
    requires G.kids[G.up[p].a] == F.kids[G.up[p].a]
    requires Confined(F, G, D) && (Held(F, p) ==> Held(G, p)) && (Unread(F, D, p) ==> Unread(G, D, p))
    requires NullFree(F, D - {p}) ==> NullFree(G, D - {p})
    ensures PrevSafe(G, D, p)
  {
    hide Held, Unread, NullFree;
  }

  lemma SiblingNotBelow(F: Forest, h: Id, p: Id)
    requires WF(F) && p in F.up && h in F.up && h != p && Below(F.up, h, p) && F.up[p].At?
    ensures F.up[h] != F.up[p] && F.up[p] != At(h)
  {
    BelowStep(F.up, h, p);
    ParentNotBelow(F.up, p, F.up[p].a);
  }

  /** The reference branch, when the newest owner is inside the subtree of `p`. */
  lemma FreeAgain(F0: Forest, F: Forest, p: Id, D: set<Id>, r: int)
    requires Ready(F0, D, p) && p in F0.refs && F0.refs[p] != [] && WF(F0) && F0.refs[p][0] in F0.target
    requires Below(F0.up, F0.refs[p][0], p)
    requires FreeEffect(RemoveHandle(F0, F0.refs[p][0]), F, p, D, r)
    ensures FreeEffect(F0, F, p, D, r)
  {
    ReadyParts(F0, D, p);
    hide Ready, FreeEffect;
    NewestHandle(F0, p);
    var h := F0.refs[p][0];
    hide WF, RemoveHandle, Below, Cascade, Confined, Loosened, Held, Exact, Region, Steady, Trails, FreeLists;
    var G := RemoveHandle(F0, h);
    FreeEffectParts(G, F, p, D, r);
    RemoveHandleWF(F0, h);
    RemoveHandleCascade(F0, h, D);
    HeldStep(F0, p);
    CascadeTrans(F0, G, F, D);
    AgainPaths(F0, F, p, h, D);
    NotHandle(F0, h, p);
    if Gentle(F0, D) {
      NoBackReference(F0, D, h, p);
    }
    FreeEffectFrom(F0, F, p, D, r);
  }

  lemma AgainPaths(F0: Forest, F: Forest, p: Id, h: Id, D: set<Id>)
    requires WF(F0) && h in F0.target && F0.target[h] == p && h in F0.up && p in D && D !! F0.flight
    requires var G := RemoveHandle(F0, h);
      p in G.up && WF(F) && Cascade(F0, G, D) && Cascade(G, F, D) && Trails(G, F, D) && FreeLists(G, F, p, D)
      && F.flight == G.flight && F.stale == G.stale
    ensures Trails(F0, F, D) && FreeLists(F0, F, p, D)
  {
    var G := RemoveHandle(F0, h);
    RemoveHandleWF(F0, h);
    RemoveHandleTrails(F0, h, D);
    RemoveHandleLists(F0, h, p, D);
    CascadeConfined(F0, G, D);
    CascadeLoosened(F0, G, D);
    CascadeConfined(G, F, D);
    WFParts(F);
    WFParts(G);
    hide WF, RemoveHandle, Confined, Cascade, Loosened, Trails, FreeLists, KidsOk, RefsOk, Forested;
    TrailsThen(F0, G, F, D);
    ConfinedLive(G, F, D);
    FreeListsAgain(F0, G, F, p, D);
  }

  lemma NotHandle(F: Forest, h: Id, p: Id)
    requires WF(F) && h in F.target && F.target[h] == p
    ensures p !in F.target
  {}

  lemma NoBackReference(F: Forest, D: set<Id>, h: Id, p: Id)
    requires WF(F) && Gentle(F, D) && p in D && p in F.up && p in F.refs && h in F.refs[p] && h in F.up && h != p
    ensures !Below(F.up, h, p)
  {
    if Below(F.up, h, p) {
      BackReferenceCycles(F, h, p);
    }
  }

  /** The reference branch, when the newest owner is elsewhere. */
  lemma FreeHeld(F0: Forest, p: Id, D: set<Id>)
    requires Ready(F0, D, p) && p in F0.refs && F0.refs[p] != [] && WF(F0) && F0.refs[p][0] in F0.target
    requires !Below(F0.up, F0.refs[p][0], p)
    ensures FreeEffect(F0, RemoveHandle(F0, F0.refs[p][0]), p, D, -1)
  {
    ReadyParts(F0, D, p);
    hide Ready, FreeEffect;
    NewestHandle(F0, p);
    var h := F0.refs[p][0];
    hide WF, RemoveHandle, Below, Cascade, Confined, Held, Exact, Region, Steady, Trails, FreeLists;
    RemoveHandleWF(F0, h);
    RemoveHandleCascade(F0, h, D);
    RemoveHandleTrails(F0, h, D);
    RemoveHandleLists(F0, h, p, D);
    HeldStep(F0, p);
    NotHandle(F0, h, p);
    FreeEffectFrom(F0, RemoveHandle(F0, h), p, D, -1);
  }

  // ---------- the child loop ----------

  /** The children of `p` can be drained by a cascade confined to D. */
  ghost predicate Drainable(F: Forest, D: set<Id>, p: Id) {
    var ok :=
      && WF(F) && p in F.up && p in F.kids && p !in D && p !in F.target
      && ChildRegion(F, D, p) && Steady(F, D) && (forall c :: c in F.kids[p] ==> c in D)
      && (F.stale != map[] ==> p in F.flight);
    ok
  }

  /** What the child loop of `p` has done since heap F0. */
  ghost predicate DrainEffect(F0: Forest, F: Forest, p: Id, D: set<Id>) {
    var ok :=
      && WF(F0) && WF(F) && p in F.up && p in F.kids && p in F0.kids
      && Cascade(F0, F, D) && (p in F.flight ==> Trails(F0, F, D)) && DrainLists(F0, F, p, D)
      && F.flight == F0.flight && F.stale == F0.stale
      && (F0.kids[p] == [] ==> F == F0)
      && (Gentle(F0, D) ==> Exact(F0, F, F.flight + {p}, {}));
    ok
  }

  lemma DrainableParts(F: Forest, D: set<Id>, p: Id)
    requires Drainable(F, D, p)
    ensures WF(F) && p in F.up && p in F.kids && p !in D && p !in F.target && ChildRegion(F, D, p) && Steady(F, D)
    ensures D !! F.flight && DownClosed(F, D)
    ensures forall c :: c in F.kids[p] ==> c in D
    ensures F.stale != map[] ==> p in F.flight
  {
    hide WF, DownClosed, Guarded, Steady;
  }

  lemma DrainableFrom(F: Forest, D: set<Id>, p: Id)
    requires WF(F) && p in F.up && p in F.kids && p !in D && p !in F.target && ChildRegion(F, D, p) && Steady(F, D)
    requires forall c :: c in F.kids[p] ==> c in D
    requires F.stale != map[] ==> p in F.flight
    ensures Drainable(F, D, p)
  {
    hide WF, DownClosed, Guarded, Steady;
  }

  lemma DrainEffectParts(F0: Forest, F: Forest, p: Id, D: set<Id>)
    requires DrainEffect(F0, F, p, D)
    ensures WF(F0) && WF(F) && p in F.up && p in F.kids && p in F0.kids && Cascade(F0, F, D)
    ensures (p in F.flight ==> Trails(F0, F, D)) && DrainLists(F0, F, p, D)
    ensures F.flight == F0.flight && F.stale == F0.stale
    ensures F0.kids[p] == [] ==> F == F0
    ensures Gentle(F0, D) ==> Exact(F0, F, F.flight + {p}, {})
  {
    hide WF, Cascade, Trails, DrainLists, Gentle, Exact;
  }

  lemma DrainEffectFrom(F0: Forest, F: Forest, p: Id, D: set<Id>)
    requires WF(F0) && WF(F) && p in F.up && p in F.kids && p in F0.kids && Cascade(F0, F, D)
    requires (p in F.flight ==> Trails(F0, F, D)) && DrainLists(F0, F, p, D)
    requires F.flight == F0.flight && F.stale == F0.stale
    requires F0.kids[p] == [] ==> F == F0
    requires Gentle(F0, D) ==> Exact(F0, F, F.flight + {p}, {})
    ensures DrainEffect(F0, F, p, D)
  {
    hide WF, Cascade, Trails, DrainLists, Gentle, Exact;
  }

  lemma DrainStart(F: Forest, D: set<Id>, p: Id)
    requires Drainable(F, D, p)
    ensures DrainEffect(F, F, p, D)
  {
    DrainableParts(F, D, p);
    WFParts(F);
    CascadeSelf(F, D);
    SameUpTrails(F, F, D);
    hide WF, Cascade, Gentle, Trails;
    DrainEffectFrom(F, F, p, D);
  }

  /** Children of `p` come from nowhere but D. */
  lemma KidsStayInside(F0: Forest, F: Forest, D: set<Id>, p: Id)
    requires KidsOk(F0.up, F0.kids, F0.flight) && KidsOk(F.up, F.kids, F.flight) && p in F.kids && p in F0.kids
    requires Confined(F0, F, D) && F.flight == F0.flight && (forall c :: c in F0.kids[p] ==> c in D)
    ensures forall c :: c in F.kids[p] ==> c in D
  {
    forall c | c in F.kids[p] ensures c in D {
      assert F.up[c] == At(p) && c in F0.up && c !in F0.flight;
    }
  }

  lemma DrainableStays(F0: Forest, F: Forest, D: set<Id>, p: Id)
    requires Drainable(F0, D, p) && WF(F) && Cascade(F0, F, D) && (p in F.flight ==> Trails(F0, F, D))
    requires F.flight == F0.flight && F.stale == F0.stale
    ensures Drainable(F, D, p)
  {
    DrainableParts(F0, D, p);
    WFParts(F0);
    WFParts(F);
    CascadeConfined(F0, F, D);
    StaysLive(F0, F, D, p);
    hide WF, Cascade, KidsOk, RefsOk, Forested, Confined, ChildRegion, Steady, Drainable, Trails;
    ChildRegionStays(F0, F, D, p);
    SteadyStays(F0, F, D, D);
    KidsStayInside(F0, F, D, p);
    DrainableFrom(F, D, p);
  }

  lemma StaysLive(F0: Forest, F: Forest, D: set<Id>, p: Id)
    requires Confined(F0, F, D) && p in F0.up && p !in D && p !in F0.target && Shape(F)
    ensures p in F.up && p in F.kids && p !in F.target
  {}

  lemma FirstChildOf(F: Forest, D: set<Id>, p: Id)
    requires Drainable(F, D, p) && p in F.kids && F.kids[p] != []
    ensures var c := F.kids[p][0]; c in D && c in F.up && c !in F.flight && F.up[c] == At(p) && c in F.refs
    ensures PrevOf(F, F.kids[p][0]) == Null
  {
    DrainableParts(F, D, p);
    WFParts(F);
    hide WF, RefsOk, Forested, Steady, ChildRegion;
    var c := F.kids[p][0];
    assert c in F.kids[p];
    BeforeAt(F.kids[p], 0);
  }

  /** The first child of `p` is ready to be freed. */
  lemma FirstChildReady(F: Forest, D: set<Id>, p: Id)
    requires Drainable(F, D, p) && OwnPrev(F, D, p) && p in F.kids && F.kids[p] != []
    ensures Ready(F, D, F.kids[p][0])
  {
    FirstChildOf(F, D, p);
    DrainableParts(F, D, p);
    OwnRegion(F, D, p);
    hide WF, Region, ChildRegion, OwnPrev, Drainable, PrevOf, Ready;
    ReadyFrom(F, D, F.kids[p][0]);
  }

  lemma OwnRegion(F: Forest, D: set<Id>, p: Id)
    requires ChildRegion(F, D, p) && OwnPrev(F, D, p)
    ensures Region(F, D)
  {
    hide LivePrev, Bystander, Unread, NullFree, DownClosed;
  }

  /** A gentle heap frees only chunks without references. */
  lemma GentleFreed(F0: Forest, F: Forest, D: set<Id>, c: Id, p: Id, A: set<Id>)
    requires FreeEffect(F0, F, c, D, 0) && Gentle(F0, D) && c in D && c in F0.up && F0.up[c] == At(p) && A == F.flight
    ensures Exact(F0, F, A + {p}, {})
  {
    FreeEffectParts(F0, F, c, D, 0);
    hide FreeEffect;
    UnheldGentle(F0, D, c);
    if c in F0.target {
      HandleExact(F0, c, p, A);
    } else {
      hide WF, Gentle, Cascade, Held, Shed, RemoveHandle;
      OneOwner(F0, F, c, p, A);
    }
  }

  /** Freeing a handle of `p` takes an owner away from its target: `p` itself. */
  lemma HandleExact(F: Forest, h: Id, p: Id, A: set<Id>)
    requires WF(F) && h in F.target && h in F.up && F.up[h] == At(p)
    ensures Exact(F, RemoveHandle(F, h), A + {p}, {})
  {
    RemoveHandleWF(F, h);
    WFLists(F);
    LeafHandle(F, h);
    assert F.target[h] != h;
    hide WF, RemoveHandle;
    RemoveHandleOwners(F, RemoveHandle(F, h), h);
  }

  lemma UnheldGentle(F: Forest, D: set<Id>, c: Id)
    requires WF(F) && c in F.up && c in D && Gentle(F, D) && !Held(F, c)
    ensures c in F.refs && F.refs[c] == []
  {
    if F.refs[c] != [] {
      NewestHandle(F, c);
      hide WF, RemoveHandle;
      NoBackReference(F, D, F.refs[c][0], c);
    }
  }

  lemma OneOwner(F0: Forest, F: Forest, c: Id, p: Id, A: set<Id>)
    requires Exact(F0, F, A, {c}) && c in F0.refs && F0.refs[c] == [] && c in F0.up && F0.up[c] == At(p) && c !in F.up
    ensures Exact(F0, F, A + {p}, {})
  {}

  /** One turn of the loop when the child was freed. */
  lemma DrainFreed(F0: Forest, F1: Forest, F: Forest, p: Id, D: set<Id>, c: Id)
    requires Drainable(F1, D, p) && DrainEffect(F0, F1, p, D) && p in F1.kids && F1.kids[p] != [] && F1.kids[p][0] == c
    requires p in F0.kids && F0.kids[p] != []
    requires FreeEffect(F1, F, c, D, 0)
    ensures Drainable(F, D, p) && DrainEffect(F0, F, p, D) && c in F1.up && c !in F.up && F.up.Keys <= F1.up.Keys
    ensures OwnPrev(F1, D, p) ==> OwnPrev(F, D, p)
  {
    FirstChildOf(F1, D, p);
    FreeEffectParts(F1, F, c, D, 0);
    DrainEffectParts(F0, F1, p, D);
    DrainableParts(F1, D, p);
    hide WF, Drainable, DrainEffect, FreeEffect, Cascade, Gentle, Exact, Held, ChildRegion, Steady, PrevOf;
    hide Confined, Trails;
    hide FreeLists, DrainLists, OwnPrev;
    OwnPrevStays(F1, F, D, p);
    DrainableStays(F1, F, D, p);
    DrainableParts(F, D, p);
    CascadeTrans(F0, F1, F, D);
    FreedPaths(F0, F1, F, p, D, c);
    if Gentle(F0, D) {
      FreedExact(F0, F1, F, p, D, c);
    }
    CascadeConfined(F1, F, D);
    ConfinedLive(F1, F, D);
    DrainEffectFrom(F0, F, p, D);
  }

  lemma FreedPaths(F0: Forest, F1: Forest, F: Forest, p: Id, D: set<Id>, c: Id)
    requires WF(F0) && WF(F1) && WF(F) && Cascade(F0, F1, D) && Cascade(F1, F, D) && Trails(F1, F, D)
    requires p in F.flight ==> Trails(F0, F1, D)
    requires D !! F1.flight && F.flight == F1.flight
    requires DrainLists(F0, F1, p, D) && FreeLists(F1, F, c, D) && c in F1.up && F1.up[c] == At(p)
    ensures (p in F.flight ==> Trails(F0, F, D)) && DrainLists(F0, F, p, D)
  {
    CascadeConfined(F0, F1, D);
    CascadeConfined(F1, F, D);
    CascadeLoosened(F0, F1, D);
    WFParts(F);
    WFParts(F1);
    hide WF, Cascade, Confined, Loosened, Trails, DrainLists, FreeLists, KidsOk, RefsOk, Forested;
    if p in F.flight {
      TrailsThen(F0, F1, F, D);
    }
    ConfinedLive(F1, F, D);
    DrainFreedLists(F0, F1, F, p, D, c);
  }

  lemma FreedExact(F0: Forest, F1: Forest, F: Forest, p: Id, D: set<Id>, c: Id)
    requires Gentle(F0, D) && Cascade(F0, F1, D) && FreeEffect(F1, F, c, D, 0) && c in F1.up && c in D
    requires F1.up[c] == At(p)
    requires Gentle(F0, D) ==> Exact(F0, F1, F1.flight + {p}, {})
    ensures Exact(F0, F, F.flight + {p}, {})
  {
    FreeEffectParts(F1, F, c, D, 0);
    CascadeConfined(F1, F, D);
    hide FreeEffect, Cascade, Gentle, Exact, Confined;
    GentleStays(F0, F1, D, D);
    GentleFreed(F1, F, D, c, p, F.flight);
    ConfinedTargets(F0, F1, F, D);
    ExactTrans(F0, F1, F, F.flight + {p}, {});
  }

  lemma ConfinedLive(F0: Forest, F: Forest, D: set<Id>)
    requires Confined(F0, F, D)
    ensures F.up.Keys <= F0.up.Keys
  {}

  lemma ConfinedTargets(F0: Forest, F1: Forest, F: Forest, D: set<Id>)
    requires Cascade(F0, F1, D) && Confined(F1, F, D)
    ensures F.up.Keys <= F1.up.Keys && F1.target.Keys <= F0.target.Keys
  {
    forall h | h in F1.target.Keys ensures h in F0.target.Keys {
      assert h in F1.target;
    }
  }

  /** A held child lost exactly its newest handle. */
  lemma HeldChild(F: Forest, G: Forest, p: Id, D: set<Id>, c: Id)
    requires Drainable(F, D, p) && p in F.kids && F.kids[p] != [] && F.kids[p][0] == c
    requires FreeEffect(F, G, c, D, -1)
    ensures WF(F) && c in F.up && c !in F.flight && F.up[c] == At(p) && c in F.refs && F.refs[c] != []
    ensures !Below(F.up, F.refs[c][0], c) && c in D
    ensures F.refs[c][0] in F.target && G == RemoveHandle(F, F.refs[c][0])
  {
    FirstChildOf(F, D, p);
    DrainableParts(F, D, p);
    FreeEffectParts(F, G, c, D, -1);
    hide WF, Drainable, FreeEffect, Cascade, Gentle, Exact, Held, ChildRegion, Shed, RemoveHandle, Below, PrevOf;
    HeldHead(F, c);
  }

  /** The steal after a held child is legal and lands where `Receiver` says. */
  lemma StealReady(F: Forest, G: Forest, p: Id, D: set<Id>, c: Id)
    requires Drainable(F, D, p) && p in F.kids && F.kids[p] != [] && F.kids[p][0] == c
    requires FreeEffect(F, G, c, D, -1)
    ensures c in F.refs && F.refs[c] != [] && F.refs[c][0] in F.up && p in F.up
    ensures WF(G) && c in G.up && c !in G.flight
    ensures p in G.up && G.up[p] == F.up[p]
    ensures var q := Receiver(F, p, c); q.At? ==> q.a in G.up && q.a !in G.target && !Below(G.up, q.a, c) && q.a != c
  {
    HeldChild(F, G, p, D, c);
    NewestHandle(F, c);
    HandOverWF(F, p, c);
    ReceiverOwned(F, p, c);
    DrainableParts(F, D, p);
    FreeEffectParts(F, G, c, D, -1);
    CascadeConfined(F, G, D);
    hide WF, Drainable, FreeEffect, Cascade, Gentle, Exact, Held, ChildRegion, Shed, RemoveHandle, Receiver;
    if Receiver(F, p, c).At? {
      BelowSelf(G.up, c);
    }
    hide Below;
    StaysPut(F, G, D, p);
  }

  /** The parent of `p` can be asked for whenever the newest reference of the child has no context. */
  lemma ParentReachable(F: Forest, G: Forest, p: Id, D: set<Id>, c: Id, q: Ptr)
    requires Drainable(F, D, p) && OwnPrev(F, D, p) && FreeEffect(F, G, c, D, -1) && c in D
    requires c in F.refs && F.refs[c] != [] && F.refs[c][0] in F.up && q == F.up[F.refs[c][0]]
    ensures q == Null && p in G.flight ==> LivePrev(G, p)
  {
    DrainableParts(F, D, p);
    FreeEffectParts(F, G, c, D, -1);
    CascadeConfined(F, G, D);
    StaleInUp(G);
    assert F.refs[c][0] in F.refs[c];
    hide WF, Drainable, FreeEffect, Cascade, Confined, Bystander, LivePrev;
    if q == Null && p in G.stale {
      assert NullHeld(F, c);
      LivePrevStays(F, G, D, p);
    }
    NotStaleLive(G, p);
  }

  lemma NotStaleLive(F: Forest, p: Id)
    ensures p !in F.stale ==> LivePrev(F, p)
  {}

  lemma OwnPrevStays(F0: Forest, F: Forest, D: set<Id>, p: Id)
    requires WF(F0) && WF(F) && Cascade(F0, F, D) && F.flight == F0.flight && F.stale == F0.stale && p !in D
    requires D !! F.flight && (p in F.flight ==> Trails(F0, F, D))
    ensures OwnPrev(F0, D, p) ==> OwnPrev(F, D, p)
  {
    CascadeConfined(F0, F, D);
    CascadeLoosened(F0, F, D);
    StaleInUp(F);
    StaleInUp(F0);
    WFParts(F0);
    WFParts(F);
    hide WF, Cascade, Confined, Loosened, Bystander, LivePrev, NullFree, Unread, Trail, KidsOk, RefsOk, Forested;
    if p in F.stale && OwnPrev(F0, D, p) {
      if Unread(F0, D, p) && NullFree(F0, D) {
        NullFreeStays(F0, F, D, D);
        UnreadStays(F0, F, D, p);
      } else {
        LivePrevStays(F0, F, D, p);
      }
    }
  }

  lemma StaysPut(F0: Forest, F: Forest, D: set<Id>, p: Id)
    requires Confined(F0, F, D) && p in F0.up && p !in D && p !in F0.target
    ensures p in F.up && F.up[p] == F0.up[p]
  {}

  /** One turn of the loop when the child was handed over. */
  lemma DrainHanded(F0: Forest, F1: Forest, G: Forest, F: Forest, p: Id, D: set<Id>, c: Id)
    requires Drainable(F1, D, p) && DrainEffect(F0, F1, p, D) && p in F1.kids && F1.kids[p] != [] && F1.kids[p][0] == c
    requires p in F0.kids && F0.kids[p] != []
    requires FreeEffect(F1, G, c, D, -1) && WF(F)
    requires c in F1.refs && F1.refs[c] != [] && F1.refs[c][0] in F1.up && p in F1.up
    requires WF(G) && c in G.up
    requires (Receiver(F1, p, c).At? ==> Receiver(F1, p, c).a in G.up && Receiver(F1, p, c).a != c)
    requires F == Stolen(G, c, Receiver(F1, p, c))
    ensures Drainable(F, D, p) && DrainEffect(F0, F, p, D)
    ensures F1.refs[c][0] !in F.up && F.up.Keys <= F1.up.Keys
    ensures OwnPrev(F1, D, p) ==> OwnPrev(F, D, p)
  {
    HeldChild(F1, G, p, D, c);
    StolenIsMove(G, c, Receiver(F1, p, c));
    HandOverCascade(F1, p, c, D, F1.flight + {p});
    HandedFields(F1, G, c, Receiver(F1, p, c));
    DrainEffectParts(F0, F1, p, D);
    hide WF, Drainable, DrainEffect, FreeEffect, Cascade, Gentle, Exact, Held, ChildRegion, Steady;
    hide RemoveHandle, Stolen;
    hide Move;
    hide Below, Receiver, Trails, DrainLists, OwnPrev;
    HandedPaths(F0, F1, F, p, D, c);
    OwnPrevStays(F1, F, D, p);
    DrainableStays(F1, F, D, p);
    DrainableParts(F, D, p);
    CascadeTrans(F0, F1, F, D);
    CascadeConfined(F1, F, D);
    if Gentle(F0, D) {
      GentleStays(F0, F1, D, D);
      ConfinedTargets(F0, F1, F, D);
      ExactTrans(F0, F1, F, F.flight + {p}, {});
    }
    DrainEffectFrom(F0, F, p, D);
  }

  lemma HandedPaths(F0: Forest, F1: Forest, F: Forest, p: Id, D: set<Id>, c: Id)
    requires WF(F0) && Drainable(F1, D, p) && WF(F1) && c in F1.up && c !in F1.flight && F1.up[c] == At(p)
    requires c in F1.refs && F1.refs[c] != [] && c in D && !Below(F1.up, F1.refs[c][0], c)
    requires F1.refs[c][0] in F1.target && F1.refs[c][0] in F1.up && p in F1.up
    requires var R := RemoveHandle(F1, F1.refs[c][0]); var q := Receiver(F1, p, c);
      && Shape(R) && c in R.up && (R.up[c].At? ==> R.up[c].a in R.kids) && (q.At? ==> q.a in R.kids)
      && F == Move(R, c, q)
    requires Cascade(F0, F1, D) && Cascade(F1, F, D) && DrainLists(F0, F1, p, D) && WF(F)
    requires F.flight == F1.flight && (p in F.flight ==> Trails(F0, F1, D))
    ensures p in F.flight ==> Trails(F1, F, D) && Trails(F0, F, D)
    ensures DrainLists(F0, F, p, D)
  {
    DrainableParts(F1, D, p);
    HandedLists(F1, p, c, D);
    if p in F.flight {
      HandOverTrails(F1, p, c, D);
    }
    CascadeConfined(F0, F1, D);
    CascadeConfined(F1, F, D);
    CascadeLoosened(F0, F1, D);
    WFParts(F);
    WFParts(F1);
    hide WF, Drainable, Cascade, Confined, Loosened, Trails, DrainLists, ChildRegion, DownClosed, KidsOk, RefsOk;
    hide Forested, RemoveHandle;
    hide Move, Receiver, Below;
    if p in F.flight {
      TrailsThen(F0, F1, F, D);
    }
    ConfinedLive(F1, F, D);
    DrainListsTrans(F0, F1, F, p, D);
  }

  lemma StolenIsMove(F: Forest, c: Id, q: Ptr)
    requires WF(F) && c in F.up && (q.At? ==> q.a in F.up && q.a != c)
    ensures (F.up[c].At? ==> F.up[c].a in F.kids) && (q.At? ==> q.a in F.kids) && Shape(F)
    ensures Stolen(F, c, q) == Move(F, c, q)
  {
    ParentListed(F, c);
  }

  lemma HandedFields(F: Forest, G: Forest, c: Id, q: Ptr)
    requires WF(F) && c in F.refs && F.refs[c] != [] && F.refs[c][0] in F.target && c in G.up
    requires G == RemoveHandle(F, F.refs[c][0])
    requires Shape(G) && (G.up[c].At? ==> G.up[c].a in G.kids) && (q.At? ==> q.a in G.kids)
    ensures Move(G, c, q).flight == F.flight && Move(G, c, q).stale == F.stale
    ensures Move(G, c, q).up.Keys == F.up.Keys - {F.refs[c][0]}
  {
    RemoveHandleWF(F, F.refs[c][0]);
    MoveFields(G, c, q);
    hide WF, Move, RemoveHandle, Shape;
    assert G.up.Keys == F.up.Keys - {F.refs[c][0]};
  }

  // ---------- freeing an unreferenced chunk ----------

  /** Between unlinking `p` and releasing it, its children can be drained. */
  lemma DetachedDrainable(F: Forest, D: set<Id>, p: Id)
    requires Ready(F, D, p) && p in F.refs && F.refs[p] == [] && p !in F.target
    ensures p in F.up && (F.up[p].At? ==> F.up[p].a in F.kids)
    ensures WF(Detach(F, p)) && Drainable(Detach(F, p), D - {p}, p) && OwnPrev(Detach(F, p), D - {p}, p)
    ensures p in Detach(F, p).kids && (F.kids.Keys == F.up.Keys) && Detach(F, p).kids[p] == F.kids[p]
  {
    ReadyParts(F, D, p);
    WFParts(F);
    DetachWF(F, p);
    DetachedRegion(F, D, p);
    DetachedKids(F, D, p);
    DetachCascade(F, p, D);
    hide WF, Ready, Region, Steady, Cascade, Exact, Detach, KidsOk, RefsOk, Forested, PrevSafe, OwnPrev;
    SteadyStays(F, Detach(F, p), D - {p}, D);
    DetachKeeps(F, p);
    RegionChild(Detach(F, p), D - {p}, p);
    DrainableFrom(Detach(F, p), D - {p}, p);
  }

  lemma RegionChild(F: Forest, D: set<Id>, p: Id)
    requires Region(F, D)
    ensures ChildRegion(F, D, p)
  {
    hide Guarded, DownClosed;
  }

  lemma DetachKeeps(F: Forest, p: Id)
    requires p in F.up && (F.up[p].At? ==> F.up[p].a in F.kids)
    ensures Detach(F, p).up == F.up && Detach(F, p).target == F.target && Detach(F, p).refs == F.refs
    ensures Detach(F, p).flight == F.flight + {p}
  {}

  lemma DetachedRegion(F: Forest, D: set<Id>, p: Id)
    requires WF(F) && Region(F, D) && p in F.up && p in D && p !in F.flight && p in F.refs && F.refs[p] == []
    requires F.up[p].At? ==> F.up[p].a !in D && F.up[p].a in F.kids && PrevSafe(F, D, p)
    ensures Region(Detach(F, p), D - {p}) && OwnPrev(Detach(F, p), D - {p}, p)
  {
    var G := Detach(F, p);
    RegionSplit(F, D);
    WFParts(F);
    StaleInUp(F);
    assert DownClosed(G, D - {p});
    if PrevOf(F, p).At? {
      PrevOfSibling(F, p);
    }
    Unheld(F, p);
    OwnGuard(F, D, p);
    hide WF, PrevOf, KidsOk, RefsOk, Forested, Unread, Held, Detach, Guarded, OwnPrev;
    forall f | f in G.stale ensures Guarded(G, D - {p}, f) {
      if f != p {
        DetachedStale(F, p, f);
        DetachedGuard(F, D, p, f);
      }
    }
  }

  lemma DetachedStale(F: Forest, p: Id, f: Id)
    requires p in F.up && (F.up[p].At? ==> F.up[p].a in F.kids) && f in Detach(F, p).stale && f != p
    ensures f in F.stale
  {}

  lemma DetachedGuard(F: Forest, D: set<Id>, p: Id, f: Id)
    requires p in F.up && p in D && (F.up[p].At? ==> F.up[p].a in F.kids) && f in F.stale && f != p && Guarded(F, D, f)
    ensures f in Detach(F, p).stale && Guarded(Detach(F, p), D - {p}, f)
  {
    var G := Detach(F, p);
    if Unread(F, D, f) {
      SameUnread(F, G, D, f);
      UnreadFewer(G, D, D - {p}, f);
    }
  }

  lemma OwnGuard(F: Forest, D: set<Id>, p: Id)
    requires p in F.up && p in D && p !in F.flight && p !in F.stale && !Held(F, p)
    requires F.up[p].At? ==> F.up[p].a in F.kids && PrevSafe(F, D, p)
    requires PrevOf(F, p).At? ==>
      F.up[p].At? && PrevOf(F, p).a in F.up && PrevOf(F, p).a !in F.flight && PrevOf(F, p).a != p
      && F.up[PrevOf(F, p).a] == F.up[p]
    ensures OwnPrev(Detach(F, p), D - {p}, p)
    ensures p in Detach(F, p).stale ==> Guarded(Detach(F, p), D - {p}, p)
  {
    var G := Detach(F, p);
    hide PrevOf, Unread, NullFree, Held;
    if p in G.stale && Unread(F, D, p) && NullFree(F, D - {p}) {
      SameUnread(F, G, D, p);
      UnreadFewer(G, D, D - {p}, p);
      SameNullFree(F, G, D - {p});
    }
  }

  lemma DetachedKids(F: Forest, D: set<Id>, p: Id)
    requires Shape(F) && KidsOk(F.up, F.kids, F.flight) && Forested(F.up) && DownClosed(F, D) && p in F.up && p in D
    requires F.up[p].At? ==> F.up[p].a in F.kids
    ensures p in Detach(F, p).kids && Detach(F, p).kids[p] == F.kids[p]
    ensures forall c :: c in Detach(F, p).kids[p] ==> c in D - {p}
  {
    if F.up[p].At? {
      ParentNotBelow(F.up, p, F.up[p].a);
      BelowSelf(F.up, p);
    }
    assert Unlisted(F, p)[p] == F.kids[p];
    forall c | c in F.kids[p] ensures c in D - {p} {
      assert F.up[c] == At(p);
    }
  }

  /** Nothing hangs from a drained chunk. */
  lemma NothingBelow(F: Forest, D: set<Id>, p: Id)
    requires WF(F) && p in F.flight && p in F.kids && F.kids[p] == [] && DownClosed(F, D) && D !! F.flight
    requires forall f :: f in F.flight ==> F.up[f] != At(p)
    ensures forall x :: x in F.up ==> F.up[x] != At(p)
  {
    forall x | x in F.up ensures F.up[x] != At(p) {
      assert x !in F.flight && F.up[x].At? ==> x in F.kids[F.up[x].a];
    }
  }

  /** No chunk in flight hangs from `p`. */
  lemma FlightElsewhere(F: Forest, D: set<Id>, p: Id)
    requires WF(F) && Region(F, D) && p in D && p in F.up
    requires F.up[p].At? ==> F.up[p].a !in D
    ensures forall f :: f in F.flight + {p} ==> f in F.up && F.up[f] != At(p)
  {}

  lemma FlightKeepsUp(F0: Forest, F: Forest, D: set<Id>)
    requires Confined(F0, F, D) && F.flight == F0.flight && F.flight <= F.up.Keys && D !! F.flight
    ensures forall f :: f in F.flight ==> f in F0.up && F.up[f] == F0.up[f]
  {}

  /** An unreferenced chunk that can be unlinked, drained within E, and released. */
  ghost predicate Releasable(F: Forest, E: set<Id>, p: Id) {
    var ok :=
      && WF(F) && p in F.up && p !in F.flight && p !in F.target
      && (F.up[p].At? ==> F.up[p].a in F.kids)
      && WF(Detach(F, p)) && Drainable(Detach(F, p), E, p)
      && (forall f :: f in F.flight + {p} ==> f in F.up && F.up[f] != At(p));
    ok
  }

  /** G is heap F after unlinking `p` and draining it. */
  ghost predicate Drained(F: Forest, G: Forest, E: set<Id>, p: Id) {
    var ok :=
      && p in F.up && (F.up[p].At? ==> F.up[p].a in F.kids)
      && DrainEffect(Detach(F, p), G, p, E) && p in G.kids && G.kids[p] == [];
    ok
  }

  lemma ReleasableParts(F: Forest, E: set<Id>, p: Id)
    requires Releasable(F, E, p)
    ensures WF(F) && p in F.up && p !in F.flight && p !in F.target && (F.up[p].At? ==> F.up[p].a in F.kids)
    ensures WF(Detach(F, p)) && Drainable(Detach(F, p), E, p)
    ensures forall f :: f in F.flight + {p} ==> f in F.up && F.up[f] != At(p)
  {
    hide WF, Detach, Drainable;
  }

  lemma ReleasableFrom(F: Forest, E: set<Id>, p: Id)
    requires WF(F) && p in F.up && p !in F.flight && p !in F.target && (F.up[p].At? ==> F.up[p].a in F.kids)
    requires WF(Detach(F, p)) && Drainable(Detach(F, p), E, p)
    requires forall f :: f in F.flight + {p} ==> f in F.up && F.up[f] != At(p)
    ensures Releasable(F, E, p)
  {
    hide WF, Detach, Drainable;
  }

  lemma DrainedParts(F: Forest, G: Forest, E: set<Id>, p: Id)
    requires Drained(F, G, E, p)
    ensures p in F.up && (F.up[p].At? ==> F.up[p].a in F.kids)
    ensures DrainEffect(Detach(F, p), G, p, E) && p in G.kids && G.kids[p] == []
  {
    hide Detach, DrainEffect;
  }

  lemma DrainedFrom(F: Forest, G: Forest, E: set<Id>, p: Id)
    requires p in F.up && (F.up[p].At? ==> F.up[p].a in F.kids)
    requires DrainEffect(Detach(F, p), G, p, E) && p in G.kids && G.kids[p] == []
    ensures Drained(F, G, E, p)
  {
    hide Detach, DrainEffect;
  }

  /** A drained chunk can be released. */
  lemma DrainedDroppable(F: Forest, G: Forest, E: set<Id>, p: Id)
    requires Releasable(F, E, p) && Drained(F, G, E, p)
    ensures WF(G) && p in G.flight && p !in G.target && (forall x :: x in G.up ==> G.up[x] != At(p)) && WF(Drop(G, p))
  {
    ReleasableParts(F, E, p);
    DrainedParts(F, G, E, p);
    var T := Detach(F, p);
    DrainEffectParts(T, G, p, E);
    DrainableParts(T, E, p);
    DetachKeeps(F, p);
    CascadeConfined(T, G, E);
    DownClosedStays(T, G, E);
    WFParts(G);
    FlightKeepsUp(T, G, E);
    StaysLive(T, G, E, p);
    hide Ready, Drainable, DrainEffect, Drained, Releasable, Cascade, Detach, ChildRegion, Confined, KidsOk, RefsOk;
    hide HandlesOk, FlightOk, Forested, Gentle, Exact, Steady, DownClosed, WF, PrevSafe;
    NothingBelow(G, E, p);
    DropWF(G, p);
  }

  /** A ready chunk without references, not a handle, is releasable. */
  lemma ReadyReleasable(F: Forest, D: set<Id>, p: Id)
    requires Ready(F, D, p) && p in F.refs && F.refs[p] == [] && p !in F.target
    ensures Releasable(F, D - {p}, p)
    ensures p in F.up && (F.up[p].At? ==> F.up[p].a in F.kids) && OwnPrev(Detach(F, p), D - {p}, p)
  {
    ReadyParts(F, D, p);
    DetachedDrainable(F, D, p);
    FlightElsewhere(F, D, p);
    hide WF, Ready, Region, Steady, Detach, Drainable, PrevSafe, Releasable, OwnPrev;
    ReleasableFrom(F, D - {p}, p);
  }

  lemma NoStaleLeft(F0: Forest, F: Forest, p: Id)
    requires WF(F0) && p in F0.up && p !in F0.flight && (F0.up[p].At? ==> F0.up[p].a in F0.kids)
    requires F.flight == Detach(F0, p).flight && F.stale == Detach(F0, p).stale
    ensures Drop(F, p).flight == F0.flight && Drop(F, p).stale == F0.stale
  {
    assert p !in F0.stale;
    assert F0.flight + {p} - {p} == F0.flight;
    hide PrevOf, KidsOk, RefsOk, HandlesOk, Forested;
    assert Detach(F0, p).stale - {p} == F0.stale;
  }

  lemma DropKeeps(F: Forest, p: Id)
    ensures Drop(F, p).up.Keys <= F.up.Keys && Drop(F, p).flight == F.flight - {p}
  {}

  lemma Dropped(F: Forest, p: Id)
    ensures p !in Drop(F, p).up
  {}

  lemma ExactNarrow(F0: Forest, F: Forest, A: set<Id>, p: Id)
    requires Exact(F0, F, A + {p}, {p}) && p !in F.up
    ensures Exact(F0, F, A, {p})
  {}

  lemma ExactWiden(F0: Forest, F: Forest, A: set<Id>, X: set<Id>, Y: set<Id>)
    requires Exact(F0, F, A, X) && X <= Y
    ensures Exact(F0, F, A, Y)
  {}

  lemma GentleFewer(F: Forest, D: set<Id>, E: set<Id>)
    requires Gentle(F, D) && E <= D
    ensures Gentle(F, E)
  {}

  /** Unlinking, draining and releasing an unreferenced chunk that is not a handle. */
  lemma FreeDrained(F0: Forest, F: Forest, D: set<Id>, p: Id)
    requires Releasable(F0, D - {p}, p) && p in D && p in F0.refs && F0.refs[p] == []
    requires Drained(F0, F, D - {p}, p)
    ensures FreeEffect(F0, Drop(F, p), p, D, 0)
  {
    ReleasableParts(F0, D - {p}, p);
    DrainedDroppable(F0, F, D - {p}, p);
    DrainedParts(F0, F, D - {p}, p);
    var T := Detach(F0, p);
    DrainEffectParts(T, F, p, D - {p});
    NoStaleLeft(F0, F, p);
    DetachCascade(F0, p, D);
    DropCascade(F, p, D);
    Dropped(F, p);
    DetachKeeps(F0, p);
    Unheld(F0, p);
    hide Ready, Drained, Releasable, Drainable, DrainEffect, FreeEffect, Cascade, Detach, Drop, Region, WF, Exact;
    hide Gentle;
    hide Held, Steady, PrevSafe, PrevOf, Trails, FreeLists, DrainLists, OwnPrev, Confined;
    CascadeWiden(T, F, D - {p}, D);
    CascadeTrans(F0, T, F, D);
    CascadeTrans(F0, F, Drop(F, p), D);
    CascadeConfined(T, F, D);
    ConfinedLive(T, F, D);
    FreeDrainedPaths(F0, F, D, p);
    if Gentle(F0, D) {
      FreeDrainedExact(F0, T, F, Drop(F, p), D, p);
    }
    FreeEffectFrom(F0, Drop(F, p), p, D, 0);
  }

  lemma FreeDrainedPaths(F0: Forest, F: Forest, D: set<Id>, p: Id)
    requires WF(F0) && p in F0.up && p in D && p !in F0.flight && (F0.up[p].At? ==> F0.up[p].a in F0.kids)
    requires var T := Detach(F0, p);
      Trails(T, F, D - {p}) && DrainLists(T, F, p, D - {p}) && F.flight == T.flight && F.up.Keys <= F0.up.Keys
    requires forall x :: x in F.up ==> F.up[x] != At(p)
    ensures Trails(F0, Drop(F, p), D) && FreeLists(F0, Drop(F, p), p, D)
  {
    Dropped(F, p);
    FreeDrainedLists(F0, F, p, D);
    DetachKeeps(F0, p);
    var T := Detach(F0, p);
    var G := Drop(F, p);
    DropKeeps(F, p);
    hide WF, Detach, Drop, Unread, Trail, DrainLists, FreeLists;
    forall f | Traced(F0, D, f) ensures Trail(F0, G, f) {
      SameUnread(F0, T, D, f);
      UnreadFewer(T, D, D - {p}, f);
      SameUpTrail(F0, T, f);
      TrailTrans(F0, T, F, f);
      DropTrail(F, p, f);
      TrailTrans(F0, F, G, f);
    }
  }

  lemma Unheld(F: Forest, p: Id)
    requires WF(F) && p in F.up && F.refs[p] == []
    ensures !Held(F, p)
  {}

  lemma FreeDrainedExact(F0: Forest, T: Forest, F: Forest, G: Forest, D: set<Id>, p: Id)
    requires Gentle(F0, D) && Cascade(F0, T, D) && Cascade(T, F, D) && Cascade(F, G, D)
    requires forall A, X :: Exact(F0, T, A, X)
    requires Gentle(T, D - {p}) ==> Exact(T, F, F.flight + {p}, {})
    requires forall A, X :: p in X ==> Exact(F, G, A, X)
    requires p in F.flight && G.flight == F0.flight && F.flight == F0.flight + {p} && p !in G.up
    ensures Exact(F0, G, G.flight, {p})
  {
    hide Exact, Gentle, Cascade;
    GentleStays(F0, T, D, D);
    GentleFewer(T, D, D - {p});
    var A := F0.flight + {p};
    assert F.flight + {p} == A;
    ExactWiden(T, F, A, {}, {p});
    CascadeConfined(T, F, D);
    CascadeConfined(F, G, D);
    ConfinedTargets(F0, T, F, D);
    ExactTrans(F0, T, F, A, {p});
    CascadeTrans(F0, T, F, D);
    ConfinedTargets(F0, F, G, D);
    ExactTrans(F0, F, G, A, {p});
    ExactNarrow(F0, G, F0.flight, p);
  }

  // ---------- freeing a handle ----------

  /** A handle whose destructor has run has nothing to drain. */
  lemma HandleReleasable(F: Forest, D: set<Id>, h: Id)
    requires Ready(F, D, h) && h in F.target
    ensures F.target[h] in F.refs && Releasable(Unref(F, h), {}, h)
    ensures var U := Unref(F, h);
      h in U.up && (U.up[h].At? ==> U.up[h].a in U.kids) && OwnPrev(Detach(U, h), {}, h)
  {
    ReadyParts(F, D, h);
    UnrefWF(F, h);
    UnrefTarget(F, h);
    RemoveHandleSteps(F, h);
    ParentListed(Unref(F, h), h);
    HandleKids(F, h);
    WFParts(F);
    FlightLive(F);
    var U := Unref(F, h);
    var T := Detach(U, h);
    DetachKeeps(U, h);
    hide WF, Ready, Detach, Unref, PrevSafe, Region, Steady, DownClosed, PrevOf, Unlisted, OwnPrev;
    EmptyRegion(T, h);
    DrainableFrom(T, {}, h);
    ReleasableFrom(U, {}, h);
  }

  lemma FlightLive(F: Forest)
    requires WF(F)
    ensures F.flight <= F.up.Keys
  {}

  lemma UnrefTarget(F: Forest, h: Id)
    requires h in F.target && F.target[h] in F.refs
    ensures h !in Unref(F, h).target && Unref(F, h).up == F.up && Unref(F, h).flight == F.flight
  {}

  lemma EmptyRegion(F: Forest, h: Id)
    ensures ChildRegion(F, {}, h) && Steady(F, {}) && OwnPrev(F, {}, h)
  {}

  lemma HandleKids(F: Forest, h: Id)
    requires WF(F) && h in F.target && F.target[h] in F.refs && h in F.up && (F.up[h].At? ==> F.up[h].a in F.kids)
    ensures h in Detach(Unref(F, h), h).kids && Detach(Unref(F, h), h).kids[h] == []
  {
    NoKids(F, h);
    hide WF, PrevOf;
    assert F.up[h] != At(h);
  }

  lemma NoKids(F: Forest, h: Id)
    requires WF(F) && h in F.target
    ensures h in F.kids && F.kids[h] == [] && h in F.up && F.up[h] != At(h)
  {
    UnrefWF(F, h);
    WFParts(F);
    hide WF, Unref;
    KidsUp(F, h);
    SomeMember(F.kids[h]);
  }

  lemma KidsUp(F: Forest, a: Id)
    requires KidsOk(F.up, F.kids, F.flight) && a in F.kids
    ensures forall x :: x in F.kids[a] ==> x in F.up && F.up[x] == At(a)
  {}

  lemma SomeMember(s: seq<Id>)
    ensures s != [] ==> exists c :: c in s
  {
    if s != [] {
      var x := s[0];
      assert x in s;
    }
  }

  /** Freeing a handle removes it and nothing else. */
  lemma FreeHandle(F0: Forest, F: Forest, D: set<Id>, h: Id)
    requires Ready(F0, D, h) && h in F0.target && F0.target[h] in F0.refs
    requires Drained(Unref(F0, h), F, {}, h)
    ensures FreeEffect(F0, Drop(F, h), h, D, 0)
  {
    ReadyParts(F0, D, h);
    HandleReleasable(F0, D, h);
    ReleasableParts(Unref(F0, h), {}, h);
    DrainedParts(Unref(F0, h), F, {}, h);
    DrainEffectParts(Detach(Unref(F0, h), h), F, h, {});
    RemoveHandleWF(F0, h);
    RemoveHandleCascade(F0, h, D);
    RemoveHandleTrails(F0, h, D);
    FreedHandleLists(F0, h, D);
    LeafHandle(F0, h);
    Unheld(F0, h);
    HandleKids(F0, h);
    Dropped(F, h);
    assert Drop(F, h) == RemoveHandle(F0, h);
    hide WF, Ready, Detach, Unref, Drop, RemoveHandle, Cascade, Exact, Gentle, Held, Drainable, DrainEffect, FreeEffect;
    hide PrevSafe, Region, Steady, Drained, Releasable, Trails, FreeLists;
    FreeEffectFrom(F0, Drop(F, h), h, D, 0);
  }

  /** The recursive call on a handle did exactly that. */
  lemma FreedHandle(F0: Forest, F: Forest, h: Id, D: set<Id>, r: int)
    requires FreeEffect(F0, F, h, D, r) && h in F0.target
    ensures F == RemoveHandle(F0, h)
  {
    FreeEffectParts(F0, F, h, D, r);
  }

  lemma ReadyLive(F: Forest, D: set<Id>, p: Id)
    requires Ready(F, D, p)
    ensures p in F.up && p in F.refs && p !in F.flight
  {
    ReadyParts(F, D, p);
  }

  lemma HandleGoneMeasure(F: Forest, h: Id)
    requires WF(F) && h in F.target && h in F.up && h !in F.flight
    ensures RemoveHandle(F, h).up.Keys - RemoveHandle(F, h).flight < F.up.Keys - F.flight
  {
    RemoveHandleWF(F, h);
    hide WF, RemoveHandle;
    assert RemoveHandle(F, h).up.Keys == F.up.Keys - {h};
    assert h in F.up.Keys - F.flight;
  }

  /** What one turn of the child loop needs to know about the first child. */
  lemma TurnStart(F: Forest, D: set<Id>, p: Id)
    requires Drainable(F, D, p) && OwnPrev(F, D, p) && p in F.kids && F.kids[p] != []
    ensures var c := F.kids[p][0]; Ready(F, D, c) && c in F.up && c in F.refs && c !in F.flight && p in F.up
    ensures F.refs[F.kids[p][0]] != [] ==> F.refs[F.kids[p][0]][0] in F.up && F.refs[F.kids[p][0]][0] !in F.flight
  {
    FirstChildReady(F, D, p);
    FirstChildOf(F, D, p);
    DrainableParts(F, D, p);
    ReadyParts(F, D, F.kids[p][0]);
    hide Ready, Drainable, OwnPrev, ChildRegion, Region, Steady, PrevOf;
    if F.refs[F.kids[p][0]] != [] {
      NewestHandle(F, F.kids[p][0]);
    }
  }

  lemma SmallerBy(F: Forest, G: Forest, x: Id)
    requires G.up.Keys <= F.up.Keys && x in F.up && x !in G.up
    ensures G.up.Keys < F.up.Keys
  {}

  lemma ReceiverIs(F: Forest, p: Id, c: Id)
    requires c in F.refs && p in F.up && F.refs[c] != [] && F.refs[c][0] in F.up
    ensures Receiver(F, p, c) == if F.up[F.refs[c][0]].At? then F.up[F.refs[c][0]] else F.up[p]
  {}

  lemma HandedMeasure(F0: Forest, F1: Forest, F: Forest, p: Id, D: set<Id>, c: Id)
    requires DrainEffect(F0, F1, p, D) && DrainEffect(F0, F, p, D)
    requires c in F1.refs && F1.refs[c] != [] && F1.refs[c][0] in F1.up && F1.refs[c][0] !in F.up
    requires F.up.Keys <= F1.up.Keys
    ensures F.up.Keys < F1.up.Keys && F.flight == F1.flight
  {
    DrainEffectParts(F0, F1, p, D);
    DrainEffectParts(F0, F, p, D);
    hide DrainEffect, Cascade, Exact, Gentle;
    SmallerBy(F1, F, F1.refs[c][0]);
  }

  lemma FreedChild(F0: Forest, F1: Forest, F: Forest, p: Id, D: set<Id>, c: Id, r: int)
    requires Drainable(F1, D, p) && DrainEffect(F0, F1, p, D) && p in F1.kids && F1.kids[p] != [] && F1.kids[p][0] == c
    requires p in F0.kids && F0.kids[p] != [] && FreeEffect(F1, F, c, D, r) && r != -1
    ensures Drainable(F, D, p) && DrainEffect(F0, F, p, D) && F.up.Keys < F1.up.Keys && F.flight == F1.flight
    ensures OwnPrev(F1, D, p) ==> OwnPrev(F, D, p)
  {
    FreeEffectParts(F1, F, c, D, r);
    hide DrainEffect, Drainable, FreeEffect, Cascade, Exact, Gentle, Held, WF, OwnPrev;
    DrainFreed(F0, F1, F, p, D, c);
    SmallerBy(F1, F, c);
  }
}
