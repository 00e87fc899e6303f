/** What a turn of the loop over the children of a chunk does to the sibling that the chunk points back at, when the
    child is freed or handed over to something outside. */
module TallocTurns {
  import opened TallocForest
  import opened TallocOwnership
  import opened TallocPaths
  import opened TallocCascade
  import opened TallocStale

  // ---------- the turn of a child that is freed ----------

  lemma KidGentle(F: Forest, p: Id, c: Id)
    requires Sheltered(F, p) && Shape(F) && Forested(F.up) && c in F.up && F.up[c] == At(p)
    ensures Steady(F, Subtree(F, c)) && NullFree(F, Subtree(F, c) - {c})
    ensures Outer(F, p, c) ==> Unread(F, Subtree(F, c), p)
    ensures F.refs[c] == [] ==> Gentle(F, Subtree(F, c))
  {
    hide Shape, Forested, Below, Owns, Outer;
    forall x | x in Subtree(F, c)
      ensures !Owns(F, x, x) && (NullHeld(F, x) ==> x == c)
    {
      BelowKid(F, p, c, x);
    }
    if Outer(F, p, c) {
      forall x, h | x in Subtree(F, c) && x in F.refs && h in F.refs[x] ensures !Below(F.up, h, p) {
        OuterRefs(F, p, c, x, h);
      }
    }
  }

  lemma KidNoHandles(F: Forest, p: Id, c: Id)
    requires WF(F) && Sheltered(F, p) && c in F.up && F.up[c] == At(p) && Outer(F, p, c)
    ensures NoHandleInto(F, p, Subtree(F, c))
  {
    WFParts(F);
    BelowSelf(F.up, p);
    hide WF, Sheltered, Below, KidsOk, RefsOk, Forested, Outer;
    forall h | h in F.target && h in F.up && F.up[h] == At(p) ensures F.target[h] !in Subtree(F, c) {
      StepUp(F.up, h, p);
      NoHandleFrom(F, p, c, h);
    }
  }

  lemma EmptyOuter(F: Forest, p: Id, c: Id)
    requires c in F.refs && F.refs[c] == []
    ensures Outer(F, p, c)
  {}

  lemma FreedTurned(F: Forest, G: Forest, p: Id, c: Id)
    requires Watched(F, p) && F.kids[p] != [] && F.kids[p][0] == c && FreeEffect(F, G, c, Subtree(F, c), 0)
    ensures Turned(F, G, p, c)
  {
    hide *;
    FirstKid(F, p);
    WatchedParts(F, p);
    FreeEffectParts(F, G, c, Subtree(F, c), 0);
    FreedUnreferenced(F, p, c);
    EmptyOuter(F, p, c);
    CascadeConfined(F, G, Subtree(F, c));
    WFParts(G);
    ParentAside(F, p, c);
    Kept(F, G, Subtree(F, c), p);
    KidGentle(F, p, c);
    KidNoHandles(F, p, c);
    RefsKeyed(F);
    KidsKeyed(G);
    FreedTail(F, G, p, c);
    TurnedFrom(F, G, p, c);
  }

  lemma KidsKeyed(F: Forest)
    requires Shape(F)
    ensures F.kids.Keys == F.up.Keys
  {}

  lemma FreedTail(F: Forest, G: Forest, p: Id, c: Id)
    requires FreeLists(F, G, c, Subtree(F, c)) && p in F.kids && p in G.kids && p !in Subtree(F, c) && c !in G.up
    requires NoHandleInto(F, p, Subtree(F, c)) && NullFree(F, Subtree(F, c) - {c}) && F.kids[p] != []
    requires F.kids[p][0] == c
    ensures G.kids[p] == F.kids[p][1..]
  {}

  lemma TurnedFrom(F: Forest, G: Forest, p: Id, c: Id)
    requires Watched(F, p) && WF(G) && F.kids[p] != [] && F.kids[p][0] == c && p in G.kids
    requires Cascade(F, G, Subtree(F, c)) && Trails(F, G, Subtree(F, c)) && Outer(F, p, c)
    requires G.kids[p] == F.kids[p][1..] && G.flight == F.flight && G.stale == F.stale
    ensures Turned(F, G, p, c)
  {
    hide Watched, WF, Cascade, Trails, Subtree, Outer;
  }

  /** Chunks without references die with the chunk above them. */
  lemma {:induction false} ChainDies(F: Forest, G: Forest, D: set<Id>, c: Id, x: Id, n: nat)
    requires Shape(F) && Forested(F.up) && Shape(G) && Forested(G.up) && Loosened(F, G, D) && c !in G.up
    requires x in F.up && Climb(F.up, x, c, n)
    requires forall y :: Below(F.up, x, y) && Below(F.up, y, c) ==> y in F.refs && F.refs[y] == []
    ensures x !in G.up
    decreases n
  {
    if x in G.up && n > 0 {
      var z := F.up[x].a;
      ParentLive(F, x);
      ClimbBelow(F.up, x, c, n);
      BelowSelf(F.up, x);
      forall y | Below(F.up, z, y) && Below(F.up, y, c) ensures y in F.refs && F.refs[y] == [] {
        StepUp(F.up, x, y);
      }
      ChainDies(F, G, D, c, z, n - 1);
      UnreferencedStays(F, G, D, x);
      ParentLive(G, x);
    }
  }

  lemma UnreferencedStays(F: Forest, G: Forest, D: set<Id>, x: Id)
    requires Loosened(F, G, D) && x in F.up && x in G.up && x in F.refs && x in G.refs && F.refs[x] == []
    ensures G.up[x] == F.up[x]
  {}

  /** Below a chunk that survives, everything survives. */
  lemma {:induction false} ChainLives(F: Forest, G: Forest, c: Id, x: Id, z: Id, n: nat)
    requires WF(F) && Exact(F, G, G.flight, {c}) && x in F.up && x != c && Below(F.up, x, c) && x in G.up
    requires z in F.up && Climb(F.up, z, x, n) && z !in F.target && forall f :: f in G.flight ==> !Below(F.up, f, c)
    ensures z in G.up && z != c && Below(F.up, z, c)
    decreases n
  {
    WFParts(F);
    hide WF, Exact, Below, KidsOk, RefsOk, Forested;
    ClimbBelow(F.up, z, x, n);
    BelowTrans(F.up, z, x, c);
    OnlySelf(F.up, x, c);
    if n > 0 {
      var b := F.up[z].a;
      ParentLive(F, z);
      ParentNotHandle(F, z);
      ChainLives(F, G, c, x, b, n - 1);
      assert Owner(F, b, z);
      OwnerStays(F, G, c, b, z);
    }
  }

  lemma OwnerStays(F: Forest, G: Forest, c: Id, a: Id, z: Id)
    requires Exact(F, G, G.flight, {c}) && Owner(F, a, z) && a in G.up && a !in G.flight && z !in F.target && z != c
    ensures Owner(G, a, z) && z in G.up
  {}

  /** The context of a reference into the subtree of a child is outside, alive, and stays. */
  lemma ContextStays(F: Forest, G: Forest, p: Id, c: Id, x: Id, h: Id)
    requires Watched(F, p) && c in F.up && F.up[c] == At(p) && Confined(F, G, Subtree(F, c)) && G.flight == F.flight
    requires x in F.up && Below(F.up, x, c) && x in F.refs && h in F.refs[x] && (x != c || !NullHeld(F, x))
    requires Outer(F, p, c)
    ensures h in F.up && F.up[h].At? && F.up[h].a in G.up && F.up[h].a !in G.flight && !Below(F.up, F.up[h].a, c)
    ensures Owner(F, F.up[h].a, x) && x !in F.target
  {
    hide *;
    WatchedParts(F, p);
    BelowKid(F, p, c, x);
    ReferredNotHandle(F, x, h);
    OuterRefs(F, p, c, x, h);
    KidGentle(F, p, c);
    InSubtree(F, c, x);
    NotNull(F, Subtree(F, c) - {c}, c, x, h);
    var a := F.up[h].a;
    ParentNotHandle(F, h);
    ParentLive(F, h);
    if Below(F.up, a, p) {
      StepUp(F.up, h, p);
    }
    BelowSelf(F.up, p);
    BelowUp(F, p, c, a);
    NotInSubtree(F, c, a);
    Kept(F, G, Subtree(F, c), a);
    OwnerByHandle(F, x, h);
  }

  lemma BelowUp(F: Forest, p: Id, c: Id, a: Id)
    requires c in F.up && F.up[c] == At(p) && !Below(F.up, a, p)
    ensures !Below(F.up, a, c)
  {
    if Below(F.up, a, c) {
      BelowSelf(F.up, p);
      StepUp(F.up, c, p);
      BelowTrans(F.up, a, c, p);
    }
  }

  lemma InSubtree(F: Forest, c: Id, x: Id)
    requires x in F.up && Below(F.up, x, c)
    ensures x in Subtree(F, c)
  {}

  lemma ReferredNotHandle(F: Forest, x: Id, h: Id)
    requires WF(F) && x in F.refs && h in F.refs[x]
    ensures x !in F.target && h in F.target && h in F.up && F.target[h] == x
  {
    hide KidsOk, FlightOk, Forested;
  }

  lemma NotNull(F: Forest, N: set<Id>, c: Id, x: Id, h: Id)
    requires NullFree(F, N) && (x in N || !NullHeld(F, x)) && x in F.refs && h in F.refs[x] && h in F.up
    ensures F.up[h].At?
  {}

  lemma OwnerByHandle(F: Forest, x: Id, h: Id)
    requires x in F.up && x in F.refs && h in F.refs[x] && h in F.up && F.up[h].At?
    ensures Owner(F, F.up[h].a, x)
  {}

  /** The sibling `s` refers to something strictly below the child `c` that this turn frees. */
  ghost predicate Aimed(F: Forest, p: Id, c: Id, s: Id, t: Id) {
    && Watched(F, p) && c in F.up && F.up[c] == At(p) && c in F.refs && F.refs[c] == []
    && s in F.up && s in F.target && F.target[s] == t && t in F.up && t in F.refs && F.refs[t] == [s]
    && Below(F.up, t, c) && t != c && F.up[t].At?
  }

  lemma AimedIs(F: Forest, p: Id, c: Id)
    requires Watched(F, p) && c in F.up && F.up[c] == At(p) && c in F.refs && F.refs[c] == []
    requires p in F.stale && F.stale[p] in F.up && F.stale[p] in F.target && Below(F.up, F.target[F.stale[p]], c)
    ensures Aimed(F, p, c, F.stale[p], F.target[F.stale[p]])
  {
    WatchedParts(F, p);
    var s := F.stale[p];
    var t := F.target[s];
    TargetLive(F, s);
    BelowKid(F, p, c, t);
    hide Watched, WF, Sheltered, Below, KidsOk, RefsOk, Forested, LivePrev;
    assert F.refs[t] == [s];
    assert t != c;
    BelowStep(F.up, t, c);
  }

  lemma AimedFacts(F: Forest, G: Forest, p: Id, c: Id, s: Id, t: Id)
    requires Aimed(F, p, c, s, t) && FreeEffect(F, G, c, Subtree(F, c), 0)
    ensures WF(F) && WF(G) && Shape(F) && Shape(G) && Forested(F.up) && Forested(G.up)
    ensures RefsOk(F.refs, F.target) && RefsOk(G.refs, G.target)
    ensures Confined(F, G, Subtree(F, c)) && Loosened(F, G, Subtree(F, c)) && Exact(F, G, G.flight, {c})
    ensures c !in G.up && G.flight == F.flight && F.flight == {p} && !Below(F.up, p, c)
    ensures F.up[s].At? && !Below(F.up, F.up[s].a, c)
    ensures t in G.up && t in G.refs && Owner(G, F.up[s].a, t) && t !in F.target
  {
    hide *;
    AimedParts(F, p, c, s, t);
    WatchedParts(F, p);
    FreeEffectParts(F, G, c, Subtree(F, c), 0);
    WFParts(G);
    CascadeConfined(F, G, Subtree(F, c));
    CascadeLoosened(F, G, Subtree(F, c));
    KidGentle(F, p, c);
    ParentNotBelow(F.up, c, p);
    NotAHandle(F, t, c);
    EmptyOuter(F, p, c);
    ContextStays(F, G, p, c, t, s);
    OwnerStays(F, G, c, F.up[s].a, t);
    RefsKeyed(G);
  }

  lemma AimedParts(F: Forest, p: Id, c: Id, s: Id, t: Id)
    requires Aimed(F, p, c, s, t)
    ensures Watched(F, p) && c in F.up && F.up[c] == At(p) && c in F.refs && F.refs[c] == []
    ensures s in F.up && s in F.target && F.target[s] == t && t in F.up && t in F.refs && F.refs[t] == [s]
    ensures Below(F.up, t, c) && t != c && F.up[t].At?
  {
    hide Watched, Below;
  }

  lemma NotAHandle(F: Forest, t: Id, c: Id)
    requires WF(F) && t in F.up && Below(F.up, t, c) && t != c
    ensures c !in F.target
  {
    if c in F.target {
      var n := ClimbOf(F.up, t, c);
      HandleClimb(F, t, c, n);
    }
  }

  /** When the free reaches what the sibling refers to, the sibling goes. */
  lemma ReachedGone(F: Forest, G: Forest, p: Id, c: Id, s: Id, t: Id)
    requires Aimed(F, p, c, s, t) && FreeEffect(F, G, c, Subtree(F, c), 0) && Reached(F, t, c)
    ensures s !in G.up
  {
    hide *;
    AimedParts(F, p, c, s, t);
    AimedFacts(F, G, p, c, s, t);
    var m := F.up[t].a;
    ParentLive(F, t);
    ReachedAbove(F, t, c);
    BelowStep(F.up, t, c);
    var n := ClimbOf(F.up, m, c);
    ChainDies(F, G, Subtree(F, c), c, m, n);
    if G.up[t] == F.up[t] {
      ParentLive(G, t);
    }
    RefsKeyed(F);
    MovedShrinks(F, G, Subtree(F, c), t);
    if s in G.up {
      TargetSame(F, G, Subtree(F, c), s);
      TargetLive(G, s);
    }
  }

  lemma ReachedAbove(F: Forest, t: Id, c: Id)
    requires Reached(F, t, c) && t in F.up && F.up[t].At? && Forested(F.up)
    ensures forall y :: Below(F.up, F.up[t].a, y) && Below(F.up, y, c) ==> y in F.refs && F.refs[y] == []
  {
    hide Below, Forested;
    forall y | Below(F.up, F.up[t].a, y) && Below(F.up, y, c) ensures y in F.refs && F.refs[y] == [] {
      StepUp(F.up, t, y);
      ParentNotBelow(F.up, t, F.up[t].a);
    }
  }

  lemma MovedShrinks(F: Forest, G: Forest, D: set<Id>, t: Id)
    requires Loosened(F, G, D) && t in F.up && t in G.up && t in F.refs && t in G.refs && G.up[t] != F.up[t]
    ensures |G.refs[t]| < |F.refs[t]|
  {}

  /** When a reference keeps something on the way, the sibling stays. */
  lemma UnreachedStays(F: Forest, G: Forest, p: Id, c: Id, s: Id, t: Id)
    requires Aimed(F, p, c, s, t) && FreeEffect(F, G, c, Subtree(F, c), 0) && !Reached(F, t, c)
    ensures s in G.up
  {
    hide *;
    AimedParts(F, p, c, s, t);
    AimedFacts(F, G, p, c, s, t);
    var x := KeptOnTheWay(F, t, c);
    RefsKeyed(F);
    BelowStep(F.up, t, x);
    var m := F.up[t].a;
    ParentLive(F, t);
    ParentNotHandle(F, t);
    var n := ClimbOf(F.up, m, x);
    ClimbLands(F, m, x, n);
    HandleOf(F, x);
    OnlySelf(F.up, x, c);
    BelowSelf(F.up, c);
    EmptyOuter(F, p, c);
    ContextStays(F, G, p, c, x, F.refs[x][0]);
    OwnerStays(F, G, c, F.up[F.refs[x][0]].a, x);
    NothingInFlight(F, G, p, c);
    ChainLives(F, G, c, x, m, n);
    OwnerByParent(F, t);
    NotFlying(F, G, p, c, m);
    OwnerStays(F, G, c, m, t);
    ConfinedHandles(F, G, Subtree(F, c));
    SoleOwner(F, G, t, s, m);
  }

  lemma NothingInFlight(F: Forest, G: Forest, p: Id, c: Id)
    requires G.flight == F.flight && F.flight == {p} && !Below(F.up, p, c)
    ensures forall f :: f in G.flight ==> !Below(F.up, f, c)
  {}

  lemma NotFlying(F: Forest, G: Forest, p: Id, c: Id, m: Id)
    requires G.flight == F.flight && F.flight == {p} && !Below(F.up, p, c) && Below(F.up, m, c)
    ensures m !in G.flight
  {}

  lemma OwnerByParent(F: Forest, t: Id)
    requires t in F.up && t in F.refs && F.up[t].At?
    ensures Owner(F, F.up[t].a, t)
  {}

  /** A chunk with two owners and at most one reference still has that reference. */
  lemma SoleOwner(F: Forest, G: Forest, t: Id, s: Id, m: Id)
    requires Owner(G, m, t) && s in F.up && F.up[s].At? && Owner(G, F.up[s].a, t) && F.up[s].a != m
    requires RefsOk(F.refs, F.target) && RefsOk(G.refs, G.target) && t in F.refs && F.refs[t] == [s] && t in G.refs
    requires forall h :: h in G.target ==> h in F.target && G.target[h] == F.target[h]
    ensures s in G.up
  {
    forall h | h in G.refs[t] ensures h in F.refs[t] {
      assert h in G.target && G.target[h] == t;
      assert F.target[h] == t;
    }
  }

  lemma KeptOnTheWay(F: Forest, t: Id, c: Id) returns (x: Id)
    requires !Reached(F, t, c) && Below(F.up, t, c) && t in F.up && Shape(F) && Forested(F.up)
    ensures Below(F.up, t, x) && x != t && Below(F.up, x, c) && x in F.up && x in F.refs && F.refs[x] != []
  {
    x :| Below(F.up, t, x) && x != t && Below(F.up, x, c) && !(x in F.refs && F.refs[x] == []);
    hide Below;
    var n := ClimbOf(F.up, t, x);
    ClimbLands(F, t, x, n);
  }

  lemma FreedFate(F: Forest, G: Forest, p: Id, c: Id)
    requires Watched(F, p) && F.kids[p] != [] && F.kids[p][0] == c && FreeEffect(F, G, c, Subtree(F, c), 0)
    requires p in F.stale
    ensures Fate(F, G, c, F.stale[p])
  {
    hide *;
    FirstKid(F, p);
    WatchedParts(F, p);
    FreeEffectParts(F, G, c, Subtree(F, c), 0);
    CascadeConfined(F, G, Subtree(F, c));
    ConfinedLive(F, G, Subtree(F, c));
    FreedUnreferenced(F, p, c);
    LateIs(F, c);
    var s := F.stale[p];
    if s in F.up {
      SiblingAside(F, p, c);
      if s in F.target && Below(F.up, F.target[s], c) {
        AimedIs(F, p, c);
        if Reached(F, F.target[s], c) {
          ReachedGone(F, G, p, c, s, F.target[s]);
        } else {
          UnreachedStays(F, G, p, c, s, F.target[s]);
        }
      } else {
        if s in F.target {
          NotInSubtree(F, c, F.target[s]);
        }
        Kept(F, G, Subtree(F, c), s);
      }
    }
    FateIs(F, G, c, s);
  }

  lemma FateIs(F: Forest, G: Forest, c: Id, s: Id)
    requires s !in F.up ==> s !in G.up && !Late(F, c)
    requires s in F.up ==>
      (s in G.up <==> !(s in F.target && Below(F.up, F.target[s], c) && Reached(F, F.target[s], c)))
    ensures Fate(F, G, c, s)
  {
    hide Late, Below, Reached;
  }

  /** A reference to a child keeps it: nothing below the child refers to it. */
  lemma FreedUnreferenced(F: Forest, p: Id, c: Id)
    requires Watched(F, p) && c in F.up && F.up[c] == At(p) && c in F.refs && !Held(F, c)
    ensures F.refs[c] == []
  {
    WatchedParts(F, p);
    BelowKidSelf(F, p, c);
    hide Watched, WF, Below, KidsOk, RefsOk, Forested, Owns;
    if F.refs[c] != [] {
      var h := F.refs[c][0];
      HandleOf(F, c);
      NoBackHandle(F, p, c, h);
    }
  }

  lemma NoBackHandle(F: Forest, p: Id, c: Id, h: Id)
    requires Watched(F, p) && c in F.up && F.up[c] == At(p) && c in F.refs && h in F.refs[c]
    ensures !Below(F.up, h, c) && h != c
  {
    WatchedParts(F, p);
    BelowKidSelf(F, p, c);
    ParentNotBelow(F.up, c, p);
    BelowSelf(F.up, p);
    ReferredNotHandle(F, c, h);
    hide Watched, WF, Below, KidsOk, RefsOk, Forested, Owns;
    if Below(F.up, h, c) {
      BackReferenceCycles(F, h, c);
    }
  }

  // ---------- the turn of a child that is handed over ----------

  lemma HandedTurned(F: Forest, R: Forest, G: Forest, p: Id, c: Id)
    requires Watched(F, p) && F.kids[p] != [] && F.kids[p][0] == c && c in F.up && c in F.refs && F.refs[c] != []
    requires c !in F.flight && F.up[c] == At(p) && !Below(F.up, F.refs[c][0], c) && F.refs[c][0] in F.target
    requires R == RemoveHandle(F, F.refs[c][0]) && WF(R) && c in R.up && WF(G)
    requires F.refs[c][0] in F.up && (Receiver(F, p, c).At? ==> Receiver(F, p, c).a in R.up && Receiver(F, p, c).a != c)
    requires G == Stolen(R, c, Receiver(F, p, c)) && Outer(F, p, c)
    ensures Turned(F, G, p, c)
  {
    var q := Receiver(F, p, c);
    var E := Subtree(F, c);
    StolenIsMove(R, c, q);
    hide *;
    WatchedParts(F, p);
    SubtreeDownClosed(F, c);
    BelowSelf(F.up, c);
    InSubtree(F, c, c);
    HandOverCascade(F, p, c, E, {p});
    HandOverTrails(F, p, c, E);
    HandedFields(F, R, c, q);
    HandedTail(F, R, p, c, q);
    TurnedFrom(F, G, p, c);
  }

  lemma KidRegion(F: Forest, p: Id, c: Id)
    requires Watched(F, p) && c in F.up && F.up[c] == At(p)
    requires Outer(F, p, c) || p !in F.stale || F.stale[p] in F.up
    ensures Region(F, Subtree(F, c)) && Steady(F, Subtree(F, c) - {c}) && p !in Subtree(F, c)
  {
    WatchedParts(F, p);
    SubtreeDownClosed(F, c);
    ParentAside(F, p, c);
    KidGentle(F, p, c);
    StaleInUp(F);
    hide Watched, WF, Sheltered, KidsOk, RefsOk, Forested, DownClosed, Unread, Subtree, Outer, LivePrev, Sole;
    if p in F.stale && !Outer(F, p, c) {
      SiblingBystander(F, p, c);
    }
  }

  /** A child that is referenced from below `p` is not above what the sibling refers to. */
  lemma SiblingBystander(F: Forest, p: Id, c: Id)
    requires Watched(F, p) && c in F.up && F.up[c] == At(p) && p in F.stale && F.stale[p] in F.up && !Outer(F, p, c)
    ensures Bystander(F, Subtree(F, c), F.stale[p])
  {
    WatchedParts(F, p);
    SiblingAside(F, p, c);
    hide Watched, WF, Sheltered, KidsOk, Outer;
    var s := F.stale[p];
    if s in F.target && F.target[s] in Subtree(F, c) {
      TargetLive(F, s);
      BelowKid(F, p, c, F.target[s]);
      SoleParts(F, p, s, c);
    }
  }

  lemma HandedTail(F: Forest, R: Forest, p: Id, c: Id, q: Ptr)
    requires Watched(F, p) && F.kids[p] != [] && F.kids[p][0] == c && c in F.up && c in F.refs && F.refs[c] != []
    requires F.up[c] == At(p) && F.refs[c][0] in F.target && F.refs[c][0] in F.up && R == RemoveHandle(F, F.refs[c][0])
    requires q == Receiver(F, p, c) && Shape(R) && c in R.up && R.up[c] == At(p) && p in R.kids
    requires (q.At? ==> q.a in R.kids) && Outer(F, p, c)
    ensures p in Move(R, c, q).kids && Move(R, c, q).kids[p] == F.kids[p][1..]
  {
    hide *;
    var h := F.refs[c][0];
    WatchedParts(F, p);
    BelowKidSelf(F, p, c);
    HandleOf(F, c);
    OuterIs(F, p, c, h);
    BelowSelf(F.up, p);
    if F.up[h] == At(p) {
      StepUp(F.up, h, p);
    }
    SameSiblingList(F, h, p);
    ReceiverIs(F, p, c);
    if F.up[p].At? {
      ParentNotBelow(F.up, p, F.up[p].a);
    }
    MovedTail(R, p, c, q);
  }

  lemma MovedTail(R: Forest, p: Id, c: Id, q: Ptr)
    requires Shape(R) && c in R.up && R.up[c] == At(p) && p in R.kids && (q.At? ==> q.a in R.kids) && q != At(p)
    requires R.kids[p] != [] && R.kids[p][0] == c
    ensures p in Move(R, c, q).kids && Move(R, c, q).kids[p] == R.kids[p][1..]
  {}

  lemma HandedFate(F: Forest, G: Forest, p: Id, c: Id)
    requires Watched(F, p) && c in F.up && F.up[c] == At(p) && c in F.refs && F.refs[c] != []
    requires G.up.Keys == F.up.Keys - {F.refs[c][0]} && p in F.stale && (F.stale[p] !in F.up ==> !Late(F, c))
    ensures Fate(F, G, c, F.stale[p])
  {
    hide *;
    WatchedParts(F, p);
    HandleOf(F, c);
    BelowKidSelf(F, p, c);
    BelowSelf(F.up, c);
    var h, s := F.refs[c][0], F.stale[p];
    ParentAside(F, p, c);
    if s in F.up && s in F.target {
      TargetLive(F, s);
      OnlyItself(F, c);
      if F.target[s] == c {
        SoleOf(F, p, s);
      } else if Below(F.up, F.target[s], c) {
        ReferredBlocks(F, F.target[s], c);
      }
    }
    FateIs(F, G, c, s);
  }

  lemma OnlyItself(F: Forest, c: Id)
    requires Forested(F.up) && c in F.up
    ensures Reached(F, c, c)
  {
    BelowSelf(F.up, c);
    hide Below, Forested;
    forall x | Below(F.up, c, x) && Below(F.up, x, c) ensures x == c {
      OnlySelf(F.up, c, x);
    }
  }

  lemma SoleOf(F: Forest, p: Id, s: Id)
    requires Sole(F, p, s) && s in F.target && F.target[s] in F.refs && Below(F.up, F.target[s], p) && F.target[s] != p
    ensures F.refs[F.target[s]] == [s]
  {}

  lemma ReferredBlocks(F: Forest, t: Id, c: Id)
    requires Below(F.up, t, c) && t != c && c in F.refs && F.refs[c] != []
    ensures !Reached(F, t, c)
  {
    BelowSelf(F.up, c);
    hide Below;
  }
}
