/** What a free cascade leaves of the paths up to a chunk in flight, and of the child lists it does not reach into. */
module TallocPaths {
  import opened TallocForest
  import opened TallocOwnership

  // ---------- paths ----------

  lemma SameUpTrail(F0: Forest, F: Forest, f: Id)
    requires F.up == F0.up
    ensures Trail(F0, F, f)
  {}

  lemma SameUpTrails(F0: Forest, F: Forest, D: set<Id>)
    requires F.up == F0.up
    ensures Trails(F0, F, D)
  {
    hide Unread, Trail;
    forall f | f in F0.up ensures Trail(F0, F, f) {
      SameUpTrail(F0, F, f);
    }
  }

  lemma TrailTrans(F0: Forest, F1: Forest, F2: Forest, f: Id)
    requires Trail(F0, F1, f) && Trail(F1, F2, f) && F2.up.Keys <= F1.up.Keys
    requires forall y :: y in F2.up && y in F1.flight ==> y in F2.flight
    ensures Trail(F0, F2, f)
  {}

  /** A chunk outside D that the searches of a cascade within D do not lead to. */
  ghost predicate Traced(F: Forest, D: set<Id>, f: Id) {
    f in F.up && f !in F.target && f !in D && Unread(F, D, f)
  }

  /** A cascade within D followed by one within E. */
  lemma TrailsTrans(F0: Forest, F1: Forest, F2: Forest, D: set<Id>, E: set<Id>)
    requires Trails(F0, F1, D) && Trails(F1, F2, E) && F2.up.Keys <= F1.up.Keys
    requires forall y :: y in F2.up && y in F1.flight ==> y in F2.flight
    requires forall f :: Traced(F0, D, f) ==> Traced(F1, E, f)
    ensures Trails(F0, F2, D)
  {
    hide Unread, Trail;
    forall f | Traced(F0, D, f) ensures Trail(F0, F2, f) {
      assert Traced(F1, E, f);
      TrailTrans(F0, F1, F2, f);
    }
  }

  lemma TrailsWiden(F0: Forest, F: Forest, D: set<Id>, E: set<Id>)
    requires Trails(F0, F, D) && D <= E
    ensures Trails(F0, F, E)
  {
    hide Trail;
    forall f | Traced(F0, E, f) ensures Unread(F0, D, f) {
      UnreadFewer(F0, E, D, f);
    }
  }

  lemma UnreadFewer(F: Forest, D: set<Id>, E: set<Id>, f: Id)
    requires Unread(F, D, f) && E <= D
    ensures Unread(F, E, f)
  {}

  lemma SameUnread(F: Forest, G: Forest, D: set<Id>, f: Id)
    requires Unread(F, D, f) && G.up == F.up && G.refs == F.refs
    ensures Unread(G, D, f)
  {}

  lemma AllUnreadStay(F0: Forest, F: Forest, D: set<Id>)
    requires WF(F0) && WF(F) && Confined(F0, F, D) && Trails(F0, F, D) && D !! F.flight
    ensures forall f :: Traced(F0, D, f) ==> Traced(F, D, f)
  {
    WFParts(F0);
    WFParts(F);
    hide WF, KidsOk, RefsOk, Forested, Unread, Trail;
    forall f | Traced(F0, D, f) ensures Traced(F, D, f) {
      UnreadStays(F0, F, D, f);
    }
  }

  /** Two turns of a cascade within D. */
  lemma TrailsThen(F0: Forest, F1: Forest, F2: Forest, D: set<Id>)
    requires WF(F0) && WF(F1) && Confined(F0, F1, D) && Confined(F1, F2, D) && Trails(F0, F1, D) && Trails(F1, F2, D)
    requires D !! F1.flight && F2.flight == F1.flight
    ensures Trails(F0, F2, D)
  {
    AllUnreadStay(F0, F1, D);
    hide WF, Traced, Trail, Trails;
    TrailsTrans(F0, F1, F2, D, D);
  }

  lemma RemoveHandleTrail(F: Forest, h: Id, f: Id)
    requires WF(F) && h in F.target
    ensures Trail(F, RemoveHandle(F, h), f)
  {
    RemoveHandleWF(F, h);
    var R := RemoveHandle(F, h);
    hide WF, RemoveHandle, Below;
    forall x, y | x in R.up ensures Below(R.up, x, y) <==> Below(F.up, x, y) {
      BelowAfterRemove(F, h, x, y);
    }
  }

  lemma RemoveHandleTrails(F: Forest, h: Id, D: set<Id>)
    requires WF(F) && h in F.target
    ensures Trails(F, RemoveHandle(F, h), D)
  {
    hide WF, RemoveHandle, Unread, Trail;
    forall f | f in F.up ensures Trail(F, RemoveHandle(F, h), f) {
      RemoveHandleTrail(F, h, f);
    }
  }

  lemma DropTrail(F: Forest, p: Id, f: Id)
    requires forall x :: x in F.up ==> F.up[x] != At(p)
    ensures Trail(F, Drop(F, p), f)
  {
    var R := Drop(F, p);
    hide Below;
    forall x, y | x in R.up ensures Below(R.up, x, y) <==> Below(F.up, x, y) {
      BelowDrop(F.up, p, x, y);
    }
  }

  // ---------- paths after a hand-over ----------

  lemma {:induction false} ClimbAside(up: map<Id, Ptr>, c: Id, q: Ptr, x: Id, y: Id, n: nat)
    requires c in up && !Below(up, x, c)
    ensures Climb(up[c := q], x, y, n) <==> Climb(up, x, y, n)
    decreases n
  {
    if x == c {
      BelowSelf(up, c);
    } else if n > 0 && x in up && up[x].At? {
      BelowStep(up, x, c);
      ClimbAside(up, c, q, up[x].a, y, n - 1);
    }
  }

  /** Moving `c` changes no path that does not start below it. */
  lemma BelowAside(up: map<Id, Ptr>, c: Id, q: Ptr, x: Id, y: Id)
    requires c in up && !Below(up, x, c)
    ensures Below(up[c := q], x, y) <==> Below(up, x, y)
  {
    if Below(up, x, y) {
      var n: nat :| Climb(up, x, y, n);
      ClimbAside(up, c, q, x, y, n);
    }
    if Below(up[c := q], x, y) {
      var n: nat :| Climb(up[c := q], x, y, n);
      ClimbAside(up, c, q, x, y, n);
    }
  }

  /** Moving `c` from `p` to a chunk aside from `f`, or to the parent of `p`, only takes `p` out of the paths to `f`. */
  lemma {:induction false} ClimbMoved(up: map<Id, Ptr>, p: Id, c: Id, q: Ptr, f: Id, x: Id, y: Id, n: nat)
    requires c in up && up[c] == At(p) && p in up && !Below(up, f, c)
    requires q.At? ==> !Below(up, q.a, c) && (Below(up, q.a, f) ==> up[p] == q)
    requires x in up && Climb(up[c := q], x, f, n)
    requires forall z :: z in up && up[z].At? ==> up[z].a in up
    ensures Below(up, x, f) && (Below(up, x, y) && y != p ==> Below(up[c := q], x, y))
    decreases n
  {
    var vp := up[c := q];
    hide Below;
    BelowSelf(vp, x);
    BelowSelf(up, x);
    if n == 0 {
      BelowAside(up, c, q, x, y);
    } else if x == c {
      assert Below(vp, q.a, f) by { ClimbBelow(vp, q.a, f, n - 1); }
      BelowAside(up, c, q, q.a, f);
      StepUp(up, p, f);
      StepUp(up, c, f);
      if Below(up, c, y) && y != c && y != p {
        StepDown(up, c, y);
        StepDown(up, p, y);
        BelowAside(up, c, q, q.a, y);
        StepUp(vp, c, y);
      }
    } else {
      ClimbMoved(up, p, c, q, f, up[x].a, y, n - 1);
      StepUp(up, x, f);
      if Below(up, x, y) && y != x && y != p {
        StepDown(up, x, y);
        StepUp(vp, x, y);
      }
    }
  }

  lemma ClimbBelow(up: map<Id, Ptr>, x: Id, y: Id, n: nat)
    requires Climb(up, x, y, n)
    ensures Below(up, x, y)
  {}

  lemma StepUp(up: map<Id, Ptr>, x: Id, y: Id)
    requires x in up && up[x].At? && Below(up, up[x].a, y)
    ensures Below(up, x, y)
  {
    if x == y {
      BelowSelf(up, x);
    } else {
      BelowStep(up, x, y);
    }
  }

  lemma StepDown(up: map<Id, Ptr>, x: Id, y: Id)
    requires x in up && Below(up, x, y) && x != y
    ensures up[x].At? && Below(up, up[x].a, y)
  {
    BelowStep(up, x, y);
  }

  lemma RegionSplit(F: Forest, D: set<Id>)
    requires Region(F, D)
    ensures D !! F.flight && DownClosed(F, D)
  {}

  lemma MovedTrail(R: Forest, p: Id, c: Id, q: Ptr, f: Id)
    requires Shape(R) && Forested(R.up) && c in R.up && R.up[c] == At(p) && p in R.up && p in R.kids && p in R.flight
    requires q.At? ==> q.a in R.kids
    requires !Below(R.up, f, c)
    requires q.At? ==> !Below(R.up, q.a, c) && (Below(R.up, q.a, f) ==> R.up[p] == q)
    ensures Trail(R, Move(R, c, q), f)
  {
    MoveFields(R, c, q);
    AllParentsLive(R);
    var G := Move(R, c, q);
    hide Move, Shape, Forested, Below;
    forall x, y | x in G.up && Below(G.up, x, f)
      ensures Below(R.up, x, f) && (Below(R.up, x, y) && y != p ==> Below(G.up, x, y))
    {
      var n := ClimbOf(G.up, x, f);
      ClimbMoved(R.up, p, c, q, f, x, y, n);
    }
  }

  lemma ClimbOf(up: map<Id, Ptr>, x: Id, y: Id) returns (n: nat)
    requires Below(up, x, y)
    ensures Climb(up, x, y, n)
  {
    n :| Climb(up, x, y, n);
  }

  lemma AllParentsLive(F: Forest)
    requires Shape(F) && Forested(F.up)
    ensures forall z :: z in F.up && F.up[z].At? ==> F.up[z].a in F.up
  {
    forall z | z in F.up && F.up[z].At? ensures F.up[z].a in F.up {
      ParentLive(F, z);
    }
  }

  /** Nothing outside the region is below a chunk of it. */
  lemma OutsideAside(F: Forest, D: set<Id>, c: Id, f: Id)
    requires DownClosed(F, D) && c in D && f !in D
    ensures !Below(F.up, f, c)
  {
    if Below(F.up, f, c) {
      var n: nat :| Climb(F.up, f, c, n);
      ClimbInside(F, D, f, c, n);
    }
  }

  lemma {:induction false} ClimbInside(F: Forest, D: set<Id>, x: Id, c: Id, n: nat)
    requires DownClosed(F, D) && c in D && Climb(F.up, x, c, n)
    ensures x in D
    decreases n
  {
    if n > 0 {
      ClimbInside(F, D, F.up[x].a, c, n - 1);
    }
  }

  /** The receiver of a child that a reference keeps is aside from every chunk that the searches do not lead to. */
  lemma ReceiverAside(F: Forest, D: set<Id>, p: Id, c: Id, f: Id)
    requires WF(F) && c in F.up && c in D && F.up[c] == At(p) && F.refs[c] != [] && Unread(F, D, f)
    requires !Below(F.up, F.refs[c][0], c)
    ensures p in F.up && F.refs[c][0] in F.up
    ensures var q := Receiver(F, p, c); q.At? && Below(F.up, q.a, f) ==> F.up[p] == q
  {
    NewestHandle(F, c);
    ParentLive(F, c);
    var h := F.refs[c][0];
    assert h in F.refs[c];
    hide WF, Below;
    if F.up[h].At? && Below(F.up, F.up[h].a, f) {
      StepUp(F.up, h, f);
    }
  }

  /** One hand-over keeps the paths. */
  lemma HandOverTrails(F: Forest, p: Id, c: Id, D: set<Id>)
    requires WF(F) && c in F.up && c !in F.flight && F.up[c] == At(p) && c in F.refs && F.refs[c] != []
    requires !Below(F.up, F.refs[c][0], c) && c in D && DownClosed(F, D) && p in F.flight
    ensures p in F.up && F.refs[c][0] in F.target && F.refs[c][0] in F.up
    ensures var R := RemoveHandle(F, F.refs[c][0]); var q := Receiver(F, p, c);
      && WF(R) && Shape(R) && c in R.up && R.up[c] == At(p) && p in R.kids && (q.At? ==> q.a in R.kids)
      && Trails(F, Move(R, c, q), D)
  {
    hide WF, RemoveHandle, Below, Move, Unread, Trail;
    HandOverWF(F, p, c);
    var h := F.refs[c][0];
    var R := RemoveHandle(F, h);
    var q := Receiver(F, p, c);
    RemoveHandleWF(F, h);
    WFParts(R);
    WFParts(F);
    MoveFields(R, c, q);
    HandleNotParent(F, h, c);
    forall f | Traced(F, D, f) ensures Trail(F, Move(R, c, q), f) {
      RemoveHandleTrail(F, h, f);
      OutsideAside(F, D, c, f);
      BelowAfterRemove(F, h, f, c);
      ReceiverAside(F, D, p, c, f);
      if q.At? {
        BelowAfterRemove(F, h, q.a, f);
      }
      MovedTrail(R, p, c, q, f);
      TrailTrans(F, R, Move(R, c, q), f);
    }
  }

  lemma HandleNotParent(F: Forest, h: Id, c: Id)
    requires WF(F) && h in F.target
    ensures h !in F.flight && h !in F.stale && forall x :: x in F.up && F.up[x].At? ==> F.up[x].a != h
  {}

  // ---------- a walk up that meets no dangling link ----------

  /** Walking up from `x`, up to `a` if `a` is above it, passes through no chunk whose `prev` link dangles. */
  ghost predicate ClearTo(F: Forest, x: Id, a: Id) {
    forall f :: f in F.flight && Below(F.up, x, f) ==> LivePrev(F, f) || (Below(F.up, x, a) && Below(F.up, a, f))
  }

  lemma ClearHere(F: Forest, x: Id, a: Id)
    requires Forested(F.up) && x in F.up && ClearTo(F, x, a) && x != a
    ensures x in F.flight ==> LivePrev(F, x)
    ensures F.up[x].At? ==> ClearTo(F, F.up[x].a, a)
  {
    BelowSelf(F.up, x);
    hide Below, LivePrev;
    if F.up[x].At? {
      ParentNotBelow(F.up, x, F.up[x].a);
      forall f | f in F.flight && Below(F.up, F.up[x].a, f)
        ensures LivePrev(F, f) || (Below(F.up, F.up[x].a, a) && Below(F.up, a, f))
      {
        StepUp(F.up, x, f);
        if !LivePrev(F, f) {
          StepDown(F.up, x, a);
        }
      }
    }
    if x in F.flight && !LivePrev(F, x) {
      StepDown(F.up, x, a);
      BelowTrans(F.up, F.up[x].a, a, x);
    }
  }

  lemma ClearUp(F: Forest, x: Id, a: Id)
    requires Forested(F.up) && x in F.up && x != a && (x in F.flight ==> LivePrev(F, x))
    requires F.up[x].At? ==> ClearTo(F, F.up[x].a, a)
    ensures ClearTo(F, x, a)
  {
    hide Below, LivePrev;
    forall f | f in F.flight && Below(F.up, x, f)
      ensures LivePrev(F, f) || (Below(F.up, x, a) && Below(F.up, a, f))
    {
      if f != x {
        StepDown(F.up, x, f);
        if !LivePrev(F, f) {
          StepUp(F.up, x, a);
        }
      }
    }
  }

  lemma ClearSelf(F: Forest, a: Id)
    requires a in F.up
    ensures ClearTo(F, a, a)
  {
    BelowSelf(F.up, a);
  }

  /** Of two chunks above `x`, one is above the other. */
  lemma {:induction false} Comparable(up: map<Id, Ptr>, x: Id, a: Id, b: Id, n: nat)
    requires Climb(up, x, a, n) && Below(up, x, b)
    ensures Below(up, a, b) || Below(up, b, a)
    decreases n
  {
    if x == b {
      ClimbBelow(up, x, a, n);
    } else if n > 0 {
      BelowStep(up, x, b);
      Comparable(up, up[x].a, a, b, n - 1);
    }
  }

  // ---------- child lists ----------

  /** No reference with context `a` points into D. */
  ghost predicate NoHandleInto(F: Forest, a: Id, D: set<Id>) {
    forall h :: h in F.target && h in F.up && F.up[h] == At(a) ==> F.target[h] !in D
  }

  /** Freeing `c` within D takes `c` off the child list of a chunk outside D that holds nothing in D, at most. */
  ghost predicate FreeLists(F0: Forest, F: Forest, c: Id, D: set<Id>) {
    forall a :: a in F0.kids && a in F.kids && a !in D && NoHandleInto(F0, a, D) && NullFree(F0, D - {c}) ==>
      F.kids[a] == if c in F.up then F0.kids[a] else Without(F0.kids[a], c)
  }

  /** Draining `p` within D leaves such a list alone. */
  ghost predicate DrainLists(F0: Forest, F: Forest, p: Id, D: set<Id>) {
    forall a :: a in F0.kids && a in F.kids && a !in D && a != p && NoHandleInto(F0, a, D) && NullFree(F0, D) ==>
      F.kids[a] == F0.kids[a]
  }

  lemma NoHandleStays(F0: Forest, F: Forest, a: Id, D: set<Id>)
    requires NoHandleInto(F0, a, D) && Confined(F0, F, D)
    ensures NoHandleInto(F, a, D)
  {}

  lemma NullFreeStays(F0: Forest, F: Forest, D: set<Id>, N: set<Id>)
    requires NullFree(F0, N) && Loosened(F0, F, D)
    ensures NullFree(F, N)
  {}

  lemma NullFreeFewer(F: Forest, D: set<Id>, N: set<Id>)
    requires NullFree(F, D) && N <= D
    ensures NullFree(F, N)
  {}

  lemma SameSiblingList(F: Forest, h: Id, a: Id)
    requires WF(F) && h in F.target
    requires h in F.up && F.up[h] != At(a) && a != h && a in F.kids
    ensures a in RemoveHandle(F, h).kids && RemoveHandle(F, h).kids[a] == F.kids[a]
  {
    ParentListed(F, h);
    hide WF;
  }

  lemma RemoveHandleLists(F: Forest, h: Id, p: Id, D: set<Id>)
    requires WF(F) && h in F.target && h in F.up && F.target[h] in D && p in RemoveHandle(F, h).up
    ensures FreeLists(F, RemoveHandle(F, h), p, D)
  {
    var R := RemoveHandle(F, h);
    HandleListed(F, h);
    hide WF, RemoveHandle, NullFree;
    forall a | a in F.kids && a in R.kids && a !in D && NoHandleInto(F, a, D) ensures R.kids[a] == F.kids[a] {
      SameSiblingList(F, h, a);
    }
  }

  lemma HandleListed(F: Forest, h: Id)
    requires WF(F) && h in F.target
    ensures h !in RemoveHandle(F, h).kids
  {
    RemoveHandleWF(F, h);
    WFParts(RemoveHandle(F, h));
    hide WF, RemoveHandle;
  }

  /** Freeing the handle itself. */
  lemma FreedHandleLists(F: Forest, h: Id, D: set<Id>)
    requires WF(F) && h in F.target && h in F.up
    ensures FreeLists(F, RemoveHandle(F, h), h, D)
  {
    var R := RemoveHandle(F, h);
    HandleListed(F, h);
    RemoveHandleWF(F, h);
    ParentListed(F, h);
    WFParts(F);
    hide WF, NullFree, NoHandleInto;
    forall a | a in F.kids && a in R.kids ensures R.kids[a] == Without(F.kids[a], h) {
      if F.up[h] != At(a) {
        hide RemoveHandle;
        SameSiblingList(F, h, a);
        ElsewhereAbsent(F, h, a);
      }
    }
  }

  lemma ElsewhereAbsent(F: Forest, c: Id, a: Id)
    requires KidsOk(F.up, F.kids, F.flight) && a in F.kids && c in F.up && F.up[c] != At(a)
    ensures Without(F.kids[a], c) == F.kids[a]
  {
    WithoutAbsent(F.kids[a], c);
  }

  /** Dropping a handle first. */
  lemma FreeListsAgain(F0: Forest, G: Forest, F: Forest, p: Id, D: set<Id>)
    requires FreeLists(F0, G, p, D) && FreeLists(G, F, p, D) && Confined(F0, G, D) && Loosened(F0, G, D)
    requires F.kids.Keys <= G.kids.Keys && p in G.up
    ensures FreeLists(F0, F, p, D)
  {
    hide Confined, Loosened, NoHandleInto, NullFree;
    forall a | a in F0.kids && a in F.kids && a !in D && NoHandleInto(F0, a, D) && NullFree(F0, D - {p})
      ensures F.kids[a] == if p in F.up then F0.kids[a] else Without(F0.kids[a], p)
    {
      NoHandleStays(F0, G, a, D);
      NullFreeStays(F0, G, D, D - {p});
      assert a in G.kids;
    }
  }

  /** Unlinking, draining and releasing `p`. */
  lemma FreeDrainedLists(F0: Forest, F: Forest, p: Id, D: set<Id>)
    requires WF(F0) && p in F0.up && p in D && (F0.up[p].At? ==> F0.up[p].a in F0.kids)
    requires DrainLists(Detach(F0, p), F, p, D - {p}) && p !in Drop(F, p).up
    ensures FreeLists(F0, Drop(F, p), p, D)
  {
    WFParts(F0);
    var T := Detach(F0, p);
    hide WF, NullFree, PrevOf;
    forall a | a in F0.kids && a in Drop(F, p).kids && a !in D && NoHandleInto(F0, a, D) && NullFree(F0, D - {p})
      ensures Drop(F, p).kids[a] == Without(F0.kids[a], p)
    {
      assert NoHandleInto(T, a, D - {p});
      SameNullFree(F0, T, D - {p});
      if F0.up[p] != At(a) {
        ElsewhereAbsent(F0, p, a);
      }
    }
  }

  lemma SameNullFree(F: Forest, G: Forest, D: set<Id>)
    requires NullFree(F, D) && F.up == G.up && F.refs == G.refs
    ensures NullFree(G, D)
  {}

  /** A turn of the child loop that freed the child. */
  lemma DrainFreedLists(F0: Forest, F1: Forest, F: Forest, p: Id, D: set<Id>, c: Id)
    requires DrainLists(F0, F1, p, D) && FreeLists(F1, F, c, D) && Confined(F0, F1, D) && Loosened(F0, F1, D)
    requires KidsOk(F1.up, F1.kids, F1.flight) && c in F1.up && F1.up[c] == At(p) && F.kids.Keys <= F1.kids.Keys
    ensures DrainLists(F0, F, p, D)
  {
    hide Confined, Loosened, NoHandleInto, NullFree, KidsOk;
    forall a | a in F0.kids && a in F.kids && a !in D && a != p && NoHandleInto(F0, a, D) && NullFree(F0, D)
      ensures F.kids[a] == F0.kids[a]
    {
      NoHandleStays(F0, F1, a, D);
      NullFreeStays(F0, F1, D, D);
      NullFreeFewer(F1, D, D - {c});
      assert a in F1.kids;
      ElsewhereAbsent(F1, c, a);
    }
  }

  /** A turn that handed it over. */
  lemma HandedLists(F: Forest, p: Id, c: Id, D: set<Id>)
    requires WF(F) && c in F.up && c !in F.flight && F.up[c] == At(p) && c in F.refs && F.refs[c] != []
    requires !Below(F.up, F.refs[c][0], c) && c in D
    ensures p in F.up && F.refs[c][0] in F.target && F.refs[c][0] in F.up
    ensures var R := RemoveHandle(F, F.refs[c][0]); var q := Receiver(F, p, c);
      && WF(R) && Shape(R) && c in R.up && R.up[c] == At(p) && p in R.kids && (q.At? ==> q.a in R.kids)
      && DrainLists(F, Move(R, c, q), p, D)
  {
    hide WF, RemoveHandle, Below, Move, NullFree;
    HandOverWF(F, p, c);
    NewestHandle(F, c);
    var h := F.refs[c][0];
    var R := RemoveHandle(F, h);
    var q := Receiver(F, p, c);
    WFParts(R);
    HandleListed(F, h);
    forall a | a in F.kids && a in Move(R, c, q).kids && a !in D && a != p && NoHandleInto(F, a, D) && NullFree(F, D)
      ensures Move(R, c, q).kids[a] == F.kids[a]
    {
      NotNullHeld(F, D, h, c);
      MoveLists(R, c, q, a);
      SameSiblingList(F, h, a);
    }
  }

  lemma NotNullHeld(F: Forest, D: set<Id>, h: Id, c: Id)
    requires NullFree(F, D) && c in D && c in F.refs && h in F.refs[c] && h in F.up
    ensures F.up[h].At?
  {}

  lemma MoveLists(R: Forest, c: Id, q: Ptr, a: Id)
    requires Shape(R) && c in R.up && (R.up[c].At? ==> R.up[c].a in R.kids) && (q.At? ==> q.a in R.kids)
    requires R.up[c] != At(a) && q != At(a) && a in Move(R, c, q).kids
    ensures a in R.kids && Move(R, c, q).kids[a] == R.kids[a]
  {}

  lemma DrainListsTrans(F0: Forest, F1: Forest, F: Forest, p: Id, D: set<Id>)
    requires DrainLists(F0, F1, p, D) && DrainLists(F1, F, p, D) && Confined(F0, F1, D) && Loosened(F0, F1, D)
    requires F.kids.Keys <= F1.kids.Keys
    ensures DrainLists(F0, F, p, D)
  {
    hide Confined, Loosened, NoHandleInto, NullFree;
    forall a | a in F0.kids && a in F.kids && a !in D && a != p && NoHandleInto(F0, a, D) && NullFree(F0, D)
      ensures F.kids[a] == F0.kids[a]
    {
      NoHandleStays(F0, F1, a, D);
      NullFreeStays(F0, F1, D, D);
      assert a in F1.kids;
    }
  }

  // ---------- whole subtrees ----------

  lemma SubtreeDownClosed(F: Forest, p: Id)
    requires Forested(F.up)
    ensures DownClosed(F, Subtree(F, p))
  {
    forall x | x in F.up && F.up[x].At? && F.up[x].a in Subtree(F, p) ensures x in Subtree(F, p) {
      if x != p {
        BelowStep(F.up, x, p);
      } else {
        BelowSelf(F.up, p);
      }
    }
  }

  lemma NoStale(F: Forest, D: set<Id>)
    requires WF(F) && F.flight == {}
    ensures StaleSafe(F, D) && F.stale == map[]
  {
    assert forall f :: f !in F.stale;
  }

  lemma ParentOutside(F: Forest, p: Id)
    requires Forested(F.up) && p in F.up && F.up[p].At?
    ensures F.up[p].a !in Subtree(F, p)
  {
    ParentNotBelow(F.up, p, F.up[p].a);
  }

  lemma RefsKeyed(F: Forest)
    requires Shape(F)
    ensures F.refs.Keys == F.up.Keys
  {}

  lemma ParentNotHandle(F: Forest, h: Id)
    requires WF(F) && h in F.up && F.up[h].At?
    ensures F.up[h].a !in F.target
  {}
}
