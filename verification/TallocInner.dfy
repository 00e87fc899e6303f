/** The turn of a child whose one reference is from below the chunk that is freed: it is handed over to the context of
    that reference, below a later child, or stays where it is if that context is the chunk itself. */
module TallocInner {
  import opened TallocForest
  import opened TallocOwnership
  import opened TallocPaths
  import opened TallocCascade
  import opened TallocStale
  import opened TallocTurns

  /** The one reference to such a child, and the child of `p` that it is below. */
  lemma InnerHolder(F: Forest, p: Id, c: Id) returns (h: Id, d: Id)
    requires Watched(F, p) && F.kids[p] != [] && c in F.kids[p] && c in F.up && F.up[c] == At(p) && !Outer(F, p, c)
    ensures c in F.refs && F.refs[c] == [h] && h in F.target && F.target[h] == c && h in F.up && Below(F.up, h, p)
    ensures !Below(F.up, h, c) && h != c
    ensures d in F.kids[p] && d in F.up && F.up[d] == At(p) && Below(F.up, h, d) && d != c && Holder(F, c, d)
  {
    h :| c in F.refs && h in F.refs[c] && Below(F.up, h, p);
    hide *;
    WatchedParts(F, p);
    BelowKidSelf(F, p, c);
    InnerKid(F, p, c, h);
    ReferredNotHandle(F, c, h);
    NoBackHandle(F, p, c, h);
    var n := ClimbOf(F.up, h, p);
    d := KidAbove(F, p, h, n);
    HolderIs(F, c, d);
  }

  // ---------- ancestry after a move ----------

  lemma {:induction false} MovedClimb(up: map<Id, Ptr>, c: Id, q: Id, x: Id, y: Id, n: nat)
    requires Forested(up) && c in up && Climb(up, x, c, n) && !Below(up, q, c)
    ensures Below(up[c := At(q)], x, y) <==> (Below(up, x, y) && Below(up, y, c)) || Below(up, q, y)
    decreases n
  {
    var vp := up[c := At(q)];
    hide Below, Forested;
    if x == c {
      BelowSelf(vp, c);
      OnlySelf(up, c, y);
      BelowAside(up, c, At(q), q, y);
      if y != c {
        BelowStep(vp, c, y);
      }
    } else {
      var z := up[x].a;
      MovedClimb(up, c, q, z, y, n - 1);
      ClimbBelow(up, z, c, n - 1);
      PathStep(up, x, y, c);
      BelowSelf(vp, x);
      if y != x {
        BelowStep(vp, x, y);
      }
    }
  }

  /** From heap F to heap G the reference `h` is gone, and its target `c` hangs from the context of `h`. */
  ghost predicate InnerTurn(F: Forest, G: Forest, p: Id, c: Id, h: Id, q: Id) {
    && Watched(F, p) && WF(G) && Tightens(F, G) && Loosened(F, G, {c}) && p in G.kids
    && F.kids[p] != [] && F.kids[p][0] == c && c in F.up && F.up[c] == At(p) && c in F.refs && F.refs[c] == [h]
    && h in F.target && h in F.up && F.target[h] == c && h != c && Below(F.up, h, p) && !Below(F.up, h, c)
    && F.up[h] == At(q)
    && G.up == (F.up - {h})[c := At(q)] && G.refs == (F.refs - {h})[c := []] && G.target == F.target - {h}
    && G.flight == F.flight && G.stale == F.stale
    && G.kids[p] == Without(F.kids[p], Gone(p, c, h, q))
  }

  /** What leaves the list of children: the child, or the reference if the chunk itself held it. */
  ghost function Gone(p: Id, c: Id, h: Id, q: Id): Id {
    if q == p then h else c
  }

  lemma InnerParts(F: Forest, G: Forest, p: Id, c: Id, h: Id, q: Id)
    requires InnerTurn(F, G, p, c, h, q)
    ensures Watched(F, p) && WF(G) && Tightens(F, G) && Loosened(F, G, {c}) && p in G.kids
    ensures F.kids[p] != [] && F.kids[p][0] == c && c in F.up && F.up[c] == At(p) && c in F.refs && F.refs[c] == [h]
    ensures h in F.target && h in F.up && F.target[h] == c && h != c && Below(F.up, h, p) && !Below(F.up, h, c)
    ensures F.up[h] == At(q)
    ensures G.up == (F.up - {h})[c := At(q)] && G.refs == (F.refs - {h})[c := []] && G.target == F.target - {h}
    ensures G.flight == F.flight && G.stale == F.stale && G.kids[p] == Without(F.kids[p], Gone(p, c, h, q))
  {
    hide Watched, WF, Tightens, Loosened, Below, Without;
  }

  /** Where chunks are afterwards: what was below `c` is below the context now. */
  lemma InnerBelow(F: Forest, G: Forest, p: Id, c: Id, h: Id, q: Id, x: Id, y: Id)
    requires InnerTurn(F, G, p, c, h, q) && x in F.up && x != h
    ensures Below(F.up, x, c) ==> (Below(G.up, x, y) <==> (Below(F.up, x, y) && Below(F.up, y, c)) || Below(F.up, q, y))
    ensures !Below(F.up, x, c) ==> (Below(G.up, x, y) <==> Below(F.up, x, y))
  {
    hide *;
    InnerParts(F, G, p, c, h, q);
    WatchedParts(F, p);
    UnrefWF(F, h);
    var up := F.up - {h};
    DropForested(F.up, h);
    BelowDrop(F.up, h, x, y);
    BelowDrop(F.up, h, x, c);
    ContextNotHandle(F, h, q, c);
    BelowDrop(F.up, h, q, c);
    BelowDrop(F.up, h, q, y);
    if Below(F.up, x, c) {
      var n := ClimbOf(up, x, c);
      MovedClimb(up, c, q, x, y, n);
      if y == h {
        NothingAboveHandle(F, x, h);
        NothingAboveHandle(F, q, h);
      } else {
        BelowDrop(F.up, h, y, c);
      }
    } else {
      BelowAside(up, c, At(q), x, y);
    }
  }

  lemma ContextNotHandle(F: Forest, h: Id, q: Id, c: Id)
    requires WF(F) && h in F.up && h in F.target && F.up[h] == At(q) && !Below(F.up, h, c) && h != c
    ensures q in F.up && q != h && q !in F.target && !Below(F.up, q, c)
  {
    WFParts(F);
    ParentLive(F, h);
    ParentNotHandle(F, h);
    BelowStep(F.up, h, c);
  }

  /** Only a reference itself is below it. */
  lemma NothingAboveHandle(F: Forest, x: Id, h: Id)
    requires WF(F) && h in F.target && x in F.up && x != h
    ensures !Below(F.up, x, h)
  {
    if Below(F.up, x, h) {
      var n := ClimbOf(F.up, x, h);
      HandleClimb(F, x, h, n);
    }
  }

  /** What is below `p` afterwards was below it. */
  lemma InnerBefore(F: Forest, G: Forest, p: Id, c: Id, h: Id, q: Id, x: Id)
    requires InnerTurn(F, G, p, c, h, q) && x in G.up && Below(G.up, x, p)
    ensures x in F.up && x != h && Below(F.up, x, p)
  {
    hide *;
    InnerParts(F, G, p, c, h, q);
    WatchedParts(F, p);
    InnerBelow(F, G, p, c, h, q, x, p);
    if Below(F.up, x, c) {
      BelowKid(F, p, c, x);
    }
  }

  lemma InnerSheltered(F: Forest, G: Forest, p: Id, c: Id, h: Id, q: Id)
    requires InnerTurn(F, G, p, c, h, q)
    ensures Sheltered(G, p)
  {
    InnerParts(F, G, p, c, h, q);
    WatchedParts(F, p);
    hide InnerTurn, Watched, WF, Below, Owns, NullHeld, Loosened, Tightens, KidsOk, RefsOk, Forested, Sole, LivePrev;
    forall x | x in G.up && x != p && Below(G.up, x, p)
      ensures !Owns(G, x, x) && (NullHeld(G, x) ==> G.up[x] == At(p))
    {
      InnerOwned(F, G, p, c, h, q, x);
    }
    forall x, k | x in G.up && Below(G.up, x, p) && x in G.refs && k in G.refs[x] && Below(G.up, k, p)
      ensures x != p && G.up[x] == At(p) && |G.refs[x]| == 1
    {
      InnerInner(F, G, p, c, h, q, x, k);
    }
  }

  lemma InnerOwned(F: Forest, G: Forest, p: Id, c: Id, h: Id, q: Id, x: Id)
    requires InnerTurn(F, G, p, c, h, q) && x in G.up && x != p && Below(G.up, x, p)
    ensures !Owns(G, x, x) && (NullHeld(G, x) ==> G.up[x] == At(p))
  {
    InnerParts(F, G, p, c, h, q);
    WatchedParts(F, p);
    TightensOwns(F, G);
    InnerBefore(F, G, p, c, h, q, x);
    hide InnerTurn, Watched, WF, Below, Owns, Tightens, KidsOk, RefsOk, Forested, Sole, LivePrev;
  }

  lemma InnerInner(F: Forest, G: Forest, p: Id, c: Id, h: Id, q: Id, x: Id, k: Id)
    requires InnerTurn(F, G, p, c, h, q) && x in G.up && Below(G.up, x, p) && x in G.refs && k in G.refs[x]
    requires Below(G.up, k, p)
    ensures x != p && G.up[x] == At(p) && |G.refs[x]| == 1
  {
    hide *;
    InnerParts(F, G, p, c, h, q);
    WatchedParts(F, p);
    WFParts(G);
    HandleUp(G, x, k);
    InnerBefore(F, G, p, c, h, q, x);
    InnerBefore(F, G, p, c, h, q, k);
    assert x != c && G.refs[x] == F.refs[x];
    InnerKid(F, p, x, k);
  }

  // ---------- the sibling ----------

  /** What the sibling refers to is not below the child of this turn. */
  lemma InnerAside(F: Forest, G: Forest, p: Id, c: Id, h: Id, q: Id)
    requires InnerTurn(F, G, p, c, h, q) && p in F.stale && F.stale[p] in F.target
    ensures var t := F.target[F.stale[p]];
      t in F.up && t in F.refs && !Below(F.up, t, c) && t != h && t != c && t !in F.target
    ensures F.stale[p] in F.up && F.stale[p] != h
  {
    hide *;
    InnerParts(F, G, p, c, h, q);
    WatchedParts(F, p);
    var s := F.stale[p];
    TargetLive(F, s);
    ReferredNotHandle(F, F.target[s], s);
    BelowSelf(F.up, c);
    if Below(F.up, F.target[s], c) {
      BelowKid(F, p, c, F.target[s]);
      SoleParts(F, p, s, c);
      OuterIs(F, p, c, h);
    }
  }

  lemma InnerWatched(F: Forest, G: Forest, p: Id, c: Id, h: Id, q: Id)
    requires InnerTurn(F, G, p, c, h, q)
    ensures Watched(G, p)
  {
    hide *;
    InnerParts(F, G, p, c, h, q);
    WatchedParts(F, p);
    FlightUnreferred(G, p);
    InnerSheltered(F, G, p, c, h, q);
    ParentNotBelow(F.up, c, p);
    BelowSelf(F.up, p);
    if p in G.stale {
      InnerSole(F, G, p, c, h, q);
      if F.stale[p] in G.up {
        InnerSibling(F, G, p, c, h, q);
      }
    }
    WatchedFrom(G, p);
  }

  lemma InnerSibling(F: Forest, G: Forest, p: Id, c: Id, h: Id, q: Id)
    requires InnerTurn(F, G, p, c, h, q) && p in F.stale && F.stale[p] in G.up
    ensures F.stale[p] in F.up && F.stale[p] != c && G.up[F.stale[p]] == F.up[F.stale[p]] && LivePrev(G, p)
  {
    InnerParts(F, G, p, c, h, q);
    WatchedParts(F, p);
    ParentNotBelow(F.up, p, F.up[p].a);
    ParentNotBelow(F.up, c, p);
    BelowSelf(F.up, p);
    hide InnerTurn, Watched, WF, Sheltered, Loosened, Tightens, KidsOk, RefsOk, Forested, Sole, Below;
  }

  lemma InnerSole(F: Forest, G: Forest, p: Id, c: Id, h: Id, q: Id)
    requires InnerTurn(F, G, p, c, h, q) && p in F.stale
    ensures Sole(G, p, F.stale[p])
  {
    hide *;
    InnerParts(F, G, p, c, h, q);
    WatchedParts(F, p);
    var s := F.stale[p];
    if s in G.target && G.target[s] in G.refs && Below(G.up, G.target[s], p) && G.target[s] != p {
      var t := G.target[s];
      InnerAside(F, G, p, c, h, q);
      InnerBefore(F, G, p, c, h, q, t);
      SoleParts(F, p, s, p);
      forall k | k in G.up && G.up[k] == At(p) && Below(G.up, t, k) ensures Outer(G, p, k) {
        InnerOuter(F, G, p, c, h, q, k);
      }
    }
    SoleFrom(G, p, s);
  }

  lemma InnerOuter(F: Forest, G: Forest, p: Id, c: Id, h: Id, q: Id, k: Id)
    requires InnerTurn(F, G, p, c, h, q) && p in F.stale && F.stale[p] in F.target
    requires F.target[F.stale[p]] in G.up && Below(F.up, F.target[F.stale[p]], p) && F.target[F.stale[p]] != p
    requires k in G.up && G.up[k] == At(p) && Below(G.up, F.target[F.stale[p]], k)
    ensures Outer(G, p, k)
  {
    hide *;
    InnerParts(F, G, p, c, h, q);
    WatchedParts(F, p);
    WFParts(G);
    var t := F.target[F.stale[p]];
    InnerAside(F, G, p, c, h, q);
    InnerBelow(F, G, p, c, h, q, t, k);
    SoleParts(F, p, F.stale[p], k);
    forall g | k in G.refs && g in G.refs[k] ensures !Below(G.up, g, p) {
      HandleUp(G, k, g);
      if Below(G.up, g, p) {
        InnerBefore(F, G, p, c, h, q, g);
        OuterIs(F, p, k, g);
      }
    }
    OuterFrom(G, p, k);
  }

  // ---------- the verdict ----------

  /** Chains get shorter by `c`, whose holder takes over what was below `c`. */
  ghost predicate JoinedPairs(F: Forest, G: Forest, ks: seq<Id>, c: Id) {
    forall k, m :: k in ks && m in ks && k != c && m != c ==>
      && (Holder(G, k, m) <==> Holder(F, k, m) || (Holder(F, k, c) && Passes(F, c, m)))
      && (Passes(G, k, m) <==> Passes(F, k, m) || (Passes(F, k, c) && Passes(F, c, m)))
      && (Holder(F, k, c) <==> Passes(F, k, c))
  }

  lemma {:induction false} LeadsJoined(F: Forest, G: Forest, ks: seq<Id>, c: Id, a: Id, b: Id, n: nat)
    requires Distinct(ks) && ks != [] && ks[0] == c && a in ks && b in ks && a != c && b != c
    requires JoinedPairs(F, G, ks, c)
    requires Leads(F, ks, a, b, n)
    ensures LeadsTo(G, Without(ks, c), a, b)
    decreases n
  {
    hide Holder, Passes, After;
    var w := Without(ks, c);
    WithoutMembers(ks, c);
    AfterWithout(ks, c, a, b);
    if After(ks, a, b) {
      LeadsHere(G, w, a, b);
    } else {
      var d :| d in ks && Passes(F, b, d) && Leads(F, ks, a, d, n - 1);
      if d != c {
        LeadsJoined(F, G, ks, c, a, d, n - 1);
        LeadsOn(G, w, a, b, d);
      } else {
        AfterFirst(ks, a);
        var e :| e in ks && Passes(F, c, e) && Leads(F, ks, a, e, n - 2);
        HolderIs(F, c, e);
        LeadsJoined(F, G, ks, c, a, e, n - 2);
        LeadsOn(G, w, a, b, e);
      }
    }
  }

  lemma {:induction false} LeadsParted(F: Forest, G: Forest, ks: seq<Id>, c: Id, a: Id, b: Id, n: nat)
    requires Distinct(ks) && c in ks && a in ks && b in ks && a != c && b != c && JoinedPairs(F, G, ks, c)
    requires Leads(G, Without(ks, c), a, b, n)
    ensures LeadsTo(F, ks, a, b)
    decreases n
  {
    hide Holder, Passes, After;
    var w := Without(ks, c);
    WithoutMembers(ks, c);
    AfterWithout(ks, c, a, b);
    if After(w, a, b) {
      LeadsHere(F, ks, a, b);
    } else {
      var d :| d in w && Passes(G, b, d) && Leads(G, w, a, d, n - 1);
      LeadsParted(F, G, ks, c, a, d, n - 1);
      if Passes(F, b, d) {
        LeadsOn(F, ks, a, b, d);
      } else {
        LeadsOn(F, ks, a, c, d);
        LeadsOn(F, ks, a, b, c);
      }
    }
  }

  lemma TripsJoined(F: Forest, G: Forest, ks: seq<Id>, c: Id, a: Id)
    requires Distinct(ks) && ks != [] && ks[0] == c && a in ks && a != c && JoinedPairs(F, G, ks, c)
    ensures Trips(F, ks, a) <==> Trips(G, Without(ks, c), a)
  {
    hide Holder, Passes, Leads, After;
    var w := Without(ks, c);
    WithoutMembers(ks, c);
    AfterFirst(ks, a);
    if Trips(F, ks, a) {
      var b :| b in ks && Holder(F, a, b) && LeadsTo(F, ks, a, b);
      var n: nat :| Leads(F, ks, a, b, n);
      if b != c {
        LeadsJoined(F, G, ks, c, a, b, n);
        TripsFrom(G, w, a, b);
      } else {
        var e := LeadsStep(F, ks, a, c, n);
        HolderIs(F, c, e);
        LeadsJoined(F, G, ks, c, a, e, n - 1);
        TripsFrom(G, w, a, e);
      }
    }
    if Trips(G, w, a) {
      var b :| b in w && Holder(G, a, b) && LeadsTo(G, w, a, b);
      var n: nat :| Leads(G, w, a, b, n);
      LeadsParted(F, G, ks, c, a, b, n);
      if Holder(F, a, b) {
        TripsFrom(F, ks, a, b);
      } else {
        LeadsOn(F, ks, a, c, b);
        TripsFrom(F, ks, a, c);
      }
    }
  }

  lemma LeadsStep(F: Forest, ks: seq<Id>, a: Id, b: Id, n: nat) returns (d: Id)
    requires Leads(F, ks, a, b, n) && !After(ks, a, b)
    ensures n > 0 && d in ks && Passes(F, b, d) && Leads(F, ks, a, d, n - 1)
  {
    hide Passes, After;
    d :| d in ks && Passes(F, b, d) && Leads(F, ks, a, d, n - 1);
  }

  lemma TripsFrom(F: Forest, ks: seq<Id>, a: Id, b: Id)
    requires b in ks && Holder(F, a, b) && LeadsTo(F, ks, a, b)
    ensures Trips(F, ks, a)
  {}

  /** Who holds whom, afterwards. */
  lemma InnerPair(F: Forest, G: Forest, p: Id, c: Id, h: Id, q: Id, k: Id, m: Id)
    requires InnerTurn(F, G, p, c, h, q) && k in F.up && F.up[k] == At(p) && k != c && k != h
    requires m in F.up && F.up[m] == At(p) && m != h
    ensures Holder(G, k, m) <==> Holder(F, k, m) || (m != c && Holder(F, k, c) && Passes(F, c, m) && m != k)
    ensures Passes(G, k, m) <==> Passes(F, k, m) || (m != c && Passes(F, k, c) && Passes(F, c, m) && m != k)
    ensures Holder(F, k, c) <==> Passes(F, k, c)
  {
    hide *;
    InnerParts(F, G, p, c, h, q);
    WatchedParts(F, p);
    RefsKeyed(F);
    HolderIs(F, k, m);
    HolderIs(G, k, m);
    HolderIs(F, k, c);
    HolderIs(F, c, m);
    assert k in G.refs && G.refs[k] == F.refs[k];
    if F.refs[k] != [] {
      var g := F.refs[k][0];
      HandleOf(F, k);
      ReferredNotHandle(F, c, h) by { assert F.refs[c][0] == h; }
      InnerBelow(F, G, p, c, h, q, g, m);
      BelowStep(F.up, h, m);
      BelowSelf(F.up, c);
      if Below(F.up, g, c) {
        if m != c {
          SiblingsApart(F, p, c, m, g);
          SiblingsApart(F, p, m, c, m) by { BelowSelf(F.up, m); }
          BelowSelf(F.up, m);
        }
      }
    }
  }

  lemma InnerLate(F: Forest, G: Forest, p: Id, c: Id, h: Id, q: Id, a: Id)
    requires InnerTurn(F, G, p, c, h, q) && a in F.up && a != c && a != h
    ensures Late(F, a) <==> Late(G, a)
  {
    hide *;
    InnerParts(F, G, p, c, h, q);
    WatchedParts(F, p);
    RefsKeyed(F);
    LateIs(F, a);
    LateIs(G, a);
    if F.refs[a] != [] {
      HandleOf(F, a);
      assert F.refs[c][0] == h;
      ReferredNotHandle(F, c, h);
    }
  }

  /** Where the context is not the chunk itself, `c` leaves the list. */
  lemma InnerBackJoined(F: Forest, G: Forest, p: Id, c: Id, h: Id, q: Id, a: Id)
    requires InnerTurn(F, G, p, c, h, q) && q != p && p in F.kids && a in F.kids[p] && a != c && p in G.kids
    ensures GoesBack(F, F.kids[p], a) <==> GoesBack(G, G.kids[p], a)
  {
    hide *;
    InnerParts(F, G, p, c, h, q);
    LaterKids(F, p, c);
    GoneIs(p, c, h, q);
    InnerLate(F, G, p, c, h, q, a);
    InnerJoins(F, G, p, c, h, q);
    TripsJoined(F, G, F.kids[p], c, a);
    GoesBackIs(F, F.kids[p], a);
    GoesBackIs(G, G.kids[p], a);
  }

  lemma GoneIs(p: Id, c: Id, h: Id, q: Id)
    ensures Gone(p, c, h, q) == if q == p then h else c
  {}

  lemma InnerJoins(F: Forest, G: Forest, p: Id, c: Id, h: Id, q: Id)
    requires InnerTurn(F, G, p, c, h, q) && q != p && p in F.kids
    ensures JoinedPairs(F, G, F.kids[p], c)
  {
    hide InnerTurn, Holder, Passes, Watched, WF, Loosened, Tightens, Below, Without, Distinct;
    InnerParts(F, G, p, c, h, q);
    LaterKids(F, p, c);
    forall k, m | k in F.kids[p] && m in F.kids[p] && k != c && m != c
      ensures (Holder(G, k, m) <==> Holder(F, k, m) || (Holder(F, k, c) && Passes(F, c, m)))
      ensures (Passes(G, k, m) <==> Passes(F, k, m) || (Passes(F, k, c) && Passes(F, c, m)))
      ensures (Holder(F, k, c) <==> Passes(F, k, c))
    {
      InnerPair(F, G, p, c, h, q, k, m);
      NoHolderCircle(F, p, c, h, k);
      HolderIs(F, c, k);
    }
  }

  /** No two children are held from below each other. */
  lemma NoHolderCircle(F: Forest, p: Id, c: Id, h: Id, k: Id)
    requires Watched(F, p) && c in F.up && F.up[c] == At(p) && k in F.up && F.up[k] == At(p) && k != c
    requires c in F.refs && F.refs[c] == [h]
    ensures !(Holder(F, k, c) && Passes(F, c, k))
  {
    if Holder(F, k, c) && Passes(F, c, k) {
      hide *;
      WatchedParts(F, p);
      HolderIs(F, k, c);
      HolderIs(F, c, k);
      HandleOf(F, k);
      HandleOf(F, c);
      ReferredNotHandle(F, c, h);
      OwnsThrough(F, c, k, F.refs[k][0]);
      OwnsThrough(F, k, c, F.refs[c][0]);
      OwnsTrans(F, c, k, c);
      BelowKidSelf(F, p, c);
      ParentNotBelow(F.up, c, p);
      NoCycle(F, p, c);
    }
  }

  lemma NoCycle(F: Forest, p: Id, c: Id)
    requires Sheltered(F, p) && c in F.up && Below(F.up, c, p) && F.up[c] == At(p) && Forested(F.up)
    ensures !Owns(F, c, c)
  {
    ParentNotBelow(F.up, c, p);
    BelowSelf(F.up, p);
    hide Owns, Below;
  }

  /** A chunk owns what is referenced from below it. */
  lemma OwnsThrough(F: Forest, a: Id, x: Id, g: Id)
    requires Shape(F) && Forested(F.up) && RefsOk(F.refs, F.target) && x in F.up && x in F.refs && g in F.refs[x]
    requires g in F.up && g != a && Below(F.up, g, a)
    ensures Owns(F, a, x)
  {
    BelowStep(F.up, g, a);
    var b := F.up[g].a;
    OwnerByHandle(F, x, g);
    OwnerOwns(F, b, x);
    ParentLive(F, g);
    if b != a {
      AncestorOwns(F, b, a);
      OwnsTrans(F, a, b, x);
    }
  }

  /** Where the context is the chunk itself, the reference leaves the list. */
  lemma HandleKid(F: Forest, G: Forest, p: Id, c: Id, h: Id, m: Id)
    requires InnerTurn(F, G, p, c, h, p) && m in F.up && F.up[m] == At(p) && m != h
    ensures !Below(F.up, h, m) && !Holder(F, c, m) && !Passes(F, c, m) && !Holder(G, c, m)
  {
    hide *;
    InnerParts(F, G, p, c, h, p);
    WatchedParts(F, p);
    BelowStep(F.up, h, m);
    ParentNotBelow(F.up, m, p);
    HolderIs(F, c, m);
    HolderIs(G, c, m);
    assert F.refs[c][0] == h;
  }

  lemma InnerSamePairs(F: Forest, G: Forest, p: Id, c: Id, h: Id)
    requires InnerTurn(F, G, p, c, h, p) && p in F.kids
    ensures SamePairs(F, G, F.kids[p], h)
  {
    hide InnerTurn, Holder, Passes, Watched, WF, Loosened, Tightens, Below, Without, Distinct;
    InnerParts(F, G, p, c, h, p);
    LaterKids(F, p, c);
    forall k, m | k in F.kids[p] && m in F.kids[p] && k != h && m != h
      ensures (Holder(F, k, m) <==> Holder(G, k, m)) && (Passes(F, k, m) <==> Passes(G, k, m))
    {
      HandleKid(F, G, p, c, h, m);
      if k != c {
        InnerPair(F, G, p, c, h, p, k, m);
      } else {
        HolderIs(F, c, m);
        HolderIs(G, c, m);
      }
    }
  }

  lemma HandleNoWay(F: Forest, G: Forest, p: Id, c: Id, h: Id, a: Id)
    requires InnerTurn(F, G, p, c, h, p) && p in F.kids && a in F.kids[p] && a != c && a != h
    ensures NoWay(F, F.kids[p], a, h) && !GoesBack(F, F.kids[p], h)
  {
    hide *;
    InnerParts(F, G, p, c, h, p);
    WatchedParts(F, p);
    LaterKids(F, p, c);
    LeafHandle(F, h);
    forall k | k in F.kids[p] && k != h ensures !Passes(F, k, h) && (k != c ==> !Holder(F, k, h)) {
      HolderIs(F, k, h);
      if Holder(F, k, h) {
        HandleOf(F, k);
        if F.refs[k][0] != h {
          NothingAboveHandle(F, F.refs[k][0], h);
        }
      }
    }
    NoWayFrom(F, F.kids[p], a, h);
    LateIs(F, h);
    TripsNeeds(F, F.kids[p], h);
    GoesBackIs(F, F.kids[p], h);
  }

  lemma NoWayFrom(F: Forest, ks: seq<Id>, a: Id, x: Id)
    requires !Holder(F, a, x) && forall k :: k in ks && k != x ==> !Passes(F, k, x)
    ensures NoWay(F, ks, a, x)
  {
    hide Holder, Passes, LeadsTo;
  }

  lemma TripsNeeds(F: Forest, ks: seq<Id>, a: Id)
    requires a in F.refs && F.refs[a] == []
    ensures !Trips(F, ks, a)
  {
    hide LeadsTo, Below;
  }

  lemma InnerBackStays(F: Forest, G: Forest, p: Id, c: Id, h: Id, a: Id)
    requires InnerTurn(F, G, p, c, h, p) && p in F.kids && a in F.kids[p] && a != c && a != h && p in G.kids
    requires h in F.kids[p]
    ensures GoesBack(F, F.kids[p], a) <==> GoesBack(G, G.kids[p], a)
  {
    hide *;
    InnerParts(F, G, p, c, h, p);
    LaterKids(F, p, c);
    GoneIs(p, c, h, p);
    InnerLate(F, G, p, c, h, p, a);
    InnerSamePairs(F, G, p, c, h);
    HandleNoWay(F, G, p, c, h, a);
    TripsSame(F, G, F.kids[p], h, a);
    GoesBackIs(F, F.kids[p], a);
    GoesBackIs(G, G.kids[p], a);
  }

  // ---------- what the sibling refers to ----------

  lemma InnerReached(F: Forest, G: Forest, p: Id, c: Id, h: Id, q: Id, k: Id)
    requires InnerTurn(F, G, p, c, h, q) && p in F.stale && F.stale[p] in F.target && k in F.up
    ensures Reached(F, F.target[F.stale[p]], k) <==> Reached(G, F.target[F.stale[p]], k)
    ensures !Reached(F, F.target[F.stale[p]], c) && !Reached(F, F.target[F.stale[p]], h)
  {
    hide InnerTurn, Below, Watched, WF, Sheltered, Sole, LivePrev, KidsOk, RefsOk;
    InnerParts(F, G, p, c, h, q);
    WatchedParts(F, p);
    InnerAside(F, G, p, c, h, q);
    var t := F.target[F.stale[p]];
    NothingAboveHandle(F, t, h);
    forall x
      ensures Below(F.up, t, x) && Below(F.up, x, k) <==> Below(G.up, t, x) && Below(G.up, x, k)
      ensures Below(F.up, t, x) ==> x != c && x != h && x in F.refs && x in G.refs && G.refs[x] == F.refs[x]
    {
      InnerOnPath(F, G, p, c, h, q, k, x);
    }
    InnerBelow(F, G, p, c, h, q, t, k);
    BelowSelf(F.up, t);
    BelowSelf(G.up, t);
  }

  lemma InnerOnPath(F: Forest, G: Forest, p: Id, c: Id, h: Id, q: Id, k: Id, x: Id)
    requires InnerTurn(F, G, p, c, h, q) && p in F.stale && F.stale[p] in F.target
    ensures var t := F.target[F.stale[p]];
      Below(F.up, t, x) && Below(F.up, x, k) <==> Below(G.up, t, x) && Below(G.up, x, k)
    ensures var t := F.target[F.stale[p]];
      Below(F.up, t, x) ==> x != c && x != h && x in F.refs && x in G.refs && G.refs[x] == F.refs[x]
  {
    hide *;
    InnerParts(F, G, p, c, h, q);
    WatchedParts(F, p);
    InnerAside(F, G, p, c, h, q);
    var t := F.target[F.stale[p]];
    InnerBelow(F, G, p, c, h, q, t, x);
    if Below(F.up, t, x) {
      var n := ClimbOf(F.up, t, x);
      ClimbLands(F, t, x, n);
      RefsKeyed(F);
      NothingAboveHandle(F, t, h);
      if Below(F.up, x, c) {
        BelowTrans(F.up, t, x, c);
      }
      BelowSelf(F.up, c);
      InnerBelow(F, G, p, c, h, q, x, k);
    }
  }

  /** No such turn changes what is going to happen, while the sibling is there. */
  lemma InnerSame(F: Forest, G: Forest, p: Id, c: Id, h: Id, q: Id)
    requires InnerTurn(F, G, p, c, h, q) && (p in F.stale ==> F.stale[p] in F.up)
    ensures Watch(F, p) <==> Watch(G, p)
  {
    hide *;
    InnerParts(F, G, p, c, h, q);
    WatchedParts(F, p);
    WatchIs(F, p);
    WatchIs(G, p);
    if p in F.stale {
      var s := F.stale[p];
      FollowsLive(F, p, s);
      if s in F.target {
        InnerAside(F, G, p, c, h, q);
        FollowsLive(G, p, s);
        InnerBackAfter(F, G, p, c, h, q);
      } else {
        FollowsLive(G, p, s);
      }
    }
  }

  lemma WatchIs(F: Forest, p: Id)
    ensures Watch(F, p) <==> p in F.stale && Follows(F, p, F.stale[p])
  {}

  lemma InnerBackAfter(F: Forest, G: Forest, p: Id, c: Id, h: Id, q: Id)
    requires InnerTurn(F, G, p, c, h, q) && p in F.stale && F.stale[p] in F.target && p in F.kids && p in G.kids
    ensures BackAfter(F, F.kids[p], F.target[F.stale[p]]) <==> BackAfter(G, G.kids[p], F.target[F.stale[p]])
  {
    hide *;
    InnerParts(F, G, p, c, h, q);
    WatchedParts(F, p);
    LaterKids(F, p, c);
    GoneIs(p, c, h, q);
    var ks, x, t := F.kids[p], Gone(p, c, h, q), F.target[F.stale[p]];
    HandleIn(F, p, h);
    assert x in ks;
    InnerReached(F, G, p, c, h, q, c);
    forall k | k in ks ensures Reached(F, t, k) <==> Reached(G, t, k) {
      InnerReached(F, G, p, c, h, q, k);
    }
    forall k, a | After(ks, k, a)
      ensures if a == x then !GoesBack(F, ks, a) else GoesBack(F, ks, a) <==> GoesBack(G, Without(ks, x), a)
    {
      AfterMembers(ks, k, a);
      AfterFirst(ks, k);
      if q != p {
        InnerBackJoined(F, G, p, c, h, q, a);
      } else if a == h {
        HandleNever(F, ks, h);
      } else {
        InnerBackStays(F, G, p, c, h, a);
      }
    }
    BackAfterSame(F, G, ks, x, t);
  }

  lemma HandleIn(F: Forest, p: Id, h: Id)
    requires Watched(F, p) && h in F.up && h in F.target
    ensures F.up[h] == At(p) ==> h in F.kids[p]
    ensures p in F.kids && h in F.refs && F.refs[h] == []
  {
    WatchedParts(F, p);
    LeafHandle(F, h);
    hide Watched, WF, Sheltered, RefsOk, Forested;
  }

  lemma HandleNever(F: Forest, ks: seq<Id>, h: Id)
    requires h in F.refs && F.refs[h] == []
    ensures !GoesBack(F, ks, h)
  {
    hide *;
    LateIs(F, h);
    TripsNeeds(F, ks, h);
    GoesBackIs(F, ks, h);
  }

  // ---------- the hand-over ----------

  /** The steal after a free that failed because of such a reference makes that turn. */
  lemma InnerHanded(F: Forest, R: Forest, G: Forest, p: Id, c: Id, h: Id)
    requires Watched(F, p) && F.kids[p] != [] && F.kids[p][0] == c && c in F.up && c in F.refs && F.refs[c] == [h]
    requires c !in F.flight && F.up[c] == At(p) && h in F.target && h in F.up && F.target[h] == c && h != c
    requires Below(F.up, h, p) && !Below(F.up, h, c)
    requires R == RemoveHandle(F, h) && WF(R) && c in R.up && WF(G)
    requires Receiver(F, p, c).At? ==> Receiver(F, p, c).a in R.up && Receiver(F, p, c).a != c
    requires G == Stolen(R, c, Receiver(F, p, c))
    ensures exists q :: InnerTurn(F, G, p, c, h, q)
  {
    StolenIsMove(R, c, Receiver(F, p, c));
    hide *;
    WatchedParts(F, p);
    ReceiverIs(F, p, c);
    assert F.refs[c][0] == h;
    BelowStep(F.up, h, p);
    var q := F.up[h].a;
    HandOverCascade(F, p, c, {c}, {p});
    CascadeLoosened(F, G, {c});
    CascadeTightens(F, G, {c});
    InnerFields(F, R, G, p, c, h, q);
    WFParts(R);
    if q == p {
      StaysInList(F, R, p, c, h);
    } else {
      SameSiblingList(F, h, p);
      MovedTail(R, p, c, At(q));
      WithoutFirst(F.kids[p]);
    }
    GoneIs(p, c, h, q);
    InnerFrom(F, G, p, c, h, q);
  }

  lemma CascadeTightens(F: Forest, G: Forest, D: set<Id>)
    requires Cascade(F, G, D)
    ensures Tightens(F, G)
  {}

  lemma InnerFields(F: Forest, R: Forest, G: Forest, p: Id, c: Id, h: Id, q: Id)
    requires WF(F) && h in F.target && h in F.up && F.target[h] == c && h != c && c in F.up
    requires c in F.refs && F.refs[c] == [h]
    requires R == RemoveHandle(F, h) && Shape(R) && c in R.up && (R.up[c].At? ==> R.up[c].a in R.kids) && q in R.kids
    requires G == Move(R, c, At(q))
    ensures G.up == (F.up - {h})[c := At(q)] && G.refs == (F.refs - {h})[c := []] && G.target == F.target - {h}
    ensures G.flight == F.flight && G.stale == F.stale
  {
    RemoveHandleWF(F, h);
    MoveFields(R, c, At(q));
    WithoutFirst([h]);
    hide WF, RemoveHandle, Move, Shape;
  }

  lemma InnerFrom(F: Forest, G: Forest, p: Id, c: Id, h: Id, q: Id)
    requires Watched(F, p) && WF(G) && Tightens(F, G) && Loosened(F, G, {c}) && p in G.kids
    requires F.kids[p] != [] && F.kids[p][0] == c && c in F.up && F.up[c] == At(p) && c in F.refs && F.refs[c] == [h]
    requires h in F.target && h in F.up && F.target[h] == c && h != c && Below(F.up, h, p) && !Below(F.up, h, c)
    requires F.up[h] == At(q)
    requires G.up == (F.up - {h})[c := At(q)] && G.refs == (F.refs - {h})[c := []] && G.target == F.target - {h}
    requires G.flight == F.flight && G.stale == F.stale && G.kids[p] == Without(F.kids[p], Gone(p, c, h, q))
    ensures InnerTurn(F, G, p, c, h, q)
  {
    hide Watched, WF, Tightens, Loosened, Below, Without, Gone;
  }

  /** A chunk stolen by the context it has stays first in its list. */
  lemma StaysInList(F: Forest, R: Forest, p: Id, c: Id, h: Id)
    requires WF(F) && h in F.target && h in F.up && F.up[h] == At(p) && p in F.kids && F.kids[p] != []
    requires F.kids[p][0] == c && c != h && R == RemoveHandle(F, h) && WF(R) && p in R.kids && Shape(R)
    requires c in R.up && R.up[c] == At(p)
    ensures p in Move(R, c, At(p)).kids && Move(R, c, At(p)).kids[p] == Without(F.kids[p], h)
  {
    ListWithout(F, h, p);
    HeadStays(F.kids[p], h);
    MoveHeadIsNoop(R, c, p);
  }

  lemma ListWithout(F: Forest, h: Id, p: Id)
    requires WF(F) && h in F.target && h in F.up && F.up[h] == At(p) && p in F.kids
    requires p in RemoveHandle(F, h).kids
    ensures RemoveHandle(F, h).kids[p] == Without(F.kids[p], h)
  {
    ParentListed(F, h);
    hide WF;
  }

  lemma HeadStays(s: seq<Id>, h: Id)
    requires s != [] && s[0] != h
    ensures Without(s, h) != [] && Without(s, h)[0] == s[0]
  {}
}
