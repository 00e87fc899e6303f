/** `talloc_free`, watched where it may go back through a sibling that it has released. */
module TallocWatched {
  import opened TallocForest
  import opened TallocOwnership
  import opened TallocPaths
  import opened TallocCells
  import opened TallocCascade
  import opened TallocStale
  import opened TallocInner
  import opened TallocLoop
  import opened TallocHeap
  import opened TallocApi

  // ---------- the links that the watch looks at ----------

  lemma LiveKeys(next: Links, prev: Links, parent: Links, child: Links, F: Forest)
    requires TreeRep(next, prev, parent, child, F)
    ensures next.Keys == F.up.Keys
  {
    TreeRepParts(next, prev, parent, child, F);
    hide WF, ListsRep, RootsRep, FlightRep;
  }

  lemma LinkLeft(next: Links, prev: Links, parent: Links, child: Links, F: Forest, p: Id)
    requires TreeRep(next, prev, parent, child, F) && p in F.flight
    ensures p in prev && prev[p] == if p in F.stale then At(F.stale[p]) else Null
  {
    TreeRepParts(next, prev, parent, child, F);
    hide WF, ListsRep, RootsRep;
  }

  /** A link to a released chunk is only ever left in a chunk that is being freed. */
  lemma LinkMeets(next: Links, prev: Links, parent: Links, child: Links, F: Forest, x: Id)
    requires TreeRep(next, prev, parent, child, F) && x in F.up && (x in F.flight ==> LivePrevIf(F, x))
    ensures x in prev && (prev[x].At? && prev[x].a !in next <==> x in F.flight && !LivePrev(F, x))
  {
    hide *;
    LiveKeys(next, prev, parent, child, F);
    if x in F.flight {
      LinkLeft(next, prev, parent, child, F, x);
    }
    if x !in F.flight || LivePrev(F, x) {
      WalkBack(next, prev, parent, child, F, x);
    } else {
      DeadPrev(F, x);
    }
  }

  lemma DeadPrev(F: Forest, x: Id)
    requires !LivePrev(F, x) && LivePrevIf(F, x)
    ensures x in F.stale && F.stale[x] !in F.up
  {}

  /** The search of `talloc_is_parent` for `a` above `x`, stopped where a link names a released chunk. */
  method SearchMeets(t: Talloc, x: Id, a: Id) returns (followed: bool)
    requires t.Valid() && x in t.F.up && forall f :: f in t.F.flight ==> LivePrevIf(t.F, f)
    ensures followed <==> !ClearTo(t.F, x, a)
  {
    ValidWF(t.next, t.prev, t.parent, t.child, t.F);
    WFParts(t.F);
    ghost var rank: map<Id, nat> :| Ranked(t.F.up, rank);
    hide WF, Below, TreeRep, HandleRep, LivePrev, LivePrevIf, ClearTo, KidsOk, RefsOk;
    var tc := At(x);
    while tc.At?
      invariant tc.At? ==> tc.a in t.F.up
      invariant ClearTo(t.F, x, a) <==> (tc.At? ==> ClearTo(t.F, tc.a, a))
      decreases if tc.At? then rank[tc.a] + 1 else 0
    {
      if tc.a == a {
        ClearSelf(t.F, a);
        return false;
      }
      LinkMeets(t.next, t.prev, t.parent, t.child, t.F, tc.a);
      if t.prev[tc.a].At? && t.prev[tc.a].a !in t.next {
        if ClearTo(t.F, tc.a, a) {
          ClearHere(t.F, tc.a, a);
        }
        return true;
      }
      ClearStep(t.F, tc.a, a);
      tc := t.ParentChunk(tc.a);
    }
    followed := false;
  }

  lemma ClearStep(F: Forest, x: Id, a: Id)
    requires Forested(F.up) && x in F.up && x != a && (x in F.flight ==> LivePrev(F, x))
    ensures ClearTo(F, x, a) <==> (F.up[x].At? ==> ClearTo(F, F.up[x].a, a))
  {
    hide *;
    if ClearTo(F, x, a) {
      ClearHere(F, x, a);
    }
    if F.up[x].At? ==> ClearTo(F, F.up[x].a, a) {
      ClearUp(F, x, a);
    }
  }

  // ---------- one turn ----------

  /** Before the first child is freed: the search for the owner of its newest reference meets the released sibling
      exactly when that reference is from below `p`. */
  lemma SearchVerdict(F: Forest, p: Id, c: Id)
    requires Watched(F, p) && F.kids[p] != [] && F.kids[p][0] == c && c in F.refs && F.refs[c] != []
    ensures !ClearTo(F, F.refs[c][0], c) ==> Watch(F, p)
    ensures ClearTo(F, F.refs[c][0], c) ==> Outer(F, p, c) || p !in F.stale || F.stale[p] in F.up
  {
    hide *;
    FirstKid(F, p);
    WatchedParts(F, p);
    if Outer(F, p, c) {
      SearchOutside(F, p, c, F.refs[c][0]);
    } else {
      var h, d := InnerHolder(F, p, c);
      SearchInside(F, p, c, h);
      if !ClearTo(F, h, c) {
        WatchNow(F, p, c);
      }
    }
  }

  lemma SearchOutside(F: Forest, p: Id, c: Id, h: Id)
    requires F.flight == {p} && Outer(F, p, c) && c in F.refs && h in F.refs[c]
    ensures ClearTo(F, h, c)
  {
    hide Below, LivePrev;
  }

  lemma SearchInside(F: Forest, p: Id, c: Id, h: Id)
    requires F.flight == {p} && Below(F.up, h, p) && !Below(F.up, h, c)
    requires p in F.stale && F.stale[p] in F.up ==> LivePrev(F, p)
    ensures ClearTo(F, h, c) <==> p !in F.stale || F.stale[p] in F.up
  {
    hide Below;
  }

  /** One turn of the loop over the children of `p`. The watch stops the run where line 523 of talloc.c, by way of
      the search for the owner of the newest reference, or line 576 would walk back through the released sibling. */
  method WatchedTurn(t: Talloc, p: Id, ghost D: set<Id>, ghost F0: Forest) returns (followed: bool)
    requires t.Valid() && Watched(t.F, p) && Drainable(t.F, D, p) && DrainEffect(F0, t.F, p, D)
    requires p in t.F.kids && p in F0.kids && F0.kids[p] != [] && t.F.kids[p] != []
    requires p in t.child && t.child[p] == At(t.F.kids[p][0])
    modifies t
    ensures followed ==> Watch(old(t.F), p)
    ensures !followed ==> t.Valid() && Watched(t.F, p) && Drainable(t.F, D, p) && DrainEffect(F0, t.F, p, D)
    ensures !followed ==> (Watch(old(t.F), p) <==> Watch(t.F, p)) && t.F.up.Keys < old(t.F).up.Keys
  {
    ghost var F1 := t.F;
    hide Watched, WF, TreeRep, HandleRep, RefsRep, Drainable, DrainEffect, Watch, Ready, FreeEffect, Subtree;
    hide Unfollowed, Outer, LivePrev, LivePrevIf, ClearTo;
    var c := t.child[p].a;
    KidInside(F1, D, p, c) by { assert c in F1.kids[p]; }
    WatchedHandle(F1, p, c);
    HandleRepParts(t.refs, t.size, t.looping, t.refDestructor, t.hnext, t.hprev, t.ptr, t.F);
    RefsHead(t.refs, t.hnext, t.hprev, t.ptr, t.F.refs, c);
    var newParent := Null;
    if t.refs[c].At? {
      newParent := t.ParentChunk(t.refs[c].a);
      followed := SearchMeets(t, t.refs[c].a, c);
      SearchVerdict(F1, p, c);
      if followed {
        return;
      }
    } else {
      NoRefsOuter(F1, p, c);
    }
    TurnReady(F1, p, c);
    followed := WatchedFree(t, p, c, newParent, D, F0, F1);
  }

  lemma WatchedHandle(F: Forest, p: Id, c: Id)
    requires Watched(F, p) && F.kids[p] != [] && F.kids[p][0] == c
    ensures c in F.up && c in F.refs && forall f :: f in F.flight ==> LivePrevIf(F, f)
    ensures F.refs[c] != [] ==> F.refs[c][0] in F.up && F.refs[c][0] !in F.flight
  {
    FirstKid(F, p);
    WatchedParts(F, p);
    hide WF, Sheltered, Sole, LivePrev, KidsOk, Below, Forested;
    if F.refs[c] != [] {
      NewestHandle(F, c);
    }
  }

  lemma NoRefsOuter(F: Forest, p: Id, c: Id)
    requires c in F.refs && F.refs[c] == []
    ensures Outer(F, p, c)
  {}

  /** Free the child, and hand it over if it stays. */
  method WatchedFree(t: Talloc, p: Id, c: Id, newParent: Ptr, ghost D: set<Id>, ghost F0: Forest, ghost F1: Forest)
      returns (followed: bool)
    requires t.Valid() && t.F == F1 && Watched(F1, p) && Drainable(F1, D, p) && DrainEffect(F0, F1, p, D)
    requires p in F1.kids && p in F0.kids && F0.kids[p] != [] && F1.kids[p] != [] && F1.kids[p][0] == c
    requires c in F1.up && c in F1.refs && Ready(F1, Subtree(F1, c), c) && Subtree(F1, c) <= D && c !in F1.flight
    requires F1.refs[c] != [] ==> F1.refs[c][0] in F1.up && newParent == F1.up[F1.refs[c][0]]
    requires Outer(F1, p, c) || p !in F1.stale || F1.stale[p] in F1.up
    modifies t
    ensures followed ==> Watch(F1, p)
    ensures !followed ==> t.Valid() && Watched(t.F, p) && Drainable(t.F, D, p) && DrainEffect(F0, t.F, p, D)
    ensures !followed ==> (Watch(F1, p) <==> Watch(t.F, p)) && t.F.up.Keys < F1.up.Keys
  {
    hide *;
    ghost var E := Subtree(F1, c);
    var r := t.Free(c, E);
    if r == -1 {
      FreeEffectWiden(F1, t.F, c, E, D, r);
      followed := WatchedHandOver(t, p, c, newParent, D, F0, F1);
    } else {
      FreedTurnDone(F0, F1, t.F, p, D, c, r);
      followed := false;
    }
  }

  lemma FreedTurnDone(F0: Forest, F1: Forest, F: Forest, p: Id, D: set<Id>, c: Id, r: int)
    requires Watched(F1, p) && Drainable(F1, D, p) && DrainEffect(F0, F1, p, D) && p in F1.kids && F1.kids[p] != []
    requires F1.kids[p][0] == c && p in F0.kids && F0.kids[p] != [] && Subtree(F1, c) <= D
    requires FreeEffect(F1, F, c, Subtree(F1, c), r) && r != -1
    ensures Watched(F, p) && Drainable(F, D, p) && DrainEffect(F0, F, p, D)
    ensures (Watch(F1, p) <==> Watch(F, p)) && F.up.Keys < F1.up.Keys
  {
    hide *;
    FreeEffectParts(F1, F, c, Subtree(F1, c), r);
    WatchedFreed(F1, F, p, c);
    FreeEffectWiden(F1, F, c, Subtree(F1, c), D, r);
    FreedChild(F0, F1, F, p, D, c, r);
  }

  /** The child stays referenced: steal it, unless finding its new parent would go through the released sibling. */
  method WatchedHandOver(t: Talloc, p: Id, c: Id, newParent: Ptr, ghost D: set<Id>, ghost F0: Forest, ghost F1: Forest)
      returns (followed: bool)
    requires t.Valid() && Watched(F1, p) && Drainable(F1, D, p) && DrainEffect(F0, F1, p, D)
    requires p in F1.kids && p in F0.kids && F0.kids[p] != [] && F1.kids[p] != [] && F1.kids[p][0] == c
    requires FreeEffect(F1, t.F, c, D, -1) && c in F1.refs
    requires F1.refs[c] != [] ==> F1.refs[c][0] in F1.up && newParent == F1.up[F1.refs[c][0]]
    requires Outer(F1, p, c) || p !in F1.stale || F1.stale[p] in F1.up
    modifies t
    ensures followed ==> Watch(F1, p)
    ensures !followed ==> t.Valid() && Watched(t.F, p) && Drainable(t.F, D, p) && DrainEffect(F0, t.F, p, D)
    ensures !followed ==> (Watch(F1, p) <==> Watch(t.F, p)) && t.F.up.Keys < F1.up.Keys
  {
    ghost var R := t.F;
    hide Watched, WF, TreeRep, HandleRep, Drainable, DrainEffect, Watch, FreeEffect, Late, Below, LivePrev, Stolen;
    hide Receiver, OwnPrev, Outer;
    WatchedHeld(F1, R, p, D, c);
    LiveKeys(t.next, t.prev, t.parent, t.child, R);
    LinkLeft(t.next, t.prev, t.parent, t.child, R, p);
    NotStaleLive(R, p);
    if newParent == Null && t.prev[p].At? && t.prev[p].a !in t.next {
      return true;
    }
    t.HandOverTo(p, c, newParent, D, F0, F1);
    ValidWF(t.next, t.prev, t.parent, t.child, t.F);
    WatchedHanded(F1, R, t.F, p, D, c);
    followed := false;
  }

  // ---------- the whole free ----------

  /** The loop over the children of `p`. */
  method WatchedDrain(t: Talloc, p: Id, ghost D: set<Id>) returns (followed: bool)
    requires t.Valid() && Watched(t.F, p) && Drainable(t.F, D, p)
    modifies t
    ensures followed <==> Watch(old(t.F), p)
    ensures !followed ==> t.Valid() && DrainEffect(old(t.F), t.F, p, D) && p in t.F.kids && t.F.kids[p] == []
  {
    ghost var F0 := t.F;
    hide Watched, WF, TreeRep, HandleRep, ListsRep, RefsRep, Drainable, DrainEffect, Watch;
    DrainStart(t.F, D, p);
    WatchedLoop(t.next, t.prev, t.parent, t.child, t.F, p);
    while t.child[p].At?
      invariant t.Valid() && Watched(t.F, p) && Drainable(t.F, D, p) && DrainEffect(F0, t.F, p, D)
      invariant Watch(F0, p) <==> Watch(t.F, p)
      invariant p in t.F.kids && p in t.child && (t.child[p].At? <==> t.F.kids[p] != [])
      invariant t.child[p].At? ==> t.child[p].a == t.F.kids[p][0]
      decreases t.F.up.Keys
    {
      DrainEffectParts(F0, t.F, p, D);
      followed := WatchedTurn(t, p, D, F0);
      if followed {
        return;
      }
      WatchedLoop(t.next, t.prev, t.parent, t.child, t.F, p);
    }
    WatchEnds(t.F, p);
    followed := false;
  }

  lemma WatchedLoop(next: Links, prev: Links, parent: Links, child: Links, F: Forest, p: Id)
    requires TreeRep(next, prev, parent, child, F) && Watched(F, p)
    ensures p in F.kids && p in child && (child[p].At? <==> F.kids[p] != [])
    ensures child[p].At? ==> child[p].a == F.kids[p][0]
  {
    TreeRepParts(next, prev, parent, child, F);
    WatchedParts(F, p);
    hide TreeRep, Watched, WF, ListsRep, RootsRep, FlightRep;
    ChildHead(next, prev, parent, child, F.kids, p);
  }

  /** `talloc_free` of `p`, stopped where it is about to read the link of a released sibling: that happens exactly on
      the heaps that `Followed` describes, and everywhere else the free does what it promises. */
  method FreeWatched(t: Talloc, p: Id) returns (r: int, followed: bool)
    requires t.Valid() && Plain(t.F, p)
    modifies t
    ensures followed <==> Followed(old(t.F), p)
    ensures !followed ==> t.Valid() && t.F.flight == {} && FreeEffect(old(t.F), t.F, p, Subtree(old(t.F), p), r)
  {
    ghost var F0 := t.F;
    ghost var D := Subtree(F0, p);
    hide Plain, WF, TreeRep, HandleRep, RefsRep, Followed, Watched, Watch, FreeEffect, Releasable, Drainable;
    hide DrainEffect;
    hide Drained, Detach, Drop, Subtree, MayFree;
    PlainParts(F0, p);
    TreeRepParts(t.next, t.prev, t.parent, t.child, t.F);
    HandleRepParts(t.refs, t.size, t.looping, t.refDestructor, t.hnext, t.hprev, t.ptr, t.F);
    RefsKeys(F0);
    RefsHead(t.refs, t.hnext, t.hprev, t.ptr, t.F.refs, p);
    if t.refs[p].At? {
      PlainHeld(F0, p);
      MayFreeIff(F0, p);
      r := TallocFree(t, At(p));
      return r, false;
    }
    WatchStarts(F0, p);
    PlainReleasable(F0, p);
    t.StartFree(p);
    followed := WatchedDrain(t, p, D - {p});
    r := 0;
    if !followed {
      ghost var G := t.F;
      DrainedFrom(F0, G, D - {p}, p);
      DrainedDroppable(F0, G, D - {p}, p);
      t.ReleaseMemory(p);
      FreeDrained(F0, G, D, p);
      FreeEffectParts(F0, t.F, p, D, 0);
    }
  }
}
