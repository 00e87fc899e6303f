/** talloc's public calls that combine the primitives: free, free_children, unreference, unlink. */
module TallocApi {
  import opened TallocForest
  import opened TallocOwnership
  import opened TallocPaths
  import opened TallocCells
  import opened TallocCascade
  import opened TallocTheorems
  import opened TallocStale
  import opened TallocLoop
  import opened TallocHeap

  // ---------- owners, counted ----------

  /** The contexts of a list of handles, as a multiset. */
  ghost function Contexts(F: Forest, hs: seq<Id>): multiset<Ptr> {
    if hs == [] then multiset{}
    else multiset{if hs[0] in F.up then F.up[hs[0]] else Null} + Contexts(F, hs[1..])
  }

  /** Everyone who owns `c`: its parent and the context of each reference. */
  ghost function Owners(F: Forest, c: Id): multiset<Ptr>
    requires c in F.up && c in F.refs
  {
    multiset{F.up[c]} + Contexts(F, F.refs[c])
  }

  /** The first handle in `hs` that hangs from `ctx`. */
  ghost function FirstFrom(F: Forest, hs: seq<Id>, ctx: Ptr): Ptr {
    if hs == [] then Null
    else if hs[0] in F.up && F.up[hs[0]] == ctx then At(hs[0]) else FirstFrom(F, hs[1..], ctx)
  }

  lemma HeadAndTail(hs: seq<Id>)
    requires hs != []
    ensures hs[0] in hs && forall x :: x in hs[1..] ==> x in hs
  {}

  lemma {:induction false} ContextsCount(F: Forest, hs: seq<Id>)
    ensures |Contexts(F, hs)| == |hs|
  {
    if hs != [] {
      ContextsCount(F, hs[1..]);
    }
  }

  lemma {:induction false} FirstFromFound(F: Forest, hs: seq<Id>, ctx: Ptr)
    requires forall h :: h in hs ==> h in F.up
    ensures FirstFrom(F, hs, ctx).At? <==> ctx in Contexts(F, hs)
    ensures FirstFrom(F, hs, ctx).At? ==> FirstFrom(F, hs, ctx).a in hs && F.up[FirstFrom(F, hs, ctx).a] == ctx
  {
    if hs != [] {
      HeadAndTail(hs);
      var x := hs[0];
      assert x in hs && x in F.up;
      FirstFromFound(F, hs[1..], ctx);
    }
  }

  /** Of several handles with the same context the newest is found. */
  lemma {:induction false} FirstFromNewest(F: Forest, hs: seq<Id>, ctx: Ptr, i: nat)
    requires i < |hs| && (forall j :: 0 <= j < |hs| ==> hs[j] in F.up)
    requires F.up[hs[i]] == ctx && forall j :: 0 <= j < i ==> F.up[hs[j]] != ctx
    ensures FirstFrom(F, hs, ctx) == At(hs[i])
    decreases i
  {
    if i > 0 {
      FirstFromNewest(F, hs[1..], ctx, i - 1);
    }
  }

  lemma {:induction false} ContextsSame(F: Forest, G: Forest, hs: seq<Id>)
    requires forall h :: h in hs ==> h in F.up && h in G.up && G.up[h] == F.up[h]
    ensures Contexts(G, hs) == Contexts(F, hs)
  {
    if hs != [] {
      HeadAndTail(hs);
      var x := hs[0];
      assert x in hs && x in F.up && x in G.up;
      ContextsSame(F, G, hs[1..]);
    }
  }

  lemma {:induction false} ContextsWithout(F: Forest, hs: seq<Id>, h: Id)
    requires h in hs && h in F.up
    ensures Contexts(F, hs) == Contexts(F, Without(hs, h)) + multiset{F.up[h]}
  {
    if hs[0] != h {
      ContextsWithout(F, hs[1..], h);
      assert Without(hs, h)[1..] == Without(hs[1..], h);
    }
  }

  /** Removing a handle of `c` removes exactly one occurrence of its context. */
  lemma OwnersAfterRemove(F: Forest, h: Id, c: Id)
    requires WF(F) && F.flight == {} && c in F.up && c in F.refs && h in F.refs[c] && h in F.up && h in F.target
    ensures WF(RemoveHandle(F, h)) && c in RemoveHandle(F, h).up && c in RemoveHandle(F, h).refs
    ensures RemoveHandle(F, h).up[c] == F.up[c]
    ensures Owners(F, c) == Owners(RemoveHandle(F, h), c) + multiset{F.up[h]}
    ensures RemoveHandle(F, h).flight == {} && RemoveHandle(F, h).up == F.up - {h}
    ensures RemoveHandle(F, h).refs[c] == Without(F.refs[c], h)
  {
    NoStale(F, {});
    RemoveHandleWF(F, h);
    HandlesAreLive(F, c);
    var G := RemoveHandle(F, h);
    ContextsWithout(F, F.refs[c], h);
    WithoutMembers(F.refs[c], h);
    hide WF, RemoveHandle;
    ContextsSame(F, G, Without(F.refs[c], h));
  }

  lemma HandlesAreLive(F: Forest, c: Id)
    requires WF(F) && c in F.refs
    ensures forall h :: h in F.refs[c] ==> h in F.up && h in F.target && h != c && F.target[h] == c
    ensures Distinct(F.refs[c])
    ensures F.refs[c] != [] ==> c !in F.target
  {
    assert forall h :: h in F.refs[c] ==> F.refs[h] == [];
    if F.refs[c] != [] {
      assert F.refs[c][0] in F.refs[c];
    }
  }

  // ---------- free ----------

  /** `talloc_free`. */
  method TallocFree(t: Talloc, ptr: Ptr) returns (r: int)
    requires t.Valid() && (ptr.At? ==> MayFree(t.F, ptr.a))
    modifies t
    ensures t.Valid() && SizesKept(old(t.size), t.size) && t.room == old(t.room)
    ensures ptr.Null? ==> r == -1 && t.F == old(t.F) && t.size == old(t.size)
    ensures ptr.At? ==> FreeEffect(old(t.F), t.F, ptr.a, Subtree(old(t.F), ptr.a), r) && t.F.flight == {}
  {
    if ptr.Null? {
      return -1;
    }
    ghost var F0 := t.F;
    MayFreeLive(F0, ptr.a);
    hide WF, TreeRep, HandleRep, Ready, MayFree, FreeEffect, Subtree, Unfollowed;
    MayFreeReady(F0, ptr.a);
    r := t.Free(ptr.a, Subtree(t.F, ptr.a));
    FreeEffectParts(F0, t.F, ptr.a, Subtree(F0, ptr.a), r);
  }

  lemma MayFreeLive(F: Forest, p: Id)
    requires MayFree(F, p)
    ensures p in F.up && p in F.refs && F.flight == {}
  {
    WFParts(F);
    RefsKeys(F);
  }

  /** `talloc_free_children`. */
  method TallocFreeChildren(t: Talloc, p: Id)
    requires t.Valid() && p in t.F.up && p !in t.F.target && t.F.flight == {} && Steady(t.F, Subtree(t.F, p) - {p})
    modifies t
    ensures t.Valid() && DrainEffect(old(t.F), t.F, p, Subtree(old(t.F), p) - {p})
    ensures p in t.F.kids && t.F.kids[p] == [] && SizesKept(old(t.size), t.size) && t.room == old(t.room)
  {
    ChildrenDrainable(t.next, t.prev, t.parent, t.child, t.F, p);
    hide WF, TreeRep, HandleRep, Drainable, DrainEffect, Subtree, Steady;
    t.Drain(p, Subtree(t.F, p) - {p});
  }

  lemma ChildrenDrainable(next: Links, prev: Links, parent: Links, child: Links, F: Forest, p: Id)
    requires TreeRep(next, prev, parent, child, F)
    requires p in F.up && p !in F.target && F.flight == {} && Steady(F, Subtree(F, p) - {p})
    ensures Drainable(F, Subtree(F, p) - {p}, p)
  {
    TreeRepParts(next, prev, parent, child, F);
    WFParts(F);
    SubtreeDownClosed(F, p);
    NoStale(F, Subtree(F, p) - {p});
    BelowSelf(F.up, p);
    RefsKeys(F);
    var D := Subtree(F, p) - {p};
    KidsBelow(F, p);
    hide WF, TreeRep, Steady, KidsOk, RefsOk, Forested, StaleSafe, Subtree;
    ProperRegion(F, Subtree(F, p), p);
    DrainableFrom(F, D, p);
  }

  lemma KidsBelow(F: Forest, p: Id)
    requires WF(F) && p in F.kids
    ensures forall c :: c in F.kids[p] ==> c in Subtree(F, p) - {p}
    ensures F.up[p].At? ==> F.up[p].a !in Subtree(F, p)
  {
    WFParts(F);
    forall c | c in F.kids[p] ensures c in Subtree(F, p) - {p} {
      assert F.up[c] == At(p);
      BelowSelf(F.up, p);
      ParentNotBelow(F.up, c, p);
      BelowSelf(F.up, c);
      BelowStep(F.up, c, p);
    }
    if F.up[p].At? {
      ParentOutside(F, p);
    }
  }

  lemma ProperRegion(F: Forest, D: set<Id>, p: Id)
    requires DownClosed(F, D) && StaleSafe(F, D - {p}) && F.flight == {} && p in F.up
    requires (F.up[p].At? ==> F.up[p].a !in D)
    ensures ChildRegion(F, D - {p}, p)
  {}

  // ---------- unreference ----------

  /** `talloc_unreference`: free the newest handle to `p` that hangs from `ctx`, if there is one. */
  method Unreference(t: Talloc, ctx: Ptr, p: Id) returns (r: int)
    requires t.Valid() && p in t.F.up && p in t.F.refs && t.F.flight == {}
    modifies t
    ensures t.Valid() && WF(old(t.F)) && t.F.flight == {} && SizesKept(old(t.size), t.size) && t.room == old(t.room)
    ensures r == if ctx in Contexts(old(t.F), old(t.F).refs[p]) then 0 else -1
    ensures r == -1 ==> t.F == old(t.F)
    ensures r == 0 ==> FirstFrom(old(t.F), old(t.F).refs[p], ctx).At?
    ensures r == 0 ==> FirstFrom(old(t.F), old(t.F).refs[p], ctx).a in old(t.F).target
    ensures r == 0 ==> t.F == RemoveHandle(old(t.F), FirstFrom(old(t.F), old(t.F).refs[p], ctx).a)
  {
    ghost var F := t.F;
    ghost var hs := F.refs[p];
    hide WF, TreeRep, HandleRep, RefsRep, Ready, FreeEffect, RemoveHandle, FirstFrom, Contexts;
    TreeRepParts(t.next, t.prev, t.parent, t.child, F);
    HandleRepParts(t.refs, t.size, t.looping, t.refDestructor, t.hnext, t.hprev, t.ptr, F);
    HandlesAreLive(F, p);
    FirstFromFound(F, hs, ctx);
    var h := SearchHandle(t, ctx, p);
    if h.Null? {
      return -1;
    }
    HandleFreeable(F, h.a);
    var r1 := t.Free(h.a, {h.a});
    FreedHandle(F, t.F, h.a, {h.a}, r1);
    FreeEffectParts(F, t.F, h.a, {h.a}, r1);
    HandleNotHeld(F, h.a);
    r := r1;
  }

  lemma HandleNotHeld(F: Forest, h: Id)
    requires WF(F) && h in F.target && h in F.up
    ensures !Held(F, h)
  {
    LeafHandle(F, h);
  }

  lemma HandleFreeable(F: Forest, h: Id)
    requires WF(F) && F.flight == {} && h in F.target
    ensures h in F.up && h in F.refs && h !in F.flight && Ready(F, {h}, h)
  {
    NoStale(F, {h});
    LeafHandle(F, h);
    RemoveHandleSteps(F, h);
    HandlePrev(F, h);
    HandleDown(F, h);
    hide WF, PrevSafe;
    ReadyFrom(F, {h}, h);
  }

  lemma HandleDown(F: Forest, h: Id)
    requires WF(F) && F.flight == {} && h in F.target
    ensures Region(F, {h})
  {
    UnrefWF(F, h);
    NoStale(F, {h});
  }

  /** The search loop of `talloc_unreference`. */
  method SearchHandle(t: Talloc, ctx: Ptr, p: Id) returns (h: Ptr)
    requires t.Valid() && p in t.F.up && p in t.F.refs
    ensures h == FirstFrom(t.F, t.F.refs[p], ctx)
  {
    ghost var hs := t.F.refs[p];
    hide WF, TreeRep, HandleRep, RefsRep, Chained;
    TreeRepParts(t.next, t.prev, t.parent, t.child, t.F);
    HandleRepParts(t.refs, t.size, t.looping, t.refDestructor, t.hnext, t.hprev, t.ptr, t.F);
    RefsAt(t.refs, t.hnext, t.hprev, t.ptr, t.F.refs, p);
    HandlesAreLive(t.F, p);
    h := t.refs[p];
    ghost var i := 0;
    while h.At?
      invariant 0 <= i <= |hs| && h == Elem(hs, i)
      invariant FirstFrom(t.F, hs, ctx) == FirstFrom(t.F, hs[i..], ctx)
      decreases |hs| - i
    {
      ChainedHere(t.hnext, t.hprev, hs, i);
      assert hs[i] in hs;
      var q := t.ParentChunk(h.a);
      if q == ctx {
        return;
      }
      assert hs[i..][1..] == hs[i + 1..];
      h := t.hnext[h.a];
      i := i + 1;
    }
  }

  // ---------- unlink ----------

  /** Between F0 and F one handle of `p` went, and nothing else was freed, moved or referred to differently; `p` may
      hang from the context of that handle now. */
  ghost predicate OneHandleLess(F0: Forest, F: Forest, p: Id, h: Id) {
    var ok :=
      && WF(F0) && WF(F) && F.flight == F0.flight && p in F0.refs && h in F0.refs[p] && h in F0.up && p in F.up
      && p in F0.up
      && F.up.Keys == F0.up.Keys - {h} && F.target == F0.target - {h}
      && (forall x :: x in F.up && x != p ==> F.up[x] == F0.up[x])
      && (F.up[p] == F0.up[p] || F.up[p] == F0.up[h])
      && F.refs == F0.refs[p := Without(F0.refs[p], h)] - {h};
    ok
  }

  /** What `talloc_unlink` promises, in terms of the owners of `p`. */
  ghost predicate UnlinkEffect(F0: Forest, F: Forest, ctx: Ptr, p: Id, r: int) {
    && WF(F0) && p in F0.up && p in F0.refs
    && r == (if ctx in Owners(F0, p) then 0 else -1)
    && (r == -1 ==> F == F0)
    && (r == 0 && |Owners(F0, p)| > 1 ==>
          && p in F.up && p in F.refs && Owners(F0, p) == Owners(F, p) + multiset{ctx}
          && exists h :: OneHandleLess(F0, F, p, h))
    && (r == 0 && |Owners(F0, p)| == 1 ==> p !in F.up && FreeEffect(F0, F, p, Subtree(F0, p), 0))
  }

  /** An unlink that leaves the chunk with other owners frees one of its handles and re-parents nothing else. */
  lemma UnlinkSpares(F0: Forest, F: Forest, ctx: Ptr, p: Id, x: Id)
    requires UnlinkEffect(F0, F, ctx, p, 0) && |Owners(F0, p)| > 1 && x in F0.up
    ensures x in F.up || x in F0.refs[p]
    ensures x in F.up && x != p ==> F.up[x] == F0.up[x]
    ensures |F.up| == |F0.up| - 1
  {
    var h :| OneHandleLess(F0, F, p, h);
    hide WF, Owners, Without;
    assert F.up.Keys == F0.up.Keys - {h};
    assert |F.up| == |F.up.Keys| && |F0.up| == |F0.up.Keys|;
  }

  lemma HandleRemoved(F: Forest, h: Id, p: Id)
    requires WF(F) && F.flight == {} && p in F.up && p in F.refs && h in F.refs[p] && h in F.up && h in F.target
    ensures OneHandleLess(F, RemoveHandle(F, h), p, h)
  {
    HandlesAreLive(F, p);
    RemoveHandleWF(F, h);
    hide WF, RemoveHandle;
  }

  lemma HandlePromoted(F: Forest, G: Forest, h: Id, p: Id)
    requires OneHandleLess(F, G, p, h) && WF(Stolen(G, p, F.up[h]))
    requires (F.up[h].At? ==> F.up[h].a in G.up && F.up[h].a != p)
    ensures OneHandleLess(F, Stolen(G, p, F.up[h]), p, h)
  {
    hide WF, Stolen, Move, Without;
    StolenIsMove(G, p, F.up[h]);
    MoveFields(G, p, F.up[h]);
  }

  lemma UnlinkedReference(F0: Forest, F: Forest, ctx: Ptr, p: Id)
    requires WF(F0) && F0.flight == {} && p in F0.up && p in F0.refs
    requires FirstFrom(F0, F0.refs[p], ctx).At? && FirstFrom(F0, F0.refs[p], ctx).a in F0.target
    requires F == RemoveHandle(F0, FirstFrom(F0, F0.refs[p], ctx).a)
    ensures UnlinkEffect(F0, F, ctx, p, 0)
  {
    HandlesAreLive(F0, p);
    FirstFromFound(F0, F0.refs[p], ctx);
    ContextsCount(F0, F0.refs[p]);
    hide WF, RemoveHandle, FirstFrom, Contexts, FreeEffect, OneHandleLess, Distinct;
    var h := FirstFrom(F0, F0.refs[p], ctx).a;
    OwnersAfterRemove(F0, h, p);
    HandleRemoved(F0, h, p);
  }

  lemma UnlinkedNothing(F: Forest, ctx: Ptr, p: Id)
    requires WF(F) && p in F.up && p in F.refs && ctx !in Contexts(F, F.refs[p]) && F.up[p] != ctx
    ensures UnlinkEffect(F, F, ctx, p, -1)
  {
    hide WF;
  }

  lemma UnlinkedLast(F0: Forest, F: Forest, p: Id, r: int)
    requires WF(F0) && p in F0.up && p in F0.refs && F0.refs[p] == []
    requires FreeEffect(F0, F, p, Subtree(F0, p), r)
    ensures UnlinkEffect(F0, F, F0.up[p], p, r)
  {
    FreeEffectParts(F0, F, p, Subtree(F0, p), r);
    Unheld(F0, p);
    hide WF, FreeEffect, Held, Shed, Cascade, Exact;
  }

  /** The parent is unlinked, and the newest reference takes its place. */
  lemma UnlinkedParent(F0: Forest, F1: Forest, F: Forest, p: Id, h: Id)
    requires WF(F0) && F0.flight == {} && p in F0.up && p in F0.refs && F0.refs[p] != [] && F0.refs[p][0] == h
    requires h in F0.target && h in F0.up && F1 == RemoveHandle(F0, h)
    requires WF(F1) && WF(F) && p in F1.up && (F0.up[h].At? ==> F0.up[h].a in F1.up && F0.up[h].a != p)
    requires F == Stolen(F1, p, F0.up[h])
    ensures UnlinkEffect(F0, F, F0.up[p], p, 0)
  {
    hide WF, RemoveHandle, Contexts, FreeEffect, Stolen, Distinct, OneHandleLess;
    HandlesAreLive(F0, p);
    ContextsCount(F0, F0.refs[p]);
    HandleRemoved(F0, h, p);
    HandlePromoted(F0, F1, h, p);
    OwnersAfterRemove(F0, h, p);
    StolenIsMove(F1, p, F0.up[h]);
    MoveFields(F1, p, F0.up[h]);
    hide WF, RemoveHandle, Stolen, Move, FreeEffect;
    HandlesAreLive(F1, p);
    ContextsSame(F1, F, F1.refs[p]);
  }

  lemma NewParentReady(F: Forest, p: Id, h: Id)
    requires WF(F) && F.flight == {} && p in F.up && p in F.refs && F.refs[p] != [] && F.refs[p][0] == h
    requires h in F.target && h in F.up && !Below(F.up, h, p)
    ensures WF(RemoveHandle(F, h))
    ensures var G := RemoveHandle(F, h); var q := F.up[h];
      && p in G.up && p !in G.flight
      && (q.At? ==> q.a in G.up && q.a !in G.target && q.a != p && !Below(G.up, q.a, p))
  {
    NoStale(F, {});
    HandlesAreLive(F, p);
    RemoveHandleWF(F, h);
    UnrefWF(F, h);
    if F.up[h].At? {
      ParentLive(F, h);
      BelowStep(F.up, h, p);
      BelowSelf(F.up, p);
      BelowAfterRemove(F, h, F.up[h].a, p);
    }
  }

  /** `talloc_unlink`: remove one ownership of `p` by `ctx`; the last one frees it. A context that is the parent and
      holds a reference as well gives up the reference; otherwise the newest reference takes the place of the parent. */
  method Unlink(t: Talloc, ctx: Ptr, p: Id) returns (r: int)
    requires t.Valid() && t.F.flight == {} && p in t.F.up && p in t.F.refs
    requires forall h :: h in t.F.refs[p] ==> !Below(t.F.up, h, p)
    requires t.F.refs[p] == [] && t.F.up[p] == ctx ==> MayFree(t.F, p)
    modifies t
    ensures t.Valid() && t.F.flight == {} && UnlinkEffect(old(t.F), t.F, ctx, p, r)
    ensures (exists h :: h in old(t.F).refs[p] && h in old(t.F).up && old(t.F).up[h] == ctx) ==>
      p in t.F.up && t.F.up[p] == old(t.F).up[p]
    ensures (old(t.F).up[p] == ctx && old(t.F).refs[p] != []
             && forall h :: h in old(t.F).refs[p] && h in old(t.F).up ==> old(t.F).up[h] != ctx) ==>
      old(t.F).refs[p][0] in old(t.F).up && p in t.F.up && t.F.up[p] == old(t.F).up[old(t.F).refs[p][0]]
    ensures SizesKept(old(t.size), t.size) && t.room == old(t.room)
  {
    ghost var F := t.F;
    ghost var m0 := t.size;
    hide WF, TreeRep, HandleRep, RemoveHandle, FirstFrom, Contexts, UnlinkEffect, MayFree, FreeEffect, Subtree, Below;
    hide SizesKept;
    TreeRepParts(t.next, t.prev, t.parent, t.child, F);
    HeldBy(F, p, ctx);
    var r0 := Unreference(t, ctx, p);
    if r0 == 0 {
      ParentStays(F, p, ctx);
      UnlinkedReference(F, t.F, ctx, p);
      return 0;
    }
    var q := t.ParentChunk(p);
    if q != ctx {
      UnlinkedNothing(F, ctx, p);
      return -1;
    }
    ghost var m1 := t.size;
    r := UnlinkParent(t, p);
    SizesKeptOn(m0, m1, t.size);
  }

  lemma HeldBy(F: Forest, p: Id, ctx: Ptr)
    requires WF(F) && p in F.refs
    ensures ctx in Contexts(F, F.refs[p]) <==> exists h :: h in F.refs[p] && h in F.up && F.up[h] == ctx
  {
    HandlesAreLive(F, p);
    FirstFromFound(F, F.refs[p], ctx);
    hide WF, FirstFrom, Contexts;
    if h :| h in F.refs[p] && h in F.up && F.up[h] == ctx {
      InContexts(F, F.refs[p], h);
    }
  }

  lemma {:induction false} InContexts(F: Forest, hs: seq<Id>, h: Id)
    requires h in hs && h in F.up
    ensures F.up[h] in Contexts(F, hs)
  {
    if hs[0] != h {
      InContexts(F, hs[1..], h);
    }
  }

  lemma ParentStays(F: Forest, p: Id, ctx: Ptr)
    requires WF(F) && F.flight == {} && p in F.up && p in F.refs
    requires FirstFrom(F, F.refs[p], ctx).At? && FirstFrom(F, F.refs[p], ctx).a in F.target
    ensures var G := RemoveHandle(F, FirstFrom(F, F.refs[p], ctx).a); p in G.up && G.up[p] == F.up[p]
  {
    hide WF, RemoveHandle, FirstFrom, Contexts, Owners;
    HandlesAreLive(F, p);
    FirstFromFound(F, F.refs[p], ctx);
    OwnersAfterRemove(F, FirstFrom(F, F.refs[p], ctx).a, p);
  }

  /** The rest of `talloc_unlink`, once `ctx` is known to be the parent. */
  method UnlinkParent(t: Talloc, p: Id) returns (r: int)
    requires t.Valid() && t.F.flight == {} && p in t.F.up && p in t.F.refs
    requires forall h :: h in t.F.refs[p] ==> !Below(t.F.up, h, p)
    requires t.F.refs[p] == [] ==> MayFree(t.F, p)
    modifies t
    ensures t.Valid() && t.F.flight == {} && p in old(t.F).up && UnlinkEffect(old(t.F), t.F, old(t.F).up[p], p, r)
    ensures old(t.F).refs[p] != [] ==>
      old(t.F).refs[p][0] in old(t.F).up && p in t.F.up && t.F.up[p] == old(t.F).up[old(t.F).refs[p][0]]
    ensures SizesKept(old(t.size), t.size) && t.room == old(t.room)
  {
    ghost var F := t.F;
    hide WF, TreeRep, HandleRep, RefsRep, RemoveHandle, FirstFrom, Contexts, UnlinkEffect, MayFree, FreeEffect;
    hide Subtree, Below, Stolen, SizesKept;
    TreeRepParts(t.next, t.prev, t.parent, t.child, F);
    HandleRepParts(t.refs, t.size, t.looping, t.refDestructor, t.hnext, t.hprev, t.ptr, F);
    RefsHead(t.refs, t.hnext, t.hprev, t.ptr, F.refs, p);
    if t.refs[p].Null? {
      r := TallocFree(t, At(p));
      UnlinkedLast(F, t.F, p, r);
    } else {
      HandlesAreLive(F, p);
      HeadAndTail(F.refs[p]);
      var newParent := t.ParentChunk(t.refs[p].a);
      r := PromoteReference(t, p, newParent);
    }
  }

  /** The newest reference of `p` becomes its parent link. */
  method PromoteReference(t: Talloc, p: Id, newParent: Ptr) returns (r: int)
    requires t.Valid() && t.F.flight == {} && p in t.F.up && p in t.F.refs && t.F.refs[p] != []
    requires t.F.refs[p][0] in t.F.up && t.F.refs[p][0] in t.F.target && newParent == t.F.up[t.F.refs[p][0]]
    requires !Below(t.F.up, t.F.refs[p][0], p)
    modifies t
    ensures t.Valid() && t.F.flight == {} && p in old(t.F).up && UnlinkEffect(old(t.F), t.F, old(t.F).up[p], p, r)
    ensures p in t.F.up && t.F.up[p] == newParent
    ensures SizesKept(old(t.size), t.size) && t.room == old(t.room)
  {
    hide WF, TreeRep, HandleRep, RemoveHandle, FirstFrom, Contexts, UnlinkEffect, Below, Stolen, SizesKept;
    ghost var F := t.F;
    FirstIsHead(F, F.refs[p]);
    TreeRepParts(t.next, t.prev, t.parent, t.child, F);
    FirstFromFound'(F, p, newParent);
    NewParentReady(F, p, F.refs[p][0]);
    r := Unreference(t, newParent, p);
    ghost var F1 := t.F;
    t.Steal(newParent, p);
    TreeRepParts(t.next, t.prev, t.parent, t.child, t.F);
    UnlinkedParent(F, F1, t.F, p, F.refs[p][0]);
    StolenFlight(F1, p, newParent);
  }

  lemma StolenFlight(F: Forest, c: Id, q: Ptr)
    requires WF(F) && c in F.up && (q.At? ==> q.a in F.up)
    ensures Stolen(F, c, q).flight == F.flight
  {}

  lemma FirstFromFound'(F: Forest, p: Id, ctx: Ptr)
    requires WF(F) && p in F.refs && FirstFrom(F, F.refs[p], ctx).At?
    ensures ctx in Contexts(F, F.refs[p])
  {
    HandlesAreLive(F, p);
    FirstFromFound(F, F.refs[p], ctx);
  }

  lemma FirstIsHead(F: Forest, hs: seq<Id>)
    requires hs != [] && hs[0] in F.up
    ensures FirstFrom(F, hs, F.up[hs[0]]) == At(hs[0])
  {}
}
