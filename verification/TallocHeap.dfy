/** talloc's entry points, on chunk headers that live at addresses. */
module TallocHeap {
  import opened TallocForest
  import opened TallocOwnership
  import opened TallocPaths
  import opened TallocCells
  import opened TallocCascade
  import opened TallocStale
  import opened TallocLoop

  const MAX_TALLOC_SIZE := 0x10000000
  const HANDLE_SIZE: nat := 24

  class Talloc {
    // struct talloc_chunk
    var next: Links
    var prev: Links
    var parent: Links
    var child: Links
    var refs: Links
    var size: map<Id, nat>
    var looping: set<Id>       // TALLOC_FLAG_LOOP
    var refDestructor: set<Id> // destructor == talloc_reference_destructor
    // struct talloc_reference_handle, the payload of a handle
    var hnext: Links
    var hprev: Links
    var ptr: map<Id, Id>

    ghost var F: Forest
    ghost var room: map<Id, nat> // the bytes that the system last gave out at an address, headers aside

    ghost predicate Valid()
      reads this
    {
      TreeRep(next, prev, parent, child, F) && HandleRep(refs, size, looping, refDestructor, hnext, hprev, ptr, F)
    }

    constructor ()
      ensures Valid() && F == EMPTY_FOREST && Roomy(size, room)
    {
      next, prev, parent, child, refs := map[], map[], map[], map[], map[];
      size, looping, refDestructor := map[], {}, {};
      hnext, hprev, ptr := map[], map[], map[];
      F, room := EMPTY_FOREST, map[];
      new;
      hide TreeRep;
      EmptyRep(next, prev, parent, child, refs, hnext, hprev, ptr);
    }

    // ---------- walking up ----------

    /** `talloc_parent_chunk`: back to the first sibling, then to its parent. A chunk that is being freed may have
        been left with a link to a sibling; that sibling must still be there. */
    method ParentChunk(x: Id) returns (r: Ptr)
      requires Valid() && x in F.up && (x in F.flight ==> LivePrev(F, x))
      ensures r == F.up[x]
    {
      hide WF, Place, TreeRep, LivePrev;
      TreeRepParts(next, prev, parent, child, F);
      var tc := x;
      WalkBack(next, prev, parent, child, F, tc);
      while prev[tc].At?
        invariant tc in F.up && F.up[tc] == F.up[x] && tc in prev && tc in parent
        invariant prev[tc].Null? ==> parent[tc] == F.up[tc]
        invariant prev[tc].At? ==> prev[tc].a in F.up && prev[tc].a !in F.flight
        invariant prev[tc].At? ==> F.up[prev[tc].a] == F.up[tc]
        invariant prev[tc].At? ==> tc in F.flight || Place(F, prev[tc].a) < Place(F, tc)
        decreases if tc in F.flight then 1 else 0, Place(F, tc)
      {
        tc := prev[tc].a;
        WalkBack(next, prev, parent, child, F, tc);
      }
      r := parent[tc];
    }

    /** `talloc_is_parent`: whether `a` is `x` or one of its ancestors. */
    method IsParent(x: Id, a: Id) returns (r: bool)
      requires Valid() && x in F.up && ClearTo(F, x, a)
      ensures r <==> Below(F.up, x, a)
    {
      WFParts(F);
      ghost var rank: map<Id, nat> :| Ranked(F.up, rank);
      hide WF, Below, TreeRep, LivePrev, ClearTo;
      var tc := At(x);
      while tc.At?
        invariant tc.At? ==> tc.a in F.up && ClearTo(F, tc.a, a)
        invariant Below(F.up, x, a) <==> tc.At? && Below(F.up, tc.a, a)
        decreases if tc.At? then rank[tc.a] + 1 else 0
      {
        if tc.a == a {
          BelowSelf(F.up, a);
          return true;
        }
        BelowStep(F.up, tc.a, a);
        ClearHere(F, tc.a, a);
        tc := ParentChunk(tc.a);
      }
      r := false;
    }

    // ---------- unlinking ----------

    /** Unlink the first child of `a`: the branch for a chunk that holds the parent link. */
    method UnhookFirst(p: Id, ghost s: seq<Id>, ghost a: Id)
      requires s != [] && s[0] == p && Distinct(s) && Chained(next, prev, s) && Headed(parent, s, a)
      requires a in child && a !in s
      modifies this`next, this`prev, this`parent, this`child
      ensures next == old(next)[p := Null] && child == old(child)[a := Head(s[1..])]
      ensures prev == if |s| > 1 then old(prev)[s[1] := Null][p := Null] else old(prev)[p := Null]
      ensures parent == if |s| > 1 then old(parent)[s[1] := At(a)] else old(parent)
    {
      ChainedHere(next, prev, s, 0);
      if |s| > 1 {
        ChainedHere(next, prev, s, 1);
        DistinctAt(s, 0, 1);
      }
      var up := parent[p].a;
      var n := next[p];
      child := child[up := n];
      if n.At? {
        prev := prev[n.a := Null];
      }
      next, prev := next[p := Null], prev[p := Null];
      if child[up].At? {
        parent := parent[child[up].a := At(up)];
      }
    }

    /** Unlink a later child: its neighbours are joined, its own links are left in place. */
    method UnhookLater(p: Id, ghost s: seq<Id>, ghost i: nat)
      requires 0 < i < |s| && s[i] == p && Distinct(s) && Chained(next, prev, s)
      modifies this`next, this`prev
      ensures next == old(next)[s[i - 1] := Elem(s, i + 1)]
      ensures prev == if i + 1 < |s| then old(prev)[s[i + 1] := At(s[i - 1])] else old(prev)
    {
      ChainedHere(next, prev, s, i);
      ChainedHere(next, prev, s, i - 1);
      DistinctAt(s, i - 1, i);
      if i + 1 < |s| {
        ChainedHere(next, prev, s, i + 1);
      }
      if prev[p].At? {
        next := next[prev[p].a := next[p]];
      }
      if next[p].At? {
        prev := prev[next[p].a := prev[p]];
      }
    }

    /** Take `p` off its sibling list, leaving its own links as the source leaves them. */
    method Unhook(p: Id)
      requires TreeRep(next, prev, parent, child, F) && p in F.up && p !in F.flight
      modifies this`next, this`prev, this`parent, this`child
      ensures Unhooked(next, prev, parent, child, F, p)
    {
      ghost var m := (next, prev, parent, child);
      ghost var a, i, s := 0, 0, [];
      hide *;
      TreeRepParts(next, prev, parent, child, F);
      if F.up[p].At? {
        a, i := ListedLinks(next, prev, parent, child, F, p);
        s := F.kids[a];
        ChainedKeys(next, prev, s, i);
        ElemIs(s, i);
      } else {
        UnhookedLone(next, prev, parent, child, F, p);
      }
      if parent[p].At? {
        UnhookFirst(p, s, a);
        UnhookedFirst(m.0, m.1, m.2, m.3, next, prev, parent, child, F, p, a);
      } else if prev[p].At? {
        UnhookLater(p, s, i);
        UnhookedLater(m.0, m.1, m.2, m.3, next, prev, F, p, a, i);
      }
    }
  
    // ---------- moving ----------

    /** `_TLIST_ADD(q->child, c)` after the parent link moved to `c`. */
    method HookFront(c: Id, q: Id, ghost k: map<Id, seq<Id>>)
      requires ListsRep(next, prev, parent, child, k) && q in k && c !in k[q]
      requires c in next && c in prev && c in parent
      modifies this`next, this`prev, this`parent, this`child
      ensures Fronted(old(next), old(prev), old(parent), old(child), next, prev, parent, child, k[q], c, q)
    {
      ghost var s := k[q];
      ListAt(next, prev, parent, child, k, q);
      if s != [] {
        ChainedHere(next, prev, s, 0);
        HeadedHere(parent, s, q, 0);
        assert s[0] in s;
      }
      hide ListsRep, Chained, Headed;
      parent := parent[c := At(q)];
      if child[q].At? {
        parent := parent[child[q].a := Null];
      }
      if child[q].Null? {
        child := child[q := At(c)];
        next, prev := next[c := Null], prev[c := Null];
      } else {
        prev := prev[child[q].a := At(c)];
        next := next[c := child[q]];
        prev := prev[c := Null];
        child := child[q := At(c)];
      }
    }

    /** The links of `_talloc_steal` once it is known to be a real move. */
    method Relink(q: Ptr, c: Id)
      requires TreeRep(next, prev, parent, child, F) && Movable(F, c, q)
      modifies this`next, this`prev, this`parent, this`child
      ensures TreeRep(next, prev, parent, child, Relinked(F, c, q))
    {
      hide *;
      MovableParts(F, c, q);
      Unhook(c);
      UnhookedParts(next, prev, parent, child, F, c);
      if q.Null? {
        RootedMove(next, prev, parent, child, F, c);
        next, prev, parent := next[c := Null], prev[c := Null], parent[c := Null];
      } else {
        MovedKids(F, c, q);
        ghost var m := (next, prev, parent, child);
        HookFront(c, q.a, Unlisted(F, c));
        HookedMove(m.0, m.1, m.2, m.3, next, prev, parent, child, F, c, q.a);
      }
    }

    /** `_talloc_steal`: make `c` the first child of `q`, or a root when `q` is NULL. */
    method Steal(q: Ptr, c: Id)
      requires Valid() && c in F.up && c !in F.flight
      requires q.At? ==> q.a in F.up && q.a !in F.target && (q.a == c || !Below(F.up, q.a, c))
      modifies this`next, this`prev, this`parent, this`child, this`F
      ensures Valid()
      ensures TreeRep(old(next), old(prev), old(parent), old(child), old(F)) && WF(old(F))
      ensures F == Stolen(old(F), c, q)
      ensures q != At(c) ==> F.up == old(F).up[c := q]
      ensures q.At? && q.a != c ==> q.a in F.kids && F.kids[q.a] != [] && F.kids[q.a][0] == c
    {
      hide WF, TreeRep, HandleRep, Move, Movable, Below, Shape, Forested, KidsOk, RefsOk;
      TreeRepParts(next, prev, parent, child, F);
      WFParts(F);
      if q != At(c) {
        StolenFirst(F, c, q);
        MovableIf(F, c, q);
        MovableParts(F, c, q);
        if q.At? && parent[c] == q {
          StealNoop(next, prev, parent, child, F, c, q.a);
        } else {
          MovedHandles(refs, size, looping, refDestructor, hnext, hprev, ptr, F, c, q);
          Relink(q, c);
          F := Move(F, c, q);
        }
      }
    }
  
    // ---------- freeing ----------

    /** `_TLIST_REMOVE` on the reference list `s` of chunk `t`. */
    method UnlistHandle(h: Id, ghost s: seq<Id>, ghost i: nat)
      requires i < |s| && s[i] == h && Distinct(s) && Chained(hnext, hprev, s) && h in ptr
      requires ptr[h] in refs && refs[ptr[h]] == Head(s)
      modifies this`refs, this`hnext, this`hprev
      ensures Unrefed(old(hnext), old(hprev), hnext, hprev, s, i)
      ensures refs == old(refs)[ptr[h] := Head(s[..i] + s[i + 1..])]
    {
      DistinctAt(s, 0, i);
      ChainedHere(hnext, hprev, s, i);
      ChainedKeys(hnext, hprev, s, i);
      if i > 0 {
        DistinctAt(s, i, i - 1);
      }
      if i + 1 < |s| {
        DistinctAt(s, i, i + 1);
      }
      hide Chained, Distinct;
      var t := ptr[h];
      if refs[t] == At(h) {
        refs := refs[t := hnext[h]];
        if refs[t].At? {
          hprev := hprev[refs[t].a := Null];
        }
      } else {
        if hprev[h].At? {
          hnext := hnext[hprev[h].a := hnext[h]];
        }
        if hnext[h].At? {
          hprev := hprev[hnext[h].a := hprev[h]];
        }
      }
      if refs[t] != At(h) {
        hnext, hprev := hnext[h := Null], hprev[h := Null];
      }
    }

    /** `talloc_reference_destructor`, and clearing the destructor after it ran. */
    method DestroyHandle(h: Id)
      requires Valid() && h in F.target
      modifies this`refs, this`hnext, this`hprev, this`refDestructor, this`F
      ensures Valid() && h in old(F).target && old(F).target[h] in old(F).refs && F == Unref(old(F), h)
    {
      hide WF, TreeRep, HandleRep, Distinct, Chained, Unrefed, Head, Unref;
      TreeRepParts(next, prev, parent, child, F);
      ghost var s, i := HandlePlace(refs, size, looping, refDestructor, hnext, hprev, ptr, F, h);
      ghost var m := (refs, hnext, hprev);
      UnlistHandle(h, s, i);
      DestroyedRep(m.0, size, looping, refDestructor, m.1, m.2, ptr, refs, hnext, hprev, F, h, i);
      refDestructor := refDestructor - {h};
      UnrefWF(F, h);
      UnrefRefs(F, h);
      TreeRepSame(next, prev, parent, child, F, Unref(F, h));
      F := Unref(F, h);
    }
  
    /** `_talloc_free`. Returns 0 when `p` was freed and -1 when a reference keeps it.
        D bounds the cascade: nothing outside it is moved or freed, handles aside. */
    method Free(p: Id, ghost D: set<Id>) returns (r: int)
      requires Valid() && p in F.up && p in F.refs
      requires p !in F.flight ==> Ready(F, D, p) || Unfollowed(F, D, p)
      modifies this
      ensures Valid()
      ensures p in old(F).flight ==> F == old(F) && r == 0
      ensures p !in old(F).flight ==> FreeEffect(old(F), F, p, D, r)
      ensures SizesKept(old(size), size) && room == old(room)
      decreases F.up.Keys - F.flight, 0, |F.refs[p]|, 1
    {
      ghost var F0 := F;
      hide WF, TreeRep, HandleRep, RefsRep, Ready, FreeEffect, Releasable, Drained, Drop, Unref, RemoveHandle, Below;
      hide Plain, Followed, Calm, Subtree;
      TreeRepParts(next, prev, parent, child, F);
      HandleRepParts(refs, size, looping, refDestructor, hnext, hprev, ptr, F);
      RefsHead(refs, hnext, hprev, ptr, F.refs, p);
      if p in F.flight {
        FlightUnreferenced(F, p);
      }
      if refs[p].At? {
        if !Ready(F, D, p) {
          PlainHeld(F, p);
        }
        r := FreeReferenced(p, D);
      } else if p in looping {
        // a free loop: stop looping
        r := 0;
      } else {
        if p in refDestructor {
          if !Ready(F, D, p) {
            PlainParts(F, p);
          }
          HandleReleasable(F, D, p);
          OwnCalm(Detach(Unref(F, p), p), {}, p);
          DestroyHandle(p);
          UnrefTarget(F0, p);
          ghost var G := Release(p, {});
          FreeHandle(F0, G, D, p);
        } else {
          FreeStarts(F, D, p);
          ghost var G := Release(p, D - {p});
          FreeDrained(F0, G, D, p);
        }
        r := 0;
      }
    }

    /** The branch of `_talloc_free` for a chunk that still has references: drop the newest one, and
        go on only if its owner was inside the subtree of `p`. */
    method FreeReferenced(p: Id, ghost D: set<Id>) returns (r: int)
      requires Valid() && p in F.up && p in F.refs && Ready(F, D, p) && F.refs[p] != []
      modifies this
      ensures Valid() && FreeEffect(old(F), F, p, D, r) && SizesKept(old(size), size) && room == old(room)
      decreases F.up.Keys - F.flight, 0, |F.refs[p]|, 0
    {
      ghost var F0 := F;
      hide WF, TreeRep, HandleRep, RefsRep, Ready, FreeEffect, RemoveHandle, Below, ClearTo;
      TreeRepParts(next, prev, parent, child, F);
      HandleRepParts(refs, size, looping, refDestructor, hnext, hprev, ptr, F);
      RefsHead(refs, hnext, hprev, ptr, F.refs, p);
      HandleReady(F, D, p);
      ReadyClear(F, D, p);
      var h := refs[p].a;
      var isChild := IsParent(h, p);
      var r1 := Free(h, {h});
      FreedHandle(F0, F, h, {h}, r1);
      if isChild {
        ReadyAfterHandle(F0, D, p);
        ReadyLive(F, D, p);
        HandleGoneMeasure(F0, h);
        r := Free(p, D);
        FreeAgain(F0, F, p, D, r);
      } else {
        FreeHeld(F0, p, D);
        r := -1;
      }
    }

    /** Unlink `p`, free its children, release its memory. */
    method Release(p: Id, ghost E: set<Id>) returns (ghost G: Forest)
      requires Valid() && Releasable(F, E, p)
      requires p in F.up && (F.up[p].At? ==> F.up[p].a in F.kids) && Calm(Detach(F, p), E, p)
      modifies this
      ensures Valid() && Drained(old(F), G, E, p) && F == Drop(G, p) && SizesKept(old(size), size) && room == old(room)
      decreases F.up.Keys - F.flight, 0, 0, 0
    {
      ghost var F0 := F;
      hide WF, TreeRep, HandleRep, Drained, Releasable, Drainable, DrainEffect, Detach, Drop, Calm;
      ReleasableParts(F, E, p);
      StartFree(p);
      Drain(p, E);
      G := F;
      DrainedFrom(F0, G, E, p);
      DrainedDroppable(F0, G, E, p);
      ReleaseMemory(p);
    }

    /** Unlink `p` and set its loop flag. */
    method StartFree(p: Id)
      requires Valid() && p in F.up && p !in F.flight && (F.up[p].At? ==> F.up[p].a in F.kids) && WF(Detach(F, p))
      modifies this`next, this`prev, this`parent, this`child, this`looping, this`F
      ensures Valid() && p in old(F).up && (old(F).up[p].At? ==> old(F).up[p].a in old(F).kids)
      ensures F == Detach(old(F), p)
      ensures F.up.Keys - F.flight < old(F.up.Keys - F.flight)
    {
      hide WF, TreeRep, HandleRep, Unhooked, Detach;
      TreeRepParts(next, prev, parent, child, F);
      Unhook(p);
      DetachedRep(next, prev, parent, child, F, p);
      DetachedHandles(refs, size, looping, refDestructor, hnext, hprev, ptr, F, p);
      DetachKeeps(F, p);
      looping := looping + {p};
      F := Detach(F, p);
      assert p in old(F.up.Keys - F.flight);
    }

    /** `free(tc)`: the address leaves every field. */
    method ReleaseMemory(p: Id)
      requires Valid() && p in F.flight && p !in F.target && WF(Drop(F, p))
      modifies this
      ensures Valid() && F == Drop(old(F), p) && size == old(size) - {p} && room == old(room)
    {
      hide WF, TreeRep, HandleRep, Drop;
      TreeRepParts(next, prev, parent, child, F);
      DroppedRep(next, prev, parent, child, F, p);
      DroppedHandles(refs, size, looping, refDestructor, hnext, hprev, ptr, F, p);
      ForgetLinks(p);
      ForgetRest(p);
      F := Drop(F, p);
    }

    method ForgetLinks(p: Id)
      modifies this`next, this`prev, this`parent, this`child
      ensures next == old(next) - {p} && prev == old(prev) - {p} && parent == old(parent) - {p}
      ensures child == old(child) - {p}
    {
      next, prev, parent, child := next - {p}, prev - {p}, parent - {p}, child - {p};
    }

    method ForgetRest(p: Id)
      modifies this`refs, this`size, this`looping, this`refDestructor, this`hnext, this`hprev, this`ptr
      ensures refs == old(refs) - {p} && size == old(size) - {p}
      ensures looping == old(looping) - {p} && refDestructor == old(refDestructor) - {p}
      ensures hnext == old(hnext) - {p} && hprev == old(hprev) - {p} && ptr == old(ptr) - {p}
    {
      refs, size, looping, refDestructor := refs - {p}, size - {p}, looping - {p}, refDestructor - {p};
      hnext, hprev, ptr := hnext - {p}, hprev - {p}, ptr - {p};
    }

    /** The loop that frees the children of `p`. A child that stays referenced goes to the context of
        its newest reference, or failing that to the parent of `p`. */
    method Drain(p: Id, ghost D: set<Id>)
      requires Valid() && Drainable(F, D, p) && Calm(F, D, p)
      modifies this
      ensures Valid() && DrainEffect(old(F), F, p, D) && p in F.kids && F.kids[p] == []
      ensures SizesKept(old(size), size) && room == old(room)
      decreases F.up.Keys - F.flight, 2, 0, 0
    {
      ghost var F0 := F;
      hide WF, TreeRep, HandleRep, Drainable, DrainEffect, FreeEffect, ListsRep, RefsRep, Ready, Stolen, Receiver;
      hide Below;
      hide Calm;
      DrainStart(F, D, p);
      TreeRepParts(next, prev, parent, child, F);
      DrainableParts(F, D, p);
      ChildHead(next, prev, parent, child, F.kids, p);
      while child[p].At?
        invariant Valid() && Drainable(F, D, p) && Calm(F, D, p) && DrainEffect(F0, F, p, D)
        invariant p in F.kids && p in child && (child[p].At? <==> F.kids[p] != [])
        invariant child[p].At? ==> child[p].a == F.kids[p][0]
        invariant F.up.Keys <= F0.up.Keys && F.flight == F0.flight && SizesKept(old(size), size) && room == old(room)
        decreases F.up.Keys
      {
        DrainEffectParts(F0, F, p, D);
        DrainOne(p, D, F0);
        TreeRepParts(next, prev, parent, child, F);
        DrainableParts(F, D, p);
        ChildHead(next, prev, parent, child, F.kids, p);
      }
    }

    /** One turn of that loop. */
    method DrainOne(p: Id, ghost D: set<Id>, ghost F0: Forest)
      requires Valid() && Drainable(F, D, p) && Calm(F, D, p) && DrainEffect(F0, F, p, D)
      requires p in F.kids && p in F0.kids && F0.kids[p] != []
      requires p in child && child[p].At? && F.kids[p] != [] && child[p].a == F.kids[p][0]
      modifies this
      ensures Valid() && Drainable(F, D, p) && Calm(F, D, p) && DrainEffect(F0, F, p, D)
      ensures F.up.Keys < old(F).up.Keys && F.flight == old(F).flight && SizesKept(old(size), size) && room == old(room)
      decreases F.up.Keys - F.flight, 1, 0, 0
    {
      ghost var F1 := F;
      hide WF, TreeRep, HandleRep, Drainable, DrainEffect, FreeEffect, RefsRep, Ready, Stolen, Below, Receiver, OwnPrev;
      hide LivePrev, Calm, TurnRegion, Plain, Followed;
      var c := child[p].a;
      ghost var E := TurnRegion(F, D, p, c);
      CalmStart(F, D, p, c);
      HandleRepParts(refs, size, looping, refDestructor, hnext, hprev, ptr, F);
      RefsHead(refs, hnext, hprev, ptr, F.refs, c);
      var newParent := Null;
      if refs[c].At? {
        newParent := ParentChunk(refs[c].a);
      }
      var r := Free(c, E);
      FreeEffectWiden(F1, F, c, E, D, r);
      if r == -1 {
        ghost var R := F;
        HeldChild(F1, F, p, D, c);
        CalmHeld(F1, F, D, p, c, newParent);
        HandOverTo(p, c, newParent, D, F0, F1);
        ValidWF(next, prev, parent, child, F);
        CalmHanded(F1, R, F, D, p, c);
      } else {
        FreedChild(F0, F1, F, p, D, c, r);
        CalmFreed(F1, F, D, p, c, r);
      }
    }

    /** The child `c` of `p` stays referenced: steal it. */
    method HandOverTo(p: Id, c: Id, newParent: Ptr, ghost D: set<Id>, ghost F0: Forest, ghost F1: Forest)
      requires Valid() && Drainable(F1, D, p) && DrainEffect(F0, F1, p, D) && p in F0.kids && F0.kids[p] != []
      requires p in F1.kids && F1.kids[p] != [] && F1.kids[p][0] == c && FreeEffect(F1, F, c, D, -1)
      requires c in F1.refs && F1.refs[c] != [] && F1.refs[c][0] in F1.up && newParent == F1.up[F1.refs[c][0]]
      requires newParent == Null && p in F.flight ==> LivePrev(F, p)
      modifies this`next, this`prev, this`parent, this`child, this`F
      ensures Valid() && Drainable(F, D, p) && DrainEffect(F0, F, p, D) && (OwnPrev(F1, D, p) ==> OwnPrev(F, D, p))
      ensures p in F1.up && WF(old(F)) && c in old(F).up
      ensures Receiver(F1, p, c).At? ==> Receiver(F1, p, c).a in old(F).up
      ensures F == Stolen(old(F), c, Receiver(F1, p, c))
      ensures F.up.Keys < F1.up.Keys && F.flight == F1.flight
    {
      ghost var G := F;
      hide WF, TreeRep, HandleRep, Drainable, DrainEffect, FreeEffect, RefsRep, Ready, Stolen, Below, Receiver, OwnPrev;
      hide LivePrev;
      StealReady(F1, F, p, D, c);
      ReceiverIs(F1, p, c);
      var q := newParent;
      if q == Null {
        q := ParentChunk(p);
      }
      Steal(q, c);
      TreeRepParts(next, prev, parent, child, F);
      DrainHanded(F0, F1, G, F, p, D, c);
      HandedMeasure(F0, F1, F, p, D, c);
    }
  
    // ---------- allocating ----------

    /** `__talloc`: a new chunk of `sz` bytes at the address `n` that malloc returned, as first child of `ctx`. */
    method Alloc(ctx: Ptr, sz: nat, n: Id)
      requires Valid() && sz < MAX_TALLOC_SIZE && n !in F.up
      requires ctx.At? ==> ctx.a in F.up && ctx.a !in F.target
      modifies this
      ensures Valid() && F.up.Keys == old(F).up.Keys + {n} && size == old(size)[n := sz] && room == old(room)[n := sz]
      ensures (ctx.At? ==> ctx.a in old(F).kids) && F == Add(old(F), ctx, n) && n in F.up && F.up[n] == ctx
      ensures ctx.At? ==> ctx.a in F.kids && F.kids[ctx.a] == [n] + old(F).kids[ctx.a]
    {
      hide WF, TreeRep, HandleRep, Add;
      TreeRepParts(next, prev, parent, child, F);
      ghost var G := F;
      InitChunk(n, sz);
      AddNullFields(G, n);
      AddUp(G, Null, n);
      if ctx.At? {
        AddThenMove(G, n, ctx.a);
        HookNew(n, ctx.a, G);
        AddedFirst(G, ctx, n);
      }
    }

    /** The header of a fresh chunk, before it has a parent. */
    method InitChunk(n: Id, sz: nat)
      requires Valid() && n !in F.up
      modifies this
      ensures Valid() && F == Add(old(F), Null, n) && size == old(size)[n := sz] && room == old(room)[n := sz]
    {
      hide WF, TreeRep, HandleRep, Add, KidsOk, RefsOk, Forested, Shape;
      TreeRepParts(next, prev, parent, child, F);
      WFParts(F);
      NewRootRep(next, prev, parent, child, F, n);
      NewHandles(refs, size, looping, refDestructor, hnext, hprev, ptr, F, n, sz);
      InitHeader(n, sz);
      F := Add(F, Null, n);
    }

    method InitHeader(n: Id, sz: nat)
      modifies this`next, this`prev, this`parent, this`child, this`refs, this`size, this`room
      ensures next == old(next)[n := Null] && prev == old(prev)[n := Null] && parent == old(parent)[n := Null]
      ensures child == old(child)[n := Null] && refs == old(refs)[n := Null] && size == old(size)[n := sz]
      ensures room == old(room)[n := sz]
    {
      size, room := size[n := sz], room[n := sz];
      next, prev, parent, child := next[n := Null], prev[n := Null], parent[n := Null], child[n := Null];
      refs := refs[n := Null];
    }

    method HookNew(n: Id, q: Id, ghost G: Forest)
      requires Valid() && F == Add(G, Null, n) && q in G.kids && Movable(F, n, At(q))
      requires Relinked(F, n, At(q)) == Add(G, At(q), n)
      modifies this`next, this`prev, this`parent, this`child, this`F
      ensures Valid() && F == Add(G, At(q), n)
    {
      hide WF, TreeRep, HandleRep, Movable, Relinked;
      AddUp(G, Null, n);
      AddUp(G, At(q), n);
      hide Add;
      Relink(At(q), n);
      HandleRepSame(refs, size, looping, refDestructor, hnext, hprev, ptr, F, Add(G, At(q), n));
      F := Add(G, At(q), n);
    }

    /** `_talloc_reference`: a handle at the address `h`, child of `ctx`, that keeps `c` alive. */
    method Reference(ctx: Ptr, c: Id, h: Id)
      requires Valid() && h !in F.up && c in F.up && c !in F.target && c !in F.flight
      requires ctx.At? ==> ctx.a in F.up && ctx.a !in F.target
      modifies this
      ensures Valid() && (ctx.At? ==> ctx.a in old(F).kids) && c in Add(old(F), ctx, h).refs
      ensures F == Attach(Add(old(F), ctx, h), h, c) && size == old(size)[h := HANDLE_SIZE]
      ensures h in F.up && F.up[h] == ctx && c in old(F).refs && c in F.refs && F.refs[c] == [h] + old(F).refs[c]
      ensures room == old(room)[h := HANDLE_SIZE]
    {
      ghost var F0 := F;
      hide WF, TreeRep, HandleRep, Add, Attach;
      TreeRepParts(next, prev, parent, child, F);
      Alloc(ctx, HANDLE_SIZE, h);
      NewHandleReady(F0, ctx, h, c);
      AddUp(F0, ctx, h);
      AttachFields(F, h, c);
      AttachWF(F, h, c);
      LinkHandle(h, c);
    }

    /** Make the fresh chunk `h` a handle that is first on the list of `c`. */
    method LinkHandle(h: Id, c: Id)
      requires Valid() && c in F.up && c in F.refs && h !in F.target && WF(Attach(F, h, c))
      modifies this`refs, this`refDestructor, this`hnext, this`hprev, this`ptr, this`F
      ensures Valid() && c in old(F).refs && F == Attach(old(F), h, c)
    {
      hide WF, TreeRep, HandleRep, Attach;
      AttachFields(F, h, c);
      TreeRepSame(next, prev, parent, child, F, Attach(F, h, c));
      PointHandle(h, c);
      F := Attach(F, h, c);
    }

    /** Set the reference destructor of `h`, point it at `c` and put it first on the list of `c`. */
    method PointHandle(h: Id, c: Id)
      requires Valid() && c in F.up && c in F.refs && h !in F.target && WF(Attach(F, h, c))
      modifies this`refs, this`refDestructor, this`hnext, this`hprev, this`ptr
      ensures HandleRep(refs, size, looping, refDestructor, hnext, hprev, ptr, Attach(F, h, c))
    {
      hide WF, TreeRep, HandleRep, RefsRep, Attach, Chained, Head;
      TreeRepParts(next, prev, parent, child, F);
      HandleRepParts(refs, size, looping, refDestructor, hnext, hprev, ptr, F);
      ListedHead(refs, hnext, hprev, ptr, F.refs, c);
      ghost var m := (refs, hnext, hprev, ptr);
      ptr := ptr[h := c];
      HookHandle(h, c, F.refs[c]);
      AttachedHandles(m.0, size, looping, refDestructor, m.1, m.2, m.3, hnext, hprev, F, h, c);
      refDestructor := refDestructor + {h};
    }

    /** `_TLIST_ADD(tc->refs, handle)`. */
    method HookHandle(h: Id, c: Id, ghost s: seq<Id>)
      requires c in refs && refs[c] == Head(s) && (s != [] ==> s[0] in hnext && s[0] in hprev)
      modifies this`refs, this`hnext, this`hprev
      ensures RefFronted(old(hnext), old(hprev), hnext, hprev, s, h) && refs == old(refs)[c := At(h)]
    {
      if refs[c].Null? {
        refs := refs[c := At(h)];
        hnext, hprev := hnext[h := Null], hprev[h := Null];
      } else {
        hprev := hprev[refs[c].a := At(h)];
        hnext := hnext[h := refs[c]];
        hprev := hprev[h := Null];
        refs := refs[c := At(h)];
      }
    }
  }
}
