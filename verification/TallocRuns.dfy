/** Whole runs of talloc calls. */
module TallocRuns {
  import opened TallocForest
  import opened TallocOwnership
  import opened TallocCells
  import opened TallocCascade
  import opened TallocPaths
  import opened TallocStale
  import opened TallocHeap
  import opened TallocApi
  import opened TallocRealloc

  /** The calls, with the addresses that the system gives out. */
  datatype Call =
    | Alloc(ctx: Ptr, size: nat, n: Id)
    | Reference(ctx: Ptr, c: Id, h: Id)
    | Steal(ctx: Ptr, c: Id)
    | Unreference(ctx: Ptr, p: Id)
    | Unlink(ctx: Ptr, p: Id)
    | Free(ptr: Ptr)
    | FreeChildren(p: Id)
    | Realloc(ctx: Ptr, ptr: Ptr, size: nat, to: Id)

  /** A context is a live chunk, not a reference, or NULL. */
  ghost predicate Context(F: Forest, ctx: Ptr) {
    ctx.At? ==> ctx.a in F.up && ctx.a in F.kids && ctx.a !in F.target
  }

  /** What a call relies on. */
  ghost predicate Legal(F: Forest, call: Call) {
    match call
    case Alloc(ctx, size, n) => Context(F, ctx) && size < MAX_TALLOC_SIZE && n !in F.up
    case Reference(ctx, c, h) => Context(F, ctx) && h !in F.up && c in F.up && c !in F.target
    case Steal(q, c) => Context(F, q) && c in F.up && (q.At? ==> q.a == c || !Below(F.up, q.a, c))
    case Unreference(_, p) => p in F.up && p in F.refs
    case Unlink(ctx, p) =>
      && p in F.up && p in F.refs && (forall h :: h in F.refs[p] ==> !Below(F.up, h, p))
      && (F.refs[p] == [] && F.up[p] == ctx ==> MayFree(F, p))
    case Free(p) => p.At? ==> MayFree(F, p.a)
    case FreeChildren(p) => p in F.up && p !in F.target && Steady(F, Subtree(F, p) - {p})
    case Realloc(ctx, p, size, to) =>
      && (size == 0 && p.At? ==> MayFree(F, p.a)) && (p.At? ==> p.a in F.up && p.a !in F.target)
      && (to !in F.up || p == At(to)) && (p.Null? ==> Context(F, ctx))
  }

  /** The forest, how many bytes each chunk was asked for, and how many the system gave out. */
  datatype Heap = Heap(F: Forest, size: map<Id, nat>, room: map<Id, nat>)

  /** What is left keeps its size. */
  ghost predicate Lasting(H: Heap, G: Heap) {
    G.size.Keys == G.F.up.Keys && SizesKept(H.size, G.size) && G.room == H.room
  }

  /** What a call promises. */
  ghost predicate Does(H: Heap, call: Call, G: Heap) {
    match call
    case Alloc(ctx, size, n) => Context(H.F, ctx) && G == Heap(Add(H.F, ctx, n), H.size[n := size], H.room[n := size])
    case Reference(ctx, c, h) =>
      && Context(H.F, ctx) && c in Add(H.F, ctx, h).refs
      && G == Heap(Attach(Add(H.F, ctx, h), h, c), H.size[h := HANDLE_SIZE], H.room[h := HANDLE_SIZE])
    case Steal(q, c) => WF(H.F) && Context(H.F, q) && c in H.F.up && G == Heap(Stolen(H.F, c, q), H.size, H.room)
    case Unreference(ctx, p) =>
      p in H.F.refs && Unreferenced(H.F, FirstFrom(H.F, H.F.refs[p], ctx), G.F) && Lasting(H, G)
    case Unlink(ctx, p) => (exists r :: UnlinkEffect(H.F, G.F, ctx, p, r)) && Lasting(H, G)
    case Free(p) => if p.Null? then G == H else FreeDone(H.F, p.a, G.F) && Lasting(H, G)
    case FreeChildren(p) =>
      DrainEffect(H.F, G.F, p, Subtree(H.F, p) - {p}) && p in G.F.kids && G.F.kids[p] == [] && Lasting(H, G)
    case Realloc(ctx, p, size, to) =>
      if size == 0 then if p.Null? then G == H else FreeDone(H.F, p.a, G.F) && Lasting(H, G)
      else if size >= MAX_TALLOC_SIZE then G == H
      else if p.Null? then Context(H.F, ctx) && G == Heap(Add(H.F, ctx, to), H.size[to := size], H.room[to := size])
      else Reallocated(H, p.a, size, to, G)
  }

  /** A referenced chunk is refused. A small shrink stays in place; anything else is where the system put it. */
  ghost predicate Reallocated(H: Heap, p: Id, size: nat, to: Id, G: Heap) {
    if p in H.F.refs && H.F.refs[p] != [] then G == H
    else if p in H.size && size < H.size[p] && H.size[p] - size < 1024 then G == Heap(H.F, H.size[p := size], H.room)
    else if to == p then G == Heap(H.F, H.size[p := size], H.room[p := size])
    else Moves(H.F, p, to) && G == Heap(Renamed(H.F, p, to), (H.size - {p})[to := size], H.room[to := size])
  }

  ghost predicate Unreferenced(F: Forest, h: Ptr, G: Forest) {
    if h.Null? then G == F else WF(F) && h.a in F.target && G == RemoveHandle(F, h.a)
  }

  ghost predicate FreeDone(F: Forest, p: Id, G: Forest) {
    exists r :: FreeEffect(F, G, p, Subtree(F, p), r)
  }

  ghost predicate Quiet(F: Forest) {
    WF(F) && F.flight == {}
  }

  /** A heap in order, between calls. */
  ghost predicate InOrder(H: Heap) {
    Quiet(H.F) && H.size.Keys == H.F.up.Keys && Roomy(H.size, H.room)
  }

  /** Each call meets a heap on which it is legal and does what it promises, as long as the heap it meets is in
      order. */
  ghost predicate Run(states: seq<Heap>, calls: seq<Call>) {
    && |states| == |calls| + 1
    && forall i :: 0 <= i < |calls| && InOrder(states[i]) ==>
        Legal(states[i].F, calls[i]) && Does(states[i], calls[i], states[i + 1])
  }

  // ---------- every call keeps the heap in order ----------

  /** What all calls but those that free and move memory keep. */
  ghost predicate Keeps(F: Forest, G: Forest, x: Id) {
    x in F.up && x !in F.target ==> x in G.up && x !in G.target && G.up[x] == F.up[x]
  }

  lemma QuietParts(F: Forest)
    requires Quiet(F)
    ensures WF(F) && F.flight == {} && F.kids.Keys == F.up.Keys && F.refs.Keys == F.up.Keys
  {
    WFParts(F);
  }

  lemma AllocStep(F: Forest, ctx: Ptr, n: Id)
    requires Quiet(F) && Context(F, ctx) && n !in F.up
    ensures var G := Add(F, ctx, n); Quiet(G) && G.up.Keys == F.up.Keys + {n} && forall x :: Keeps(F, G, x)
  {
    AddWF(F, ctx, n);
    AddUp(F, ctx, n);
    hide WF, Add;
  }

  lemma ReferenceStep(F: Forest, ctx: Ptr, c: Id, h: Id)
    requires Quiet(F) && Context(F, ctx) && h !in F.up && c in F.up && c !in F.target && c in Add(F, ctx, h).refs
    ensures var G := Attach(Add(F, ctx, h), h, c);
      Quiet(G) && G.up.Keys == F.up.Keys + {h} && forall x :: Keeps(F, G, x)
  {
    hide WF, Add, Attach;
    NewHandleReady(F, ctx, h, c);
    AttachWF(Add(F, ctx, h), h, c);
    AddUp(F, ctx, h);
    AttachFields(Add(F, ctx, h), h, c);
  }

  lemma StealStep(F: Forest, q: Ptr, c: Id)
    requires Quiet(F) && c in F.up && Context(F, q) && (q.At? ==> q.a == c || !Below(F.up, q.a, c))
    ensures var G := Stolen(F, c, q);
      && Quiet(G) && G.target == F.target && G.up.Keys == F.up.Keys
      && forall x :: x in F.up && x != c ==> G.up[x] == F.up[x]
  {
    hide WF, Below, Move;
    if q != At(c) {
      MovableIf(F, c, q);
      MovableParts(F, c, q);
      MoveFields(F, c, q);
    }
  }

  lemma UnreferenceStep(F: Forest, h: Ptr, G: Forest)
    requires Quiet(F) && Unreferenced(F, h, G)
    ensures Quiet(G) && forall x :: Keeps(F, G, x)
  {
    if h.At? {
      RemoveHandleWF(F, h.a);
      hide WF, RemoveHandle;
    }
  }

  lemma FreeStep(F: Forest, p: Id, G: Forest)
    requires Quiet(F) && FreeDone(F, p, G)
    ensures Quiet(G) && forall x :: x !in Subtree(F, p) ==> Keeps(F, G, x)
  {
    var r :| FreeEffect(F, G, p, Subtree(F, p), r);
    FreeEffectParts(F, G, p, Subtree(F, p), r);
    CascadeConfined(F, G, Subtree(F, p));
    hide WF, Cascade, Subtree, FreeEffect;
  }

  lemma FreeChildrenStep(F: Forest, p: Id, G: Forest)
    requires Quiet(F) && DrainEffect(F, G, p, Subtree(F, p) - {p})
    ensures Quiet(G) && forall x :: x !in Subtree(F, p) - {p} ==> Keeps(F, G, x)
  {
    var D := Subtree(F, p) - {p};
    DrainEffectParts(F, G, p, D);
    CascadeConfined(F, G, D);
    hide WF, Cascade, Subtree, DrainEffect;
  }

  lemma UnlinkStep(F: Forest, ctx: Ptr, p: Id, G: Forest)
    requires Quiet(F) && exists r :: UnlinkEffect(F, G, ctx, p, r)
    ensures Quiet(G) && p in F.up && p in F.refs
    ensures forall x :: x in F.up && x !in F.target && (x !in Subtree(F, p) || |Owners(F, p)| > 1) ==>
      x in G.up && x !in G.target
    ensures forall x :: x != p && (x !in Subtree(F, p) || |Owners(F, p)| > 1) ==> Keeps(F, G, x)
  {
    var r :| UnlinkEffect(F, G, ctx, p, r);
    hide WF, Owners, Subtree, FreeEffect, OneHandleLess, Contexts;
    OwnersSome(F, p);
    if r == 0 && |Owners(F, p)| > 1 {
      var h :| OneHandleLess(F, G, p, h);
      LessStep(F, G, p, h);
    } else if r == 0 {
      assert FreeDone(F, p, G);
      FreeStep(F, p, G);
      BelowSelf(F.up, p);
      SelfInSubtree(F, p);
    }
  }

  lemma SelfInSubtree(F: Forest, p: Id)
    requires p in F.up && Below(F.up, p, p)
    ensures p in Subtree(F, p)
  {}

  lemma OwnersSome(F: Forest, p: Id)
    requires p in F.up && p in F.refs
    ensures |Owners(F, p)| >= 1
  {}

  lemma LessStep(F: Forest, G: Forest, p: Id, h: Id)
    requires Quiet(F) && OneHandleLess(F, G, p, h)
    ensures Quiet(G) && (forall x :: x != p ==> Keeps(F, G, x))
    ensures forall x :: x in F.up && x !in F.target ==> x in G.up && x !in G.target
  {
    ReferrerIsHandle(F, p, h);
    hide WF, Without;
  }

  lemma ReferrerIsHandle(F: Forest, p: Id, h: Id)
    requires WF(F) && p in F.refs && h in F.refs[p]
    ensures h in F.target
  {}

  lemma ReallocStep(F: Forest, p: Id, q: Id)
    requires Moves(F, p, q)
    ensures var G := Renamed(F, p, q);
      && Quiet(G) && G.target == F.target && G.up.Keys == F.up.Keys - {p} + {q}
      && forall x :: x in F.up && x != p ==> x in G.up && G.up[x] == ToPtr(F.up[x], p, q)
  {
    hide WF;
    RenamedWF(F, p, q);
  }

  /** Every call leaves a well-formed forest with nothing in the middle of being freed. */
  lemma StepSafe(H: Heap, call: Call, G: Heap)
    requires InOrder(H) && Legal(H.F, call) && Does(H, call, G)
    ensures InOrder(G)
  {
    hide Quiet, Below, MayFree, Moves, Renamed, Stolen, RemoveHandle, Add, Attach, Subtree, FreeDone, DrainEffect;
    hide UnlinkEffect, Unreferenced, FirstFrom, Steady, Reallocated, Context, SizesKept, Roomy;
    match call
    case Alloc(ctx, size, n) =>
      AllocStep(H.F, ctx, n);
      RoomyPut(H.size, H.room, n, n, size);
    case Reference(ctx, c, h) =>
      ReferenceStep(H.F, ctx, c, h);
      RoomyPut(H.size, H.room, h, h, HANDLE_SIZE);
    case Steal(q, c) => StealStep(H.F, q, c);
    case Unreference(ctx, p) =>
      UnreferenceStep(H.F, FirstFrom(H.F, H.F.refs[p], ctx), G.F);
      RoomyFewer(H.size, G.size, H.room);
    case Unlink(ctx, p) =>
      UnlinkStep(H.F, ctx, p, G.F);
      RoomyFewer(H.size, G.size, H.room);
    case Free(p) =>
      if p.At? {
        FreeStep(H.F, p.a, G.F);
        RoomyFewer(H.size, G.size, H.room);
      }
    case FreeChildren(p) =>
      FreeChildrenStep(H.F, p, G.F);
      RoomyFewer(H.size, G.size, H.room);
    case Realloc(ctx, p, size, to) => ReallocSafe(H, call, G);
  }

  lemma ReallocSafe(H: Heap, call: Call, G: Heap)
    requires InOrder(H) && call.Realloc? && Legal(H.F, call) && Does(H, call, G)
    ensures InOrder(G)
  {
    hide Quiet, Below, MayFree, Moves, Renamed, Add, Subtree, FreeDone, Context, SizesKept, Roomy;
    var p, to, size := call.ptr, call.to, call.size;
    if size == 0 && p.At? {
      FreeStep(H.F, p.a, G.F);
      RoomyFewer(H.size, G.size, H.room);
    } else if G != H && p.Null? {
      AllocStep(H.F, call.ctx, to);
      RoomyPut(H.size, H.room, to, to, size);
    } else if G != H && size < H.size[p.a] && H.size[p.a] - size < 1024 {
      RoomyShrunk(H.size, H.room, p.a, size);
    } else if G != H {
      RoomyPut(H.size, H.room, p.a, to, size);
      if p.a != to {
        ReallocStep(H.F, p.a, to);
      }
    }
  }

  /** Along every run from a heap in order the heap stays in order. */
  lemma {:induction false} RunSafe(states: seq<Heap>, calls: seq<Call>, i: nat)
    requires Run(states, calls) && i < |states| && InOrder(states[0])
    ensures InOrder(states[i])
    ensures forall x :: x in states[i].size ==> x in states[i].room && states[i].size[x] <= states[i].room[x]
  {
    hide Does, Legal, Quiet;
    if i > 0 {
      RunSafe(states, calls, i - 1);
      StepSafe(states[i - 1], calls[i - 1], states[i]);
    }
  }

  // ---------- what a run cannot take away ----------

  /** A call that neither frees something above `x` nor moves `x` to another address. */
  ghost predicate Spares(F: Forest, call: Call, x: Id) {
    match call
    case Free(p) => p.At? ==> x !in Subtree(F, p.a)
    case FreeChildren(p) => x !in Subtree(F, p) - {p}
    case Unlink(_, p) => x !in Subtree(F, p) || (p in F.up && p in F.refs && |Owners(F, p)| > 1)
    case Realloc(_, p, size, _) => p.At? ==> if size == 0 then x !in Subtree(F, p.a) else p.a != x
    case _ => true
  }

  /** ... and leaves its parent link alone. */
  ghost predicate LeavesParent(F: Forest, call: Call, x: Id) {
    && (call.Steal? ==> call.c != x)
    && (call.Unlink? ==> call.p != x)
    && (call.Realloc? && call.ptr.At? ==> x in F.up ==> F.up[x] != call.ptr)
  }

  /** A spared chunk stays, with its size; and it keeps its parent if that is left alone. */
  ghost predicate Spared(H: Heap, call: Call, G: Heap, x: Id) {
    && x in G.F.up && x !in G.F.target && (x in H.size ==> x in G.size && G.size[x] == H.size[x])
    && (LeavesParent(H.F, call, x) && x in H.F.up ==> G.F.up[x] == H.F.up[x])
  }

  lemma StepSpares(H: Heap, call: Call, G: Heap, x: Id)
    requires InOrder(H) && Legal(H.F, call) && Does(H, call, G) && Spares(H.F, call, x)
    requires x in H.F.up && x !in H.F.target
    ensures Spared(H, call, G, x)
  {
    hide Quiet, Below, MayFree, Moves, Renamed, Stolen, RemoveHandle, Add, Attach, Subtree, FreeDone, DrainEffect;
    hide UnlinkEffect, Unreferenced, FirstFrom, Steady, Owners, Reallocated, Context;
    StepSafe(H, call, G);
    match call
    case Alloc(ctx, _, n) =>
      AllocStep(H.F, ctx, n);
      assert Keeps(H.F, G.F, x);
    case Reference(ctx, c, h) =>
      ReferenceStep(H.F, ctx, c, h);
      assert Keeps(H.F, G.F, x);
    case Steal(q, c) => StealStep(H.F, q, c);
    case Unreference(ctx, p) =>
      UnreferenceStep(H.F, FirstFrom(H.F, H.F.refs[p], ctx), G.F);
      assert Keeps(H.F, G.F, x);
    case Unlink(ctx, p) =>
      UnlinkStep(H.F, ctx, p, G.F);
      assert x != p ==> Keeps(H.F, G.F, x);
    case Free(p) =>
      if p.At? {
        FreeStep(H.F, p.a, G.F);
        assert Keeps(H.F, G.F, x);
      }
    case FreeChildren(p) =>
      FreeChildrenStep(H.F, p, G.F);
      assert Keeps(H.F, G.F, x);
    case Realloc(ctx, p, size, to) => ReallocSpares(H, call, G, x);
  }

  lemma ReallocSpares(H: Heap, call: Call, G: Heap, x: Id)
    requires InOrder(H) && call.Realloc? && Legal(H.F, call) && Does(H, call, G) && Spares(H.F, call, x)
    requires x in H.F.up && x !in H.F.target && InOrder(G)
    ensures Spared(H, call, G, x)
  {
    hide Quiet, Below, MayFree, Moves, Renamed, Add, Subtree, FreeDone, Context;
    var p := call.ptr;
    if call.size == 0 && p.At? {
      FreeStep(H.F, p.a, G.F);
      assert Keeps(H.F, G.F, x);
    } else if G != H && p.Null? {
      AllocStep(H.F, call.ctx, call.to);
      assert Keeps(H.F, G.F, x);
    } else if G.F != H.F {
      ReallocStep(H.F, p.a, call.to);
    }
  }

  /** Along every run a chunk stays alive and keeps its size while nothing above it is freed and it is not
      reallocated, and keeps its parent while it is not stolen: no call frees, moves or resizes memory behind the back
      of someone else. */
  lemma {:induction false} RunSpares(states: seq<Heap>, calls: seq<Call>, x: Id, i: nat)
    requires Run(states, calls) && i < |states| && InOrder(states[0])
    requires x in states[0].F.up && x !in states[0].F.target
    requires forall k :: 0 <= k < i ==> Spares(states[k].F, calls[k], x)
    ensures x in states[i].F.up && x !in states[i].F.target
    ensures x in states[0].size && x in states[i].size && states[i].size[x] == states[0].size[x]
    ensures (forall k :: 0 <= k < i ==> LeavesParent(states[k].F, calls[k], x)) ==>
      states[i].F.up[x] == states[0].F.up[x]
  {
    hide Does, Legal, Quiet, Spares, LeavesParent;
    if i > 0 {
      RunSpares(states, calls, x, i - 1);
      RunSafe(states, calls, i - 1);
      StepSpares(states[i - 1], calls[i - 1], states[i], x);
    }
  }

  // ---------- runs of the pointer-level code ----------

  /** The calls can be made one after the other: each is legal on whatever heaps the ones before it may leave. */
  ghost predicate Safe(H: Heap, calls: seq<Call>)
    decreases |calls|
  {
    calls != [] ==> Legal(H.F, calls[0]) && forall G :: Does(H, calls[0], G) ==> Safe(G, calls[1..])
  }

  lemma SafeStep(H: Heap, G: Heap, calls: seq<Call>)
    requires Safe(H, calls) && calls != [] && Does(H, calls[0], G)
    ensures Safe(G, calls[1..])
  {
    hide Does, Legal;
  }

  lemma SafeLegal(H: Heap, calls: seq<Call>)
    requires Safe(H, calls) && calls != []
    ensures Legal(H.F, calls[0])
  {
    hide Does, Legal;
  }

  ghost function State(t: Talloc): Heap
    reads t
  {
    Heap(t.F, t.size, t.room)
  }

  lemma ValidQuiet(t: Talloc)
    requires t.Valid() && t.F.flight == {}
    ensures Quiet(t.F) && WF(t.F) && (Roomy(t.size, t.room) ==> InOrder(State(t)))
    ensures t.F.kids.Keys == t.F.up.Keys && t.F.refs.Keys == t.F.up.Keys && t.size.Keys == t.F.up.Keys
  {
    TreeRepParts(t.next, t.prev, t.parent, t.child, t.F);
    HandleRepParts(t.refs, t.size, t.looping, t.refDestructor, t.hnext, t.hprev, t.ptr, t.F);
    hide WF, TreeRep, HandleRep, RefsRep;
    QuietParts(t.F);
  }

  method DoMake(t: Talloc, call: Call)
    requires t.Valid() && t.F.flight == {} && Legal(t.F, call) && (call.Alloc? || call.Reference? || call.Steal?)
    modifies t
    ensures t.Valid() && Does(old(State(t)), call, State(t))
  {
    hide WF, TreeRep, HandleRep, Below, Add, Attach, Stolen, Quiet;
    ValidQuiet(t);
    match call
    case Alloc(ctx, size, n) => t.Alloc(ctx, size, n);
    case Reference(ctx, c, h) => t.Reference(ctx, c, h);
    case Steal(q, c) => t.Steal(q, c);
  }

  method DoFree(t: Talloc, call: Call)
    requires t.Valid() && t.F.flight == {} && Legal(t.F, call)
    requires call.Free? || call.FreeChildren? || call.Unlink? || call.Unreference?
    modifies t
    ensures t.Valid() && Does(old(State(t)), call, State(t))
  {
    hide WF, TreeRep, HandleRep, Below, MayFree, FreeEffect, DrainEffect, UnlinkEffect, Subtree, Steady, Quiet;
    hide RemoveHandle, FirstFrom, Contexts, SizesKept;
    ValidQuiet(t);
    match call
    case Free(p) =>
      var r := TallocFree(t, p);
      SizeKeys(t);
    case FreeChildren(p) =>
      TallocFreeChildren(t, p);
      SizeKeys(t);
    case Unlink(ctx, p) =>
      var r := TallocApi.Unlink(t, ctx, p);
      SizeKeys(t);
    case Unreference(ctx, p) =>
      ghost var F := t.F;
      HandlesAreLive(F, p);
      FirstFromFound(F, F.refs[p], ctx);
      var r := TallocApi.Unreference(t, ctx, p);
      SizeKeys(t);
  }

  lemma SizeKeys(t: Talloc)
    requires t.Valid()
    ensures t.size.Keys == t.F.up.Keys
  {
    HandleRepParts(t.refs, t.size, t.looping, t.refDestructor, t.hnext, t.hprev, t.ptr, t.F);
    hide TreeRep, HandleRep, RefsRep;
  }

  method DoRealloc(t: Talloc, call: Call)
    requires t.Valid() && t.F.flight == {} && Legal(t.F, call) && call.Realloc?
    modifies t
    ensures t.Valid() && Does(old(State(t)), call, State(t))
  {
    hide WF, TreeRep, HandleRep, Below, MayFree, FreeEffect, Moves, Renamed, Subtree, Quiet, Add, SizesKept;
    ValidQuiet(t);
    ghost var m := t.size;
    var r := TallocRealloc.Realloc(t, call.ctx, call.ptr, call.size, call.to);
    SizeKeys(t);
    if call.ptr.At? {
      PutAgain(m, call.ptr.a, call.size);
    }
  }

  /** One call. */
  method Do(t: Talloc, call: Call)
    requires t.Valid() && t.F.flight == {} && Roomy(t.size, t.room) && Legal(t.F, call)
    modifies t
    ensures t.Valid() && t.F.flight == {} && Does(old(State(t)), call, State(t)) && InOrder(State(t))
  {
    ghost var H := State(t);
    hide WF, TreeRep, HandleRep, Quiet, Legal, Does;
    ValidQuiet(t);
    if call.Alloc? || call.Reference? || call.Steal? {
      DoMake(t, call);
    } else if call.Realloc? {
      DoRealloc(t, call);
    } else {
      DoFree(t, call);
    }
    StepSafe(H, call, State(t));
    QuietParts(t.F);
  }

  /** A sequence of calls goes through the states of a run. */
  method Perform(t: Talloc, calls: seq<Call>) returns (ghost states: seq<Heap>)
    requires t.Valid() && t.F.flight == {} && Roomy(t.size, t.room) && Safe(State(t), calls)
    modifies t
    ensures t.Valid() && t.F.flight == {} && Roomy(t.size, t.room) && Run(states, calls)
    ensures states[0] == old(State(t)) && states[|calls|] == State(t)
  {
    hide WF, TreeRep, HandleRep, Quiet, Legal, Does, Safe;
    states := [State(t)];
    for i := 0 to |calls|
      invariant t.Valid() && t.F.flight == {} && |states| == i + 1 && states[0] == old(State(t))
      invariant states[i] == State(t) && Safe(State(t), calls[i..]) && Roomy(t.size, t.room)
      invariant forall k :: 0 <= k < i ==> Legal(states[k].F, calls[k]) && Does(states[k], calls[k], states[k + 1])
    {
      ghost var H := State(t);
      assert calls[i..][0] == calls[i] && calls[i..][1..] == calls[i + 1..];
      SafeLegal(H, calls[i..]);
      Do(t, calls[i]);
      SafeStep(H, State(t), calls[i..]);
      states := states + [State(t)];
    }
  }

  // ---------- going on with what a reallocation returned ----------

  /** A reallocation that is not refused leaves a chunk of the size asked for at the address it returns, which any
      later call may use as a context or reallocate again. Another address than the system's is the old one, and
      exactly for a shrink by less than 1024 bytes. */
  lemma ReturnedLive(H: Heap, call: Call, G: Heap) returns (q: Id)
    requires InOrder(H) && call.Realloc? && Legal(H.F, call) && Does(H, call, G) && 0 < call.size < MAX_TALLOC_SIZE
    requires call.ptr.At? ==> call.ptr.a in H.F.refs && H.F.refs[call.ptr.a] == []
    ensures q == call.to || call.ptr == At(q)
    ensures call.ptr.At? ==> call.ptr.a in H.size
    ensures call.ptr.At? && call.size < H.size[call.ptr.a] && H.size[call.ptr.a] - call.size < 1024 ==> q == call.ptr.a
    ensures q != call.to ==> q in H.size && call.size < H.size[q] && H.size[q] - call.size < 1024
    ensures Context(G.F, At(q)) && q in G.size && G.size[q] == call.size && q in G.F.refs && G.F.refs[q] == []
  {
    hide Quiet, WF, MayFree, Moves, Renamed, Add;
    StepSafe(H, call, G);
    QuietParts(H.F);
    QuietParts(G.F);
    var p := call.ptr;
    if p.Null? {
      q := call.to;
      AddUp(H.F, call.ctx, q);
      FreshNoTarget(H.F, q);
    } else if G.F == H.F && p.a in G.size && G.size[p.a] == call.size {
      q := p.a;
    } else {
      q := call.to;
      RenamedFields(H.F, p.a, q);
      FreshNoTarget(H.F, q);
    }
  }

  lemma FreshNoTarget(F: Forest, q: Id)
    requires WF(F) && q !in F.up
    ensures q !in F.target
  {}

  lemma SafeFrom(H: Heap, calls: seq<Call>)
    requires calls != [] && Legal(H.F, calls[0]) && forall G :: Does(H, calls[0], G) ==> Safe(G, calls[1..])
    ensures Safe(H, calls)
  {
    hide Does, Legal;
  }

  ghost function Single(x: Id): Forest {
    Forest(map[x := Null], map[x := []], map[x := []], map[], {}, map[])
  }

  lemma SingleQuiet(x: Id)
    ensures Quiet(EMPTY_FOREST) && Quiet(Single(x)) && Single(x) == Add(EMPTY_FOREST, Null, x)
  {
    EmptyForestWF();
    AddWF(EMPTY_FOREST, Null, x);
    assert Single(x).up == Add(EMPTY_FOREST, Null, x).up;
    hide WF;
  }

  lemma SingleMoves(x: Id, y: Id)
    requires x != y
    ensures Moves(Single(x), x, y) && Renamed(Single(x), x, y) == Single(y)
  {
    SingleQuiet(x);
    hide WF;
    assert Renamed(Single(x), x, y).up == Single(y).up;
    assert Renamed(Single(x), x, y).kids == Single(y).kids;
    assert Renamed(Single(x), x, y).refs == Single(y).refs;
  }

  lemma LastCall(H: Heap)
    requires Quiet(H.F) && H.F == Add(Single(2), At(2), 3)
    ensures Safe(H, [Free(At(2))])
  {
    hide WF, Does, Subtree;
    SafeFrom(H, [Free(At(2))]);
  }

  lemma UseMoved()
    ensures Safe(Heap(Single(2), map[2 := 2000], map[1 := 10, 2 := 2000]), [Alloc(At(2), 4, 3), Free(At(2))])
  {
    hide WF, Safe, Add, MayFree;
    var H, calls := Heap(Single(2), map[2 := 2000], map[1 := 10, 2 := 2000]), [Alloc(At(2), 4, 3), Free(At(2))];
    SingleQuiet(2);
    AllocStep(Single(2), At(2), 3);
    forall G | Does(H, calls[0], G) ensures Safe(G, calls[1..]) {
      LastCall(G);
    }
    SafeFrom(H, calls);
  }

  lemma MoveSafe()
    ensures Safe(Heap(Single(1), map[1 := 10], map[1 := 10]),
                 [Realloc(Null, At(1), 2000, 2), Alloc(At(2), 4, 3), Free(At(2))])
  {
    hide WF, Safe, Add, MayFree, Renamed, Moves;
    var H := Heap(Single(1), map[1 := 10], map[1 := 10]);
    var calls := [Realloc(Null, At(1), 2000, 2), Alloc(At(2), 4, 3), Free(At(2))];
    SingleMoves(1, 2);
    UseMoved();
    forall G | Does(H, calls[0], G) ensures Safe(G, calls[1..]) {
      assert G == Heap(Single(2), (H.size - {1})[2 := 2000], H.room[2 := 2000]);
      assert G.size == map[2 := 2000] && G.room == map[1 := 10, 2 := 2000];
    }
    SafeFrom(H, calls);
  }

  /** A chunk that was allocated and moved by reallocations is used and freed at its new address. */
  lemma MovedThenFreed()
    ensures Safe(Heap(EMPTY_FOREST, map[], map[]),
                 [Realloc(Null, Null, 10, 1), Realloc(Null, At(1), 2000, 2), Alloc(At(2), 4, 3), Free(At(2))])
  {
    hide WF, Safe, Add, MayFree;
    var H := Heap(EMPTY_FOREST, map[], map[]);
    var calls := [Realloc(Null, Null, 10, 1), Realloc(Null, At(1), 2000, 2), Alloc(At(2), 4, 3), Free(At(2))];
    SingleQuiet(1);
    MoveSafe();
    forall G | Does(H, calls[0], G) ensures Safe(G, calls[1..]) {
      assert G == Heap(Single(1), H.size[1 := 10], H.room[1 := 10]);
    }
    SafeFrom(H, calls);
  }
}
