/** What freeing a chunk means for ownership, on whole heaps. */
module TallocTheorems {
  import opened TallocForest
  import opened TallocOwnership
  import opened TallocPaths
  import opened TallocCascade

  // ---------- no leak ----------

  /** `x` is owned, directly or not, by a chunk outside D, or by the NULL context. */
  ghost predicate OwnedFromOutside(F: Forest, x: Id, D: set<Id>) {
    || NullHeld(F, x)
    || exists y :: Owns(F, y, x) && (y !in D || NullHeld(F, y))
  }

  /** A chunk of the region that survives has an owner outside it: nothing unreachable is kept. */
  lemma {:induction false} SurvivorOwned(F0: Forest, F: Forest, D: set<Id>, x: Id, rank: map<Id, nat>)
    requires Cascade(F0, F, D) && Ranked(F.up, rank) && x in F.up && x in F.refs && x in D
    requires F.refs.Keys == F.up.Keys && F.up.Keys <= F0.up.Keys
    requires forall y :: y in F.up && y in D ==> F0.up[y].At?
    ensures OwnedFromOutside(F0, x, D)
    decreases rank[x]
  {
    if F.up[x].At? {
      var a := F.up[x].a;
      assert Owner(F, a, x);
      assert Owns(F0, a, x);
      if a in D {
        SurvivorOwned(F0, F, D, a, rank);
        if !NullHeld(F0, a) {
          var y :| Owns(F0, y, a) && (y !in D || NullHeld(F0, y));
          OwnsTrans(F0, y, a, x);
        }
      }
    }
  }

  lemma ProperlyBelow(F: Forest, p: Id)
    requires Forested(F.up) && p in F.up
    ensures forall y :: y in Subtree(F, p) && y != p ==> F.up[y].At?
  {
    forall y | y in Subtree(F, p) && y != p ensures F.up[y].At? {
      BelowStep(F.up, y, p);
    }
  }

  /** When `p` is freed, whatever of its subtree is still alive was owned from outside the subtree. */
  lemma NoLeak(F0: Forest, F: Forest, p: Id, x: Id)
    requires FreeEffect(F0, F, p, Subtree(F0, p), 0)
    requires x in Subtree(F0, p) && x in F.up
    ensures OwnedFromOutside(F0, x, Subtree(F0, p))
  {
    FreeEffectParts(F0, F, p, Subtree(F0, p), 0);
    WFParts(F);
    WFParts(F0);
    ProperlyBelow(F0, p);
    CascadeConfined(F0, F, Subtree(F0, p));
    var rank :| Ranked(F.up, rank);
    hide WF, FreeEffect, Cascade, KidsOk, RefsOk;
    SurvivorOwned(F0, F, Subtree(F0, p), x, rank);
  }

  // ---------- exactly the owned survive ----------

  /** `a` owns `c` along a chain that does not pass through `p`. */
  ghost predicate OwnPathAvoiding(F: Forest, a: Id, c: Id, p: Id, n: nat)
    decreases n
  {
    if n == 0 then Owner(F, a, c)
    else exists b :: b != p && Owner(F, a, b) && OwnPathAvoiding(F, b, c, p, n - 1)
  }

  ghost predicate OwnsAvoiding(F: Forest, a: Id, c: Id, p: Id) {
    exists n: nat :: OwnPathAvoiding(F, a, c, p, n)
  }

  lemma {:induction false} OwnPathAvoidingSnoc(F: Forest, a: Id, b: Id, c: Id, p: Id, n: nat)
    requires OwnPathAvoiding(F, a, b, p, n) && b != p && Owner(F, b, c)
    ensures OwnPathAvoiding(F, a, c, p, n + 1)
    decreases n
  {
    if n == 0 {
      assert Owner(F, a, b) && OwnPathAvoiding(F, b, c, p, 0);
    } else {
      var d :| d != p && Owner(F, a, d) && OwnPathAvoiding(F, d, b, p, n - 1);
      OwnPathAvoidingSnoc(F, d, b, c, p, n - 1);
    }
  }

  /** Ownership that avoids `p` survives the free of `p`. */
  lemma {:induction false} OwnedSurvives(F0: Forest, F: Forest, p: Id, a: Id, x: Id, n: nat)
    requires Exact(F0, F, {}, {p}) && WF(F0)
    requires a in F.up && x != p && x !in F0.target && OwnPathAvoiding(F0, a, x, p, n)
    ensures x in F.up
    decreases n
  {
    if n == 0 {
      assert Owner(F, a, x);
    } else {
      var b :| b != p && Owner(F0, a, b) && OwnPathAvoiding(F0, b, x, p, n - 1);
      OwnersNotHandles(F0, b, x, p, n - 1);
      assert Owner(F, a, b);
      OwnedSurvives(F0, F, p, b, x, n - 1);
    }
  }

  lemma OwnerNotHandle(F: Forest, a: Id, c: Id)
    requires WF(F) && Owner(F, a, c)
    ensures a !in F.target
  {}

  lemma OwnersNotHandles(F: Forest, a: Id, c: Id, p: Id, n: nat)
    requires WF(F) && OwnPathAvoiding(F, a, c, p, n)
    ensures a !in F.target
  {
    if n == 0 {
      OwnerNotHandle(F, a, c);
    } else {
      var b :| b != p && Owner(F, a, b) && OwnPathAvoiding(F, b, c, p, n - 1);
      OwnerNotHandle(F, a, b);
    }
  }

  /** A survivor is owned from outside along its surviving parents. */
  lemma {:induction false} SurvivorChain(F0: Forest, F: Forest, D: set<Id>, p: Id, x: Id, rank: map<Id, nat>)
    requires Exact(F0, F, {}, {p}) && Ranked(F.up, rank) && x in F.up && x in D && x !in F0.target
    requires F.refs.Keys == F.up.Keys && p !in F.up
    requires forall y :: y in F.up && y in D ==> F.up[y].At?
    requires forall y :: y in F.up && F.up[y].At? ==> F.up[y].a !in F0.target
    ensures exists y :: y in F.up && y !in D && OwnsAvoiding(F0, y, x, p)
    decreases rank[x]
  {
    var a := F.up[x].a;
    assert Owner(F, a, x);
    assert Owner(F0, a, x);
    if a in D {
      SurvivorChain(F0, F, D, p, a, rank);
      var y :| y in F.up && y !in D && OwnsAvoiding(F0, y, a, p);
      var n: nat :| OwnPathAvoiding(F0, y, a, p, n);
      OwnPathAvoidingSnoc(F0, y, a, x, p, n);
    } else {
      assert OwnPathAvoiding(F0, a, x, p, 0);
    }
  }

  lemma ParentsNotHandles(F0: Forest, F: Forest, D: set<Id>)
    requires WF(F) && Confined(F0, F, D)
    ensures forall y :: y in F.up && F.up[y].At? ==> F.up[y].a !in F0.target
  {
    WFParts(F);
    forall y | y in F.up && F.up[y].At? ensures F.up[y].a !in F0.target {
      ParentLive(F, y);
      assert F.up[y].a !in F.target;
    }
  }

  lemma GentleRooted(F0: Forest, F: Forest, D: set<Id>)
    requires Loosened(F0, F, D) && (forall c :: c in D ==> !NullHeld(F0, c)) && F.up.Keys <= F0.up.Keys
    requires forall y :: y in F.up && y in D ==> F0.up[y].At?
    ensures forall y :: y in F.up && y in D ==> F.up[y].At?
  {}

  lemma SurvivorHasOwner(F0: Forest, F: Forest, p: Id, x: Id)
    requires F0.flight == {} && p !in F0.target && Gentle(F0, Subtree(F0, p))
    requires FreeEffect(F0, F, p, Subtree(F0, p), 0)
    requires x in Subtree(F0, p) && x != p && x !in F0.target && x in F.up
    ensures exists y :: y in F0.up && y !in Subtree(F0, p) && OwnsAvoiding(F0, y, x, p)
  {
    var D := Subtree(F0, p);
    hide *;
    FreeEffectParts(F0, F, p, D, 0);
    WFParts(F);
    WFParts(F0);
    CascadeConfined(F0, F, D);
    ProperlyBelow(F0, p);
    CascadeLoosened(F0, F, D);
    GentleNull(F0, D);
    ConfinedLive(F0, F, D);
    GentleRooted(F0, F, D);
    ParentsNotHandles(F0, F, D);
    RefsKeyed(F);
    var rank := RankOf(F.up);
    SurvivorChain(F0, F, D, p, x, rank);
  }

  lemma RankOf(up: map<Id, Ptr>) returns (rank: map<Id, nat>)
    requires Forested(up)
    ensures Ranked(up, rank)
  {
    rank :| Ranked(up, rank);
  }

  lemma OwnedSurvivesFree(F0: Forest, F: Forest, p: Id, x: Id, y: Id)
    requires F0.flight == {} && p !in F0.target && Gentle(F0, Subtree(F0, p))
    requires FreeEffect(F0, F, p, Subtree(F0, p), 0)
    requires x != p && x !in F0.target && y in F0.up && y !in Subtree(F0, p) && OwnsAvoiding(F0, y, x, p)
    ensures x in F.up
  {
    var D := Subtree(F0, p);
    var n: nat :| OwnPathAvoiding(F0, y, x, p, n);
    hide *;
    FreeEffectParts(F0, F, p, D, 0);
    CascadeConfined(F0, F, D);
    OwnersNotHandles(F0, y, x, p, n);
    ConfinedKeeps(F0, F, D, y);
    OwnedSurvives(F0, F, p, y, x, n);
  }

  lemma ConfinedKeeps(F0: Forest, F: Forest, D: set<Id>, y: Id)
    requires Confined(F0, F, D) && y in F0.up && y !in D && y !in F0.target
    ensures y in F.up && F.up[y] == F0.up[y]
  {}

  /** Where no ownership cycle passes through the subtree of `p` and NULL holds no reference into it, freeing `p` keeps
      exactly those chunks below it that a chunk outside owns without going through `p`. */
  lemma ExactSurvival(F0: Forest, F: Forest, p: Id, x: Id)
    requires F0.flight == {} && p !in F0.target && Gentle(F0, Subtree(F0, p))
    requires FreeEffect(F0, F, p, Subtree(F0, p), 0)
    requires x in Subtree(F0, p) && x != p && x !in F0.target
    ensures x in F.up <==> exists y :: y in F0.up && y !in Subtree(F0, p) && OwnsAvoiding(F0, y, x, p)
  {
    hide Gentle, FreeEffect, OwnsAvoiding, Subtree;
    if x in F.up {
      SurvivorHasOwner(F0, F, p, x);
    }
    if y :| y in F0.up && y !in Subtree(F0, p) && OwnsAvoiding(F0, y, x, p) {
      OwnedSurvivesFree(F0, F, p, x, y);
    }
  }

  lemma GentleNull(F: Forest, D: set<Id>)
    requires Gentle(F, D)
    ensures forall c :: c in D ==> !NullHeld(F, c)
  {}

  // ---------- outside the subtree ----------

  /** Outside the subtree of `p` a free removes at most handles that refer into it, and re-parents nothing. */
  lemma OutsideUntouched(F0: Forest, F: Forest, p: Id, r: int, x: Id)
    requires FreeEffect(F0, F, p, Subtree(F0, p), r)
    requires x in F0.up && x !in Subtree(F0, p)
    ensures x in F.up || (x in F0.target && F0.target[x] in Subtree(F0, p))
    ensures x in F.up ==> F.up[x] == F0.up[x] && (x in F.target <==> x in F0.target)
  {
    FreeEffectParts(F0, F, p, Subtree(F0, p), r);
    CascadeConfined(F0, F, Subtree(F0, p));
  }

  /** A chunk held by one reference from outside its subtree loses that handle and nothing else. */
  lemma HeldByOne(F0: Forest, F: Forest, p: Id, r: int)
    requires FreeEffect(F0, F, p, Subtree(F0, p), r)
    requires p in F0.refs && F0.refs[p] != [] && F0.refs[p][0] in F0.up && !Below(F0.up, F0.refs[p][0], p)
    ensures r == -1 && F.up == F0.up - {F0.refs[p][0]}
    ensures F.refs[p] == F0.refs[p][1..] && F.target == F0.target - {F0.refs[p][0]}
  {
    FreeEffectParts(F0, F, p, Subtree(F0, p), r);
    hide FreeEffect;
    var h := F0.refs[p][0];
    NewestHandle(F0, p);
    assert h in F0.refs[p];
    assert Held(F0, p);
    RemoveHandleWF(F0, h);
    hide WF, Cascade, Exact;
    assert F == RemoveHandle(F0, h);
  }

  // ---------- when a hand-over is sound ----------

  lemma {:induction false} ClimbRedirected(up: map<Id, Ptr>, c: Id, q: Ptr, x: Id, n: nat)
    requires c in up && Climb(up, x, c, n)
    ensures Below(up[c := q], x, c)
    decreases n
  {
    if x == c {
      BelowSelf(up[c := q], c);
    } else {
      ClimbRedirected(up, c, q, up[x].a, n - 1);
      BelowStep(up[c := q], x, c);
    }
  }

  /** Re-parenting `c` under `q` keeps the heap a forest exactly when `q` is not below `c`. */
  lemma StealSoundIff(up: map<Id, Ptr>, c: Id, q: Id)
    requires Forested(up) && c in up && q in up
    ensures Forested(up[c := At(q)]) <==> !Below(up, q, c)
  {
    if Below(up, q, c) {
      var n: nat :| Climb(up, q, c, n);
      ClimbRedirected(up, c, At(q), q, n);
      if Forested(up[c := At(q)]) {
        ParentNotBelow(up[c := At(q)], c, q);
      }
    } else {
      MoveForested(up, c, At(q));
    }
  }

  /** Stripping handles of `c` changes no ancestry among the other chunks. */
  lemma {:induction false} ShedBelow(F: Forest, c: Id, x: Id, a: Id)
    requires WF(F) && c in F.up && x in F.up && x !in F.target
    ensures WF(Shed(F, c)) && x in Shed(F, c).up && x !in Shed(F, c).target && c in Shed(F, c).up
    ensures Below(Shed(F, c).up, x, a) <==> Below(F.up, x, a)
    decreases |F.refs[c]|
  {
    if F.refs[c] != [] {
      NewestHandle(F, c);
      var h := F.refs[c][0];
      assert x != h;
      RemoveHandleWF(F, h);
      hide WF, RemoveHandle, Below;
      BelowAfterRemove(F, h, x, a);
      if Below(F.up, h, c) {
        ShedBelow(RemoveHandle(F, h), c, x, a);
      }
    }
  }

  /** The child loop hands a child that stays referenced to the context of its newest reference, chosen
      before the child is freed. That is sound exactly when this context is not below the child itself. */
  lemma HandOverSoundIff(F: Forest, c: Id, q: Id)
    requires WF(F) && c in F.up && F.refs[c] != [] && Held(F, c)
    requires F.refs[c][0] in F.up && F.up[F.refs[c][0]] == At(q)
    ensures WF(Shed(F, c)) && c in Shed(F, c).up && q in Shed(F, c).up
    ensures Forested(Shed(F, c).up[c := At(q)]) <==> !Below(F.up, F.refs[c][0], c)
  {
    var h := F.refs[c][0];
    NewestHandle(F, c);
    ParentLive(F, h);
    UnrefWF(F, h);
    BelowStep(F.up, h, c);
    NotHandle(F, h, c);
    ParentNotHandle(F, h);
    ShedBelow(F, c, q, c);
    WFParts(Shed(F, c));
    hide WF, Shed, Held;
    StealSoundIff(Shed(F, c).up, c, q);
  }
}
