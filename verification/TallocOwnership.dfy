/** Who owns whom in a talloc heap, and what a free may change.
    A chunk is owned by its parent and by the context of every reference to it. */
module TallocOwnership {
  import opened TallocForest

  // ---------- ownership ----------

  ghost predicate Owner(F: Forest, a: Id, c: Id) {
    && c in F.up && c in F.refs
    && (F.up[c] == At(a) || exists h :: h in F.refs[c] && h in F.up && F.up[h] == At(a))
  }

  ghost predicate OwnPath(F: Forest, a: Id, c: Id, n: nat)
    decreases n
  {
    if n == 0 then Owner(F, a, c) else exists b :: Owner(F, a, b) && OwnPath(F, b, c, n - 1)
  }

  /** `a` owns `c` directly or through other chunks. */
  ghost predicate Owns(F: Forest, a: Id, c: Id) {
    exists n: nat :: OwnPath(F, a, c, n)
  }

  ghost predicate NullHeld(F: Forest, c: Id) {
    c in F.refs && exists h :: h in F.refs[c] && h in F.up && F.up[h] == Null
  }

  lemma OwnerOwns(F: Forest, a: Id, c: Id)
    requires Owner(F, a, c)
    ensures Owns(F, a, c)
  {
    assert OwnPath(F, a, c, 0);
  }

  lemma {:induction false} OwnPathTrans(F: Forest, a: Id, b: Id, c: Id, m: nat, n: nat)
    requires OwnPath(F, a, b, m) && OwnPath(F, b, c, n)
    ensures OwnPath(F, a, c, m + n + 1)
    decreases m
  {
    if m == 0 {
      assert Owner(F, a, b) && OwnPath(F, b, c, n);
    } else {
      var d :| Owner(F, a, d) && OwnPath(F, d, b, m - 1);
      OwnPathTrans(F, d, b, c, m - 1, n);
    }
  }

  lemma OwnsTrans(F: Forest, a: Id, b: Id, c: Id)
    requires Owns(F, a, b) && Owns(F, b, c)
    ensures Owns(F, a, c)
  {
    var m: nat :| OwnPath(F, a, b, m);
    var n: nat :| OwnPath(F, b, c, n);
    OwnPathTrans(F, a, b, c, m, n);
  }

  lemma {:induction false} ClimbOwns(F: Forest, x: Id, a: Id, n: nat)
    requires Shape(F) && Forested(F.up) && x in F.up && n > 0 && Climb(F.up, x, a, n)
    ensures Owns(F, a, x)
    decreases n
  {
    var b := F.up[x].a;
    OwnerOwns(F, b, x);
    if n > 1 {
      ParentLive(F, x);
      ClimbOwns(F, b, a, n - 1);
      OwnsTrans(F, a, b, x);
    }
  }

  lemma AncestorOwns(F: Forest, x: Id, a: Id)
    requires Shape(F) && Forested(F.up) && x in F.up && x != a && Below(F.up, x, a)
    ensures Owns(F, a, x)
  {
    var n: nat :| Climb(F.up, x, a, n);
    ClimbOwns(F, x, a, n);
  }

  // ---------- ownership never grows ----------

  /** Every ownership link of F was already a chain of links of F0. */
  ghost predicate Tightens(F0: Forest, F: Forest) {
    forall a, c :: Owner(F, a, c) ==> Owns(F0, a, c)
  }

  lemma {:induction false} TightensPath(F0: Forest, F: Forest, a: Id, c: Id, n: nat)
    requires Tightens(F0, F) && OwnPath(F, a, c, n)
    ensures Owns(F0, a, c)
    decreases n
  {
    if n > 0 {
      var b :| Owner(F, a, b) && OwnPath(F, b, c, n - 1);
      TightensPath(F0, F, b, c, n - 1);
      OwnsTrans(F0, a, b, c);
    }
  }

  lemma TightensOwns(F0: Forest, F: Forest)
    requires Tightens(F0, F)
    ensures forall a, c :: Owns(F, a, c) ==> Owns(F0, a, c)
  {
    forall a, c | Owns(F, a, c) ensures Owns(F0, a, c) {
      var n: nat :| OwnPath(F, a, c, n);
      TightensPath(F0, F, a, c, n);
    }
  }

  lemma TightensTrans(F0: Forest, F1: Forest, F2: Forest)
    requires Tightens(F0, F1) && Tightens(F1, F2)
    ensures Tightens(F0, F2)
  {
    TightensOwns(F0, F1);
  }

  lemma TightensSelf(F0: Forest, F: Forest)
    requires forall a, c :: Owner(F, a, c) ==> Owner(F0, a, c)
    ensures Tightens(F0, F)
  {
    forall a, c | Owner(F, a, c) ensures Owns(F0, a, c) {
      OwnerOwns(F0, a, c);
    }
  }

  // ---------- what a free cascade confined to D may do ----------

  /** Liveness, handles, and the links of chunks outside D. */
  ghost predicate Confined(F0: Forest, F: Forest, D: set<Id>) {
    && F.up.Keys <= F0.up.Keys
    && (forall x :: x in F0.up && x !in F.up ==> x in D || (x in F0.target && F0.target[x] in D))
    && (forall h :: h in F.target <==> h in F0.target && h in F.up)
    && (forall h :: h in F.target && h in F.up ==> F.target[h] == F0.target[h] && F.up[h] == F0.up[h])
    && (forall x :: x in F.up && x !in D ==> F.up[x] == F0.up[x])
  }

  /** References only disappear, a chunk becomes a root only if NULL held it, and one that moved lost a reference. */
  ghost predicate Loosened(F0: Forest, F: Forest, D: set<Id>) {
    && F.refs.Keys <= F0.refs.Keys
    && (forall c :: c in F.refs ==> |F.refs[c]| <= |F0.refs[c]|)
    && (forall c :: NullHeld(F, c) ==> NullHeld(F0, c))
    && (forall x :: x in F.up && x in F0.up && F.up[x] == Null ==> F0.up[x] == Null || NullHeld(F0, x))
    && (forall c :: c in F.refs && |F.refs[c]| == |F0.refs[c]| ==> F.refs[c] == F0.refs[c])
    && (forall c :: c in F.refs && c in F.up && c in F0.up && F.up[c] != F0.up[c] ==> |F.refs[c]| < |F0.refs[c]|)
  }

  ghost predicate Cascade(F0: Forest, F: Forest, D: set<Id>) {
    Confined(F0, F, D) && Loosened(F0, F, D) && Tightens(F0, F)
  }

  lemma ConfinedTrans(F0: Forest, F1: Forest, F2: Forest, D: set<Id>)
    requires Confined(F0, F1, D) && Confined(F1, F2, D)
    ensures Confined(F0, F2, D)
  {}

  lemma LoosenedTrans(F0: Forest, F1: Forest, F2: Forest, D: set<Id>)
    requires Loosened(F0, F1, D) && Loosened(F1, F2, D) && F2.up.Keys <= F1.up.Keys
    ensures Loosened(F0, F2, D)
  {}

  lemma CascadeTrans(F0: Forest, F1: Forest, F2: Forest, D: set<Id>)
    requires Cascade(F0, F1, D) && Cascade(F1, F2, D)
    ensures Cascade(F0, F2, D)
  {
    ConfinedTrans(F0, F1, F2, D);
    LoosenedTrans(F0, F1, F2, D);
    TightensTrans(F0, F1, F2);
  }

  lemma CascadeSelf(F: Forest, D: set<Id>)
    requires Shape(F)
    ensures Cascade(F, F, D)
  {
    TightensSelf(F, F);
  }

  lemma CascadeWiden(F0: Forest, F: Forest, D: set<Id>, E: set<Id>)
    requires Cascade(F0, F, D) && D <= E
    ensures Cascade(F0, F, E)
  {}

  // ---------- ownership kept exactly ----------

  /** Outside the owners A and the owned X, F and F0 have the same ownership links (handles aside). */
  ghost predicate Exact(F0: Forest, F: Forest, A: set<Id>, X: set<Id>) {
    forall a, c :: a in F.up && a !in A && c !in F0.target && c !in X ==>
      (Owner(F, a, c) <==> Owner(F0, a, c))
  }

  lemma ExactTrans(F0: Forest, F1: Forest, F2: Forest, A: set<Id>, X: set<Id>)
    requires Exact(F0, F1, A, X) && Exact(F1, F2, A, X)
    requires F2.up.Keys <= F1.up.Keys && F1.target.Keys <= F0.target.Keys
    ensures Exact(F0, F2, A, X)
  {}

  /** What makes hand-overs exact: no ownership cycle passes through D, and NULL holds no reference into D. */
  ghost predicate Gentle(F: Forest, D: set<Id>) {
    forall c :: c in D ==> !Owns(F, c, c) && !NullHeld(F, c)
  }

  lemma GentleStays(F0: Forest, F: Forest, D: set<Id>, E: set<Id>)
    requires Gentle(F0, D) && Cascade(F0, F, E)
    ensures Gentle(F, D)
  {
    TightensOwns(F0, F);
  }

  // ---------- what a free cascade needs ----------

  /** D contains everything below its members. */
  ghost predicate DownClosed(F: Forest, D: set<Id>) {
    forall x :: x in F.up && F.up[x].At? && F.up[x].a in D ==> x in D
  }

  /** A chunk of D with several references is on no ownership cycle. */
  ghost predicate Steady(F: Forest, D: set<Id>) {
    forall c :: c in D && c in F.refs && |F.refs[c]| >= 2 ==> !Owns(F, c, c)
  }

  /** `s` is neither moved nor freed by a cascade within D. */
  ghost predicate Bystander(F: Forest, D: set<Id>, s: Id) {
    s !in D && (s in F.target ==> F.target[s] !in D)
  }

  /** Asking whether the newest reference of a chunk of D is from below that chunk never leads up to `f`: its
      references are from below itself or from elsewhere than below `f`. */
  ghost predicate Unread(F: Forest, D: set<Id>, f: Id) {
    forall c, h :: c in D && c in F.refs && h in F.refs[c] && Below(F.up, h, f) ==> Below(F.up, h, c)
  }

  ghost predicate NullFree(F: Forest, D: set<Id>) {
    forall c :: c in D ==> !NullHeld(F, c)
  }

  /** The `prev` link left in `f` outlives a cascade within D, or the searches of the cascade do not read it. */
  ghost predicate Guarded(F: Forest, D: set<Id>, f: Id)
    requires f in F.stale
  {
    (LivePrev(F, f) && Bystander(F, D, F.stale[f])) || Unread(F, D, f)
  }

  ghost predicate StaleSafe(F: Forest, D: set<Id>) {
    forall f :: f in F.stale ==> Guarded(F, D, f)
  }

  /** When `p` is freed, the link to the sibling before it is never followed after that sibling is gone: a reference
      keeps `p`, or the sibling stays, or nothing below `p` leads the free back through `p`. */
  ghost predicate PrevSafe(F: Forest, D: set<Id>, p: Id)
    requires p in F.up && (F.up[p].At? ==> F.up[p].a in F.kids)
  {
    PrevOf(F, p).At? ==>
      Held(F, p) || Bystander(F, D, PrevOf(F, p).a) || (Unread(F, D, p) && NullFree(F, D - {p}))
  }

  /** While the children of `p` within D are freed, nothing goes back through `p` to a sibling that is gone. */
  ghost predicate OwnPrev(F: Forest, D: set<Id>, p: Id) {
    p in F.stale ==> (LivePrev(F, p) && Bystander(F, D, F.stale[p])) || (Unread(F, D, p) && NullFree(F, D))
  }

  /** The region of a cascade. */
  ghost predicate Region(F: Forest, D: set<Id>) {
    D !! F.flight && DownClosed(F, D) && StaleSafe(F, D)
  }

  /** The region of the loop over the children of `p`; the link left in `p` itself is another matter. */
  ghost predicate ChildRegion(F: Forest, D: set<Id>, p: Id) {
    D !! F.flight && DownClosed(F, D) && forall f :: f in F.stale && f != p ==> Guarded(F, D, f)
  }

  ghost predicate Freeable(F: Forest, D: set<Id>, p: Id)
    requires WF(F) && p in F.up
  {
    && p in D && Region(F, D) && Steady(F, D - {p})
    && (F.up[p].At? ==> F.up[p].a !in D && F.up[p].a in F.kids && PrevSafe(F, D, p))
  }

  /** Between F0 and F, chunks still below `f` were below it, and below whatever of their ancestors is left. */
  ghost predicate Trail(F0: Forest, F: Forest, f: Id) {
    && (forall x :: x in F.up && Below(F.up, x, f) ==> Below(F0.up, x, f))
    && (forall x, y :: x in F.up && Below(F.up, x, f) && y in F.up && y !in F.flight && Below(F0.up, x, y)
          ==> Below(F.up, x, y))
  }

  ghost predicate Trails(F0: Forest, F: Forest, D: set<Id>) {
    forall f :: f in F0.up && f !in F0.target && f !in D && Unread(F0, D, f) ==> Trail(F0, F, f)
  }

  lemma LivePrevStays(F0: Forest, F: Forest, D: set<Id>, f: Id)
    requires f in F0.stale && LivePrev(F0, f) && Bystander(F0, D, F0.stale[f]) && f !in D
    requires Confined(F0, F, D) && F.flight == F0.flight && F.stale == F0.stale && f in F.up
    ensures LivePrev(F, f) && Bystander(F, D, F.stale[f])
  {}

  lemma UnreadStays(F0: Forest, F: Forest, D: set<Id>, f: Id)
    requires Unread(F0, D, f) && Trail(F0, F, f) && Confined(F0, F, D) && D !! F.flight
    requires Shape(F0) && Shape(F) && RefsOk(F0.refs, F0.target) && RefsOk(F.refs, F.target)
    ensures Unread(F, D, f)
  {
    forall c, h | c in D && c in F.refs && h in F.refs[c] && Below(F.up, h, f)
      ensures Below(F.up, h, c)
    {
      assert h in F.target && F.target[h] == c;
      assert h in F0.refs[c] && Below(F0.up, h, f);
    }
  }

  lemma GuardStays(F0: Forest, F: Forest, D: set<Id>, f: Id)
    requires WF(F0) && WF(F) && f in F0.stale && Guarded(F0, D, f) && f !in D && D !! F.flight
    requires Confined(F0, F, D) && Trails(F0, F, D) && F.flight == F0.flight && F.stale == F0.stale
    ensures Guarded(F, D, f)
  {
    WFParts(F0);
    WFParts(F);
    StaleInUp(F);
    StaleInUp(F0);
    hide WF, Unread, LivePrev, Bystander, KidsOk, RefsOk, Forested, Trail, Confined;
    if Unread(F0, D, f) {
      UnreadStays(F0, F, D, f);
    } else {
      LivePrevStays(F0, F, D, f);
    }
  }

  lemma RegionStays(F0: Forest, F: Forest, D: set<Id>)
    requires WF(F0) && WF(F)
    requires Region(F0, D) && Confined(F0, F, D) && F.flight == F0.flight && F.stale == F0.stale
    requires F0.stale != map[] ==> Trails(F0, F, D)
    ensures Region(F, D)
  {
    StaleInUp(F);
    hide WF, Guarded, Confined, Trails;
    DownClosedStays(F0, F, D);
    forall f | f in F.stale ensures Guarded(F, D, f) {
      GuardStays(F0, F, D, f);
    }
  }

  lemma ChildRegionStays(F0: Forest, F: Forest, D: set<Id>, p: Id)
    requires WF(F0) && WF(F)
    requires ChildRegion(F0, D, p) && Confined(F0, F, D) && F.flight == F0.flight && F.stale == F0.stale
    requires F0.stale != map[] ==> Trails(F0, F, D)
    ensures ChildRegion(F, D, p)
  {
    StaleInUp(F);
    hide WF, Guarded, Confined, Trails;
    DownClosedStays(F0, F, D);
    forall f | f in F.stale && f != p ensures Guarded(F, D, f) {
      GuardStays(F0, F, D, f);
    }
  }

  lemma DownClosedStays(F0: Forest, F: Forest, D: set<Id>)
    requires DownClosed(F0, D) && Confined(F0, F, D)
    ensures DownClosed(F, D)
  {}

  lemma StaleInUp(F: Forest)
    requires WF(F)
    ensures forall f :: f in F.stale ==> f in F.flight && f in F.up && f !in F.target
  {}

  lemma SteadyStays(F0: Forest, F: Forest, D: set<Id>, E: set<Id>)
    requires Steady(F0, D) && Cascade(F0, F, E)
    ensures Steady(F, D)
  {
    TightensOwns(F0, F);
  }

  // ---------- the effect of each step ----------

  lemma SameLinks(F0: Forest, F: Forest)
    requires F.up == F0.up && F.refs == F0.refs
    ensures forall a, c :: Owner(F, a, c) <==> Owner(F0, a, c)
    ensures forall c :: NullHeld(F, c) <==> NullHeld(F0, c)
  {}

  lemma DetachCascade(F: Forest, p: Id, D: set<Id>)
    requires WF(F) && p in F.up
    ensures F.up[p].At? ==> F.up[p].a in F.kids
    ensures Cascade(F, Detach(F, p), D)
    ensures forall A, X :: Exact(F, Detach(F, p), A, X)
  {
    if F.up[p].At? {
      ParentLive(F, p);
    }
    SameLinks(F, Detach(F, p));
    TightensSelf(F, Detach(F, p));
  }

  lemma DropOwners(F: Forest, p: Id)
    requires RefsOk(F.refs, F.target) && F.target.Keys <= F.up.Keys && p !in F.target
    ensures forall a, c :: Owner(Drop(F, p), a, c) <==> Owner(F, a, c) && c != p
    ensures forall c :: NullHeld(Drop(F, p), c) <==> NullHeld(F, c) && c != p
  {
    assert forall c, h :: c in F.refs && h in F.refs[c] ==> h != p && h in F.up;
  }

  lemma DropCascade(F: Forest, p: Id, D: set<Id>)
    requires WF(F) && p in F.flight && p in D
    requires forall x :: x in F.up ==> F.up[x] != At(p)
    ensures Cascade(F, Drop(F, p), D)
    ensures forall A, X :: p in X ==> Exact(F, Drop(F, p), A, X)
  {
    DropOwners(F, p);
    TightensSelf(F, Drop(F, p));
    assert p !in F.target;
  }

  lemma HandleGone(F: Forest, refs: map<Id, seq<Id>>, h: Id)
    requires RefsOk(F.refs, F.target) && h in F.target
    requires refs == F.refs[F.target[h] := Without(F.refs[F.target[h]], h)] - {h}
    ensures forall c, k :: c in refs ==> (k in refs[c] <==> k in F.refs[c] && k != h)
  {
    var t := F.target[h];
    assert t in F.refs;
    WithoutMembers(F.refs[t], h);
  }

  lemma FewerRefs(F: Forest, R: Forest, h: Id, t: Id)
    requires R.up == F.up - {h} && R.refs.Keys == F.refs.Keys - {h}
    requires forall c, k :: c in R.refs ==> (k in R.refs[c] <==> k in F.refs[c] && k != h)
    requires forall c :: c in F.refs && h in F.refs[c] ==> c == t
    ensures forall a, c :: Owner(R, a, c) ==> Owner(F, a, c)
    ensures forall a, c :: Owner(F, a, c) && c != h && c != t ==> Owner(R, a, c)
    ensures forall a :: Owner(F, a, t) && t != h ==> Owner(R, a, t) || (h in F.up && F.up[h] == At(a))
    ensures forall c :: NullHeld(R, c) ==> NullHeld(F, c)
  {}

  /** Removing a handle takes away one ownership of its target and nothing else. */
  lemma RemoveHandleOwners(F: Forest, R: Forest, h: Id)
    requires RefsOk(F.refs, F.target) && h in F.target && F.refs.Keys == F.up.Keys && F.target.Keys <= F.up.Keys
    requires R.up == F.up - {h}
    requires R.refs == F.refs[F.target[h] := Without(F.refs[F.target[h]], h)] - {h}
    ensures forall a, c :: Owner(R, a, c) ==> Owner(F, a, c)
    ensures forall a, c :: Owner(F, a, c) && c != h && c != F.target[h] ==> Owner(R, a, c)
    ensures forall a :: Owner(F, a, F.target[h]) && F.target[h] != h ==> Owner(R, a, F.target[h]) || F.up[h] == At(a)
    ensures forall c :: NullHeld(R, c) ==> NullHeld(F, c)
  {
    HandleGone(F, R.refs, h);
    FewerRefs(F, R, h, F.target[h]);
  }

  lemma {:induction false} WithoutLength(s: seq<Id>, c: Id)
    ensures |Without(s, c)| <= |s|
    ensures c in s ==> |Without(s, c)| == |s| - 1
  {
    if s != [] {
      WithoutLength(s[1..], c);
    }
  }

  lemma RemoveHandleLoosens(F: Forest, R: Forest, h: Id, D: set<Id>)
    requires RefsOk(F.refs, F.target) && h in F.target && F.refs.Keys == F.up.Keys && F.target.Keys <= F.up.Keys
    requires R.up == F.up - {h}
    requires R.refs == F.refs[F.target[h] := Without(F.refs[F.target[h]], h)] - {h}
    ensures Loosened(F, R, D)
  {
    RemoveHandleOwners(F, R, h);
    WithoutLength(F.refs[F.target[h]], h);
  }

  lemma RemoveHandleCascade(F: Forest, h: Id, D: set<Id>)
    requires WF(F) && h in F.target && (h in D || F.target[h] in D)
    ensures Cascade(F, RemoveHandle(F, h), D)
    ensures forall A, X :: F.target[h] in X ==> Exact(F, RemoveHandle(F, h), A, X)
  {
    var R := RemoveHandle(F, h);
    RemoveHandleWF(F, h);
    RemoveHandleOwners(F, R, h);
    TightensSelf(F, R);
    RemoveHandleLoosens(F, R, h, D);
  }

  lemma MoveOwners(F: Forest, c: Id, q: Ptr)
    requires Shape(F) && RefsOk(F.refs, F.target) && c in F.up && (F.up[c].At? ==> F.up[c].a in F.kids)
    requires c !in F.target && (q.At? ==> q.a in F.kids)
    ensures forall a, x :: x != c ==> (Owner(Move(F, c, q), a, x) <==> Owner(F, a, x))
    ensures forall a :: Owner(Move(F, c, q), a, c) ==> Owner(F, a, c) || q == At(a)
    ensures forall a :: Owner(F, a, c) ==> Owner(Move(F, c, q), a, c) || F.up[c] == At(a)
    ensures q.At? ==> Owner(Move(F, c, q), q.a, c)
    ensures forall x :: NullHeld(Move(F, c, q), x) <==> NullHeld(F, x)
  {
    var G := Move(F, c, q);
    assert forall x, h :: x in F.refs && h in F.refs[x] ==> h != c;
    assert forall h :: h in F.target ==> G.up[h] == F.up[h];
  }

  // ---------- freeing a referenced chunk ----------

  lemma NewestHandle(F: Forest, p: Id)
    requires WF(F) && p in F.up && F.refs[p] != []
    ensures var h := F.refs[p][0];
      && h in F.target && F.target[h] == p && h != p && h in F.up && p !in F.target && h !in F.flight
      && WF(RemoveHandle(F, h))
      && p in RemoveHandle(F, h).up
      && RemoveHandle(F, h).refs[p] == F.refs[p][1..]
  {
    var h := F.refs[p][0];
    assert h in F.refs[p];
    assert F.refs[h] == [] && h !in F.flight;
    RemoveHandleWF(F, h);
    assert Without(F.refs[p], h) == F.refs[p][1..];
    assert forall x :: x in F.refs[p][1..] ==> x in F.refs[p];
  }

  /** Some reference to `p` comes from outside the subtree of `p`. */
  ghost predicate Held(F: Forest, p: Id) {
    p in F.refs && exists h :: h in F.refs[p] && !Below(F.up, h, p)
  }

  /** What the reference branch of `_talloc_free` strips: newest handles first, up to and including the
      first one whose owner is not inside the subtree of `p`. */
  ghost function Shed(F: Forest, p: Id): Forest
    requires WF(F) && p in F.up
    decreases |F.refs[p]|
  {
    if F.refs[p] == [] then F else
      NewestHandle(F, p);
      var h := F.refs[p][0];
      if Below(F.up, h, p) then Shed(RemoveHandle(F, h), p) else RemoveHandle(F, h)
  }

  lemma BelowAfterRemove(F: Forest, h: Id, x: Id, a: Id)
    requires WF(F) && h in F.target && x != h
    ensures Below(RemoveHandle(F, h).up, x, a) <==> Below(F.up, x, a)
  {
    RemoveHandleWF(F, h);
    BelowDrop(F.up, h, x, a);
  }

  lemma BelowAfterNewest(F: Forest, p: Id)
    requires WF(F) && p in F.up && F.refs[p] != []
    ensures var h := F.refs[p][0];
      && h in F.target && p in RemoveHandle(F, h).up && WF(RemoveHandle(F, h))
      && RemoveHandle(F, h).refs[p] == F.refs[p][1..]
      && forall k :: k in F.refs[p][1..] ==> (Below(RemoveHandle(F, h).up, k, p) <==> Below(F.up, k, p))
  {
    hide WF, RemoveHandle, Below;
    NewestHandle(F, p);
    WFLists(F);
    var h := F.refs[p][0];
    forall k | k in F.refs[p][1..]
      ensures Below(RemoveHandle(F, h).up, k, p) <==> Below(F.up, k, p)
    {
      assert k != h;
      BelowAfterRemove(F, h, k, p);
    }
  }

  lemma HeldStep(F: Forest, p: Id)
    requires WF(F) && p in F.up && F.refs[p] != []
    ensures var h := F.refs[p][0];
      && h in F.target && p in RemoveHandle(F, h).up && WF(RemoveHandle(F, h))
      && (Held(F, p) <==> !Below(F.up, h, p) || Held(RemoveHandle(F, h), p))
  {
    hide WF, RemoveHandle, Below;
    BelowAfterNewest(F, p);
    WFLists(F);
    WFLists(RemoveHandle(F, F.refs[p][0]));
    assert forall k :: k in F.refs[p] <==> k == F.refs[p][0] || k in F.refs[p][1..];
  }

  /** A reference from below the chunk itself closes an ownership cycle. */
  lemma BackReferenceCycles(F: Forest, h: Id, c: Id)
    requires Shape(F) && Forested(F.up) && c in F.up && h in F.refs[c] && h in F.up && h != c && Below(F.up, h, c)
    ensures Owns(F, c, c)
  {
    BelowStep(F.up, h, c);
    var q := F.up[h].a;
    ParentLive(F, h);
    OwnerOwns(F, q, c);
    if q != c {
      AncestorOwns(F, q, c);
      OwnsTrans(F, c, q, c);
    }
  }

  /** A held chunk off every cycle, or with one reference, loses exactly its newest handle. */
  lemma HeldHead(F: Forest, c: Id)
    requires WF(F) && c in F.up && Held(F, c)
    requires |F.refs[c]| >= 2 ==> !Owns(F, c, c)
    ensures F.refs[c] != [] && F.refs[c][0] in F.target && !Below(F.up, F.refs[c][0], c)
    ensures Shed(F, c) == RemoveHandle(F, F.refs[c][0])
  {
    NewestHandle(F, c);
    var h := F.refs[c][0];
    if Below(F.up, h, c) {
      BackReferenceCycles(F, h, c);
      HeldStep(F, c);
    }
  }

  // ---------- the hand-over of an abandoned child ----------

  /** Who receives a child `c` of `p` that stays referenced: the context of its newest reference, or
      else whatever is above `p`. */
  ghost function Receiver(F: Forest, p: Id, c: Id): Ptr
    requires c in F.refs && p in F.up && F.refs[c] != [] && F.refs[c][0] in F.up
  {
    if F.up[F.refs[c][0]].At? then F.up[F.refs[c][0]] else F.up[p]
  }

  lemma ReceiverOutside(F: Forest, p: Id, c: Id)
    requires WF(F) && c in F.up && F.up[c] == At(p) && F.refs[c] != []
    requires !Below(F.up, F.refs[c][0], c)
    ensures p in F.up && F.refs[c][0] in F.up
    ensures var q := Receiver(F, p, c); q.At? ==> q.a in F.up && q.a !in F.target && !Below(F.up, q.a, c)
  {
    NewestHandle(F, c);
    ParentLive(F, c);
    var h := F.refs[c][0];
    if F.up[h].At? {
      ParentLive(F, h);
      BelowStep(F.up, h, c);
    } else if F.up[p].At? {
      ParentLive(F, p);
      ParentNotBelow(F.up, p, F.up[p].a);
      if Below(F.up, F.up[p].a, c) {
        BelowSelf(F.up, p);
        BelowStep(F.up, c, p);
        BelowTrans(F.up, F.up[p].a, c, p);
      }
    }
  }

  lemma ReceiverStays(F: Forest, h: Id, c: Id, q: Id)
    requires WF(F) && h in F.target
    requires q in F.up && q !in F.target && !Below(F.up, q, c)
    ensures var R := RemoveHandle(F, h);
      q in R.up && q in R.kids && q !in R.target && !Below(R.up, q, c)
  {
    RemoveHandleWF(F, h);
    BelowAfterRemove(F, h, q, c);
  }

  lemma ChildStays(F: Forest, h: Id, c: Id, p: Id)
    requires WF(F) && h in F.target
    requires c in F.up && c != h && c !in F.flight && F.up[c] == At(p)
    ensures var R := RemoveHandle(F, h);
      WF(R) && c in R.up && c !in R.flight && R.up[c] == At(p) && p in R.kids && R.stale == F.stale
  {
    RemoveHandleWF(F, h);
    ParentLive(F, c);
    UnrefWF(F, h);
  }

  /** The hand-over keeps the forest well formed. */
  lemma HandOverWF(F: Forest, p: Id, c: Id)
    requires WF(F) && c in F.up && c !in F.flight && F.up[c] == At(p) && c in F.refs && F.refs[c] != []
    requires !Below(F.up, F.refs[c][0], c)
    ensures p in F.up && F.refs[c][0] in F.target && F.refs[c][0] in F.up
    ensures var R := RemoveHandle(F, F.refs[c][0]); var q := Receiver(F, p, c);
      && WF(R) && c in R.up && c !in R.flight && R.up[c] == At(p) && p in R.kids
      && (q.At? ==> q.a in R.up && q.a in R.kids && q.a !in R.target && !Below(R.up, q.a, c))
  {
    hide WF, RemoveHandle, Below;
    NewestHandle(F, c);
    ReceiverOutside(F, p, c);
    var h := F.refs[c][0];
    ChildStays(F, h, c, p);
    if Receiver(F, p, c).At? {
      ReceiverStays(F, h, c, Receiver(F, p, c).a);
    }
  }

  lemma HandOverTightens(F: Forest, R: Forest, G: Forest, p: Id, c: Id, q: Ptr)
    requires forall a, x :: Owner(R, a, x) ==> Owner(F, a, x)
    requires forall a, x :: x != c ==> (Owner(G, a, x) <==> Owner(R, a, x))
    requires forall a :: Owner(G, a, c) ==> Owner(R, a, c) || q == At(a)
    requires q.At? ==> Owns(F, q.a, c)
    ensures Tightens(F, G)
  {
    forall a, x | Owner(G, a, x) ensures Owns(F, a, x) {
      if Owner(F, a, x) {
        OwnerOwns(F, a, x);
      }
    }
  }

  lemma ReceiverOwned(F: Forest, p: Id, c: Id)
    requires WF(F) && c in F.up && F.up[c] == At(p) && F.refs[c] != []
    ensures p in F.up && F.refs[c][0] in F.up
    ensures Receiver(F, p, c).At? ==> Owns(F, Receiver(F, p, c).a, c)
    ensures F.up[F.refs[c][0]].At? ==> Owner(F, F.up[F.refs[c][0]].a, c)
    ensures Receiver(F, p, c).Null? ==> NullHeld(F, c)
  {
    NewestHandle(F, c);
    ParentLive(F, c);
    var h := F.refs[c][0];
    if F.up[h].At? {
      OwnerOwns(F, F.up[h].a, c);
    } else if F.up[p].At? {
      OwnerOwns(F, p, c);
      OwnerOwns(F, F.up[p].a, p);
      OwnsTrans(F, F.up[p].a, p, c);
    }
  }

  lemma HandOverLinks(F: Forest, p: Id, c: Id, D: set<Id>)
    requires WF(F) && c in F.up && c !in F.flight && F.up[c] == At(p) && c in F.refs && F.refs[c] != []
    requires !Below(F.up, F.refs[c][0], c)
    ensures p in F.up && F.refs[c][0] in F.target && F.refs[c][0] in F.up && F.target[F.refs[c][0]] == c
    ensures var h := F.refs[c][0]; var R := RemoveHandle(F, h);
      && WF(R) && Loosened(F, R, D) && c in R.up && c !in R.target
      && c in R.refs && |R.refs[c]| < |F.refs[c]|
      && R.up == F.up - {h} && R.target == F.target - {h} && R.refs.Keys == F.refs.Keys - {h}
      && (forall a, c :: Owner(R, a, c) ==> Owner(F, a, c))
      && (forall a, x :: Owner(F, a, x) && x != h && x != c ==> Owner(R, a, x))
      && (forall a :: Owner(F, a, c) ==> Owner(R, a, c) || F.up[h] == At(a))
  {
    NewestHandle(F, c);
    hide WF, RemoveHandle, Below;
    ChildStays(F, F.refs[c][0], c, p);
    RemoveHandleWF(F, F.refs[c][0]);
    WFLists(F);
    RemoveHandleOwners(F, RemoveHandle(F, F.refs[c][0]), F.refs[c][0]);
    RemoveHandleLoosens(F, RemoveHandle(F, F.refs[c][0]), F.refs[c][0], D);
  }

  lemma WFLists(F: Forest)
    requires WF(F)
    ensures Shape(F) && RefsOk(F.refs, F.target)
  {}

  lemma HandOverConfined(F: Forest, R: Forest, c: Id, q: Ptr, D: set<Id>)
    requires WF(F) && c in F.refs && F.refs[c] != [] && c in D
    requires F.refs[c][0] in F.target && F.target[F.refs[c][0]] == c
    requires R.up == F.up - {F.refs[c][0]} && R.target == F.target - {F.refs[c][0]}
    requires Shape(R) && c in R.up && c !in R.target
    requires (R.up[c].At? ==> R.up[c].a in R.kids) && (q.At? ==> q.a in R.kids)
    ensures Confined(F, Move(R, c, q), D)
  {}

  lemma HandOverLoosened(F: Forest, R: Forest, c: Id, q: Ptr, D: set<Id>)
    requires Loosened(F, R, D) && Shape(R) && c in R.up && R.up.Keys <= F.up.Keys
    requires c in F.refs && |R.refs[c]| < |F.refs[c]|
    requires (R.up[c].At? ==> R.up[c].a in R.kids) && (q.At? ==> q.a in R.kids)
    requires forall x :: NullHeld(Move(R, c, q), x) <==> NullHeld(R, x)
    requires q.Null? ==> NullHeld(F, c)
    ensures Loosened(F, Move(R, c, q), D)
  {}

  lemma HandOverExact(F: Forest, R: Forest, G: Forest, h: Id, p: Id, c: Id, A: set<Id>)
    requires h in F.up && h in F.target && p in A && F.up[h].At? && Owner(F, F.up[h].a, c)
    requires forall a, c :: Owner(R, a, c) ==> Owner(F, a, c)
    requires forall a, x :: Owner(F, a, x) && x != h && x != c ==> Owner(R, a, x)
    requires forall a :: Owner(F, a, c) ==> Owner(R, a, c) || F.up[h] == At(a)
    requires forall a, x :: x != c ==> (Owner(G, a, x) <==> Owner(R, a, x))
    requires forall a :: Owner(G, a, c) ==> Owner(R, a, c) || F.up[h] == At(a)
    requires forall a :: Owner(R, a, c) ==> Owner(G, a, c) || At(p) == At(a)
    requires Owner(G, F.up[h].a, c)
    ensures Exact(F, G, A, {})
  {
    forall a, x | a in G.up && a !in A && x !in F.target
      ensures Owner(G, a, x) <==> Owner(F, a, x)
    {
      if x != c { assert x != h; }
    }
  }

  /** The hand-over stays inside D, adds no ownership, and for gentle heaps is exact. */
  lemma HandOverCascade(F: Forest, p: Id, c: Id, D: set<Id>, A: set<Id>)
    requires WF(F) && c in F.up && c !in F.flight && F.up[c] == At(p) && c in F.refs && F.refs[c] != []
    requires !Below(F.up, F.refs[c][0], c)
    requires c in D && p in A
    ensures p in F.up && F.refs[c][0] in F.target && F.target[F.refs[c][0]] == c && F.refs[c][0] in F.up
    ensures var R := RemoveHandle(F, F.refs[c][0]); var q := Receiver(F, p, c);
      && WF(R) && Shape(R) && c in R.up && R.up[c] == At(p) && p in R.kids && (q.At? ==> q.a in R.kids)
      && Cascade(F, Move(R, c, q), D)
      && (Gentle(F, D) ==> Exact(F, Move(R, c, q), A, {}))
  {
    hide WF, RemoveHandle, Below, Move, Loosened, Confined, Owns, Tightens, Exact, Owner, NullHeld;
    HandOverWF(F, p, c);
    HandOverLinks(F, p, c, D);
    ReceiverOwned(F, p, c);
    var h := F.refs[c][0];
    var R := RemoveHandle(F, h);
    var q := Receiver(F, p, c);
    WFLists(R);
    var G := Move(R, c, q);
    MoveOwners(R, c, q);
    HandOverTightens(F, R, G, p, c, q);
    HandOverConfined(F, R, c, q, D);
    HandOverLoosened(F, R, c, q, D);
    if Gentle(F, D) {
      NullHeldBy(F, h, c);
      HandOverExact(F, R, G, h, p, c, A);
    }
  }

  lemma NullHeldBy(F: Forest, h: Id, c: Id)
    requires c in F.refs && h in F.refs[c] && h in F.up && !NullHeld(F, c)
    ensures F.up[h].At?
  {}
}
