/** Editing the playlist tree of playtree.c in place: unlinking, freeing and cleaning up. */
module PlayTreeEdit {
  import opened PlayTree

  // ---------- the nodes of a tree ----------

  ghost function Ids(t: PT): set<Id>
    decreases t, 0
  {
    match t
    case Entry(x, _, _) => {x}
    case Group(x, _, _, kids) => {x} + IdsAll(kids)
  }

  ghost function IdsAll(ts: seq<PT>): set<Id>
    decreases ts, 1
  {
    if ts == [] then {} else Ids(ts[0]) + IdsAll(ts[1..])
  }

  /** No node occurs twice. */
  ghost predicate Tidy(t: PT)
    decreases t, 0
  {
    t.Group? ==> t.id !in IdsAll(t.kids) && TidyAll(t.kids)
  }

  ghost predicate TidyAll(ts: seq<PT>)
    decreases ts, 1
  {
    ts != [] ==> Tidy(ts[0]) && Ids(ts[0]) !! IdsAll(ts[1..]) && TidyAll(ts[1..])
  }

  lemma {:induction false} IdsOf(ts: seq<PT>, i: nat)
    requires i < |ts|
    ensures Ids(ts[i]) <= IdsAll(ts) && ts[i].id in Ids(ts[i])
    decreases i
  {
    if i > 0 {
      IdsOf(ts[1..], i - 1);
    }
  }

  lemma {:induction false} IdsAllConcat(a: seq<PT>, b: seq<PT>)
    ensures IdsAll(a + b) == IdsAll(a) + IdsAll(b)
  {
    if a == [] {
      assert a + b == b;
    } else {
      assert (a + b)[1..] == a[1..] + b;
      IdsAllConcat(a[1..], b);
    }
  }

  lemma {:induction false} TidyConcat(a: seq<PT>, b: seq<PT>)
    ensures TidyAll(a + b) <==> TidyAll(a) && TidyAll(b) && IdsAll(a) !! IdsAll(b)
  {
    if a == [] {
      assert a + b == b;
    } else {
      assert (a + b)[1..] == a[1..] + b;
      TidyConcat(a[1..], b);
      IdsAllConcat(a[1..], b);
    }
  }

  lemma {:induction false} TidyOf(ts: seq<PT>, i: nat)
    requires TidyAll(ts) && i < |ts|
    ensures Tidy(ts[i])
    ensures forall j :: 0 <= j < |ts| && j != i ==> Ids(ts[i]) !! Ids(ts[j])
    decreases i
  {
    if i > 0 {
      TidyOf(ts[1..], i - 1);
      IdsOf(ts[1..], i - 1);
      forall j | 0 <= j < |ts| && j != i ensures Ids(ts[i]) !! Ids(ts[j]) {
        if j > 0 {
          assert ts[j] == ts[1..][j - 1];
        }
      }
    } else {
      forall j | 0 < j < |ts| ensures Ids(ts[0]) !! Ids(ts[j]) {
        IdsOf(ts[1..], j - 1);
      }
    }
  }

  // ---------- what a change leaves alone ----------

  ghost predicate SameMap<T>(a: map<Id, T>, b: map<Id, T>, except: set<Id>, gone: set<Id>) {
    b.Keys == a.Keys - gone && forall y :: y in b && y !in except ==> a[y] == b[y]
  }

  /** Only the sibling links of `links` and the child links of `heads` differ, and the nodes `gone` are freed. */
  ghost predicate Change(n: Nodes, m: Nodes, links: set<Id>, heads: set<Id>, gone: set<Id>) {
    && SameMap(n.next, m.next, links, gone) && SameMap(n.prev, m.prev, links, gone)
    && SameMap(n.parent, m.parent, links, gone)
    && SameMap(n.child, m.child, heads, gone)
    && SameMap(n.loop, m.loop, {}, gone) && SameMap(n.params, m.params, {}, gone)
    && SameMap(n.files, m.files, {}, gone) && SameMap(n.isEntry, m.isEntry, {}, gone)
  }

  lemma ChangeThen(a: Nodes, b: Nodes, c: Nodes, l1: set<Id>, h1: set<Id>, g1: set<Id>, l2: set<Id>, h2: set<Id>,
                   g2: set<Id>)
    requires Change(a, b, l1, h1, g1) && Change(b, c, l2, h2, g2)
    ensures Change(a, c, l1 + l2, h1 + h2, g1 + g2)
  {}

  lemma ChangeMore(a: Nodes, b: Nodes, l1: set<Id>, h1: set<Id>, g: set<Id>, l2: set<Id>, h2: set<Id>)
    requires Change(a, b, l1, h1, g) && l1 <= l2 + g && h1 <= h2 + g
    ensures Change(a, b, l2, h2, g)
  {}

  lemma SiblingsChange(n: Nodes, m: Nodes, links: set<Id>, heads: set<Id>, gone: set<Id>, ts: seq<PT>, parent: Ptr)
    requires Change(n, m, links, heads, gone) && Siblings(n, ts, parent)
    requires forall i :: 0 <= i < |ts| ==> ts[i].id !in links && ts[i].id !in gone
    ensures Siblings(m, ts, parent)
  {
    forall i | 0 <= i < |ts| ensures SiblingOk(m, ts, parent, i) {
      assert SiblingOk(n, ts, parent, i);
    }
  }

  /** A tree none of whose inner links changed still stands. */
  lemma {:induction false} TreeChange(n: Nodes, m: Nodes, links: set<Id>, heads: set<Id>, gone: set<Id>, t: PT)
    requires Change(n, m, links, heads, gone) && IsTree(n, t)
    requires Ids(t) !! heads && Ids(t) !! gone && (t.Group? ==> IdsAll(t.kids) !! links)
    ensures IsTree(m, t)
    decreases t
  {
    if t.Group? {
      var kids := t.kids;
      forall i | 0 <= i < |kids| ensures kids[i].id !in links && kids[i].id !in gone && IsTree(m, kids[i]) {
        IdsOf(kids, i);
        assert kids[i] in kids;
        if kids[i].Group? {
          assert IdsAll(kids[i].kids) <= Ids(kids[i]);
        }
        TreeChange(n, m, links, heads, gone, kids[i]);
      }
      SiblingsChange(n, m, links, heads, gone, kids, At(t.id));
      forall k | k in kids ensures IsTree(m, k) {
        var i :| 0 <= i < |kids| && kids[i] == k;
      }
    }
  }

  ghost function Roots(ts: seq<PT>): set<Id> {
    set i | 0 <= i < |ts| :: ts[i].id
  }

  ghost function Without(ts: seq<PT>, i: nat): seq<PT>
    requires i < |ts|
  {
    ts[..i] + ts[i + 1..]
  }

  /** A list of siblings: no id occurs twice, and the parent, if any, points at the first. */
  ghost predicate IsList(n: Nodes, ts: seq<PT>, parent: Ptr) {
    && Siblings(n, ts, parent)
    && (forall i, j :: 0 <= i < j < |ts| ==> ts[i].id != ts[j].id)
    && (parent.At? ==> parent.a in n.child && n.child[parent.a] == IdAt(ts, 0))
  }

  ghost function Head(parent: Ptr): set<Id> {
    if parent.At? then {parent.a} else {}
  }

  lemma ListChange(n: Nodes, m: Nodes, links: set<Id>, heads: set<Id>, gone: set<Id>, ts: seq<PT>, parent: Ptr)
    requires Change(n, m, links, heads, gone) && IsList(n, ts, parent)
    requires Roots(ts) !! links && Roots(ts) !! gone && Head(parent) !! heads && Head(parent) !! gone
    ensures IsList(m, ts, parent)
  {
    assert forall i :: 0 <= i < |ts| ==> ts[i].id in Roots(ts);
    SiblingsChange(n, m, links, heads, gone, ts, parent);
    hide Siblings;
  }

  lemma {:induction false} TidyRoots(ts: seq<PT>)
    requires TidyAll(ts)
    ensures forall i, j :: 0 <= i < j < |ts| ==> ts[i].id != ts[j].id
    ensures Roots(ts) <= IdsAll(ts)
  {
    forall i, j | 0 <= i < j < |ts| ensures ts[i].id != ts[j].id {
      TidyOf(ts, i);
      IdsOf(ts, i);
      IdsOf(ts, j);
    }
    forall i | 0 <= i < |ts| ensures ts[i].id in IdsAll(ts) {
      IdsOf(ts, i);
    }
  }

  // ---------- unlinking ----------

  /** The links after taking node `i` out of its list. */
  ghost predicate UnlinkedOk(n: Nodes, m: Nodes, ts: seq<PT>, parent: Ptr, i: nat)
    requires i < |ts|
  {
    && IsList(m, Without(ts, i), parent)
    && IsList(m, [ts[i]], Null)
    && Change(n, m, Roots(ts), Head(parent), {})
  }

  /** The maps after the assignments of `Remove`. */
  ghost predicate Rewired(n: Nodes, m: Nodes, ts: seq<PT>, parent: Ptr, i: nat)
    requires i < |ts|
  {
    var x, prev, next := ts[i].id, IdAt(ts, i - 1), IdAt(ts, i + 1);
    && m.next == (if prev.At? then n.next[prev.a := next] else n.next)[x := Null]
    && m.prev == (if next.At? then n.prev[next.a := prev] else n.prev)[x := Null]
    && m.parent == n.parent[x := Null]
    && m.child == (if prev.Null? && parent.At? then n.child[parent.a := next] else n.child)
    && m.loop == n.loop && m.params == n.params && m.files == n.files && m.isEntry == n.isEntry
  }

  lemma RemoveDone(n: Nodes, m: Nodes, ts: seq<PT>, parent: Ptr, i: nat)
    requires IsList(n, ts, parent) && i < |ts| && Rewired(n, m, ts, parent, i)
    ensures UnlinkedOk(n, m, ts, parent, i)
  {
    var x, rest := ts[i].id, Without(ts, i);
    forall j | 0 <= j < |rest| ensures SiblingOk(m, rest, parent, j) {
      RewiredAt(n, m, ts, parent, i, if j < i then j else j + 1);
    }
    assert forall j, k :: 0 <= j < k < |rest| ==> rest[j].id != rest[k].id;
    SiblingAt(n, ts, parent, i);
    RewiredChange(n, m, ts, parent, i);
  }

  lemma RewiredAt(n: Nodes, m: Nodes, ts: seq<PT>, parent: Ptr, i: nat, k: nat)
    requires IsList(n, ts, parent) && i < |ts| && Rewired(n, m, ts, parent, i) && k < |ts| && k != i
    ensures SiblingOk(m, Without(ts, i), parent, if k < i then k else k - 1)
  {
    SiblingAt(n, ts, parent, k);
    var y := ts[k].id;
    assert y != ts[i].id;
    assert 0 < i && y == ts[i - 1].id ==> k == i - 1;
    assert i + 1 < |ts| && y == ts[i + 1].id ==> k == i + 1;
    hide Siblings;
  }

  lemma RewiredChange(n: Nodes, m: Nodes, ts: seq<PT>, parent: Ptr, i: nat)
    requires IsList(n, ts, parent) && i < |ts| && Rewired(n, m, ts, parent, i)
    ensures Change(n, m, Roots(ts), Head(parent), {})
  {
    SiblingAt(n, ts, parent, i);
    SiblingAt(n, ts, parent, i - 1);
    SiblingAt(n, ts, parent, i + 1);
    assert ts[i].id in Roots(ts);
    assert 0 < i ==> ts[i - 1].id in Roots(ts);
    assert i + 1 < |ts| ==> ts[i + 1].id in Roots(ts);
  }

  // ---------- linking ----------

  /** Node `e` put between its new neighbours. */
  ghost predicate LinkedIn(n: Nodes, m: Nodes, ts: seq<PT>, e: PT, i: nat, parent: Ptr)
    requires i <= |ts|
  {
    var prev, next := IdAt(ts, i - 1), IdAt(ts, i);
    && m.next == (if prev.At? then n.next[prev.a := At(e.id)] else n.next)[e.id := next]
    && m.prev == (if next.At? then n.prev[next.a := At(e.id)] else n.prev)[e.id := prev]
    && m.parent == n.parent[e.id := parent]
    && m.child == (if prev.Null? && parent.At? then n.child[parent.a := At(e.id)] else n.child)
    && m.loop == n.loop && m.params == n.params && m.files == n.files && m.isEntry == n.isEntry
  }

  ghost function Inserted(ts: seq<PT>, e: PT, i: nat): seq<PT>
    requires i <= |ts|
  {
    ts[..i] + [e] + ts[i..]
  }

  lemma LinkedAt(n: Nodes, m: Nodes, ts: seq<PT>, e: PT, i: nat, parent: Ptr, j: nat)
    requires IsList(n, ts, parent) && i <= |ts| && LinkedIn(n, m, ts, e, i, parent) && j < |ts|
    requires forall k :: 0 <= k < |ts| ==> ts[k].id != e.id
    ensures SiblingOk(m, Inserted(ts, e, i), parent, if j < i then j else j + 1)
  {
    SiblingAt(n, ts, parent, j);
    hide Siblings;
    var y := ts[j].id;
    assert 0 < i && y == ts[i - 1].id ==> j == i - 1;
    assert i < |ts| && y == ts[i].id ==> j == i;
    var list := Inserted(ts, e, i);
    if j < i {
      assert IdAt(list, j + 1) == if j + 1 == i then At(e.id) else IdAt(ts, j + 1);
      assert IdAt(list, j - 1) == IdAt(ts, j - 1);
    } else {
      assert IdAt(list, j + 2) == IdAt(ts, j + 1);
      assert IdAt(list, j) == if j == i then At(e.id) else IdAt(ts, j - 1);
    }
  }

  lemma LinkedSelf(n: Nodes, m: Nodes, ts: seq<PT>, e: PT, i: nat, parent: Ptr)
    requires i <= |ts| && LinkedIn(n, m, ts, e, i, parent) && forall k :: 0 <= k < |ts| ==> ts[k].id != e.id
    ensures SiblingOk(m, Inserted(ts, e, i), parent, i)
  {
    var list := Inserted(ts, e, i);
    assert IdAt(list, i + 1) == IdAt(ts, i) && IdAt(list, i - 1) == IdAt(ts, i - 1);
  }

  lemma LinkedChange(n: Nodes, m: Nodes, ts: seq<PT>, e: PT, i: nat, parent: Ptr)
    requires IsList(n, ts, parent) && i <= |ts| && LinkedIn(n, m, ts, e, i, parent)
    requires e.id in n.next && e.id in n.prev && e.id in n.parent
    ensures Change(n, m, Roots(ts) + {e.id}, Head(parent), {})
  {
    SiblingAt(n, ts, parent, i);
    SiblingAt(n, ts, parent, i - 1);
    hide Siblings;
    assert 0 < i ==> ts[i - 1].id in Roots(ts);
    assert i < |ts| ==> ts[i].id in Roots(ts);
  }

  lemma LinkedDone(n: Nodes, m: Nodes, ts: seq<PT>, e: PT, i: nat, parent: Ptr)
    requires IsList(n, ts, parent) && i <= |ts| && LinkedIn(n, m, ts, e, i, parent)
    requires e.id !in Roots(ts) && e.id in n.next && e.id in n.prev && e.id in n.parent
    ensures IsList(m, Inserted(ts, e, i), parent) && Change(n, m, Roots(ts) + {e.id}, Head(parent), {})
  {
    hide SiblingOk, Change;
    assert forall j :: 0 <= j < |ts| ==> ts[j].id in Roots(ts);
    var list := Inserted(ts, e, i);
    forall k | 0 <= k < |list| ensures SiblingOk(m, list, parent, k) {
      if k == i {
        LinkedSelf(n, m, ts, e, i, parent);
      } else {
        LinkedAt(n, m, ts, e, i, parent, if k < i then k else k - 1);
      }
    }
    InsertedApart(ts, e, i);
    LinkedChange(n, m, ts, e, i, parent);
  }

  lemma InsertedApart(ts: seq<PT>, e: PT, i: nat)
    requires i <= |ts| && (forall j, k :: 0 <= j < k < |ts| ==> ts[j].id != ts[k].id)
    requires forall k :: 0 <= k < |ts| ==> ts[k].id != e.id
    ensures forall j, k :: 0 <= j < k < |Inserted(ts, e, i)| ==> Inserted(ts, e, i)[j].id != Inserted(ts, e, i)[k].id
  {
    var list := Inserted(ts, e, i);
    assert forall j :: 0 <= j < |list| ==> list[j] == if j < i then ts[j] else if j == i then e else ts[j - 1];
  }

  lemma InsertLinks(n: Nodes, m: Nodes, ts: seq<PT>, e: PT, i: nat, parent: Ptr)
    requires IsList(n, ts, parent) && i < |ts| && e.id !in Roots(ts)
    requires var pt, next := ts[i].id, IdAt(ts, i + 1);
      && m.next == n.next[e.id := next][pt := At(e.id)]
      && m.prev == (if next.At? then n.prev[e.id := At(pt)][next.a := At(e.id)] else n.prev[e.id := At(pt)])
      && m == n.(next := m.next, prev := m.prev, parent := n.parent[e.id := parent])
    ensures LinkedIn(n, m, ts, e, i + 1, parent)
  {
    assert forall j :: 0 <= j < |ts| ==> ts[j].id in Roots(ts);
    hide IsList;
  }

  /** The first `j` nodes of a list have another parent now. */
  ghost predicate Reparented(n: Nodes, m: Nodes, ts: seq<PT>, j: nat, parent: Ptr) {
    && j <= |ts| && m == n.(parent := m.parent) && m.parent.Keys == n.parent.Keys
    && (forall k :: 0 <= k < j ==> ts[k].id in m.parent && m.parent[ts[k].id] == parent)
    && (forall y :: y in m.parent && (forall k :: 0 <= k < j ==> ts[k].id != y) ==> m.parent[y] == n.parent[y])
  }

  lemma ReparentStart(n: Nodes, ts: seq<PT>, parent: Ptr)
    ensures Reparented(n, n, ts, 0, parent)
  {}

  lemma ReparentNext(n: Nodes, m: Nodes, ts: seq<PT>, j: nat, parent: Ptr, was: Ptr)
    requires Reparented(n, m, ts, j, parent) && IsList(n, ts, was) && j < |ts|
    ensures var x := ts[j].id;
      && x in m.parent && x in m.next && m.next[x] == IdAt(ts, j + 1)
      && Reparented(n, m.(parent := m.parent[x := parent]), ts, j + 1, parent)
  {
    SiblingAt(n, ts, was, j);
    hide Siblings;
  }

  lemma ReparentEnd(n: Nodes, m: Nodes, ts: seq<PT>, parent: Ptr, was: Ptr)
    requires Reparented(n, m, ts, |ts|, parent) && IsList(n, ts, was)
    ensures Siblings(m, ts, parent) && Change(n, m, Roots(ts), {}, {})
  {
    forall k | 0 <= k < |ts| ensures SiblingOk(m, ts, parent, k) {
      SiblingAt(n, ts, was, k);
    }
    assert forall k :: 0 <= k < |ts| ==> ts[k].id in Roots(ts);
  }

  /** Both lists and the child link, after `play_tree_set_child`. */
  lemma SetDone(n0: Nodes, n1: Nodes, n2: Nodes, n: Nodes, ks: seq<PT>, ts: seq<PT>, pt: Id, parent: Ptr)
    requires IsList(n0, ks, At(pt)) && IsList(n0, ts, parent) && Roots(ks) !! Roots(ts) && ts != []
    requires Reparented(n0, n1, ks, |ks|, Null) && n2 == n1.(child := n1.child[pt := At(ts[0].id)])
    requires Reparented(n2, n, ts, |ts|, At(pt)) && IsList(n2, ts, parent)
    ensures IsList(n, ts, At(pt)) && IsList(n, ks, Null)
    ensures Change(n0, n, Roots(ks) + Roots(ts), {pt}, {})
  {
    hide Siblings, Reparented, Change;
    ReparentEnd(n0, n1, ks, Null, At(pt));
    ReparentEnd(n2, n, ts, At(pt), parent);
    ReparentedIs(n0, n1, ks, |ks|, Null);
    SetChange(n0, n1, n2, n, ks, ts, pt);
    ReparentedIs(n2, n, ts, |ts|, At(pt));
    ChildOnly(n1, n2, pt, At(ts[0].id));
    ChangeThen(n1, n2, n, {}, {pt}, {}, Roots(ts), {}, {});
    assert forall k :: 0 <= k < |ks| ==> ks[k].id in Roots(ks);
    SiblingsChange(n1, n, {} + Roots(ts), {pt} + {}, {} + {}, ks, Null);
  }

  lemma ReparentedIs(n: Nodes, m: Nodes, ts: seq<PT>, j: nat, parent: Ptr)
    requires Reparented(n, m, ts, j, parent)
    ensures m == n.(parent := m.parent)
  {}

  lemma ChildOnly(n: Nodes, m: Nodes, pt: Id, c: Ptr)
    requires pt in n.child && m == n.(child := n.child[pt := c])
    ensures Change(n, m, {}, {pt}, {})
  {}

  lemma SetChange(n0: Nodes, n1: Nodes, n2: Nodes, n: Nodes, ks: seq<PT>, ts: seq<PT>, pt: Id)
    requires Change(n0, n1, Roots(ks), {}, {}) && pt in n1.child && n2 == n1.(child := n2.child)
    requires n2.child == n1.child[pt := At(if ts == [] then 0 else ts[0].id)]
    requires Change(n2, n, Roots(ts), {}, {})
    ensures Change(n0, n, Roots(ks) + Roots(ts), {pt}, {})
  {
    ChildOnly(n1, n2, pt, n2.child[pt]);
    hide Change;
    ChangeThen(n0, n1, n2, Roots(ks), {}, {}, {}, {pt}, {});
    ChangeThen(n0, n2, n, Roots(ks) + {}, {} + {pt}, {} + {}, Roots(ts), {}, {});
    ChangeMore(n0, n, Roots(ks) + {} + Roots(ts), {} + {pt} + {}, {} + {} + {}, Roots(ks) + Roots(ts), {pt});
  }

  /** Reparenting one list leaves another. */
  lemma ReparentOther(n: Nodes, m: Nodes, ks: seq<PT>, ts: seq<PT>, parent: Ptr, was: Ptr, other: Ptr)
    requires Reparented(n, m, ks, |ks|, parent) && IsList(n, ks, was) && IsList(n, ts, other) && Roots(ks) !! Roots(ts)
    ensures IsList(m, ts, other)
  {
    ReparentEnd(n, m, ks, parent, was);
    ListChange(n, m, Roots(ks), {}, {}, ts, other);
  }

  lemma HeadSet(n: Nodes, m: Nodes, ts: seq<PT>, pt: Id, parent: Ptr)
    requires IsList(n, ts, parent) && ts != [] && pt in n.child && m == n.(child := n.child[pt := At(ts[0].id)])
    ensures IsList(m, ts, parent)
  {
    ChildOnly(n, m, pt, At(ts[0].id));
    SiblingsChange(n, m, {}, {pt}, {}, ts, parent);
  }

  // ---------- freeing ----------

  ghost function Kids(t: PT): seq<PT> {
    if t.Group? then t.kids else []
  }

  /** Node `x` taken out of every map. */
  function Dropped(n: Nodes, x: Id): Nodes {
    Nodes(n.parent - {x}, n.child - {x}, n.next - {x}, n.prev - {x}, n.loop - {x}, n.params - {x}, n.files - {x},
        n.isEntry - {x})
  }

  /** All that freeing children needs: a list of standing, tidy trees. */
  ghost predicate Standing(n: Nodes, ts: seq<PT>, parent: Ptr) {
    && IsList(n, ts, parent) && TidyAll(ts) && Head(parent) !! IdsAll(ts)
    && forall k :: k in ts ==> IsTree(n, k)
  }

  /** After the first tree of a list was freed. */
  ghost predicate FirstGone(n: Nodes, m: Nodes, ts: seq<PT>, parent: Ptr)
    requires ts != []
  {
    && Standing(m, ts[1..], parent)
    && Change(n, m, Roots(ts[1..]), Head(parent), Ids(ts[0]))
  }

  lemma KidsStand(n: Nodes, t: PT)
    requires IsTree(n, t) && Tidy(t)
    ensures Standing(n, Kids(t), At(t.id)) && t.id !in IdsAll(Kids(t))
    ensures t.id in n.child && n.child[t.id] == IdAt(Kids(t), 0)
  {
    if t.Group? {
      TidyRoots(t.kids);
    }
  }

  lemma FirstStands(n: Nodes, ts: seq<PT>, parent: Ptr)
    requires ts != [] && Standing(n, ts, parent)
    ensures IsTree(n, ts[0]) && Tidy(ts[0]) && ts[0].id in n.child && n.child[ts[0].id] == IdAt(Kids(ts[0]), 0)
    ensures Standing(n, Kids(ts[0]), At(ts[0].id)) && ts[0].id !in IdsAll(Kids(ts[0]))
  {
    KidsStand(n, ts[0]);
  }

  /** Freeing the children of the first leaves the list. */
  lemma ListAfterKids(n: Nodes, m: Nodes, ts: seq<PT>, parent: Ptr)
    requires ts != [] && Standing(n, ts, parent)
    requires Change(n, m, Roots(Kids(ts[0])), {ts[0].id}, IdsAll(Kids(ts[0])))
    ensures IsList(m, ts, parent)
  {
    InnerApart(ts, 0);
    TidyRoots(Kids(ts[0]));
    IdsOf(ts, 0);
    ListChange(n, m, Roots(Kids(ts[0])), {ts[0].id}, IdsAll(Kids(ts[0])), ts, parent);
  }

  lemma NothingFreed(n: Nodes, kids: seq<PT>, x: Id)
    ensures Change(n, n, Roots(kids), {x}, IdsAll(kids[..0])) && kids[0..] == kids
  {}

  lemma NextKid(n: Nodes, kids: seq<PT>, i: nat, x: Id, iter: Ptr)
    requires i <= |kids| && iter == IdAt(kids, i) && iter.At? && Standing(n, kids[i..], At(x))
    ensures i < |kids| && iter.a == kids[i].id
    ensures kids[i..] != [] && kids[i..][0] == kids[i]
    ensures kids[i].id in n.next && n.next[kids[i].id] == IdAt(kids, i + 1)
  {
    SiblingAt(n, kids[i..], At(x), 0);
  }

  lemma KidBelow(t: PT, i: nat)
    requires i < |Kids(t)|
    ensures (t decreases to Kids(t)[i..][0])
  {
    assert Kids(t)[i] in t.kids;
  }

  lemma AllFreed(n: Nodes, m: Nodes, kids: seq<PT>, i: nat, x: Id)
    requires i <= |kids| && IdAt(kids, i) == Null && x in n.child
    requires Change(n, m, Roots(kids), {x}, IdsAll(kids[..i])) && x !in IdsAll(kids)
    ensures Change(n, m.(child := m.child[x := Null]), Roots(kids), {x}, IdsAll(kids))
  {
    assert kids[..i] == kids;
  }

  /** One more child freed. */
  lemma FreedStep(n: Nodes, m: Nodes, m': Nodes, x: Id, kids: seq<PT>, i: nat)
    requires i < |kids| && Change(n, m, Roots(kids), {x}, IdsAll(kids[..i])) && FirstGone(m, m', kids[i..], At(x))
    ensures Change(n, m', Roots(kids), {x}, IdsAll(kids[..i + 1])) && Standing(m', kids[i + 1..], At(x))
  {
    var ts := kids[i..];
    assert ts[1..] == kids[i + 1..];
    assert kids[..i + 1] == kids[..i] + [kids[i]];
    IdsAllConcat(kids[..i], [kids[i]]);
    assert IdsAll([kids[i]]) == Ids(kids[i]);
    assert forall j :: 0 <= j < |ts[1..]| ==> ts[1..][j] == kids[i + 1 + j];
    assert Roots(ts[1..]) <= Roots(kids);
    hide Standing;
    ChangeThen(n, m, m', Roots(kids), {x}, IdsAll(kids[..i]), Roots(ts[1..]), {x}, Ids(kids[i]));
    assert Roots(kids) + Roots(ts[1..]) == Roots(kids) && {x} + {x} == {x};
  }

  /** The children are freed, then the node is unlinked and freed: what changed. */
  lemma FreeChange(n: Nodes, m1: Nodes, m2: Nodes, m3: Nodes, t: PT, roots: set<Id>, rest: set<Id>, heads: set<Id>)
    requires Change(n, m1, Roots(Kids(t)), {t.id}, IdsAll(Kids(t)))
    requires Change(m1, m2, roots, heads, {}) && m3 == Dropped(m2, t.id) && roots == {t.id} + rest
    requires Roots(Kids(t)) <= IdsAll(Kids(t))
    ensures Change(n, m3, rest, heads, Ids(t))
  {
    var x, kids := t.id, IdsAll(Kids(t));
    assert Ids(t) == {x} + kids;
    Drops(m2, x);
    hide Change;
    ChangeThen(n, m1, m2, Roots(Kids(t)), {x}, kids, roots, heads, {});
    ChangeThen(n, m2, m3, Roots(Kids(t)) + roots, {x} + heads, kids + {}, {}, {}, {x});
    assert kids + {} + {x} == Ids(t);
    ChangeMore(n, m3, Roots(Kids(t)) + roots + {}, {x} + heads + {}, Ids(t), rest, heads);
  }

  lemma Drops(n: Nodes, x: Id)
    ensures Change(n, Dropped(n, x), {}, {}, {x})
  {}

  /** The children are freed, then the node is unlinked and freed: the list goes on with the next one. */
  lemma FreeDone(n: Nodes, m1: Nodes, m2: Nodes, m3: Nodes, ts: seq<PT>, parent: Ptr)
    requires ts != [] && Standing(n, ts, parent)
    requires Change(n, m1, Roots(Kids(ts[0])), {ts[0].id}, IdsAll(Kids(ts[0])))
    requires UnlinkedOk(m1, m2, ts, parent, 0) && m3 == Dropped(m2, ts[0].id)
    ensures FirstGone(n, m3, ts, parent)
  {
    hide Change, IsList, IsTree;
    var x, rest := ts[0].id, ts[1..];
    assert Without(ts, 0) == rest;
    RootsSplit(ts);
    TidyRoots(rest);
    FirstTidy(ts);
    FreeChange(n, m1, m2, m3, ts[0], Roots(ts), Roots(rest), Head(parent));
    Drops(m2, x);
    IdsOf(ts, 0);
    ListChange(m2, m3, {}, {}, {x}, rest, parent);
    RestStands(n, m3, ts, parent);
  }

  lemma FirstTidy(ts: seq<PT>)
    requires ts != [] && TidyAll(ts)
    ensures TidyAll(Kids(ts[0])) && Roots(Kids(ts[0])) <= IdsAll(Kids(ts[0]))
  {
    TidyRoots(Kids(ts[0]));
  }

  lemma RootsSplit(ts: seq<PT>)
    requires ts != []
    ensures Roots(ts) == {ts[0].id} + Roots(ts[1..])
  {
    assert forall j :: 0 <= j < |ts[1..]| ==> ts[1..][j] == ts[j + 1];
    assert forall j :: 0 < j < |ts| ==> ts[j] == ts[1..][j - 1];
  }

  lemma RestStands(n: Nodes, m: Nodes, ts: seq<PT>, parent: Ptr)
    requires ts != [] && Standing(n, ts, parent) && Change(n, m, Roots(ts[1..]), Head(parent), Ids(ts[0]))
    ensures forall k :: k in ts[1..] ==> IsTree(m, k)
  {
    var rest := ts[1..];
    forall k | k in rest ensures IsTree(m, k) {
      var j :| 0 <= j < |rest| && rest[j] == k;
      assert k in ts;
      IdsOf(rest, j);
      InnerApart(rest, j);
      TreeChange(n, m, Roots(rest), Head(parent), Ids(ts[0]), k);
    }
  }

  /** What is inside a tree of a tidy list is no root of the list. */
  lemma InnerApart(ts: seq<PT>, j: nat)
    requires TidyAll(ts) && j < |ts|
    ensures IdsAll(Kids(ts[j])) !! Roots(ts) && Tidy(ts[j])
  {
    TidyOf(ts, j);
    forall i | 0 <= i < |ts| ensures ts[i].id !in IdsAll(Kids(ts[j])) {
      IdsOf(ts, i);
      assert IdsAll(Kids(ts[j])) <= Ids(ts[j]);
    }
  }

  // ---------- cleaning up ----------

  /** The trees of a list that have something to play. */
  ghost function KeptAll(ts: seq<PT>): seq<PT> {
    if ts == [] then [] else (if Playable(ts[0]) then [ts[0]] else []) + KeptAll(ts[1..])
  }

  /** The tree without the groups that have nothing to play. */
  ghost function Cleaned(t: PT): PT
    decreases t, 0
  {
    match t
    case Entry(_, _, _) => t
    case Group(x, params, loop, kids) => Group(x, params, loop, CleanedAll(kids))
  }

  ghost function CleanedAll(ts: seq<PT>): seq<PT>
    decreases ts, 1
  {
    if ts == [] then [] else (if Playable(ts[0]) then [Cleaned(ts[0])] else []) + CleanedAll(ts[1..])
  }

  ghost function CleanedEach(ts: seq<PT>): seq<PT> {
    if ts == [] then [] else [Cleaned(ts[0])] + CleanedEach(ts[1..])
  }

  lemma {:induction false} CleanedKept(ts: seq<PT>)
    ensures CleanedEach(KeptAll(ts)) == CleanedAll(ts)
  {
    if ts != [] {
      CleanedKept(ts[1..]);
      if Playable(ts[0]) {
        assert KeptAll(ts)[1..] == KeptAll(ts[1..]);
      } else {
        assert KeptAll(ts) == KeptAll(ts[1..]) && CleanedAll(ts) == CleanedAll(ts[1..]);
      }
    }
  }

  lemma {:induction false} CleanedMember(ts: seq<PT>, k: PT)
    requires k in CleanedAll(ts)
    ensures exists j :: j in ts && Playable(j) && k == Cleaned(j)
  {
    if k in CleanedAll(ts[1..]) {
      CleanedMember(ts[1..], k);
      var j :| j in ts[1..] && Playable(j) && k == Cleaned(j);
      assert j in ts;
    } else {
      assert ts[0] in ts;
    }
  }

  lemma {:induction false} CleanedSome(ts: seq<PT>, k: PT)
    requires k in ts && Playable(k)
    ensures CleanedAll(ts) != []
  {
    if k != ts[0] {
      assert k in ts[1..];
      CleanedSome(ts[1..], k);
    }
  }

  /** Every node that is left has something to play, all the way down. */
  lemma {:induction false} CleanedClean(t: PT)
    requires Playable(t)
    ensures Clean(Cleaned(t))
    decreases t
  {
    if t.Group? {
      var k :| k in t.kids && Playable(k);
      CleanedSome(t.kids, k);
      forall c | c in CleanedAll(t.kids) ensures Clean(c) {
        CleanedMember(t.kids, c);
        var j :| j in t.kids && Playable(j) && c == Cleaned(j);
        CleanedClean(j);
      }
    }
  }

  lemma {:induction false} RepeatNothing(n: nat)
    ensures Repeat<Id>([], n) == []
  {
    if n > 0 {
      RepeatNothing(n - 1);
    }
  }

  /** Cleaning up does not change what is played. */
  lemma {:induction false} FlatCleaned(t: PT, n: nat)
    ensures Playable(t) ==> Flat(Cleaned(t), n) == Flat(t, n)
    ensures !Playable(t) ==> Flat(t, n) == []
    decreases t, 0
  {
    if t.Group? {
      FlatCleanedAll(t.kids, n);
      if !Playable(t) {
        NothingKept(t.kids);
        RepeatNothing(Times(t.loop, n));
      }
    }
  }

  lemma {:induction false} NothingKept(ts: seq<PT>)
    requires forall k :: k in ts ==> !Playable(k)
    ensures CleanedAll(ts) == []
  {
    if ts != [] {
      assert ts[0] in ts;
      NothingKept(ts[1..]);
    }
  }

  lemma {:induction false} FlatCleanedAll(ts: seq<PT>, n: nat)
    ensures FlatAll(CleanedAll(ts), n) == FlatAll(ts, n)
    decreases ts, 1
  {
    if ts != [] {
      FlatCleaned(ts[0], n);
      FlatCleanedAll(ts[1..], n);
      if Playable(ts[0]) {
        assert CleanedAll(ts)[1..] == CleanedAll(ts[1..]);
      } else {
        assert CleanedAll(ts) == CleanedAll(ts[1..]);
      }
    }
  }

  lemma {:induction false} CleanedIds(t: PT)
    ensures Ids(Cleaned(t)) <= Ids(t) && Cleaned(t).id == t.id && (Tidy(t) ==> Tidy(Cleaned(t)))
    decreases t, 0
  {
    if t.Group? {
      CleanedAllIds(t.kids);
    }
  }

  lemma {:induction false} CleanedAllIds(ts: seq<PT>)
    ensures IdsAll(CleanedAll(ts)) <= IdsAll(ts) && (TidyAll(ts) ==> TidyAll(CleanedAll(ts)))
    decreases ts, 1
  {
    if ts != [] {
      CleanedIds(ts[0]);
      CleanedAllIds(ts[1..]);
      if Playable(ts[0]) {
        assert CleanedAll(ts)[1..] == CleanedAll(ts[1..]);
      } else {
        assert CleanedAll(ts) == CleanedAll(ts[1..]);
      }
    }
  }

  lemma Single(t: PT)
    ensures IdsAll([t]) == Ids(t) && (TidyAll([t]) <==> Tidy(t))
  {
    assert [t][1..] == [];
  }

  /** One tree of a list unlinked, ready to be freed. */
  lemma DropReady(n: Nodes, m: Nodes, ts: seq<PT>, k: nat, parent: Ptr)
    requires k < |ts| && Standing(n, ts, parent) && UnlinkedOk(n, m, ts, parent, k)
    ensures Standing(m, [ts[k]], Null)
  {
    hide Change, IsList;
    assert ts[k] in ts;
    TidyOf(ts, k);
    InnerApart(ts, k);
    IdsOf(ts, k);
    Single(ts[k]);
    TreeChange(n, m, Roots(ts), Head(parent), {}, ts[k]);
  }

  lemma {:induction false} WithoutIds(ts: seq<PT>, k: nat)
    requires k < |ts| && TidyAll(ts)
    ensures IdsAll(ts) == Ids(ts[k]) + IdsAll(Without(ts, k)) && Ids(ts[k]) !! IdsAll(Without(ts, k))
    ensures TidyAll(Without(ts, k))
  {
    var a, b, c := ts[..k], [ts[k]], ts[k + 1..];
    assert ts == a + (b + c) && IdsAll(b) == Ids(ts[k]);
    IdsAllConcat(a, b + c);
    IdsAllConcat(b, c);
    IdsAllConcat(a, c);
    TidyConcat(a, b + c);
    TidyConcat(b, c);
    TidyConcat(a, c);
  }

  /** One tree of a list unlinked and freed: the others stand. */
  lemma DropDone(n: Nodes, m1: Nodes, m2: Nodes, ts: seq<PT>, k: nat, parent: Ptr)
    requires k < |ts| && Standing(n, ts, parent) && UnlinkedOk(n, m1, ts, parent, k)
    requires FirstGone(m1, m2, [ts[k]], Null)
    ensures Standing(m2, Without(ts, k), parent)
    ensures Change(n, m2, Roots(ts), Head(parent), Ids(ts[k]))
  {
    hide Change, IsList, IsTree;
    var rest := Without(ts, k);
    WithoutIds(ts, k);
    IdsOf(ts, k);
    assert Roots([ts[k]][1..]) == {};
    ChangeThen(n, m1, m2, Roots(ts), Head(parent), {}, {}, {}, Ids(ts[k]));
    assert Roots(ts) + {} == Roots(ts) && Head(parent) + {} == Head(parent) && {} + Ids(ts[k]) == Ids(ts[k]);
    TidyRoots(rest);
    ListChange(m1, m2, {}, {}, Ids(ts[k]), rest, parent);
    forall t | t in rest ensures IsTree(m2, t) {
      var j :| 0 <= j < |rest| && rest[j] == t;
      var i := if j < k then j else j + 1;
      assert ts[i] == t && t in ts;
      InnerApart(ts, i);
      TidyOf(ts, i);
      IdsOf(ts, i);
      TreeChange(n, m2, Roots(ts), Head(parent), Ids(ts[k]), t);
    }
  }

  /** The list while invalid children are being dropped: those kept so far, and those not looked at. */
  ghost predicate DropInv(n0: Nodes, n: Nodes, kids: seq<PT>, list: seq<PT>, x: Id, i: nat, k: nat) {
    && i <= |kids| && list == KeptAll(kids[..i]) + kids[i..] && k == |KeptAll(kids[..i])|
    && Standing(n, list, At(x)) && Roots(list) <= Roots(kids)
    && Change(n0, n, Roots(kids), {x}, IdsAll(kids) - IdsAll(list)) && IdsAll(list) <= IdsAll(kids)
    && x !in IdsAll(kids)
    && TidyAll(kids)
  }

  lemma DropStart(n: Nodes, kids: seq<PT>, x: Id)
    requires Standing(n, kids, At(x)) && x !in IdsAll(kids)
    ensures DropInv(n, n, kids, kids, x, 0, 0)
  {
    assert kids[..0] == [] && [] + kids[0..] == kids;
  }

  lemma DropNext(n0: Nodes, n: Nodes, kids: seq<PT>, list: seq<PT>, x: Id, i: nat, k: nat, iter: Ptr)
    requires DropInv(n0, n, kids, list, x, i, k) && iter == IdAt(kids, i) && iter.At?
    ensures i < |kids| && k < |list| && list[k] == kids[i] && iter.a == kids[i].id
    ensures IsTree(n, kids[i]) && iter.a in n.next && n.next[iter.a] == IdAt(kids, i + 1)
    ensures IsList(n, list, At(x)) && Standing(n, list, At(x))
    ensures (IdAt(list, 0) == iter <==> k == 0)
  {
    hide Change, IsTree;
    assert list[k] in list;
    SiblingAt(n, list, At(x), k);
    assert i + 1 < |kids| ==> list[k + 1] == kids[i + 1];
    TidyRoots(list);
  }

  lemma {:induction false} KeptSnoc(ts: seq<PT>, t: PT)
    ensures KeptAll(ts + [t]) == KeptAll(ts) + if Playable(t) then [t] else []
  {
    hide Playable;
    if ts == [] {
      assert ts + [t] == [t];
      assert KeptAll([]) == [];
    } else {
      assert (ts + [t])[1..] == ts[1..] + [t];
      KeptSnoc(ts[1..], t);
      assert KeptAll(ts + [t]) == (if Playable(ts[0]) then [ts[0]] else []) + KeptAll(ts[1..] + [t]);
    }
  }

  lemma DropKept(n0: Nodes, n: Nodes, kids: seq<PT>, list: seq<PT>, x: Id, i: nat, k: nat)
    requires DropInv(n0, n, kids, list, x, i, k) && i < |kids| && Playable(kids[i])
    ensures DropInv(n0, n, kids, list, x, i + 1, k + 1)
  {
    hide Change, Standing, Playable;
    KeptSnoc(kids[..i], kids[i]);
    assert kids[..i + 1] == kids[..i] + [kids[i]];
    assert kids[i..] == [kids[i]] + kids[i + 1..];
  }

  lemma DropGone(n0: Nodes, m: Nodes, n: Nodes, kids: seq<PT>, list: seq<PT>, x: Id, i: nat, k: nat)
    requires DropInv(n0, m, kids, list, x, i, k) && i < |kids| && k < |list| && list[k] == kids[i] && !Playable(kids[i])
    requires Standing(n, Without(list, k), At(x)) && Change(m, n, Roots(list), Head(At(x)), Ids(list[k]))
    ensures DropInv(n0, n, kids, Without(list, k), x, i + 1, k)
    ensures k > 0 ==> IdAt(Without(list, k), 0) == IdAt(list, 0)
    ensures k == 0 ==> IdAt(Without(list, k), 0) == IdAt(kids, i + 1)
  {
    hide Change, Playable;
    var rest := Without(list, k);
    KeptSnoc(kids[..i], kids[i]);
    assert kids[..i + 1] == kids[..i] + [kids[i]];
    assert rest == KeptAll(kids[..i + 1]) + kids[i + 1..];
    WithoutIds(list, k);
    DropChange(n0, m, n, kids, list, x, k);
    WithoutRoots(list, k);
  }

  lemma WithoutRoots(list: seq<PT>, k: nat)
    requires k < |list|
    ensures Roots(Without(list, k)) <= Roots(list)
  {
    var rest := Without(list, k);
    assert forall j :: 0 <= j < |rest| ==> rest[j] == list[if j < k then j else j + 1];
  }

  lemma DropChange(n0: Nodes, m: Nodes, n: Nodes, kids: seq<PT>, list: seq<PT>, x: Id, k: nat)
    requires k < |list| && TidyAll(list) && IdsAll(list) <= IdsAll(kids) && Roots(list) <= Roots(kids)
    requires Change(n0, m, Roots(kids), {x}, IdsAll(kids) - IdsAll(list))
    requires Change(m, n, Roots(list), Head(At(x)), Ids(list[k]))
    ensures Change(n0, n, Roots(kids), {x}, IdsAll(kids) - IdsAll(Without(list, k)))
  {
    hide Change, Without, IdsAll, Ids, Roots;
    WithoutIds(list, k);
    var gone := IdsAll(kids) - IdsAll(list);
    ChangeThen(n0, m, n, Roots(kids), {x}, gone, Roots(list), {x}, Ids(list[k]));
    assert gone + Ids(list[k]) == IdsAll(kids) - IdsAll(Without(list, k));
    assert Roots(kids) + Roots(list) == Roots(kids) && {x} + {x} == {x};
  }

  lemma DropEnd(n0: Nodes, n: Nodes, kids: seq<PT>, list: seq<PT>, x: Id, i: nat, k: nat, iter: Ptr)
    requires DropInv(n0, n, kids, list, x, i, k) && iter == IdAt(kids, i) && iter.Null?
    ensures list == KeptAll(kids) && Standing(n, list, At(x))
    ensures Change(n0, n, Roots(kids), {x}, IdsAll(kids) - IdsAll(list))
  {
    hide Change, Standing;
    assert kids[..i] == kids && kids[i..] == [];
  }

  lemma {:induction false} CleanedEachIs(ts: seq<PT>)
    ensures |CleanedEach(ts)| == |ts| && forall j :: 0 <= j < |ts| ==> CleanedEach(ts)[j] == Cleaned(ts[j])
  {
    if ts != [] {
      CleanedEachIs(ts[1..]);
    }
  }

  /** The list while its trees are being cleaned one after the other. */
  ghost function Partly(ts: seq<PT>, i: nat): (r: seq<PT>)
    requires i <= |ts|
    ensures |r| == |ts|
  {
    seq(|ts|, j requires 0 <= j < |ts| => if j < i then Cleaned(ts[j]) else ts[j])
  }

  lemma {:induction false} SmallerIds(a: seq<PT>, b: seq<PT>)
    requires |a| == |b| && TidyAll(a)
    requires forall j :: 0 <= j < |a| ==> Ids(b[j]) <= Ids(a[j]) && Tidy(b[j])
    ensures TidyAll(b) && IdsAll(b) <= IdsAll(a)
  {
    if a != [] {
      SmallerIds(a[1..], b[1..]);
    }
  }

  /** What cleaning one tree changes. */
  ghost predicate CleanedOk(n: Nodes, m: Nodes, t: PT) {
    IsTree(m, Cleaned(t)) && Change(n, m, IdsAll(Kids(t)), Ids(t), Ids(t) - Ids(Cleaned(t)))
  }

  lemma SameRoots(n: Nodes, a: seq<PT>, b: seq<PT>, parent: Ptr)
    requires IsList(n, a, parent) && |a| == |b| && forall j :: 0 <= j < |a| ==> a[j].id == b[j].id
    ensures IsList(n, b, parent)
  {
    forall j | 0 <= j < |b| ensures SiblingOk(n, b, parent, j) {
      SiblingAt(n, a, parent, j);
    }
  }

  /** One tree of a list cleaned: the list stands with the cleaned tree in its place. */
  lemma CleanStands(n: Nodes, m: Nodes, ts: seq<PT>, i: nat, parent: Ptr)
    requires i < |ts| && Standing(n, ts, parent) && CleanedOk(n, m, ts[i])
    ensures Standing(m, ts[i := Cleaned(ts[i])], parent)
  {
    hide Change, IsList, IsTree, Cleaned;
    var t, list := ts[i], ts[i := Cleaned(ts[i])];
    CleanedIds(t);
    TidyOf(ts, i);
    IdsOf(ts, i);
    forall j | 0 <= j < |ts| ensures Tidy(list[j]) && Ids(list[j]) <= Ids(ts[j]) {
      TidyOf(ts, j);
    }
    SmallerIds(ts, list);
    InnerApart(ts, i);
    CleanedKeepsRoot(t);
    RootsApart(ts, i);
    ListChange(n, m, IdsAll(Kids(t)), Ids(t), Ids(t) - Ids(Cleaned(t)), ts, parent);
    SameRoots(m, ts, list, parent);
    forall k | k in list ensures IsTree(m, k) {
      var j :| 0 <= j < |list| && list[j] == k;
      if j != i {
        assert k in ts;
        TidyOf(ts, j);
        IdsOf(ts, j);
        assert IdsAll(Kids(t)) <= Ids(t);
        TreeChange(n, m, IdsAll(Kids(t)), Ids(t), Ids(t) - Ids(Cleaned(t)), k);
      }
    }
  }

  lemma CleanedKeepsRoot(t: PT)
    ensures t.id in Ids(Cleaned(t)) && Cleaned(t).id == t.id
  {}

  lemma RootsApart(ts: seq<PT>, i: nat)
    requires TidyAll(ts) && i < |ts|
    ensures forall r :: r in Roots(ts) && r in Ids(ts[i]) ==> r == ts[i].id
  {
    forall r | r in Roots(ts) && r in Ids(ts[i]) ensures r == ts[i].id {
      var j :| 0 <= j < |ts| && ts[j].id == r;
      TidyOf(ts, i);
      IdsOf(ts, j);
    }
  }

  /** The second loop of a cleanup. */
  ghost predicate CleanInv(n0: Nodes, n: Nodes, ts: seq<PT>, x: Id, i: nat) {
    && i <= |ts| && Standing(n, Partly(ts, i), At(x)) && TidyAll(ts)
    && Change(n0, n, IdsAll(ts), IdsAll(ts), IdsAll(ts) - IdsAll(Partly(ts, i)))
    && IdsAll(Partly(ts, i)) <= IdsAll(ts)
  }

  lemma CleanStart(n: Nodes, ts: seq<PT>, x: Id)
    requires Standing(n, ts, At(x))
    ensures CleanInv(n, n, ts, x, 0)
  {
    assert Partly(ts, 0) == ts;
  }

  lemma CleanNext(n0: Nodes, n: Nodes, ts: seq<PT>, x: Id, i: nat, iter: Ptr)
    requires CleanInv(n0, n, ts, x, i) && iter == IdAt(ts, i) && iter.At?
    ensures i < |ts| && iter.a == ts[i].id && IsTree(n, ts[i]) && Tidy(ts[i])
    ensures iter.a in n.next && n.next[iter.a] == IdAt(ts, i + 1)
  {
    hide Change, IsTree, Cleaned;
    var list := Partly(ts, i);
    assert list[i] in list && list[i] == ts[i];
    SiblingAt(n, list, At(x), i);
    TidyOf(ts, i);
    assert i + 1 < |ts| ==> list[i + 1] == ts[i + 1];
  }

  lemma CleanStep(n0: Nodes, m: Nodes, n: Nodes, ts: seq<PT>, x: Id, i: nat)
    requires CleanInv(n0, m, ts, x, i) && i < |ts| && CleanedOk(m, n, ts[i])
    ensures CleanInv(n0, n, ts, x, i + 1)
  {
    hide Change, IsTree, Cleaned, IsList;
    var list, t := Partly(ts, i), ts[i];
    assert Partly(ts, i + 1) == list[i := Cleaned(t)];
    CleanStands(m, n, list, i, At(x));
    IdsOf(ts, i);
    var rest := Without(list, i);
    assert Without(list[i := Cleaned(t)], i) == rest;
    WithoutIds(list, i);
    WithoutIds(list[i := Cleaned(t)], i);
    CleanedIds(t);
    var g1, g2 := IdsAll(ts) - IdsAll(list), Ids(t) - Ids(Cleaned(t));
    ChangeThen(n0, m, n, IdsAll(ts), IdsAll(ts), g1, IdsAll(Kids(t)), Ids(t), g2);
    assert IdsAll(Kids(t)) <= Ids(t);
    assert IdsAll(ts) + IdsAll(Kids(t)) == IdsAll(ts) && IdsAll(ts) + Ids(t) == IdsAll(ts);
    assert g1 + g2 == IdsAll(ts) - IdsAll(list[i := Cleaned(t)]);
  }

  lemma CleanEnd(n0: Nodes, n: Nodes, ts: seq<PT>, x: Id, i: nat, iter: Ptr)
    requires CleanInv(n0, n, ts, x, i) && iter == IdAt(ts, i) && iter.Null?
    ensures Standing(n, CleanedEach(ts), At(x))
    ensures Change(n0, n, IdsAll(ts), IdsAll(ts), IdsAll(ts) - IdsAll(CleanedEach(ts)))
  {
    hide Change, Standing, Cleaned;
    CleanedEachIs(ts);
    assert Partly(ts, i) == CleanedEach(ts);
  }

  /** Both loops together. */
  lemma CleanWhole(n: Nodes, m: Nodes, m': Nodes, t: PT)
    requires IsTree(n, t) && Tidy(t) && Playable(t)
    requires var kids := Kids(t);
      && Standing(m, KeptAll(kids), At(t.id)) && Change(n, m, Roots(kids), {t.id}, IdsAll(kids) - IdsAll(KeptAll(kids)))
      && Standing(m', CleanedEach(KeptAll(kids)), At(t.id))
      && Change(m, m', IdsAll(KeptAll(kids)), IdsAll(KeptAll(kids)),
          IdsAll(KeptAll(kids)) - IdsAll(CleanedEach(KeptAll(kids))))
    ensures CleanedOk(n, m', t)
  {
    hide Change, Standing, Playable;
    var kids, kept := Kids(t), KeptAll(Kids(t));
    CleanedKept(kids);
    KeptIds(kids);
    TidyRoots(kids);
    CleanedAllIds(kids);
    var g1, g2 := IdsAll(kids) - IdsAll(kept), IdsAll(kept) - IdsAll(CleanedAll(kids));
    ChangeThen(n, m, m', Roots(kids), {t.id}, g1, IdsAll(kept), IdsAll(kept), g2);
    assert Ids(Cleaned(t)) == {t.id} + IdsAll(CleanedAll(kids));
    assert Ids(t) == {t.id} + IdsAll(kids);
    assert g1 + g2 == Ids(t) - Ids(Cleaned(t));
    ChangeMore(n, m', Roots(kids) + IdsAll(kept), {t.id} + IdsAll(kept), g1 + g2, IdsAll(kids), Ids(t));
    CleanedStands(n, m', t);
  }

  lemma {:induction false} KeptIds(ts: seq<PT>)
    ensures IdsAll(KeptAll(ts)) <= IdsAll(ts) && IdsAll(CleanedAll(ts)) <= IdsAll(KeptAll(ts))
  {
    if ts != [] {
      KeptIds(ts[1..]);
      CleanedIds(ts[0]);
      if Playable(ts[0]) {
        assert KeptAll(ts)[1..] == KeptAll(ts[1..]) && CleanedAll(ts)[1..] == CleanedAll(ts[1..]);
      } else {
        assert KeptAll(ts) == KeptAll(ts[1..]) && CleanedAll(ts) == CleanedAll(ts[1..]);
      }
    }
  }

  lemma CleanedStands(n: Nodes, m: Nodes, t: PT)
    requires IsTree(n, t) && Tidy(t) && Standing(m, CleanedAll(Kids(t)), At(t.id))
    requires Change(n, m, IdsAll(Kids(t)), Ids(t), Ids(t) - Ids(Cleaned(t)))
    ensures IsTree(m, Cleaned(t))
  {
    CleanedKeepsRoot(t);
    if t.Entry? {
      assert IdAt(CleanedAll(Kids(t)), 0) == Null;
    }
  }

  lemma AloneStands(n: Nodes, t: PT)
    requires IsTree(n, t) && Tidy(t) && IsList(n, [t], Null)
    ensures Standing(n, [t], Null)
  {
    hide IsTree, IsList;
    Single(t);
  }

  /** The only node gone. */
  lemma AloneGone(n: Nodes, m: Nodes, t: PT)
    requires Change(n, m, Roots([t]), Head(Null), Ids(t))
    ensures Change(n, m, {}, {}, Ids(t))
  {
    assert t.id in Ids(t);
    ChangeMore(n, m, Roots([t]), Head(Null), Ids(t), {}, {});
  }

  lemma {:induction false} KeptMembers(ts: seq<PT>)
    ensures forall k :: k in KeptAll(ts) ==> k in ts && Playable(k)
  {
    if ts != [] {
      KeptMembers(ts[1..]);
    }
  }

  lemma KeptBelow(t: PT)
    ensures forall k :: k in KeptAll(Kids(t)) ==> Playable(k) && (t decreases to k)
  {
    KeptMembers(Kids(t));
    forall k | k in KeptAll(Kids(t)) ensures t decreases to k {
      assert k in t.kids;
    }
  }

  class Store {
    var n: Nodes

    constructor (n: Nodes)
      ensures this.n == n
    {
      this.n := n;
    }

    /** `play_tree_remove`, without freeing. */
    method Remove(x: Id, ghost ts: seq<PT>, ghost i: nat, ghost parent: Ptr)
      requires IsList(n, ts, parent) && i < |ts| && ts[i].id == x
      modifies this
      ensures UnlinkedOk(old(n), n, ts, parent, i)
    {
      hide UnlinkedOk, Siblings;
      ghost var n0 := n;
      SiblingAt(n, ts, parent, i);
      SiblingAt(n, ts, parent, i - 1);
      SiblingAt(n, ts, parent, i + 1);
      var prev, next, up := n.prev[x], n.next[x], n.parent[x];
      if prev.At? && next.At? {
        n := n.(next := n.next[prev.a := next], prev := n.prev[next.a := prev]);
      } else if prev.At? {
        n := n.(next := n.next[prev.a := Null]);
      } else if next.At? {
        n := n.(prev := n.prev[next.a := Null]);
        if up.At? {
          n := n.(child := n.child[up.a := next]);
        }
      } else if up.At? {
        n := n.(child := n.child[up.a := Null]);
      }
      n := n.(prev := n.prev[x := Null], next := n.next[x := Null], parent := n.parent[x := Null]);
      RemoveDone(n0, n, ts, parent, i);
    }

    /** `play_tree_free` with children, for the first of a list of siblings. */
    method Free(x: Id, ghost ts: seq<PT>, ghost parent: Ptr)
      requires ts != [] && ts[0].id == x && Standing(n, ts, parent)
      modifies this
      ensures FirstGone(old(n), n, ts, parent)
      decreases ts[0], 1
    {
      hide *;
      ghost var n0, t := n, ts[0];
      FirstStands(n, ts, parent);
      FreeKids(x, t);
      ghost var m1 := n;
      ListAfterKids(n0, n, ts, parent);
      Remove(x, ts, 0, parent);
      ghost var m2 := n;
      n := Dropped(n, x);
      FreeDone(n0, m1, m2, n, ts, parent);
    }

    method FreeKids(x: Id, ghost t: PT)
      requires t.id == x && x in n.child && n.child[x] == IdAt(Kids(t), 0) && Standing(n, Kids(t), At(x))
      requires x !in IdsAll(Kids(t))
      modifies this
      ensures Change(old(n), n, Roots(Kids(t)), {x}, IdsAll(Kids(t)))
      decreases t, 0
    {
      hide *;
      ghost var n0, kids, i := n, Kids(t), 0;
      var iter := n.child[x];
      NothingFreed(n, kids, x);
      while iter.At?
        invariant 0 <= i <= |kids| && iter == IdAt(kids, i)
        invariant Standing(n, kids[i..], At(x)) && Change(n0, n, Roots(kids), {x}, IdsAll(kids[..i]))
        decreases |kids| - i
      {
        NextKid(n, kids, i, x, iter);
        var next := n.next[iter.a];
        ghost var m := n;
        KidBelow(t, i);
        Free(iter.a, kids[i..], At(x));
        FreedStep(n0, m, n, x, kids, i);
        iter := next;
        i := i + 1;
      }
      AllFreed(n0, n, kids, i, x);
      n := n.(child := n.child[x := Null]);
    }

    /** The first loop of `play_tree_cleanup`: the children with nothing to play are removed and freed. */
    method DropInvalid(x: Id, ghost kids: seq<PT>) returns (first: Ptr)
      requires x in n.child && n.child[x] == IdAt(kids, 0) && Standing(n, kids, At(x)) && x !in IdsAll(kids)
      modifies this
      ensures Standing(n, KeptAll(kids), At(x)) && first == IdAt(KeptAll(kids), 0)
      ensures Change(old(n), n, Roots(kids), {x}, IdsAll(kids) - IdsAll(KeptAll(kids)))
    {
      hide *;
      ghost var n0, list, i, k := n, kids, 0, 0;
      first := n.child[x];
      var iter := first;
      DropStart(n, kids, x);
      while iter.At?
        invariant DropInv(n0, n, kids, list, x, i, k) && iter == IdAt(kids, i) && first == IdAt(list, 0)
        decreases |kids| - i
      {
        DropNext(n0, n, kids, list, x, i, k, iter);
        var tmp := iter.a;
        iter := n.next[tmp];
        var valid := IsValid(n, tmp, kids[i]);
        if !valid {
          ghost var m := n;
          Remove(tmp, list, k, At(x));
          ghost var m1 := n;
          DropReady(m, n, list, k, At(x));
          Free(tmp, [list[k]], Null);
          DropDone(m, m1, n, list, k, At(x));
          DropGone(n0, m, n, kids, list, x, i, k);
          if first == At(tmp) {
            first := iter;
          }
          list := Without(list, k);
        } else {
          DropKept(n0, n, kids, list, x, i, k);
          k := k + 1;
        }
        i := i + 1;
      }
      DropEnd(n0, n, kids, list, x, i, k, iter);
    }

    /** The second loop: every child is cleaned in turn. */
    method CleanKids(x: Id, first: Ptr, ghost ts: seq<PT>, ghost t: PT)
      requires Standing(n, ts, At(x)) && first == IdAt(ts, 0)
      requires forall k :: k in ts ==> Playable(k) && (t decreases to k)
      modifies this
      ensures Standing(n, CleanedEach(ts), At(x))
      ensures Change(old(n), n, IdsAll(ts), IdsAll(ts), IdsAll(ts) - IdsAll(CleanedEach(ts)))
      decreases t, 0
    {
      hide *;
      ghost var n0, i := n, 0;
      var iter := first;
      CleanStart(n, ts, x);
      while iter.At?
        invariant CleanInv(n0, n, ts, x, i) && iter == IdAt(ts, i)
        decreases |ts| - i
      {
        CleanNext(n0, n, ts, x, i, iter);
        var tmp := iter.a;
        iter := n.next[tmp];
        ghost var m := n;
        assert ts[i] in ts;
        var _ := Cleanup(tmp, ts[i]);
        CleanStep(n0, m, n, ts, x, i);
        i := i + 1;
      }
      CleanEnd(n0, n, ts, x, i, iter);
    }

    /** `play_tree_cleanup`: removes everything that has nothing to play. */
    method Cleanup(x: Id, ghost t: PT) returns (r: Ptr)
      requires IsTree(n, t) && Tidy(t) && t.id == x && (!Playable(t) ==> IsList(n, [t], Null))
      modifies this
      ensures Playable(t) ==> r == At(x) && CleanedOk(old(n), n, t)
      ensures !Playable(t) ==> r == Null && Change(old(n), n, {}, {}, Ids(t))
      decreases t, 1
    {
      hide *;
      ghost var n0 := n;
      var valid := IsValid(n, x, t);
      if !valid {
        AloneStands(n, t);
        Remove(x, [t], 0, Null);
        ghost var m := n;
        DropReady(n0, n, [t], 0, Null);
        Free(x, [t], Null);
        DropDone(n0, m, n, [t], 0, Null);
        AloneGone(n0, n, t);
        return Null;
      }
      KidsStand(n, t);
      var first := DropInvalid(x, Kids(t));
      ghost var m := n;
      KeptBelow(t);
      CleanKids(x, first, KeptAll(Kids(t)), t);
      CleanWhole(n0, m, n, t);
      r := At(x);
    }

    /** `play_tree_append_entry`: behind the last of the siblings of `pt`. */
    method Append(pt: Id, e: Id, ghost ts: seq<PT>, ghost i: nat, ghost et: PT, ghost parent: Ptr)
      requires IsList(n, ts, parent) && i < |ts| && ts[i].id == pt && et.id == e
      requires e !in Roots(ts) && e in n.next && e in n.prev && e in n.parent
      modifies this
      ensures IsList(n, ts + [et], parent) && Change(old(n), n, Roots(ts) + {e}, Head(parent), {})
    {
      hide Siblings, Change;
      ghost var n0, k := n, i;
      assert ts[i].id in Roots(ts);
      if pt == e {
        return;
      }
      var iter := pt;
      SiblingAt(n, ts, parent, k);
      while n.next[iter].At?
        invariant n == n0 && 0 <= k < |ts| && iter == ts[k].id && SiblingOk(n, ts, parent, k)
        decreases |ts| - k
      {
        iter := n.next[iter].a;
        k := k + 1;
        SiblingAt(n, ts, parent, k);
      }
      n := n.(parent := n.parent[e := n.parent[iter]]);
      n := n.(prev := n.prev[e := At(iter)]);
      n := n.(next := n.next[e := Null]);
      n := n.(next := n.next[iter := At(e)]);
      assert iter in Roots(ts) by { assert ts[k].id in Roots(ts); }
      assert n0.next[iter := At(e)][e := Null] == n0.next[e := Null][iter := At(e)];
      LinkedDone(n0, n, ts, et, |ts|, parent);
      assert Inserted(ts, et, |ts|) == ts + [et];
    }

    /** `play_tree_prepend_entry`: before the first of the siblings of `pt`. */
    method Prepend(pt: Id, e: Id, ghost ts: seq<PT>, ghost i: nat, ghost et: PT, ghost parent: Ptr)
      requires IsList(n, ts, parent) && i < |ts| && ts[i].id == pt && et.id == e
      requires e !in Roots(ts) && e in n.next && e in n.prev && e in n.parent
      modifies this
      ensures IsList(n, [et] + ts, parent) && Change(old(n), n, Roots(ts) + {e}, Head(parent), {})
    {
      hide Siblings, Change;
      ghost var n0, k := n, i;
      var iter := pt;
      SiblingAt(n, ts, parent, k);
      while n.prev[iter].At?
        invariant n == n0 && 0 <= k < |ts| && iter == ts[k].id && SiblingOk(n, ts, parent, k)
        decreases k
      {
        iter := n.prev[iter].a;
        k := k - 1;
        SiblingAt(n, ts, parent, k);
      }
      n := n.(prev := n.prev[e := Null]);
      n := n.(next := n.next[e := At(iter)]);
      n := n.(parent := n.parent[e := n.parent[iter]]);
      n := n.(prev := n.prev[iter := At(e)]);
      if n.parent[e].At? {
        n := n.(child := n.child[n.parent[e].a := At(e)]);
      }
      assert iter in Roots(ts) by { assert ts[k].id in Roots(ts); }
      assert n0.prev[iter := At(e)][e := Null] == n0.prev[e := Null][iter := At(e)];
      LinkedDone(n0, n, ts, et, 0, parent);
      assert Inserted(ts, et, 0) == [et] + ts;
    }

    /** `play_tree_insert_entry`: right behind `pt`. */
    method Insert(pt: Id, e: Id, ghost ts: seq<PT>, ghost i: nat, ghost et: PT, ghost parent: Ptr)
      requires IsList(n, ts, parent) && i < |ts| && ts[i].id == pt && et.id == e
      requires e !in Roots(ts) && e in n.next && e in n.prev && e in n.parent
      modifies this
      ensures IsList(n, Inserted(ts, et, i + 1), parent) && Change(old(n), n, Roots(ts) + {e}, Head(parent), {})
    {
      hide Siblings, Change;
      ghost var n0 := n;
      SiblingAt(n, ts, parent, i);
      SiblingAt(n, ts, parent, i + 1);
      assert ts[i].id in Roots(ts) && (i + 1 < |ts| ==> ts[i + 1].id in Roots(ts));
      n := n.(parent := n.parent[e := n.parent[pt]]);
      n := n.(prev := n.prev[e := At(pt)]);
      if n.next[pt].At? {
        n := n.(next := n.next[e := n.next[pt]]);
        n := n.(prev := n.prev[n.next[e].a := At(e)]);
      } else {
        n := n.(next := n.next[e := Null]);
      }
      n := n.(next := n.next[pt := At(e)]);
      InsertLinks(n0, n, ts, et, i, parent);
      LinkedDone(n0, n, ts, et, i + 1, parent);
    }

    /** `play_tree_set_child`: the siblings of `child` become the children of `pt`; those it had lose their parent. */
    method SetChild(pt: Id, child: Id, ghost ks: seq<PT>, ghost ts: seq<PT>, ghost i: nat, ghost parent: Ptr)
      requires IsList(n, ks, At(pt)) && IsList(n, ts, parent) && Roots(ks) !! Roots(ts) && i < |ts| && ts[i].id == child
      modifies this
      ensures IsList(n, ts, At(pt)) && IsList(n, ks, Null)
      ensures Change(old(n), n, Roots(ks) + Roots(ts), {pt}, {})
    {
      hide Change, Siblings, Reparented;
      ghost var n0, j := n, 0;
      var iter := n.child[pt];
      ReparentStart(n, ks, Null);
      while iter.At?
        invariant Reparented(n0, n, ks, j, Null) && iter == IdAt(ks, j) && j <= |ks|
        decreases |ks| - j
      {
        ReparentNext(n0, n, ks, j, Null, At(pt));
        n := n.(parent := n.parent[iter.a := Null]);
        iter := n.next[iter.a];
        j := j + 1;
      }
      ghost var n1, k := n, i;
      ReparentOther(n0, n1, ks, ts, Null, At(pt), parent);
      ReparentedIs(n0, n1, ks, j, Null);
      var first := child;
      SiblingAt(n, ts, parent, k);
      while n.prev[first].At?
        invariant n == n1 && 0 <= k < |ts| && first == ts[k].id && SiblingOk(n, ts, parent, k)
        decreases k
      {
        first := n.prev[first].a;
        k := k - 1;
        SiblingAt(n, ts, parent, k);
      }
      assert pt in n.child;
      n := n.(child := n.child[pt := At(first)]);
      ghost var n2 := n;
      HeadSet(n1, n2, ts, pt, parent);
      iter := At(first);
      j := 0;
      ReparentStart(n, ts, At(pt));
      while iter.At?
        invariant Reparented(n2, n, ts, j, At(pt)) && iter == IdAt(ts, j) && j <= |ts|
        decreases |ts| - j
      {
        ReparentNext(n2, n, ts, j, At(pt), parent);
        n := n.(parent := n.parent[iter.a := At(pt)]);
        iter := n.next[iter.a];
        j := j + 1;
      }
      SetDone(n0, n1, n2, n, ks, ts, pt, parent);
    }
  }
}
