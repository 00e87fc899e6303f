/** The bump-pointer pools of talloc.c: members cut one after the other from one block, with a count of what is in
    use. */
module TallocPool {
  import opened Common

  const POOL_HDR := 16             // TALLOC_POOL_HDR_SIZE, which holds the count
  const MAX_SIZE := 0x1000_0000    // MAX_TALLOC_SIZE
  const WORD := 0x1_0000_0000_0000_0000

  /** A live member: the bytes cut for it, and the size it was asked for. */
  datatype Member = Member(room: nat, size: nat)

  function Align(n: nat): (r: nat)
    ensures n <= r < n + 16 && r % 16 == 0
  {
    (n + 15) / 16 * 16
  }

  ghost predicate Apart(live: map<int, Member>) {
    forall a, b :: a in live && b in live && a != b ==> a + live[a].room <= b || b + live[b].room <= a
  }

  /** The members lie between `lo` and `hi`, each with room for its header and its size. */
  ghost predicate Within(live: map<int, Member>, lo: int, hi: int, hdr: nat) {
    forall a :: a in live ==> lo <= a && a + live[a].room <= hi && hdr + live[a].size <= live[a].room && a % 16 == 0
  }

  /** A member cut at the bump pointer overlaps none before it. */
  lemma CutApart(live: map<int, Member>, lo: int, bump: int, hdr: nat, m: Member)
    requires Within(live, lo, bump, hdr) && Apart(live) && lo <= bump && bump % 16 == 0
    requires 0 < hdr && hdr + m.size <= m.room
    ensures bump !in live && Apart(live[bump := m]) && Within(live[bump := m], lo, bump + m.room, hdr)
  {}

  lemma DropApart(live: map<int, Member>, lo: int, bump: int, hdr: nat, a: int)
    requires Within(live, lo, bump, hdr) && Apart(live)
    ensures Within(live - {a}, lo, bump, hdr) && Apart(live - {a})
  {}

  lemma ShrinkApart(live: map<int, Member>, lo: int, bump: int, hdr: nat, a: int, size: nat)
    requires Within(live, lo, bump, hdr) && Apart(live) && a in live
    ensures size <= live[a].size ==>
      Within(live[a := Member(live[a].room, size)], lo, bump, hdr) && Apart(live[a := Member(live[a].room, size)])
  {}

  /** The headers of the members say what they were asked for. */
  ghost predicate Headed(live: map<int, Member>, sizes: map<int, nat>) {
    forall a :: a in live ==> a in sizes && sizes[a] == live[a].size
  }

  lemma HeadedDrop(live: map<int, Member>, sizes: map<int, nat>, a: int)
    requires Headed(live, sizes)
    ensures Headed(live - {a}, sizes)
  {}

  lemma HeadedPut(live: map<int, Member>, sizes: map<int, nat>, a: int, m: Member)
    requires Headed(live, sizes)
    ensures Headed(live[a := m], sizes[a := m.size])
  {}

  class Pool {
    const hdr: nat       // TC_HDR_SIZE
    const addr: int      // of the chunk of the pool
    const size: nat      // its size, with the pool header
    var bump: int
    var count: int
    var released: bool
    var sizes: map<int, nat>   // the sizes in the headers of the members
    ghost var live: map<int, Member>
    ghost var own: bool  // the pool itself was not freed

    function Start(): int { addr + hdr + POOL_HDR }
    function End(): int { addr + hdr + size }

    ghost predicate Valid()
      reads this
    {
      && 0 < hdr && hdr % 16 == 0 && addr % 16 == 0 && POOL_HDR <= size < MAX_SIZE && 0 <= addr && End() < WORD
      && Start() <= bump <= End() && bump % 16 == 0
      && Within(live, Start(), bump, hdr) && Apart(live)
      && count == |live| + (if own then 1 else 0)
      && (released ==> count == 0)
      && Headed(live, sizes)
    }

    /** Whether the block goes back as soon as nothing in it is in use. */
    ghost predicate Prompt()
      reads this
    {
      count == 0 ==> released
    }

    /** `talloc_pool`, on the chunk allocated for it. */
    constructor (hdr: nat, addr: int, size: nat)
      requires 0 < hdr && hdr % 16 == 0 && addr % 16 == 0 && size + POOL_HDR < MAX_SIZE
      requires 0 <= addr && addr + hdr + POOL_HDR + size < WORD
      ensures Valid() && Prompt() && own && live == map[] && !released
      ensures this.hdr == hdr && End() - Start() == size && bump == Start()
    {
      this.hdr, this.addr, this.size := hdr, addr, size + POOL_HDR;
      bump := addr + hdr + POOL_HDR;
      count, released, sizes, live, own := 1, false, map[], map[], true;
    }

    /** `talloc_alloc_pool`: the next bytes of the block, if there are enough left. */
    method Cut(size: nat) returns (r: Option<int>, ghost room: nat)
      requires Valid() && !released && count > 0 && size < MAX_SIZE + hdr
      modifies this`bump, this`count
      ensures room == Align(size)
      ensures r.None? <==> End() - old(bump) < room
      ensures r.None? ==> bump == old(bump) && count == old(count)
      ensures r.Some? ==> r.value == old(bump) && bump == old(bump) + room && count == old(count) + 1 && bump <= End()
    {
      var spaceLeft := (End() - bump) % WORD;
      var chunkSize := Align(size);
      room := chunkSize;
      if spaceLeft < chunkSize {
        return None, room;
      }
      r := Some(bump);
      bump := bump + chunkSize;
      count := count + 1;
    }

    /** Allocating a member: its bytes overlap no live member and stay inside the block. */
    method Alloc(size: nat) returns (r: Option<int>)
      requires Valid() && !released && count > 0 && size < MAX_SIZE
      modifies this
      ensures Valid() && !released && own == old(own) && (old(Prompt()) ==> Prompt())
      ensures r.None? <==> End() - old(bump) < Align(hdr + size)
      ensures r.None? ==> live == old(live) && bump == old(bump)
      ensures r.Some? ==> r.value !in old(live) && live == old(live)[r.value := Member(Align(hdr + size), size)]
      ensures r.Some? ==> Start() <= r.value && r.value + Align(hdr + size) <= End()
    {
      hide Apart, Within;
      ghost var room;
      r, room := Cut(hdr + size);
      if r.Some? {
        CutApart(live, Start(), r.value, hdr, Member(room, size));
        sizes := sizes[r.value := size];
        live := live[r.value := Member(room, size)];
      }
    }

    /** The end of `_talloc_free`, for the pool or a member of it: the block is released with the last of them. */
    method Uncount()
      requires count > 0
      modifies this`count, this`released
      ensures count == old(count) - 1 && released == (old(released) || count == 0)
    {
      count := count - 1;
      if count == 0 {
        released := true;
      }
    }

    method FreeMember(a: int)
      requires Valid() && a in live && !released
      modifies this
      ensures Valid() && live == old(live) - {a} && own == old(own) && bump == old(bump)
      ensures released <==> !own && live == map[]
    {
      CountLess(live, a);
      live := live - {a};
      Uncount();
      assert |live| == 0 <==> live == map[];
    }

    method FreePool()
      requires Valid() && own && !released
      modifies this
      ensures Valid() && !own && live == old(live) && bump == old(bump)
      ensures released <==> live == map[]
    {
      own := false;
      Uncount();
      assert |live| == 0 <==> live == map[];
    }

    /** The end of `talloc_free_children`: the block starts over only when no member is live. */
    method Rewind()
      requires Valid() && own && !released
      modifies this`bump
      ensures Valid() && bump == if live == map[] then Start() else old(bump)
    {
      assert |live| == 0 <==> live == map[];
      if count == 1 {
        bump := addr + hdr + POOL_HDR;
      }
    }

    /** `_talloc_realloc` of a member: in place, to new bytes of the block, or out of the block. */
    method Realloc(a: int, size: nat) returns (r: Option<int>)
      requires Valid() && a in live && !released && 0 < size < MAX_SIZE
      modifies this
      ensures Valid() && own == old(own) && !released
      ensures r == Some(a) ==> live == old(live)[a := Member(old(live)[a].room, size)]
      ensures r.Some? && r.value != a ==>
        r.value !in old(live) && live == (old(live) - {a})[r.value := Member(Align(hdr + size), size)]
      ensures r.None? ==> live == old(live) - {a}
      ensures size < old(live)[a].size && old(live)[a].size - size < 1024 ==> r == Some(a)
      ensures size >= old(live)[a].size || old(live)[a].size - size >= 1024 ==>
        r != Some(a) && (r.None? <==> End() - old(bump) < Align(hdr + size))
      ensures old(Prompt()) ==>
        (!Prompt() <==>
          && !old(own) && old(live).Keys == {a}
          && (size >= old(live)[a].size || old(live)[a].size - size >= 1024)
          && End() - old(bump) < Align(hdr + size))
    {
      hide Apart, Within;
      ShrinkApart(live, Start(), bump, hdr, a, size);
      var tcSize := sizes[a];
      if size < tcSize && tcSize - size < 1024 {
        sizes := sizes[a := size];
        live := live[a := Member(live[a].room, size)];
        return Some(a);
      }
      NotYetCut(live, Start(), bump, hdr, a);
      r := Recut(a, size);
    }

    /** The branch of `_talloc_realloc` that gives a member new bytes. */
    method Recut(a: int, size: nat) returns (r: Option<int>)
      requires Valid() && a in live && !released && 0 < size < MAX_SIZE
      modifies this
      ensures Valid() && own == old(own) && !released && count == old(count) - (if r.Some? then 0 else 1)
      ensures r.Some? ==> r.value == old(bump) && live == (old(live) - {a})[r.value := Member(Align(hdr + size), size)]
      ensures r.None? ==> live == old(live) - {a}
      ensures r.None? <==> End() - old(bump) < Align(hdr + size)
      ensures live == map[] <==> r.None? && old(live).Keys == {a}
    {
      hide Apart, Within, Headed, Align;
      ghost var room;
      r, room := Cut(hdr + size);
      count := count - 1;
      CountLess(live, a);
      DropApart(live, Start(), old(bump), hdr, a);
      HeadedDrop(live, sizes, a);
      OnlyOne(live, a);
      live := live - {a};
      if r.Some? {
        CutApart(live, Start(), r.value, hdr, Member(room, size));
        HeadedPut(live, sizes, r.value, Member(room, size));
        sizes := sizes[r.value := size];
        live := live[r.value := Member(room, size)];
      }
      assert |live| == 0 <==> live == map[];
    }
  }

  lemma OnlyOne(live: map<int, Member>, a: int)
    requires a in live
    ensures live - {a} == map[] <==> live.Keys == {a}
  {
    var rest := live - {a};
    assert rest == map[] <==> rest.Keys == {};
    assert rest.Keys == live.Keys - {a};
    assert a in live.Keys;
  }

  /** The bump pointer is past every member. */
  lemma NotYetCut(live: map<int, Member>, lo: int, bump: int, hdr: nat, a: int)
    requires Within(live, lo, bump, hdr) && 0 < hdr && a in live
    ensures bump !in live && a != bump
  {}

  lemma CountLess(live: map<int, Member>, a: int)
    requires a in live
    ensures |live - {a}| == |live| - 1
  {
    assert (live - {a}).Keys == live.Keys - {a};
  }

  /** Reallocating the last member out of a pool that was freed before leaves the block behind: nothing in it is
      in use, and it is not released. */
  method LeakByRealloc() returns (p: Pool)
    ensures p.Valid() && !p.own && p.live == map[] && !p.released
  {
    p := new Pool(112, 0, 256);
    var a := p.Alloc(16);
    assert a.Some?;
    p.FreePool();
    var b := p.Realloc(a.value, 4096);
    assert b.None?;
  }
}
