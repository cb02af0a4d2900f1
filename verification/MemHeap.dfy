/** The memory heap object (src/memheap.c) in memory: item headers linked by addresses into an
    address ring and a free ring over the same pool, with payload bytes between the headers. */
module MemHeap {
  import opened Cells
  import opened Tiling
  import opened WaitList
  import opened Rings
  import opened MemPool

  const HEAD: int := -1                  // the free list header, outside the pool

  type Bytes = seq<bv8>

  function Los(bs: seq<Block>): seq<int> {
    seq(|bs|, i requires 0 <= i < |bs| => bs[i].lo)
  }

  function FreeRing(free: seq<nat>): seq<int> {
    [HEAD] + free
  }

  predicate UsedAt(used: map<int, bool>, b: Block) {
    b.lo in used && used[b.lo] == b.used
  }

  /** The headers represent the blocks: addresses in the address ring, used flags. */
  ghost predicate BlocksAre(next: Links, prev: Links, used: map<int, bool>, bs: seq<Block>) {
    Ring(next, prev, Los(bs)) && forall i :: 0 <= i < |bs| ==> UsedAt(used, bs[i])
  }

  predicate Starts(bs: seq<Block>, a: int) {
    At(bs, a) < |bs|
  }

  /** No payload byte of a used block differs. */
  ghost predicate Spared(d: Bytes, d1: Bytes, bs: seq<Block>) {
    |d1| == |d| && forall i :: 0 <= i < |bs| && bs[i].used ==> SamePayload(d, d1, bs[i])
  }

  predicate SamePayload(d: Bytes, d1: Bytes, b: Block) {
    b.lo + ITEM <= b.hi <= |d| && |d1| == |d| && d1[b.lo + ITEM..b.hi] == d[b.lo + ITEM..b.hi]
  }

  /** Every live block but the one at `but` is still there with its bytes. */
  ghost predicate Kept(d: Bytes, bs: seq<Block>, d1: Bytes, c: seq<Block>, but: int) {
    forall b :: b in bs && b.used && b.lo != but ==> b in c && SamePayload(d, d1, b)
  }

  lemma SparedKept(d: Bytes, d1: Bytes, bs: seq<Block>, via: seq<Block>, c: seq<Block>, but: int)
    requires Spared(d, d1, via) && forall b :: b in bs && b.used && b.lo != but ==> b in via && b in c
    ensures Kept(d, bs, d1, c, but)
  {
    forall b | b in bs && b.used && b.lo != but ensures b in c && SamePayload(d, d1, b) {
      var i :| 0 <= i < |via| && via[i] == b;
    }
  }

  lemma SparedTrans(d: Bytes, d1: Bytes, d2: Bytes, bs: seq<Block>)
    requires Spared(d, d1, bs) && Spared(d1, d2, bs)
    ensures Spared(d, d2, bs)
  {
    forall i | 0 <= i < |bs| && bs[i].used ensures SamePayload(d, d2, bs[i]) {
      assert SamePayload(d, d1, bs[i]) && SamePayload(d1, d2, bs[i]);
    }
  }

  /** Header stores spare every payload: they hit only the header of some block. */
  lemma HeaderStoreSpares(d: Bytes, d1: Bytes, bs: seq<Block>, p: nat)
    requires Tiles(bs, ITEM, |d|) && Starts(bs, p) && |d1| == |d| && p + ITEM <= |d|
    requires d1[0..p] == d[0..p] && d1[p + ITEM..|d|] == d[p + ITEM..|d|]
    ensures Spared(d, d1, bs)
  {
    Disjoint(bs, ITEM, |d|);
    var k := At(bs, p);
    forall i | 0 <= i < |bs| && bs[i].used ensures SamePayload(d, d1, bs[i]) {
      var a, b := bs[i].lo + ITEM, bs[i].hi;
      if i < k { SubRange(d1, d, 0, p, a, b); } else { SubRange(d1, d, p + ITEM, |d|, a, b); }
    }
  }

  // ------------------------------------------------------------- rings and blocks

  lemma LosNext(bs: seq<Block>, size: nat, i: nat)
    requires Tiles(bs, ITEM, size) && i + 1 < |bs|
    ensures Succ(Los(bs), i) == bs[i].hi == bs[i + 1].lo
  {
    assert Meets(bs, i);
  }

  lemma LosDistinct(bs: seq<Block>, size: nat)
    requires Tiles(bs, ITEM, size)
    ensures NoDup(Los(bs)) && forall a :: a in Los(bs) <==> Starts(bs, a)
  {
    Disjoint(bs, ITEM, size);
    forall a ensures a in Los(bs) <==> Starts(bs, a) {
      if Starts(bs, a) { assert Los(bs)[At(bs, a)] == a; }
    }
  }

  lemma LosSplit(bs: seq<Block>, i: nat, mid: nat)
    requires i < |bs|
    ensures Los(Split(bs, i, mid)) == AfterInsert(Los(bs), i, mid)
  {
    forall k | 0 <= k <= |bs| ensures Los(Split(bs, i, mid))[k]
        == AfterInsert(Los(bs), i, mid)[k] { SplitAt(bs, i, mid, k); }
  }

  lemma LosJoin(bs: seq<Block>, i: nat)
    requires i + 1 < |bs|
    ensures Los(Join(bs, i)) == Dropped(Los(bs), i + 1)
  {
    forall k | 0 <= k < |bs| - 1 ensures Los(Join(bs, i))[k] == Dropped(Los(bs), i + 1)[k] { JoinAt(bs, i, k); }
  }

  lemma LosMark(bs: seq<Block>, i: nat, u: bool)
    requires i < |bs|
    ensures Los(Mark(bs, i, u)) == Los(bs)
  {
  }

  /** What the links of block `i` say. */
  lemma LinksOf(next: Links, prev: Links, bs: seq<Block>, size: nat, i: nat)
    requires Ring(next, prev, Los(bs)) && Tiles(bs, ITEM, size) && i < |bs|
    ensures bs[i].lo in next && bs[i].lo in prev
    ensures i + 1 < |bs| ==> next[bs[i].lo] == bs[i + 1].lo == bs[i].hi
    ensures i > 0 ==> prev[bs[i].lo] == bs[i - 1].lo
    ensures i == 0 ==> prev[bs[i].lo] == bs[|bs| - 1].lo
    ensures i + 1 == |bs| ==> next[bs[i].lo] == bs[0].lo
  {
    var s := Los(bs);
    assert LinkOk(next, prev, s, i);
    assert LinkOk(next, prev, s, if i == 0 then |bs| - 1 else i - 1);
    if i + 1 < |bs| { LosNext(bs, size, i); }
  }

  lemma FreeRingDrop(free: seq<nat>, a: nat) returns (k: nat)
    requires NoDup(free) && a in free
    ensures k < |free| && FreeRing(free)[k + 1] == a && FreeRing(Without(free, a)) == Dropped(FreeRing(free), k + 1)
  {
    k :| 0 <= k < |free| && free[k] == a;
    WithoutAt(free, k);
    assert Dropped(FreeRing(free), k + 1) == [HEAD] + (free[..k] + free[k + 1..]);
  }

  lemma FreeRingPush(free: seq<nat>, a: nat)
    ensures FreeRing([a] + free) == AfterInsert(FreeRing(free), 0, a)
  {
  }

  class Heap {
    const size: nat
    const data: array<bv8>
    var next: Links
    var prev: Links
    var nextFree: Links
    var prevFree: Links
    var used: map<int, bool>
    var available: int
    var maxUsed: int
    ghost var blocks: seq<Block>
    ghost var free: seq<nat>

    ghost function View(): Pool
      reads this`blocks, this`free, this`available, this`maxUsed
    {
      Pool(size, blocks, free, available, maxUsed)
    }

    ghost predicate FreeIs(f: seq<nat>)
      reads this`nextFree, this`prevFree
    {
      Ring(nextFree, prevFree, FreeRing(f))
    }

    ghost predicate BlocksIn(bs: seq<Block>)
      reads this`next, this`prev, this`used
    {
      BlocksAre(next, prev, used, bs)
    }

    ghost predicate Shape()
      reads this
    {
      data.Length == size && BlocksIn(blocks) && FreeIs(free)
    }

    /** Both rings are coherent over one pool, and the counters match. */
    ghost predicate Valid()
      reads this
    {
      Shape() && PoolOk(View())
    }

    /** rt_memheap_init: the size is rounded down; the bytes of the pool are whatever they were. */
    constructor (bytes: nat)
      requires 2 * ITEM <= AlignDown(bytes)
      ensures Valid() && fresh(data) && size == AlignDown(bytes) && View() == Fresh(AlignDown(bytes))
    {
      var size := AlignDown(bytes);
      this.size := size;
      data := new bv8[size];
      var tail := size - ITEM;
      next := map[0 := tail, tail := 0];
      prev := map[0 := tail, tail := 0];
      nextFree := map[HEAD := 0, 0 := HEAD];
      prevFree := map[HEAD := 0, 0 := HEAD];
      used := map[0 := false, tail := true];
      available := size - 2 * ITEM;
      maxUsed := 2 * ITEM;
      blocks := Fresh(size).blocks;
      free := [0];
      FreshOk(size);
      FreshRings(size, tail);
    }

    /** Any store to the header at `p`: the bytes under it are lost. */
    method Stamp(p: nat, ghost bs: seq<Block>)
      requires data.Length == size && Tiles(bs, ITEM, size) && Starts(bs, p)
      modifies data
      ensures Spared(old(data[..]), data[..], bs)
    {
      StartsInside(bs, size, p);
      ghost var d := data[..];
      var k := 0;
      while k < ITEM
        invariant 0 <= k <= ITEM
        invariant data[0..p] == d[0..p] && data[p + ITEM..size] == d[p + ITEM..size]
      {
        data[p + k] := *;
        k := k + 1;
      }
      assert data[..][0..p] == data[0..p] && data[..][p + ITEM..size] == data[p + ITEM..size];
      HeaderStoreSpares(d, data[..], bs, p);
    }

    /** Links block `q`, whose header is new, behind block `p` in the address ring. */
    method LinkBlock(p: nat, q: nat, ghost s: seq<int>, ghost i: nat, ghost c: seq<Block>)
      requires Ring(next, prev, s) && i < |s| && s[i] == p && Succ(s, i) >= 0 && q !in s
      requires data.Length == size && Tiles(c, ITEM, size) && Starts(c, p) && Starts(c, q) && Starts(c, Succ(s, i))
      modifies this`next, this`prev, data
      ensures Ring(next, prev, AfterInsert(s, i, q)) && Spared(old(data[..]), data[..], c)
    {
      assert LinkOk(next, prev, s, i);
      InsertRing(next, prev, s, i, q);
      var n := next[p];
      prev := prev[q := p];
      next := next[q := n];
      prev := prev[n := q];
      next := next[p := q];
      StampThree(q, n, p, c);
    }

    method StampThree(a: nat, b: nat, d: nat, ghost c: seq<Block>)
      requires data.Length == size && Tiles(c, ITEM, size) && Starts(c, a) && Starts(c, b) && Starts(c, d)
      modifies data
      ensures Spared(old(data[..]), data[..], c)
    {
      ghost var d0 := data[..];
      Stamp(a, c);
      ghost var d1 := data[..];
      Stamp(b, c);
      SparedTrans(d0, d1, data[..], c);
      d1 := data[..];
      Stamp(d, c);
      SparedTrans(d0, d1, data[..], c);
    }

    /** Takes block `q` out of the address ring. */
    method UnlinkBlock(q: nat, ghost s: seq<int>, ghost i: nat, ghost c: seq<Block>)
      requires Ring(next, prev, s) && i < |s| && s[i] == q && |s| > 1
      requires data.Length == size && Tiles(c, ITEM, size) && forall a :: a in s && a != q ==> Starts(c, a) && a >= 0
      modifies this`next, this`prev, data
      ensures Ring(next, prev, Dropped(s, i)) && Spared(old(data[..]), data[..], c)
    {
      DropRing(next, prev, s, i);
      NeighboursIn(next, prev, s, i);
      var p, n := prev[q], next[q];
      prev := prev[n := p];
      next := next[p := n];
      StampThree(p, n, p, c);
    }

    /** Takes the free block at `q` out of the free ring. */
    method UnlinkFree(q: nat, ghost f: seq<nat>, ghost c: seq<Block>)
      requires FreeIs(f) && NoDup(f) && q in f
      requires data.Length == size && Tiles(c, ITEM, size) && forall a :: a in f && a != q ==> Starts(c, a)
      modifies this`nextFree, this`prevFree, data
      ensures FreeIs(Without(f, q)) && Spared(old(data[..]), data[..], c)
    {
      ghost var k := FreeRingDrop(f, q);
      ghost var s := FreeRing(f);
      DropRing(nextFree, prevFree, s, k + 1);
      NeighboursIn(nextFree, prevFree, s, k + 1);
      var p, n := prevFree[q], nextFree[q];
      prevFree := prevFree[n := p];
      nextFree := nextFree[p := n];
      StampTwo(p, n, c);
    }

    /** Header stores through free links, either of which may be the list header. */
    method StampTwo(a: int, b: int, ghost c: seq<Block>)
      requires data.Length == size && Tiles(c, ITEM, size)
      requires (a == HEAD || (a >= 0 && Starts(c, a))) && (b == HEAD || (b >= 0 && Starts(c, b)))
      modifies data
      ensures Spared(old(data[..]), data[..], c)
    {
      ghost var d0 := data[..];
      SparedSelf(d0, c);
      if a != HEAD { Stamp(a, c); }
      ghost var d1 := data[..];
      SparedSelf(d1, c);
      if b != HEAD { Stamp(b, c); }
      SparedTrans(d0, d1, data[..], c);
    }

    /** Puts the block at `q` first on the free list. */
    method PushFree(q: nat, ghost f: seq<nat>, ghost c: seq<Block>)
      requires FreeIs(f) && q !in f
      requires data.Length == size && Tiles(c, ITEM, size) && Starts(c, q) && forall a :: a in f ==> Starts(c, a)
      modifies this`nextFree, this`prevFree, data
      ensures FreeIs([q] + f) && Spared(old(data[..]), data[..], c)
    {
      ghost var s := FreeRing(f);
      assert LinkOk(nextFree, prevFree, s, 0);
      assert q !in s && Succ(s, 0) in s;
      InsertRing(nextFree, prevFree, s, 0, q);
      FreeRingPush(f, q);
      var n := nextFree[HEAD];
      nextFree := nextFree[q := n];
      prevFree := prevFree[q := HEAD];
      prevFree := prevFree[n := q];
      nextFree := nextFree[HEAD := q];
      ghost var d0 := data[..];
      Stamp(q, c);
      ghost var d1 := data[..];
      StampTwo(n, n, c);
      SparedTrans(d0, d1, data[..], c);
    }

    /** Walks the free list from its head; HEAD when no block has room for `n` bytes. */
    method Search(n: nat) returns (p: int)
      requires Valid() && n > 0
      ensures var k := FirstFit(blocks, free, n);
        p == if k < |free| then free[k] else HEAD
    {
      var room := 0;
      ghost var s, k := FreeRing(free), 0;
      assert LinkOk(nextFree, prevFree, s, 0);
      p := nextFree[HEAD];
      ghost var all := FirstFit(blocks, free, n);
      while p != HEAD && room < n
        invariant 0 <= k <= |free| && p == (if k < |free| then free[k] else HEAD)
        invariant FirstFit(blocks, free, n, k) == all
        invariant room >= n > 0 ==> k < |free| && FitsAt(blocks, free[k], n)
        decreases |free| - k, n - room
      {
        assert LinkOk(nextFree, prevFree, s, k + 1);
        FreeRoom(next, prev, View(), free[k]);
        room := next[p] - p - ITEM;
        if room < n {
          p := nextFree[p];
          k := k + 1;
        }
      }
    }

    /** Builds a new free block's header at `q` inside block `i`, at `p`, which is used from now on. */
    method CutBlock(p: nat, q: nat, ghost i: nat)
      requires data.Length == size && BlocksIn(blocks) && Tiles(blocks, ITEM, size) && i < |blocks| && blocks[i].lo == p
      requires p + ITEM <= q && q + ITEM <= blocks[i].hi
      modifies this`next, this`prev, this`used, data
      ensures BlocksIn(Split(blocks, i, q)) && Spared(old(data[..]), data[..], Split(blocks, i, q))
    {
      ghost var bs, d, c := blocks, data[..], Split(blocks, i, q);
      SplitTiles(bs, i, q, ITEM, size);
      SplitStarts(bs, size, i, q);
      LosSplit(bs, i, q);
      LinkBlock(p, q, Los(bs), i, c);
      UsedSplit(used, bs, size, i, q);
      used := used[q := false][p := true];
      ghost var d1 := data[..];
      StampTwo(q, p, c);
      SparedTrans(d, d1, data[..], c);
    }

    /** Free list entry `p` gives way to `q`, which goes to the front. */
    method ReplaceFree(p: nat, q: nat, ghost f: seq<nat>, ghost c: seq<Block>)
      requires FreeIs(f) && NoDup(f) && p in f && q !in Without(f, p)
      requires data.Length == size && Tiles(c, ITEM, size) && Starts(c, q)
      requires forall a :: a in f && a != p ==> Starts(c, a)
      modifies this`nextFree, this`prevFree, data
      ensures FreeIs([q] + Without(f, p)) && Spared(old(data[..]), data[..], c)
    {
      ghost var d := data[..];
      UnlinkFree(p, f, c);
      ghost var d1 := data[..];
      PushFree(q, Without(f, p), c);
      SparedTrans(d, d1, data[..], c);
    }

    /** The splitting half of an allocation: block `i`, at `p`, keeps `n` bytes. */
    method TakeSplit(p: nat, n: nat, ghost i: nat)
      requires Shape() && PoolOk(View()) && i < |blocks| && !blocks[i].used && blocks[i].lo == p
      requires n % ALIGN_SIZE == 0 && Splits(blocks[i], n)
      modifies this, data
      ensures Shape() && View() == Taken(old(View()), i, n) && Spared(old(data[..]), data[..], blocks)
    {
      ghost var t := Taken(View(), i, n);
      var q := p + ITEM + n;
      RingsForSplit(p, q, i);
      Adjust(0 - n - ITEM, t);
    }

    /** Both rings after block `i`, at `p`, was split at `q`. */
    method RingsForSplit(p: nat, q: nat, ghost i: nat)
      requires Shape() && PoolOk(View()) && i < |blocks| && !blocks[i].used && blocks[i].lo == p
      requires p + ITEM <= q && q + ITEM <= blocks[i].hi
      modifies this`next, this`prev, this`used, this`nextFree, this`prevFree, data
      ensures BlocksIn(Split(blocks, i, q)) && FreeIs([q] + Without(free, p))
      ensures Spared(old(data[..]), data[..], Split(blocks, i, q))
    {
      ghost var c, d := Split(blocks, i, q), data[..];
      SplitReplaces(View(), i, q);
      CutBlock(p, q, i);
      ghost var d1 := data[..];
      ReplaceFree(p, q, free, c);
      SparedTrans(d, d1, data[..], c);
    }

    /** Takes `p` off the free list and marks its block used. */
    method ClaimBlock(p: nat, ghost i: nat, ghost c: seq<Block>)
      requires Shape() && PoolOk(View()) && i < |blocks| && !blocks[i].used && blocks[i].lo == p
          && c == Mark(blocks, i, true)
      modifies this`nextFree, this`prevFree, this`used, data
      ensures BlocksIn(c) && FreeIs(Without(free, p)) && Spared(old(data[..]), data[..], c)
    {
      ghost var d := data[..];
      ClaimStarts(View(), i);
      UnlinkFree(p, free, c);
      UsedMark(used, blocks, size, i, true);
      used := used[p := true];
      ghost var d1 := data[..];
      Stamp(p, c);
      SparedTrans(d, d1, data[..], c);
    }

    /** An allocation that takes block `i`, at `p`, whole. */
    method TakeWhole(p: nat, n: nat, ghost i: nat)
      requires Shape() && PoolOk(View()) && i < |blocks| && !blocks[i].used && blocks[i].lo == p
          && !Splits(blocks[i], n)
      modifies this, data
      ensures Shape() && View() == Taken(old(View()), i, n) && Spared(old(data[..]), data[..], blocks)
    {
      ghost var t := Taken(View(), i, n);
      NotTail(blocks, size, i);
      var room := ItemRoom(p, blocks, i);
      ClaimBlock(p, i, t.blocks);
      Adjust(-room, t);
    }

    /** Hands out free block `i`, at `p`, whose room is at least `n`. */
    method Take(p: nat, n: nat, ghost i: nat)
      requires Valid() && i < |blocks| && !blocks[i].used && blocks[i].lo == p && n % ALIGN_SIZE == 0
          && Room(blocks[i]) >= n
      modifies this, data
      ensures Valid() && View() == Handed(old(View()), i, n) && Spared(old(data[..]), data[..], blocks)
    {
      HandedOk(View(), i, n);
      LinksOf(next, prev, blocks, size, i);
      NotTail(blocks, size, i);
      var room := next[p] - p - ITEM;
      if room >= n + ITEM + MINI {
        TakeSplit(p, n, i);
      } else {
        TakeWhole(p, n, i);
      }
      if size - available > maxUsed { maxUsed := size - available; }
    }

    /** rt_memheap_alloc for an aligned size: the payload address, or None. */
    method AllocAligned(n: nat) returns (r: Option<nat>)
      requires Valid() && n > 0 && n % ALIGN_SIZE == 0
      modifies this, data
      ensures Valid() && View() == Alloced(old(View()), n)
      ensures r == AllocResult(old(View()), n) && (r.None? ==> data[..] == old(data[..]))
      ensures Kept(old(data[..]), old(blocks), data[..], blocks, -1)
    {
      ghost var bs, d := blocks, data[..];
      SelfKept(d, bs, size);
      if !(n < available) { return None; }
      var p := Search(n);
      if p == HEAD { return None; }
      r := Some(p + ITEM);
      TakeFound(p, n);
    }

    /** Hands out the block the search found. */
    method TakeFound(p: nat, n: nat)
      requires Valid() && n % ALIGN_SIZE == 0 && Found(View(), n) == Some(p)
      modifies this, data
      ensures Valid() && View() == Alloced(old(View()), n)
      ensures Kept(old(data[..]), old(blocks), data[..], blocks, -1)
    {
      ghost var bs, d := blocks, data[..];
      FreeIsFree(View(), p);
      AllocKeeps(View(), n);
      Take(p, n, At(blocks, p));
      SparedKept(d, data[..], bs, blocks, blocks, -1);
    }

    /** rt_memheap_alloc */
    method Alloc(n: nat) returns (r: Option<nat>)
      requires Valid()
      modifies this, data
      ensures Valid() && View() == Alloced(old(View()), Request(n))
      ensures r == AllocResult(old(View()), Request(n))
      ensures Kept(old(data[..]), old(blocks), data[..], blocks, -1)
    {
      var size := Align(n);
      if size < MINI { size := MINI; }
      assert size == Request(n);
      r := AllocAligned(size);
    }

    /** Marks used block `i`, at `a`, free. */
    method Unclaim(a: nat, ghost i: nat)
      requires data.Length == size && BlocksIn(blocks) && Tiles(blocks, ITEM, size) && i < |blocks| && blocks[i].lo == a
      requires Tiles(Mark(blocks, i, false), ITEM, size)
      modifies this`used, data
      ensures BlocksIn(Mark(blocks, i, false)) && Spared(old(data[..]), data[..], Mark(blocks, i, false))
    {
      MarkStarts(blocks, size, i, false);
      LosDistinct(blocks, size);
      assert Los(blocks)[i] == a;
      UsedMark(used, blocks, size, i, false);
      used := used[a := false];
      Stamp(a, Mark(blocks, i, false));
    }

    /** Merges free block `i` of `b`, at `a`, into its predecessor when that is free; `h` is the
        address of the result. */
    method MergeLeft(a: nat, ghost b: seq<Block>, ghost i: nat) returns (h: nat, left: bool)
      requires data.Length == size && BlocksIn(b) && Tiles(b, ITEM, size) && TailOk(b, size)
      requires i + 1 < |b| && !b[i].used && b[i].lo == a
      modifies this`next, this`prev, data
      ensures left == FreePrev(b, i) && h == (if left then b[i - 1].lo else a)
      ensures BlocksIn(Backward(b, i)) && Spared(old(data[..]), data[..], b)
    {
      LinksOf(next, prev, b, size, i);
      LosDistinct(b, size);
      SparedSelf(data[..], b);
      var q := prev[a];
      assert UsedAt(used, b[if i == 0 then |b| - 1 else i - 1]);
      left := !used[q];
      h := a;
      if left {
        h := q;
        LosJoin(b, i - 1);
        UsedJoin(used, b, i - 1);
        UnlinkBlock(a, Los(b), i, b);
      }
    }

    /** Merges the successor of free block `k` of `b`, at `h`, into it when that is free, taking
        the successor off free list `f`. */
    method MergeRight(h: nat, ghost b: seq<Block>, ghost k: nat, ghost f: seq<nat>, ghost c: seq<Block>)
            returns (r: nat, right: bool)
      requires data.Length == size && BlocksIn(b) && Tiles(b, ITEM, size) && k + 1 < |b| && !b[k].used && b[k].lo == h
      requires FreeIs(f) && NoDup(f) && (FreeNext(b, k) ==> b[k + 1].lo in f) && forall a :: a in f ==> Starts(c, a)
      requires Tiles(c, ITEM, size) && forall a :: a in Los(b) ==> Starts(c, a)
      modifies this`next, this`prev, this`nextFree, this`prevFree, data
      ensures right == FreeNext(b, k) && r == b[k + 1].lo
      ensures BlocksIn(Forward(b, k)) && FreeIs(if right then Without(f, r) else f)
      ensures Spared(old(data[..]), data[..], c)
    {
      LinksOf(next, prev, b, size, k);
      SparedSelf(data[..], c);
      r := next[h];
      assert UsedAt(used, b[k + 1]);
      right := !used[r];
      if right {
        ghost var d := data[..];
        LosJoin(b, k);
        UsedJoin(used, b, k);
        assert Los(b)[k + 1] == r;
        UnlinkBlock(r, Los(b), k + 1, c);
        ghost var d1 := data[..];
        UnlinkFree(r, f, c);
        SparedTrans(d, d1, data[..], c);
      }
    }

    /** Both merges of rt_memheap_free, after block `i`, at `a`, was marked free. */
    method MergeBoth(a: nat, ghost bs: seq<Block>, ghost i: nat) returns (left: bool, right: bool)
      requires data.Length == size && BlocksOk(bs, size) && i + 1 < |bs| && bs[i].used && bs[i].lo == a
      requires BlocksIn(Mark(bs, i, false)) && FreeIs(free) && ListsOk(View().(blocks := bs))
      modifies this`next, this`prev, this`nextFree, this`prevFree, data
      ensures left == FreePrev(bs, i) && right == FreeNext(bs, i)
      ensures BlocksIn(Release(bs, i)) && FreeIs(NextOff(View().(blocks := bs), i))
      ensures Spared(old(data[..]), data[..], Mark(bs, i, false))
    {
      ghost var b, d := Mark(bs, i, false), data[..];
      ReleaseOrder(bs, size, i);
      MergeStarts(View().(blocks := bs), i);
      var h: nat;
      h, left := MergeLeft(a, b, i);
      ghost var d1 := data[..];
      ghost var k := if left then i - 1 else i;
      var r;
      r, right := MergeRight(h, Backward(b, i), k, free, b);
      SparedTrans(d, d1, data[..], b);
    }

    /** Both rings after used block `i`, at `a`, was released. */
    method RingsForFree(a: nat, ghost i: nat) returns (left: bool, right: bool)
      requires Shape() && PoolOk(View()) && i + 1 < |blocks| && blocks[i].used && blocks[i].lo == a
      modifies this`next, this`prev, this`used, this`nextFree, this`prevFree, data
      ensures left == FreePrev(blocks, i) && right == FreeNext(blocks, i)
      ensures BlocksIn(Release(blocks, i)) && FreeIs(Freed(View(), i).free)
      ensures Spared(old(data[..]), data[..], Mark(blocks, i, false))
    {
      ghost var d, b := data[..], Mark(blocks, i, false);
      FreePushes(View(), i);
      Unclaim(a, i);
      ghost var d1 := data[..];
      left, right := MergeBoth(a, blocks, i);
      SparedTrans(d, d1, data[..], b);
      if !left {
        d1 := data[..];
        PushFree(a, NextOff(View(), i), b);
        SparedTrans(d, d1, data[..], b);
      }
    }

    /** Rings and counter after used block `i`, at `a`, was released. */
    method ReleaseBlock(a: nat, ghost i: nat)
      requires Shape() && PoolOk(View()) && i + 1 < |blocks| && blocks[i].used && blocks[i].lo == a
      modifies this, data
      ensures Shape() && View() == Freed(old(View()), i)
      ensures Spared(old(data[..]), data[..], Mark(old(blocks), i, false))
    {
      ghost var t := Freed(View(), i);
      LinksOf(next, prev, blocks, size, i);
      var room := next[a] - a - ITEM;
      var left, right := RingsForFree(a, i);
      Adjust(room + (if left then ITEM else 0) + (if right then ITEM else 0), t);
    }

    /** rt_memheap_free of used block `i`, at `a`. */
    method FreeBlock(a: nat, ghost i: nat)
      requires Valid() && i + 1 < |blocks| && blocks[i].used && blocks[i].lo == a
      modifies this, data
      ensures Valid() && View() == Freed(old(View()), i)
      ensures Kept(old(data[..]), old(blocks), data[..], blocks, a)
    {
      ghost var bs, d := blocks, data[..];
      FreeOk(View(), i);
      OthersReleased(bs, size, i);
      ReleaseBlock(a, i);
      SparedKept(d, data[..], bs, Mark(bs, i, false), blocks, a);
    }

    /** rt_memheap_free: NULL is ignored. */
    method Free(ptr: Option<nat>)
      requires Valid() && (ptr.Some? ==> Live(View(), ptr.value))
      modifies this, data
      ensures Valid() && View() == if ptr.None? then old(View())
          else Freed(old(View()), IndexOf(old(View()), ptr.value))
      ensures ptr.Some? ==> Kept(old(data[..]), old(blocks), data[..], blocks, ptr.value - ITEM)
      ensures ptr.None? ==> data[..] == old(data[..])
    {
      if ptr.None? { return; }
      FreeBlock(ptr.value - ITEM, IndexOf(View(), ptr.value));
    }

    /** Moves the border between used block `i`, at `a`, and its free successor, at `r`, to `q`. */
    method MoveBorder(a: nat, r: nat, q: nat, ghost i: nat)
      requires data.Length == size && BlocksIn(blocks) && BlocksOk(blocks, size) && i + 1 < |blocks|
      requires blocks[i].used && !blocks[i + 1].used && blocks[i].lo == a && blocks[i + 1].lo == r
      requires q % ALIGN_SIZE == 0 && r < q && q + ITEM <= blocks[i + 1].hi
      modifies this`next, this`prev, this`used, data
      ensures BlocksIn(Regrown(blocks, i, q)) && Spared(old(data[..]), data[..], Regrown(blocks, i, q))
    {
      ghost var d, c := data[..], Regrown(blocks, i, q);
      Disjoint(blocks, ITEM, size);
      RegrownTiles(blocks, i, q, size);
      RegrownStarts(blocks, size, i, q);
      MoveLinks(a, r, q, i);
      ghost var d1 := data[..];
      UsedRegrown(used, blocks, size, i, q);
      used := used[q := false];
      Stamp(q, c);
      SparedTrans(d, d1, data[..], c);
    }

    /** Takes `r` off the address ring and links `q` in its place. */
    method MoveLinks(a: nat, r: nat, q: nat, ghost i: nat)
      requires data.Length == size && BlocksIn(blocks) && BlocksOk(blocks, size) && i + 1 < |blocks|
      requires blocks[i].used && !blocks[i + 1].used && blocks[i].lo == a && blocks[i + 1].lo == r
      requires q % ALIGN_SIZE == 0 && r < q && q + ITEM <= blocks[i + 1].hi
      modifies this`next, this`prev, data
      ensures Ring(next, prev, Los(Regrown(blocks, i, q))) && Spared(old(data[..]), data[..], Regrown(blocks, i, q))
    {
      ghost var s, d, c := Los(blocks), data[..], Regrown(blocks, i, q);
      Disjoint(blocks, ITEM, size);
      RegrownTiles(blocks, i, q, size);
      RegrownStarts(blocks, size, i, q);
      UnlinkBlock(r, s, i + 1, c);
      ghost var d1 := data[..];
      LinkBlock(a, q, Dropped(s, i + 1), i, c);
      SparedTrans(d, d1, data[..], c);
    }

    /** MEMITEM_SIZE of block `k` of `b`, at `a`. */
    method ItemRoom(a: nat, ghost b: seq<Block>, ghost k: nat) returns (room: int)
      requires Ring(next, prev, Los(b)) && Tiles(b, ITEM, size) && k + 1 < |b| && b[k].lo == a
      ensures room == Room(b[k])
    {
      LinksOf(next, prev, b, size, k);
      room := next[a] - a - ITEM;
    }

    /** The growing branch of rt_memheap_realloc. */
    method GrowInPlace(a: nat, n: nat, ghost i: nat)
      requires Valid() && i + 1 < |blocks| && blocks[i].used && blocks[i].lo == a && n % ALIGN_SIZE == 0
      requires n > Room(blocks[i]) && Grows(blocks, i, n)
      modifies this, data
      ensures Valid() && View() == Grown(old(View()), i, n)
      ensures Spared(old(data[..]), data[..], blocks)
    {
      GrownOk(View(), i, n);
      Enlarge(a, n, i);
      if size - available > maxUsed { maxUsed := size - available; }
    }

    method Enlarge(a: nat, n: nat, ghost i: nat)
      requires Shape() && PoolOk(View()) && i + 1 < |blocks| && blocks[i].used && blocks[i].lo == a
          && n % ALIGN_SIZE == 0
      requires n > Room(blocks[i]) && Grows(blocks, i, n)
      modifies this, data
      ensures Shape() && View() == Enlarged(old(View()), i, n)
      ensures Spared(old(data[..]), data[..], blocks)
    {
      ghost var t := Enlarged(View(), i, n);
      LinksOf(next, prev, blocks, size, i);
      var r, q := next[a], a + ITEM + n;
      var was := ItemRoom(a, blocks, i);
      AlignedSum(a, n);
      RingsForGrow(a, r, q, i);
      Adjust(was - n, t);
    }

    method RingsForGrow(a: nat, r: nat, q: nat, ghost i: nat)
      requires Shape() && PoolOk(View()) && i + 1 < |blocks| && blocks[i].used && !blocks[i + 1].used
      requires blocks[i].lo == a && blocks[i + 1].lo == r && q % ALIGN_SIZE == 0 && r < q
          && q + ITEM <= blocks[i + 1].hi
      modifies this`next, this`prev, this`used, this`nextFree, this`prevFree, data
      ensures BlocksIn(Regrown(blocks, i, q)) && FreeIs([q] + Without(free, r))
      ensures Spared(old(data[..]), data[..], Regrown(blocks, i, q))
    {
      ghost var d := data[..];
      MoveBorder(a, r, q, i);
      ghost var d1 := data[..];
      GrowFree(r, q, i);
      SparedTrans(d, d1, data[..], Regrown(blocks, i, q));
    }

    method GrowFree(r: nat, q: nat, ghost i: nat)
      requires data.Length == size && FreeIs(free) && ListsOk(View()) && i + 1 < |blocks| && blocks[i].used
          && !blocks[i + 1].used
      requires blocks[i + 1].lo == r && q % ALIGN_SIZE == 0 && r < q && q + ITEM <= blocks[i + 1].hi
      modifies this`nextFree, this`prevFree, data
      ensures FreeIs([q] + Without(free, r)) && Spared(old(data[..]), data[..], Regrown(blocks, i, q))
    {
      Disjoint(blocks, ITEM, size);
      RegrownTiles(blocks, i, q, size);
      RegrownReplaces(View(), i, q);
      ReplaceFree(r, q, free, Regrown(blocks, i, q));
    }

    /** The rings after used block `i`, at `a`, gave up its tail from `q` on. */
    method RingsForCut(a: nat, q: nat, ghost i: nat) returns (r: nat, right: bool)
      requires Shape() && PoolOk(View()) && i + 1 < |blocks| && blocks[i].used && blocks[i].lo == a
      requires a + ITEM <= q && q + ITEM <= blocks[i].hi
      modifies this`next, this`prev, this`used, this`nextFree, this`prevFree, data
      ensures right == FreeNext(blocks, i) && r == blocks[i + 1].lo
      ensures BlocksIn(Shrunk(blocks, i, q)) && FreeIs([q] + NextOff(View(), i))
      ensures Spared(old(data[..]), data[..], Split(blocks, i, q))
    {
      ghost var d, c := data[..], Split(blocks, i, q);
      CutStarts(View(), i, q);
      CutFree(View(), i, q);
      CutBlock(a, q, i);
      ghost var d1 := data[..];
      r, right := MergeRight(q, c, i + 1, free, c);
      SparedTrans(d, d1, data[..], c);
      d1 := data[..];
      PushFree(q, NextOff(View(), i), c);
      SparedTrans(d, d1, data[..], c);
    }

    /** The room of the block behind block `i`, when that is free, and 0 otherwise. */
    method FreeFollower(a: nat, ghost i: nat) returns (room: int)
      requires BlocksIn(blocks) && BlocksOk(blocks, size) && i + 1 < |blocks| && blocks[i].lo == a
      ensures room == if FreeNext(blocks, i) then Room(blocks[i + 1]) else 0
    {
      LinksOf(next, prev, blocks, size, i);
      assert UsedAt(used, blocks[i + 1]);
      room := 0;
      if !used[next[a]] {
        NotTail(blocks, size, i + 1);
        room := ItemRoom(next[a], blocks, i + 1);
      }
    }

    /** Adjusts the counter once both rings represent pool `t`. */
    method Adjust(change: int, ghost t: Pool)
      requires data.Length == size && BlocksIn(t.blocks) && FreeIs(t.free)
      requires t == Pool(size, t.blocks, t.free, available + change, maxUsed)
      modifies this`available, this`blocks, this`free
      ensures Shape() && View() == t
    {
      available := available + change;
      blocks, free := t.blocks, t.free;
    }

    /** The shrinking branch of rt_memheap_realloc. */
    method CutTail(a: nat, n: nat, ghost i: nat)
      requires Valid() && i + 1 < |blocks| && blocks[i].used && blocks[i].lo == a && n % ALIGN_SIZE == 0
      requires n + ITEM + MINI < Room(blocks[i])
      modifies this, data
      ensures Valid() && View() == CutDown(old(View()), i, n)
      ensures Spared(old(data[..]), data[..], Split(old(blocks), i, a + ITEM + n))
    {
      CutDownOk(View(), i, n);
      CutDownTiles(View(), i, n);
      CutRings(a, n, i);
    }

    method CutRings(a: nat, n: nat, ghost i: nat)
      requires Shape() && PoolOk(View()) && i + 1 < |blocks| && blocks[i].used && blocks[i].lo == a
      requires n + ITEM + MINI < Room(blocks[i]) && Tiles(Shrunk(blocks, i, a + ITEM + n), ITEM, size)
      modifies this, data
      ensures Shape() && View() == CutDown(old(View()), i, n)
      ensures Spared(old(data[..]), data[..], Split(old(blocks), i, a + ITEM + n))
    {
      ghost var t := CutDown(View(), i, n);
      CutDownIs(View(), i, n);
      var change := CutAndMeasure(a, a + ITEM + n, i, t);
      Adjust(change, t);
    }

    /** Cuts off the tail; `change` is what the free room gains: the new free block's room less
        that of the block it absorbed. */
    method CutAndMeasure(a: nat, q: nat, ghost i: nat, ghost t: Pool) returns (change: int)
      requires Shape() && PoolOk(View()) && i + 1 < |blocks| && blocks[i].used && blocks[i].lo == a
      requires a + ITEM <= q && q + ITEM <= blocks[i].hi && Tiles(Shrunk(blocks, i, q), ITEM, size)
      requires CutResult(View(), i, q, t)
      modifies this`next, this`prev, this`used, this`nextFree, this`prevFree, data
      ensures BlocksIn(t.blocks) && FreeIs(t.free) && t == Pool(size, t.blocks, t.free, available + change, maxUsed)
      ensures Spared(old(data[..]), data[..], Split(blocks, i, q))
    {
      var room := FreeFollower(a, i);
      var r, right := RingsForCut(a, q, i);
      var tail := ItemRoom(q, t.blocks, i + 1);
      change := tail - room;
    }

    /** rt_memcpy of `n` bytes into the payload of used block `j`. */
    method CopyBytes(to: nat, from: nat, n: nat, ghost j: nat)
      requires data.Length == size && Tiles(blocks, ITEM, size) && j < |blocks| && blocks[j].used
      requires to == blocks[j].lo + ITEM && to + n <= blocks[j].hi && to + n <= size && from + n <= size
      requires from + n <= to || to + n <= from
      modifies data
      ensures data[to..to + n] == old(data[from..from + n])
      ensures Kept(old(data[..]), blocks, data[..], blocks, blocks[j].lo)
    {
      ghost var d := data[..];
      CopyCells(data, to, from, n);
      CopyKept(d, data[..], blocks, size, j, n);
    }

    /** The moving branch of rt_memheap_realloc: allocate, copy, free the old block. */
    method Move(p: nat, n: nat, was: nat) returns (r: Option<nat>)
      requires Valid() && Live(View(), p) && n > 0 && n % ALIGN_SIZE == 0
      requires was == Room(blocks[IndexOf(View(), p)]) && was < n
      modifies this, data
      ensures Valid() && View() == Moved(old(View()), p, n)
      ensures r == AllocResult(old(View()), n)
      ensures r.None? ==> View() == old(View()) && data[..] == old(data[..])
      ensures Kept(old(data[..]), old(blocks), data[..], blocks, p - ITEM)
      ensures r.Some? ==> SameBytes(old(data[..]), p, data[..], r.value, was)
    {
      ghost var s, d := View(), data[..];
      LiveThroughAlloc(s, p, n);
      r := AllocAligned(n);
      if r.Some? {
        var q := r.value;
        ghost var d1, b1 := data[..], blocks;
        CopyToNew(s, p, q, n, was);
        ghost var d2 := data[..];
        Free(Some(p));
        MoveKept(s, p, q, n, was, d, d1, d2, data[..], b1, blocks);
      } else {
        KeptWeaken(d, s.blocks, data[..], blocks, p - ITEM);
      }
    }

    /** Copies the old payload into the block just allocated for it. */
    method CopyToNew(ghost s: Pool, p: nat, q: nat, n: nat, was: nat)
      requires Valid() && PoolOk(s) && Live(s, p) && n % ALIGN_SIZE == 0 && was < n
          && was == Room(s.blocks[IndexOf(s, p)])
      requires View() == Alloced(s, n) && AllocResult(s, n) == Some(q)
      modifies data
      ensures Valid() && SameBytes(old(data[..]), p, data[..], q, was)
      ensures Kept(old(data[..]), blocks, data[..], blocks, q - ITEM)
    {
      LiveThroughAlloc(s, p, n);
      AllocGrants(s, n);
      NewApart(s, p, n);
      ghost var d := data[..];
      CopyBytes(q, p, was, At(blocks, q - ITEM));
      assert data[..][q..q + was] == data[q..q + was] && d[p..p + was] == old(data[p..p + was]);
    }

    /** rt_memheap_realloc of a live block to an aligned size. */
    method Resize(p: nat, n: nat) returns (r: Option<nat>)
      requires Valid() && Live(View(), p) && n > 0 && n % ALIGN_SIZE == 0
      modifies this, data
      ensures Valid() && View() == Resized(old(View()), p, n) && r == ResizeResult(old(View()), p, n)
      ensures r.None? ==> View() == old(View()) && data[..] == old(data[..])
      ensures Kept(old(data[..]), old(blocks), data[..], blocks, p - ITEM)
      ensures r.Some? ==> SameBytes(old(data[..]), p, data[..], r.value,
          Min(Room(old(blocks)[IndexOf(old(View()), p)]), n))
    {
      ghost var i := IndexOf(View(), p);
      ResizeOk(View(), p, n);
      var was := ItemRoom(p - ITEM, blocks, i);
      if n > was {
        var grows := CanGrow(p - ITEM, n, was, i);
        if grows {
          GrowLive(p, n, i);
          r := Some(p);
        } else {
          r := Move(p, n, was);
        }
      } else {
        r := Some(p);
        if n + ITEM + MINI < was { CutLive(p, n, i); } else { StayLive(p, n, i); }
      }
    }

    /** Whether the block behind is free and large enough to grow into. */
    method CanGrow(a: nat, n: nat, was: int, ghost i: nat) returns (grows: bool)
      requires Valid() && i + 1 < |blocks| && blocks[i].used && blocks[i].lo == a && was == Room(blocks[i])
      ensures grows == Grows(blocks, i, n)
    {
      LinksOf(next, prev, blocks, size, i);
      assert UsedAt(used, blocks[i + 1]);
      var r := next[a];
      grows := false;
      if !used[r] {
        NotTail(blocks, size, i + 1);
        var room := ItemRoom(r, blocks, i + 1);
        grows := room + was > n + MINI;
      }
    }

    method GrowLive(p: nat, n: nat, ghost i: nat)
      requires Valid() && i + 1 < |blocks| && blocks[i].used && p == blocks[i].lo + ITEM && n % ALIGN_SIZE == 0
      requires n > Room(blocks[i]) && Grows(blocks, i, n)
      modifies this, data
      ensures Valid() && View() == Grown(old(View()), i, n)
      ensures Kept(old(data[..]), old(blocks), data[..], blocks, p - ITEM)
      ensures SameBytes(old(data[..]), p, data[..], p, Room(old(blocks)[i]))
    {
      ghost var s, d := View(), data[..];
      GrowInPlace(p - ITEM, n, i);
      GrownKept(s, i, n, d, data[..]);
    }

    method CutLive(p: nat, n: nat, ghost i: nat)
      requires Valid() && i + 1 < |blocks| && blocks[i].used && p == blocks[i].lo + ITEM && n % ALIGN_SIZE == 0
      requires n + ITEM + MINI < Room(blocks[i])
      modifies this, data
      ensures Valid() && View() == CutDown(old(View()), i, n)
      ensures Kept(old(data[..]), old(blocks), data[..], blocks, p - ITEM)
      ensures SameBytes(old(data[..]), p, data[..], p, n)
    {
      ghost var s, d := View(), data[..];
      CutTail(p - ITEM, n, i);
      CutKept(s, i, n, d, data[..]);
    }

    method StayLive(p: nat, n: nat, ghost i: nat)
      requires Valid() && Live(View(), p) && i == IndexOf(View(), p) && n <= Room(blocks[i])
      ensures Kept(data[..], blocks, data[..], blocks, p - ITEM) && SameBytes(data[..], p, data[..], p, n)
    {
      SparedSelf(data[..], blocks);
      SparedKept(data[..], data[..], blocks, blocks, blocks, p - ITEM);
      SparedPrefix(data[..], data[..], blocks, i, n);
    }

    /** rt_memheap_realloc: size zero frees, NULL allocates. */
    method Realloc(ptr: Option<nat>, newsize: nat) returns (r: Option<nat>)
      requires Valid() && (ptr.Some? ==> Live(View(), ptr.value))
      modifies this, data
      ensures Valid()
      ensures newsize == 0 ==> r.None? && View() == if ptr.None? then old(View())
          else Freed(old(View()), IndexOf(old(View()), ptr.value))
      ensures newsize > 0 && ptr.None? ==>
        r == AllocResult(old(View()), Request(newsize)) && View() == Alloced(old(View()), Request(newsize))
      ensures newsize > 0 && ptr.Some? ==>
        && r == ResizeResult(old(View()), ptr.value, Request(newsize))
          && View() == Resized(old(View()), ptr.value, Request(newsize))
        && (r.Some? ==> SameBytes(old(data[..]), ptr.value, data[..], r.value,
                                  Min(Room(old(blocks)[IndexOf(old(View()), ptr.value)]), Request(newsize))))
        && (r.None? ==> View() == old(View()) && data[..] == old(data[..]))
      ensures Kept(old(data[..]), old(blocks), data[..], blocks, if ptr.None? then -1 else ptr.value - ITEM)
    {
      if newsize == 0 {
        SelfKept(data[..], blocks, size);
        Free(ptr);
        return None;
      }
      var n := Align(newsize);
      if n < MINI { n := MINI; }
      assert n == Request(newsize);
      if ptr.None? {
        RequestTwice(newsize);
        r := Alloc(n);
      } else {
        r := Resize(ptr.value, n);
      }
    }
  }

  lemma StartsInside(bs: seq<Block>, size: nat, p: nat)
    requires Tiles(bs, ITEM, size) && Starts(bs, p)
    ensures p + ITEM <= size
  {
    Disjoint(bs, ITEM, size);
  }

  lemma FreshRings(size: nat, tail: nat)
    requires ITEM <= tail == size - ITEM
    ensures var links: Links := map[0 := tail, tail := 0];
      var fl: Links := map[HEAD := 0, 0 := HEAD];
      && BlocksAre(links, links, map[0 := false, tail := true], [Block(0, tail, false), Block(tail, size, true)])
      && Ring(fl, fl, FreeRing([0]))
  {
    var s := Los([Block(0, tail, false), Block(tail, size, true)]);
    assert s == [0, tail];
    var links: Links := map[0 := tail, tail := 0];
    assert LinkOk(links, links, s, 0) && LinkOk(links, links, s, 1);
    var fl: Links := map[HEAD := 0, 0 := HEAD];
    var f := FreeRing([0]);
    assert f == [HEAD, 0];
    assert LinkOk(fl, fl, f, 0) && LinkOk(fl, fl, f, 1);
  }

  lemma SparedSelf(d: Bytes, bs: seq<Block>)
    requires Tiles(bs, ITEM, |d|)
    ensures Spared(d, d, bs)
  {
    Disjoint(bs, ITEM, |d|);
  }

  lemma NeighboursIn(next: Links, prev: Links, s: seq<int>, i: nat)
    requires Ring(next, prev, s) && i < |s|
    ensures s[i] in next && s[i] in prev && next[s[i]] in s && prev[s[i]] in s
    ensures |s| > 1 ==> next[s[i]] != s[i] && prev[s[i]] != s[i]
  {
    var h := if i == 0 then |s| - 1 else i - 1;
    assert LinkOk(next, prev, s, i) && LinkOk(next, prev, s, h);
    assert Succ(s, h) == s[i];
  }

  /** The room of a block on the free list, as its links give it. */
  lemma FreeRoom(next: Links, prev: Links, s: Pool, a: nat)
    requires PoolOk(s) && Ring(next, prev, Los(s.blocks)) && a in s.free
    ensures At(s.blocks, a) < |s.blocks| && a in next && next[a] - a - ITEM == Room(s.blocks[At(s.blocks, a)]) >= 0
  {
    FreeIsFree(s, a);
    LinksOf(next, prev, s.blocks, s.size, At(s.blocks, a));
  }

  lemma SplitStarts(bs: seq<Block>, size: nat, i: nat, mid: nat)
    requires Tiles(bs, ITEM, size) && i < |bs| && bs[i].lo + ITEM <= mid && mid + ITEM <= bs[i].hi
    requires Tiles(Split(bs, i, mid), ITEM, size)
    ensures var c := Split(bs, i, mid);
      Starts(c, mid) && !Starts(bs, mid) && mid !in Los(bs) && forall a :: a in Los(bs) ==> Starts(c, a) && a >= 0
    ensures Succ(Los(bs), i) in Los(bs) && bs[i].lo in Los(bs)
  {
    var c := Split(bs, i, mid);
    LosDistinct(bs, size);
    LosDistinct(c, size);
    LosSplit(bs, i, mid);
    Disjoint(bs, ITEM, size);
    var s := Los(bs);
    assert s[i] == bs[i].lo;
    forall a | a in s ensures a in AfterInsert(s, i, mid) {
      var k :| 0 <= k < |s| && s[k] == a;
      assert AfterInsert(s, i, mid)[if k <= i then k else k + 1] == a;
    }
    assert AfterInsert(s, i, mid)[i + 1] == mid;
  }

  lemma MarkStarts(bs: seq<Block>, size: nat, i: nat, u: bool)
    requires Tiles(bs, ITEM, size) && i < |bs| && Tiles(Mark(bs, i, u), ITEM, size)
    ensures Los(Mark(bs, i, u)) == Los(bs) && forall a :: Starts(Mark(bs, i, u), a) <==> Starts(bs, a)
  {
    LosMark(bs, i, u);
    LosDistinct(bs, size);
    LosDistinct(Mark(bs, i, u), size);
  }

  /** Every address on the free list starts a block. */
  lemma FreeStarts(s: Pool)
    requires PoolOk(s)
    ensures forall a :: a in s.free ==> Starts(s.blocks, a) && a in Los(s.blocks)
  {
    LosDistinct(s.blocks, s.size);
    forall a | a in s.free ensures Starts(s.blocks, a) && a in Los(s.blocks) { FreeIsFree(s, a); }
  }

  lemma NotTail(bs: seq<Block>, size: nat, i: nat)
    requires BlocksOk(bs, size) && i < |bs| && !bs[i].used
    ensures i + 1 < |bs|
  {
  }

  lemma UsedSplit(used: map<int, bool>, bs: seq<Block>, size: nat, i: nat, mid: nat)
    requires Tiles(bs, ITEM, size) && i < |bs| && !Starts(bs, mid) && forall k :: 0 <= k < |bs| ==> UsedAt(used, bs[k])
    ensures var c := Split(bs, i, mid);
      forall k :: 0 <= k < |c| ==> UsedAt(used[mid := false][bs[i].lo := true], c[k])
  {
    var c := Split(bs, i, mid);
    Disjoint(bs, ITEM, size);
    forall k | 0 <= k < |c| ensures UsedAt(used[mid := false][bs[i].lo := true], c[k]) {
      SplitAt(bs, i, mid, k);
      if k < i || k > i + 1 {
        var j := if k < i then k else k - 1;
        assert UsedAt(used, bs[j]) && bs[j].lo != bs[i].lo;
        AtIs(bs, size, j);
      }
    }
  }

  lemma UsedMark(used: map<int, bool>, bs: seq<Block>, size: nat, i: nat, u: bool)
    requires Tiles(bs, ITEM, size) && i < |bs| && forall k :: 0 <= k < |bs| ==> UsedAt(used, bs[k])
    ensures var c := Mark(bs, i, u);
      forall k :: 0 <= k < |c| ==> UsedAt(used[bs[i].lo := u], c[k])
  {
    var c := Mark(bs, i, u);
    Disjoint(bs, ITEM, size);
    forall k | 0 <= k < |c| ensures UsedAt(used[bs[i].lo := u], c[k]) {
      assert UsedAt(used, bs[k]);
      if k != i { assert bs[k].lo != bs[i].lo; }
    }
  }

  lemma SelfKept(d: Bytes, bs: seq<Block>, size: nat)
    requires Tiles(bs, ITEM, size) && |d| == size
    ensures Kept(d, bs, d, bs, -1)
  {
    SparedSelf(d, bs);
    SparedKept(d, d, bs, bs, bs, -1);
  }

  /** Every used block is still there after an allocation. */
  lemma AllocKeeps(s: Pool, size: nat)
    requires PoolOk(s)
    ensures forall b :: b in s.blocks && b.used ==> b in Alloced(s, size).blocks
  {
    if Found(s, size).Some? {
      FreeIsFree(s, Found(s, size).value);
      var i := At(s.blocks, Found(s, size).value);
      forall b | b in s.blocks && b.used ensures b in Alloced(s, size).blocks {
        var j :| 0 <= j < |s.blocks| && s.blocks[j] == b;
        UsedStays(s.blocks, i, size, j);
      }
    }
  }

  lemma UsedStays(bs: seq<Block>, i: nat, size: nat, j: nat)
    requires i < |bs| && !bs[i].used && j < |bs| && bs[j].used
    ensures bs[j] in if Splits(bs[i], size) then Split(bs, i, bs[i].lo + ITEM + size) else Mark(bs, i, true)
  {
    if Splits(bs[i], size) {
      SplitAt(bs, i, bs[i].lo + ITEM + size, if j > i then j + 1 else j);
    } else {
      assert Mark(bs, i, true)[j] == bs[j];
    }
  }

  /** What splitting free block `i` at `mid` needs of the free list. */
  lemma SplitReplaces(s: Pool, i: nat, mid: nat)
    requires PoolOk(s) && i < |s.blocks| && !s.blocks[i].used && s.blocks[i].lo + ITEM <= mid
        && mid + ITEM <= s.blocks[i].hi
    ensures var p, c := s.blocks[i].lo, Split(s.blocks, i, mid);
      && Tiles(c, ITEM, s.size) && p in s.free && mid !in Without(s.free, p)
      && Starts(c, mid) && forall a :: a in s.free ==> Starts(c, a)
  {
    SplitTiles(s.blocks, i, mid, ITEM, s.size);
    SplitStarts(s.blocks, s.size, i, mid);
    FreeStarts(s);
    FreeMember(s.blocks, i);
    assert s.blocks[i].lo in Elems(s.free);
  }

  lemma ClaimStarts(s: Pool, i: nat)
    requires PoolOk(s) && i < |s.blocks| && !s.blocks[i].used
    ensures var c := Mark(s.blocks, i, true);
      && Tiles(c, ITEM, s.size) && Los(c) == Los(s.blocks) && s.blocks[i].lo in s.free && Starts(c, s.blocks[i].lo)
      && forall a :: a in s.free ==> Starts(c, a)
  {
    MarkUsedOk(s.blocks, i, s.size);
    MarkStarts(s.blocks, s.size, i, true);
    FreeStarts(s);
    FreeMember(s.blocks, i);
    assert s.blocks[i].lo in Elems(s.free);
  }

  lemma UsedJoin(used: map<int, bool>, bs: seq<Block>, i: nat)
    requires i + 1 < |bs| && !bs[i].used && forall k :: 0 <= k < |bs| ==> UsedAt(used, bs[k])
    ensures var c := Join(bs, i); forall k :: 0 <= k < |c| ==> UsedAt(used, c[k])
  {
    var c := Join(bs, i);
    forall k | 0 <= k < |c| ensures UsedAt(used, c[k]) {
      JoinAt(bs, i, k);
      assert UsedAt(used, bs[i]) && UsedAt(used, bs[if k <= i then k else k + 1]);
    }
  }

  /** Merging to the left first gives the same blocks as merging to the right first. */
  lemma ReleaseOrder(bs: seq<Block>, size: nat, i: nat)
    requires BlocksOk(bs, size) && i + 1 < |bs| && bs[i].used
    ensures var b := Mark(bs, i, false);
      var c, k := Backward(b, i), if FreePrev(bs, i) then i - 1 else i;
      && FreePrev(b, i) == FreePrev(bs, i)
      && Tiles(b, ITEM, size) && TailOk(b, size) && Tiles(c, ITEM, size)
      && k + 1 < |c| && !c[k].used && c[k].lo == (if FreePrev(bs, i) then bs[i - 1].lo else bs[i].lo)
      && c[k + 1] == bs[i + 1] && FreeNext(c, k) == FreeNext(bs, i)
      && Forward(c, k) == Release(bs, i)
  {
    var b := Mark(bs, i, false);
    MarkFree(bs, i, ITEM, size);
    if FreePrev(bs, i) {
      JoinTiles(b, i - 1, ITEM, size);
      JoinAt(b, i - 1, i - 1);
      JoinAt(b, i - 1, i);
      if FreeNext(bs, i) { assert Join(Join(b, i - 1), i - 1) == Join(Join(b, i), i - 1); }
    } else if i > 0 {
      assert Forward(b, i)[i - 1] == bs[i - 1];
    }
  }

  /** What the two merges of a release need of addresses and of the free list. */
  lemma MergeStarts(s: Pool, i: nat)
    requires ListsOk(s) && i + 1 < |s.blocks| && s.blocks[i].used
    ensures var b := Mark(s.blocks, i, false);
      && Tiles(b, ITEM, s.size) && (FreeNext(s.blocks, i) ==> s.blocks[i + 1].lo in s.free)
      && (forall a :: a in s.free ==> Starts(b, a)) && (forall a :: a in Los(Backward(b, i)) ==> Starts(b, a))
  {
    var bs, b := s.blocks, Mark(s.blocks, i, false);
    MarkFree(bs, i, ITEM, s.size);
    MarkStarts(bs, s.size, i, false);
    LosDistinct(b, s.size);
    forall a | a in s.free ensures Starts(b, a) {
      assert a in Elems(s.free);
      var k := FreeWitness(bs, a);
      assert Los(b)[k] == a;
    }
    if FreeNext(bs, i) {
      FreeMember(bs, i + 1);
      assert bs[i + 1].lo in Elems(s.free);
    }
    if FreePrev(b, i) {
      LosJoin(b, i - 1);
      assert forall a :: a in Dropped(Los(b), i) ==> a in Los(b);
    }
  }

  /** What a freed block needs to enter the free list. */
  lemma FreePushes(s: Pool, i: nat)
    requires PoolOk(s) && i + 1 < |s.blocks| && s.blocks[i].used
    ensures var b := Mark(s.blocks, i, false);
      && Tiles(b, ITEM, s.size) && Starts(b, s.blocks[i].lo)
      && s.blocks[i].lo !in NextOff(s, i) && forall a :: a in NextOff(s, i) ==> Starts(b, a)
  {
    MergeStarts(s, i);
    ForwardFree(s, i);
    var b := Mark(s.blocks, i, false);
    AtIs(b, s.size, i);
  }

  /** The other used blocks survive a release. */
  lemma OthersReleased(bs: seq<Block>, size: nat, i: nat)
    requires Tiles(bs, ITEM, size) && i < |bs|
    ensures forall b :: b in bs && b.used && b.lo != bs[i].lo ==> b in Mark(bs, i, false) && b in Release(bs, i)
  {
    forall b | b in bs && b.used && b.lo != bs[i].lo ensures b in Mark(bs, i, false) && b in Release(bs, i) {
      var j :| 0 <= j < |bs| && bs[j] == b;
      assert Mark(bs, i, false)[j] == b;
      ReleaseKeeps(bs, i, j);
    }
  }

  lemma RegrownStarts(bs: seq<Block>, size: nat, i: nat, mid: nat)
    requires Tiles(bs, ITEM, size) && i + 1 < |bs| && Tiles(Regrown(bs, i, mid), ITEM, size)
    requires bs[i + 1].lo < mid < bs[i + 1].hi
    ensures var s, c := Los(bs), Regrown(bs, i, mid);
      && s[i] == bs[i].lo && s[i + 1] == bs[i + 1].lo && AfterInsert(Dropped(s, i + 1), i, mid) == Los(c)
      && (forall a :: a in s && a != bs[i + 1].lo ==> Starts(c, a) && a >= 0)
      && Starts(c, mid) && mid !in Dropped(s, i + 1)
      && i < |Dropped(s, i + 1)| && Dropped(s, i + 1)[i] == bs[i].lo
      && Succ(Dropped(s, i + 1), i) in s && Succ(Dropped(s, i + 1), i) != bs[i + 1].lo
  {
    RegrownLos(bs, size, i, mid);
    var s, c := Los(bs), Regrown(bs, i, mid);
    LosDistinct(c, size);
    forall a | a in s && a != bs[i + 1].lo ensures Starts(c, a) {
      var k :| 0 <= k < |s| && s[k] == a;
      assert Los(c)[k] == a;
    }
    assert Los(c)[i + 1] == mid;
  }

  lemma RegrownLos(bs: seq<Block>, size: nat, i: nat, mid: nat)
    requires Tiles(bs, ITEM, size) && i + 1 < |bs| && bs[i + 1].lo < mid < bs[i + 1].hi
    ensures var s, t := Los(bs), Dropped(Los(bs), i + 1);
      && AfterInsert(t, i, mid) == Los(Regrown(bs, i, mid)) && mid !in t
      && i < |t| && t[i] == bs[i].lo && Succ(t, i) in s && Succ(t, i) != bs[i + 1].lo
  {
    var s, t := Los(bs), Dropped(Los(bs), i + 1);
    LosDistinct(bs, size);
    Disjoint(bs, ITEM, size);
    forall k | 0 <= k < |s| ensures s[k] != mid { assert s[k] == bs[k].lo; }
    assert Succ(t, i) == if i + 2 < |s| then s[i + 2] else s[0];
  }

  lemma UsedRegrown(used: map<int, bool>, bs: seq<Block>, size: nat, i: nat, mid: nat)
    requires Tiles(bs, ITEM, size) && i + 1 < |bs| && bs[i + 1].lo < mid < bs[i + 1].hi && !bs[i + 1].used
    requires forall k :: 0 <= k < |bs| ==> UsedAt(used, bs[k])
    ensures var c := Regrown(bs, i, mid); forall k :: 0 <= k < |c| ==> UsedAt(used[mid := false], c[k])
  {
    var c := Regrown(bs, i, mid);
    Disjoint(bs, ITEM, size);
    forall k | 0 <= k < |c| ensures UsedAt(used[mid := false], c[k]) {
      assert UsedAt(used, bs[k]);
      if k != i + 1 { assert c[k].lo == bs[k].lo != mid; }
    }
  }

  /** What moving the border needs of the free list. */
  lemma RegrownReplaces(s: Pool, i: nat, mid: nat)
    requires ListsOk(s) && i + 1 < |s.blocks| && s.blocks[i].used && !s.blocks[i + 1].used
    requires s.blocks[i].lo < mid && s.blocks[i + 1].lo < mid < s.blocks[i + 1].hi
        && Tiles(Regrown(s.blocks, i, mid), ITEM, s.size)
    ensures var r, c := s.blocks[i + 1].lo, Regrown(s.blocks, i, mid);
      && r in s.free && mid !in Without(s.free, r) && Starts(c, mid)
      && forall a :: a in s.free && a != r ==> Starts(c, a)
  {
    var bs := s.blocks;
    RegrownStarts(bs, s.size, i, mid);
    RegrownFree(s, i, mid);
    FreeMember(bs, i + 1);
    assert bs[i + 1].lo in Elems(s.free);
    var free := [mid] + Without(s.free, bs[i + 1].lo);
    assert free[0] == mid && free[1..] == Without(s.free, bs[i + 1].lo);
    forall a | a in s.free && a != bs[i + 1].lo ensures Starts(Regrown(bs, i, mid), a) {
      assert a in Elems(s.free);
      var k := FreeWitness(bs, a);
      assert Los(bs)[k] == a;
    }
  }

  /** What cutting used block `i` at `mid` needs of addresses and of the free list. */
  lemma CutStarts(s: Pool, i: nat, mid: nat)
    requires PoolOk(s) && i + 1 < |s.blocks| && s.blocks[i].used && s.blocks[i].lo + ITEM <= mid
        && mid + ITEM <= s.blocks[i].hi
    ensures var c := Split(s.blocks, i, mid);
      && Tiles(c, ITEM, s.size) && i + 2 < |c| && c[i + 1] == Block(mid, s.blocks[i].hi, false)
        && c[i + 2] == s.blocks[i + 1]
      && Starts(c, mid) && (forall a :: a in s.free ==> Starts(c, a)) && (forall a :: a in Los(c) ==> Starts(c, a))
      && (FreeNext(s.blocks, i) ==> s.blocks[i + 1].lo in s.free)
      && mid !in NextOff(s, i)
  {
    var c := Split(s.blocks, i, mid);
    SplitTiles(s.blocks, i, mid, ITEM, s.size);
    SplitStarts(s.blocks, s.size, i, mid);
    LosDistinct(c, s.size);
    FreeStarts(s);
    SplitAt(s.blocks, i, mid, i + 1);
    SplitAt(s.blocks, i, mid, i + 2);
    if FreeNext(s.blocks, i) {
      FreeMember(s.blocks, i + 1);
      assert s.blocks[i + 1].lo in Elems(s.free);
    }
    assert mid !in s.free;
  }

  lemma CutDownTiles(s: Pool, i: nat, n: nat)
    requires i < |s.blocks| && PoolOk(CutDown(s, i, n))
    ensures Tiles(Shrunk(s.blocks, i, s.blocks[i].lo + ITEM + n), ITEM, s.size)
  {
  }

  /** Where the freed tail ends. */
  /** Pool `t` is pool `s` with the tail of block `i` from `q` on given back. */
  ghost predicate CutResult(s: Pool, i: nat, q: nat, t: Pool)
    requires i + 1 < |s.blocks|
  {
    && t.size == s.size && t.maxUsed == s.maxUsed && t.blocks == Shrunk(s.blocks, i, q) && t.free == [q] + NextOff(s, i)
    && i + 2 < |t.blocks| && t.blocks[i + 1].lo == q
    && t.available ==
       s.available + Room(t.blocks[i + 1]) - (if FreeNext(s.blocks, i) then Room(s.blocks[i + 1]) else 0)
  }

  lemma CutDownIs(s: Pool, i: nat, n: nat)
    requires PoolOk(s) && i + 1 < |s.blocks| && s.blocks[i].used && s.blocks[i].lo + ITEM + n + ITEM <= s.blocks[i].hi
    ensures CutResult(s, i, s.blocks[i].lo + ITEM + n, CutDown(s, i, n))
  {
    CutLinks(s, i, s.blocks[i].lo + ITEM + n);
  }

  lemma CutLinks(s: Pool, i: nat, mid: nat)
    requires PoolOk(s) && i + 1 < |s.blocks| && s.blocks[i].used && s.blocks[i].lo + ITEM <= mid
        && mid + ITEM <= s.blocks[i].hi
    ensures var c := Shrunk(s.blocks, i, mid);
      && i + 2 < |c|
      && c[i + 1] == Block(mid, if FreeNext(s.blocks, i) then s.blocks[i + 1].hi else s.blocks[i].hi, false)
      && (FreeNext(s.blocks, i) ==> i + 2 < |s.blocks|)
  {
    var b := Split(s.blocks, i, mid);
    SplitAt(s.blocks, i, mid, i + 1);
    SplitAt(s.blocks, i, mid, i + 2);
    if FreeNext(s.blocks, i) {
      JoinAt(b, i + 1, i + 1);
      NotTail(s.blocks, s.size, i + 1);
    }
  }

  lemma CopyKept(d: Bytes, d1: Bytes, bs: seq<Block>, size: nat, j: nat, n: nat)
    requires Tiles(bs, ITEM, size) && |d| == size && |d1| == size && j < |bs| && bs[j].lo + ITEM + n <= bs[j].hi
        && bs[j].lo + ITEM + n <= size
    requires var to := bs[j].lo + ITEM; d1[0..to] == d[0..to] && d1[to + n..size] == d[to + n..size]
    ensures Kept(d, bs, d1, bs, bs[j].lo)
  {
    Disjoint(bs, ITEM, size);
    var to := bs[j].lo + ITEM;
    forall b | b in bs && b.used && b.lo != bs[j].lo ensures b in bs && SamePayload(d, d1, b) {
      var k :| 0 <= k < |bs| && bs[k] == b;
      if k < j { SubRange(d1, d, 0, to, b.lo + ITEM, b.hi); } else { SubRange(d1, d, to + n, size, b.lo + ITEM, b.hi); }
    }
  }

  /** The `n` bytes at `p` before are the bytes at `q` afterwards. */
  predicate SameBytes(d: Bytes, p: int, d1: Bytes, q: int, n: int) {
    0 <= p && 0 <= q && 0 <= n && p + n <= |d| && q + n <= |d1| && d1[q..q + n] == d[p..p + n]
  }

  lemma RequestTwice(n: nat)
    ensures Request(Request(n)) == Request(n)
  {
  }

  lemma KeptWeaken(d: Bytes, bs: seq<Block>, d1: Bytes, c: seq<Block>, but: int)
    requires Kept(d, bs, d1, c, -1) && forall b :: b in bs ==> b.lo >= 0
    ensures Kept(d, bs, d1, c, but)
  {
  }

  /** The first bytes of a spared payload. */
  lemma SparedPrefix(d: Bytes, d1: Bytes, bs: seq<Block>, i: nat, n: int)
    requires Spared(d, d1, bs) && i < |bs| && bs[i].used && 0 <= n <= Room(bs[i])
    ensures SameBytes(d, bs[i].lo + ITEM, d1, bs[i].lo + ITEM, n)
  {
    assert SamePayload(d, d1, bs[i]);
    SubRange(d1, d, bs[i].lo + ITEM, bs[i].hi, bs[i].lo + ITEM, bs[i].lo + ITEM + n);
  }

  lemma GrownKeeps(s: Pool, i: nat, n: nat)
    requires PoolOk(s) && i + 1 < |s.blocks| && s.blocks[i].used && n > Room(s.blocks[i]) && Grows(s.blocks, i, n)
    ensures var c := Grown(s, i, n).blocks;
      && (forall b :: b in s.blocks && b.used && b.lo != s.blocks[i].lo ==> b in c)
      && i < |c| && c[i].used && c[i].lo == s.blocks[i].lo && 0 <= Room(s.blocks[i]) <= Room(c[i])
  {
    var c := Grown(s, i, n).blocks;
    forall b | b in s.blocks && b.used && b.lo != s.blocks[i].lo ensures b in c {
      var j :| 0 <= j < |s.blocks| && s.blocks[j] == b;
      assert c[j] == b;
    }
  }

  lemma GrownKept(s: Pool, i: nat, n: nat, d: Bytes, d1: Bytes)
    requires PoolOk(s) && i + 1 < |s.blocks| && s.blocks[i].used && n > Room(s.blocks[i]) && Grows(s.blocks, i, n)
    requires Spared(d, d1, Grown(s, i, n).blocks)
    ensures Kept(d, s.blocks, d1, Grown(s, i, n).blocks, s.blocks[i].lo)
    ensures SameBytes(d, s.blocks[i].lo + ITEM, d1, s.blocks[i].lo + ITEM, Room(s.blocks[i]))
  {
    var c := Grown(s, i, n).blocks;
    GrownKeeps(s, i, n);
    SparedKept(d, d1, s.blocks, c, c, s.blocks[i].lo);
    SparedPrefix(d, d1, c, i, Room(s.blocks[i]));
  }

  lemma CutKept(s: Pool, i: nat, n: nat, d: Bytes, d1: Bytes)
    requires i + 1 < |s.blocks| && s.blocks[i].used
    requires Spared(d, d1, Split(s.blocks, i, s.blocks[i].lo + ITEM + n))
    ensures Kept(d, s.blocks, d1, CutDown(s, i, n).blocks, s.blocks[i].lo)
    ensures SameBytes(d, s.blocks[i].lo + ITEM, d1, s.blocks[i].lo + ITEM, n)
  {
    var b1 := Split(s.blocks, i, s.blocks[i].lo + ITEM + n);
    CutKeeps(s, i, n);
    SparedKept(d, d1, s.blocks, b1, CutDown(s, i, n).blocks, s.blocks[i].lo);
    SparedPrefix(d, d1, b1, i, n);
  }

  lemma CutKeeps(s: Pool, i: nat, n: nat)
    requires i + 1 < |s.blocks| && s.blocks[i].used
    ensures var b1, c := Split(s.blocks, i, s.blocks[i].lo + ITEM + n), CutDown(s, i, n).blocks;
      && (forall b :: b in s.blocks && b.used && b.lo != s.blocks[i].lo ==> b in b1 && b in c)
      && i < |b1| && b1[i] == Block(s.blocks[i].lo, s.blocks[i].lo + ITEM + n, true)
  {
    var bs, mid := s.blocks, s.blocks[i].lo + ITEM + n;
    SplitAt(bs, i, mid, i);
    forall b | b in bs && b.used && b.lo != bs[i].lo ensures b in Split(bs, i, mid) && b in Shrunk(bs, i, mid) {
      var j :| 0 <= j < |bs| && bs[j] == b;
      CutKeepsBlock(bs, i, mid, j);
    }
  }

  lemma CutKeepsBlock(bs: seq<Block>, i: nat, mid: nat, j: nat)
    requires i < |bs| && j < |bs| && j != i && bs[j].used
    ensures bs[j] in Split(bs, i, mid) && bs[j] in Shrunk(bs, i, mid)
  {
    var k := if j < i then j else j + 1;
    SplitAt(bs, i, mid, k);
    CutKeepsAt(bs, i, mid, k);
  }

  lemma CutKeepsAt(bs: seq<Block>, i: nat, mid: nat, k: nat)
    requires i < |bs| && k < |Split(bs, i, mid)| && k != i + 1 && Split(bs, i, mid)[k].used
    ensures Split(bs, i, mid)[k] in Shrunk(bs, i, mid)
  {
    var b1 := Split(bs, i, mid);
    if i + 2 < |b1| && !b1[i + 2].used {
      JoinAt(b1, i + 1, if k <= i then k else k - 1);
      assert Shrunk(bs, i, mid)[if k <= i then k else k - 1] == b1[k];
    } else {
      assert Shrunk(bs, i, mid)[k] == b1[k];
    }
  }

  /** The new block and the old one do not overlap. */
  lemma NewApart(s: Pool, p: nat, n: nat)
    requires PoolOk(s) && Live(s, p) && Found(s, n).Some? && n % ALIGN_SIZE == 0
    ensures var s1, a := Alloced(s, n), Found(s, n).value;
      var i, j := IndexOf(s1, p), At(s1.blocks, a);
      && i < |s1.blocks| && j < |s1.blocks| && i != j && p + Room(s1.blocks[i]) == s1.blocks[i].hi <= s.size
      && s1.blocks[j].hi <= s.size
      && (s1.blocks[i].hi <= s1.blocks[j].lo || s1.blocks[j].hi <= s1.blocks[i].lo)
  {
    AllocGrants(s, n);
    LiveThroughAlloc(s, p, n);
    FreeIsFree(s, Found(s, n).value);
    Disjoint(Alloced(s, n).blocks, ITEM, s.size);
    Disjoint(s.blocks, ITEM, s.size);
  }

  /** Copied bytes and all other live blocks survive the whole move. */
  lemma MoveKept(s: Pool, p: nat, q: nat, n: nat, was: nat, d: Bytes, d1: Bytes, d2: Bytes, d3: Bytes, b1: seq<Block>,
          b3: seq<Block>)
    requires PoolOk(s) && Live(s, p) && n % ALIGN_SIZE == 0 && AllocResult(s, n) == Some(q)
        && b1 == Alloced(s, n).blocks
    requires was == Room(s.blocks[IndexOf(s, p)]) && was < n
    requires Kept(d, s.blocks, d1, b1, -1) && Kept(d1, b1, d2, b1, q - ITEM) && Kept(d2, b1, d3, b3, p - ITEM)
    requires SameBytes(d1, p, d2, q, was)
    ensures Kept(d, s.blocks, d3, b3, p - ITEM) && SameBytes(d, p, d3, q, was)
  {
    FreeIsFree(s, q - ITEM);
    forall b | b in s.blocks && b.used && b.lo != p - ITEM ensures b in b3 && SamePayload(d, d3, b) {
      OnlyFreeAt(s, b, q - ITEM);
      KeptChain(d, d1, d2, d3, s.blocks, b1, b3, b, p - ITEM, q - ITEM);
    }
    MovedBytes(s, p, q, n, was, d, d1, d2, d3, b1, b3);
  }

  lemma KeptChain(d: Bytes, d1: Bytes, d2: Bytes, d3: Bytes, b0: seq<Block>, b1: seq<Block>, b3: seq<Block>, b: Block,
          p: int, q: int)
    requires Kept(d, b0, d1, b1, -1) && Kept(d1, b1, d2, b1, q) && Kept(d2, b1, d3, b3, p)
    requires b in b0 && b.used && b.lo != p && b.lo != q
    ensures b in b3 && SamePayload(d, d3, b)
  {
    assert b in b1 && SamePayload(d, d1, b) && SamePayload(d1, d2, b) && SamePayload(d2, d3, b);
  }

  lemma MovedBytes(s: Pool, p: nat, q: nat, n: nat, was: nat, d: Bytes, d1: Bytes, d2: Bytes, d3: Bytes,
          b1: seq<Block>, b3: seq<Block>)
    requires PoolOk(s) && Live(s, p) && n % ALIGN_SIZE == 0 && AllocResult(s, n) == Some(q)
        && b1 == Alloced(s, n).blocks
    requires was == Room(s.blocks[IndexOf(s, p)]) && was < n
    requires Kept(d, s.blocks, d1, b1, -1) && Kept(d2, b1, d3, b3, p - ITEM) && SameBytes(d1, p, d2, q, was)
    ensures SameBytes(d, p, d3, q, was)
  {
    OldStays(s, p, was, d, d1, b1);
    NewStays(s, p, q, n, d2, d3, b1, b3);
    SubSame(d3, d2, q, n, was);
  }

  /** The old payload survives the allocation. */
  lemma OldStays(s: Pool, p: nat, was: nat, d: Bytes, d1: Bytes, b1: seq<Block>)
    requires Live(s, p) && was == Room(s.blocks[IndexOf(s, p)]) && Kept(d, s.blocks, d1, b1, -1)
    ensures SameBytes(d, p, d1, p, was)
  {
    var mine := s.blocks[IndexOf(s, p)];
    assert mine in s.blocks && SamePayload(d, d1, mine);
  }

  lemma SubSame(d3: Bytes, d2: Bytes, q: nat, n: nat, was: nat)
    requires was <= n && SameBytes(d2, q, d3, q, n)
    ensures SameBytes(d2, q, d3, q, was)
  {
    SubRange(d3, d2, q, q + n, q, q + was);
  }

  /** The first bytes of the block just allocated survive the free of the old one. */
  lemma NewStays(s: Pool, p: nat, q: nat, n: nat, d2: Bytes, d3: Bytes, b1: seq<Block>, b3: seq<Block>)
    requires PoolOk(s) && Live(s, p) && n % ALIGN_SIZE == 0 && AllocResult(s, n) == Some(q)
        && b1 == Alloced(s, n).blocks
    requires Kept(d2, b1, d3, b3, p - ITEM)
    ensures SameBytes(d2, q, d3, q, n)
  {
    NewNotOld(s, p, q, n);
    KeptPrefix(d2, d3, b1, b3, p - ITEM, At(b1, q - ITEM), n);
  }

  /** The block just allocated is used, has the room, and is not the block at `p`. */
  lemma NewNotOld(s: Pool, p: nat, q: nat, n: nat)
    requires PoolOk(s) && Live(s, p) && n % ALIGN_SIZE == 0 && AllocResult(s, n) == Some(q)
    ensures var b1 := Alloced(s, n).blocks;
      var j := At(b1, q - ITEM);
      j < |b1| && b1[j].used && b1[j].lo == q - ITEM != p - ITEM && Room(b1[j]) >= n
  {
    AllocGrants(s, n);
    FreeIsFree(s, q - ITEM);
    OnlyFreeAt(s, s.blocks[IndexOf(s, p)], q - ITEM);
  }

  lemma KeptPrefix(d: Bytes, d1: Bytes, bs: seq<Block>, c: seq<Block>, but: int, j: nat, n: nat)
    requires Kept(d, bs, d1, c, but) && j < |bs| && bs[j].used && bs[j].lo != but && Room(bs[j]) >= n
    ensures SameBytes(d, bs[j].lo + ITEM, d1, bs[j].lo + ITEM, n)
  {
    var b := bs[j];
    assert b in bs && SamePayload(d, d1, b);
    SubRange(d1, d, b.lo + ITEM, b.hi, b.lo + ITEM, b.lo + ITEM + n);
  }

  lemma OnlyFreeAt(s: Pool, b: Block, a: nat)
    requires PoolOk(s) && b in s.blocks && b.used && At(s.blocks, a) < |s.blocks| && !s.blocks[At(s.blocks, a)].used
    ensures b.lo != a
  {
    var j :| 0 <= j < |s.blocks| && s.blocks[j] == b;
    AtIs(s.blocks, s.size, j);
  }
}
