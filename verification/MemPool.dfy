/** The memory heap object (src/memheap.c) on values: the blocks of the pool in address order,
    the free list in its own order, and the two counters. */
module MemPool {
  import opened Cells
  import opened Tiling
  import opened WaitList

  const ITEM: nat := 24              // RT_MEMHEAP_SIZE
  const MINI: nat := 12              // RT_MEMHEAP_MINIALLOC

  /** Addresses are relative to start_addr. `free` lists the free blocks from the head of the
      free list on. */
  datatype Pool = Pool(size: nat, blocks: seq<Block>, free: seq<nat>, available: int, maxUsed: int)

  /** MEMITEM_SIZE */
  function Room(b: Block): int {
    b.hi - b.lo - ITEM
  }

  function Request(n: nat): nat {
    if Align(n) < MINI then MINI else Align(n)
  }

  /** Index of the block that starts at `a`, or `|bs|`. */
  function At(bs: seq<Block>, a: int, k: nat := 0): (r: nat)
    requires k <= |bs|
    ensures k <= r <= |bs|
    ensures r < |bs| ==> bs[r].lo == a
    ensures forall j :: k <= j < r ==> bs[j].lo != a
    decreases |bs| - k
  {
    if k == |bs| || bs[k].lo == a then k else At(bs, a, k + 1)
  }

  predicate FitsAt(bs: seq<Block>, a: nat, size: nat) {
    At(bs, a) < |bs| && Room(bs[At(bs, a)]) >= size
  }

  /** Position in the free list of the first block with room for `size`, or its length. */
  function FirstFit(bs: seq<Block>, free: seq<nat>, size: nat, k: nat := 0): (r: nat)
    requires k <= |free|
    ensures k <= r <= |free|
    ensures r < |free| ==> FitsAt(bs, free[r], size)
    ensures forall j :: k <= j < r ==> !FitsAt(bs, free[j], size)
    decreases |free| - k
  {
    if k == |free| || FitsAt(bs, free[k], size) then k else FirstFit(bs, free, size, k + 1)
  }

  // ------------------------------------------------------ the operations, on values

  /** rt_memheap_init of a pool of `size` bytes. */
  function Fresh(size: nat): Pool
    requires 2 * ITEM <= size && size % ALIGN_SIZE == 0
  {
    Pool(size, [Block(0, size - ITEM, false), Block(size - ITEM, size, true)], [0], size - 2 * ITEM, 2 * ITEM)
  }

  function Maxed(s: Pool): Pool {
    if s.size - s.available > s.maxUsed then s.(maxUsed := s.size - s.available) else s
  }

  function Splits(b: Block, size: nat): bool {
    Room(b) >= size + ITEM + MINI
  }

  function Taken(s: Pool, i: nat, size: nat): Pool
    requires i < |s.blocks|
  {
    var b := s.blocks[i];
    var mid := b.lo + ITEM + size;
    if Splits(b, size) then
      s.(blocks := Split(s.blocks, i, mid), free := [mid] + Without(s.free, b.lo),
          available := s.available - size - ITEM)
    else
      s.(blocks := Mark(s.blocks, i, true), free := Without(s.free, b.lo), available := s.available - Room(b))
  }

  /** Free block `i` is handed out for a request of `size` bytes. */
  function Handed(s: Pool, i: nat, size: nat): Pool
    requires i < |s.blocks|
  {
    Maxed(Taken(s, i, size))
  }

  /** The block an allocation of `size` bytes (aligned) gets. */
  function Found(s: Pool, size: nat): Option<nat> {
    if !(size < s.available) then None
    else
      var k := FirstFit(s.blocks, s.free, size);
      if k < |s.free| then Some(s.free[k]) else None
  }

  /** The payload address an allocation of `size` bytes (aligned) returns. */
  function AllocResult(s: Pool, size: nat): Option<nat> {
    match Found(s, size)
    case None => None
    case Some(a) => Some(a + ITEM)
  }

  function Alloced(s: Pool, size: nat): Pool {
    if Found(s, size).None? then s else Handed(s, At(s.blocks, Found(s, size).value), size)
  }

  predicate FreeNext(bs: seq<Block>, i: nat) {
    i + 1 < |bs| && !bs[i + 1].used
  }

  predicate FreePrev(bs: seq<Block>, i: nat) {
    0 < i <= |bs| && !bs[i - 1].used
  }

  /** The free list without the successor of block `i`, when that is merged. */
  function NextOff(s: Pool, i: nat): seq<nat> {
    if FreeNext(s.blocks, i) then Without(s.free, s.blocks[i + 1].lo) else s.free
  }

  /** rt_memheap_free of used block `i`. */
  function Freed(s: Pool, i: nat): Pool
    requires i < |s.blocks|
  {
    var bs := s.blocks;
    s.(blocks := Release(bs, i),
       free := if FreePrev(bs, i) then NextOff(s, i) else [bs[i].lo] + NextOff(s, i),
       available := s.available + Room(bs[i])
                    + (if FreePrev(bs, i) then ITEM else 0) + (if FreeNext(bs, i) then ITEM else 0))
  }

  /** The border between blocks `i` and `i + 1` moved to `mid`. */
  function Regrown(bs: seq<Block>, i: nat, mid: nat): seq<Block>
    requires i + 1 < |bs|
  {
    bs[i := bs[i].(hi := mid)][i + 1 := bs[i + 1].(lo := mid)]
  }

  /** realloc grows block `i` into its free successor. */
  predicate Grows(bs: seq<Block>, i: nat, size: nat)
    requires i < |bs|
  {
    FreeNext(bs, i) && Room(bs[i + 1]) + Room(bs[i]) > size + MINI
  }

  function Enlarged(s: Pool, i: nat, size: nat): Pool
    requires i + 1 < |s.blocks|
  {
    var mid := s.blocks[i].lo + ITEM + size;
    s.(blocks := Regrown(s.blocks, i, mid), free := [mid] + Without(s.free, s.blocks[i + 1].lo),
       available := s.available - (size - Room(s.blocks[i])))
  }

  function Grown(s: Pool, i: nat, size: nat): Pool
    requires i + 1 < |s.blocks|
  {
    Maxed(Enlarged(s, i, size))
  }

  /** realloc gives back the tail of block `i`. */
  function CutDown(s: Pool, i: nat, size: nat): Pool
    requires i < |s.blocks|
  {
    var bs, mid := s.blocks, s.blocks[i].lo + ITEM + size;
    var end := if FreeNext(bs, i) then bs[i + 1].hi else bs[i].hi;
    s.(blocks := Shrunk(bs, i, mid), free := [mid] + NextOff(s, i),
       available := s.available - (if FreeNext(bs, i) then Room(bs[i + 1]) else 0) + (end - mid - ITEM))
  }

  // ----------------------------------------------------------------- the invariant

  /** Addresses of the free blocks. */
  function FreeAddrs(bs: seq<Block>): set<nat> {
    if bs == [] then {} else (if bs[0].used then {} else {bs[0].lo}) + FreeAddrs(bs[1..])
  }

  /** The last block is the used tailer of length zero that stops merging at the pool's end. */
  ghost predicate TailOk(bs: seq<Block>, size: nat) {
    |bs| > 1 && size >= ITEM && bs[|bs| - 1] == Block(size - ITEM, size, true)
  }

  ghost predicate BlocksOk(bs: seq<Block>, size: nat) {
    2 * ITEM <= size && Tiles(bs, ITEM, size) && Coalesced(bs) && Aligned(bs) && TailOk(bs, size)
  }

  /** What every call keeps true: the blocks tile the pool with no two free neighbours, the
      free list holds exactly the free blocks, each once, and the counters match. */
  ghost predicate PoolOk(s: Pool) {
    ListsOk(s) && s.maxUsed >= s.size - s.available
  }

  ghost predicate ListsOk(s: Pool) {
    && BlocksOk(s.blocks, s.size)
    && NoDup(s.free) && Elems(s.free) == FreeAddrs(s.blocks)
    && s.available == Sum(s.blocks, false, ITEM)
  }

  // ------------------------------------------------------------- free block addresses

  lemma {:induction false} FreeAppend(a: seq<Block>, b: seq<Block>)
    ensures FreeAddrs(a + b) == FreeAddrs(a) + FreeAddrs(b)
  {
    if a == [] {
      assert a + b == b;
    } else {
      assert (a + b)[1..] == a[1..] + b;
      FreeAppend(a[1..], b);
    }
  }

  lemma FreeSplice(a: seq<Block>, x: seq<Block>, b: seq<Block>)
    ensures FreeAddrs(a + x + b) == FreeAddrs(a) + FreeAddrs(x) + FreeAddrs(b)
  {
    FreeAppend(a + x, b);
    FreeAppend(a, x);
  }

  lemma {:induction false} FreeMember(bs: seq<Block>, i: nat)
    requires i < |bs| && !bs[i].used
    ensures bs[i].lo in FreeAddrs(bs)
  {
    if i > 0 { FreeMember(bs[1..], i - 1); }
  }

  lemma {:induction false} FreeWitness(bs: seq<Block>, a: nat) returns (i: nat)
    requires a in FreeAddrs(bs)
    ensures i < |bs| && !bs[i].used && bs[i].lo == a
  {
    if !bs[0].used && bs[0].lo == a {
      i := 0;
    } else {
      i := FreeWitness(bs[1..], a);
      i := i + 1;
    }
  }

  /** The other blocks' addresses differ from that of block `i`, and lie outside it. */
  lemma FreeElsewhere(bs: seq<Block>, size: nat, i: nat)
    requires Tiles(bs, ITEM, size) && i < |bs|
    ensures forall a :: a in FreeAddrs(bs[..i]) ==> a < bs[i].lo
    ensures var rest := bs[i + 1..]; forall a :: a in FreeAddrs(rest) ==> a >= bs[i].hi
  {
    Disjoint(bs, ITEM, size);
    forall a | a in FreeAddrs(bs[..i]) ensures a < bs[i].lo { var j := FreeWitness(bs[..i], a); }
    var rest := bs[i + 1..];
    forall a | a in FreeAddrs(rest) ensures a >= bs[i].hi {
      var j := FreeWitness(rest, a);
      assert bs[i + 1 + j].lo == a;
    }
  }

  lemma FreeSingle(b: Block)
    ensures FreeAddrs([b]) == if b.used then {} else {b.lo}
  {
  }

  lemma {:induction false} FreeAround(bs: seq<Block>, i: nat)
    requires i < |bs|
    ensures FreeAddrs(bs) == FreeAddrs(bs[..i]) + (if bs[i].used then {} else {bs[i].lo}) + FreeAddrs(bs[i + 1..])
  {
    var before, it, rest := bs[..i], [bs[i]], bs[i + 1..];
    FreeSplice(before, it, rest);
    FreeSingle(bs[i]);
    assert bs == before + it + rest;
  }

  lemma FreshOk(size: nat)
    requires 2 * ITEM <= size && size % ALIGN_SIZE == 0
    ensures PoolOk(Fresh(size)) && FreeAddrs(Fresh(size).blocks) == {0}
  {
    var bs := Fresh(size).blocks;
    assert Meets(bs, 0) && Parted(bs, 0);
    assert bs[..0] == [] && bs[1..] == [bs[1]] && bs[1..][1..] == [];
    FreeAround(bs, 0);
    FreeSingle(bs[1]);
    SumAt(bs, 0, false, ITEM);
    SumAt(bs[1..], 0, false, ITEM);
    assert bs[1..][..0] == [];
  }

  lemma {:induction false} FreeMark(bs: seq<Block>, size: nat, i: nat, u: bool)
    requires Tiles(bs, ITEM, size) && i < |bs|
    ensures FreeAddrs(Mark(bs, i, u)) == if u then FreeAddrs(bs) - {bs[i].lo} else FreeAddrs(bs) + {bs[i].lo}
  {
    var c := Mark(bs, i, u);
    FreeAround(bs, i);
    FreeAround(c, i);
    FreeElsewhere(bs, size, i);
    assert c[..i] == bs[..i] && c[i + 1..] == bs[i + 1..];
  }

  lemma {:induction false} FreeSplit(bs: seq<Block>, size: nat, i: nat, mid: nat)
    requires Tiles(bs, ITEM, size) && i < |bs|
    ensures FreeAddrs(Split(bs, i, mid)) == FreeAddrs(bs) - {bs[i].lo} + {mid}
  {
    FreeAround(bs, i);
    FreeElsewhere(bs, size, i);
    var x := [Block(bs[i].lo, mid, true), Block(mid, bs[i].hi, false)];
    assert FreeAddrs(x) == {mid} by { assert x[1..] == [x[1]] && FreeAddrs([x[1]]) == {mid}; }
    FreeSplice(bs[..i], x, bs[i + 1..]);
  }

  lemma {:induction false} FreeJoin(bs: seq<Block>, size: nat, i: nat)
    requires Tiles(bs, ITEM, size) && i + 1 < |bs| && !bs[i].used && !bs[i + 1].used
    ensures FreeAddrs(Join(bs, i)) == FreeAddrs(bs) - {bs[i + 1].lo}
  {
    var l, m, r := bs[..i], Block(bs[i].lo, bs[i + 1].hi, false), bs[i + 2..];
    FreeAround(bs, i + 1);
    FreeElsewhere(bs, size, i + 1);
    FreeAround(bs[..i + 1], i);
    assert bs[..i + 1][..i] == l && bs[..i + 1][i + 1..] == [];
    assert FreeAddrs(bs[..i + 1]) == FreeAddrs(l) + {m.lo};
    FreeSplice(l, [m], r);
    FreeSingle(m);
  }

  lemma ElemsWithout(s: seq<nat>, a: nat)
    requires NoDup(s)
    ensures NoDup(Without(s, a)) && Elems(Without(s, a)) == Elems(s) - {a}
  {
    WithoutNoDup(s, a);
  }

  lemma ElemsPush(s: seq<nat>, a: nat)
    requires NoDup(s) && a !in s
    ensures NoDup([a] + s) && Elems([a] + s) == Elems(s) + {a}
  {
  }

  // ------------------------------------------------------------------- allocation

  lemma AtIs(bs: seq<Block>, size: nat, i: nat)
    requires Tiles(bs, ITEM, size) && i < |bs|
    ensures At(bs, bs[i].lo) == i
  {
    Disjoint(bs, ITEM, size);
  }

  lemma TailKept(bs: seq<Block>, c: seq<Block>, size: nat)
    requires TailOk(bs, size) && |c| > 1 && c[|c| - 1] == bs[|bs| - 1]
    ensures TailOk(c, size)
  {
  }

  lemma MaxedOk(s: Pool)
    requires ListsOk(s)
    ensures PoolOk(Maxed(s))
  {
  }

  lemma SplitBlocksOk(bs: seq<Block>, i: nat, size: nat, n: nat)
    requires BlocksOk(bs, size) && i < |bs| && !bs[i].used && n % ALIGN_SIZE == 0 && Splits(bs[i], n)
    ensures BlocksOk(Split(bs, i, bs[i].lo + ITEM + n), size)
  {
    var mid := bs[i].lo + ITEM + n;
    SplitCorrect(bs, i, mid, ITEM, size);
    AlignedSum(bs[i].lo, n);
    AlignedSplit(bs, i, mid);
    SplitAt(bs, i, mid, |bs|);
    TailKept(bs, Split(bs, i, mid), size);
  }

  /** Moving a block's address within the free list follows the blocks. */
  lemma SplitFreeOk(s: Pool, i: nat, mid: nat)
    requires PoolOk(s) && i < |s.blocks| && !s.blocks[i].used && s.blocks[i].lo < mid < s.blocks[i].hi
    ensures var free := [mid] + Without(s.free, s.blocks[i].lo);
      NoDup(free) && Elems(free) == FreeAddrs(Split(s.blocks, i, mid))
  {
    var bs, a := s.blocks, s.blocks[i].lo;
    FreeSplit(bs, s.size, i, mid);
    FreeAround(bs, i);
    FreeElsewhere(bs, s.size, i);
    assert mid !in FreeAddrs(bs);
    ElemsWithout(s.free, a);
    assert mid !in Elems(s.free);
    ElemsPush(Without(s.free, a), mid);
  }

  lemma TakenSplitOk(s: Pool, i: nat, size: nat)
    requires PoolOk(s) && i < |s.blocks| && !s.blocks[i].used && size % ALIGN_SIZE == 0 && Splits(s.blocks[i], size)
    ensures ListsOk(Taken(s, i, size))
  {
    var mid := s.blocks[i].lo + ITEM + size;
    SplitBlocksOk(s.blocks, i, s.size, size);
    SumSplit(s.blocks, i, mid, false, ITEM);
    SplitFreeOk(s, i, mid);
    TakenSplitIs(s, i, size, Taken(s, i, size));
  }

  lemma TakenSplitIs(s: Pool, i: nat, size: nat, s1: Pool)
    requires i < |s.blocks| && !s.blocks[i].used && Splits(s.blocks[i], size) && s1 == Taken(s, i, size)
    requires s.available == Sum(s.blocks, false, ITEM)
    requires var mid := s.blocks[i].lo + ITEM + size;
      Sum(Split(s.blocks, i, mid), false, ITEM) ==
      Sum(s.blocks, false, ITEM) - Weight(s.blocks[i], false, ITEM) + (s.blocks[i].hi - mid) - ITEM
    ensures s1.size == s.size && s1.blocks == Split(s.blocks, i, s.blocks[i].lo + ITEM + size)
    ensures s1.free == [s.blocks[i].lo + ITEM + size] + Without(s.free, s.blocks[i].lo)
    ensures s1.available == Sum(s1.blocks, false, ITEM)
  {
  }

  lemma AlignedSum(a: nat, size: nat)
    requires a % ALIGN_SIZE == 0 && size % ALIGN_SIZE == 0
    ensures (a + ITEM + size) % ALIGN_SIZE == 0
  {
  }

  lemma MarkUsedOk(bs: seq<Block>, i: nat, size: nat)
    requires BlocksOk(bs, size) && i < |bs| && !bs[i].used
    ensures BlocksOk(Mark(bs, i, true), size)
  {
    var c := Mark(bs, i, true);
    forall k | 0 <= k < |c| - 1 ensures Meets(c, k) && Parted(c, k) { assert Meets(bs, k) && Parted(bs, k); }
  }

  lemma TakenWholeOk(s: Pool, i: nat, size: nat)
    requires PoolOk(s) && i < |s.blocks| && !s.blocks[i].used && !Splits(s.blocks[i], size)
    ensures ListsOk(Taken(s, i, size))
  {
    MarkUsedOk(s.blocks, i, s.size);
    SumMark(s.blocks, i, true, false, ITEM);
    FreeMark(s.blocks, s.size, i, true);
    ElemsWithout(s.free, s.blocks[i].lo);
  }

  lemma HandedOk(s: Pool, i: nat, size: nat)
    requires PoolOk(s) && i < |s.blocks| && !s.blocks[i].used && size % ALIGN_SIZE == 0
    ensures PoolOk(Handed(s, i, size))
  {
    if Splits(s.blocks[i], size) { TakenSplitOk(s, i, size); } else { TakenWholeOk(s, i, size); }
    MaxedOk(Taken(s, i, size));
  }

  /** What is on the free list is a free block. */
  lemma FreeIsFree(s: Pool, a: nat)
    requires PoolOk(s) && a in s.free
    ensures At(s.blocks, a) < |s.blocks| && !s.blocks[At(s.blocks, a)].used && s.blocks[At(s.blocks, a)].lo == a
  {
    assert a in FreeAddrs(s.blocks);
    var i := FreeWitness(s.blocks, a);
    AtIs(s.blocks, s.size, i);
  }

  /** rt_memheap_alloc keeps the pool coherent. */
  lemma AllocOk(s: Pool, size: nat)
    requires PoolOk(s) && size % ALIGN_SIZE == 0
    ensures PoolOk(Alloced(s, size))
  {
    if Found(s, size).Some? {
      FreeIsFree(s, Found(s, size).value);
      HandedOk(s, At(s.blocks, Found(s, size).value), size);
    }
  }

  /** No free block has more room than is available in all. */
  lemma RoomAtMostAvailable(s: Pool, i: nat)
    requires PoolOk(s) && i < |s.blocks| && !s.blocks[i].used
    ensures Room(s.blocks[i]) <= s.available
  {
    SumAt(s.blocks, i, false, ITEM);
    FreeSumNonNegative(s.blocks[..i]);
    FreeSumNonNegative(s.blocks[i + 1..]);
  }

  lemma {:induction false} FreeSumNonNegative(bs: seq<Block>)
    requires forall i :: 0 <= i < |bs| ==> bs[i].lo + ITEM <= bs[i].hi
    ensures Sum(bs, false, ITEM) >= 0
  {
    if bs != [] { FreeSumNonNegative(bs[1..]); }
  }

  /** First fit in free-list order. NULL is returned although some free block fits exactly when
      the request equals the available total, because the entry test is strict. */
  lemma AllocFailsIff(s: Pool, size: nat)
    requires PoolOk(s)
    ensures (forall i :: 0 <= i < |s.blocks| && !s.blocks[i].used ==> Room(s.blocks[i]) < size) ==> Found(s, size).None?
    ensures (exists i :: 0 <= i < |s.blocks| && !s.blocks[i].used && Room(s.blocks[i]) >= size) ==>
              (Found(s, size).None? <==> size == s.available)
  {
    var k := FirstFit(s.blocks, s.free, size);
    if k < |s.free| { FreeIsFree(s, s.free[k]); }
    if i :| 0 <= i < |s.blocks| && !s.blocks[i].used && Room(s.blocks[i]) >= size {
      RoomAtMostAvailable(s, i);
      FreeMember(s.blocks, i);
      AtIs(s.blocks, s.size, i);
      assert s.blocks[i].lo in Elems(s.free);
      var j :| 0 <= j < |s.free| && s.free[j] == s.blocks[i].lo;
      assert FitsAt(s.blocks, s.free[j], size);
    }
  }

  /** So a fresh pool of 60 bytes refuses a request for all of the 12 bytes it has. */
  lemma RefusesLastBytes()
    ensures var s := Fresh(60);
      && PoolOk(s) && s.available == Request(12) == 12 && !s.blocks[0].used && Room(s.blocks[0]) == 12
      && AllocResult(s, Request(12)).None?
  {
    FreshOk(60);
  }

  /** The granted block was free, is aligned and big enough, and becomes used. */
  lemma AllocGrants(s: Pool, size: nat)
    requires PoolOk(s) && Found(s, size).Some? && size % ALIGN_SIZE == 0
    ensures var a, c := Found(s, size).value, Alloced(s, size).blocks;
      && At(s.blocks, a) < |s.blocks| && !s.blocks[At(s.blocks, a)].used
      && At(c, a) == At(s.blocks, a) < |c| && c[At(c, a)].used && Room(c[At(c, a)]) >= size
        && (a + ITEM) % ALIGN_SIZE == 0
  {
    var a := Found(s, size).value;
    FreeIsFree(s, a);
    HandedGrants(s, At(s.blocks, a), size);
  }

  lemma HandedGrants(s: Pool, i: nat, size: nat)
    requires PoolOk(s) && i < |s.blocks| && !s.blocks[i].used && Room(s.blocks[i]) >= size && size % ALIGN_SIZE == 0
    ensures var a, c := s.blocks[i].lo, Handed(s, i, size).blocks;
      At(c, a) == i < |c| && c[i].used && Room(c[i]) >= size && (a + ITEM) % ALIGN_SIZE == 0
  {
    HandedOk(s, i, size);
    TakenBlock(s.blocks, i, size);
    AtIs(Handed(s, i, size).blocks, s.size, i);
    AlignedSum(s.blocks[i].lo, 0);
  }

  lemma TakenBlock(bs: seq<Block>, i: nat, size: nat)
    requires i < |bs| && Room(bs[i]) >= size
    ensures var c := if Splits(bs[i], size) then Split(bs, i, bs[i].lo + ITEM + size) else Mark(bs, i, true);
      i < |c| && c[i].lo == bs[i].lo && c[i].used && Room(c[i]) >= size
  {
  }

  // -------------------------------------------------------------------- freeing

  /** The blocks and the free list of a release, one merge at a time. */
  lemma ReleaseFree(s: Pool, i: nat)
    requires PoolOk(s) && i < |s.blocks| && s.blocks[i].used
    ensures NoDup(Freed(s, i).free) && Elems(Freed(s, i).free) == FreeAddrs(Release(s.blocks, i))
  {
    var bs, a := s.blocks, s.blocks[i].lo;
    var b1 := Mark(bs, i, false);
    MarkFree(bs, i, ITEM, s.size);
    FreeMark(bs, s.size, i, false);
    FreeAround(bs, i);
    FreeElsewhere(bs, s.size, i);
    assert a !in FreeAddrs(bs);
    ForwardFree(s, i);
    var b2, f2 := Forward(b1, i), NextOff(s, i);
    ForwardShape(b1, i, ITEM, s.size);
    if FreePrev(bs, i) {
      FreeJoin(b2, s.size, i - 1);
      assert FreeAddrs(b2) - {a} == Elems(f2);
    } else {
      ElemsPush(f2, a);
    }
  }

  lemma ForwardFree(s: Pool, i: nat)
    requires PoolOk(s) && i < |s.blocks| && s.blocks[i].used
    ensures var f := NextOff(s, i);
      NoDup(f) && s.blocks[i].lo !in f && FreeAddrs(Forward(Mark(s.blocks, i, false), i)) == Elems(f) + {s.blocks[i].lo}
  {
    var bs, a := s.blocks, s.blocks[i].lo;
    var b1 := Mark(bs, i, false);
    MarkFree(bs, i, ITEM, s.size);
    FreeMark(bs, s.size, i, false);
    FreeAround(bs, i);
    FreeElsewhere(bs, s.size, i);
    assert a !in Elems(s.free);
    if FreeNext(bs, i) {
      FreeJoin(b1, s.size, i);
      ElemsWithout(s.free, bs[i + 1].lo);
      assert Meets(bs, i);
    }
  }

  lemma ReleaseTail(bs: seq<Block>, size: nat, i: nat)
    requires BlocksOk(bs, size) && i + 1 < |bs|
    ensures TailOk(Release(bs, i), size)
  {
    var b1 := Mark(bs, i, false);
    var b2 := Forward(b1, i);
    assert b2[|b2| - 1] == bs[|bs| - 1] && i + 1 < |b2|;
    var b3 := Backward(b2, i);
    assert b3[|b3| - 1] == bs[|bs| - 1] && |b3| > 1;
  }

  /** rt_memheap_free keeps the pool coherent: a block is merged with every free neighbour, a
      merged successor leaves the free list, and the block enters it unless its predecessor
      absorbed it. */
  lemma FreeOk(s: Pool, i: nat)
    requires PoolOk(s) && i + 1 < |s.blocks| && s.blocks[i].used
    ensures PoolOk(Freed(s, i))
  {
    ReleaseCorrect(s.blocks, i, ITEM, s.size);
    AlignedRelease(s.blocks, i);
    ReleaseTail(s.blocks, s.size, i);
    ReleaseFree(s, i);
    assert Room(s.blocks[i]) >= 0;
  }

  /** Freeing what an allocation returned gives back the blocks and the available total; the
      free list holds the same blocks, with this one first. */
  lemma FreeUndoesAlloc(s: Pool, size: nat)
    requires PoolOk(s) && Found(s, size).Some? && size % ALIGN_SIZE == 0
    ensures var a := Found(s, size).value;
      var i, s1 := At(s.blocks, a), Alloced(s, size);
      i < |s1.blocks| && At(s1.blocks, a) == i && Restored(s, Freed(s1, i), a)
  {
    var a := Found(s, size).value;
    FreeIsFree(s, a);
    var i := At(s.blocks, a);
    HandedOk(s, i, size);
    if Splits(s.blocks[i], size) { FreeUndoesSplit(s, i, size); } else { FreeUndoesWhole(s, i, size); }
  }

  /** Pool `s2` is pool `s` again, apart from the order of the free list and the mark. */
  ghost predicate Restored(s: Pool, s2: Pool, a: nat) {
    s2.size == s.size && s2.blocks == s.blocks && s2.available == s.available && s2.free == [a] + Without(s.free, a)
  }

  /** Freeing block `i` between the given kinds of neighbours. */
  lemma FreedBetween(s: Pool, i: nat, bs: seq<Block>, next: bool)
    requires i < |s.blocks| && Release(s.blocks, i) == bs && !FreePrev(s.blocks, i) && FreeNext(s.blocks, i) == next
    ensures var f := if next then Without(s.free, s.blocks[i + 1].lo) else s.free;
      Freed(s, i) == s.(blocks := bs, free := [s.blocks[i].lo] + f,
                        available := s.available + Room(s.blocks[i]) + if next then ITEM else 0)
  {
  }

  lemma FreeUndoesWhole(s: Pool, i: nat, size: nat)
    requires PoolOk(s) && i < |s.blocks| && !s.blocks[i].used && !Splits(s.blocks[i], size)
    ensures var a, s1 := s.blocks[i].lo, Handed(s, i, size);
      i < |s1.blocks| && At(s1.blocks, a) == i && Restored(s, Freed(s1, i), a)
  {
    var bs := s.blocks;
    MarkUsedOk(bs, i, s.size);
    ReleaseUndoesMark(bs, i);
    AtIs(Mark(bs, i, true), s.size, i);
    assert i > 0 ==> Parted(bs, i - 1);
    assert i + 1 < |bs| ==> Parted(bs, i);
    WholeFreed(s, i, Handed(s, i, size));
  }

  lemma WholeFreed(s: Pool, i: nat, s1: Pool)
    requires i < |s.blocks| && !s.blocks[i].used && !FreePrev(s.blocks, i) && !FreeNext(s.blocks, i)
    requires s1.size == s.size && s1.blocks == Mark(s.blocks, i, true) && s1.free == Without(s.free, s.blocks[i].lo)
    requires s1.available == s.available - Room(s.blocks[i]) && Release(s1.blocks, i) == s.blocks
    ensures Restored(s, Freed(s1, i), s.blocks[i].lo)
  {
  }

  lemma FreeUndoesSplit(s: Pool, i: nat, size: nat)
    requires PoolOk(s) && i < |s.blocks| && !s.blocks[i].used && size % ALIGN_SIZE == 0 && Splits(s.blocks[i], size)
    ensures var a, s1 := s.blocks[i].lo, Handed(s, i, size);
      i < |s1.blocks| && At(s1.blocks, a) == i && Restored(s, Freed(s1, i), a)
  {
    var bs, mid := s.blocks, s.blocks[i].lo + ITEM + size;
    SplitBlocksOk(bs, i, s.size, size);
    AtIs(Split(bs, i, mid), s.size, i);
    SplitFreed(s, i, mid, Handed(s, i, size));
  }

  lemma SplitFreed(s: Pool, i: nat, mid: nat, s1: Pool)
    requires PoolOk(s) && i < |s.blocks| && !s.blocks[i].used && s.blocks[i].lo + ITEM <= mid && mid < s.blocks[i].hi
    requires s1.size == s.size && s1.blocks == Split(s.blocks, i, mid)
        && s1.free == [mid] + Without(s.free, s.blocks[i].lo)
    requires s1.available == s.available - (mid - s.blocks[i].lo)
    ensures Restored(s, Freed(s1, i), s.blocks[i].lo)
  {
    SplitNeighbours(s.blocks, i, mid);
    ReleaseUndoesSplit(s.blocks, i, mid);
    FreedBetween(s1, i, s.blocks, true);
    SplitFreeOk(s, i, mid);
    WithoutFresh(s.free, s.blocks[i].lo, mid, s1.free);
  }

  lemma SplitNeighbours(bs: seq<Block>, i: nat, mid: nat)
    requires Coalesced(bs) && i < |bs| && !bs[i].used
    ensures var c := Split(bs, i, mid);
      && c[i] == Block(bs[i].lo, mid, true) && c[i + 1] == Block(mid, bs[i].hi, false)
      && FreeNext(c, i) && !FreePrev(c, i)
  {
    SplitAt(bs, i, mid, i);
    SplitAt(bs, i, mid, i + 1);
    if i > 0 {
      SplitAt(bs, i, mid, i - 1);
      assert Parted(bs, i - 1);
    }
  }

  lemma WithoutFresh(free: seq<nat>, a: nat, mid: nat, free1: seq<nat>)
    requires free1 == [mid] + Without(free, a) && NoDup(free1)
    ensures Without(free1, mid) == Without(free, a)
  {
  }

  // --------------------------------------------------------------------- resizing

  /** A live payload pointer: one behind the header of a used block other than the tailer. */
  predicate Live(s: Pool, p: nat) {
    At(s.blocks, p - ITEM) + 1 < |s.blocks| && s.blocks[At(s.blocks, p - ITEM)].used
  }

  function IndexOf(s: Pool, p: nat): nat {
    At(s.blocks, p - ITEM)
  }

  /** The pointer that resizing the live block at `p` to `size` bytes (aligned) returns. */
  function ResizeResult(s: Pool, p: nat, size: nat): Option<nat>
    requires Live(s, p)
  {
    var i := IndexOf(s, p);
    if size <= Room(s.blocks[i]) || Grows(s.blocks, i, size) then Some(p) else AllocResult(s, size)
  }

  /** Allocating first and freeing the old block afterwards. */
  function Moved(s: Pool, p: nat, size: nat): Pool {
    var s1 := Alloced(s, size);
    if Found(s, size).Some? && Live(s1, p) then Freed(s1, IndexOf(s1, p)) else s
  }

  function Resized(s: Pool, p: nat, size: nat): Pool
    requires Live(s, p)
  {
    var i := IndexOf(s, p);
    if size > Room(s.blocks[i]) then if Grows(s.blocks, i, size) then Grown(s, i, size) else Moved(s, p, size)
    else if size + ITEM + MINI >= Room(s.blocks[i]) then s
    else CutDown(s, i, size)
  }

  lemma SumUpdate(bs: seq<Block>, i: nat, b: Block, u: bool)
    requires i < |bs|
    ensures Sum(bs[i := b], u, ITEM) == Sum(bs, u, ITEM) - Weight(bs[i], u, ITEM) + Weight(b, u, ITEM)
  {
    SumAt(bs, i, u, ITEM);
    SumAt(bs[i := b], i, u, ITEM);
    assert bs[i := b][..i] == bs[..i] && bs[i := b][i + 1..] == bs[i + 1..];
  }

  lemma RegrownTiles(bs: seq<Block>, i: nat, mid: nat, size: nat)
    requires BlocksOk(bs, size) && i + 1 < |bs| && bs[i].used && !bs[i + 1].used && mid % ALIGN_SIZE == 0
    requires bs[i].lo + ITEM <= mid && mid + ITEM <= bs[i + 1].hi
    ensures BlocksOk(Regrown(bs, i, mid), size)
  {
    var c := Regrown(bs, i, mid);
    forall k | 0 <= k < |c| - 1 ensures Meets(c, k) && Parted(c, k) { assert Meets(bs, k) && Parted(bs, k); }
  }

  lemma RegrownSum(bs: seq<Block>, i: nat, mid: nat)
    requires i + 1 < |bs| && bs[i].used && !bs[i + 1].used && mid <= bs[i + 1].hi
    ensures Sum(Regrown(bs, i, mid), false, ITEM) == Sum(bs, false, ITEM) - (mid - bs[i + 1].lo)
  {
    var b1 := bs[i := bs[i].(hi := mid)];
    SumUpdate(bs, i, bs[i].(hi := mid), false);
    SumUpdate(b1, i + 1, bs[i + 1].(lo := mid), false);
  }

  lemma RegrownFree(s: Pool, i: nat, mid: nat)
    requires ListsOk(s) && i + 1 < |s.blocks| && s.blocks[i].used && !s.blocks[i + 1].used
    requires s.blocks[i].lo < mid < s.blocks[i + 1].hi
    ensures var free := [mid] + Without(s.free, s.blocks[i + 1].lo);
      NoDup(free) && Elems(free) == FreeAddrs(Regrown(s.blocks, i, mid))
  {
    var bs := s.blocks;
    var b1 := bs[i := bs[i].(hi := mid)];
    var c, was := Regrown(bs, i, mid), bs[i + 1].lo;
    FreeAround(bs, i + 1);
    FreeAround(c, i + 1);
    FreeSameFlags(bs[..i + 1], c[..i + 1]);
    assert c[i + 2..] == bs[i + 2..];
    FreeElsewhere(bs, s.size, i + 1);
    FreeElsewhere(bs, s.size, i);
    FreeAround(bs, i);
    assert mid !in FreeAddrs(bs) - {was};
    ElemsWithout(s.free, was);
    assert mid !in Elems(Without(s.free, was));
    ElemsPush(Without(s.free, was), mid);
  }

  lemma {:induction false} FreeSameFlags(a: seq<Block>, b: seq<Block>)
    requires |a| == |b| && forall k :: 0 <= k < |a| ==> a[k].used == b[k].used && a[k].lo == b[k].lo
    ensures FreeAddrs(a) == FreeAddrs(b)
  {
    if a != [] { FreeSameFlags(a[1..], b[1..]); }
  }

  /** Growing in place keeps the pool coherent. */
  lemma GrownOk(s: Pool, i: nat, size: nat)
    requires PoolOk(s) && i + 1 < |s.blocks| && s.blocks[i].used && size % ALIGN_SIZE == 0
    requires size > Room(s.blocks[i]) && Grows(s.blocks, i, size)
    ensures PoolOk(Grown(s, i, size))
  {
    EnlargedOk(s, i, size);
    MaxedOk(Enlarged(s, i, size));
  }

  lemma EnlargedOk(s: Pool, i: nat, size: nat)
    requires ListsOk(s) && i + 1 < |s.blocks| && s.blocks[i].used && size % ALIGN_SIZE == 0
    requires size > Room(s.blocks[i]) && Grows(s.blocks, i, size)
    ensures ListsOk(Enlarged(s, i, size))
  {
    var mid := s.blocks[i].lo + ITEM + size;
    assert Meets(s.blocks, i);
    AlignedSum(s.blocks[i].lo, size);
    RegrownTiles(s.blocks, i, mid, s.size);
    RegrownSum(s.blocks, i, mid);
    RegrownFree(s, i, mid);
  }

  lemma CutBlocks(bs: seq<Block>, i: nat, mid: nat, size: nat)
    requires BlocksOk(bs, size) && i + 1 < |bs| && bs[i].used && mid % ALIGN_SIZE == 0
    requires bs[i].lo + ITEM <= mid && mid + ITEM <= bs[i].hi
    ensures BlocksOk(Shrunk(bs, i, mid), size)
    ensures Sum(Shrunk(bs, i, mid), false, ITEM) ==
            Sum(bs, false, ITEM) + (bs[i].hi - mid - ITEM) + if FreeNext(bs, i) then ITEM else 0
  {
    var c := Split(bs, i, mid);
    SplitTiles(bs, i, mid, ITEM, size);
    ShrunkShape(bs, i, mid, ITEM, size);
    AlignedSplit(bs, i, mid);
    SplitAt(bs, i, mid, i + 1);
    SplitAt(bs, i, mid, i + 2);
    if i + 2 < |c| && !c[i + 2].used { AlignedJoin(c, i + 1); }
    ShrunkTail(bs, i, mid);
    SumSplit(bs, i, mid, false, ITEM);
    ForwardSums(c, i + 1, ITEM, size);
  }

  lemma ShrunkTail(bs: seq<Block>, i: nat, mid: nat)
    requires i + 1 < |bs| && bs[|bs| - 1].used
    ensures var r := Shrunk(bs, i, mid); |r| > 1 && r[|r| - 1] == bs[|bs| - 1]
  {
  }

  lemma CutFree(s: Pool, i: nat, mid: nat)
    requires ListsOk(s) && i + 1 < |s.blocks| && s.blocks[i].used && s.blocks[i].lo + ITEM <= mid
        && mid + ITEM <= s.blocks[i].hi
    ensures var free := [mid] + NextOff(s, i);
      NoDup(free) && Elems(free) == FreeAddrs(Shrunk(s.blocks, i, mid))
  {
    var bs := s.blocks;
    var c := Split(bs, i, mid);
    FreeSplit(bs, s.size, i, mid);
    FreeAround(bs, i);
    FreeElsewhere(bs, s.size, i);
    assert FreeAddrs(c) == FreeAddrs(bs) + {mid} && mid !in FreeAddrs(bs);
    SplitTiles(bs, i, mid, ITEM, s.size);
    SplitAt(bs, i, mid, i + 1);
    SplitAt(bs, i, mid, i + 2);
    if FreeNext(bs, i) {
      FreeJoin(c, s.size, i + 1);
      ElemsWithout(s.free, bs[i + 1].lo);
      assert Meets(bs, i);
    }
    assert mid !in Elems(NextOff(s, i));
    ElemsPush(NextOff(s, i), mid);
  }

  /** Giving back a tail keeps the pool coherent. */
  lemma CutDownOk(s: Pool, i: nat, size: nat)
    requires PoolOk(s) && i + 1 < |s.blocks| && s.blocks[i].used && size % ALIGN_SIZE == 0
    requires size + ITEM + MINI < Room(s.blocks[i])
    ensures PoolOk(CutDown(s, i, size))
  {
    var bs, mid := s.blocks, s.blocks[i].lo + ITEM + size;
    AlignedSum(bs[i].lo, size);
    CutBlocks(bs, i, mid, s.size);
    CutFree(s, i, mid);
    assert Meets(bs, i);
  }

  /** A live block other than the one handed out is the same live block afterwards. */
  lemma LiveThroughAlloc(s: Pool, p: nat, size: nat)
    requires PoolOk(s) && Live(s, p) && size % ALIGN_SIZE == 0
    ensures var s1 := Alloced(s, size);
      PoolOk(s1) && Live(s1, p) && s1.blocks[IndexOf(s1, p)] == s.blocks[IndexOf(s, p)]
  {
    if Found(s, size).Some? {
      var a := Found(s, size).value;
      FreeIsFree(s, a);
      LiveThroughHanded(s, p, At(s.blocks, a), size);
    }
  }

  lemma LiveThroughHanded(s: Pool, p: nat, i: nat, size: nat)
    requires PoolOk(s) && Live(s, p) && i < |s.blocks| && !s.blocks[i].used && size % ALIGN_SIZE == 0
    ensures var s1 := Handed(s, i, size);
      PoolOk(s1) && Live(s1, p) && s1.blocks[IndexOf(s1, p)] == s.blocks[IndexOf(s, p)]
  {
    HandedOk(s, i, size);
    LiveThroughTaken(s, p, i, size, Handed(s, i, size));
  }

  lemma LiveThroughTaken(s: Pool, p: nat, i: nat, size: nat, s1: Pool)
    requires Live(s, p) && i < |s.blocks| && !s.blocks[i].used && Tiles(s1.blocks, ITEM, s1.size)
    requires s1.blocks == if Splits(s.blocks[i], size) then Split(s.blocks, i, s.blocks[i].lo + ITEM + size)
        else Mark(s.blocks, i, true)
    ensures Live(s1, p) && s1.blocks[IndexOf(s1, p)] == s.blocks[IndexOf(s, p)]
  {
    var j := IndexOf(s, p);
    OthersStay(s.blocks, i, size, j);
    LiveIs(s1, p, if Splits(s.blocks[i], size) && j > i then j + 1 else j);
  }

  lemma LiveIs(s: Pool, p: nat, k: nat)
    requires Tiles(s.blocks, ITEM, s.size) && k + 1 < |s.blocks| && s.blocks[k].used && s.blocks[k].lo == p - ITEM
    ensures Live(s, p) && IndexOf(s, p) == k
  {
    AtIs(s.blocks, s.size, k);
  }

  /** Where block `j` stands after block `i` was handed out. */
  lemma OthersStay(bs: seq<Block>, i: nat, size: nat, j: nat)
    requires i < |bs| && j + 1 < |bs| && j != i
    ensures var cut := Splits(bs[i], size);
      var c := if cut then Split(bs, i, bs[i].lo + ITEM + size) else Mark(bs, i, true);
      var k := if cut && j > i then j + 1 else j;
      k + 1 < |c| && c[k] == bs[j]
  {
  }

  /** rt_memheap_realloc keeps the pool coherent, on every branch. */
  lemma ResizeOk(s: Pool, p: nat, size: nat)
    requires PoolOk(s) && Live(s, p) && size % ALIGN_SIZE == 0
    ensures PoolOk(Resized(s, p, size))
    ensures ResizeResult(s, p, size).None? ==> Resized(s, p, size) == s
  {
    var i := IndexOf(s, p);
    if size > Room(s.blocks[i]) {
      if Grows(s.blocks, i, size) {
        GrownOk(s, i, size);
      } else {
        LiveThroughAlloc(s, p, size);
        if Found(s, size).Some? { FreeOk(Alloced(s, size), IndexOf(Alloced(s, size), p)); }
      }
    } else if size + ITEM + MINI < Room(s.blocks[i]) {
      CutDownOk(s, i, size);
    }
  }

  // ---------------------------------------------- what the calls do to live blocks

  /** Used blocks other than the tailer are found by their pointers. */
  lemma FindUsed(s: Pool, b: Block)
    requires BlocksOk(s.blocks, s.size) && b in UsedSet(s.blocks) && b.lo + ITEM != s.size
    ensures Live(s, b.lo + ITEM) && s.blocks[IndexOf(s, b.lo + ITEM)] == b
  {
    var i :| 0 <= i < |s.blocks| && s.blocks[i] == b;
    AtIs(s.blocks, s.size, i);
  }

  lemma LiveUsed(s: Pool, x: nat)
    requires BlocksOk(s.blocks, s.size) && Live(s, x)
    ensures var b := s.blocks[IndexOf(s, x)]; b in UsedSet(s.blocks) && b.lo + ITEM == x && x != s.size
  {
    AtIs(s.blocks, s.size, |s.blocks| - 1);
  }

  /** The pointer `x` is live in both pools, with the same block, or in neither. */
  predicate SameLive(s: Pool, s1: Pool, x: nat) {
    && (Live(s, x) <==> Live(s1, x))
    && (Live(s, x) && Live(s1, x) ==> s.blocks[IndexOf(s, x)] == s1.blocks[IndexOf(s1, x)])
  }

  /** Apart from what is at `p` and `q`, no allocation appears, moves, changes or goes. */
  ghost predicate OthersSame(s: Pool, s1: Pool, p: nat, q: nat) {
    forall x :: x != p && x != q ==> SameLive(s, s1, x)
  }

  ghost predicate BothOk(s: Pool, s1: Pool) {
    BlocksOk(s.blocks, s.size) && BlocksOk(s1.blocks, s1.size) && s1.size == s.size
  }

  lemma SameLiveFrom(s: Pool, s1: Pool, gone: set<Block>, came: set<Block>, x: nat)
    requires BothOk(s, s1) && UsedSet(s1.blocks) == UsedSet(s.blocks) - gone + came
    requires forall b :: b in gone || b in came ==> b.lo + ITEM != x
    ensures SameLive(s, s1, x)
  {
    if Live(s, x) {
      LiveUsed(s, x);
      FindUsed(s1, s.blocks[IndexOf(s, x)]);
    }
    if Live(s1, x) {
      LiveUsed(s1, x);
      FindUsed(s, s1.blocks[IndexOf(s1, x)]);
    }
  }

  /** The used blocks without block `i`. */
  lemma OneGone(s: Pool, s1: Pool, i: nat)
    requires BothOk(s, s1) && i < |s.blocks| && s.blocks[i].used
    requires UsedSet(s1.blocks) == UsedSet(s.blocks) - {s.blocks[i]}
    ensures var p := s.blocks[i].lo + ITEM; !Live(s1, p) && OthersSame(s, s1, p, p)
  {
    var p := s.blocks[i].lo + ITEM;
    forall x | x != p ensures SameLive(s, s1, x) { SameLiveFrom(s, s1, {s.blocks[i]}, {}, x); }
    AtIs(s.blocks, s.size, i);
    if Live(s1, p) {
      LiveUsed(s1, p);
      FindUsed(s, s1.blocks[IndexOf(s1, p)]);
    }
  }

  /** The used blocks with block `b` in place of those in `gone`, which are at the same address. */
  lemma OneCame(s: Pool, s1: Pool, gone: set<Block>, b: Block)
    requires BothOk(s, s1) && b.used && UsedSet(s1.blocks) == UsedSet(s.blocks) - gone + {b} && b.lo + ITEM != s.size
    requires forall g :: g in gone ==> g.lo == b.lo
    ensures var p := b.lo + ITEM; Live(s1, p) && s1.blocks[IndexOf(s1, p)] == b && OthersSame(s, s1, p, p)
  {
    var p := b.lo + ITEM;
    FindUsed(s1, b);
    forall x | x != p ensures SameLive(s, s1, x) { SameLiveFrom(s, s1, gone, {b}, x); }
  }

  /** The peak of the space in use, headers included, counts what an operation leaves in use. */
  predicate PeakKept(s: Pool, s1: Pool) {
    s1.maxUsed == if s1.size - s1.available > s.maxUsed then s1.size - s1.available else s.maxUsed
  }

  /** What an allocation of `size` bytes that returned `p` did. */
  ghost predicate Served(s: Pool, s1: Pool, p: nat, size: nat) {
    && !Live(s, p) && Live(s1, p) && p % ALIGN_SIZE == 0
    && size <= Room(s1.blocks[IndexOf(s1, p)]) < size + 36
    && OthersSame(s, s1, p, p) && PeakKept(s, s1)
  }

  /** An allocation that returns NULL changes nothing. Any other returns an aligned pointer that was
      not live and now is, with room for the request and less than a header and twelve bytes
      more; no other allocation appears, moves, changes or goes. */
  lemma AllocServes(s: Pool, size: nat)
    requires PoolOk(s) && size % ALIGN_SIZE == 0
    ensures var r, s1 := AllocResult(s, size), Alloced(s, size);
      if r.None? then s1 == s else Served(s, s1, r.value, size)
  {
    if Found(s, size).Some? {
      var a := Found(s, size).value;
      FreeIsFree(s, a);
      HandedOk(s, At(s.blocks, a), size);
      HandedIs(s, At(s.blocks, a), size);
      HandedServes(s, At(s.blocks, a), size, Alloced(s, size));
    }
  }

  /** What becomes of free block `b` when it is handed out for `size` bytes. */
  function HandedBlock(b: Block, size: nat): Block {
    Block(b.lo, if Splits(b, size) then b.lo + ITEM + size else b.hi, true)
  }

  lemma HandedIs(s: Pool, i: nat, size: nat)
    requires Tiles(s.blocks, ITEM, s.size) && i < |s.blocks|
    ensures var s1 := Handed(s, i, size);
      && s1.size == s.size && PeakKept(s, s1)
      && UsedSet(s1.blocks) == UsedSet(s.blocks) - {s.blocks[i]} + {HandedBlock(s.blocks[i], size)}
  {
    var b := s.blocks[i];
    if Splits(b, size) {
      UsedSetSplit(s.blocks, ITEM, s.size, i, b.lo + ITEM + size);
      assert HandedBlock(b, size) == Block(b.lo, b.lo + ITEM + size, true);
    } else {
      UsedSetMark(s.blocks, ITEM, s.size, i, true);
      assert HandedBlock(b, size) == b.(used := true);
    }
  }

  lemma HandedServes(s: Pool, i: nat, size: nat, s1: Pool)
    requires BothOk(s, s1) && i < |s.blocks| && !s.blocks[i].used && Room(s.blocks[i]) >= size
    requires PeakKept(s, s1)
    requires UsedSet(s1.blocks) == UsedSet(s.blocks) - {s.blocks[i]} + {HandedBlock(s.blocks[i], size)}
    ensures Served(s, s1, s.blocks[i].lo + ITEM, size)
  {
    AlignedSum(s.blocks[i].lo, 0);
    NotLive(s, i);
    ServedBy(s, s1, {s.blocks[i]}, HandedBlock(s.blocks[i], size), size);
  }

  lemma NotLive(s: Pool, i: nat)
    requires BlocksOk(s.blocks, s.size) && i < |s.blocks| && !s.blocks[i].used
    ensures !Live(s, s.blocks[i].lo + ITEM) && s.blocks[i].lo + ITEM != s.size
  {
    AtIs(s.blocks, s.size, i);
    AtIs(s.blocks, s.size, |s.blocks| - 1);
  }

  lemma ServedBy(s: Pool, s1: Pool, gone: set<Block>, b: Block, size: nat)
    requires BothOk(s, s1) && b.used && UsedSet(s1.blocks) == UsedSet(s.blocks) - gone + {b} && b.lo + ITEM != s.size
    requires forall g :: g in gone ==> g.lo == b.lo
    requires !Live(s, b.lo + ITEM) && (b.lo + ITEM) % ALIGN_SIZE == 0 && size <= Room(b) < size + 36 && PeakKept(s, s1)
    ensures Served(s, s1, b.lo + ITEM, size)
  {
    OneCame(s, s1, gone, b);
  }

  /** The block granted is the first on the free list with room. It is cut exactly if a header and
      twelve bytes are left over, and then what is left over heads the free list. */
  lemma AllocFirstFit(s: Pool, size: nat)
    requires PoolOk(s) && AllocResult(s, size).Some? && size % ALIGN_SIZE == 0
    ensures var p, s1 := AllocResult(s, size).value, Alloced(s, size);
      && p >= 24
      && (exists k :: 0 <= k < |s.free| && s.free[k] == p - 24
                      && forall j :: 0 <= j < k ==> TooSmall(s, s.free[j], size))
      && !TooSmall(s, p - 24, size)
      && CutRight(s, s1, At(s.blocks, p - 24), size)
  {
    var a := Found(s, size).value;
    FreeIsFree(s, a);
    FirstOfFree(s, size);
    HandedCut(s, At(s.blocks, a), size);
  }

  lemma FirstOfFree(s: Pool, size: nat)
    requires PoolOk(s) && Found(s, size).Some?
    ensures var a := Found(s, size).value;
      && !TooSmall(s, a, size)
      && exists k :: 0 <= k < |s.free| && s.free[k] == a && forall j :: 0 <= j < k ==> TooSmall(s, s.free[j], size)
  {
    var a, k := Found(s, size).value, FirstFit(s.blocks, s.free, size);
    FreeIsFree(s, a);
    forall j | 0 <= j < k ensures TooSmall(s, s.free[j], size) { FreeIsFree(s, s.free[j]); }
    assert s.free[k] == a;
  }

  lemma HandedCut(s: Pool, i: nat, size: nat)
    requires i < |s.blocks| && Room(s.blocks[i]) >= size
    ensures CutRight(s, Handed(s, i, size), i, size)
  {
  }

  predicate TooSmall(s: Pool, a: nat, size: nat) {
    At(s.blocks, a) < |s.blocks| && s.blocks[At(s.blocks, a)].hi - a - 24 < size
  }

  predicate CutRight(s: Pool, s1: Pool, i: nat, size: nat)
  {
    i < |s.blocks| &&
    var b := s.blocks[i];
    if b.hi - b.lo - 24 < size + 36 then s1.free == Without(s.free, b.lo) && |s1.blocks| == |s.blocks|
    else
      && s1.free == [b.lo + 24 + size] + Without(s.free, b.lo) && |s1.blocks| == |s.blocks| + 1
      && s1.blocks[i + 1] == Block(b.lo + 24 + size, b.hi, false)
  }

  /** A free ends exactly the allocation it is given. */
  lemma FreeEnds(s: Pool, p: nat)
    requires PoolOk(s) && Live(s, p)
    ensures var s1 := Freed(s, IndexOf(s, p));
      !Live(s1, p) && OthersSame(s, s1, p, p) && s1.maxUsed == s.maxUsed
  {
    var i := IndexOf(s, p);
    FreeOk(s, i);
    UsedSetRelease(s.blocks, ITEM, s.size, i);
    OneGone(s, Freed(s, i), i);
  }

  /** The room of a block resized in place: as asked for, but a surplus of up to a header and twelve
      bytes stays with it. */
  function Refit(room: int, size: nat): int {
    if size <= room <= size + 36 then room else size
  }

  /** What a realloc of the live block at `p` to `size` bytes (aligned) that returned `q` did. */
  ghost predicate Resettled(s: Pool, s1: Pool, p: nat, q: nat, size: nat)
    requires Live(s, p)
  {
    && Live(s1, q) && size <= Room(s1.blocks[IndexOf(s1, q)]) <= size + 36
    && (if q != p then !Live(s, q) && !Live(s1, p)
        else Room(s1.blocks[IndexOf(s1, p)]) == Refit(Room(s.blocks[IndexOf(s, p)]), size) && PeakKept(s, s1))
    && OthersSame(s, s1, p, q)
  }

  ghost predicate Reallocated(s: Pool, s1: Pool, p: nat, r: Option<nat>, size: nat)
    requires Live(s, p)
  {
    if r.None? then s1 == s else Resettled(s, s1, p, r.value, size)
  }

  /** A realloc that returns NULL changes nothing. Any other leaves one allocation in place of the
      old one, with room for the new size and at most a header and twelve bytes more, and
      changes no other. */
  lemma ResizeServes(s: Pool, p: nat, size: nat)
    requires PoolOk(s) && Live(s, p) && size % ALIGN_SIZE == 0
    ensures Reallocated(s, Resized(s, p, size), p, ResizeResult(s, p, size), size)
  {
    ResizeCases(s, p, size, ResizeResult(s, p, size), Resized(s, p, size));
  }

  lemma ResizeCases(s: Pool, p: nat, size: nat, r: Option<nat>, s1: Pool)
    requires PoolOk(s) && Live(s, p) && size % ALIGN_SIZE == 0
    requires r == ResizeResult(s, p, size) && s1 == Resized(s, p, size)
    ensures Reallocated(s, s1, p, r, size)
  {
    var i := IndexOf(s, p);
    LiveUsed(s, p);
    if size > Room(s.blocks[i]) {
      if Grows(s.blocks, i, size) { GrowServes(s, p, i, size); }
      else if Found(s, size).Some? { MoveServes(s, p, size); }
    } else if size + ITEM + MINI < Room(s.blocks[i]) {
      CutServes(s, p, i, size);
    } else {
      StayServes(s, p, size);
    }
  }

  lemma StayServes(s: Pool, p: nat, size: nat)
    requires Live(s, p) && size <= Room(s.blocks[IndexOf(s, p)]) <= size + 36 && PeakKept(s, s)
    ensures Reallocated(s, s, p, Some(p), size)
  {
  }

  lemma GrowServes(s: Pool, p: nat, i: nat, size: nat)
    requires PoolOk(s) && i + 1 < |s.blocks| && s.blocks[i].used && size % ALIGN_SIZE == 0
    requires size > Room(s.blocks[i]) && Grows(s.blocks, i, size)
    requires Live(s, p) && IndexOf(s, p) == i && s.blocks[i].lo + ITEM == p != s.size
    ensures Reallocated(s, Grown(s, i, size), p, Some(p), size)
  {
    GrownOk(s, i, size);
    RegrownUsed(s.blocks, s.size, i, s.blocks[i].lo + ITEM + size);
    Refitted(s, Grown(s, i, size), p, i, size);
  }

  lemma RegrownUsed(bs: seq<Block>, size: nat, i: nat, mid: nat)
    requires Tiles(bs, ITEM, size) && i + 1 < |bs| && bs[i].used && !bs[i + 1].used
    ensures UsedSet(Regrown(bs, i, mid)) == UsedSet(bs) - {bs[i]} + {Block(bs[i].lo, mid, true)}
  {
    var b, c := Block(bs[i].lo, mid, true), bs[i := Block(bs[i].lo, mid, true)];
    UsedSetReplace(bs, ITEM, size, i, [b]);
    assert c == bs[..i] + [b] + bs[i + 1..] && UsedSet([b]) == {b};
    FreeUpdate(c, i + 1, bs[i + 1].(lo := mid));
  }

  lemma FreeUpdate(bs: seq<Block>, i: nat, b: Block)
    requires i < |bs| && !bs[i].used && !b.used
    ensures UsedSet(bs[i := b]) == UsedSet(bs)
  {
    var c := bs[i := b];
    forall x | x in UsedSet(bs) ensures x in UsedSet(c) {
      var k :| 0 <= k < |bs| && bs[k] == x;
      assert c[k] == x;
    }
    forall x | x in UsedSet(c) ensures x in UsedSet(bs) {
      var k :| 0 <= k < |c| && c[k] == x;
      assert bs[k] == x;
    }
  }

  lemma CutServes(s: Pool, p: nat, i: nat, size: nat)
    requires PoolOk(s) && i + 1 < |s.blocks| && s.blocks[i].used && size % ALIGN_SIZE == 0
    requires size + ITEM + MINI < Room(s.blocks[i])
    requires Live(s, p) && IndexOf(s, p) == i && s.blocks[i].lo + ITEM == p != s.size
    ensures Reallocated(s, CutDown(s, i, size), p, Some(p), size)
  {
    CutDownOk(s, i, size);
    UsedSetShrunk(s.blocks, ITEM, s.size, i, s.blocks[i].lo + ITEM + size);
    Refitted(s, CutDown(s, i, size), p, i, size);
  }

  /** Block `i` was given a new end. */
  lemma Refitted(s: Pool, s1: Pool, p: nat, i: nat, size: nat)
    requires BothOk(s, s1) && Live(s, p) && IndexOf(s, p) == i && s.blocks[i].lo + ITEM == p != s.size
    requires !(size <= Room(s.blocks[i]) <= size + 36) && PeakKept(s, s1)
    requires UsedSet(s1.blocks) ==
             UsedSet(s.blocks) - {s.blocks[i]} + {Block(s.blocks[i].lo, s.blocks[i].lo + ITEM + size, true)}
    ensures Reallocated(s, s1, p, Some(p), size)
  {
    OneCame(s, s1, {s.blocks[i]}, Block(s.blocks[i].lo, s.blocks[i].lo + ITEM + size, true));
  }

  lemma MoveServes(s: Pool, p: nat, size: nat)
    requires PoolOk(s) && Live(s, p) && size % ALIGN_SIZE == 0 && Found(s, size).Some?
    ensures Reallocated(s, Moved(s, p, size), p, AllocResult(s, size), size)
  {
    var s1 := Alloced(s, size);
    AllocServes(s, size);
    LiveThroughAlloc(s, p, size);
    FreeEnds(s1, p);
    MovedOn(s, s1, Freed(s1, IndexOf(s1, p)), p, AllocResult(s, size).value, size);
  }

  lemma MovedOn(s: Pool, s1: Pool, s2: Pool, p: nat, q: nat, size: nat)
    requires Served(s, s1, q, size) && Live(s, p) && !Live(s2, p) && OthersSame(s1, s2, p, p)
    ensures Reallocated(s, s2, p, Some(q), size)
  {
    assert SameLive(s1, s2, q);
    forall x | x != p && x != q ensures SameLive(s, s2, x) { assert SameLive(s, s1, x) && SameLive(s1, s2, x); }
  }

  /** The free block behind block `i`, with which it would have more than `size` and twelve bytes. */
  predicate CanSpread(bs: seq<Block>, i: nat, size: nat) {
    i + 1 < |bs| && !bs[i + 1].used && (bs[i].hi - bs[i].lo - 24) + (bs[i + 1].hi - bs[i + 1].lo - 24) > size + 12
  }

  /** Some free block has `size` bytes. */
  ghost predicate SomeFits(bs: seq<Block>, size: nat) {
    exists i :: 0 <= i < |bs| && !bs[i].used && bs[i].hi - bs[i].lo - 24 >= size
  }

  /** A realloc returns NULL exactly when the block is too short, cannot spread into the block
      behind it, and no free block has room, or the request equals all that is available. */
  lemma ResizeFailsIff(s: Pool, p: nat, size: nat)
    requires PoolOk(s) && Live(s, p) && size % ALIGN_SIZE == 0
    ensures var i := IndexOf(s, p);
      ResizeResult(s, p, size).None? <==>
        && s.blocks[i].hi - p < size && !CanSpread(s.blocks, i, size)
        && (!SomeFits(s.blocks, size) || size == s.available)
  {
    AllocFailsIff(s, size);
  }

  /** A realloc stays in place exactly when the block is long enough or can spread. */
  lemma ResizeStaysIff(s: Pool, p: nat, size: nat)
    requires PoolOk(s) && Live(s, p) && size % ALIGN_SIZE == 0
    ensures var i := IndexOf(s, p);
      ResizeResult(s, p, size) == Some(p) <==> size <= s.blocks[i].hi - p || CanSpread(s.blocks, i, size)
  {
    if AllocResult(s, size).Some? { AllocServes(s, size); }
  }
}
