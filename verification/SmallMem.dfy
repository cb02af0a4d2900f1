/** The small-memory allocator (src/mem.c): one chain of blocks linked by offsets, each
    block headed by its own 12-byte header inside the heap array, plus a pointer to the
    lowest free block. Sizes are those of the 32-bit board configuration. */
module SmallMem {
  import opened Cells
  import opened Tiling

  const HDR: nat := 12               // SIZEOF_STRUCT_MEM
  const MIN_SIZE: nat := 12          // also MIN_SIZE_ALIGNED
  const HEAP_MAGIC: nat := 0x1ea0
  const ADDRESS_SPACE: nat := 0x1_0000_0000

  datatype Header = Header(magic: nat, used: bool, next: nat, prev: nat)

  type Memory = seq<Cell<Header>>

  // ---------------------------------------------------------------- block chains

  /** What every call keeps true of the chain of blocks. */
  ghost predicate ChainOk(bs: seq<Block>, end: nat) {
    Tiles(bs, HDR, end) && Coalesced(bs) && Aligned(bs)
  }

  /** Index of the lowest free block, or `|bs|`. */
  function FirstFree(bs: seq<Block>, k: nat := 0): (r: nat)
    requires k <= |bs|
    ensures k <= r <= |bs|
    ensures r < |bs| ==> !bs[r].used
    ensures forall j :: k <= j < r ==> bs[j].used
    decreases |bs| - k
  {
    if k == |bs| || !bs[k].used then k else FirstFree(bs, k + 1)
  }

  /** Address of block `i`, where index `|bs|` stands for the end sentinel. */
  function AddrOf(bs: seq<Block>, end: nat, i: nat): nat
    requires i <= |bs|
  {
    if i == |bs| then end else bs[i].lo
  }

  /** The test the allocator applies to a block while searching. */
  predicate Fits(b: Block, memSize: nat, size: nat) {
    !b.used && b.hi - b.lo - HDR >= size && b.lo < memSize - size
  }

  /** Index of the lowest block of the whole chain that fits, or `|bs|`. */
  function FitIndex(bs: seq<Block>, memSize: nat, size: nat, k: nat := 0): (r: nat)
    requires k <= |bs|
    ensures k <= r <= |bs|
    ensures r < |bs| ==> Fits(bs[r], memSize, size)
    ensures forall j :: k <= j < r ==> !Fits(bs[j], memSize, size)
    decreases |bs| - k
  {
    if k == |bs| || Fits(bs[k], memSize, size) then k else FitIndex(bs, memSize, size, k + 1)
  }

  function RequestSize(n: nat): nat {
    if Align(n) < MIN_SIZE then MIN_SIZE else Align(n)
  }

  function Cuts(b: Block, size: nat): bool {
    b.hi - b.lo - HDR >= size + HDR + MIN_SIZE
  }

  /** The chain after block `i` was handed out for a request of `size` bytes. */
  function Taken(bs: seq<Block>, i: nat, size: nat): seq<Block>
    requires i < |bs|
  {
    if Cuts(bs[i], size) then Split(bs, i, bs[i].lo + HDR + size) else Mark(bs, i, true)
  }

  /** The index malloc allocates for request `n`: `|bs|` when it returns NULL. */
  function MallocIndex(bs: seq<Block>, memSize: nat, n: nat): (r: nat)
    ensures r <= |bs|
  {
    if n == 0 || Align(n) > memSize then |bs| else FitIndex(bs, memSize, RequestSize(n))
  }

  function MallocBlocks(bs: seq<Block>, memSize: nat, n: nat): seq<Block> {
    var i := MallocIndex(bs, memSize, n);
    if i == |bs| then bs else Taken(bs, i, RequestSize(n))
  }

  /** The pointer malloc returns for request `n`. */
  function MallocResult(bs: seq<Block>, memSize: nat, n: nat): Option<nat> {
    var i := MallocIndex(bs, memSize, n);
    if i == |bs| then None else Some(bs[i].lo + HDR)
  }

  /** Index of the live block whose payload starts at `p`, or `|bs|`. */
  function Find(bs: seq<Block>, p: int, k: nat := 0): (r: nat)
    requires k <= |bs|
    ensures k <= r <= |bs|
    ensures r < |bs| ==> bs[r].used && bs[r].lo + HDR == p && p >= HDR
    ensures forall j :: k <= j < r ==> !(bs[j].used && bs[j].lo + HDR == p)
    decreases |bs| - k
  {
    if k == |bs| || (bs[k].used && bs[k].lo + HDR == p) then k else Find(bs, p, k + 1)
  }

  function PtrOf(rmem: Option<int>): int {
    if rmem.None? then -1 else rmem.value
  }

  function FreeBlocks(bs: seq<Block>, rmem: Option<int>): seq<Block>
    requires rmem.Some? ==> Live(bs, rmem.value)
  {
    if rmem.None? then bs else Release(bs, Find(bs, rmem.value))
  }

  predicate Live(bs: seq<Block>, p: int) {
    Find(bs, p) < |bs|
  }

  predicate InHeap(p: int, memSize: nat) {
    0 <= p < memSize + HDR
  }

  /** What realloc demands of its caller: a pointer it is going to use is a live one. */
  predicate ReallocArgs(bs: seq<Block>, memSize: nat, rmem: Option<int>, n: nat) {
    rmem.Some? && Align(n) <= memSize && (Align(n) == 0 || InHeap(rmem.value, memSize)) ==> Live(bs, rmem.value)
  }

  /** What the moving branch of realloc does to the chain. */
  function MovedBlocks(bs: seq<Block>, memSize: nat, p: int, size: nat): seq<Block> {
    var c := MallocBlocks(bs, memSize, size);
    if MallocResult(bs, memSize, size).Some? && Live(c, p) then Release(c, Find(c, p)) else bs
  }

  /** The pointer returned for a live block at `p` that is resized to `size` > 0 bytes. */
  function ResizeResult(bs: seq<Block>, memSize: nat, p: int, size: nat): Option<int>
    requires Live(bs, p)
  {
    var room := RoomOf(bs, p);
    if size == room || size + HDR + MIN_SIZE < room then Some(p) else MallocResult(bs, memSize, size)
  }

  function ResizeBlocks(bs: seq<Block>, memSize: nat, p: int, size: nat): seq<Block>
    requires Live(bs, p)
  {
    var room := RoomOf(bs, p);
    if size == room then bs
    else if size + HDR + MIN_SIZE < room then Shrunk(bs, Find(bs, p), p + size)
    else MovedBlocks(bs, memSize, p, size)
  }

  /** The pointer realloc returns. */
  function ReallocResult(bs: seq<Block>, memSize: nat, rmem: Option<int>, n: nat): Option<int>
    requires ReallocArgs(bs, memSize, rmem, n)
  {
    var size := Align(n);
    if size > memSize || size == 0 then None
    else if rmem.None? then MallocResult(bs, memSize, size)
    else if !InHeap(rmem.value, memSize) then rmem
    else ResizeResult(bs, memSize, rmem.value, size)
  }

  /** The chain realloc leaves behind. */
  function ReallocBlocks(bs: seq<Block>, memSize: nat, rmem: Option<int>, n: nat): seq<Block>
    requires ReallocArgs(bs, memSize, rmem, n)
  {
    var size := Align(n);
    if size > memSize then bs
    else if size == 0 then FreeBlocks(bs, rmem)
    else if rmem.None? then MallocBlocks(bs, memSize, size)
    else if !InHeap(rmem.value, memSize) then bs
    else ResizeBlocks(bs, memSize, rmem.value, size)
  }

  /** Payload length of the live block at `p`. */
  function RoomOf(bs: seq<Block>, p: int): int
    requires Live(bs, p)
  {
    bs[Find(bs, p)].hi - p
  }

  lemma FindIs(bs: seq<Block>, end: nat, i: nat)
    requires Tiles(bs, HDR, end) && i < |bs| && bs[i].used
    ensures Find(bs, bs[i].lo + HDR) == i
  {
    Disjoint(bs, HDR, end);
  }

  lemma FirstFreeIs(bs: seq<Block>, i: nat)
    requires i <= |bs| && (i < |bs| ==> !bs[i].used) && forall j :: 0 <= j < i ==> bs[j].used
    ensures FirstFree(bs) == i
  {
  }

  lemma SumAligned(bs: seq<Block>, i: nat, size: nat)
    requires Aligned(bs) && i < |bs| && size % ALIGN_SIZE == 0
    ensures (bs[i].lo + HDR + size) % ALIGN_SIZE == 0
  {
  }

  lemma TakenOk(bs: seq<Block>, i: nat, size: nat, end: nat)
    requires ChainOk(bs, end) && i < |bs| && !bs[i].used && size % ALIGN_SIZE == 0
    requires bs[i].hi - bs[i].lo - HDR >= size
    ensures ChainOk(Taken(bs, i, size), end)
    ensures Taken(bs, i, size)[i] ==
            Block(bs[i].lo, if Cuts(bs[i], size) then bs[i].lo + HDR + size else bs[i].hi, true)
    ensures Sum(Taken(bs, i, size), true, 0) == Sum(bs, true, 0) + Taken(bs, i, size)[i].hi - bs[i].lo
  {
    if Cuts(bs[i], size) {
      var mid := bs[i].lo + HDR + size;
      SplitCorrect(bs, i, mid, HDR, end);
      SumSplit(bs, i, mid, true, 0);
      SumAligned(bs, i, size);
      AlignedSplit(bs, i, mid);
      SplitAt(bs, i, mid, i);
    } else {
      SumMark(bs, i, true, true, 0);
      MarkUsed(bs, i, end);
    }
  }

  lemma MarkUsed(bs: seq<Block>, i: nat, end: nat)
    requires ChainOk(bs, end) && i < |bs|
    ensures ChainOk(Mark(bs, i, true), end)
  {
    var c := Mark(bs, i, true);
    forall k | 0 <= k < |c| - 1 ensures Meets(c, k) && Parted(c, k) {
      assert Meets(bs, k) && Parted(bs, k);
    }
  }

  /** Cutting the tail off a used block and merging it forward keeps the chain in order. */
  lemma ShrunkOk(bs: seq<Block>, i: nat, mid: nat, end: nat)
    requires ChainOk(bs, end) && i < |bs| && bs[i].used && mid % ALIGN_SIZE == 0
    requires bs[i].lo + HDR <= mid && mid + HDR <= bs[i].hi
    ensures ChainOk(Shrunk(bs, i, mid), end)
    ensures Sum(Shrunk(bs, i, mid), true, 0) == Sum(bs, true, 0) - (bs[i].hi - mid)
    ensures Backward(Shrunk(bs, i, mid), i + 1) == Shrunk(bs, i, mid)
  {
    ShrunkShape(bs, i, mid, HDR, end);
    var c := Split(bs, i, mid);
    AlignedSplit(bs, i, mid);
    if i + 2 < |c| { AlignedJoin(c, i + 1); }
    SumSplit(bs, i, mid, true, 0);
    SplitTiles(bs, i, mid, 0, end);
    SplitAt(bs, i, mid, i + 1);
    ForwardSums(c, i + 1, 0, end);
  }

  /** Every block other than `i` is still there after block `i` was handed out. */
  lemma TakenKeeps(bs: seq<Block>, i: nat, size: nat, j: nat)
    requires i < |bs| && j < |bs| && j != i
    ensures bs[j] in Taken(bs, i, size)
  {
    var c := Taken(bs, i, size);
    if Cuts(bs[i], size) {
      assert c[if j < i then j else j + 1] == bs[j];
    } else {
      assert c[j] == bs[j];
    }
  }

  lemma ReleaseOk(bs: seq<Block>, i: nat, end: nat)
    requires ChainOk(bs, end) && i < |bs| && bs[i].used
    ensures ChainOk(Release(bs, i), end)
    ensures Sum(Release(bs, i), true, 0) == Sum(bs, true, 0) - (bs[i].hi - bs[i].lo)
  {
    ReleaseCorrect(bs, i, HDR, end);
    AlignedRelease(bs, i);
  }

  /** First fit, exactly: nothing below the returned block fits, and NULL means that no
      block of the chain fits. Searching from the lowest free block loses nothing. */
  lemma FirstFitFromLowestFree(bs: seq<Block>, memSize: nat, size: nat)
    ensures FitIndex(bs, memSize, size, FirstFree(bs)) == FitIndex(bs, memSize, size)
  {
    var a := FitIndex(bs, memSize, size, FirstFree(bs));
    var b := FitIndex(bs, memSize, size);
    assert FirstFree(bs) <= b;
  }

  /** Freeing what malloc just returned restores the chain, hence also the lowest free
      block and the used total, which are functions of the chain. */
  lemma FreeUndoesMalloc(bs: seq<Block>, memSize: nat, n: nat)
    requires ChainOk(bs, memSize + HDR) && MallocIndex(bs, memSize, n) < |bs|
    ensures var i := MallocIndex(bs, memSize, n);
      var c := MallocBlocks(bs, memSize, n);
      i < |c| && Find(c, bs[i].lo + HDR) == i && Release(c, i) == bs
  {
    FreeUndoesTaken(bs, MallocIndex(bs, memSize, n), RequestSize(n), memSize + HDR);
  }

  lemma TakenFound(bs: seq<Block>, i: nat, size: nat, end: nat)
    requires ChainOk(bs, end) && i < |bs| && !bs[i].used && bs[i].hi - bs[i].lo - HDR >= size && size % ALIGN_SIZE == 0
    ensures i < |Taken(bs, i, size)| && Find(Taken(bs, i, size), bs[i].lo + HDR) == i
  {
    TakenOk(bs, i, size, end);
    FindIs(Taken(bs, i, size), end, i);
  }

  lemma FreeUndoesTaken(bs: seq<Block>, i: nat, size: nat, end: nat)
    requires ChainOk(bs, end) && i < |bs| && !bs[i].used && bs[i].hi - bs[i].lo - HDR >= size && size % ALIGN_SIZE == 0
    ensures var c := Taken(bs, i, size);
      i < |c| && Find(c, bs[i].lo + HDR) == i && Release(c, i) == bs
  {
    TakenFound(bs, i, size, end);
    if Cuts(bs[i], size) {
      ReleaseUndoesSplit(bs, i, bs[i].lo + HDR + size);
    } else {
      ReleaseUndoesMark(bs, i);
    }
  }

  /** A returned pointer is aligned and has room for the request inside the heap. */
  lemma MallocAddress(bs: seq<Block>, memSize: nat, n: nat)
    requires ChainOk(bs, memSize + HDR) && MallocResult(bs, memSize, n).Some?
    ensures var p := MallocResult(bs, memSize, n).value;
      p % ALIGN_SIZE == 0 && p + RequestSize(n) <= memSize + HDR
  {
    var i := MallocIndex(bs, memSize, n);
    Disjoint(bs, HDR, memSize + HDR);
    assert bs[i].lo % ALIGN_SIZE == 0;
  }

  /** The block behind a returned pointer was not live before and is live afterwards, large
      enough for the request. */
  lemma MallocGrants(bs: seq<Block>, memSize: nat, n: nat)
    requires ChainOk(bs, memSize + HDR) && MallocResult(bs, memSize, n).Some?
    ensures var p, c := MallocResult(bs, memSize, n).value, MallocBlocks(bs, memSize, n);
      !Live(bs, p) && Live(c, p) && n <= RequestSize(n) <= RoomOf(c, p)
  {
    var i := MallocIndex(bs, memSize, n);
    var size := RequestSize(n);
    var c := Taken(bs, i, size);
    assert !Live(bs, bs[i].lo + HDR) by { Disjoint(bs, HDR, memSize + HDR); }
    TakenOk(bs, i, size, memSize + HDR);
    FindIs(c, memSize + HDR, i);
  }

  /** Two live allocations never share a payload byte, and every payload lies in the heap. */
  lemma LiveDisjoint(bs: seq<Block>, end: nat, p: int, q: int)
    requires Tiles(bs, HDR, end) && Live(bs, p) && Live(bs, q) && p != q
    ensures HDR <= p && bs[Find(bs, p)].hi <= end && bs[Find(bs, q)].hi <= end
    ensures bs[Find(bs, p)].hi < q || bs[Find(bs, q)].hi < p
  {
    Disjoint(bs, HDR, end);
    assert Find(bs, p) < Find(bs, q) || Find(bs, q) < Find(bs, p);
  }

  lemma LiveInHeap(bs: seq<Block>, end: nat, p: int)
    requires Tiles(bs, HDR, end) && Live(bs, p)
    ensures p + RoomOf(bs, p) <= end && RoomOf(bs, p) >= 0
  {
    Disjoint(bs, HDR, end);
  }

  /** A block that is live before a malloc is the same live block afterwards. */
  lemma LiveThroughMalloc(bs: seq<Block>, memSize: nat, n: nat, p: int)
    requires ChainOk(bs, memSize + HDR) && Live(bs, p)
    ensures var c := MallocBlocks(bs, memSize, n);
      ChainOk(c, memSize + HDR) && Live(c, p) && c[Find(c, p)] == bs[Find(bs, p)]
  {
    var i := MallocIndex(bs, memSize, n);
    if i < |bs| {
      var c := Taken(bs, i, RequestSize(n));
      TakenOk(bs, i, RequestSize(n), memSize + HDR);
      TakenKeeps(bs, i, RequestSize(n), Find(bs, p));
      var j :| 0 <= j < |c| && c[j] == bs[Find(bs, p)];
      FindIs(c, memSize + HDR, j);
    }
  }

  // ---------------------------------------------- what the calls do to live blocks

  /** Used blocks are found by their pointers. */
  lemma FindUsed(bs: seq<Block>, end: nat, b: Block)
    requires Tiles(bs, HDR, end) && b in UsedSet(bs)
    ensures Live(bs, b.lo + HDR) && bs[Find(bs, b.lo + HDR)] == b
  {
    var i :| 0 <= i < |bs| && bs[i] == b;
    FindIs(bs, end, i);
  }

  /** The pointer `x` is live in both chains, with the same block, or in neither. */
  predicate SameLive(bs: seq<Block>, c: seq<Block>, x: int) {
    (Live(bs, x) <==> Live(c, x)) && (Live(bs, x) && Live(c, x) ==> bs[Find(bs, x)] == c[Find(c, x)])
  }

  lemma SameLiveFrom(bs: seq<Block>, c: seq<Block>, end: nat, gone: set<Block>, came: set<Block>, x: int)
    requires Tiles(bs, HDR, end) && Tiles(c, HDR, end) && UsedSet(c) == UsedSet(bs) - gone + came
    requires forall b :: b in gone || b in came ==> b.lo + HDR != x
    ensures SameLive(bs, c, x)
  {
    if Live(bs, x) {
      var b := bs[Find(bs, x)];
      assert b in UsedSet(bs) && b !in gone;
      FindUsed(c, end, b);
    }
    if Live(c, x) {
      var b := c[Find(c, x)];
      assert b in UsedSet(c) && b !in came;
      FindUsed(bs, end, b);
    }
  }

  /** Apart from what is at `p` and `q`, no allocation appears, moves, changes or goes. */
  ghost predicate OthersSame(bs: seq<Block>, c: seq<Block>, p: int, q: int) {
    forall x :: x != p && x != q ==> SameLive(bs, c, x)
  }

  /** The used blocks without block `i`. */
  lemma OneGone(bs: seq<Block>, c: seq<Block>, end: nat, i: nat)
    requires Tiles(bs, HDR, end) && Tiles(c, HDR, end) && i < |bs| && bs[i].used && UsedSet(c) == UsedSet(bs) - {bs[i]}
    ensures !Live(c, bs[i].lo + HDR) && OthersSame(bs, c, bs[i].lo + HDR, bs[i].lo + HDR)
  {
    var p := bs[i].lo + HDR;
    forall x | x != p ensures SameLive(bs, c, x) { SameLiveFrom(bs, c, end, {bs[i]}, {}, x); }
    FindIs(bs, end, i);
    if Live(c, p) {
      assert c[Find(c, p)] in UsedSet(c);
      FindUsed(bs, end, c[Find(c, p)]);
    }
  }

  /** The used blocks with block `b` in place of those in `gone`, which are at the same address. */
  lemma OneCame(bs: seq<Block>, c: seq<Block>, end: nat, gone: set<Block>, b: Block)
    requires Tiles(bs, HDR, end) && Tiles(c, HDR, end) && b.used && UsedSet(c) == UsedSet(bs) - gone + {b}
    requires forall g :: g in gone ==> g.lo == b.lo
    ensures Live(c, b.lo + HDR) && c[Find(c, b.lo + HDR)] == b && OthersSame(bs, c, b.lo + HDR, b.lo + HDR)
  {
    FindUsed(c, end, b);
    forall x | x != b.lo + HDR ensures SameLive(bs, c, x) { SameLiveFrom(bs, c, end, gone, {b}, x); }
  }

  /** What a malloc of `n` bytes that returned `p` did. */
  ghost predicate Served(bs: seq<Block>, c: seq<Block>, p: nat, n: nat) {
    && !Live(bs, p) && Live(c, p) && p % ALIGN_SIZE == 0
    && n <= RoomOf(c, p) < (if n <= 12 then 12 else Align(n)) + 24
    && OthersSame(bs, c, p, p)
  }

  /** A malloc that returns NULL changes nothing. Any other returns an aligned pointer that was not
      live and now is, with room for the request and less than a header and twelve bytes more than
      its rounded size; no other allocation appears, moves, changes or goes. */
  lemma MallocServes(bs: seq<Block>, memSize: nat, n: nat)
    requires ChainOk(bs, memSize + HDR)
    ensures var r, c := MallocResult(bs, memSize, n), MallocBlocks(bs, memSize, n);
      if r.None? then c == bs else Served(bs, c, r.value, n)
  {
    var i := MallocIndex(bs, memSize, n);
    if i < |bs| {
      var size, end := RequestSize(n), memSize + HDR;
      var c := Taken(bs, i, size);
      TakenOk(bs, i, size, end);
      TakenUsed(bs, i, size, end);
      MallocGrants(bs, memSize, n);
      ServedBy(bs, c, end, c[i], n);
    }
  }

  lemma ServedBy(bs: seq<Block>, c: seq<Block>, end: nat, b: Block, n: nat)
    requires Tiles(bs, HDR, end) && Tiles(c, HDR, end) && b.used && UsedSet(c) == UsedSet(bs) - {} + {b}
    requires !Live(bs, b.lo + HDR) && b.lo % ALIGN_SIZE == 0
    requires n <= b.hi - b.lo - HDR < (if n <= 12 then 12 else Align(n)) + 24
    ensures Served(bs, c, b.lo + HDR, n)
  {
    OneCame(bs, c, end, {}, b);
  }

  lemma TakenUsed(bs: seq<Block>, i: nat, size: nat, end: nat)
    requires ChainOk(bs, end) && i < |bs| && !bs[i].used && bs[i].hi - bs[i].lo - HDR >= size && size % ALIGN_SIZE == 0
    ensures i < |Taken(bs, i, size)| && UsedSet(Taken(bs, i, size)) == UsedSet(bs) - {} + {Taken(bs, i, size)[i]}
  {
    TakenOk(bs, i, size, end);
    if Cuts(bs[i], size) { UsedSetSplit(bs, HDR, end, i, bs[i].lo + HDR + size); }
    else { UsedSetMark(bs, HDR, end, i, true); }
  }

  /** The free block a malloc takes is cut exactly if a header and twelve bytes are left over. */
  lemma MallocCutsIff(bs: seq<Block>, memSize: nat, n: nat)
    requires ChainOk(bs, memSize + HDR) && MallocResult(bs, memSize, n).Some?
    ensures var i := MallocIndex(bs, memSize, n);
      && i < |bs| && !bs[i].used && MallocResult(bs, memSize, n) == Some(bs[i].lo + 12)
      && CutRight(bs, MallocBlocks(bs, memSize, n), i, if n <= 12 then 12 else Align(n))
  {
    TakenCutRight(bs, MallocIndex(bs, memSize, n), RequestSize(n), memSize + HDR);
  }

  lemma TakenCutRight(bs: seq<Block>, i: nat, size: nat, end: nat)
    requires ChainOk(bs, end) && i < |bs| && !bs[i].used && bs[i].hi - bs[i].lo - HDR >= size && size % ALIGN_SIZE == 0
    ensures CutRight(bs, Taken(bs, i, size), i, size)
  {
    TakenFound(bs, i, size, end);
    if Cuts(bs[i], size) {
      SplitAt(bs, i, bs[i].lo + HDR + size, i);
      SplitAt(bs, i, bs[i].lo + HDR + size, i + 1);
    }
  }

  predicate CutRight(bs: seq<Block>, c: seq<Block>, i: nat, size: nat)
    requires i < |bs|
  {
    var b := bs[i];
    && Live(c, b.lo + 12)
    && if b.hi - b.lo - 12 < size + 24 then RoomOf(c, b.lo + 12) == b.hi - b.lo - 12 && |c| == |bs|
       else RoomOf(c, b.lo + 12) == size && |c| == |bs| + 1 && c[i + 1] == Block(b.lo + 12 + size, b.hi, false)
  }

  /** Block `i` is free and has `size` bytes. */
  predicate HasRoom(bs: seq<Block>, i: nat, size: nat)
    requires i < |bs|
  {
    !bs[i].used && bs[i].hi - bs[i].lo - 12 >= size
  }

  /** The last block, when the request would fill it exactly: the search bound is one short. */
  predicate ExactLast(bs: seq<Block>, i: nat, size: nat)
    requires i < |bs|
  {
    i + 1 == |bs| && bs[i].hi - bs[i].lo - 12 == size
  }

  lemma FitsIff(bs: seq<Block>, memSize: nat, size: nat, i: nat)
    requires Tiles(bs, HDR, memSize + HDR) && i < |bs|
    ensures Fits(bs[i], memSize, size) <==> HasRoom(bs, i, size) && !ExactLast(bs, i, size)
  {
    Disjoint(bs, HDR, memSize + HDR);
    if i + 1 < |bs| { assert bs[i].hi <= bs[i + 1].lo; }
  }

  /** No free block has `size` bytes, apart from a last one that would be filled exactly. */
  ghost predicate NothingServes(bs: seq<Block>, size: nat) {
    forall i :: 0 <= i < |bs| && HasRoom(bs, i, size) ==> ExactLast(bs, i, size)
  }

  /** NULL is returned exactly for a request of nothing, or when no free block has room apart from
      a last block that the request would fill exactly. */
  lemma MallocFailsIff(bs: seq<Block>, memSize: nat, n: nat)
    requires Tiles(bs, HDR, memSize + HDR)
    ensures MallocResult(bs, memSize, n).None? <==> n == 0 || NothingServes(bs, if n <= 12 then 12 else Align(n))
  {
    var size := RequestSize(n);
    Disjoint(bs, HDR, memSize + HDR);
    forall i | 0 <= i < |bs| ensures Fits(bs[i], memSize, size) <==> HasRoom(bs, i, size) && !ExactLast(bs, i, size) {
      FitsIff(bs, memSize, size, i);
    }
  }

  /** So a fresh heap of 12 bytes refuses a request for 12 bytes. */
  lemma RefusesWholeHeap()
    ensures var bs := [Block(0, 24, false)];
      ChainOk(bs, 12 + HDR) && HasRoom(bs, 0, 12) && MallocResult(bs, 12, 12).None?
  {
    MallocFailsIff([Block(0, 24, false)], 12, 12);
  }

  /** A free ends exactly the allocation it is given. */
  lemma FreeEnds(bs: seq<Block>, memSize: nat, p: nat)
    requires ChainOk(bs, memSize + HDR) && Live(bs, p)
    ensures var c := FreeBlocks(bs, Some(p)); !Live(c, p) && OthersSame(bs, c, p, p)
  {
    var i, end := Find(bs, p), memSize + HDR;
    ReleaseOk(bs, i, end);
    UsedSetRelease(bs, HDR, end, i);
    OneGone(bs, Release(bs, i), end, i);
  }

  /** What a realloc of the live block at `p` to `size` bytes (aligned) that returned `q` did. */
  ghost predicate Resettled(bs: seq<Block>, c: seq<Block>, p: nat, q: nat, size: nat) {
    && Live(c, q) && size <= RoomOf(c, q) < (if size <= 12 then 12 else size) + 24
    && (if q != p then !Live(bs, q) && !Live(c, p) else RoomOf(c, p) == size)
    && OthersSame(bs, c, p, q)
  }

  ghost predicate Reallocated(bs: seq<Block>, c: seq<Block>, p: nat, r: Option<int>, size: nat) {
    if r.None? then c == bs else r.value >= 0 && Resettled(bs, c, p, r.value, size)
  }

  /** A realloc that returns NULL changes nothing. Any other leaves one allocation in place of the
      old one, with room for the new size, and changes no other. */
  lemma ResizeServes(bs: seq<Block>, memSize: nat, p: nat, size: nat)
    requires ChainOk(bs, memSize + HDR) && Live(bs, p) && size > 0 && size % ALIGN_SIZE == 0
    ensures Reallocated(bs, ResizeBlocks(bs, memSize, p, size), p, ResizeResult(bs, memSize, p, size), size)
  {
    ResizeCases(bs, memSize, p, size, ResizeResult(bs, memSize, p, size), ResizeBlocks(bs, memSize, p, size));
  }

  lemma ResizeCases(bs: seq<Block>, memSize: nat, p: nat, size: nat, r: Option<int>, c: seq<Block>)
    requires ChainOk(bs, memSize + HDR) && Live(bs, p) && size > 0 && size % ALIGN_SIZE == 0
    requires r == ResizeResult(bs, memSize, p, size) && c == ResizeBlocks(bs, memSize, p, size)
    ensures Reallocated(bs, c, p, r, size)
  {
    var room := RoomOf(bs, p);
    if size == room {
      StayServes(bs, p, size);
    } else if size + HDR + MIN_SIZE < room {
      ShrinkIs(bs, memSize, p, size);
      ShrinkServes(bs, memSize + HDR, Find(bs, p), size);
    } else if MallocResult(bs, memSize, size).Some? {
      MoveServes(bs, memSize, p, size);
    }
  }

  lemma StayServes(bs: seq<Block>, p: nat, size: nat)
    requires Live(bs, p) && size == RoomOf(bs, p)
    ensures Reallocated(bs, bs, p, Some(p), size)
  {
  }

  lemma ShrinkIs(bs: seq<Block>, memSize: nat, p: nat, size: nat)
    requires Live(bs, p) && size + HDR + MIN_SIZE < RoomOf(bs, p)
    ensures var b := bs[Find(bs, p)];
      && b.lo + HDR == p && b.lo + HDR + size + HDR <= b.hi && b.used
      && ResizeResult(bs, memSize, p, size) == Some(p)
      && ResizeBlocks(bs, memSize, p, size) == Shrunk(bs, Find(bs, p), b.lo + HDR + size)
  {
  }

  lemma ShrinkServes(bs: seq<Block>, end: nat, i: nat, size: nat)
    requires ChainOk(bs, end) && i < |bs| && bs[i].used && size % ALIGN_SIZE == 0
    requires bs[i].lo + HDR + size + HDR <= bs[i].hi
    ensures var p := bs[i].lo + HDR; Reallocated(bs, Shrunk(bs, i, p + size), p, Some(p), size)
  {
    var mid := bs[i].lo + HDR + size;
    SumAligned(bs, i, size);
    ShrunkOk(bs, i, mid, end);
    UsedSetShrunk(bs, HDR, end, i, mid);
    CutDown(bs, Shrunk(bs, i, mid), end, i, size);
  }

  lemma CutDown(bs: seq<Block>, c: seq<Block>, end: nat, i: nat, size: nat)
    requires Tiles(bs, HDR, end) && Tiles(c, HDR, end) && i < |bs| && bs[i].used
    requires UsedSet(c) == UsedSet(bs) - {bs[i]} + {Block(bs[i].lo, bs[i].lo + HDR + size, true)}
    ensures Resettled(bs, c, bs[i].lo + HDR, bs[i].lo + HDR, size)
  {
    OneCame(bs, c, end, {bs[i]}, Block(bs[i].lo, bs[i].lo + HDR + size, true));
  }

  lemma MoveServes(bs: seq<Block>, memSize: nat, p: nat, size: nat)
    requires ChainOk(bs, memSize + HDR) && Live(bs, p) && size > 0 && size % ALIGN_SIZE == 0
    requires MallocResult(bs, memSize, size).Some?
    ensures Reallocated(bs, MovedBlocks(bs, memSize, p, size), p, MallocResult(bs, memSize, size), size)
  {
    var q, c := MallocResult(bs, memSize, size).value, MallocBlocks(bs, memSize, size);
    MallocServes(bs, memSize, size);
    LiveThroughMalloc(bs, memSize, size, p);
    FreeEnds(c, memSize, p);
    AlignFixed(size);
    MovedOn(bs, c, FreeBlocks(c, Some(p)), p, q, size);
  }

  lemma AlignFixed(size: nat)
    requires size % ALIGN_SIZE == 0
    ensures Align(size) == size
  {
  }

  lemma MovedOn(bs: seq<Block>, c: seq<Block>, d: seq<Block>, p: nat, q: nat, size: nat)
    requires Served(bs, c, q, size) && Live(bs, p) && !Live(d, p) && OthersSame(c, d, p, p)
    requires Align(size) == size
    ensures Resettled(bs, d, p, q, size)
  {
    assert SameLive(c, d, q);
    forall x | x != p && x != q ensures SameLive(bs, d, x) { assert SameLive(bs, c, x) && SameLive(c, d, x); }
  }

  /** A realloc to another size moves, and then fails exactly if a malloc of that size does, unless
      it gives back more than a header and twelve bytes. So making a block a little smaller can
      fail. */
  lemma ResizeFailsIff(bs: seq<Block>, memSize: nat, p: nat, size: nat)
    requires Tiles(bs, HDR, memSize + HDR) && Live(bs, p) && size > 0 && size % ALIGN_SIZE == 0
    ensures ResizeResult(bs, memSize, p, size).None? <==>
            && size != RoomOf(bs, p) && RoomOf(bs, p) <= size + 24
            && NothingServes(bs, if size <= 12 then 12 else size)
  {
    MallocFailsIff(bs, memSize, size);
    assert Align(size) == size;
  }

  /** On a heap of 28 bytes, all of which one block has: it cannot be made 24 bytes long. */
  lemma SmallerMayFail()
    ensures var bs := MallocBlocks([Block(0, 40, false)], 28, 24);
      bs == [Block(0, 40, true)] && Live(bs, 12) && RoomOf(bs, 12) == 28 && ResizeResult(bs, 28, 12, 24).None?
  {
  }

  /** The bound of the search loop as the C code computes it, in 32-bit unsigned arithmetic. */
  function SearchBound(memSize: nat, size: nat): nat {
    (memSize - size) % ADDRESS_SPACE
  }

  /** The search loop stops at the end sentinel, which links to itself, only when its bound
      does not exceed the sentinel's offset. That holds for every accepted request exactly
      when the heap is empty or large enough for one minimal block. */
  lemma SearchStopsIff(memSize: nat)
    requires memSize % ALIGN_SIZE == 0 && memSize + 2 * HDR < ADDRESS_SPACE
    ensures (forall n: nat :: 0 < n && Align(n) <= memSize ==> SearchBound(memSize, RequestSize(n)) <= memSize + HDR)
      <==> (memSize == 0 || memSize >= MIN_SIZE)
  {
    if memSize == 4 || memSize == 8 {
      assert Align(1) == 4 && RequestSize(1) == MIN_SIZE;
      assert SearchBound(memSize, MIN_SIZE) == ADDRESS_SPACE + memSize - MIN_SIZE;
    }
    if memSize == 0 || memSize >= MIN_SIZE {
      forall n: nat | 0 < n && Align(n) <= memSize
        ensures SearchBound(memSize, RequestSize(n)) <= memSize + HDR
      {
        assert SearchBound(memSize, RequestSize(n)) == memSize - RequestSize(n);
      }
    }
  }

  // ------------------------------------------------------------ blocks in memory

  function HeaderOf(bs: seq<Block>, i: nat): Header
    requires i < |bs|
  {
    Header(HEAP_MAGIC, bs[i].used, bs[i].hi, if i == 0 then 0 else bs[i - 1].lo)
  }

  /** The heap array holds exactly the headers of chain `bs`. The back link of the end
      sentinel is left open: the allocator does not maintain it. */
  ghost predicate Rep(m: Memory, bs: seq<Block>, end: nat) {
    && |m| == end + HDR
    && (forall i :: 0 <= i < |bs| ==> HeadOk(m, bs, i))
    && SentinelAt(m, end)
  }

  ghost predicate HeadOk(m: Memory, bs: seq<Block>, i: nat)
    requires i < |bs|
  {
    HeadAt(m, bs[i].lo, HDR, HeaderOf(bs, i))
  }

  ghost predicate SentinelAt(m: Memory, end: nat) {
    end + HDR <= |m| && m[end].Head? && HeadAt(m, end, HDR, m[end].h)
    && m[end].h.magic == HEAP_MAGIC && m[end].h.used && m[end].h.next == end
  }

  /** The offset the search loop has reached after `k` rounds, starting from offset 0. */
  function Walk(m: Memory, k: nat): nat {
    if k == 0 then 0
    else
      var p := Walk(m, k - 1);
      if p < |m| && m[p].Head? then m[p].h.next else p
  }

  /** On a fresh heap of 4 or 8 bytes the search of an accepted request does not end: after the
      one block, which is too small, it goes round at the end sentinel, which links to itself and
      is used, and the loop condition stays true in every round. */
  lemma {:induction false} TinyHeapSearch(m: Memory, memSize: nat, n: nat, k: nat)
    requires (memSize == 4 || memSize == 8) && 0 < n && Align(n) <= memSize
    requires Rep(m, [Block(0, memSize + HDR, false)], memSize + HDR)
    ensures var p, size := Walk(m, k), RequestSize(n);
      && p == (if k == 0 then 0 else memSize + HDR) && p < SearchBound(memSize, size)
      && p < |m| && m[p].Head? && (m[p].h.used || m[p].h.next - p - HDR < size)
  {
    var bs := [Block(0, memSize + HDR, false)];
    assert HeadOk(m, bs, 0);
    HeadCell(m, 0, HDR, HeaderOf(bs, 0));
    assert SearchBound(memSize, MIN_SIZE) == ADDRESS_SPACE + memSize - MIN_SIZE;
    if k > 0 { TinyHeapSearch(m, memSize, n, k - 1); }
  }

  function Payload(m: Memory, b: Block): Memory
    requires b.lo + HDR <= b.hi <= |m|
  {
    m[b.lo + HDR..b.hi]
  }

  lemma HeadFrame(m: Memory, p: nat, h: Header, q: nat, g: Header)
    requires p + HDR <= |m| && HeadAt(m, q, HDR, g) && (q + HDR <= p || p + HDR <= q)
    ensures HeadAt(Put(m, p, HDR, h), q, HDR, g)
  {
    PutFrame(m, p, HDR, h, q, q + HDR);
  }

  lemma SentinelFrame(m: Memory, p: nat, h: Header, end: nat)
    requires p + HDR <= end && SentinelAt(m, end)
    ensures SentinelAt(Put(m, p, HDR, h), end)
  {
    HeadFrame(m, p, h, end, m[end].h);
    HeadCell(Put(m, p, HDR, h), end, HDR, m[end].h);
  }

  lemma RepMark(m: Memory, bs: seq<Block>, end: nat, i: nat, u: bool)
    requires Tiles(bs, HDR, end) && Rep(m, bs, end) && i < |bs|
    ensures bs[i].lo + HDR <= end
    ensures Rep(Put(m, bs[i].lo, HDR, HeaderOf(bs, i).(used := u)), Mark(bs, i, u), end)
  {
    var c := Mark(bs, i, u);
    var h := HeaderOf(bs, i).(used := u);
    Disjoint(bs, HDR, end);
    PutHead(m, bs[i].lo, HDR, h);
    SentinelFrame(m, bs[i].lo, h, end);
    forall k | 0 <= k < |c| ensures HeadOk(Put(m, bs[i].lo, HDR, h), c, k) {
      assert HeaderOf(c, k) == if k == i then h else HeaderOf(bs, k);
      assert HeadOk(m, bs, k);
      if k != i { HeadFrame(m, bs[i].lo, h, bs[k].lo, HeaderOf(bs, k)); }
    }
  }

  /** The header stores of a cut, in the order the code performs them. */
  function CutStores(m: Memory, bs: seq<Block>, end: nat, i: nat, mid: nat): (r: Memory)
    requires Tiles(bs, HDR, end) && i < |bs| && |m| == end + HDR
    requires bs[i].lo + HDR <= mid && mid + HDR <= bs[i].hi && bs[i].hi <= end
    requires i + 1 < |bs| ==> bs[i].hi + HDR <= end
  {
    var m1 := Put(m, mid, HDR, Header(HEAP_MAGIC, false, bs[i].hi, bs[i].lo));
    var m2 := Put(m1, bs[i].lo, HDR, HeaderOf(bs, i).(next := mid, used := true));
    if i + 1 < |bs| then Put(m2, bs[i].hi, HDR, HeaderOf(bs, i + 1).(prev := mid)) else m2
  }

  /** The headers a cut writes are all intact afterwards, and so is the sentinel. */
  lemma CutHeads(m: Memory, bs: seq<Block>, end: nat, i: nat, mid: nat)
    requires Tiles(bs, HDR, end) && SentinelAt(m, end) && |m| == end + HDR && i < |bs|
    requires bs[i].lo + HDR <= mid && mid + HDR <= bs[i].hi && bs[i].hi <= end
    requires i + 1 < |bs| ==> bs[i].hi + HDR <= end
    ensures var m3 := CutStores(m, bs, end, i, mid);
      && HeadAt(m3, mid, HDR, Header(HEAP_MAGIC, false, bs[i].hi, bs[i].lo))
      && HeadAt(m3, bs[i].lo, HDR, HeaderOf(bs, i).(next := mid, used := true))
      && (i + 1 < |bs| ==> HeadAt(m3, bs[i].hi, HDR, HeaderOf(bs, i + 1).(prev := mid)))
      && SentinelAt(m3, end)
  {
    var b := bs[i];
    var h1, h2 := Header(HEAP_MAGIC, false, b.hi, b.lo), HeaderOf(bs, i).(next := mid, used := true);
    var m1 := Put(m, mid, HDR, h1);
    var m2 := Put(m1, b.lo, HDR, h2);
    SentinelFrame(m, mid, h1, end);
    SentinelFrame(m1, b.lo, h2, end);
    PutHead(m, mid, HDR, h1);
    HeadFrame(m1, b.lo, h2, mid, h1);
    PutHead(m1, b.lo, HDR, h2);
    if i + 1 < |bs| {
      var h3 := HeaderOf(bs, i + 1).(prev := mid);
      SentinelFrame(m2, b.hi, h3, end);
      HeadFrame(m2, b.hi, h3, mid, h1);
      HeadFrame(m2, b.hi, h3, b.lo, h2);
      PutHead(m2, b.hi, HDR, h3);
    }
  }

  lemma SplitHeaders(bs: seq<Block>, end: nat, i: nat, mid: nat, k: nat)
    requires Tiles(bs, HDR, end) && i < |bs| && k <= |bs|
    ensures |Split(bs, i, mid)| == |bs| + 1
    ensures var c := Split(bs, i, mid);
      && (k == i ==> c[k].lo == bs[i].lo && HeaderOf(c, k) == HeaderOf(bs, i).(next := mid, used := true))
      && (k == i + 1 ==> c[k].lo == mid && HeaderOf(c, k) == Header(HEAP_MAGIC, false, bs[i].hi, bs[i].lo))
      && (k == i + 2 ==> c[k].lo == bs[i].hi && HeaderOf(c, k) == HeaderOf(bs, i + 1).(prev := mid))
      && (k < i ==> c[k].lo == bs[k].lo && HeaderOf(c, k) == HeaderOf(bs, k))
      && (k > i + 2 ==> c[k].lo == bs[k - 1].lo && HeaderOf(c, k) == HeaderOf(bs, k - 1))
  {
    SplitAt(bs, i, mid, k);
    if k > 0 { SplitAt(bs, i, mid, k - 1); }
    if i + 1 < |bs| { assert Meets(bs, i); }
  }

  lemma RepCut(m: Memory, bs: seq<Block>, end: nat, i: nat, mid: nat)
    requires Tiles(bs, HDR, end) && Rep(m, bs, end) && i < |bs|
    requires bs[i].lo + HDR <= mid && mid + HDR <= bs[i].hi
    ensures bs[i].hi <= end && (i + 1 < |bs| ==> bs[i].hi + HDR <= end)
    ensures Rep(CutStores(m, bs, end, i, mid), Split(bs, i, mid), end)
  {
    Disjoint(bs, HDR, end);
    CutHeads(m, bs, end, i, mid);
    var c, m3 := Split(bs, i, mid), CutStores(m, bs, end, i, mid);
    forall k | 0 <= k < |c| ensures HeadOk(m3, c, k) {
      SplitHeaders(bs, end, i, mid, k);
      if k < i || k > i + 2 {
        var j := if k < i then k else k - 1;
        assert HeadOk(m, bs, j);
        CutFrame(m, bs, end, i, mid, bs[j].lo, bs[j].lo + HDR);
        SameHead(m, m3, bs[j].lo, HeaderOf(bs, j));
      }
    }
  }

  lemma SameHead(m: Memory, m1: Memory, p: nat, h: Header)
    requires p + HDR <= |m| && p + HDR <= |m1| && m1[p..p + HDR] == m[p..p + HDR] && HeadAt(m, p, HDR, h)
    ensures HeadAt(m1, p, HDR, h)
  {
  }

  /** A cut changes no cell outside the three headers it writes. */
  lemma CutFrame(m: Memory, bs: seq<Block>, end: nat, i: nat, mid: nat, x: nat, y: nat)
    requires Tiles(bs, HDR, end) && i < |bs| && |m| == end + HDR
    requires bs[i].lo + HDR <= mid && mid + HDR <= bs[i].hi && bs[i].hi <= end
    requires i + 1 < |bs| ==> bs[i].hi + HDR <= end
    requires x <= y <= end
    requires y <= bs[i].lo || (bs[i].lo + HDR <= x && y <= mid) || bs[i].hi + HDR <= x
    ensures CutStores(m, bs, end, i, mid)[x..y] == m[x..y]
  {
    var m1 := Put(m, mid, HDR, Header(HEAP_MAGIC, false, bs[i].hi, bs[i].lo));
    var m2 := Put(m1, bs[i].lo, HDR, HeaderOf(bs, i).(next := mid, used := true));
    PutFrame(m, mid, HDR, Header(HEAP_MAGIC, false, bs[i].hi, bs[i].lo), x, y);
    PutFrame(m1, bs[i].lo, HDR, HeaderOf(bs, i).(next := mid, used := true), x, y);
    if i + 1 < |bs| { PutFrame(m2, bs[i].hi, HDR, HeaderOf(bs, i + 1).(prev := mid), x, y); }
  }

  /** The header stores of a merge: the lower block's forward link, then the back link of
      whatever follows, the end sentinel included. */
  function JoinStores(m: Memory, bs: seq<Block>, end: nat, i: nat, g: Header): (r: Memory)
    requires i + 1 < |bs| && |m| == end + HDR && bs[i].lo + HDR <= end && bs[i + 1].hi <= end
  {
    var m1 := Put(m, bs[i].lo, HDR, HeaderOf(bs, i).(next := bs[i + 1].hi));
    Put(m1, bs[i + 1].hi, HDR, g.(prev := bs[i].lo))
  }

  lemma JoinHeads(m: Memory, bs: seq<Block>, end: nat, i: nat, g: Header)
    requires Tiles(bs, HDR, end) && Rep(m, bs, end) && i + 1 < |bs| && HeadAt(m, bs[i + 1].hi, HDR, g)
    ensures bs[i].lo + HDR <= end && bs[i + 1].hi <= end
    ensures var m2 := JoinStores(m, bs, end, i, g);
      && HeadAt(m2, bs[i].lo, HDR, HeaderOf(bs, i).(next := bs[i + 1].hi))
      && HeadAt(m2, bs[i + 1].hi, HDR, g.(prev := bs[i].lo))
      && SentinelAt(m2, end)
  {
    Disjoint(bs, HDR, end);
    var lo, hi := bs[i].lo, bs[i + 1].hi;
    var h1, h2 := HeaderOf(bs, i).(next := hi), g.(prev := lo);
    var m1 := Put(m, lo, HDR, h1);
    PutHead(m, lo, HDR, h1);
    PutHead(m1, hi, HDR, h2);
    HeadFrame(m1, hi, h2, lo, h1);
    HeadCell(m, hi, HDR, g);
    HeadCell(Put(m1, hi, HDR, h2), hi, HDR, h2);
    SentinelFrame(m, lo, h1, end);
    if i + 2 < |bs| {
      assert Meets(bs, i + 1);
      SentinelFrame(m1, hi, h2, end);
    }
  }

  lemma JoinHeaders(bs: seq<Block>, end: nat, i: nat, k: nat)
    requires Tiles(bs, HDR, end) && i + 1 < |bs| && k + 1 < |bs| && !bs[i].used
    ensures |Join(bs, i)| == |bs| - 1
    ensures var c := Join(bs, i);
      && (k == i ==> c[k].lo == bs[i].lo && HeaderOf(c, k) == HeaderOf(bs, i).(next := bs[i + 1].hi))
      && (k == i + 1 ==> c[k].lo == bs[i + 1].hi && HeaderOf(c, k) == HeaderOf(bs, i + 2).(prev := bs[i].lo))
      && (k < i ==> c[k].lo == bs[k].lo && HeaderOf(c, k) == HeaderOf(bs, k))
      && (k > i + 1 ==> c[k].lo == bs[k + 1].lo && HeaderOf(c, k) == HeaderOf(bs, k + 1))
  {
    JoinAt(bs, i, k);
    if k > 0 { JoinAt(bs, i, k - 1); }
    if k == i + 1 { assert Meets(bs, i + 1); }
  }

  lemma RepJoin(m: Memory, bs: seq<Block>, end: nat, i: nat, g: Header)
    requires Tiles(bs, HDR, end) && Rep(m, bs, end) && i + 1 < |bs| && !bs[i].used && !bs[i + 1].used
    requires HeadAt(m, bs[i + 1].hi, HDR, g)
    ensures bs[i].lo + HDR <= end && bs[i + 1].hi <= end
    ensures Rep(JoinStores(m, bs, end, i, g), Join(bs, i), end)
  {
    Disjoint(bs, HDR, end);
    JoinHeads(m, bs, end, i, g);
    var c := Join(bs, i);
    forall k | 0 <= k < |c| ensures HeadOk(JoinStores(m, bs, end, i, g), c, k) { JoinHead(m, bs, end, i, g, k); }
  }

  lemma JoinHead(m: Memory, bs: seq<Block>, end: nat, i: nat, g: Header, k: nat)
    requires Tiles(bs, HDR, end) && Rep(m, bs, end) && i + 1 < |bs| && !bs[i].used && !bs[i + 1].used && k + 1 < |bs|
    requires HeadAt(m, bs[i + 1].hi, HDR, g) && bs[i].lo + HDR <= end && bs[i + 1].hi <= end
    ensures k < |Join(bs, i)| && HeadOk(JoinStores(m, bs, end, i, g), Join(bs, i), k)
  {
    JoinHeaders(bs, end, i, k);
    if k == i {
      JoinHeads(m, bs, end, i, g);
    } else if k == i + 1 {
      JoinHeads(m, bs, end, i, g);
      assert HeadOk(m, bs, i + 2) && Meets(bs, i + 1);
      HeadCell(m, bs[i + 2].lo, HDR, HeaderOf(bs, i + 2));
      HeadCell(m, bs[i + 2].lo, HDR, g);
    } else {
      var j := if k < i then k else k + 1;
      assert HeadOk(m, bs, j);
      JoinOthers(bs, end, i, j);
      JoinFrame(m, bs, end, i, g, bs[j].lo, bs[j].lo + HDR);
    }
  }

  /** The headers of blocks `j` away from the merge lie outside the cells it stores. */
  lemma JoinOthers(bs: seq<Block>, end: nat, i: nat, j: nat)
    requires Tiles(bs, HDR, end) && i + 1 < |bs| && j < |bs| && (j < i || j > i + 2)
    ensures bs[j].lo + HDR <= end
    ensures if j < i then bs[j].lo + HDR <= bs[i].lo <= bs[i + 1].hi
            else bs[i].lo + HDR <= bs[j].lo && bs[i + 1].hi + HDR <= bs[j].lo
  {
    Disjoint(bs, HDR, end);
    if j < i { Ascending(bs, HDR, end, j, i); Ascending(bs, HDR, end, i, i + 1); }
    else { assert Meets(bs, i + 1); Ascending(bs, HDR, end, i + 2, j); Ascending(bs, HDR, end, i, j); }
  }

  lemma JoinFrame(m: Memory, bs: seq<Block>, end: nat, i: nat, g: Header, x: nat, y: nat)
    requires i + 1 < |bs| && |m| == end + HDR && bs[i].lo + HDR <= end && bs[i + 1].hi <= end
    requires x <= y <= end
    requires (y <= bs[i].lo || bs[i].lo + HDR <= x) && (y <= bs[i + 1].hi || bs[i + 1].hi + HDR <= x)
    ensures JoinStores(m, bs, end, i, g)[x..y] == m[x..y]
  {
    var h := HeaderOf(bs, i).(next := bs[i + 1].hi);
    PutFrame(m, bs[i].lo, HDR, h, x, y);
    PutFrame(Put(m, bs[i].lo, HDR, h), bs[i + 1].hi, HDR, g.(prev := bs[i].lo), x, y);
  }

  /** Storing payload bytes of one block disturbs no header. */
  lemma PayloadWriteKeepsRep(m: Memory, n: Memory, bs: seq<Block>, end: nat, i: nat)
    requires Tiles(bs, HDR, end) && Rep(m, bs, end) && i < |bs| && |n| == |m|
    requires bs[i].hi <= |m| && n[..bs[i].lo + HDR] == m[..bs[i].lo + HDR] && n[bs[i].hi..] == m[bs[i].hi..]
    ensures Rep(n, bs, end)
  {
    Disjoint(bs, HDR, end);
    forall k | 0 <= k < |bs| ensures HeadOk(n, bs, k) {
      assert HeadOk(m, bs, k);
      PayloadWriteKeepsHead(m, n, bs[i].lo + HDR, bs[i].hi, bs[k].lo, HeaderOf(bs, k));
    }
    PayloadWriteKeepsHead(m, n, bs[i].lo + HDR, bs[i].hi, end, m[end].h);
    HeadCell(n, end, HDR, m[end].h);
  }

  lemma PayloadWriteKeepsHead(m: Memory, n: Memory, p: nat, q: nat, x: nat, h: Header)
    requires |n| == |m| && p <= q <= |m| && n[..p] == m[..p] && n[q..] == m[q..]
    requires HeadAt(m, x, HDR, h) && (x + HDR <= p || q <= x)
    ensures HeadAt(n, x, HDR, h)
  {
    if x + HDR <= p {
      SubRange(m, n, 0, p, x, x + HDR);
    } else {
      SubRange(m, n, q, |m|, x, x + HDR);
    }
  }

  lemma ReadHead(m: Memory, bs: seq<Block>, end: nat, i: nat)
    requires Tiles(bs, HDR, end) && Rep(m, bs, end) && i < |bs|
    ensures bs[i].hi <= end && m[bs[i].lo] == Head(HeaderOf(bs, i))
    ensures bs[i].hi == AddrOf(bs, end, i + 1)
  {
    Disjoint(bs, HDR, end);
    assert HeadOk(m, bs, i);
    HeadCell(m, bs[i].lo, HDR, HeaderOf(bs, i));
    if i + 1 < |bs| { assert Meets(bs, i); }
  }

  lemma ReadAddr(m: Memory, bs: seq<Block>, end: nat, i: nat)
    requires Tiles(bs, HDR, end) && Rep(m, bs, end) && i <= |bs|
    ensures var p := AddrOf(bs, end, i);
      p <= end && m[p].Head? && m[p].h.used == (i == |bs| || bs[i].used)
  {
    if i < |bs| { ReadHead(m, bs, end, i); }
  }

  lemma NextHead(m: Memory, bs: seq<Block>, end: nat, i: nat)
    requires Tiles(bs, HDR, end) && Rep(m, bs, end) && i < |bs|
    ensures bs[i].hi <= end && m[bs[i].hi].Head? && HeadAt(m, bs[i].hi, HDR, m[bs[i].hi].h)
    ensures m[bs[i].hi].h.used == (i + 1 == |bs| || bs[i + 1].used)
    ensures i + 1 < |bs| ==> m[bs[i].hi].h == HeaderOf(bs, i + 1)
  {
    Disjoint(bs, HDR, end);
    if i + 1 < |bs| {
      assert Meets(bs, i) && HeadOk(m, bs, i + 1);
      HeadCell(m, bs[i].hi, HDR, HeaderOf(bs, i + 1));
    }
  }

  lemma NotEnd(bs: seq<Block>, end: nat, i: nat)
    requires Tiles(bs, HDR, end) && i <= |bs|
    ensures AddrOf(bs, end, i) == end <==> i == |bs|
  {
    Disjoint(bs, HDR, end);
  }

  lemma RepFresh(m1: Memory, end: nat)
    requires |m1| == end + HDR && end >= HDR && HeadAt(m1, 0, HDR, Header(HEAP_MAGIC, false, end, 0))
    ensures Rep(Put(m1, end, HDR, Header(HEAP_MAGIC, true, end, end)), [Block(0, end, false)], end)
  {
    var sentinel := Header(HEAP_MAGIC, true, end, end);
    var m := Put(m1, end, HDR, sentinel);
    PutHead(m1, end, HDR, sentinel);
    HeadCell(m, end, HDR, sentinel);
    HeadFrame(m1, end, sentinel, 0, Header(HEAP_MAGIC, false, end, 0));
    assert HeadOk(m, [Block(0, end, false)], 0);
  }

  /** The successor's header is still readable after a cut stored its first two headers. */
  lemma CutKeepsNext(m: Memory, bs: seq<Block>, end: nat, i: nat, mid: nat)
    requires Tiles(bs, HDR, end) && Rep(m, bs, end) && i + 1 < |bs|
    requires bs[i].lo + HDR <= mid && mid + HDR <= bs[i].hi
    ensures bs[i].hi + HDR <= end
    ensures var m1 := Put(m, mid, HDR, Header(HEAP_MAGIC, false, bs[i].hi, bs[i].lo));
      Put(m1, bs[i].lo, HDR, HeaderOf(bs, i).(next := mid, used := true))[bs[i].hi] == Head(HeaderOf(bs, i + 1))
  {
    Disjoint(bs, HDR, end);
    var h1, h2 := Header(HEAP_MAGIC, false, bs[i].hi, bs[i].lo), HeaderOf(bs, i).(next := mid, used := true);
    var m1 := Put(m, mid, HDR, h1);
    assert HeadOk(m, bs, i + 1) && Meets(bs, i);
    HeadFrame(m, mid, h1, bs[i].hi, HeaderOf(bs, i + 1));
    HeadFrame(m1, bs[i].lo, h2, bs[i].hi, HeaderOf(bs, i + 1));
    HeadCell(Put(m1, bs[i].lo, HDR, h2), bs[i].hi, HDR, HeaderOf(bs, i + 1));
  }

  /** A search that ran past its bound without success means no block fits. */
  lemma NoFit(bs: seq<Block>, end: nat, memSize: nat, size: nat, i: nat)
    requires Tiles(bs, HDR, end) && i <= |bs| && AddrOf(bs, end, i) >= memSize - size
    requires forall j :: 0 <= j < i ==> !Fits(bs[j], memSize, size)
    ensures FitIndex(bs, memSize, size) == |bs|
  {
    Disjoint(bs, HDR, end);
  }

  lemma LowestIs(bs: seq<Block>, end: nat, i: nat, f: nat)
    requires Tiles(bs, HDR, end) && i < |bs| && f <= |bs|
    ensures bs[i].lo == AddrOf(bs, end, f) <==> f == i
  {
    Disjoint(bs, HDR, end);
  }

  /** Merging two free blocks never moves the lowest free block. */
  lemma FirstFreeJoin(bs: seq<Block>, i: nat, end: nat)
    requires i + 1 < |bs| && !bs[i].used && !bs[i + 1].used
    ensures AddrOf(Join(bs, i), end, FirstFree(Join(bs, i))) == AddrOf(bs, end, FirstFree(bs))
  {
    var c, f := Join(bs, i), FirstFree(bs);
    assert f <= i;
    forall j | 0 <= j <= i ensures c[j].lo == bs[j].lo && c[j].used == bs[j].used { JoinAt(bs, i, j); }
    FirstFreeIs(c, f);
  }

  /** Freeing block `i` makes it the lowest free block exactly when it lies below the old one. */
  lemma FirstFreeMark(bs: seq<Block>, i: nat, end: nat)
    requires Tiles(bs, HDR, end) && i < |bs| && bs[i].used
    ensures var c := Mark(bs, i, false);
      AddrOf(c, end, FirstFree(c)) ==
      if bs[i].lo < AddrOf(bs, end, FirstFree(bs)) then bs[i].lo else AddrOf(bs, end, FirstFree(bs))
  {
    var c, f := Mark(bs, i, false), FirstFree(bs);
    Disjoint(bs, HDR, end);
    FirstFreeIs(c, if i < f then i else f);
  }

  lemma FirstFreeCut(bs: seq<Block>, i: nat, mid: nat, end: nat)
    requires Tiles(bs, HDR, end) && i < |bs| && bs[i].used && bs[i].lo < mid < bs[i].hi
    ensures var c := Split(bs, i, mid);
      AddrOf(c, end, FirstFree(c)) ==
      if mid < AddrOf(bs, end, FirstFree(bs)) then mid else AddrOf(bs, end, FirstFree(bs))
  {
    var c, f := Split(bs, i, mid), FirstFree(bs);
    Disjoint(bs, HDR, end);
    forall j | 0 <= j <= i ensures c[j].used == bs[j].used && c[j].lo == bs[j].lo { SplitAt(bs, i, mid, j); }
    SplitAt(bs, i, mid, i + 1);
    FirstFreeIs(c, if i < f then i + 1 else f);
  }

  lemma SplitUsed(bs: seq<Block>, i: nat, mid: nat, end: nat)
    requires Tiles(bs, HDR, end) && i < |bs| && bs[i].used
    requires bs[i].lo + HDR <= mid && mid + HDR <= bs[i].hi
    ensures var c := Split(bs, i, mid);
      && Tiles(c, HDR, end) && i + 1 < |c|
      && c[i] == Block(bs[i].lo, mid, true) && !c[i + 1].used && c[i + 1].lo == mid
      && AddrOf(c, end, FirstFree(c)) ==
         if mid < AddrOf(bs, end, FirstFree(bs)) then mid else AddrOf(bs, end, FirstFree(bs))
  {
    SplitTiles(bs, i, mid, HDR, end);
    SplitAt(bs, i, mid, i);
    SplitAt(bs, i, mid, i + 1);
    FirstFreeCut(bs, i, mid, end);
  }

  /** Copying into the payload of one live block touches no other live payload. */
  lemma KeptCopy(m: Memory, n: Memory, bs: seq<Block>, end: nat, i: nat)
    requires Tiles(bs, HDR, end) && |m| == |n| == end + HDR && i < |bs| && bs[i].used && bs[i].hi <= |m|
    requires n[..bs[i].lo + HDR] == m[..bs[i].lo + HDR] && n[bs[i].hi..] == m[bs[i].hi..]
    ensures Kept(m, bs, n, bs, bs[i].lo + HDR)
  {
    Disjoint(bs, HDR, end);
    forall b | b in bs && b.used && b.lo + HDR <= b.hi <= |m| && b.lo + HDR != bs[i].lo + HDR
      ensures Payload(n, b) == Payload(m, b)
    {
      if b.hi <= bs[i].lo + HDR {
        SubRange(m, n, 0, bs[i].lo + HDR, b.lo + HDR, b.hi);
      } else {
        SubRange(m, n, bs[i].hi, |m|, b.lo + HDR, b.hi);
      }
    }
  }

  lemma TakenPrefix(bs: seq<Block>, i: nat, size: nat)
    requires i < |bs|
    ensures var c := Taken(bs, i, size);
      i < |c| && c[i].lo == bs[i].lo && forall j :: 0 <= j < i ==> c[j] == bs[j]
  {
  }

  /** Handing out block `i` moves the lowest free block only if it was block `i`. */
  lemma FirstFreeTaken(bs: seq<Block>, i: nat, size: nat, end: nat)
    requires ChainOk(bs, end) && i < |bs| && !bs[i].used && size % ALIGN_SIZE == 0 && bs[i].hi - bs[i].lo - HDR >= size
    ensures var c := Taken(bs, i, size);
      FirstFree(bs) != i ==>
        FirstFree(c) == FirstFree(bs) < i && AddrOf(c, end, FirstFree(c)) == AddrOf(bs, end, FirstFree(bs))
  {
    var c, f := Taken(bs, i, size), FirstFree(bs);
    assert f <= i;
    if f < i {
      assert forall j :: 0 <= j < i ==> c[j] == bs[j];
      FirstFreeIs(c, f);
    }
  }

  /** Every live block, apart from the one whose payload is at `but`, is still live and
      holds the same bytes. */
  ghost predicate Kept(m: Memory, bs: seq<Block>, m1: Memory, c: seq<Block>, but: int) {
    && |m1| == |m|
    && forall b :: b in bs && b.used && b.lo + HDR <= b.hi <= |m| && b.lo + HDR != but ==>
         b in c && Payload(m1, b) == Payload(m, b)
  }

  lemma KeptTrans(m0: Memory, b0: seq<Block>, m1: Memory, b1: seq<Block>, m2: Memory, b2: seq<Block>, but: int)
    requires Kept(m0, b0, m1, b1, but) && Kept(m1, b1, m2, b2, but)
    ensures Kept(m0, b0, m2, b2, but)
  {
  }

  lemma KeptWeaken(m0: Memory, b0: seq<Block>, m1: Memory, b1: seq<Block>, but: int)
    requires Kept(m0, b0, m1, b1, -1)
    ensures Kept(m0, b0, m1, b1, but)
  {
  }

  lemma KeptBlock(m0: Memory, b0: seq<Block>, m1: Memory, b1: seq<Block>, i: nat)
    requires Kept(m0, b0, m1, b1, -1) && i < |b0| && b0[i].used && b0[i].lo + HDR <= b0[i].hi <= |m0|
    ensures b0[i] in b1 && Payload(m1, b0[i]) == Payload(m0, b0[i])
  {
  }

  lemma KeptRange(m0: Memory, b0: seq<Block>, m1: Memory, b1: seq<Block>, p: int, n: nat)
    requires Kept(m0, b0, m1, b1, -1) && Live(b0, p) && n <= RoomOf(b0, p) && p + RoomOf(b0, p) <= |m0|
    ensures m1[p..p + n] == m0[p..p + n]
  {
    KeptBlock(m0, b0, m1, b1, Find(b0, p));
    SubRange(m1, m0, p, b0[Find(b0, p)].hi, p, p + n);
  }

  lemma KeptMark(m: Memory, bs: seq<Block>, end: nat, i: nat, u: bool, but: int)
    requires Tiles(bs, HDR, end) && |m| == end + HDR && i < |bs| && (bs[i].used ==> but == bs[i].lo + HDR)
    ensures bs[i].lo + HDR <= end
    ensures Kept(m, bs, Put(m, bs[i].lo, HDR, HeaderOf(bs, i).(used := u)), Mark(bs, i, u), but)
  {
    Disjoint(bs, HDR, end);
    var h := HeaderOf(bs, i).(used := u);
    forall b | b in bs && b.used && b.lo + HDR <= b.hi <= |m| && b.lo + HDR != but
      ensures b in Mark(bs, i, u) && Payload(Put(m, bs[i].lo, HDR, h), b) == Payload(m, b)
    {
      var j :| 0 <= j < |bs| && bs[j] == b;
      assert Mark(bs, i, u)[j] == b;
      PutFrame(m, bs[i].lo, HDR, h, b.lo + HDR, b.hi);
    }
  }

  lemma KeptCut(m: Memory, bs: seq<Block>, end: nat, i: nat, mid: nat, but: int)
    requires Tiles(bs, HDR, end) && |m| == end + HDR && i < |bs| && (bs[i].used ==> but == bs[i].lo + HDR)
    requires bs[i].lo + HDR <= mid && mid + HDR <= bs[i].hi
    ensures bs[i].hi <= end && (i + 1 < |bs| ==> bs[i].hi + HDR <= end)
    ensures Kept(m, bs, CutStores(m, bs, end, i, mid), Split(bs, i, mid), but)
  {
    Disjoint(bs, HDR, end);
    forall b | b in bs && b.used && b.lo + HDR <= b.hi <= |m| && b.lo + HDR != but
      ensures b in Split(bs, i, mid) && Payload(CutStores(m, bs, end, i, mid), b) == Payload(m, b)
    {
      var j :| 0 <= j < |bs| && bs[j] == b;
      SplitAt(bs, i, mid, if j < i then j else j + 1);
      CutFrame(m, bs, end, i, mid, b.lo + HDR, b.hi);
    }
  }

  lemma KeptJoin(m: Memory, bs: seq<Block>, end: nat, i: nat, g: Header, but: int)
    requires Tiles(bs, HDR, end) && |m| == end + HDR && i + 1 < |bs| && !bs[i].used && !bs[i + 1].used
    ensures bs[i].lo + HDR <= end && bs[i + 1].hi <= end
    ensures Kept(m, bs, JoinStores(m, bs, end, i, g), Join(bs, i), but)
  {
    Disjoint(bs, HDR, end);
    forall b | b in bs && b.used && b.lo + HDR <= b.hi <= |m| && b.lo + HDR != but
      ensures b in Join(bs, i) && Payload(JoinStores(m, bs, end, i, g), b) == Payload(m, b)
    {
      var j :| 0 <= j < |bs| && bs[j] == b;
      JoinAt(bs, i, if j < i then j else j - 1);
      JoinFrame(m, bs, end, i, g, b.lo + HDR, b.hi);
    }
  }

  // ------------------------------------------------------------------ the allocator

  class Heap {
    const memSize: nat                  // mem_size_aligned
    const mem: array<Cell<Header>>      // heap_ptr: every pointer is an offset into it
    var lfree: int
    var usedMem: int
    var maxMem: int
    ghost var blocks: seq<Block>

    function End(): nat { memSize + HDR }   // heap_end

    static function Peak(max: int, used: int): int {
      if used > max then used else max
    }

    ghost predicate Shape(bs: seq<Block>)
      reads this, mem
    {
      && memSize % ALIGN_SIZE == 0 && (memSize == 0 || memSize >= MIN_SIZE)
      && mem.Length == memSize + 2 * HDR
      && Rep(mem[..], bs, End())
    }

    ghost predicate Valid()
      reads this, mem
    {
      && Shape(blocks)
      && ChainOk(blocks, End())
      && lfree == AddrOf(blocks, End(), FirstFree(blocks))
      && usedMem == Sum(blocks, true, 0) <= maxMem
    }

    constructor (memSize: nat)
      requires memSize % ALIGN_SIZE == 0 && (memSize == 0 || memSize >= MIN_SIZE)
      ensures Valid() && fresh(mem) && this.memSize == memSize
      ensures blocks == [Block(0, memSize + HDR, false)] && usedMem == 0 && maxMem == 0
    {
      this.memSize := memSize;
      var a := new Cell<Header>[memSize + 2 * HDR](_ => Cover);
      mem := a;
      lfree := 0;
      usedMem, maxMem := 0, 0;
      blocks := [Block(0, memSize + HDR, false)];
      new;
      SetHead(0, Header(HEAP_MAGIC, false, memSize + HDR, 0));
      ghost var m1 := mem[..];
      SetHead(memSize + HDR, Header(HEAP_MAGIC, true, memSize + HDR, memSize + HDR));
      RepFresh(m1, memSize + HDR);
    }

    method SetHead(p: nat, h: Header)
      requires p + HDR <= mem.Length
      modifies mem
      ensures mem[..] == Put(old(mem[..]), p, HDR, h)
      ensures HeadAt(mem[..], p, HDR, h)
    {
      ghost var m := mem[..];
      mem[p] := Head(h);
      forall k | p < k < p + HDR { mem[k] := Cover; }
      assert mem[..] == Put(m, p, HDR, h);
      PutHead(m, p, HDR, h);
    }

    /** Cuts block `i`, at `ptr`, leaving a free remainder at `mid`. */
    method Cut(ptr: nat, mid: nat, ghost i: nat, ghost but: int)
      requires Shape(blocks) && Tiles(blocks, HDR, End()) && i < |blocks| && ptr == blocks[i].lo
      requires ptr + HDR <= mid && mid + HDR <= blocks[i].hi && mid <= mem.Length
          && (blocks[i].used ==> but == ptr + HDR)
      modifies mem, this`blocks
      ensures blocks == Split(old(blocks), i, mid) && Shape(blocks)
      ensures Kept(old(mem[..]), old(blocks), mem[..], blocks, but)
      ensures mem[ptr + HDR..mid] == old(mem[ptr + HDR..mid])
    {
      ghost var m, bs, end := mem[..], blocks, End();
      ReadHead(m, bs, end, i);
      RepCut(m, bs, end, i, mid);
      KeptCut(m, bs, end, i, mid, but);
      CutFrame(m, bs, end, i, mid, ptr + HDR, mid);
      var h := mem[ptr].h;
      SetHead(mid, Header(HEAP_MAGIC, false, h.next, ptr));
      SetHead(ptr, h.(next := mid, used := true));
      if h.next != memSize + HDR {
        ReadHead(m, bs, end, i + 1);
        CutKeepsNext(m, bs, end, i, mid);
        var g := mem[h.next].h;
        SetHead(h.next, g.(prev := mid));
      }
      assert mem[..] == CutStores(m, bs, end, i, mid);
      blocks := Split(blocks, i, mid);
    }

    /** First fit over the chain, starting at the lowest free block. */
    method Malloc(n: nat) returns (r: Option<nat>)
      requires Valid() && n + ALIGN_SIZE <= ADDRESS_SPACE
      modifies this, mem
      ensures Valid() && maxMem == Peak(old(maxMem), usedMem)
      ensures blocks == MallocBlocks(old(blocks), memSize, n)
      ensures r == MallocResult(old(blocks), memSize, n)
      ensures r.None? ==> mem[..] == old(mem[..]) && lfree == old(lfree) && usedMem == old(usedMem)
      ensures Kept(old(mem[..]), old(blocks), mem[..], blocks, -1)
    {
      if n == 0 { return None; }
      var size := Align(n);
      if size > memSize { return None; }
      if size < MIN_SIZE { size := MIN_SIZE; }
      ghost var i: nat;
      var ptr;
      ptr, i := Search(size);
      ghost var bs := blocks;
      assert i == MallocIndex(bs, memSize, n) && size == RequestSize(n);
      if ptr >= memSize - size { return None; }
      assert MallocResult(bs, memSize, n) == Some(ptr + HDR);
      assert MallocBlocks(bs, memSize, n) == Taken(bs, i, size);
      Take(ptr, size, i);
      return Some(ptr + HDR);
    }

    /** The search loop: walks the chain upwards from the lowest free block. */
    method Search(size: nat) returns (ptr: nat, ghost i: nat)
      requires Valid() && size <= memSize
      ensures i == FitIndex(blocks, memSize, size)
      ensures ptr >= memSize - size <==> i == |blocks|
      ensures i < |blocks| ==> ptr == blocks[i].lo
    {
      ptr := lfree;
      i := FirstFree(blocks);
      while ptr < memSize - size
        invariant i <= |blocks| && ptr == AddrOf(blocks, End(), i)
        invariant forall j :: 0 <= j < i ==> !Fits(blocks[j], memSize, size)
        decreases |blocks| - i
      {
        ReadHead(mem[..], blocks, End(), i);
        var h := mem[ptr].h;
        if !h.used && h.next - (ptr + HDR) >= size { return; }
        ptr := h.next;
        i := i + 1;
      }
      NoFit(blocks, End(), memSize, size, i);
      i := |blocks|;
    }

    /** Marks block `i`, at `ptr`, used as a whole. */
    method Claim(ptr: nat, ghost i: nat)
      requires Shape(blocks) && Tiles(blocks, HDR, End()) && i < |blocks| && ptr == blocks[i].lo && !blocks[i].used
      modifies mem, this`blocks
      ensures blocks == Mark(old(blocks), i, true) && Shape(blocks)
      ensures Kept(old(mem[..]), old(blocks), mem[..], blocks, -1)
    {
      ReadHead(mem[..], blocks, End(), i);
      RepMark(mem[..], blocks, End(), i, true);
      KeptMark(mem[..], blocks, End(), i, true, -1);
      var h := mem[ptr].h;
      SetHead(ptr, h.(used := true));
      blocks := Mark(blocks, i, true);
    }

    /** The first free block at or above block `i`, or the end sentinel. */
    method NextFree(start: nat, ghost i: nat) returns (p: nat)
      requires Shape(blocks) && Tiles(blocks, HDR, End()) && i <= |blocks| && start == AddrOf(blocks, End(), i)
      requires forall j :: 0 <= j < i ==> blocks[j].used
      ensures p == AddrOf(blocks, End(), FirstFree(blocks))
    {
      p := start;
      ghost var k: nat := i;
      ReadAddr(mem[..], blocks, End(), k);
      while mem[p].h.used && p != End()
        invariant k <= |blocks| && p == AddrOf(blocks, End(), k) && p < mem.Length && mem[p].Head?
        invariant k < |blocks| ==> mem[p].h.used == blocks[k].used
        invariant forall j :: 0 <= j < k ==> blocks[j].used
        decreases |blocks| - k
      {
        ReadHead(mem[..], blocks, End(), k);
        p := mem[p].h.next;
        k := k + 1;
        ReadAddr(mem[..], blocks, End(), k);
      }
      NotEnd(blocks, End(), k);
      FirstFreeIs(blocks, k);
    }

    /** Splits or claims block `i`, at `ptr`; `len` is the length taken out of free space. */
    method Occupy(ptr: nat, size: nat, ghost i: nat) returns (len: nat)
      requires Shape(blocks) && Tiles(blocks, HDR, End()) && i < |blocks| && ptr == blocks[i].lo && !blocks[i].used
      requires blocks[i].hi - ptr - HDR >= size
      modifies mem, this`blocks
      ensures blocks == Taken(old(blocks), i, size) && Shape(blocks)
      ensures i < |blocks| && len == blocks[i].hi - blocks[i].lo
      ensures Kept(old(mem[..]), old(blocks), mem[..], blocks, -1)
    {
      ReadHead(mem[..], blocks, End(), i);
      var room := mem[ptr].h.next - (ptr + HDR);
      if room >= size + HDR + MIN_SIZE {
        Cut(ptr, ptr + HDR + size, i, -1);
        len := size + HDR;
      } else {
        Claim(ptr, i);
        len := HDR + room;
      }
    }

    /** The part of malloc that hands out block `i`, found at `ptr`. */
    method Take(ptr: nat, size: nat, ghost i: nat)
      requires Valid() && i < |blocks| && ptr == blocks[i].lo && !blocks[i].used
      requires size % ALIGN_SIZE == 0 && blocks[i].hi - ptr - HDR >= size
      modifies this, mem
      ensures Valid() && maxMem == Peak(old(maxMem), usedMem)
      ensures blocks == Taken(old(blocks), i, size)
      ensures Kept(old(mem[..]), old(blocks), mem[..], blocks, -1)
    {
      ghost var bs, end := blocks, End();
      ghost var c := Taken(bs, i, size);
      TakenOk(bs, i, size, end);
      FirstFreeTaken(bs, i, size, end);
      LowestIs(bs, end, i, FirstFree(bs));
      var len := Occupy(ptr, size, i);
      usedMem := usedMem + len;
      if maxMem < usedMem { maxMem := usedMem; }
      if ptr == lfree {
        TakenPrefix(bs, i, size);
        lfree := NextFree(ptr, i);
      }
    }

    /** Merges free block `i`, at `ptr`, with its free successor. */
    method MergeNext(ptr: nat, ghost i: nat)
      requires Shape(blocks) && Tiles(blocks, HDR, End()) && i + 1 < |blocks| && ptr == blocks[i].lo
      requires !blocks[i].used && !blocks[i + 1].used
      modifies mem, this`blocks
      ensures blocks == Join(old(blocks), i) && Shape(blocks)
      ensures Kept(old(mem[..]), old(blocks), mem[..], blocks, -1)
    {
      ghost var m, bs, end := mem[..], blocks, End();
      NextHead(m, bs, end, i);
      NextHead(m, bs, end, i + 1);
      ReadHead(m, bs, end, i);
      ghost var g0 := m[bs[i + 1].hi].h;
      RepJoin(m, bs, end, i, g0);
      KeptJoin(m, bs, end, i, g0, -1);
      var h := mem[ptr].h;
      var next := mem[h.next].h.next;
      HeadFrame(m, ptr, h.(next := next), next, g0);
      SetHead(ptr, h.(next := next));
      HeadCell(mem[..], next, HDR, g0);
      var g := mem[next].h;
      SetHead(next, g.(prev := ptr));
      assert mem[..] == JoinStores(m, bs, end, i, g0);
      blocks := Join(blocks, i);
    }

    /** plug_holes: merges free block `i`, at `ptr`, with whichever neighbours are free. */
    method PlugHoles(ptr: nat, ghost i: nat)
      requires Shape(blocks) && Tiles(blocks, HDR, End()) && i < |blocks| && ptr == blocks[i].lo && !blocks[i].used
      requires lfree == AddrOf(blocks, End(), FirstFree(blocks))
      modifies mem, this`blocks, this`lfree
      ensures blocks == Backward(Forward(old(blocks), i), i) && Shape(blocks)
      ensures lfree == old(lfree) == AddrOf(blocks, End(), FirstFree(blocks))
      ensures Kept(old(mem[..]), old(blocks), mem[..], blocks, -1)
    {
      PlugForward(ptr, i);
      ghost var m1, b1 := mem[..], blocks;
      PlugBackward(ptr, i);
      KeptTrans(old(mem[..]), old(blocks), m1, b1, mem[..], blocks, -1);
    }

    method PlugBackward(ptr: nat, ghost i: nat)
      requires Shape(blocks) && Tiles(blocks, HDR, End()) && i < |blocks| && ptr == blocks[i].lo && !blocks[i].used
      requires lfree == AddrOf(blocks, End(), FirstFree(blocks))
      modifies mem, this`blocks, this`lfree
      ensures blocks == Backward(old(blocks), i) && Shape(blocks)
      ensures lfree == old(lfree) == AddrOf(blocks, End(), FirstFree(blocks))
      ensures Kept(old(mem[..]), old(blocks), mem[..], blocks, -1)
    {
      ghost var bs, end := blocks, End();
      ReadHead(mem[..], bs, end, i);
      var pmem := mem[ptr].h.prev;
      if i > 0 { ReadHead(mem[..], bs, end, i - 1); LowestIs(bs, end, i, FirstFree(bs)); }
      if pmem != ptr && !mem[pmem].h.used {
        lfree := if lfree == ptr then pmem else lfree;
        FirstFreeJoin(bs, i - 1, end);
        MergeNext(pmem, i - 1);
      }
    }

    method PlugForward(ptr: nat, ghost i: nat)
      requires Shape(blocks) && Tiles(blocks, HDR, End()) && i < |blocks| && ptr == blocks[i].lo && !blocks[i].used
      requires lfree == AddrOf(blocks, End(), FirstFree(blocks))
      modifies mem, this`blocks, this`lfree
      ensures blocks == Forward(old(blocks), i) && Shape(blocks) && Tiles(blocks, HDR, End())
      ensures !blocks[i].used && blocks[i].lo == ptr
      ensures lfree == old(lfree) == AddrOf(blocks, End(), FirstFree(blocks))
      ensures Kept(old(mem[..]), old(blocks), mem[..], blocks, -1)
    {
      ghost var bs, end := blocks, End();
      ReadHead(mem[..], bs, end, i);
      NextHead(mem[..], bs, end, i);
      var nmem := mem[ptr].h.next;
      if ptr != nmem && !mem[nmem].h.used && nmem != End() {
        LowestIs(bs, end, i + 1, FirstFree(bs));
        lfree := if lfree == nmem then ptr else lfree;
        JoinTiles(bs, i, HDR, end);
        JoinAt(bs, i, i);
        FirstFreeJoin(bs, i, end);
        MergeNext(ptr, i);
      }
    }

    /** The first half of a free: marks block `i`, at `ptr`, unused and updates the counters. */
    method Unclaim(ptr: nat, ghost i: nat)
      requires Shape(blocks) && Tiles(blocks, HDR, End()) && i < |blocks| && ptr == blocks[i].lo && blocks[i].used
      requires lfree == AddrOf(blocks, End(), FirstFree(blocks))
      modifies mem, this`blocks, this`lfree, this`usedMem
      ensures blocks == Mark(old(blocks), i, false) && Shape(blocks)
      ensures lfree == AddrOf(blocks, End(), FirstFree(blocks))
      ensures usedMem == old(usedMem) - (old(blocks)[i].hi - old(blocks)[i].lo)
      ensures Kept(old(mem[..]), old(blocks), mem[..], blocks, ptr + HDR)
    {
      ghost var m, bs, end := mem[..], blocks, End();
      ReadHead(m, bs, end, i);
      RepMark(m, bs, end, i, false);
      KeptMark(m, bs, end, i, false, ptr + HDR);
      FirstFreeMark(bs, i, end);
      var h := mem[ptr].h;
      assert h.used && h.magic == HEAP_MAGIC;
      SetHead(ptr, h.(used := false));
      blocks := Mark(blocks, i, false);
      if ptr < lfree { lfree := ptr; }
      usedMem := usedMem - (h.next - ptr);
    }

    /** Frees the live block whose payload is at `rmem`; a NULL pointer is ignored. */
    method Free(rmem: Option<int>)
      requires Valid() && (rmem.Some? ==> Live(blocks, rmem.value))
      modifies this, mem
      ensures Valid() && maxMem == old(maxMem)
      ensures blocks == FreeBlocks(old(blocks), rmem)
      ensures Kept(old(mem[..]), old(blocks), mem[..], blocks, PtrOf(rmem))
      ensures rmem.None? ==> mem[..] == old(mem[..])
    {
      if rmem.None? { return; }
      ghost var i := Find(blocks, rmem.value);
      ReleaseOk(blocks, i, End());
      FreeBlock(rmem.value - HDR, i);
    }

    method FreeBlock(ptr: nat, ghost i: nat)
      requires Shape(blocks) && ChainOk(blocks, End()) && i < |blocks| && ptr == blocks[i].lo && blocks[i].used
      requires lfree == AddrOf(blocks, End(), FirstFree(blocks))
      modifies mem, this`blocks, this`lfree, this`usedMem
      ensures blocks == Release(old(blocks), i) && Shape(blocks)
      ensures lfree == AddrOf(blocks, End(), FirstFree(blocks))
      ensures usedMem == old(usedMem) - (old(blocks)[i].hi - old(blocks)[i].lo)
      ensures Kept(old(mem[..]), old(blocks), mem[..], blocks, ptr + HDR)
    {
      ghost var m, bs, end := mem[..], blocks, End();
      MarkFree(bs, i, HDR, end);
      Unclaim(ptr, i);
      ghost var m1, b1 := mem[..], blocks;
      PlugHoles(ptr, i);
      KeptWeaken(m1, b1, mem[..], blocks, ptr + HDR);
      KeptTrans(m, bs, m1, b1, mem[..], blocks, ptr + HDR);
    }

    /** rt_memcpy of `n` cells into the payload of live block `j`. */
    method CopyInto(to: nat, from: nat, n: nat, ghost j: nat)
      requires Shape(blocks) && Tiles(blocks, HDR, End()) && j < |blocks| && blocks[j].used
      requires to == blocks[j].lo + HDR && to + n <= blocks[j].hi <= mem.Length && from + n <= mem.Length
      requires from + n <= to || to + n <= from
      modifies mem
      ensures Shape(blocks) && mem[to..to + n] == old(mem[from..from + n])
      ensures Kept(old(mem[..]), blocks, mem[..], blocks, to)
    {
      ghost var m := mem[..];
      CopyCells(mem, to, from, n);
      SubRange(m, mem[..], 0, to, 0, to);
      SubRange(m, mem[..], to + n, |m|, blocks[j].hi, |m|);
      PayloadWriteKeepsRep(m, mem[..], blocks, End(), j);
      KeptCopy(m, mem[..], blocks, End(), j);
    }

    /** The shrinking branch of realloc: block `i`, at `ptr`, gives up everything from `mid` on. */
    method Shrink(ptr: nat, mid: nat, ghost i: nat)
      requires Valid() && i < |blocks| && blocks[i].used && ptr == blocks[i].lo && mid % ALIGN_SIZE == 0
      requires ptr + HDR <= mid && mid + HDR <= blocks[i].hi && mid <= mem.Length
      modifies this, mem
      ensures Valid() && maxMem == old(maxMem)
      ensures blocks == Shrunk(old(blocks), i, mid)
      ensures Kept(old(mem[..]), old(blocks), mem[..], blocks, ptr + HDR)
      ensures mem[ptr + HDR..mid] == old(mem[ptr + HDR..mid])
    {
      ShrunkOk(blocks, i, mid, End());
      ReadHead(mem[..], blocks, End(), i);
      usedMem := usedMem - (mem[ptr].h.next - mid);
      CutTail(ptr, mid, i);
    }

    method CutTail(ptr: nat, mid: nat, ghost i: nat)
      requires Shape(blocks) && ChainOk(blocks, End()) && i < |blocks| && blocks[i].used && ptr == blocks[i].lo
      requires lfree == AddrOf(blocks, End(), FirstFree(blocks))
      requires ptr + HDR <= mid && mid + HDR <= blocks[i].hi && mid <= mem.Length
      modifies mem, this`blocks, this`lfree
      ensures Shape(blocks) && lfree == AddrOf(blocks, End(), FirstFree(blocks))
      ensures blocks == Backward(Shrunk(old(blocks), i, mid), i + 1)
      ensures Kept(old(mem[..]), old(blocks), mem[..], blocks, ptr + HDR)
      ensures mem[ptr + HDR..mid] == old(mem[ptr + HDR..mid])
    {
      ghost var m, bs := mem[..], blocks;
      CutUsed(ptr, mid, i);
      ghost var m1, b1 := mem[..], blocks;
      PlugHoles(mid, i + 1);
      KeptBlock(m1, b1, mem[..], blocks, i);
      KeptWeaken(m1, b1, mem[..], blocks, ptr + HDR);
      KeptTrans(m, bs, m1, b1, mem[..], blocks, ptr + HDR);
    }

    method CutUsed(ptr: nat, mid: nat, ghost i: nat)
      requires Shape(blocks) && Tiles(blocks, HDR, End()) && i < |blocks| && blocks[i].used && ptr == blocks[i].lo
      requires lfree == AddrOf(blocks, End(), FirstFree(blocks))
      requires ptr + HDR <= mid && mid + HDR <= blocks[i].hi && mid <= mem.Length
      modifies mem, this`blocks, this`lfree
      ensures Shape(blocks) && Tiles(blocks, HDR, End()) && lfree == AddrOf(blocks, End(), FirstFree(blocks))
      ensures blocks == Split(old(blocks), i, mid) && i + 1 < |blocks|
      ensures blocks[i] == Block(ptr, mid, true) && !blocks[i + 1].used && blocks[i + 1].lo == mid
      ensures Kept(old(mem[..]), old(blocks), mem[..], blocks, ptr + HDR)
      ensures mem[ptr + HDR..mid] == old(mem[ptr + HDR..mid])
    {
      SplitUsed(blocks, i, mid, End());
      Cut(ptr, mid, i, ptr + HDR);
      if mid < lfree { lfree := mid; }
    }

    /** The copying half of a move: allocates and copies `n` bytes, leaving both blocks live. */
    method AllocCopy(p: nat, size: nat, n: nat) returns (r: Option<nat>)
      requires Valid() && Live(blocks, p) && size + ALIGN_SIZE <= ADDRESS_SPACE && size % ALIGN_SIZE == 0
      requires 0 < size && n <= size && n <= RoomOf(blocks, p)
      modifies this, mem
      ensures Valid() && maxMem == Peak(old(maxMem), usedMem) && r == MallocResult(old(blocks), memSize, size)
          && blocks == MallocBlocks(old(blocks), memSize, size)
      ensures r.None? ==> mem[..] == old(mem[..])
      ensures Kept(old(mem[..]), old(blocks), mem[..], blocks, -1)
      ensures r.Some? ==> Live(blocks, r.value) && r.value + n <= blocks[Find(blocks, r.value)].hi <= mem.Length
      ensures r.Some? ==> CopiedBytes(old(mem[..]), p, mem[..], r.value, n)
    {
      ghost var m, bs := mem[..], blocks;
      LiveThroughMalloc(bs, memSize, size, p);
      LiveInHeap(bs, End(), p);
      if MallocResult(bs, memSize, size).Some? { MallocGrants(bs, memSize, size); }
      r := Malloc(size);
      if r.Some? {
        ghost var m1 := mem[..];
        CopyLive(r.value, p, n);
        KeptRange(m, bs, m1, blocks, p, n);
        KeptFresh(m, bs, m1, blocks, mem[..], r.value);
      }
    }

    /** Copies `n` bytes from the live block at `p` into the live block at `q`. */
    method CopyLive(q: nat, p: nat, n: nat)
      requires Shape(blocks) && Tiles(blocks, HDR, End()) && Live(blocks, p) && Live(blocks, q) && p != q
      requires n <= RoomOf(blocks, p) && n <= RoomOf(blocks, q)
      modifies mem
      ensures Shape(blocks) && Kept(old(mem[..]), blocks, mem[..], blocks, q)
      ensures CopiedBytes(old(mem[..]), p, mem[..], q, n)
      ensures q + n <= blocks[Find(blocks, q)].hi <= mem.Length
    {
      LiveDisjoint(blocks, End(), p, q);
      CopyInto(q, p, n, Find(blocks, q));
    }

    /** The moving branch of realloc: allocate, copy what fits, free the old block. */
    method Move(p: nat, size: nat) returns (r: Option<int>)
      requires Valid() && Live(blocks, p) && size + ALIGN_SIZE <= ADDRESS_SPACE && size % ALIGN_SIZE == 0 && size > 0
      modifies this, mem
      ensures Valid() && maxMem == Peak(old(maxMem), Sum(MallocBlocks(old(blocks), memSize, size), true, 0))
      ensures r == MallocResult(old(blocks), memSize, size)
      ensures blocks == MovedBlocks(old(blocks), memSize, p, size)
      ensures r.None? ==> mem[..] == old(mem[..])
      ensures Kept(old(mem[..]), old(blocks), mem[..], blocks, p)
      ensures r.Some? ==> CopiedBytes(old(mem[..]), p, mem[..], r.value, Min(RoomOf(old(blocks), p), size))
    {
      ghost var m, bs := mem[..], blocks;
      ReadHead(m, bs, End(), Find(bs, p));
      var room := mem[p - HDR].h.next - p;
      var n := if room < size then room else size;
      assert n == Min(RoomOf(bs, p), size);
      LiveThroughMalloc(bs, memSize, size, p);
      if MallocResult(bs, memSize, size).Some? { MallocGrants(bs, memSize, size); }
      var q := AllocCopy(p, size, n);
      if q.None? { return None; }
      ghost var m2, c := mem[..], blocks;
      Free(Some(p));
      MoveKept(m, bs, m2, c, mem[..], blocks, p, q.value, n);
      r := Some(q.value);
    }

    /** Realloc of a live block to a non-zero aligned size. */
    method Resize(p: int, size: nat) returns (r: Option<int>)
      requires Valid() && Live(blocks, p) && size + ALIGN_SIZE <= ADDRESS_SPACE && size % ALIGN_SIZE == 0 && size > 0
      modifies this, mem
      ensures Valid() && (size == RoomOf(old(blocks), p) || size + HDR + MIN_SIZE < RoomOf(old(blocks), p) ==>
          maxMem == old(maxMem))
      ensures r == ResizeResult(old(blocks), memSize, p, size)
      ensures blocks == ResizeBlocks(old(blocks), memSize, p, size)
      ensures Kept(old(mem[..]), old(blocks), mem[..], blocks, p)
      ensures r.Some? ==> CopiedBytes(old(mem[..]), p, mem[..], r.value, Min(RoomOf(old(blocks), p), size))
      ensures r.None? ==> mem[..] == old(mem[..]) && blocks == old(blocks)
    {
      ghost var bs, i := blocks, Find(blocks, p);
      ReadHead(mem[..], bs, End(), i);
      LiveInHeap(bs, End(), p);
      var room := mem[p - HDR].h.next - p;
      assert room == RoomOf(bs, p);
      if size + HDR + MIN_SIZE < room {
        ShrinkLive(p, size);
        r := Some(p);
      } else if room == size {
        r := Some(p);
      } else {
        r := Move(p, size);
      }
    }

    /** Cuts the tail off the live block at `p`. */
    method ShrinkLive(p: int, size: nat)
      requires Valid() && Live(blocks, p) && size % ALIGN_SIZE == 0 && size + HDR + MIN_SIZE < RoomOf(blocks, p)
      modifies this, mem
      ensures Valid() && maxMem == old(maxMem) && blocks == Shrunk(old(blocks), Find(old(blocks), p), p + size)
      ensures Kept(old(mem[..]), old(blocks), mem[..], blocks, p)
      ensures CopiedBytes(old(mem[..]), p, mem[..], p, size)
    {
      ghost var m, i := mem[..], Find(blocks, p);
      LiveInHeap(blocks, End(), p);
      SumAligned(blocks, i, size);
      Shrink(p - HDR, p + size, i);
      SameRange(m, mem[..], p, size);
    }

    /** Resizes the live block at `rmem`; NULL allocates, size zero frees, and a pointer
        outside the heap comes straight back. */
    method Realloc(rmem: Option<int>, newsize: nat) returns (r: Option<int>)
      requires Valid() && newsize + 2 * ALIGN_SIZE <= ADDRESS_SPACE && ReallocArgs(blocks, memSize, rmem, newsize)
      modifies this, mem
      ensures Valid()
      ensures r == ReallocResult(old(blocks), memSize, rmem, newsize)
      ensures blocks == ReallocBlocks(old(blocks), memSize, rmem, newsize)
      ensures Kept(old(mem[..]), old(blocks), mem[..], blocks, PtrOf(rmem))
      ensures r.Some? && rmem.Some? && Live(old(blocks), rmem.value) ==>
        CopiedBytes(old(mem[..]), rmem.value, mem[..], r.value, Min(RoomOf(old(blocks), rmem.value), Align(newsize)))
      ensures r.None? && newsize > 0 ==> mem[..] == old(mem[..]) && blocks == old(blocks)
    {
      if rmem.Some? && Live(blocks, rmem.value) { LiveInHeap(blocks, End(), rmem.value); }
      var size := Align(newsize);
      if size > memSize { return None; }
      if size == 0 {
        Free(rmem);
        return None;
      }
      if rmem.None? {
        r := Malloc(size);
        return;
      }
      if rmem.value < 0 || rmem.value >= End() { return rmem; }
      r := Resize(rmem.value, size);
    }
  }

  /** The first `n` bytes at `p` before are the bytes at `q` afterwards. */
  ghost predicate CopiedBytes(m: Memory, p: int, m1: Memory, q: int, n: int) {
    0 <= p && 0 <= q && 0 <= n && p + n <= |m| && q + n <= |m1| && m1[q..q + n] == m[p..p + n]
  }

  lemma SameRange(m: Memory, m1: Memory, p: nat, n: nat)
    requires p + n <= |m| && p + n <= |m1| && m1[p..p + n] == m[p..p + n]
    ensures CopiedBytes(m, p, m1, p, n)
  {
  }

  /** Writing into a block that was not live before leaves every earlier live block alone. */
  lemma KeptFresh(m: Memory, bs: seq<Block>, m1: Memory, c: seq<Block>, m2: Memory, q: int)
    requires Kept(m, bs, m1, c, -1) && Kept(m1, c, m2, c, q) && !Live(bs, q)
    ensures Kept(m, bs, m2, c, -1)
  {
    forall b | b in bs && b.used && b.lo + HDR <= b.hi <= |m| && b.lo + HDR != -1
      ensures b in c && Payload(m2, b) == Payload(m, b)
    {
      assert b.lo + HDR != q;
      assert b in c && Payload(m1, b) == Payload(m, b);
    }
  }

  /** Copied bytes survive the free of the block they were copied from. */
  lemma MoveKept(m: Memory, bs: seq<Block>, m2: Memory, c: seq<Block>, m3: Memory, d: seq<Block>, p: nat, q: nat,
          n: nat)
    requires Kept(m, bs, m2, c, -1) && Kept(m2, c, m3, d, p)
    requires p != q && Live(c, q) && CopiedBytes(m, p, m2, q, n) && q + n <= c[Find(c, q)].hi <= |m|
    ensures Kept(m, bs, m3, d, p)
    ensures CopiedBytes(m, p, m3, q, n)
  {
    var b := c[Find(c, q)];
    assert b in c && Payload(m3, b) == Payload(m2, b);
    SubRange(m3, m2, q, b.hi, q, q + n);
  }
}
