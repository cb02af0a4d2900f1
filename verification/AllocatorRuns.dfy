/** Whole runs of the two block allocators: the small-memory heap (src/mem.c) and the memory
    heap object (src/memheap.c), under any sequence of calls. */
module AllocatorRuns {
  import opened Cells
  import opened Tiling
  import S = SmallMem
  import P = MemPool
  import W = WaitList

  /** Handing over a pointer that is not live is a caller's error; such calls change nothing here. */
  datatype Call = Malloc(n: nat) | Free(p: nat) | Realloc(block: Option<nat>, n: nat)

  // ---------------------------------------------------------------- src/mem.c

  function Signed(block: Option<nat>): Option<int> {
    match block case None => None case Some(p) => Some(p)
  }

  function SmallStep(bs: seq<Block>, memSize: nat, c: Call): seq<Block> {
    match c
    case Malloc(n) => S.MallocBlocks(bs, memSize, n)
    case Free(p) => if S.Live(bs, p) then S.FreeBlocks(bs, Some(p)) else bs
    case Realloc(block, n) =>
      if S.ReallocArgs(bs, memSize, Signed(block), n) then S.ReallocBlocks(bs, memSize, Signed(block), n) else bs
  }

  function SmallExec(bs: seq<Block>, memSize: nat, calls: seq<Call>): seq<Block>
    decreases |calls|
  {
    if calls == [] then bs else SmallExec(SmallStep(bs, memSize, calls[0]), memSize, calls[1..])
  }

  lemma SmallMalloc(bs: seq<Block>, memSize: nat, n: nat)
    requires S.ChainOk(bs, memSize + S.HDR)
    ensures S.ChainOk(S.MallocBlocks(bs, memSize, n), memSize + S.HDR)
  {
    var i := S.MallocIndex(bs, memSize, n);
    if i < |bs| { S.TakenOk(bs, i, S.RequestSize(n), memSize + S.HDR); }
  }

  lemma SmallFree(bs: seq<Block>, memSize: nat, p: int)
    requires S.ChainOk(bs, memSize + S.HDR) && S.Live(bs, p)
    ensures S.ChainOk(Release(bs, S.Find(bs, p)), memSize + S.HDR)
  {
    S.ReleaseOk(bs, S.Find(bs, p), memSize + S.HDR);
  }

  lemma SmallResize(bs: seq<Block>, memSize: nat, p: int, size: nat)
    requires S.ChainOk(bs, memSize + S.HDR) && S.Live(bs, p) && size % ALIGN_SIZE == 0
    ensures S.ChainOk(S.ResizeBlocks(bs, memSize, p, size), memSize + S.HDR)
  {
    var room, i := S.RoomOf(bs, p), S.Find(bs, p);
    if size != room && size + S.HDR + S.MIN_SIZE < room {
      S.SumAligned(bs, i, size);
      S.ShrunkOk(bs, i, p + size, memSize + S.HDR);
    } else {
      var c := S.MallocBlocks(bs, memSize, size);
      SmallMalloc(bs, memSize, size);
      if S.Live(c, p) { SmallFree(c, memSize, p); }
    }
  }

  lemma SmallStepOk(bs: seq<Block>, memSize: nat, c: Call)
    requires S.ChainOk(bs, memSize + S.HDR)
    ensures S.ChainOk(SmallStep(bs, memSize, c), memSize + S.HDR)
  {
    match c
    case Malloc(n) => SmallMalloc(bs, memSize, n);
    case Free(p) => if S.Live(bs, p) { SmallFree(bs, memSize, p); }
    case Realloc(block, n) =>
      SmallMalloc(bs, memSize, Align(n));
      if block.Some? && S.Live(bs, block.value) {
        SmallFree(bs, memSize, block.value);
        SmallResize(bs, memSize, block.value, Align(n));
      }
  }

  lemma {:induction false} SmallExecOk(bs: seq<Block>, memSize: nat, calls: seq<Call>)
    requires S.ChainOk(bs, memSize + S.HDR)
    ensures S.ChainOk(SmallExec(bs, memSize, calls), memSize + S.HDR)
    decreases |calls|
  {
    if calls != [] {
      SmallStepOk(bs, memSize, calls[0]);
      SmallExecOk(SmallStep(bs, memSize, calls[0]), memSize, calls[1..]);
    }
  }

  /** The heap rt_system_heap_init sets up. */
  function SmallFresh(memSize: nat): seq<Block> {
    [Block(0, memSize + S.HDR, false)]
  }

  /** Over every run of malloc, realloc and free the blocks tile the heap with no two free
      neighbours, live allocations never share a byte, and when none is live any more the heap
      is one free block again: no run leaves it fragmented. */
  lemma SmallCoherent(memSize: nat, calls: seq<Call>, p: nat, q: nat)
    requires memSize % ALIGN_SIZE == 0 && (memSize == 0 || memSize >= S.MIN_SIZE)
    ensures var bs := SmallExec(SmallFresh(memSize), memSize, calls);
      && S.ChainOk(bs, memSize + S.HDR)
      && (S.Live(bs, p) && S.Live(bs, q) && p != q ==> bs[S.Find(bs, p)].hi < q || bs[S.Find(bs, q)].hi < p)
      && ((forall x: nat :: !S.Live(bs, x)) ==> bs == SmallFresh(memSize))
  {
    SmallExecOk(SmallFresh(memSize), memSize, calls);
    var bs := SmallExec(SmallFresh(memSize), memSize, calls);
    if S.Live(bs, p) && S.Live(bs, q) && p != q { S.LiveDisjoint(bs, memSize + S.HDR, p, q); }
    if forall x: nat :: !S.Live(bs, x) { NothingLive(bs, memSize); }
  }

  lemma NothingLive(bs: seq<Block>, memSize: nat)
    requires S.ChainOk(bs, memSize + S.HDR) && forall x: nat :: !S.Live(bs, x)
    ensures bs == SmallFresh(memSize)
  {
    forall i | 0 <= i < |bs| ensures !bs[i].used {
      assert !S.Live(bs, bs[i].lo + S.HDR);
    }
    assert |bs| > 1 ==> !Parted(bs, 0);
  }

  /** What a call returns; a free returns nothing. */
  function SmallAnswer(bs: seq<Block>, memSize: nat, c: Call): Option<int> {
    match c
    case Malloc(n) => Signed(S.MallocResult(bs, memSize, n))
    case Free(_) => None
    case Realloc(block, n) =>
      if S.ReallocArgs(bs, memSize, Signed(block), n) then S.ReallocResult(bs, memSize, Signed(block), n) else None
  }

  /** The allocations that exist by what the calls asked for and the answers they got: pointers,
      with the sizes asked for. A realloc gives the old one up if it returns another or is asked
      for nothing. */
  function Noted(h: map<nat, nat>, c: Call, answer: Option<int>): map<nat, nat> {
    var gone := match c
      case Malloc(_) => {}
      case Free(p) => {p}
      case Realloc(block, n) => if block.Some? && (n == 0 || answer.Some?) then {block.value} else {};
    var misused := c.Realloc? && c.block.Some? && c.block.value !in h;
    if misused then h
    else if answer.Some? && answer.value >= 0 && !c.Free? then (h - gone)[answer.value := c.n]
    else h - gone
  }

  lemma NothingNoted(h: map<nat, nat>, c: Call)
    requires c.Malloc? || (c.Realloc? && (c.block.None? || c.n > 0 || c.block.value !in h))
    ensures Noted(h, c, None) == h
  {
    assert h - {} == h;
  }

  function SmallNotes(h: map<nat, nat>, bs: seq<Block>, memSize: nat, calls: seq<Call>): map<nat, nat>
    decreases |calls|
  {
    if calls == [] then h
    else
      SmallNotes(Noted(h, calls[0], SmallAnswer(bs, memSize, calls[0])), SmallStep(bs, memSize, calls[0]), memSize,
                 calls[1..])
  }

  /** The live blocks are the allocations that exist, each with the room it was asked for. */
  ghost predicate SmallHolds(bs: seq<Block>, h: map<nat, nat>) {
    forall x: nat :: SmallHeld(bs, h, x)
  }

  predicate SmallHeld(bs: seq<Block>, h: map<nat, nat>, x: nat) {
    if S.Live(bs, x) then x in h && 0 < h[x] <= S.RoomOf(bs, x) else x !in h
  }

  lemma SmallMallocHolds(bs: seq<Block>, memSize: nat, h: map<nat, nat>, n: nat)
    requires S.ChainOk(bs, memSize + S.HDR) && SmallHolds(bs, h)
    ensures SmallHolds(S.MallocBlocks(bs, memSize, n), Noted(h, Malloc(n), Signed(S.MallocResult(bs, memSize, n))))
  {
    S.MallocServes(bs, memSize, n);
    NothingNoted(h, Malloc(n));
    if S.MallocResult(bs, memSize, n).Some? {
      SmallGrown(bs, S.MallocBlocks(bs, memSize, n), h, S.MallocResult(bs, memSize, n).value, n);
    }
  }

  lemma SmallGrown(bs: seq<Block>, c: seq<Block>, h: map<nat, nat>, p: nat, n: nat)
    requires SmallHolds(bs, h) && S.Served(bs, c, p, n) && n > 0
    ensures SmallHolds(c, h[p := n])
  {
    var h1 := h[p := n];
    forall x: nat ensures SmallHeld(c, h1, x) {
      assert SmallHeld(bs, h, x) && (x != p ==> S.SameLive(bs, c, x));
    }
  }

  lemma SmallFreeHolds(bs: seq<Block>, memSize: nat, h: map<nat, nat>, p: nat)
    requires S.ChainOk(bs, memSize + S.HDR) && SmallHolds(bs, h) && S.Live(bs, p)
    ensures SmallHolds(S.FreeBlocks(bs, Some(p)), h - {p})
  {
    S.FreeEnds(bs, memSize, p);
    SmallEnded(bs, S.FreeBlocks(bs, Some(p)), h, p);
  }

  lemma SmallEnded(bs: seq<Block>, c: seq<Block>, h: map<nat, nat>, p: nat)
    requires SmallHolds(bs, h) && !S.Live(c, p) && S.OthersSame(bs, c, p, p)
    ensures SmallHolds(c, h - {p})
  {
    forall x: nat ensures SmallHeld(c, h - {p}, x) {
      assert SmallHeld(bs, h, x) && (x != p ==> S.SameLive(bs, c, x));
    }
  }

  lemma SmallResettled(bs: seq<Block>, c: seq<Block>, h: map<nat, nat>, p: nat, q: nat, size: nat, n: nat)
    requires SmallHolds(bs, h) && S.Resettled(bs, c, p, q, size) && 0 < n <= size
    ensures SmallHolds(c, (h - {p})[q := n])
  {
    var h1 := (h - {p})[q := n];
    forall x: nat ensures SmallHeld(c, h1, x) {
      assert SmallHeld(bs, h, x) && (x != p && x != q ==> S.SameLive(bs, c, x));
    }
  }

  lemma SmallReallocHolds(bs: seq<Block>, memSize: nat, h: map<nat, nat>, p: nat, n: nat)
    requires S.ChainOk(bs, memSize + S.HDR) && SmallHolds(bs, h) && S.Live(bs, p)
    ensures var c := Realloc(Some(p), n);
      SmallHolds(SmallStep(bs, memSize, c), Noted(h, c, SmallAnswer(bs, memSize, c)))
  {
    var size := Align(n);
    S.LiveInHeap(bs, memSize + S.HDR, p);
    assert SmallHeld(bs, h, p);
    if size > 0 { NothingNoted(h, Realloc(Some(p), n)); }
    if size == 0 {
      SmallFreeHolds(bs, memSize, h, p);
    } else if size <= memSize {
      S.ResizeServes(bs, memSize, p, size);
      var r := S.ResizeResult(bs, memSize, p, size);
      if r.Some? { SmallResettled(bs, S.ResizeBlocks(bs, memSize, p, size), h, p, r.value, size, n); }
    }
  }

  lemma SmallAllocHolds(bs: seq<Block>, memSize: nat, h: map<nat, nat>, n: nat)
    requires S.ChainOk(bs, memSize + S.HDR) && SmallHolds(bs, h)
    ensures var c := Realloc(None, n);
      SmallHolds(SmallStep(bs, memSize, c), Noted(h, c, SmallAnswer(bs, memSize, c)))
  {
    var size := Align(n);
    NothingNoted(h, Realloc(None, n));
    if 0 < size <= memSize {
      S.MallocServes(bs, memSize, size);
      if S.MallocResult(bs, memSize, size).Some? {
        var p, d := S.MallocResult(bs, memSize, size).value, S.MallocBlocks(bs, memSize, size);
        SmallGrown(bs, d, h, p, size);
        SmallLess(d, h[p := size], p, n);
        assert h[p := size][p := n] == (h - {})[p := n];
      }
    }
  }

  lemma SmallLess(bs: seq<Block>, h: map<nat, nat>, p: nat, n: nat)
    requires SmallHolds(bs, h) && p in h && 0 < n <= h[p]
    ensures SmallHolds(bs, h[p := n])
  {
    var h1 := h[p := n];
    forall x: nat ensures SmallHeld(bs, h1, x) { assert SmallHeld(bs, h, x); }
  }

  lemma SmallStepHolds(bs: seq<Block>, memSize: nat, h: map<nat, nat>, c: Call)
    requires S.ChainOk(bs, memSize + S.HDR) && SmallHolds(bs, h)
    ensures SmallHolds(SmallStep(bs, memSize, c), Noted(h, c, SmallAnswer(bs, memSize, c)))
  {
    match c
    case Malloc(n) => SmallMallocHolds(bs, memSize, h, n);
    case Free(p) =>
      assert SmallHeld(bs, h, p);
      if S.Live(bs, p) { SmallFreeHolds(bs, memSize, h, p); } else { assert h - {p} == h; }
    case Realloc(block, n) =>
      if block.None? { SmallAllocHolds(bs, memSize, h, n); }
      else if S.Live(bs, block.value) { SmallReallocHolds(bs, memSize, h, block.value, n); }
      else { SmallMisused(bs, memSize, h, block.value, n); }
  }

  lemma SmallMisused(bs: seq<Block>, memSize: nat, h: map<nat, nat>, p: nat, n: nat)
    requires SmallHolds(bs, h) && !S.Live(bs, p)
    ensures var c := Realloc(Some(p), n);
      SmallStep(bs, memSize, c) == bs && Noted(h, c, SmallAnswer(bs, memSize, c)) == h
  {
    assert SmallHeld(bs, h, p);
  }

  lemma {:induction false} SmallNotesHold(bs: seq<Block>, memSize: nat, h: map<nat, nat>, calls: seq<Call>)
    requires S.ChainOk(bs, memSize + S.HDR) && SmallHolds(bs, h)
    ensures SmallHolds(SmallExec(bs, memSize, calls), SmallNotes(h, bs, memSize, calls))
    decreases |calls|
  {
    if calls != [] {
      SmallStepOk(bs, memSize, calls[0]);
      SmallStepHolds(bs, memSize, h, calls[0]);
      SmallNotesHold(SmallStep(bs, memSize, calls[0]), memSize,
                     Noted(h, calls[0], SmallAnswer(bs, memSize, calls[0])), calls[1..]);
    }
  }

  /** Over every run of malloc, realloc and free: the allocations that exist are exactly those that
      were returned and not given up since, and each has at least the room that was asked for. */
  lemma SmallHoldsGrants(memSize: nat, calls: seq<Call>)
    requires memSize % ALIGN_SIZE == 0 && (memSize == 0 || memSize >= S.MIN_SIZE)
    ensures var h := SmallNotes(map[], SmallFresh(memSize), memSize, calls);
      var bs := SmallExec(SmallFresh(memSize), memSize, calls);
      && (forall x: nat :: S.Live(bs, x) <==> x in h)
      && (forall x :: x in h && S.Live(bs, x) ==> h[x] <= S.RoomOf(bs, x))
  {
    SmallNotesHold(SmallFresh(memSize), memSize, map[], calls);
    var h := SmallNotes(map[], SmallFresh(memSize), memSize, calls);
    SmallHoldsAll(SmallExec(SmallFresh(memSize), memSize, calls), h);
  }

  lemma SmallHoldsAll(bs: seq<Block>, h: map<nat, nat>)
    requires SmallHolds(bs, h)
    ensures forall x: nat :: S.Live(bs, x) <==> x in h
    ensures forall x :: x in h && S.Live(bs, x) ==> h[x] <= S.RoomOf(bs, x)
  {
    forall x: nat ensures S.Live(bs, x) <==> x in h { assert SmallHeld(bs, h, x); }
    forall x | x in h && S.Live(bs, x) ensures h[x] <= S.RoomOf(bs, x) { assert SmallHeld(bs, h, x); }
  }

  // ------------------------------------------------------------- src/memheap.c

  function PoolRealloc(s: P.Pool, block: Option<nat>, n: nat): P.Pool
    requires block.Some? ==> P.Live(s, block.value)
  {
    if n == 0 then if block.None? then s else P.Freed(s, P.IndexOf(s, block.value))
    else if block.None? then P.Alloced(s, P.Request(n))
    else P.Resized(s, block.value, P.Request(n))
  }

  function PoolStep(s: P.Pool, c: Call): P.Pool {
    match c
    case Malloc(n) => P.Alloced(s, P.Request(n))
    case Free(p) => if P.Live(s, p) then P.Freed(s, P.IndexOf(s, p)) else s
    case Realloc(block, n) => if block.Some? && !P.Live(s, block.value) then s else PoolRealloc(s, block, n)
  }

  function PoolExec(s: P.Pool, calls: seq<Call>): P.Pool
    decreases |calls|
  {
    if calls == [] then s else PoolExec(PoolStep(s, calls[0]), calls[1..])
  }

  lemma PoolFreeOk(s: P.Pool, p: nat)
    requires P.PoolOk(s) && P.Live(s, p)
    ensures P.PoolOk(P.Freed(s, P.IndexOf(s, p)))
  {
    P.FreeOk(s, P.IndexOf(s, p));
  }

  lemma PoolReallocOk(s: P.Pool, block: Option<nat>, n: nat)
    requires P.PoolOk(s) && (block.Some? ==> P.Live(s, block.value))
    ensures P.PoolOk(PoolRealloc(s, block, n))
  {
    if n == 0 {
      if block.Some? { PoolFreeOk(s, block.value); }
    } else if block.None? {
      P.AllocOk(s, P.Request(n));
    } else {
      P.ResizeOk(s, block.value, P.Request(n));
    }
  }

  lemma PoolStepOk(s: P.Pool, c: Call)
    requires P.PoolOk(s)
    ensures P.PoolOk(PoolStep(s, c))
  {
    match c
    case Malloc(n) => P.AllocOk(s, P.Request(n));
    case Free(p) => if P.Live(s, p) { PoolFreeOk(s, p); }
    case Realloc(block, n) => if block.Some? ==> P.Live(s, block.value) { PoolReallocOk(s, block, n); }
  }

  lemma PoolStepSize(s: P.Pool, c: Call)
    ensures PoolStep(s, c).size == s.size
  {
  }

  lemma {:induction false} PoolExecOk(s: P.Pool, calls: seq<Call>)
    requires P.PoolOk(s)
    ensures P.PoolOk(PoolExec(s, calls)) && PoolExec(s, calls).size == s.size
    decreases |calls|
  {
    if calls != [] {
      PoolStepOk(s, calls[0]);
      PoolStepSize(s, calls[0]);
      PoolExecOk(PoolStep(s, calls[0]), calls[1..]);
    }
  }

  /** Over every run of alloc, realloc and free the pool is coherent, live allocations never
      share a byte, and when none is live any more the blocks and the available total are the
      initial ones. */
  lemma PoolCoherent(size: nat, calls: seq<Call>, p: nat, q: nat)
    requires 2 * P.ITEM <= size && size % ALIGN_SIZE == 0
    ensures var s := PoolExec(P.Fresh(size), calls);
      && P.PoolOk(s)
      && (P.Live(s, p) && P.Live(s, q) && p < q ==> p + P.Room(s.blocks[P.IndexOf(s, p)]) + P.ITEM <= q)
      && ((forall x: nat :: !P.Live(s, x)) ==>
            s.blocks == P.Fresh(size).blocks && s.available == P.Fresh(size).available && s.free == [0])
  {
    P.FreshOk(size);
    PoolExecOk(P.Fresh(size), calls);
    var s := PoolExec(P.Fresh(size), calls);
    if P.Live(s, p) && P.Live(s, q) && p < q { Disjoint(s.blocks, P.ITEM, s.size); }
    if forall x: nat :: !P.Live(s, x) { NothingAllocated(s); }
  }

  lemma NothingAllocated(s: P.Pool)
    requires P.PoolOk(s) && forall x: nat :: !P.Live(s, x)
    ensures s.blocks == P.Fresh(s.size).blocks && s.available == P.Fresh(s.size).available && s.free == [0]
  {
    var bs := s.blocks;
    forall i | 0 <= i < |bs| - 1 ensures !bs[i].used {
      P.AtIs(bs, s.size, i);
      assert !P.Live(s, bs[i].lo + P.ITEM);
    }
    assert Parted(bs, 0) && Meets(bs, 0);
    assert bs == P.Fresh(s.size).blocks;
    P.FreshOk(s.size);
    OnlyZero(s.free);
  }

  lemma OnlyZero(l: seq<nat>)
    requires W.Elems(l) == {0} && W.NoDup(l)
    ensures l == [0]
  {
    forall i | 0 <= i < |l| ensures l[i] == 0 { assert l[i] in W.Elems(l); }
    assert 0 in W.Elems(l);
    assert l[0] == 0 == l[|l| - 1];
  }

  /** What a call returns; a free returns nothing. */
  function PoolAnswer(s: P.Pool, c: Call): Option<nat> {
    match c
    case Malloc(n) => P.AllocResult(s, P.Request(n))
    case Free(_) => None
    case Realloc(block, n) =>
      if n == 0 then None
      else if block.None? then P.AllocResult(s, P.Request(n))
      else if P.Live(s, block.value) then P.ResizeResult(s, block.value, P.Request(n)) else None
  }

  function PoolNotes(h: map<nat, nat>, s: P.Pool, calls: seq<Call>): map<nat, nat>
    decreases |calls|
  {
    if calls == [] then h
    else PoolNotes(Noted(h, calls[0], Signed(PoolAnswer(s, calls[0]))), PoolStep(s, calls[0]), calls[1..])
  }

  ghost predicate PoolHolds(s: P.Pool, h: map<nat, nat>) {
    forall x: nat :: PoolHeld(s, h, x)
  }

  predicate PoolHeld(s: P.Pool, h: map<nat, nat>, x: nat) {
    if P.Live(s, x) then x in h && h[x] <= P.Room(s.blocks[P.IndexOf(s, x)]) else x !in h
  }

  lemma RequestIs(n: nat)
    ensures n <= P.Request(n) && P.Request(n) % ALIGN_SIZE == 0
  {
  }

  lemma PoolAllocHolds(s: P.Pool, h: map<nat, nat>, n: nat)
    requires P.PoolOk(s) && PoolHolds(s, h)
    ensures var r := P.AllocResult(s, P.Request(n));
      PoolHolds(P.Alloced(s, P.Request(n)), if r.Some? then h[r.value := n] else h)
  {
    RequestIs(n);
    P.AllocServes(s, P.Request(n));
    var r := P.AllocResult(s, P.Request(n));
    if r.Some? { PoolGrown(s, P.Alloced(s, P.Request(n)), h, r.value, P.Request(n), n); }
  }

  lemma PoolGrown(s: P.Pool, s1: P.Pool, h: map<nat, nat>, p: nat, size: nat, n: nat)
    requires PoolHolds(s, h) && P.Served(s, s1, p, size) && n <= size
    ensures PoolHolds(s1, h[p := n])
  {
    var h1 := h[p := n];
    forall x: nat ensures PoolHeld(s1, h1, x) {
      assert PoolHeld(s, h, x) && (x != p ==> P.SameLive(s, s1, x));
    }
  }

  lemma PoolFreeHolds(s: P.Pool, h: map<nat, nat>, p: nat)
    requires P.PoolOk(s) && PoolHolds(s, h) && P.Live(s, p)
    ensures PoolHolds(P.Freed(s, P.IndexOf(s, p)), h - {p})
  {
    P.FreeEnds(s, p);
    PoolEnded(s, P.Freed(s, P.IndexOf(s, p)), h, p);
  }

  lemma PoolEnded(s: P.Pool, s1: P.Pool, h: map<nat, nat>, p: nat)
    requires PoolHolds(s, h) && !P.Live(s1, p) && P.OthersSame(s, s1, p, p)
    ensures PoolHolds(s1, h - {p})
  {
    forall x: nat ensures PoolHeld(s1, h - {p}, x) {
      assert PoolHeld(s, h, x) && (x != p ==> P.SameLive(s, s1, x));
    }
  }

  lemma PoolResettled(s: P.Pool, s1: P.Pool, h: map<nat, nat>, p: nat, q: nat, size: nat, n: nat)
    requires PoolHolds(s, h) && P.Live(s, p) && P.Resettled(s, s1, p, q, size) && n <= size
    ensures PoolHolds(s1, (h - {p})[q := n])
  {
    var h1 := (h - {p})[q := n];
    forall x: nat ensures PoolHeld(s1, h1, x) {
      assert PoolHeld(s, h, x) && (x != p && x != q ==> P.SameLive(s, s1, x));
    }
  }

  lemma PoolResizeHolds(s: P.Pool, h: map<nat, nat>, p: nat, n: nat)
    requires P.PoolOk(s) && PoolHolds(s, h) && P.Live(s, p) && n > 0
    ensures var c := Realloc(Some(p), n); PoolHolds(PoolStep(s, c), Noted(h, c, Signed(PoolAnswer(s, c))))
  {
    RequestIs(n);
    P.ResizeServes(s, p, P.Request(n));
    assert PoolHeld(s, h, p);
    PoolReallocated(s, P.Resized(s, p, P.Request(n)), h, p, P.ResizeResult(s, p, P.Request(n)), P.Request(n), n);
  }

  lemma PoolReallocated(s: P.Pool, s1: P.Pool, h: map<nat, nat>, p: nat, r: Option<nat>, size: nat, n: nat)
    requires PoolHolds(s, h) && P.Live(s, p) && P.Reallocated(s, s1, p, r, size) && 0 < n <= size
    ensures PoolHolds(s1, Noted(h, Realloc(Some(p), n), Signed(r)))
  {
    assert PoolHeld(s, h, p);
    NothingNoted(h, Realloc(Some(p), n));
    if r.Some? { PoolResettled(s, s1, h, p, r.value, size, n); }
  }

  lemma PoolMisused(s: P.Pool, h: map<nat, nat>, p: nat, n: nat)
    requires PoolHolds(s, h) && !P.Live(s, p)
    ensures Noted(h, Realloc(Some(p), n), None) == h && Noted(h, Free(p), None) == h
  {
    assert PoolHeld(s, h, p);
    assert h - {p} == h;
  }

  lemma PoolStepHolds(s: P.Pool, h: map<nat, nat>, c: Call)
    requires P.PoolOk(s) && PoolHolds(s, h)
    ensures PoolHolds(PoolStep(s, c), Noted(h, c, Signed(PoolAnswer(s, c))))
  {
    match c
    case Malloc(n) =>
      NothingNoted(h, c);
      PoolAllocHolds(s, h, n);
    case Free(p) => if P.Live(s, p) { PoolFreeHolds(s, h, p); } else { PoolMisused(s, h, p, 0); }
    case Realloc(block, n) =>
      if block.None? {
        NothingNoted(h, c);
        if n > 0 { PoolAllocHolds(s, h, n); }
      } else if !P.Live(s, block.value) {
        PoolMisused(s, h, block.value, n);
      } else if n > 0 {
        PoolResizeHolds(s, h, block.value, n);
      } else {
        PoolDropHolds(s, h, block.value);
      }
  }

  lemma PoolDropHolds(s: P.Pool, h: map<nat, nat>, p: nat)
    requires P.PoolOk(s) && PoolHolds(s, h) && P.Live(s, p)
    ensures PoolHolds(PoolStep(s, Realloc(Some(p), 0)), Noted(h, Realloc(Some(p), 0), None))
  {
    assert PoolHeld(s, h, p);
    PoolFreeHolds(s, h, p);
  }

  lemma {:induction false} PoolNotesHold(s: P.Pool, h: map<nat, nat>, calls: seq<Call>)
    requires P.PoolOk(s) && PoolHolds(s, h)
    ensures PoolHolds(PoolExec(s, calls), PoolNotes(h, s, calls))
    decreases |calls|
  {
    if calls != [] {
      PoolStepOk(s, calls[0]);
      PoolStepHolds(s, h, calls[0]);
      PoolNotesHold(PoolStep(s, calls[0]), Noted(h, calls[0], Signed(PoolAnswer(s, calls[0]))), calls[1..]);
    }
  }

  lemma FreshHolds(size: nat)
    requires 2 * P.ITEM <= size && size % ALIGN_SIZE == 0
    ensures PoolHolds(P.Fresh(size), map[])
  {
    P.FreshOk(size);
    P.AtIs(P.Fresh(size).blocks, size, 1);
    P.AtIs(P.Fresh(size).blocks, size, 0);
    forall x: nat ensures PoolHeld(P.Fresh(size), map[], x) {}
  }

  /** Over every run of alloc, realloc and free: the allocations that exist are exactly those that
      were returned and not given up since, and each has at least the room that was asked for. */
  lemma PoolHoldsGrants(size: nat, calls: seq<Call>)
    requires 2 * P.ITEM <= size && size % ALIGN_SIZE == 0
    ensures var s, h := PoolExec(P.Fresh(size), calls), PoolNotes(map[], P.Fresh(size), calls);
      && (forall x: nat :: P.Live(s, x) <==> x in h)
      && (forall x :: x in h && P.Live(s, x) ==> h[x] <= P.Room(s.blocks[P.IndexOf(s, x)]))
  {
    P.FreshOk(size);
    FreshHolds(size);
    PoolNotesHold(P.Fresh(size), map[], calls);
    PoolHoldsAll(PoolExec(P.Fresh(size), calls), PoolNotes(map[], P.Fresh(size), calls));
  }

  lemma PoolHoldsAll(s: P.Pool, h: map<nat, nat>)
    requires PoolHolds(s, h)
    ensures forall x: nat :: P.Live(s, x) <==> x in h
    ensures forall x :: x in h && P.Live(s, x) ==> h[x] <= P.Room(s.blocks[P.IndexOf(s, x)])
  {
    forall x: nat ensures P.Live(s, x) <==> x in h { assert PoolHeld(s, h, x); }
    forall x | x in h && P.Live(s, x) ensures h[x] <= P.Room(s.blocks[P.IndexOf(s, x)]) { assert PoolHeld(s, h, x); }
  }
}
