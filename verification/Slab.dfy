/** The slab allocator (src/slab.c): zones of equal chunks, one list of zones with free chunks
    per size class, spare zones, and large allocations straight from the page list. */
module Slab {
  import opened Cells
  import opened PageList
  import opened ZoneIndex
  import W = WaitList
  import Words

  const ZONE_LIMIT: nat := 16384          // ZALLOC_ZONE_LIMIT
  const USAGE_ENTRY: nat := 4             // sizeof(struct memusage)
  const RELEASE_THRESHOLD: nat := 2       // ZONE_RELEASE_THRESH

  /** What memusage says of a page. */
  datatype Usage = Unused | Small(off: nat) | Large(n: nat)

  /** The header of a zone; `freed` is its chunk list, by chunk number. */
  datatype Zone = Zone(index: nat, chunk: nat, nmax: nat, uindex: nat, nfree: nat, freed: seq<nat>)

  /** `lists` is zone_array, `spare` is zone_free; zones are named by their first page. `held`
      is a history variable: the runs of pages taken from the page list, by first page. */
  datatype Heap = Heap(zonePages: nat, pages: Runs, zones: map<nat, Zone>, lists: seq<seq<nat>>, spare: seq<nat>,
                       usage: map<nat, Usage>, held: map<nat, nat>)

  /** An allocated pointer: chunk `k` of zone `z`, or the pages from `p` on. */
  datatype Ptr = Chunk(z: nat, k: nat) | Pages(p: nat)

  // ----------------------------------------------------------------- zone layout

  /** `(size | (size - 1)) + 1 == size << 1` */
  predicate PowerOfTwo(size: nat)
    requires size > 0
  {
    Words.Or(size, size - 1) + 1 == 2 * size
  }

  /** Where the chunks of a zone start. */
  function Offset(size: nat): nat
    requires size > 0
  {
    if PowerOfTwo(size) then RoundUp(ZONE_HEADER, size) else RoundUp(ZONE_HEADER, MIN_CHUNK)
  }

  function ZoneSize(zonePages: nat): nat {
    zonePages * PAGE
  }

  /** zone_limit */
  function Limit(zonePages: nat): nat {
    if ZoneSize(zonePages) / 4 > ZONE_LIMIT then ZONE_LIMIT else ZoneSize(zonePages) / 4
  }

  /** z_nmax */
  function Capacity(zonePages: nat, size: nat): int
    requires size > 0
  {
    (ZoneSize(zonePages) - Offset(size)) / size
  }

  /** The zone sizes rt_system_heap_init chooses: 32K, 64K or 128K. */
  predicate ZonePages(n: nat) {
    n == 8 || n == 16 || n == 32
  }

  lemma Scale(c: nat, x: int, y: int)
    requires x <= y
    ensures c * x <= c * y
  {
  }

  lemma Cancel(c: nat, x: int, y: int)
    requires c * x < c * y
    ensures x < y
  {
  }

  lemma RoundBounds(n: nat, unit: nat)
    requires unit > 0
    ensures n <= RoundUp(n, unit) < n + unit
  {
  }

  lemma OffsetBound(size: nat)
    requires size >= 8
    ensures ZONE_HEADER <= Offset(size) <= if size >= 40 then size else 75
  {
    RoundBounds(ZONE_HEADER, size);
    assert RoundUp(ZONE_HEADER, MIN_CHUNK) == 40;
    if size >= 40 { RoundOnce(size); }
  }

  lemma RoundOnce(size: nat)
    requires size >= ZONE_HEADER
    ensures RoundUp(ZONE_HEADER, size) == size
  {
  }

  /** A new zone has at least three chunks, and they all fit behind its header. */
  lemma ThreeChunks(zonePages: nat, n: nat)
    requires ZonePages(zonePages) && 0 < n < Limit(zonePages)
    ensures n < CLASS_LIMIT && ChunkOf(n) > 0
    ensures var c := ChunkOf(n);
      && c <= Limit(zonePages) && Capacity(zonePages, c) >= 3
      && Offset(c) + Capacity(zonePages, c) * c <= ZoneSize(zonePages)
  {
    LimitIsClass(zonePages, n);
    RoomForThree(zonePages, ChunkOf(n));
  }

  lemma RoomForThree(zonePages: nat, c: nat)
    requires 8 <= c <= Limit(zonePages) && 4 * Limit(zonePages) <= ZoneSize(zonePages) && 32768 <= ZoneSize(zonePages)
    ensures Capacity(zonePages, c) >= 3 && Offset(c) + Capacity(zonePages, c) * c <= ZoneSize(zonePages)
  {
    OffsetBound(c);
    Quotient(ZoneSize(zonePages) - Offset(c), c, 3);
  }

  lemma Quotient(room: int, c: int, k: int)
    requires c > 0 && room >= k * c
    ensures room / c >= k && room / c * c <= room
  {
    var q := room / c;
    assert room == c * q + room % c;
    assert q * c == c * q && k * c == c * k && c * (q + 1) == c * q + c;
    Cancel(c, k, q + 1);
  }

  lemma LimitIsClass(zonePages: nat, n: nat)
    requires ZonePages(zonePages) && 0 < n < Limit(zonePages)
    ensures n < CLASS_LIMIT && ChunkOf(n) <= Limit(zonePages) && 4 * Limit(zonePages) <= ZoneSize(zonePages)
    ensures ChunkOf(n) >= 8 && 32768 <= ZoneSize(zonePages)
  {
  }

  /** The zone size for a heap: the largest of the three below a 1024th of the heap, and at
      least 32K. */
  function ZoneSizeFor(heapBytes: nat): nat {
    if 131072 < heapBytes / 1024 then 131072 else if 65536 < heapBytes / 1024 then 65536 else 32768
  }

  /** The zone size loop of rt_system_heap_init, in pages. */
  method ChooseZonePages(heapBytes: nat) returns (pages: nat)
    ensures ZonePages(pages) && ZoneSize(pages) == ZoneSizeFor(heapBytes)
  {
    var size := 32768;
    while size < 131072 && size * 2 < heapBytes / 1024
      invariant size == 32768 || (size == 65536 && 65536 < heapBytes / 1024)
          || (size == 131072 && 131072 < heapBytes / 1024)
      decreases 131072 - size
    {
      size := size * 2;
    }
    pages := size / PAGE;
  }

  // ------------------------------------------------------ the operations, on values

  function MarkSmall(usage: map<nat, Usage>, z: nat, n: nat): (r: map<nat, Usage>)
    ensures forall x :: z <= x < z + n ==> x in r && r[x] == Small(x - z)
    ensures forall x :: !(z <= x < z + n) ==> (x in r <==> x in usage) && (x in usage ==> r[x] == usage[x])
  {
    if n == 0 then usage else MarkSmall(usage, z, n - 1)[z + n - 1 := Small(n - 1)]
  }

  function MarkUnused(usage: map<nat, Usage>, z: nat, n: nat): (r: map<nat, Usage>)
    ensures forall x :: !(z <= x < z + n) ==> (x in r <==> x in usage) && (x in usage ==> r[x] == usage[x])
  {
    if n == 0 then usage else MarkUnused(usage, z, n - 1)[z + n - 1 := Unused]
  }

  function FreshZone(zonePages: nat, zi: nat, size: nat): Zone
    requires size > 0
  {
    var nmax := if Capacity(zonePages, size) < 1 then 1 else Capacity(zonePages, size);
    Zone(zi, size, nmax, 0, nmax - 1, [])
  }

  /** The chunk a zone hands out next: one never used before, or the first on its chunk list. */
  function NextChunk(zone: Zone): nat {
    if zone.uindex + 1 != zone.nmax then zone.uindex + 1 else if zone.freed == [] then 0 else zone.freed[0]
  }

  function WithoutNext(zone: Zone): Zone {
    var nfree := if zone.nfree > 0 then zone.nfree - 1 else 0;
    if zone.uindex + 1 != zone.nmax then zone.(nfree := nfree, uindex := zone.uindex + 1)
    else zone.(nfree := nfree, freed := if zone.freed == [] then [] else zone.freed[1..])
  }

  /** A chunk from the first zone on the list of class `zi`. */
  function FromZone(s: Heap, zi: nat): (Heap, Ptr)
    requires zi < |s.lists| && s.lists[zi] != [] && s.lists[zi][0] in s.zones
  {
    var z := s.lists[zi][0];
    var zone := WithoutNext(s.zones[z]);
    (s.(zones := s.zones[z := zone], lists := if zone.nfree == 0 then s.lists[zi := s.lists[zi][1..]] else s.lists),
     Chunk(z, NextChunk(s.zones[z])))
  }

  /** Pages `z` and following become a zone of class `zi`, whose first chunk is handed out. */
  function NewZone(s: Heap, z: nat, zi: nat, size: nat): (Heap, Ptr)
    requires zi < |s.lists| && size > 0
  {
    (s.(zones := s.zones[z := FreshZone(s.zonePages, zi, size)], lists := s.lists[zi := [z] + s.lists[zi]]),
        Chunk(z, 0))
  }

  function TakePages(s: Heap, p: nat, n: nat): Heap {
    s.(pages := Taken(s.pages, n), held := s.held[p := n])
  }

  /** A zone's worth of pages, marked as such. */
  function ZonePagesTaken(s: Heap, z: nat): Heap {
    var s0 := TakePages(s, z, s.zonePages);
    s0.(usage := MarkSmall(s0.usage, z, s.zonePages))
  }

  function MallocSmall(s: Heap, zi: nat, size: nat): (Heap, Option<Ptr>)
    requires zi < |s.lists| && size > 0
  {
    if s.lists[zi] != [] && s.lists[zi][0] in s.zones then
      var (s1, p) := FromZone(s, zi);
      (s1, Some(p))
    else if s.spare != [] then
      var (s1, p) := NewZone(s.(spare := s.spare[1..]), s.spare[0], zi, size);
      (s1, Some(p))
    else match FirstFit(s.pages, s.zonePages)
      case None => (s, None)
      case Some(z) =>
        var (s1, p) := NewZone(ZonePagesTaken(s, z), z, zi, size);
        (s1, Some(p))
  }

  function PagesFor(n: nat): nat {
    (n + PAGE - 1) / PAGE
  }

  function MallocLarge(s: Heap, n: nat): (Heap, Option<Ptr>) {
    match FirstFit(s.pages, n)
    case None => (s, None)
    case Some(p) =>
      var s1 := TakePages(s, p, n);
      (s1.(usage := s1.usage[p := Large(n)]), Some(Pages(p)))
  }

  /** rt_malloc */
  function AfterMalloc(s: Heap, n: nat): (Heap, Option<Ptr>)
    requires |s.lists| == NZONES && ZonePages(s.zonePages)
  {
    if n == 0 then (s, None)
    else if n >= Limit(s.zonePages) then MallocLarge(s, PagesFor(n))
    else
      ClassFits(n);
      MallocSmall(s, ClassOf(n), ChunkOf(n))
  }

  function DropRun(s: Heap, p: nat, n: nat): Heap
  {
    s.(pages := Returned(s.pages, p, n), held := s.held - {p})
  }

  /** The chunk goes back on its zone's list, and a zone that was full back on its class list. */
  function ChunkBack(s: Heap, z: nat, k: nat): Heap
    requires z in s.zones && s.zones[z].index < |s.lists|
  {
    var zone := s.zones[z];
    var s1 := s.(zones := s.zones[z := zone.(freed := [k] + zone.freed, nfree := zone.nfree + 1)]);
    if zone.nfree == 0 then s1.(lists := s.lists[zone.index := [z] + s.lists[zone.index]]) else s1
  }

  /** `z->z_next || zone_array[i] != z`, for a zone on list `i`. */
  predicate NotAlone(list: seq<nat>, z: nat) {
    list != [] && (list[0] != z || list[|list| - 1] != z)
  }

  /** A wholly free zone becomes a spare one. */
  function Retired(s: Heap, z: nat): Heap
    requires z in s.zones && s.zones[z].index < |s.lists|
  {
    var i := s.zones[z].index;
    s.(zones := s.zones - {z}, lists := s.lists[i := W.Without(s.lists[i], z)], spare := [z] + s.spare)
  }

  /** The first spare zone goes back to the page list. */
  function Released(s: Heap): Heap
    requires s.spare != []
  {
    var z := s.spare[0];
    DropRun(s.(spare := s.spare[1..], usage := MarkUnused(s.usage, z, s.zonePages)), z, s.zonePages)
  }

  function FreeChunk(s: Heap, z: nat, k: nat): Heap
    requires z in s.zones && s.zones[z].index < |s.lists|
  {
    var s1 := ChunkBack(s, z, k);
    if s1.zones[z].nfree == s1.zones[z].nmax && NotAlone(s1.lists[s1.zones[z].index], z) then
      var s2 := Retired(s1, z);
      if |s2.spare| > RELEASE_THRESHOLD then Released(s2) else s2
    else s1
  }

  /** The page type stays LARGE, with size 0. */
  function FreePages(s: Heap, p: nat): Heap {
    if p in s.usage && s.usage[p].Large? then DropRun(s.(usage := s.usage[p := Large(0)]), p, s.usage[p].n) else s
  }

  /** rt_free of a live pointer. */
  function AfterFree(s: Heap, ptr: Ptr): Heap
    requires ptr.Chunk? ==> ptr.z in s.zones && s.zones[ptr.z].index < |s.lists|
  {
    match ptr
    case Chunk(z, k) => FreeChunk(s, z, k)
    case Pages(p) => FreePages(s, p)
  }

  /** What rt_system_heap_init sets up: the first pages hold the memusage table itself. */
  function Fresh(npages: nat, zonePages: nat): Heap {
    Heap(zonePages, Taken([Run(0, npages)], PagesFor(USAGE_ENTRY * npages)), map[], seq(NZONES, i => []), [], map[],
        map[])
  }

  // ----------------------------------------------------------------- the invariant

  /** z_nfree counts the never used chunks and those on the chunk list. */
  ghost predicate ZoneOk(zonePages: nat, zone: Zone) {
    && zone.index < NZONES && zone.chunk == SizeOf(zone.index) && 8 <= zone.chunk <= Limit(zonePages)
    && zone.nmax == Capacity(zonePages, zone.chunk) >= 3 && zone.uindex < zone.nmax
    && zone.nfree == (zone.nmax - 1 - zone.uindex) + |zone.freed|
    && W.NoDup(zone.freed) && forall k :: k in zone.freed ==> k <= zone.uindex
  }

  ghost predicate ZonesOk(s: Heap) {
    forall z :: z in s.zones ==> ZoneOk(s.zonePages, s.zones[z])
  }

  /** List `i` holds exactly the zones of class `i` with a free chunk, each once. */
  ghost predicate ListOk(list: seq<nat>, zones: map<nat, Zone>, i: nat) {
    W.NoDup(list) && forall z :: z in list <==> z in zones && zones[z].index == i && zones[z].nfree > 0
  }

  ghost predicate ListsOk(s: Heap) {
    |s.lists| == NZONES && forall i :: 0 <= i < NZONES ==> ListOk(s.lists[i], s.zones, i)
  }

  /** At rest at most two zones are spare. */
  ghost predicate SpareOk(s: Heap) {
    |s.spare| <= RELEASE_THRESHOLD && W.NoDup(s.spare) && forall z :: z in s.spare ==> z !in s.zones
  }

  predicate Disjoint(p: nat, n: nat, q: nat, m: nat) {
    p + n <= q || q + m <= p
  }

  /** The runs taken from the page list are not free and do not overlap. */
  ghost predicate PagesOk(pages: Runs, held: map<nat, nat>) {
    && Ascending(pages)
    && (forall p :: p in held ==> held[p] > 0 && NoneFree(pages, p, held[p]))
    && (forall p, q :: p in held && q in held && p != q ==> Disjoint(p, held[p], q, held[q]))
  }

  ghost predicate ZoneUsage(s: Heap, z: nat) {
    && z in s.held && s.held[z] == s.zonePages
    && forall x :: z <= x < z + s.zonePages ==> x in s.usage && s.usage[x] == Small(x - z)
  }

  predicate LargeUsage(s: Heap, p: nat) {
    p in s.held && p in s.usage && s.usage[p] == Large(s.held[p])
  }

  predicate Zoned(s: Heap, p: nat) {
    p in s.zones || p in s.spare
  }

  /** memusage tells what every taken run is for, apart from the run at `but`. */
  ghost predicate UsageBut(s: Heap, but: int) {
    && (forall z :: Zoned(s, z) ==> ZoneUsage(s, z))
    && (forall p :: p in s.held && !Zoned(s, p) && p != but ==> LargeUsage(s, p))
  }

  ghost predicate HeapOkBut(s: Heap, but: int) {
    ZonePages(s.zonePages) && ZonesOk(s) && ListsOk(s) && SpareOk(s) && PagesOk(s.pages, s.held) && UsageBut(s, but)
  }

  ghost predicate HeapOk(s: Heap) {
    HeapOkBut(s, -1)
  }

  predicate Live(s: Heap, ptr: Ptr) {
    match ptr
    case Chunk(z, k) => z in s.zones && k <= s.zones[z].uindex && k !in s.zones[z].freed
    case Pages(p) => p in s.held && !Zoned(s, p)
  }

  // --------------------------------------------------------------------- pages

  lemma TakePagesOk(pages: Runs, held: map<nat, nat>, n: nat)
    requires PagesOk(pages, held) && n > 0 && FirstFit(pages, n).Some?
    ensures var p := FirstFit(pages, n).value;
      && p !in held && PagesOk(Taken(pages, n), held[p := n])
      && forall q :: q in held ==> Disjoint(p, n, q, held[q])
  {
    var p := FirstFit(pages, n).value;
    TakenOk(pages, n);
    forall q | q in held ensures q != p && Disjoint(p, n, q, held[q]) && NoneFree(Taken(pages, n), q, held[q]) {
      ApartFromFree(pages, Run(q, held[q]), Run(p, n));
    }
  }

  lemma DropRunOk(pages: Runs, held: map<nat, nat>, p: nat)
    requires PagesOk(pages, held) && p in held
    ensures PagesOk(Returned(pages, p, held[p]), held - {p})
  {
    ReturnedOk(pages, p, held[p]);
    var held1, pages1 := held - {p}, Returned(pages, p, held[p]);
    forall q | q in held1 ensures held1[q] > 0 && NoneFree(pages1, q, held1[q]) {
      assert Disjoint(p, held[p], q, held[q]);
    }
  }

  /** A step that leaves pages and page types alone keeps what they say. */
  lemma UsageKept(s: Heap, s1: Heap, but: int, but1: int)
    requires UsageBut(s, but)
    requires s1.held == s.held && s1.usage == s.usage && s1.zonePages == s.zonePages
    requires forall y :: Zoned(s1, y) ==> Zoned(s, y) || (y == but && ZoneUsage(s, y))
    requires forall y :: Zoned(s, y) ==> Zoned(s1, y) || y == but1
    requires but >= 0 ==> Zoned(s1, but)
    ensures UsageBut(s1, but1)
  {
  }

  // ---------------------------------------------------------------- allocation

  ghost predicate SameLiveBut(s: Heap, s1: Heap, ptr: Ptr) {
    forall q :: q != ptr ==> (Live(s1, q) <==> Live(s, q))
  }

  /** From `s` to `s1` exactly the pointer `ptr` has become live. */
  ghost predicate Granted(s: Heap, s1: Heap, ptr: Ptr) {
    !Live(s, ptr) && Live(s1, ptr) && SameLiveBut(s, s1, ptr)
  }

  lemma FromZoneOk(s: Heap, zi: nat)
    requires HeapOk(s) && zi < NZONES && s.lists[zi] != []
    ensures s.lists[zi][0] in s.zones
    ensures var (s1, ptr) := FromZone(s, zi); HeapOk(s1) && Granted(s, s1, ptr)
  {
    HeadHasRoom(s, zi);
    FromZoneLive(s, zi);
    FromZoneLists(s, zi);
    FromZoneZones(s, zi);
    UsageKept(s, FromZone(s, zi).0, -1, -1);
  }

  lemma HeadHasRoom(s: Heap, zi: nat)
    requires ListsOk(s) && ZonesOk(s) && zi < NZONES && s.lists[zi] != []
    ensures var z := s.lists[zi][0];
      z in s.zones && ZoneOk(s.zonePages, s.zones[z]) && s.zones[z].nfree > 0 && s.zones[z].index == zi
  {
  }

  lemma FromZoneLive(s: Heap, zi: nat)
    requires zi < |s.lists| && s.lists[zi] != [] && s.lists[zi][0] in s.zones
    requires ZoneOk(s.zonePages, s.zones[s.lists[zi][0]]) && s.zones[s.lists[zi][0]].nfree > 0
    ensures var (s1, ptr) := FromZone(s, zi); Granted(s, s1, ptr)
  {
    ChunkTaken(s.zonePages, s.zones[s.lists[zi][0]]);
  }

  lemma FromZoneZones(s: Heap, zi: nat)
    requires ZonesOk(s) && zi < |s.lists| && s.lists[zi] != [] && s.lists[zi][0] in s.zones
    requires s.zones[s.lists[zi][0]].nfree > 0
    ensures ZonesOk(FromZone(s, zi).0)
  {
    var z, s1 := s.lists[zi][0], FromZone(s, zi).0;
    ChunkTaken(s.zonePages, s.zones[z]);
    forall y | y in s1.zones ensures ZoneOk(s1.zonePages, s1.zones[y]) {
      assert y != z ==> ZoneOk(s.zonePages, s.zones[y]);
    }
  }

  lemma FromZoneLists(s: Heap, zi: nat)
    requires ListsOk(s) && ZonesOk(s) && zi < NZONES && s.lists[zi] != [] && s.lists[zi][0] in s.zones
    ensures ListsOk(FromZone(s, zi).0)
  {
    var s1 := FromZone(s, zi).0;
    forall i | 0 <= i < NZONES ensures ListOk(s1.lists[i], s1.zones, i) { ListAfterTake(s, zi, i); }
  }

  lemma PopFirst(list: seq<nat>)
    requires W.NoDup(list) && list != []
    ensures W.NoDup(list[1..]) && list[0] !in list[1..] && |list[1..]| == |list| - 1
    ensures forall k :: k in list <==> k == list[0] || k in list[1..]
  {
  }

  /** Taking a chunk keeps the zone's count. */
  lemma ChunkTaken(zonePages: nat, zone: Zone)
    requires ZoneOk(zonePages, zone) && zone.nfree > 0
    ensures var z1, k := WithoutNext(zone), NextChunk(zone);
      && ZoneOk(zonePages, z1) && z1.nfree == zone.nfree - 1 && z1.index == zone.index
      && !(k <= zone.uindex && k !in zone.freed) && k <= z1.uindex && k !in z1.freed
      && forall j :: j != k ==> (j <= z1.uindex && j !in z1.freed <==> j <= zone.uindex && j !in zone.freed)
  {
    if zone.uindex + 1 == zone.nmax {
      PopFirst(zone.freed);
    } else {
      assert zone.uindex + 1 !in zone.freed;
    }
  }

  lemma ListAfterTake(s: Heap, zi: nat, i: nat)
    requires ListsOk(s) && zi < NZONES && s.lists[zi] != [] && s.lists[zi][0] in s.zones && i < NZONES
    ensures var s1 := FromZone(s, zi).0; ListOk(s1.lists[i], s1.zones, i)
  {
  }

  /** A size class and its chunk size, as rt_malloc passes them on. */
  predicate SmallClass(zonePages: nat, zi: nat, size: nat) {
    zi < NZONES && size == SizeOf(zi) && 8 <= size <= Limit(zonePages) && Capacity(zonePages, size) >= 3
  }

  /** A run that is neither a zone nor spare becomes a zone. */
  lemma NewZoneOk(s: Heap, z: nat, zi: nat, size: nat)
    requires HeapOkBut(s, z) && !Zoned(s, z) && ZoneUsage(s, z) && SmallClass(s.zonePages, zi, size)
    ensures HeapOk(NewZone(s, z, zi, size).0)
  {
    NewZoneLists(s, z, zi, size);
    NewZoneZones(s, z, zi, size);
    UsageKept(s, NewZone(s, z, zi, size).0, z, -1);
  }

  lemma NewZoneLists(s: Heap, z: nat, zi: nat, size: nat)
    requires ListsOk(s) && z !in s.zones && SmallClass(s.zonePages, zi, size)
    ensures ListsOk(NewZone(s, z, zi, size).0)
  {
  }

  lemma NewZoneZones(s: Heap, z: nat, zi: nat, size: nat)
    requires ZonesOk(s) && SmallClass(s.zonePages, zi, size) && zi < |s.lists|
    ensures ZonesOk(NewZone(s, z, zi, size).0)
  {
  }

  /** Of a new zone only the first chunk is live; `s0` is `s` with the zone's run set aside. */
  lemma NewZoneLive(s: Heap, s0: Heap, z: nat, zi: nat, size: nat)
    requires zi < |s0.lists| && size > 0 && s0.zones == s.zones && z !in s.zones && (z in s.held ==> Zoned(s, z))
    requires forall p :: p != z ==> (Zoned(s0, p) <==> Zoned(s, p)) && (p in s0.held <==> p in s.held)
    ensures var (s1, ptr) := NewZone(s0, z, zi, size); Granted(s, s1, ptr)
  {
  }

  lemma FromSpareOk(s: Heap, zi: nat, size: nat)
    requires HeapOk(s) && s.spare != [] && SmallClass(s.zonePages, zi, size)
    ensures var (s1, ptr) := NewZone(s.(spare := s.spare[1..]), s.spare[0], zi, size);
      HeapOk(s1) && Granted(s, s1, ptr)
  {
    var z, s0 := s.spare[0], s.(spare := s.spare[1..]);
    SpareTaken(s);
    NewZoneOk(s0, z, zi, size);
    assert forall p :: p != z ==> (Zoned(s0, p) <==> Zoned(s, p));
    NewZoneLive(s, s0, z, zi, size);
  }

  lemma SpareTaken(s: Heap)
    requires HeapOk(s) && s.spare != []
    ensures var z, s0 := s.spare[0], s.(spare := s.spare[1..]);
      && HeapOkBut(s0, z) && Zoned(s, z) && z !in s.zones && !Zoned(s0, z) && ZoneUsage(s0, z)
      && forall p :: p != z ==> (Zoned(s0, p) <==> Zoned(s, p))
  {
    var z, s0 := s.spare[0], s.(spare := s.spare[1..]);
    PopFirst(s.spare);
    assert Zoned(s, z) && ZoneUsage(s, z);
    UsageKept(s, s0, -1, z);
  }

  /** Pages taken for a zone, with their page types set. */
  lemma ZonePagesOk(s: Heap, z: nat)
    requires HeapOk(s) && FirstFit(s.pages, s.zonePages) == Some(z)
    ensures HeapOkBut(ZonePagesTaken(s, z), z) && z !in s.held && !Zoned(s, z) && ZoneUsage(ZonePagesTaken(s, z), z)
  {
    TakePagesOk(s.pages, s.held, s.zonePages);
    assert Zoned(s, z) ==> ZoneUsage(s, z);
    ZonePagesUsage(s, z);
  }

  lemma ZonePagesUsage(s: Heap, z: nat)
    requires UsageBut(s, -1) && z !in s.held
    requires forall q :: q in s.held ==> s.held[q] > 0 && Disjoint(z, s.zonePages, q, s.held[q])
    ensures UsageBut(ZonePagesTaken(s, z), z) && ZoneUsage(ZonePagesTaken(s, z), z)
  {
    var s0 := ZonePagesTaken(s, z);
    forall y | Zoned(s0, y) ensures ZoneUsage(s0, y) {
      assert Zoned(s, y) && ZoneUsage(s, y) && Disjoint(z, s.zonePages, y, s.held[y]);
    }
    forall p | p in s0.held && !Zoned(s0, p) && p != z ensures LargeUsage(s0, p) {
      assert !Zoned(s, p) && LargeUsage(s, p) && Disjoint(z, s.zonePages, p, s.held[p]);
    }
  }

  lemma FromPagesOk(s: Heap, z: nat, zi: nat, size: nat)
    requires HeapOk(s) && FirstFit(s.pages, s.zonePages) == Some(z) && SmallClass(s.zonePages, zi, size)
    ensures var (s1, ptr) := NewZone(ZonePagesTaken(s, z), z, zi, size);
      HeapOk(s1) && Granted(s, s1, ptr)
  {
    ZonePagesOk(s, z);
    NewZoneOk(ZonePagesTaken(s, z), z, zi, size);
    NewZoneLive(s, ZonePagesTaken(s, z), z, zi, size);
  }

  lemma MallocLargeOk(s: Heap, n: nat)
    requires HeapOk(s) && n > 0
    ensures var (s1, r) := MallocLarge(s, n);
      HeapOk(s1) && (r.None? ==> s1 == s) && (r.Some? ==> Granted(s, s1, r.value))
  {
    if FirstFit(s.pages, n).Some? {
      var p := FirstFit(s.pages, n).value;
      TakePagesOk(s.pages, s.held, n);
      assert Zoned(s, p) ==> ZoneUsage(s, p);
      LargeTaken(s, p, n);
    }
  }

  lemma LargeTaken(s: Heap, p: nat, n: nat)
    requires UsageBut(s, -1) && n > 0 && p !in s.held && !Zoned(s, p) && s.zonePages > 0
    requires forall q :: q in s.held ==> Disjoint(p, n, q, s.held[q])
    ensures var s1 := TakePages(s, p, n).(usage := s.usage[p := Large(n)]); UsageBut(s1, -1) && Granted(s, s1, Pages(p))
  {
    var s1 := TakePages(s, p, n).(usage := s.usage[p := Large(n)]);
    forall y | Zoned(s1, y) ensures ZoneUsage(s1, y) {
      assert Zoned(s, y) && ZoneUsage(s, y) && Disjoint(p, n, y, s.held[y]);
    }
    forall q | q in s1.held && !Zoned(s1, q) ensures LargeUsage(s1, q) {
      assert !Zoned(s, q) && (q != p ==> LargeUsage(s, q));
    }
    forall q: nat ensures Zoned(s1, q) <==> Zoned(s, q) {}
  }

  /** rt_malloc: the invariant holds, and on success exactly one pointer becomes live, one that
      was not live before. */
  lemma MallocOk(s: Heap, n: nat)
    requires HeapOk(s)
    ensures var (s1, r) := AfterMalloc(s, n);
      HeapOk(s1) && (r.None? ==> s1 == s) && (r.Some? ==> Granted(s, s1, r.value))
  {
    if n == 0 {
    } else if n >= Limit(s.zonePages) {
      assert PagesFor(n) > 0;
      MallocLargeOk(s, PagesFor(n));
    } else {
      ThreeChunks(s.zonePages, n);
      LimitIsClass(s.zonePages, n);
      ClassFits(n);
      MallocSmallOk(s, ClassOf(n), ChunkOf(n));
    }
  }

  lemma MallocSmallOk(s: Heap, zi: nat, size: nat)
    requires HeapOk(s) && SmallClass(s.zonePages, zi, size)
    ensures var (s1, r) := MallocSmall(s, zi, size);
      HeapOk(s1) && (r.None? ==> s1 == s) && (r.Some? ==> Granted(s, s1, r.value))
  {
    assert ListOk(s.lists[zi], s.zones, zi);
    if s.lists[zi] != [] {
      FromZoneOk(s, zi);
    } else if s.spare != [] {
      FromSpareOk(s, zi, size);
    } else if FirstFit(s.pages, s.zonePages).Some? {
      FromPagesOk(s, FirstFit(s.pages, s.zonePages).value, zi, size);
    }
  }

  // ------------------------------------------------------------------- freeing

  lemma ChunkReturned(zonePages: nat, zone: Zone, k: nat)
    requires ZoneOk(zonePages, zone) && k <= zone.uindex && k !in zone.freed
    ensures ZoneOk(zonePages, zone.(freed := [k] + zone.freed, nfree := zone.nfree + 1))
    ensures zone.nfree + 1 <= zone.nmax
  {
    BoundedList([k] + zone.freed, zone.uindex + 1);
  }

  /** A list of distinct numbers below `n` has at most `n` entries. */
  lemma {:induction false} BoundedList(list: seq<nat>, n: nat)
    requires W.NoDup(list) && forall k :: k in list ==> k < n
    ensures |list| <= n
    decreases n
  {
    if list != [] {
      assert list[0] in list;
      W.WithoutNoDup(list, n - 1);
      BoundedList(W.Without(list, n - 1), n - 1);
    }
  }

  /** From `s` to `s1` exactly the pointer `ptr` has stopped being live. */
  ghost predicate Dropped(s: Heap, s1: Heap, ptr: Ptr) {
    !Live(s1, ptr) && SameLiveBut(s, s1, ptr)
  }

  lemma ChunkBackOk(s: Heap, z: nat, k: nat)
    requires HeapOk(s) && Live(s, Chunk(z, k))
    ensures s.zones[z].index < |s.lists|
    ensures var s1 := ChunkBack(s, z, k);
      HeapOk(s1) && z in s1.zones && s1.zones[z].index == s.zones[z].index && Dropped(s, s1, Chunk(z, k))
  {
    assert ZoneOk(s.zonePages, s.zones[z]);
    ChunkReturned(s.zonePages, s.zones[z], k);
    ChunkBackLists(s, z, k);
    ChunkBackZones(s, z, k);
    UsageKept(s, ChunkBack(s, z, k), -1, -1);
    ChunkBackLive(s, z, k);
  }

  lemma ChunkBackLists(s: Heap, z: nat, k: nat)
    requires ListsOk(s) && z in s.zones && s.zones[z].index < NZONES
    ensures ListsOk(ChunkBack(s, z, k))
  {
    var s1 := ChunkBack(s, z, k);
    forall i | 0 <= i < NZONES ensures ListOk(s1.lists[i], s1.zones, i) { assert ListOk(s.lists[i], s.zones, i); }
  }

  lemma ChunkBackZones(s: Heap, z: nat, k: nat)
    requires ZonesOk(s) && z in s.zones && s.zones[z].index < |s.lists| && k <= s.zones[z].uindex
        && k !in s.zones[z].freed
    ensures ZonesOk(ChunkBack(s, z, k))
  {
    var s1 := ChunkBack(s, z, k);
    ChunkReturned(s.zonePages, s.zones[z], k);
    forall y | y in s1.zones ensures ZoneOk(s1.zonePages, s1.zones[y]) {
      assert y != z ==> ZoneOk(s.zonePages, s.zones[y]);
    }
  }

  lemma ChunkBackLive(s: Heap, z: nat, k: nat)
    requires z in s.zones && s.zones[z].index < |s.lists|
    ensures Dropped(s, ChunkBack(s, z, k), Chunk(z, k))
  {
    var s1 := ChunkBack(s, z, k);
    forall q ensures Zoned(s1, q) <==> Zoned(s, q) {}
    forall q | q != Chunk(z, k) ensures Live(s1, q) <==> Live(s, q) {}
  }

  /** A wholly free zone has no live chunk. */
  lemma {:induction false} WhollyFree(zonePages: nat, zone: Zone, k: nat)
    requires ZoneOk(zonePages, zone) && zone.nfree == zone.nmax && k <= zone.uindex
    ensures k in zone.freed
  {
    if k !in zone.freed {
      BoundedList([k] + zone.freed, zone.uindex + 1);
    }
  }

  /** The invariant with possibly one spare zone too many. */
  ghost predicate HeapOkSpare(s: Heap) {
    && ZonePages(s.zonePages) && ZonesOk(s) && ListsOk(s) && PagesOk(s.pages, s.held) && UsageBut(s, -1)
    && |s.spare| <= RELEASE_THRESHOLD + 1 && W.NoDup(s.spare) && forall z :: z in s.spare ==> z !in s.zones
  }

  lemma RetiredOk(s: Heap, z: nat)
    requires HeapOk(s) && z in s.zones && s.zones[z].nfree == s.zones[z].nmax
    ensures s.zones[z].index < |s.lists|
    ensures HeapOkSpare(Retired(s, z)) && forall q :: Live(Retired(s, z), q) <==> Live(s, q)
  {
    assert ZoneOk(s.zonePages, s.zones[z]);
    RetiredLists(s, z);
    UsageKept(s, Retired(s, z), -1, -1);
    RetiredLive(s, z);
  }

  lemma RetiredLists(s: Heap, z: nat)
    requires ListsOk(s) && z in s.zones && s.zones[z].index < NZONES
    ensures ListsOk(Retired(s, z))
  {
    var s1 := Retired(s, z);
    forall i | 0 <= i < NZONES ensures ListOk(s1.lists[i], s1.zones, i) {
      assert ListOk(s.lists[i], s.zones, i);
      W.WithoutNoDup(s.lists[i], z);
    }
  }

  lemma RetiredLive(s: Heap, z: nat)
    requires HeapOk(s) && z in s.zones && s.zones[z].nfree == s.zones[z].nmax && s.zones[z].index < |s.lists|
    ensures forall q :: Live(Retired(s, z), q) <==> Live(s, q)
  {
    assert ZoneOk(s.zonePages, s.zones[z]);
    forall q ensures Live(Retired(s, z), q) <==> Live(s, q) {
      if q.Chunk? && q.z == z && q.k <= s.zones[z].uindex { WhollyFree(s.zonePages, s.zones[z], q.k); }
    }
  }

  lemma ReleasedOk(s: Heap)
    requires HeapOkSpare(s) && |s.spare| == RELEASE_THRESHOLD + 1
    ensures HeapOk(Released(s)) && forall q :: Live(Released(s), q) <==> Live(s, q)
  {
    var z := s.spare[0];
    PopFirst(s.spare);
    assert Zoned(s, z) && ZoneUsage(s, z);
    DropRunOk(s.pages, s.held, z);
    ReleasedUsage(s);
    ReleasedLive(s);
  }

  lemma ReleasedUsage(s: Heap)
    requires UsageBut(s, -1) && W.NoDup(s.spare) && s.spare != [] && s.spare[0] !in s.zones
    requires forall q :: q in s.held ==>
      s.held[q] > 0 && (q != s.spare[0] ==> Disjoint(s.spare[0], s.zonePages, q, s.held[q]))
    ensures UsageBut(Released(s), -1)
  {
    var z, s1 := s.spare[0], Released(s);
    PopFirst(s.spare);
    forall y | Zoned(s1, y) ensures ZoneUsage(s1, y) {
      assert Zoned(s, y) && ZoneUsage(s, y) && Disjoint(z, s.zonePages, y, s.held[y]);
    }
    forall p | p in s1.held && !Zoned(s1, p) ensures LargeUsage(s1, p) {
      assert !Zoned(s, p) && LargeUsage(s, p) && Disjoint(z, s.zonePages, p, s.held[p]);
    }
  }

  lemma ReleasedLive(s: Heap)
    requires W.NoDup(s.spare) && s.spare != [] && s.spare[0] !in s.zones
    ensures forall q :: Live(Released(s), q) <==> Live(s, q)
  {
    var s1 := Released(s);
    PopFirst(s.spare);
    forall p | p != s.spare[0] ensures Zoned(s1, p) <==> Zoned(s, p) {}
    assert Zoned(s, s.spare[0]);
    forall q ensures Live(s1, q) <==> Live(s, q) {}
  }

  lemma FreeChunkOk(s: Heap, z: nat, k: nat)
    requires HeapOk(s) && Live(s, Chunk(z, k))
    ensures s.zones[z].index < |s.lists|
    ensures var s1 := FreeChunk(s, z, k);
      HeapOk(s1) && Dropped(s, s1, Chunk(z, k))
  {
    ChunkBackOk(s, z, k);
    var s1 := ChunkBack(s, z, k);
    if s1.zones[z].nfree == s1.zones[z].nmax && NotAlone(s1.lists[s1.zones[z].index], z) {
      RetiredOk(s1, z);
      var s2 := Retired(s1, z);
      if |s2.spare| > RELEASE_THRESHOLD { ReleasedOk(s2); }
    }
  }

  lemma FreePagesOk(s: Heap, p: nat)
    requires HeapOk(s) && Live(s, Pages(p))
    ensures var s1 := FreePages(s, p);
      HeapOk(s1) && Dropped(s, s1, Pages(p))
  {
    assert LargeUsage(s, p);
    DropRunOk(s.pages, s.held, p);
    FreePagesUsage(s, p);
  }

  lemma FreePagesUsage(s: Heap, p: nat)
    requires UsageBut(s, -1) && p in s.held && !Zoned(s, p) && LargeUsage(s, p) && s.held[p] > 0
    requires forall q :: q in s.held && q != p ==> Disjoint(p, s.held[p], q, s.held[q])
    ensures UsageBut(FreePages(s, p), -1) && Dropped(s, FreePages(s, p), Pages(p))
  {
    var s1 := FreePages(s, p);
    forall y | Zoned(s1, y) ensures ZoneUsage(s1, y) {
      assert Zoned(s, y) && ZoneUsage(s, y) && Disjoint(p, s.held[p], y, s.held[y]);
    }
    forall q | q in s1.held && !Zoned(s1, q) ensures LargeUsage(s1, q) { assert !Zoned(s, q) && LargeUsage(s, q); }
    forall q: nat ensures Zoned(s1, q) <==> Zoned(s, q) {}
  }

  /** rt_free of a live pointer: the invariant holds, and exactly that pointer stops being live. */
  lemma FreeOk(s: Heap, ptr: Ptr)
    requires HeapOk(s) && Live(s, ptr)
    ensures ptr.Chunk? ==> s.zones[ptr.z].index < |s.lists|
    ensures var s1 := AfterFree(s, ptr);
      HeapOk(s1) && Dropped(s, s1, ptr)
  {
    match ptr
    case Chunk(z, k) => FreeChunkOk(s, z, k);
    case Pages(p) => FreePagesOk(s, p);
  }

  // ------------------------------------------------------------------ where allocations lie

  /** The address of chunk `k` of zone `z`. */
  function ChunkStart(z: nat, k: nat, chunk: nat): int
    requires chunk > 0
  {
    z * PAGE + Offset(chunk) + k * chunk
  }

  /** The first byte of a pointer and the number of bytes behind it. */
  function Start(s: Heap, ptr: Ptr): int
    requires Live(s, ptr)
  {
    match ptr
    case Chunk(z, k) => if s.zones[z].chunk > 0 then ChunkStart(z, k, s.zones[z].chunk) else 0
    case Pages(p) => p * PAGE
  }

  function Length(s: Heap, ptr: Ptr): int
    requires Live(s, ptr)
  {
    match ptr
    case Chunk(z, k) => s.zones[z].chunk
    case Pages(p) => s.held[p] * PAGE
  }

  /** The run of pages a pointer lies in. */
  function Home(ptr: Ptr): nat {
    match ptr case Chunk(z, k) => z case Pages(p) => p
  }

  /** A live allocation lies inside its run of pages, a chunk behind the zone header. */
  lemma InsideHome(s: Heap, ptr: Ptr)
    requires HeapOk(s) && Live(s, ptr)
    ensures Home(ptr) in s.held && Length(s, ptr) > 0
    ensures Home(ptr) * PAGE <= Start(s, ptr)
    ensures Start(s, ptr) + Length(s, ptr) <= (Home(ptr) + s.held[Home(ptr)]) * PAGE
  {
    match ptr
    case Chunk(z, k) => ChunkInHome(s, z, k);
    case Pages(p) => Distribute(p, s.held[p]);
  }

  lemma ChunkInHome(s: Heap, z: nat, k: nat)
    requires ZonesOk(s) && UsageBut(s, -1) && z in s.zones && k <= s.zones[z].uindex
    ensures z in s.held && s.held[z] == s.zonePages && s.zones[z].chunk > 0
    ensures z * PAGE <= ChunkStart(z, k, s.zones[z].chunk)
    ensures ChunkStart(z, k, s.zones[z].chunk) + s.zones[z].chunk <= (z + s.zonePages) * PAGE
  {
    assert Zoned(s, z) && ZoneUsage(s, z);
    assert ZoneOk(s.zonePages, s.zones[z]);
    ChunkInside(s.zonePages, s.zones[z].chunk, z, k);
  }

  lemma Distribute(a: nat, b: nat)
    ensures (a + b) * PAGE == a * PAGE + b * PAGE
  {
  }

  lemma ChunkInside(zonePages: nat, c: nat, z: nat, k: nat)
    requires c >= 8 && k < Capacity(zonePages, c)
    ensures z * PAGE + ZONE_HEADER <= ChunkStart(z, k, c)
    ensures ChunkStart(z, k, c) + c <= (z + zonePages) * PAGE
  {
    OffsetBound(c);
    CapacityRoom(zonePages, c);
    ChunkFits(Offset(c), k, c, Capacity(zonePages, c), ZoneSize(zonePages));
    Distribute(z, zonePages);
  }

  lemma ChunkFits(off: nat, k: nat, c: nat, n: nat, total: nat)
    requires k < n && n * c <= total - off
    ensures 0 <= k * c && off + k * c + c <= total
  {
    ChunksApart(c, k, n);
  }

  lemma CapacityRoom(zonePages: nat, c: nat)
    requires c >= 8 && Capacity(zonePages, c) >= 1
    ensures Capacity(zonePages, c) * c <= ZoneSize(zonePages) - Offset(c)
  {
    var room := ZoneSize(zonePages) - Offset(c);
    var q := room / c;
    assert room == c * q + room % c;
    assert q * c == c * q;
  }

  /** Live allocations never overlap. */
  lemma LiveApart(s: Heap, p: Ptr, q: Ptr)
    requires HeapOk(s) && Live(s, p) && Live(s, q) && p != q
    ensures Start(s, p) + Length(s, p) <= Start(s, q) || Start(s, q) + Length(s, q) <= Start(s, p)
  {
    InsideHome(s, p);
    InsideHome(s, q);
    var a, b := Home(p), Home(q);
    if a != b {
      assert Disjoint(a, s.held[a], b, s.held[b]);
      RunsApart(a, s.held[a], b);
      RunsApart(b, s.held[b], a);
    } else if p.Chunk? && q.Chunk? {
      if p.k < q.k { ChunksApart(s.zones[a].chunk, p.k, q.k); } else { ChunksApart(s.zones[a].chunk, q.k, p.k); }
    }
  }

  lemma RunsApart(a: nat, n: nat, b: nat)
    ensures a + n <= b ==> (a + n) * PAGE <= b * PAGE
  {
  }

  lemma ChunksApart(c: nat, i: nat, j: nat)
    requires i < j
    ensures i * c + c <= j * c
  {
    Scale(c, i + 1, j);
    assert c * (i + 1) == i * c + c && c * j == j * c;
  }

  /** btokup finds the zone of a live chunk: the page its first byte lies on says how many
      pages the zone starts before it. */
  lemma LookupFindsZone(s: Heap, z: nat, k: nat)
    requires HeapOk(s) && Live(s, Chunk(z, k))
    ensures var page := Start(s, Chunk(z, k)) / PAGE;
      page in s.usage && s.usage[page].Small? && page - s.usage[page].off == z
  {
    InsideHome(s, Chunk(z, k));
    assert Zoned(s, z) && ZoneUsage(s, z);
    var page := Start(s, Chunk(z, k)) / PAGE;
    assert z <= page < z + s.zonePages;
  }

  /** A live pointer stays where it is and as long as it was. */
  predicate Stays(s: Heap, s1: Heap, q: Ptr)
    requires Live(s, q)
  {
    Live(s1, q) && Start(s1, q) == Start(s, q) && Length(s1, q) == Length(s, q)
  }

  /** rt_malloc grants at least the bytes asked for, and moves or resizes no other allocation. */
  lemma MallocRoom(s: Heap, n: nat, q: Ptr)
    requires HeapOk(s)
    ensures var (s1, r) := AfterMalloc(s, n);
      && (r.Some? ==> Live(s1, r.value) && Length(s1, r.value) >= n)
      && (Live(s, q) ==> Stays(s, s1, q))
  {
    MallocOk(s, n);
    if n == 0 {
    } else if n >= Limit(s.zonePages) {
      LargeRoom(s, n, q);
    } else {
      ClassFits(n);
      LimitIsClass(s.zonePages, n);
      SmallRoom(s, ClassOf(n), ChunkOf(n), q);
    }
  }

  lemma LargeRoom(s: Heap, n: nat, q: Ptr)
    requires HeapOk(s) && n > 0
    ensures var (s1, r) := MallocLarge(s, PagesFor(n));
      && (r.Some? ==> Live(s1, r.value) && Length(s1, r.value) >= n)
      && (Live(s, q) ==> Stays(s, s1, q))
  {
    PagesRoom(n);
    MallocLargeOk(s, PagesFor(n));
    if FirstFit(s.pages, PagesFor(n)).Some? { TakePagesOk(s.pages, s.held, PagesFor(n)); }
  }

  lemma PagesRoom(n: nat)
    ensures PagesFor(n) * PAGE >= n
  {
  }

  lemma SmallRoom(s: Heap, zi: nat, size: nat, q: Ptr)
    requires HeapOk(s) && zi < NZONES && size == SizeOf(zi) >= 8
    requires MallocSmall(s, zi, size).1.Some? ==> Live(MallocSmall(s, zi, size).0, MallocSmall(s, zi, size).1.value)
    requires Live(s, q) ==> Live(MallocSmall(s, zi, size).0, q)
    ensures var (s1, r) := MallocSmall(s, zi, size);
      && (r.Some? ==> Length(s1, r.value) == size)
      && (Live(s, q) ==> Stays(s, s1, q))
  {
    if s.lists[zi] != [] {
      HeadHasRoom(s, zi);
    } else if s.spare != [] {
      assert Zoned(s, s.spare[0]);
      assert s.spare[0] in s.spare;
    } else if FirstFit(s.pages, s.zonePages).Some? {
      var z := FirstFit(s.pages, s.zonePages).value;
      TakePagesOk(s.pages, s.held, s.zonePages);
      assert z in s.zones ==> Zoned(s, z) && ZoneUsage(s, z);
    }
  }

  ghost predicate RunFree(l: Runs, n: nat) {
    exists a: nat :: AllFree(l, a, n)
  }

  lemma FitIffRunFree(l: Runs, n: nat)
    requires Ascending(l) && n > 0
    ensures FirstFit(l, n).Some? <==> RunFree(l, n)
  {
    TakenOk(l, n);
    if RunFree(l, n) {
      var a: nat :| AllFree(l, a, n);
      FirstFitIsLowest(l, n, a);
    }
  }

  ghost predicate ClassHasRoom(s: Heap, zi: int) {
    exists z :: z in s.zones && s.zones[z].index == zi && s.zones[z].nfree > 0
  }

  /** rt_malloc of `n > 0` bytes fails exactly when nothing can serve it: for a small request no
      zone of its class has a free chunk, no zone is spare and no zone's worth of consecutive
      pages is free; for a large one there are not enough consecutive free pages. */
  lemma MallocFailsIff(s: Heap, n: nat)
    requires HeapOk(s) && n > 0
    ensures n >= Limit(s.zonePages) ==> (AfterMalloc(s, n).1.Some? <==> RunFree(s.pages, PagesFor(n)))
    ensures n < Limit(s.zonePages) ==>
      (AfterMalloc(s, n).1.Some? <==> ClassHasRoom(s, ClassOf(n)) || s.spare != [] || RunFree(s.pages, s.zonePages))
  {
    if n >= Limit(s.zonePages) {
      FitIffRunFree(s.pages, PagesFor(n));
    } else {
      ClassFits(n);
      var zi := ClassOf(n);
      FitIffRunFree(s.pages, s.zonePages);
      assert ListOk(s.lists[zi], s.zones, zi);
      if s.lists[zi] != [] { HeadHasRoom(s, zi); }
      if ClassHasRoom(s, zi) {
        var z :| z in s.zones && s.zones[z].index == zi && s.zones[z].nfree > 0;
        assert z in s.lists[zi];
      }
    }
  }

  /** The zones and runs two heaps have in common are laid out alike. */
  ghost predicate SameShape(s: Heap, s1: Heap) {
    && (forall z :: z in s.zones && z in s1.zones ==> s1.zones[z].chunk == s.zones[z].chunk)
    && (forall p :: p in s.held && p in s1.held ==> s1.held[p] == s.held[p])
  }

  lemma ShapeStays(s: Heap, s1: Heap, q: Ptr)
    requires SameShape(s, s1) && Live(s, q) && Live(s1, q)
    ensures Stays(s, s1, q)
  {
  }

  lemma FreeShape(s: Heap, ptr: Ptr)
    requires ptr.Chunk? ==> ptr.z in s.zones && s.zones[ptr.z].index < |s.lists|
    ensures SameShape(s, AfterFree(s, ptr))
  {
  }

  /** rt_free moves or resizes no other allocation. */
  lemma FreeStays(s: Heap, ptr: Ptr, q: Ptr)
    requires HeapOk(s) && Live(s, ptr) && Live(s, q) && q != ptr
    ensures ptr.Chunk? ==> s.zones[ptr.z].index < |s.lists|
    ensures Stays(s, AfterFree(s, ptr), q)
  {
    FreeOk(s, ptr);
    FreeShape(s, ptr);
    ShapeStays(s, AfterFree(s, ptr), q);
  }

  // ------------------------------------------------------------------ realloc

  /** Allocate, copy, free. */
  ghost function Moved(s: Heap, ptr: Ptr, n: nat): (Heap, Option<Ptr>)
    requires HeapOk(s) && Live(s, ptr)
  {
    MallocOk(s, n);
    var (s1, r) := AfterMalloc(s, n);
    if r.None? then (s1, None) else
      FreeOk(s1, ptr);
      (AfterFree(s1, ptr), r)
  }

  /** rt_realloc */
  ghost function AfterRealloc(s: Heap, ptr: Option<Ptr>, n: nat): (Heap, Option<Ptr>)
    requires HeapOk(s) && (ptr.Some? ==> Live(s, ptr.value))
  {
    if ptr.None? then AfterMalloc(s, n)
    else if n == 0 then
      FreeOk(s, ptr.value);
      (AfterFree(s, ptr.value), None)
    else match ptr.value
      case Pages(p) => Moved(s, ptr.value, n)
      case Chunk(z, k) =>
        var size := if n < CLASS_LIMIT then ChunkOf(n) else n;
        if s.zones[z].chunk == size then (s, ptr) else Moved(s, ptr.value, size)
  }

  /** The old pointer goes and the new one comes; what rt_realloc copies lies inside both. */
  lemma MovedOk(s: Heap, ptr: Ptr, n: nat)
    requires HeapOk(s) && Live(s, ptr) && n > 0
    ensures var (s1, r) := Moved(s, ptr, n);
      && HeapOk(s1) && (r.None? ==> s1 == s)
      && (r.Some? ==>
            && !Live(s, r.value) && r.value != ptr && Live(s1, r.value) && Length(s1, r.value) >= n
            && !Live(s1, ptr))
      && (forall q :: r.Some? && q != ptr && q != r.value ==> (Live(s1, q) <==> Live(s, q)))
  {
    MallocOk(s, n);
    var (s1, r) := AfterMalloc(s, n);
    if r.Some? {
      FreeOk(s1, ptr);
      MallocRoom(s, n, ptr);
      FreeStays(s1, ptr, r.value);
    }
  }

  /** The bytes rt_realloc copies, the smaller of both sizes, lie inside the old and the new
      allocation, which do not overlap while both are live. */
  lemma CopyFits(s: Heap, ptr: Ptr, n: nat)
    requires HeapOk(s) && Live(s, ptr) && AfterMalloc(s, n).1.Some?
    ensures var (s1, r) := AfterMalloc(s, n);
      var copied := if n > Length(s, ptr) then Length(s, ptr) else n;
      && Live(s1, ptr) && Live(s1, r.value) && Start(s1, ptr) == Start(s, ptr)
      && copied <= Length(s1, r.value) && copied <= Length(s1, ptr)
      && (Start(s1, ptr) + Length(s1, ptr) <= Start(s1, r.value)
        || Start(s1, r.value) + Length(s1, r.value) <= Start(s1, ptr))
  {
    MallocOk(s, n);
    MallocRoom(s, n, ptr);
    LiveApart(AfterMalloc(s, n).0, ptr, AfterMalloc(s, n).1.value);
  }

  /** rt_realloc: a failed call with a non-zero size changes nothing, a successful one leaves
      exactly the returned pointer live instead of the old one. */
  lemma ReallocOk(s: Heap, ptr: Option<Ptr>, n: nat)
    requires HeapOk(s) && (ptr.Some? ==> Live(s, ptr.value))
    ensures var (s1, r) := AfterRealloc(s, ptr, n);
      && HeapOk(s1) && (n == 0 ==> r.None?) && (n != 0 && r.None? ==> s1 == s)
      && (r.Some? ==> Live(s1, r.value) && Length(s1, r.value) >= n)
        && (ptr.Some? && ptr != r && (n == 0 || r.Some?) ==> !Live(s1, ptr.value))
      && (forall q :: Some(q) != ptr && Some(q) != r ==> (Live(s1, q) <==> Live(s, q)))
  {
    if ptr.None? {
      MallocOk(s, n);
      MallocRoom(s, n, Pages(0));
    } else {
      if n == 0 {
        FreeOk(s, ptr.value);
      } else {
        MovedOk(s, ptr.value, n);
        if n < CLASS_LIMIT {
          ClassFits(n);
          MovedOk(s, ptr.value, ChunkOf(n));
        }
      }
    }
  }

  // ------------------------------------------------------------------ whole runs

  datatype Op = MallocOp(n: nat) | FreeOp(ptr: Ptr) | ReallocOp(block: Option<Ptr>, n: nat)

  /** Freeing a pointer that is not live is a caller's error and out of scope. */
  ghost function Step(s: Heap, op: Op): (r: Heap)
    requires HeapOk(s)
  {
    match op
    case MallocOp(n) => AfterMalloc(s, n).0
    case FreeOp(ptr) => if Live(s, ptr) then FreeOk(s, ptr); AfterFree(s, ptr) else s
    case ReallocOp(ptr, n) => if ptr.Some? && !Live(s, ptr.value) then s else AfterRealloc(s, ptr, n).0
  }

  lemma StepInv(s: Heap, op: Op)
    requires HeapOk(s)
    ensures HeapOk(Step(s, op))
  {
    match op
    case MallocOp(n) => MallocOk(s, n);
    case FreeOp(ptr) => if Live(s, ptr) { FreeOk(s, ptr); }
    case ReallocOp(ptr, n) => if ptr.Some? ==> Live(s, ptr.value) { ReallocOk(s, ptr, n); }
  }

  ghost function Exec(s: Heap, ops: seq<Op>): (r: Heap)
    requires HeapOk(s)
    ensures HeapOk(r)
    decreases |ops|
  {
    if ops == [] then s else StepInv(s, ops[0]); Exec(Step(s, ops[0]), ops[1..])
  }

  lemma FreshInv(npages: nat, zonePages: nat)
    requires npages > 0 && ZonePages(zonePages)
    ensures HeapOk(Fresh(npages, zonePages))
  {
    var s0 := Fresh(npages, zonePages);
    assert [Run(0, npages)][1..] == [];
    assert PagesFor(USAGE_ENTRY * npages) > 0;
    TakenOk([Run(0, npages)], PagesFor(USAGE_ENTRY * npages));
    forall i | 0 <= i < NZONES ensures ListOk(s0.lists[i], s0.zones, i) {}
  }

  /** Over every run of malloc, realloc and free: zone counters match, every class list holds exactly
      the zones of its class with a free chunk, at most two zones are spare, and live
      allocations never overlap. */
  lemma SlabCoherent(npages: nat, zonePages: nat, ops: seq<Op>, p: Ptr, q: Ptr)
    requires npages > 0 && ZonePages(zonePages)
    ensures HeapOk(Fresh(npages, zonePages))
    ensures var s := Exec(Fresh(npages, zonePages), ops);
      && ZonesOk(s) && ListsOk(s) && SpareOk(s)
      && (Live(s, p) && Live(s, q) && p != q ==>
            Start(s, p) + Length(s, p) <= Start(s, q) || Start(s, q) + Length(s, q) <= Start(s, p))
  {
    FreshInv(npages, zonePages);
    var s := Exec(Fresh(npages, zonePages), ops);
    if Live(s, p) && Live(s, q) && p != q { LiveApart(s, p, q); }
  }

  // ------------------------------------------------------------- where the pages are

  /** Page `x` belongs to the run of pages taken at `p`. */
  predicate InRun(held: map<nat, nat>, p: nat, x: int) {
    p in held && p <= x < p + held[p]
  }

  ghost predicate InHeld(held: map<nat, nat>, x: int) {
    exists p: nat :: InRun(held, p, x)
  }

  ghost predicate Accounted(pages: Runs, held: map<nat, nat>, x: int) {
    Has(pages, x) || InHeld(held, x)
  }

  /** The pages on the page list and in the runs taken are together the same. */
  ghost predicate SamePages(s: Heap, s1: Heap) {
    forall x :: Accounted(s1.pages, s1.held, x) <==> Accounted(s.pages, s.held, x)
  }

  lemma TakeKeepsPages(pages: Runs, held: map<nat, nat>, n: nat)
    requires PagesOk(pages, held) && n > 0 && FirstFit(pages, n).Some?
    ensures var p := FirstFit(pages, n).value;
      forall x :: Accounted(Taken(pages, n), held[p := n], x) <==> Accounted(pages, held, x)
  {
    var p := FirstFit(pages, n).value;
    var pages1, held1 := Taken(pages, n), held[p := n];
    TakenOk(pages, n);
    TakePagesOk(pages, held, n);
    forall x ensures Accounted(pages1, held1, x) <==> Accounted(pages, held, x) {
      forall q: nat ensures InRun(held1, q, x) <==> InRun(held, q, x) || (q == p && p <= x < p + n) {}
      if p <= x < p + n { assert InRun(held1, p, x); }
    }
  }

  lemma DropKeepsPages(pages: Runs, held: map<nat, nat>, p: nat)
    requires PagesOk(pages, held) && p in held
    ensures forall x :: Accounted(Returned(pages, p, held[p]), held - {p}, x) <==> Accounted(pages, held, x)
    ensures AllFree(Returned(pages, p, held[p]), p, held[p])
  {
    var pages1, held1 := Returned(pages, p, held[p]), held - {p};
    ReturnedOk(pages, p, held[p]);
    forall x ensures Accounted(pages1, held1, x) <==> Accounted(pages, held, x) {
      forall q: nat ensures InRun(held, q, x) <==> InRun(held1, q, x) || (q == p && p <= x < p + held[p]) {}
      if p <= x < p + held[p] { assert InRun(held, p, x); }
    }
  }

  lemma MallocKeepsPages(s: Heap, n: nat)
    requires HeapOk(s)
    ensures SamePages(s, AfterMalloc(s, n).0)
  {
    if 0 < n < Limit(s.zonePages) {
      if FirstFit(s.pages, s.zonePages).Some? { TakeKeepsPages(s.pages, s.held, s.zonePages); }
    } else if n > 0 && FirstFit(s.pages, PagesFor(n)).Some? {
      TakeKeepsPages(s.pages, s.held, PagesFor(n));
    }
  }

  lemma FreeChunkKeepsPages(s: Heap, z: nat, k: nat)
    requires HeapOk(s) && Live(s, Chunk(z, k))
    ensures s.zones[z].index < |s.lists| && SamePages(s, FreeChunk(s, z, k))
  {
    ChunkBackOk(s, z, k);
    var s1 := ChunkBack(s, z, k);
    if s1.zones[z].nfree == s1.zones[z].nmax && NotAlone(s1.lists[s1.zones[z].index], z) {
      RetiredOk(s1, z);
      ZoneUsageOf(s, z);
      DropKeepsPages(s.pages, s.held, z);
    }
  }

  lemma ZoneUsageOf(s: Heap, z: nat)
    requires UsageBut(s, -1) && z in s.zones
    ensures z in s.held && s.held[z] == s.zonePages
  {
    assert Zoned(s, z) && ZoneUsage(s, z);
  }

  lemma FreeKeepsPages(s: Heap, ptr: Ptr)
    requires HeapOk(s) && Live(s, ptr)
    ensures ptr.Chunk? ==> s.zones[ptr.z].index < |s.lists|
    ensures SamePages(s, AfterFree(s, ptr))
  {
    match ptr
    case Chunk(z, k) => FreeChunkKeepsPages(s, z, k);
    case Pages(p) =>
      assert LargeUsage(s, p);
      DropKeepsPages(s.pages, s.held, p);
  }

  lemma MovedKeepsPages(s: Heap, ptr: Ptr, n: nat)
    requires HeapOk(s) && Live(s, ptr)
    ensures SamePages(s, Moved(s, ptr, n).0)
  {
    MallocOk(s, n);
    MallocKeepsPages(s, n);
    var (s1, r) := AfterMalloc(s, n);
    if r.Some? { FreeKeepsPages(s1, ptr); }
  }

  lemma ReallocKeepsPages(s: Heap, ptr: Option<Ptr>, n: nat)
    requires HeapOk(s) && (ptr.Some? ==> Live(s, ptr.value))
    ensures SamePages(s, AfterRealloc(s, ptr, n).0)
  {
    if ptr.None? {
      MallocKeepsPages(s, n);
    } else if n == 0 {
      FreeKeepsPages(s, ptr.value);
    } else {
      MovedKeepsPages(s, ptr.value, n);
      if n < CLASS_LIMIT { MovedKeepsPages(s, ptr.value, ChunkOf(n)); }
    }
  }

  lemma StepKeepsPages(s: Heap, op: Op)
    requires HeapOk(s)
    ensures SamePages(s, Step(s, op))
  {
    match op
    case MallocOp(n) => MallocKeepsPages(s, n);
    case FreeOp(ptr) => if Live(s, ptr) { FreeKeepsPages(s, ptr); }
    case ReallocOp(ptr, n) => if ptr.Some? ==> Live(s, ptr.value) { ReallocKeepsPages(s, ptr, n); }
  }

  lemma {:induction false} ExecKeepsPages(s: Heap, ops: seq<Op>)
    requires HeapOk(s)
    ensures SamePages(s, Exec(s, ops))
    decreases |ops|
  {
    if ops != [] {
      StepInv(s, ops[0]);
      StepKeepsPages(s, ops[0]);
      ExecKeepsPages(Step(s, ops[0]), ops[1..]);
    }
  }

  /** What a page is used for: it is free, or lies in a zone, a spare zone or a live large
      allocation. */
  ghost predicate Placed(s: Heap, x: int) {
    Has(s.pages, x) || exists p: nat :: InRun(s.held, p, x) && (p in s.zones || p in s.spare || Live(s, Ptr.Pages(p)))
  }

  /** Over every run no page is lost and none is in two places: each page behind the memusage table
      is on the page list or in exactly one run that a zone, a spare zone or a live large
      allocation has, and no other page is. */
  lemma PagesAccounted(npages: nat, zonePages: nat, ops: seq<Op>, x: int)
    requires npages > 0 && ZonePages(zonePages) && PagesFor(USAGE_ENTRY * npages) <= npages
    ensures HeapOk(Fresh(npages, zonePages))
    ensures var s := Exec(Fresh(npages, zonePages), ops);
      && (Placed(s, x) <==> PagesFor(USAGE_ENTRY * npages) <= x < npages)
      && (forall p: nat :: InRun(s.held, p, x) ==> !Has(s.pages, x))
      && (forall p: nat, q: nat :: InRun(s.held, p, x) && InRun(s.held, q, x) ==> p == q)
  {
    FreshInv(npages, zonePages);
    var s0, tbl := Fresh(npages, zonePages), PagesFor(USAGE_ENTRY * npages);
    var s := Exec(s0, ops);
    ExecKeepsPages(s0, ops);
    FreshPages(npages, tbl, x);
    assert Accounted(s.pages, s.held, x) <==> Accounted(s0.pages, s0.held, x);
    assert forall p: nat :: !InRun(s0.held, p, x);
    forall p: nat | InRun(s.held, p, x) ensures p in s.zones || p in s.spare || Live(s, Ptr.Pages(p)) {}
    RunsDisjoint(s.pages, s.held, x);
  }

  lemma FreshPages(npages: nat, n: nat, x: int)
    requires 0 < n <= npages
    ensures Has(Taken([Run(0, npages)], n), x) <==> n <= x < npages
  {
    assert [Run(0, npages)][1..] == [];
  }

  lemma RunsDisjoint(pages: Runs, held: map<nat, nat>, x: int)
    requires PagesOk(pages, held)
    ensures forall p: nat :: InRun(held, p, x) ==> !Has(pages, x)
    ensures forall p: nat, q: nat :: InRun(held, p, x) && InRun(held, q, x) ==> p == q
  {
    forall p: nat, q: nat | InRun(held, p, x) && InRun(held, q, x) ensures p == q {
      assert p != q ==> Disjoint(p, held[p], q, held[q]);
    }
  }

  /** After a large allocation was freed all its pages are on the page list, and its size, or any
      smaller one that is still large, can be allocated again. */
  lemma FreedPagesAgain(s: Heap, p: nat, n: nat)
    requires HeapOk(s) && Live(s, Ptr.Pages(p))
    ensures var s1 := AfterFree(s, Ptr.Pages(p));
      && (forall x :: p * PAGE <= x * PAGE < p * PAGE + Length(s, Ptr.Pages(p)) ==> Has(s1.pages, x))
      && (Limit(s.zonePages) <= n <= Length(s, Ptr.Pages(p)) ==> AfterMalloc(s1, n).1.Some?)
  {
    var s1 := AfterFree(s, Ptr.Pages(p));
    FreeOk(s, Ptr.Pages(p));
    assert LargeUsage(s, p);
    DropKeepsPages(s.pages, s.held, p);
    if Limit(s.zonePages) <= n <= Length(s, Ptr.Pages(p)) {
      assert PagesFor(n) <= s.held[p];
      assert AllFree(s1.pages, p, PagesFor(n));
      MallocFailsIff(s1, n);
    }
  }

  // ------------------------------------------------------------- what memusage says

  /** The entry of page `x` speaks of a run that is taken: a zone or spare zone the page lies in, or a
      large allocation of that length that starts with it. */
  predicate EntryTrue(s: Heap, x: nat, u: Usage) {
    match u
    case Unused => true
    case Small(off) => off < s.zonePages && off <= x && Zoned(s, x - off)
    case Large(n) => n > 0 ==> x in s.held && s.held[x] == n && !Zoned(s, x)
  }

  /** No entry is left over from a run that was given back. */
  ghost predicate UsageTrue(s: Heap) {
    forall x :: x in s.usage ==> EntryTrue(s, x, s.usage[x])
  }

  lemma SameZonesTrue(s: Heap, s1: Heap)
    requires UsageTrue(s) && s1.usage == s.usage && s1.held == s.held && s1.zonePages == s.zonePages
    requires forall y: nat :: Zoned(s1, y) <==> Zoned(s, y)
    ensures UsageTrue(s1)
  {
    forall x | x in s1.usage ensures EntryTrue(s1, x, s1.usage[x]) { assert EntryTrue(s, x, s.usage[x]); }
  }

  lemma LargeTrue(s: Heap, p: nat, n: nat)
    requires UsageTrue(s) && p !in s.held && !Zoned(s, p)
    ensures UsageTrue(TakePages(s, p, n).(usage := s.usage[p := Large(n)]))
  {
    var s1 := TakePages(s, p, n).(usage := s.usage[p := Large(n)]);
    forall y: nat ensures Zoned(s1, y) <==> Zoned(s, y) {}
    forall x | x in s1.usage ensures EntryTrue(s1, x, s1.usage[x]) {
      if x != p { assert EntryTrue(s, x, s.usage[x]); }
    }
  }

  /** Pages `z` and following were taken and made a zone. */
  lemma ZoneTrue(s: Heap, s1: Heap, z: nat)
    requires UsageTrue(s) && z !in s.held && s1.zonePages == s.zonePages
    requires s1.held == s.held[z := s.zonePages] && s1.usage == MarkSmall(s.usage, z, s.zonePages)
    requires forall y: nat :: Zoned(s1, y) <==> Zoned(s, y) || y == z
    ensures UsageTrue(s1)
  {
    forall x | x in s1.usage ensures EntryTrue(s1, x, s1.usage[x]) {
      if !(z <= x < z + s.zonePages) { assert EntryTrue(s, x, s.usage[x]); }
    }
  }

  lemma ReleasedTrue(s: Heap)
    requires UsageTrue(s) && s.spare != [] && W.NoDup(s.spare) && s.spare[0] !in s.zones
    ensures UsageTrue(Released(s))
  {
    var z, s1 := s.spare[0], Released(s);
    PopFirst(s.spare);
    assert Zoned(s, z);
    forall y: nat ensures Zoned(s1, y) <==> Zoned(s, y) && y != z {}
    MarkedUnused(s.usage, z, s.zonePages);
    forall x | x in s1.usage ensures EntryTrue(s1, x, s1.usage[x]) {
      if !(z <= x < z + s.zonePages) { assert EntryTrue(s, x, s.usage[x]); }
    }
  }

  lemma {:induction false} MarkedUnused(usage: map<nat, Usage>, z: nat, n: nat)
    ensures forall x :: z <= x < z + n ==> x in MarkUnused(usage, z, n) && MarkUnused(usage, z, n)[x] == Unused
  {
    if n > 0 { MarkedUnused(usage, z, n - 1); }
  }

  lemma FreedTrue(s: Heap, p: nat)
    requires UsageTrue(s) && LargeUsage(s, p)
    ensures UsageTrue(FreePages(s, p))
  {
    var s1 := FreePages(s, p);
    forall y: nat ensures Zoned(s1, y) <==> Zoned(s, y) {}
    forall x | x in s1.usage ensures EntryTrue(s1, x, s1.usage[x]) {
      if x != p { assert EntryTrue(s, x, s.usage[x]); }
    }
  }

  lemma MallocTrue(s: Heap, n: nat)
    requires HeapOk(s) && UsageTrue(s)
    ensures UsageTrue(AfterMalloc(s, n).0)
  {
    if n == 0 {
    } else if n >= Limit(s.zonePages) {
      if FirstFit(s.pages, PagesFor(n)).Some? {
        var p := FirstFit(s.pages, PagesFor(n)).value;
        TakePagesOk(s.pages, s.held, PagesFor(n));
        assert Zoned(s, p) ==> ZoneUsage(s, p);
        LargeTrue(s, p, PagesFor(n));
      }
    } else {
      ClassFits(n);
      LimitIsClass(s.zonePages, n);
      SmallTrue(s, ClassOf(n), ChunkOf(n));
    }
  }

  lemma SmallTrue(s: Heap, zi: nat, size: nat)
    requires HeapOk(s) && UsageTrue(s) && zi < NZONES && size > 0
    ensures UsageTrue(MallocSmall(s, zi, size).0)
  {
    var s1 := MallocSmall(s, zi, size).0;
    if s.lists[zi] != [] {
      HeadHasRoom(s, zi);
      SameZonesTrue(s, s1);
    } else if s.spare != [] {
      PopFirst(s.spare);
      forall y: nat ensures Zoned(s1, y) <==> Zoned(s, y) {}
      SameZonesTrue(s, s1);
    } else if FirstFit(s.pages, s.zonePages).Some? {
      var z := FirstFit(s.pages, s.zonePages).value;
      TakePagesOk(s.pages, s.held, s.zonePages);
      ZoneTrue(s, s1, z);
    }
  }

  lemma FreeTrue(s: Heap, ptr: Ptr)
    requires HeapOk(s) && Live(s, ptr) && UsageTrue(s)
    ensures ptr.Chunk? ==> s.zones[ptr.z].index < |s.lists|
    ensures UsageTrue(AfterFree(s, ptr))
  {
    match ptr
    case Pages(p) =>
      assert LargeUsage(s, p);
      FreedTrue(s, p);
    case Chunk(z, k) => FreeChunkTrue(s, z, k);
  }

  lemma FreeChunkTrue(s: Heap, z: nat, k: nat)
    requires HeapOk(s) && Live(s, Chunk(z, k)) && UsageTrue(s)
    ensures s.zones[z].index < |s.lists| && UsageTrue(FreeChunk(s, z, k))
  {
    ChunkBackOk(s, z, k);
    var s1 := ChunkBack(s, z, k);
    BackTrue(s, z, k);
    if s1.zones[z].nfree == s1.zones[z].nmax && NotAlone(s1.lists[s1.zones[z].index], z) {
      RetiredTrue(s1, z);
      if |Retired(s1, z).spare| > RELEASE_THRESHOLD { ReleasedTrue(Retired(s1, z)); }
    }
  }

  lemma BackTrue(s: Heap, z: nat, k: nat)
    requires UsageTrue(s) && z in s.zones && s.zones[z].index < |s.lists|
    ensures UsageTrue(ChunkBack(s, z, k))
  {
    var s1 := ChunkBack(s, z, k);
    forall y: nat ensures Zoned(s1, y) <==> Zoned(s, y) {}
    SameZonesTrue(s, s1);
  }

  lemma RetiredTrue(s: Heap, z: nat)
    requires HeapOk(s) && UsageTrue(s) && z in s.zones && s.zones[z].nfree == s.zones[z].nmax
    ensures s.zones[z].index < |s.lists| && UsageTrue(Retired(s, z)) && HeapOkSpare(Retired(s, z))
  {
    RetiredOk(s, z);
    forall y: nat ensures Zoned(Retired(s, z), y) <==> Zoned(s, y) {}
    SameZonesTrue(s, Retired(s, z));
  }

  lemma MovedTrue(s: Heap, ptr: Ptr, n: nat)
    requires HeapOk(s) && Live(s, ptr) && UsageTrue(s)
    ensures UsageTrue(Moved(s, ptr, n).0)
  {
    MallocOk(s, n);
    MallocTrue(s, n);
    var (s1, r) := AfterMalloc(s, n);
    if r.Some? { FreeTrue(s1, ptr); }
  }

  lemma StepTrue(s: Heap, op: Op)
    requires HeapOk(s) && UsageTrue(s)
    ensures UsageTrue(Step(s, op))
  {
    match op
    case MallocOp(n) => MallocTrue(s, n);
    case FreeOp(ptr) => if Live(s, ptr) { FreeTrue(s, ptr); }
    case ReallocOp(ptr, n) =>
      if ptr.None? { MallocTrue(s, n); }
      else if Live(s, ptr.value) {
        if n == 0 { FreeTrue(s, ptr.value); }
        else {
          MovedTrue(s, ptr.value, n);
          if n < CLASS_LIMIT { MovedTrue(s, ptr.value, ChunkOf(n)); }
        }
      }
  }

  lemma {:induction false} ExecTrue(s: Heap, ops: seq<Op>)
    requires HeapOk(s) && UsageTrue(s)
    ensures UsageTrue(Exec(s, ops))
    decreases |ops|
  {
    if ops != [] {
      StepInv(s, ops[0]);
      StepTrue(s, ops[0]);
      ExecTrue(Step(s, ops[0]), ops[1..]);
    }
  }

  /** Over every run memusage tells the runs taken and nothing else: every page of a zone or spare zone
      says how far back it starts, the first page of a large allocation how long that is, and no entry
      speaks of a run that was given back. */
  lemma UsageTellsTheRuns(npages: nat, zonePages: nat, ops: seq<Op>)
    requires npages > 0 && ZonePages(zonePages)
    ensures HeapOk(Fresh(npages, zonePages))
    ensures var s := Exec(Fresh(npages, zonePages), ops);
      && (forall z :: Zoned(s, z) ==> ZoneUsage(s, z))
      && (forall p :: Live(s, Ptr.Pages(p)) ==> LargeUsage(s, p))
      && forall x :: x in s.usage ==> EntryTrue(s, x, s.usage[x])
  {
    FreshInv(npages, zonePages);
    ExecTrue(Fresh(npages, zonePages), ops);
  }

  // ------------------------------------------------------------- what happens to zones

  /** Chunk `k` is the only live one of zone `z`. */
  ghost predicate OnlyLive(s: Heap, z: nat, k: nat) {
    forall j :: j != k ==> !Live(s, Chunk(z, j))
  }

  /** Another zone of the class of zone `z` has a free chunk. */
  ghost predicate Backup(s: Heap, z: nat)
    requires z in s.zones
  {
    exists y :: y in s.zones && y != z && s.zones[y].index == s.zones[z].index && s.zones[y].nfree > 0
  }

  lemma {:induction false} CoversList(list: seq<nat>, n: nat)
    requires W.NoDup(list) && forall j :: 0 <= j < n ==> j in list
    ensures |list| >= n
    decreases n
  {
    if n > 0 {
      W.WithoutNoDup(list, n - 1);
      CoversList(W.Without(list, n - 1), n - 1);
    }
  }

  predicate Out(zone: Zone, j: nat) {
    j <= zone.uindex && j !in zone.freed
  }

  lemma LastOutIff(zonePages: nat, zone: Zone, k: nat)
    requires ZoneOk(zonePages, zone) && Out(zone, k)
    ensures zone.nfree + 1 == zone.nmax <==> forall j :: j != k ==> !Out(zone, j)
  {
    if zone.nfree + 1 == zone.nmax {
      forall j: nat | j != k && j <= zone.uindex ensures j in zone.freed {
        if j !in zone.freed { BoundedList([j, k] + zone.freed, zone.uindex + 1); }
      }
    } else if forall j :: j != k ==> !Out(zone, j) {
      forall j | 0 <= j < zone.uindex + 1 ensures j in [k] + zone.freed { assert j != k ==> !Out(zone, j); }
      CoversList([k] + zone.freed, zone.uindex + 1);
      BoundedList([k] + zone.freed, zone.uindex + 1);
    }
  }

  lemma NotAloneIff(list: seq<nat>, z: nat)
    requires W.NoDup(list) && z in list
    ensures NotAlone(list, z) <==> exists y :: y in list && y != z
  {
    if list[0] != z { assert list[0] in list; } else if list[|list| - 1] != z { assert list[|list| - 1] in list; }
  }

  /** When a free makes zone `z` a spare one or gives it back. */
  ghost predicate Retires(s: Heap, z: nat, k: nat)
    requires z in s.zones
  {
    OnlyLive(s, z, k) && Backup(s, z)
  }

  lemma RetiresIff(s: Heap, z: nat, k: nat)
    requires HeapOk(s) && Live(s, Chunk(z, k))
    ensures s.zones[z].index < |s.lists|
    ensures var s1 := ChunkBack(s, z, k);
      s1.zones[z].nfree == s1.zones[z].nmax && NotAlone(s1.lists[s1.zones[z].index], z) <==> Retires(s, z, k)
  {
    var zone := s.zones[z];
    ChunkBackOk(s, z, k);
    LastOutIff(s.zonePages, zone, k);
    assert OnlyLive(s, z, k) <==> forall j :: j != k ==> !Out(zone, j) by {
      forall j ensures Live(s, Chunk(z, j)) <==> Out(zone, j) {}
    }
    var s1 := ChunkBack(s, z, k);
    assert ListOk(s1.lists[zone.index], s1.zones, zone.index);
    NotAloneIff(s1.lists[zone.index], z);
  }

  /** A free keeps the zone of its chunk, with one more free chunk, unless that chunk was its last
      live one and another zone of the class has a free chunk. Then the zone becomes a spare one
      as long as there are at most two of them, and otherwise its pages go to the page list. */
  lemma FreeRetiresIff(s: Heap, z: nat, k: nat)
    requires HeapOk(s) && Live(s, Chunk(z, k))
    ensures s.zones[z].index < |s.lists|
    ensures var s1 := AfterFree(s, Chunk(z, k));
      && (z !in s1.zones <==> Retires(s, z, k))
      && (z in s1.zones ==>
            s1.zones[z].nfree == s.zones[z].nfree + 1 && s1.zones[z].index == s.zones[z].index && s1.spare == s.spare)
      && (z !in s1.zones ==>
            if |s.spare| < 2 then s1.spare == [z] + s.spare && s1.pages == s.pages
            else s1.spare == s.spare && AllFree(s1.pages, z, s.zonePages))
  {
    RetiresIff(s, z, k);
    ZoneUsageOf(s, z);
    if Retires(s, z, k) { DropKeepsPages(s.pages, s.held, z); }
  }

  /** After a chunk was freed, a request of its class can be served again. */
  lemma FreedChunkAgain(s: Heap, z: nat, k: nat, n: nat)
    requires HeapOk(s) && Live(s, Chunk(z, k)) && 0 < n < Limit(s.zonePages) && ChunkOf(n) == Length(s, Chunk(z, k))
    ensures s.zones[z].index < |s.lists|
    ensures AfterMalloc(AfterFree(s, Chunk(z, k)), n).1.Some?
  {
    FreeOk(s, Chunk(z, k));
    SameClass(s, z, n);
    FreeRetiresIff(s, z, k);
    MallocFailsIff(AfterFree(s, Chunk(z, k)), n);
  }

  lemma SameClass(s: Heap, z: nat, n: nat)
    requires ZonesOk(s) && ZonePages(s.zonePages) && z in s.zones && 0 < n < Limit(s.zonePages)
    requires ChunkOf(n) == s.zones[z].chunk
    ensures s.zones[z].index == ClassOf(n)
  {
    LimitIsClass(s.zonePages, n);
    ClassFits(n);
    var i, j := s.zones[z].index, ClassOf(n);
    if i < j { SizesAscend(i, j); } else if j < i { SizesAscend(j, i); }
  }

  /** A chunk freed in a zone that was full is the next one granted in its class, and granting it
      restores the heap. */
  lemma MallocUndoesFree(s: Heap, z: nat, k: nat, n: nat)
    requires HeapOk(s) && Live(s, Chunk(z, k)) && s.zones[z].nfree == 0
    requires 0 < n < Limit(s.zonePages) && ChunkOf(n) == Length(s, Chunk(z, k))
    ensures s.zones[z].index < |s.lists|
    ensures AfterMalloc(AfterFree(s, Chunk(z, k)), n) == (s, Some(Chunk(z, k)))
  {
    FreeOk(s, Chunk(z, k));
    SameClass(s, z, n);
    LimitIsClass(s.zonePages, n);
    var s1 := ChunkBack(s, z, k);
    assert ZoneOk(s.zonePages, s.zones[z]) && s1 == AfterFree(s, Chunk(z, k));
    TakeBack(s, s1, z, k);
  }

  lemma TakeBack(s: Heap, s1: Heap, z: nat, k: nat)
    requires z in s.zones && s.zones[z].index < |s.lists| && s.zones[z].nfree == 0
    requires s.zones[z].uindex + 1 == s.zones[z].nmax && s1 == ChunkBack(s, z, k)
    ensures s1.lists[s.zones[z].index] != [] && s1.lists[s.zones[z].index][0] == z
    ensures FromZone(s1, s.zones[z].index) == (s, Chunk(z, k))
  {
    var i, zone := s.zones[z].index, s.zones[z];
    assert ([k] + zone.freed)[1..] == zone.freed && ([z] + s.lists[i])[1..] == s.lists[i];
    assert s1.lists[i := s.lists[i]] == s.lists;
    assert WithoutNext(s1.zones[z]) == zone && s1.zones[z := zone] == s.zones;
  }

  // ------------------------------------------------------------- alignment of chunks

  predicate Power(c: nat) {
    c == 1 || (c > 1 && c % 2 == 0 && Power(c / 2))
  }

  lemma {:induction false} OrSelf(d: nat)
    ensures Words.Or(d, d) == d
  {
    if d > 0 { OrSelf(d / 2); }
  }

  /** The test of rt_malloc finds exactly the powers of two. */
  lemma {:induction false} PowerOfTwoIff(c: nat)
    requires c > 0
    ensures PowerOfTwo(c) <==> Power(c)
  {
    var d := c / 2;
    if c % 2 == 0 {
      assert (c - 1) / 2 == d - 1 && Words.Or(c, c - 1) == 2 * Words.Or(d, d - 1) + 1;
      PowerOfTwoIff(d);
    } else {
      assert (c - 1) / 2 == d && Words.Or(c, c - 1) == 2 * Words.Or(d, d) + 1;
      OrSelf(d);
    }
  }

  /** Chunks start at the first multiple of their size behind the header when that is a power of two,
      and otherwise at the first multiple of eight. */
  lemma OffsetIs(c: nat)
    requires c >= 8
    ensures Power(c) ==> Offset(c) == if c == 8 then 40 else if c == 16 then 48 else if c == 32 then 64 else c
    ensures !Power(c) ==> Offset(c) == 40
  {
    PowerOfTwoIff(c);
    if Power(c) { if c >= 36 { RoundOnce(c); } else { SmallPower(c); } }
  }

  lemma SmallPower(c: nat)
    requires 8 <= c < 36 && Power(c)
    ensures c == 8 || c == 16 || c == 32
  {
    assert Power(c / 2) && Power(c / 2 / 2) && Power(c / 2 / 2 / 2);
  }

  lemma {:induction false} PowerDivides(c: nat, d: nat)
    requires Power(c) && Power(d) && c <= d
    ensures d % c == 0
  {
    if c > 1 {
      PowerDivides(c / 2, d / 2);
      assert c == 2 * (c / 2) && d == 2 * (d / 2);
      var q, h := d / 2 / (c / 2), c / 2;
      assert d / 2 == h * q;
      assert c * q == 2 * h * q == 2 * (h * q) == d;
      MultipleMod(c, q);
    }
  }

  lemma Multiples(c: nat, x: int, y: int)
    requires c > 0
    ensures (c * x + c * y) % c == 0
  {
    assert c * x + c * y == c * (x + y);
    MultipleMod(c, x + y);
  }

  lemma SizesAreEights(i: nat)
    requires i < NZONES
    ensures SizeOf(i) % 8 == 0
  {
  }

  /** Every chunk is aligned to eight bytes, and a chunk of a power of two bytes is aligned to its size
      within its zone. In memory it is aligned to its size exactly if the zone is, which is so for
      chunks of up to a page. */
  lemma ChunkAligned(s: Heap, z: nat, k: nat)
    requires HeapOk(s) && Live(s, Chunk(z, k))
    ensures var p, c := Start(s, Chunk(z, k)), s.zones[z].chunk;
      && p % 8 == 0 && (Power(c) ==> (p - z * PAGE) % c == 0) && (Power(c) && c <= PAGE ==> p % c == 0)
      && (Power(c) ==> (p % c == 0 <==> z * PAGE % c == 0))
  {
    assert ZoneOk(s.zonePages, s.zones[z]);
    SizesAreEights(s.zones[z].index);
    EightAligned(z, k, s.zones[z].chunk);
    if Power(s.zones[z].chunk) { SizeAligned(z, k, s.zones[z].chunk); }
  }

  lemma EightAligned(z: nat, k: nat, c: nat)
    requires c >= 8 && c % 8 == 0
    ensures ChunkStart(z, k, c) % 8 == 0
  {
    OffsetIs(c);
    ByEights(z, k, c);
  }

  lemma SizeAligned(z: nat, k: nat, c: nat)
    requires c >= 8 && Power(c)
    ensures (ChunkStart(z, k, c) - z * PAGE) % c == 0 && (c <= PAGE ==> ChunkStart(z, k, c) % c == 0)
    ensures ChunkStart(z, k, c) % c == 0 <==> z * PAGE % c == 0
  {
    PowerAligned(z, k, c);
    AlignedIff(z * PAGE, ChunkStart(z, k, c), c);
  }

  lemma AlignedIff(a: int, p: int, c: nat)
    requires c > 0 && (p - a) % c == 0
    ensures p % c == 0 <==> a % c == 0
  {
    var y := (p - a) / c;
    assert p == a + c * y;
    if a % c == 0 { SumMultiple(c, a, y); }
    if p % c == 0 { SumMultiple(c, p, -y); }
  }

  lemma SumMultiple(c: nat, a: int, y: int)
    requires c > 0 && a % c == 0
    ensures (a + c * y) % c == 0
  {
    var x := a / c;
    assert a == c * x;
    Multiples(c, x, y);
  }

  /** On a heap of 64 pages a request for 8000 bytes gets a chunk of 8192 bytes at address 12288. */
  lemma WideChunkMisaligned()
    ensures var s := Fresh(64, 8);
      && HeapOk(s) && AfterMalloc(s, 8000).1 == Some(Chunk(1, 0))
      && ChunkOf(8000) == 8192 && Power(8192) && ChunkStart(1, 0, 8192) == 12288 && 12288 % 8192 != 0
  {
    FreshInv(64, 8);
    var s := Fresh(64, 8);
    assert [Run(0, 64)][1..] == [];
    assert s.pages == [Run(1, 63)];
    ClassFits(8000);
    assert Power(128) && Power(8192);
    OffsetIs(8192);
  }

  lemma PowerAligned(z: nat, k: nat, c: nat)
    requires c >= 8 && Power(c)
    ensures (ChunkStart(z, k, c) - z * PAGE) % c == 0 && (c <= PAGE ==> ChunkStart(z, k, c) % c == 0)
  {
    var m := OffsetMultiple(c);
    AlignedAt(c, Offset(c), m, 0, 0, k);
    if c <= PAGE {
      var q := PageQuotient(c);
      PageMultiple(z, c, q);
      AlignedAt(c, Offset(c), m, z * PAGE, z * q, k);
    }
  }

  lemma OffsetMultiple(c: nat) returns (m: int)
    requires c >= 8 && Power(c)
    ensures Offset(c) == c * m
  {
    OffsetIs(c);
    m := if c == 8 then 5 else if c == 16 then 3 else if c == 32 then 2 else 1;
  }

  lemma PageQuotient(c: nat) returns (q: int)
    requires c >= 8 && Power(c) && c <= PAGE
    ensures PAGE == c * q
  {
    assert Power(64) && Power(PAGE);
    PowerDivides(c, PAGE);
    q := PAGE / c;
  }

  lemma AlignedAt(c: nat, off: int, m: int, base: int, x: int, k: int)
    requires c > 0 && off == c * m && base == c * x
    ensures (off + k * c) % c == 0 && (base + off + k * c) % c == 0
  {
    assert k * c == c * k;
    Multiples(c, m, k);
    assert c * (m + k) == c * m + c * k;
    Multiples(c, x, m + k);
  }

  lemma PageMultiple(z: nat, c: nat, q: int)
    requires PAGE == c * q
    ensures z * PAGE == c * (z * q)
  {
    assert z * (c * q) == c * (z * q);
  }

  lemma ByEights(z: nat, k: nat, c: nat)
    requires c >= 8 && c % 8 == 0 && Offset(c) % 8 == 0
    ensures ChunkStart(z, k, c) % 8 == 0
  {
    var d, o := c / 8, Offset(c) / 8;
    EightTimes(k, c, d);
    assert ChunkStart(z, k, c) == 8 * (z * 512 + o + k * d);
    MultipleMod(8, z * 512 + o + k * d);
  }

  lemma EightTimes(k: nat, c: nat, d: nat)
    requires c == 8 * d
    ensures k * c == 8 * (k * d)
  {
  }

  // ------------------------------------------------------------- how much is granted

  /** A small request gets a chunk of its class, the smallest that holds it; a large one gets the
      least number of pages that hold it. */
  lemma MallocExact(s: Heap, n: nat)
    requires HeapOk(s) && AfterMalloc(s, n).1.Some?
    ensures var (s1, r) := AfterMalloc(s, n);
      && n > 0 && Live(s1, r.value)
      && (n < Limit(s.zonePages) ==> r.value.Chunk? && n < CLASS_LIMIT && Length(s1, r.value) == ChunkOf(n))
      && (n >= Limit(s.zonePages) ==> r.value.Pages? && n <= Length(s1, r.value) < n + PAGE)
  {
    MallocOk(s, n);
    if n < Limit(s.zonePages) {
      ClassFits(n);
      LimitIsClass(s.zonePages, n);
      SmallRoom(s, ClassOf(n), ChunkOf(n), Ptr.Pages(0));
    }
  }

  /** A small request is served from a zone of its class if one has a free chunk, else from a spare
      zone, and takes pages only if there is none of these. */
  lemma MallocPrefers(s: Heap, n: nat)
    requires HeapOk(s) && 0 < n < Limit(s.zonePages) && AfterMalloc(s, n).1.Some?
    ensures n < CLASS_LIMIT
    ensures var (s1, r) := AfterMalloc(s, n);
      && r.value.Chunk?
      && if ClassHasRoom(s, ClassOf(n)) then
           r.value.z in s.zones && s.zones[r.value.z].index == ClassOf(n) && s1.pages == s.pages && s1.spare == s.spare
         else if s.spare != [] then r.value.z == s.spare[0] && s1.pages == s.pages && s1.spare == s.spare[1..]
         else s1.spare == [] && Removed(s.pages, s1.pages, r.value.z, s.zonePages)
  {
    LimitIsClass(s.zonePages, n);
    ClassFits(n);
    var zi := ClassOf(n);
    assert ListOk(s.lists[zi], s.zones, zi);
    if s.lists[zi] != [] { HeadHasRoom(s, zi); }
    if ClassHasRoom(s, zi) {
      var z :| z in s.zones && s.zones[z].index == zi && s.zones[z].nfree > 0;
      assert z in s.lists[zi];
    }
    TakenOk(s.pages, s.zonePages);
  }

  /** The size rt_realloc asks for in place of `n` when the block is a chunk. */
  function Rounded(n: nat): int {
    if n < 16384 then ChunkOf(n) else n
  }

  /** A realloc returns the same pointer exactly for a chunk whose size the new size is rounded to. */
  lemma ReallocStaysIff(s: Heap, ptr: Ptr, n: nat)
    requires HeapOk(s) && Live(s, ptr) && n > 0
    ensures AfterRealloc(s, Some(ptr), n).1 == Some(ptr) <==> ptr.Chunk? && Length(s, ptr) == Rounded(n)
    ensures AfterRealloc(s, Some(ptr), n).1 == Some(ptr) ==> AfterRealloc(s, Some(ptr), n).0 == s
  {
    if n < CLASS_LIMIT { ClassFits(n); }
    MallocOk(s, n);
    MallocOk(s, Rounded(n));
  }

  /** Any other realloc fails exactly if a malloc of the new size does. */
  lemma ReallocFailsIff(s: Heap, ptr: Ptr, n: nat)
    requires HeapOk(s) && Live(s, ptr) && n > 0 && !(ptr.Chunk? && Length(s, ptr) == Rounded(n))
    ensures AfterRealloc(s, Some(ptr), n).1.None? <==>
            AfterMalloc(s, if ptr.Chunk? then Rounded(n) else n).1.None?
  {
    if n < CLASS_LIMIT { ClassFits(n); }
    MallocOk(s, n);
    MallocOk(s, Rounded(n));
  }

  // ------------------------------------------------------------- the allocator's own state

  lemma {:induction false} UnlinkAt(list: seq<nat>, z: nat, j: nat)
    requires W.NoDup(list) && j < |list| && list[j] == z
    ensures list[..j] + list[j + 1..] == W.Without(list, z)
  {
    W.WithoutAt(list, j);
  }

  class SlabHeap {
    var zonePages: nat
    const pageList: Pages
    var zones: map<nat, Zone>
    var lists: seq<seq<nat>>
    var spare: seq<nat>
    var usage: map<nat, Usage>
    ghost var held: map<nat, nat>

    ghost function View(): Heap
      reads this, pageList
    {
      Heap(zonePages, pageList.list, zones, lists, spare, usage, held)
    }

    /** rt_system_heap_init over `npages` pages */
    constructor (npages: nat)
      requires npages > 0
      ensures fresh(pageList) && ZonePages(zonePages) && ZoneSize(zonePages) == ZoneSizeFor(npages * PAGE)
      ensures View() == Fresh(npages, zonePages) && HeapOk(View())
    {
      zones, lists, spare, usage, held := map[], seq(NZONES, i => []), [], map[], map[];
      pageList := new Pages(npages);
      new;
      zonePages := ChooseZonePages(npages * PAGE);
      assert PagesFor(USAGE_ENTRY * npages) > 0;
      var table := pageList.Alloc(PagesFor(USAGE_ENTRY * npages));
      assert lists == seq(NZONES, i => []);
      FreshInv(npages, zonePages);
    }

    /** Marks the pages of a zone in memusage. */
    method MarkZone(z: nat, inUse: bool)
      modifies this`usage
      ensures usage == if inUse then MarkSmall(old(usage), z, zonePages) else MarkUnused(old(usage), z, zonePages)
    {
      var i := 0;
      while i < zonePages
        invariant i <= zonePages
        invariant usage == if inUse then MarkSmall(old(usage), z, i) else MarkUnused(old(usage), z, i)
      {
        usage := usage[z + i := if inUse then Small(i) else Unused];
        i := i + 1;
      }
    }

    /** A chunk from the first zone of class `zi`. */
    method ChunkFromList(zi: nat) returns (p: Ptr)
      requires zi < |lists| && lists[zi] != [] && lists[zi][0] in zones
      modifies this
      ensures (View(), p) == FromZone(old(View()), zi)
    {
      var z := lists[zi][0];
      var zone := zones[z];
      zone := zone.(nfree := if zone.nfree > 0 then zone.nfree - 1 else 0);
      if zone.nfree == 0 {
        lists := lists[zi := lists[zi][1..]];
      }
      var k: nat;
      if zone.uindex + 1 != zone.nmax {
        zone := zone.(uindex := zone.uindex + 1);
        k := zone.uindex;
      } else if zone.freed == [] {
        k := 0;
      } else {
        k := zone.freed[0];
        zone := zone.(freed := zone.freed[1..]);
      }
      zones := zones[z := zone];
      p := Chunk(z, k);
    }

    /** Lays a zone out at `z`, links it, and hands out its first chunk. */
    method StartZone(z: nat, zi: nat, size: nat) returns (p: Ptr)
      requires zi < |lists| && size > 0
      modifies this
      ensures (View(), p) == NewZone(old(View()), z, zi, size)
    {
      zones := zones[z := FreshZone(zonePages, zi, size)];
      lists := lists[zi := [z] + lists[zi]];
      p := Chunk(z, 0);
    }

    /** Runs of pages, with the history variable kept. */
    method Grab(n: nat) returns (r: Option<nat>)
      requires n > 0
      modifies this`held, pageList
      ensures r == FirstFit(old(pageList.list), n)
      ensures View() == if r.None? then old(View()) else TakePages(old(View()), r.value, n)
    {
      ghost var before := pageList.list;
      r := pageList.Alloc(n);
      if r.Some? {
        held := held[r.value := n];
      } else {
        NoFitNoChange(before, n);
      }
    }

    method Malloc(n: nat) returns (r: Option<Ptr>)
      requires HeapOk(View())
      modifies this, pageList
      ensures (View(), r) == AfterMalloc(old(View()), n)
      ensures HeapOk(View())
    {
      MallocOk(View(), n);
      if n == 0 { return None; }
      if n >= Limit(zonePages) {
        r := AllocPages((n + PAGE - 1) / PAGE);
      } else {
        ThreeChunks(zonePages, n);
        ClassFits(n);
        var zi, size := Lookup(n);
        r := AllocChunk(zi, size);
      }
    }

    method AllocPages(n: nat) returns (r: Option<Ptr>)
      requires n > 0
      modifies this, pageList
      ensures (View(), r) == MallocLarge(old(View()), n)
    {
      var p := Grab(n);
      if p.None? { return None; }
      usage := usage[p.value := Large(n)];
      r := Some(Pages(p.value));
    }

    method AllocChunk(zi: nat, size: nat) returns (r: Option<Ptr>)
      requires HeapOk(View()) && zi < NZONES && size > 0
      modifies this, pageList
      ensures (View(), r) == MallocSmall(old(View()), zi, size)
    {
      if lists[zi] != [] {
        HeadHasRoom(View(), zi);
        var p := ChunkFromList(zi);
        return Some(p);
      }
      var z: nat;
      if spare != [] {
        z := spare[0];
        spare := spare[1..];
      } else {
        var a := Grab(zonePages);
        if a.None? { return None; }
        z := a.value;
        MarkZone(z, true);
      }
      var p := StartZone(z, zi, size);
      r := Some(p);
    }

    /** The walk that takes a zone off its class list. */
    method Unlink(i: nat, z: nat)
      requires i < |lists| && W.NoDup(lists[i]) && z in lists[i]
      modifies this`lists
      ensures lists == old(lists)[i := W.Without(old(lists)[i], z)]
    {
      var j := 0;
      while lists[i][j] != z
        invariant 0 <= j < |lists[i]| && z !in lists[i][..j]
        decreases |lists[i]| - j
      {
        j := j + 1;
      }
      UnlinkAt(lists[i], z, j);
      lists := lists[i := lists[i][..j] + lists[i][j + 1..]];
    }

    /** rt_free: the page of the pointer tells whether it is large, and if not where its zone is. */
    method Free(ptr: Ptr)
      requires HeapOk(View()) && Live(View(), ptr)
      modifies this, pageList
      ensures View() == AfterFree(old(View()), ptr)
      ensures HeapOk(View())
    {
      FreeOk(View(), ptr);
      PageTells(View(), ptr);
      var page := match ptr case Chunk(z, k) => ChunkStart(z, k, zones[z].chunk) / PAGE case Pages(p) => p;
      if usage[page].Large? {
        FreeLarge(page);
      } else {
        FreeSmall(page - usage[page].off, ptr.k);
      }
    }

    /** rt_realloc, without the bytes it copies. */
    method Realloc(ptr: Option<Ptr>, n: nat) returns (r: Option<Ptr>)
      requires HeapOk(View()) && (ptr.Some? ==> Live(View(), ptr.value))
      modifies this, pageList
      ensures (View(), r) == AfterRealloc(old(View()), ptr, n)
      ensures HeapOk(View())
    {
      ReallocOk(View(), ptr, n);
      if ptr.None? {
        r := Malloc(n);
        return;
      }
      if n == 0 {
        Free(ptr.value);
        return None;
      }
      var size := n;
      if ptr.value.Chunk? {
        var zi;
        zi, size := Lookup(n);
        if n < CLASS_LIMIT { ClassFits(n); }
        if zones[ptr.value.z].chunk == size { return ptr; }
      }
      MallocOk(View(), size);
      r := Malloc(size);
      if r.Some? { Free(ptr.value); }
    }

    method FreeLarge(p: nat)
      requires p in usage && usage[p].Large? && usage[p].n > 0
      modifies this, pageList
      ensures View() == FreePages(old(View()), p)
    {
      var n := usage[p].n;
      usage := usage[p := Large(0)];
      pageList.Free(p, n);
      held := held - {p};
    }

    method FreeSmall(z: nat, k: nat)
      requires HeapOk(View()) && Live(View(), Chunk(z, k))
      modifies this, pageList
      ensures old(zones)[z].index < |old(lists)| && View() == FreeChunk(old(View()), z, k)
    {
      ChunkBackOk(View(), z, k);
      PutBack(z, k);
      var i := zones[z].index;
      if zones[z].nfree == zones[z].nmax {
        OnItsList(View(), z);
        if lists[i][|lists[i]| - 1] != z || lists[i][0] != z {
          Retire(z);
        }
      }
    }

    /** The chunk becomes the head of its zone's chunk list. */
    method PutBack(z: nat, k: nat)
      requires z in zones && zones[z].index < |lists|
      modifies this
      ensures View() == ChunkBack(old(View()), z, k)
    {
      var zone := zones[z];
      zones := zones[z := zone.(freed := [k] + zone.freed, nfree := zone.nfree + 1)];
      if zone.nfree == 0 {
        lists := lists[zone.index := [z] + lists[zone.index]];
      }
    }

    method Retire(z: nat)
      requires HeapOk(View()) && z in zones && zones[z].nfree == zones[z].nmax && zones[z].index < |lists|
      modifies this, pageList
      ensures var s2 := Retired(old(View()), z); View() == if |s2.spare| > RELEASE_THRESHOLD then Released(s2) else s2
    {
      var i := zones[z].index;
      OnItsList(View(), z);
      Unlink(i, z);
      zones := zones - {z};
      spare := [z] + spare;
      if |spare| > RELEASE_THRESHOLD {
        var y := spare[0];
        spare := spare[1..];
        MarkZone(y, false);
        pageList.Free(y, zonePages);
        held := held - {y};
      }
    }
  }

  /** A zone with a free chunk is on the list of its class. */
  lemma OnItsList(s: Heap, z: nat)
    requires HeapOk(s) && z in s.zones && s.zones[z].nfree == s.zones[z].nmax
    ensures s.zones[z].index < |s.lists| && z in s.lists[s.zones[z].index] && W.NoDup(s.lists[s.zones[z].index])
  {
    assert ZoneOk(s.zonePages, s.zones[z]);
    assert ListOk(s.lists[s.zones[z].index], s.zones, s.zones[z].index);
  }

  lemma {:induction false} NoFitNoChange(l: Runs, n: nat)
    requires FirstFit(l, n).None?
    ensures Taken(l, n) == l
  {
    if l != [] { NoFitNoChange(l[1..], n); }
  }

  /** What rt_free reads off the page of a live pointer. */
  lemma PageTells(s: Heap, ptr: Ptr)
    requires HeapOk(s) && Live(s, ptr)
    ensures ptr.Pages? ==> LargeUsage(s, ptr.p) && s.held[ptr.p] > 0
    ensures ptr.Chunk? ==> s.zones[ptr.z].chunk > 0
    ensures ptr.Chunk? ==> var page := ChunkStart(ptr.z, ptr.k, s.zones[ptr.z].chunk) / PAGE;
      page in s.usage && s.usage[page].Small? && page - s.usage[page].off == ptr.z
  {
    match ptr
    case Chunk(z, k) =>
      assert ZoneOk(s.zonePages, s.zones[z]);
      LookupFindsZone(s, z, k);
    case Pages(p) =>
      assert LargeUsage(s, p);
  }
}
