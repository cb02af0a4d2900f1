/** Size classes of the slab allocator (src/slab.c): zoneindex, and how a zone is laid out. */
module ZoneIndex {
  const NZONES: nat := 72
  const MIN_CHUNK: nat := 8
  const CLASS_LIMIT: nat := 16384
  const ZONE_HEADER: nat := 36            // sizeof(slab_zone)
  const PAGE: nat := 4096                 // RT_MM_PAGE_SIZE

  /** `(n + unit - 1) & ~(unit - 1)` for a power of two. */
  function RoundUp(n: nat, unit: nat): nat
    requires unit > 0
  {
    (n + unit - 1) / unit * unit
  }

  /** The chunk size a request is rounded to. */
  function ChunkOf(n: nat): nat {
    RoundUp(n, if n < 128 then 8 else if n < 256 then 16 else if n < 512 then 32 else if n < 1024 then 64
               else if n < 2048 then 128 else if n < 4096 then 256 else if n < 8192 then 512 else 1024)
  }

  /** The class of a request. */
  function ClassOf(n: nat): int {
    var c := ChunkOf(n);
    if n < 128 then c / 8 - 1 else if n < 256 then c / 16 + 7 else if n < 512 then c / 32 + 15
        else if n < 1024 then c / 64 + 23
    else if n < 2048 then c / 128 + 31 else if n < 4096 then c / 256 + 39 else if n < 8192 then c / 512 + 47
        else c / 1024 + 55
  }

  /** zoneindex: the class, and the size rounded up to its chunk size; sizes beyond the last
      band are reported and left alone. */
  method Lookup(bytes: nat) returns (index: int, rounded: nat)
    ensures index == if bytes < CLASS_LIMIT then ClassOf(bytes) else 0
    ensures rounded == if bytes < CLASS_LIMIT then ChunkOf(bytes) else bytes
  {
    var n: int := bytes;
    if n < 128 {
      n := (n + 7) / 8 * 8;
      return n / 8 - 1, n;
    }
    if n < 256 {
      n := (n + 15) / 16 * 16;
      return n / 16 + 7, n;
    }
    if n < 8192 {
      if n < 512 {
        n := (n + 31) / 32 * 32;
        return n / 32 + 15, n;
      }
      if n < 1024 {
        n := (n + 63) / 64 * 64;
        return n / 64 + 23, n;
      }
      if n < 2048 {
        n := (n + 127) / 128 * 128;
        return n / 128 + 31, n;
      }
      if n < 4096 {
        n := (n + 255) / 256 * 256;
        return n / 256 + 39, n;
      }
      n := (n + 511) / 512 * 512;
      return n / 512 + 47, n;
    }
    if n < 16384 {
      n := (n + 1023) / 1024 * 1024;
      return n / 1024 + 55, n;
    }
    return 0, n;
  }

  /** The chunk size of a class. */
  function SizeOf(i: nat): nat {
    if i < 16 then 8 * (i + 1) else if i < 24 then 16 * (i - 7) else if i < 32 then 32 * (i - 15)
        else if i < 40 then 64 * (i - 23)
    else if i < 48 then 128 * (i - 31) else if i < 56 then 256 * (i - 39) else if i < 64 then 512 * (i - 47)
        else 1024 * (i - 55)
  }

  /** Larger classes have larger chunks, so class and chunk size determine each other. */
  lemma {:induction false} SizesAscend(i: nat, j: nat)
    requires i < j
    ensures SizeOf(i) < SizeOf(j)
    decreases j
  {
  }

  ghost predicate Fits(n: nat) {
    && 0 <= ClassOf(n) < NZONES && ChunkOf(n) == SizeOf(ClassOf(n)) >= n
    && (ClassOf(n) > 0 ==> SizeOf(ClassOf(n) - 1) < n)
    && (n >= 128 ==> 8 * (ChunkOf(n) - n) < n)
    && ChunkOf(n) % MIN_CHUNK == 0
  }

  lemma Band8(n: nat)
    requires 1 <= n < 128
    ensures Fits(n)
  {
  }

  lemma Band16(n: nat)
    requires 128 <= n < 256
    ensures Fits(n)
  {
    var q := (n + 15) / 16;
    assert 16 * q <= n + 15 < 16 * q + 16;
    assert 16 * q / 16 == q;
    assert ChunkOf(n) == 16 * q && ClassOf(n) == q + 7;
    assert SizeOf(q + 7) == 16 * q;
    assert 16 * q % 8 == 0;
  }

  lemma Band32(n: nat)
    requires 256 <= n < 512
    ensures Fits(n)
  {
    var q := (n + 31) / 32;
    assert 32 * q <= n + 31 < 32 * q + 32;
    assert 32 * q / 32 == q;
    assert ChunkOf(n) == 32 * q && ClassOf(n) == q + 15;
    assert SizeOf(q + 15) == 32 * q;
    assert 32 * q % 8 == 0;
  }

  lemma Band64(n: nat)
    requires 512 <= n < 1024
    ensures Fits(n)
  {
    var q := (n + 63) / 64;
    assert 64 * q <= n + 63 < 64 * q + 64;
    assert 64 * q / 64 == q;
    assert ChunkOf(n) == 64 * q && ClassOf(n) == q + 23;
    assert SizeOf(q + 23) == 64 * q;
    assert 64 * q % 8 == 0;
  }

  lemma Band128(n: nat)
    requires 1024 <= n < 2048
    ensures Fits(n)
  {
    var q := (n + 127) / 128;
    assert 128 * q <= n + 127 < 128 * q + 128;
    assert 128 * q / 128 == q;
    assert ChunkOf(n) == 128 * q && ClassOf(n) == q + 31;
    assert SizeOf(q + 31) == 128 * q;
    assert 128 * q % 8 == 0;
  }

  lemma Band256(n: nat)
    requires 2048 <= n < 4096
    ensures Fits(n)
  {
    var q := (n + 255) / 256;
    assert 256 * q <= n + 255 < 256 * q + 256;
    assert 256 * q / 256 == q;
    assert ChunkOf(n) == 256 * q && ClassOf(n) == q + 39;
    assert SizeOf(q + 39) == 256 * q;
    assert 256 * q % 8 == 0;
  }

  lemma Band512(n: nat)
    requires 4096 <= n < 8192
    ensures Fits(n)
  {
    var q := (n + 511) / 512;
    assert 512 * q <= n + 511 < 512 * q + 512;
    assert 512 * q / 512 == q;
    assert ChunkOf(n) == 512 * q && ClassOf(n) == q + 47;
    assert SizeOf(q + 47) == 512 * q;
    assert 512 * q % 8 == 0;
  }

  lemma Band1024(n: nat)
    requires 8192 <= n < 16384
    ensures Fits(n)
  {
    var q := (n + 1023) / 1024;
    assert 1024 * q <= n + 1023 < 1024 * q + 1024;
    assert 1024 * q / 1024 == q;
    assert ChunkOf(n) == 1024 * q && ClassOf(n) == q + 55;
    assert SizeOf(q + 55) == 1024 * q;
    assert 1024 * q % 8 == 0;
  }

  /** zoneindex picks, in every band, the smallest class whose chunk holds the request; the
      class is in range, and less than an eighth of a request of 128 bytes or more is wasted. */
  lemma ClassFits(n: nat)
    requires 0 < n < CLASS_LIMIT
    ensures 0 <= ClassOf(n) < NZONES && ChunkOf(n) == SizeOf(ClassOf(n)) >= n
    ensures ClassOf(n) > 0 ==> SizeOf(ClassOf(n) - 1) < n
    ensures n >= 128 ==> 8 * (ChunkOf(n) - n) < n
    ensures ChunkOf(n) % MIN_CHUNK == 0
  {
    if n < 128 { Band8(n); } else if n < 256 { Band16(n); } else if n < 512 { Band32(n); }
        else if n < 1024 { Band64(n); }
    else if n < 2048 { Band128(n); } else if n < 4096 { Band256(n); } else if n < 8192 { Band512(n); }
        else { Band1024(n); }
  }

  /** Two requests share a class exactly when they are rounded to the same size. */
  lemma ClassIffChunk(n: nat, m: nat)
    requires 0 < n < CLASS_LIMIT && 0 < m < CLASS_LIMIT
    ensures ClassOf(n) == ClassOf(m) <==> ChunkOf(n) == ChunkOf(m)
  {
    ClassFits(n);
    ClassFits(m);
    if ClassOf(n) < ClassOf(m) { SizesAscend(ClassOf(n), ClassOf(m)); }
    if ClassOf(m) < ClassOf(n) { SizesAscend(ClassOf(m), ClassOf(n)); }
  }

  /** Rounding a chunk size again changes nothing: rt_realloc hands a rounded size on. */
  lemma ChunkStable(n: nat)
    requires 0 < n < CLASS_LIMIT && ChunkOf(n) < CLASS_LIMIT
    ensures ChunkOf(ChunkOf(n)) == ChunkOf(n) && ClassOf(ChunkOf(n)) == ClassOf(n)
  {
    ClassFits(n);
    var c := ChunkOf(n);
    ClassFits(c);
    if ClassOf(c) < ClassOf(n) { SizesAscend(ClassOf(c), ClassOf(n)); }
    if ClassOf(c) > ClassOf(n) {
      if ClassOf(c) - 1 > ClassOf(n) { SizesAscend(ClassOf(n), ClassOf(c) - 1); }
    }
  }
}
