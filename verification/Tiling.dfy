/** Adjacent blocks of memory, as both heap allocators keep them: the blocks tile a
    range of addresses and no two neighbours are both free. */
module Tiling {
  datatype Block = Block(lo: nat, hi: nat, used: bool)

  ghost predicate Tiles(bs: seq<Block>, hs: nat, end: nat) {
    && |bs| > 0 && bs[0].lo == 0 && bs[|bs| - 1].hi == end
    && (forall i :: 0 <= i < |bs| ==> bs[i].lo + hs <= bs[i].hi)
    && (forall i :: 0 <= i < |bs| - 1 ==> Meets(bs, i))
  }

  predicate Meets(bs: seq<Block>, i: nat)
    requires i + 1 < |bs|
  {
    bs[i].hi == bs[i + 1].lo
  }

  ghost predicate Coalesced(bs: seq<Block>) {
    forall i :: 0 <= i < |bs| - 1 ==> Parted(bs, i)
  }

  predicate Parted(bs: seq<Block>, i: nat)
    requires i + 1 < |bs|
  {
    bs[i].used || bs[i + 1].used
  }

  /** Total length, less `hs` a block, of the blocks whose used flag is `u`. */
  function Sum(bs: seq<Block>, u: bool, hs: nat): int {
    if bs == [] then 0
    else (if bs[0].used == u then bs[0].hi - bs[0].lo - hs else 0) + Sum(bs[1..], u, hs)
  }

  function Mark(bs: seq<Block>, i: nat, u: bool): seq<Block>
    requires i < |bs|
  {
    bs[i := bs[i].(used := u)]
  }

  /** Block `i` cut at address `mid` into a used part and a free remainder. */
  function Split(bs: seq<Block>, i: nat, mid: nat): seq<Block>
    requires i < |bs|
  {
    bs[..i] + [Block(bs[i].lo, mid, true), Block(mid, bs[i].hi, false)] + bs[i + 1..]
  }

  /** Blocks `i` and `i+1` merged into one free block. */
  function Join(bs: seq<Block>, i: nat): seq<Block>
    requires i + 1 < |bs|
  {
    bs[..i] + [Block(bs[i].lo, bs[i + 1].hi, false)] + bs[i + 2..]
  }

  /** Free block `i` merged with its successor, and with its predecessor, when that is free. */
  function Forward(bs: seq<Block>, i: nat): (r: seq<Block>)
    requires i < |bs|
    ensures i < |r|
  {
    if i + 1 < |bs| && !bs[i + 1].used then Join(bs, i) else bs
  }

  function Backward(bs: seq<Block>, i: nat): seq<Block>
    requires i < |bs|
  {
    if i > 0 && !bs[i - 1].used then Join(bs, i - 1) else bs
  }

  /** Block `i` freed and merged with whichever neighbours are free. */
  function Release(bs: seq<Block>, i: nat): seq<Block>
    requires i < |bs|
  {
    Backward(Forward(Mark(bs, i, false), i), i)
  }

  /** Used block `i` cut at `mid`, the free remainder merged with a free successor. */
  function Shrunk(bs: seq<Block>, i: nat, mid: nat): seq<Block>
    requires i < |bs|
  {
    Forward(Split(bs, i, mid), i + 1)
  }

  lemma {:induction false} Ascending(bs: seq<Block>, hs: nat, end: nat, i: nat, j: nat)
    requires Tiles(bs, hs, end) && i < j < |bs|
    ensures bs[i].hi <= bs[j].lo
    decreases j - i
  {
    assert Meets(bs, j - 1);
    if i + 1 < j { Ascending(bs, hs, end, i, j - 1); }
  }

  /** Distinct blocks are disjoint, and every block lies inside the range. */
  lemma Disjoint(bs: seq<Block>, hs: nat, end: nat)
    requires Tiles(bs, hs, end)
    ensures forall i, j :: 0 <= i < j < |bs| ==> bs[i].hi <= bs[j].lo
    ensures forall i :: 0 <= i < |bs| ==> bs[i].hi <= end
  {
    forall i, j | 0 <= i < j < |bs| ensures bs[i].hi <= bs[j].lo {
      Ascending(bs, hs, end, i, j);
    }
  }

  lemma {:induction false} SumAppend(a: seq<Block>, b: seq<Block>, u: bool, hs: nat)
    ensures Sum(a + b, u, hs) == Sum(a, u, hs) + Sum(b, u, hs)
  {
    if a == [] {
      assert a + b == b;
    } else {
      assert (a + b)[1..] == a[1..] + b;
      SumAppend(a[1..], b, u, hs);
    }
  }

  lemma SumSplice(a: seq<Block>, x: seq<Block>, b: seq<Block>, u: bool, hs: nat)
    ensures Sum(a + x + b, u, hs) == Sum(a, u, hs) + Sum(x, u, hs) + Sum(b, u, hs)
  {
    SumAppend(a + x, b, u, hs);
    SumAppend(a, x, u, hs);
  }

  function Weight(b: Block, u: bool, hs: nat): int {
    if b.used == u then b.hi - b.lo - hs else 0
  }

  lemma SumAt(bs: seq<Block>, i: nat, u: bool, hs: nat)
    requires i < |bs|
    ensures Sum(bs, u, hs) == Sum(bs[..i], u, hs) + Weight(bs[i], u, hs) + Sum(bs[i + 1..], u, hs)
  {
    assert bs == bs[..i] + [bs[i]] + bs[i + 1..];
    SumSplice(bs[..i], [bs[i]], bs[i + 1..], u, hs);
    assert Sum([bs[i]], u, hs) == Weight(bs[i], u, hs);
  }

  lemma SumMark(bs: seq<Block>, i: nat, v: bool, u: bool, hs: nat)
    requires i < |bs|
    ensures Sum(Mark(bs, i, v), u, hs) == Sum(bs, u, hs) - Weight(bs[i], u, hs) + Weight(bs[i].(used := v), u, hs)
  {
    SumAt(bs, i, u, hs);
    SumAt(Mark(bs, i, v), i, u, hs);
    assert Mark(bs, i, v)[..i] == bs[..i] && Mark(bs, i, v)[i + 1..] == bs[i + 1..];
  }

  lemma SumSplit(bs: seq<Block>, i: nat, mid: nat, u: bool, hs: nat)
    requires i < |bs|
    ensures Sum(Split(bs, i, mid), u, hs) == Sum(bs, u, hs) - Weight(bs[i], u, hs)
            + (if u then mid - bs[i].lo else bs[i].hi - mid) - hs
  {
    SumAt(bs, i, u, hs);
    var x := [Block(bs[i].lo, mid, true), Block(mid, bs[i].hi, false)];
    SumSplice(bs[..i], x, bs[i + 1..], u, hs);
    assert x[1..] == [x[1]];
    assert Sum([x[1]], u, hs) == Weight(x[1], u, hs);
  }

  lemma SumJoin(bs: seq<Block>, i: nat, u: bool, hs: nat)
    requires i + 1 < |bs| && !bs[i].used && !bs[i + 1].used && bs[i].hi == bs[i + 1].lo
    ensures Sum(Join(bs, i), u, hs) == Sum(bs, u, hs) + (if u then 0 else hs)
  {
    SumAt(bs, i, u, hs);
    assert bs[i + 1..][0] == bs[i + 1] && bs[i + 1..][1..] == bs[i + 2..];
    SumSplice(bs[..i], [Block(bs[i].lo, bs[i + 1].hi, false)], bs[i + 2..], u, hs);
  }

  /** No two neighbours are both free, apart from pairs that involve block `i`. */
  ghost predicate CoalescedBut(bs: seq<Block>, i: nat) {
    forall k :: 0 <= k < |bs| - 1 && k != i && k + 1 != i ==> Parted(bs, k)
  }

  lemma JoinAt(bs: seq<Block>, i: nat, k: nat)
    requires i + 1 < |bs| && k + 1 < |bs|
    ensures |Join(bs, i)| == |bs| - 1
    ensures k < i ==> Join(bs, i)[k] == bs[k]
    ensures k > i ==> Join(bs, i)[k] == bs[k + 1]
    ensures k == i ==> Join(bs, i)[k] == Block(bs[i].lo, bs[i + 1].hi, false)
  {
  }

  lemma JoinTiles(bs: seq<Block>, i: nat, hs: nat, end: nat)
    requires Tiles(bs, hs, end) && i + 1 < |bs|
    ensures Tiles(Join(bs, i), hs, end)
  {
    var c := Join(bs, i);
    assert Meets(bs, i);
    forall k | 0 <= k < |c| ensures c[k].lo + hs <= c[k].hi { JoinAt(bs, i, k); }
    forall k | 0 <= k < |c| - 1 ensures Meets(c, k) {
      JoinAt(bs, i, k);
      JoinAt(bs, i, k + 1);
      assert Meets(bs, if k < i then k else k + 1);
    }
    JoinAt(bs, i, |c| - 1);
    JoinAt(bs, i, 0);
  }

  lemma JoinRight(bs: seq<Block>, i: nat)
    requires i + 1 < |bs| && CoalescedBut(bs, i) && !bs[i + 1].used
    ensures CoalescedBut(Join(bs, i), i)
    ensures i + 1 < |Join(bs, i)| ==> Join(bs, i)[i + 1].used
  {
    var c := Join(bs, i);
    forall k | 0 <= k < |c| - 1 && k != i && k + 1 != i ensures Parted(c, k) {
      JoinAt(bs, i, k);
      JoinAt(bs, i, k + 1);
      assert Parted(bs, if k < i then k else k + 1);
    }
    if i + 1 < |c| {
      JoinAt(bs, i, i + 1);
      assert Parted(bs, i + 1);
    }
  }

  lemma JoinLeft(bs: seq<Block>, i: nat)
    requires 0 < i < |bs| && CoalescedBut(bs, i) && !bs[i - 1].used
    requires i + 1 < |bs| ==> bs[i + 1].used
    ensures Coalesced(Join(bs, i - 1))
  {
    var c := Join(bs, i - 1);
    forall k | 0 <= k < |c| - 1 ensures Parted(c, k) {
      JoinAt(bs, i - 1, k);
      JoinAt(bs, i - 1, k + 1);
      if k + 1 < i - 1 { assert Parted(bs, k); } else if k >= i { assert Parted(bs, k + 1); }
      if k + 1 == i - 1 { assert Parted(bs, k); }
    }
  }

  lemma MarkFree(bs: seq<Block>, i: nat, hs: nat, end: nat)
    requires Tiles(bs, hs, end) && Coalesced(bs) && i < |bs|
    ensures Tiles(Mark(bs, i, false), hs, end) && CoalescedBut(Mark(bs, i, false), i)
  {
    var c := Mark(bs, i, false);
    forall k | 0 <= k < |c| - 1 && k != i && k + 1 != i ensures Parted(c, k) {
      assert Parted(bs, k);
    }
    forall k | 0 <= k < |c| - 1 ensures Meets(c, k) {
      assert Meets(bs, k);
    }
  }

  lemma ForwardShape(bs: seq<Block>, i: nat, hs: nat, end: nat)
    requires Tiles(bs, hs, end) && CoalescedBut(bs, i) && i < |bs| && !bs[i].used
    ensures var r := Forward(bs, i);
      && Tiles(r, hs, end) && CoalescedBut(r, i) && (i + 1 < |r| ==> r[i + 1].used)
      && !r[i].used && r[i].lo == bs[i].lo && (i > 0 ==> r[i - 1] == bs[i - 1])
  {
    if i + 1 < |bs| && !bs[i + 1].used {
      JoinTiles(bs, i, hs, end);
      JoinRight(bs, i);
    }
  }

  lemma ForwardSums(bs: seq<Block>, i: nat, hs: nat, end: nat)
    requires Tiles(bs, hs, end) && i < |bs| && !bs[i].used
    ensures Sum(Forward(bs, i), true, 0) == Sum(bs, true, 0)
    ensures Sum(Forward(bs, i), false, hs) == Sum(bs, false, hs) + if i + 1 < |bs| && !bs[i + 1].used then hs else 0
  {
    if i + 1 < |bs| && !bs[i + 1].used {
      assert Meets(bs, i);
      SumJoin(bs, i, true, 0);
      SumJoin(bs, i, false, hs);
    }
  }

  lemma BackwardCorrect(bs: seq<Block>, i: nat, hs: nat, end: nat)
    requires Tiles(bs, hs, end) && CoalescedBut(bs, i) && i < |bs| && !bs[i].used
    requires i + 1 < |bs| ==> bs[i + 1].used
    ensures var r := Backward(bs, i);
      && Tiles(r, hs, end) && Coalesced(r)
      && Sum(r, true, 0) == Sum(bs, true, 0)
      && Sum(r, false, hs) == Sum(bs, false, hs) + if i > 0 && !bs[i - 1].used then hs else 0
  {
    if i > 0 && !bs[i - 1].used {
      JoinTiles(bs, i - 1, hs, end);
      JoinLeft(bs, i);
      assert Meets(bs, i - 1);
      SumJoin(bs, i - 1, true, 0);
      SumJoin(bs, i - 1, false, hs);
    }
  }

  /** Freeing a used block keeps the tiling, leaves no free neighbours, moves exactly that
      block's length out of the used total, and gains one header for each merge. */
  lemma ReleaseCorrect(bs: seq<Block>, i: nat, hs: nat, end: nat)
    requires Tiles(bs, hs, end) && Coalesced(bs) && i < |bs| && bs[i].used
    ensures Tiles(Release(bs, i), hs, end) && Coalesced(Release(bs, i))
    ensures Sum(Release(bs, i), true, 0) == Sum(bs, true, 0) - (bs[i].hi - bs[i].lo)
    ensures Sum(Release(bs, i), false, hs) == Sum(bs, false, hs) + (bs[i].hi - bs[i].lo - hs)
            + (if i + 1 < |bs| && !bs[i + 1].used then hs else 0)
            + (if i > 0 && !bs[i - 1].used then hs else 0)
  {
    var b1 := Mark(bs, i, false);
    SumMark(bs, i, false, true, 0);
    SumMark(bs, i, false, false, hs);
    MarkFree(bs, i, hs, end);
    ForwardShape(b1, i, hs, end);
    ForwardSums(b1, i, hs, end);
    BackwardCorrect(Forward(b1, i), i, hs, end);
  }

  lemma SplitAt(bs: seq<Block>, i: nat, mid: nat, k: nat)
    requires i < |bs| && k <= |bs|
    ensures |Split(bs, i, mid)| == |bs| + 1
    ensures k < i ==> Split(bs, i, mid)[k] == bs[k]
    ensures k == i ==> Split(bs, i, mid)[k] == Block(bs[i].lo, mid, true)
    ensures k == i + 1 ==> Split(bs, i, mid)[k] == Block(mid, bs[i].hi, false)
    ensures k > i + 1 ==> Split(bs, i, mid)[k] == bs[k - 1]
  {
  }

  lemma SplitTiles(bs: seq<Block>, i: nat, mid: nat, hs: nat, end: nat)
    requires Tiles(bs, hs, end) && i < |bs|
    requires bs[i].lo + hs <= mid && mid + hs <= bs[i].hi
    ensures Tiles(Split(bs, i, mid), hs, end)
  {
    var c := Split(bs, i, mid);
    forall k | 0 <= k < |c| ensures c[k].lo + hs <= c[k].hi { SplitAt(bs, i, mid, k); }
    forall k | 0 <= k < |c| - 1 ensures Meets(c, k) {
      SplitAt(bs, i, mid, k);
      SplitAt(bs, i, mid, k + 1);
      if k < i { assert Meets(bs, k); } else if k > i { assert Meets(bs, k - 1); }
    }
    SplitAt(bs, i, mid, 0);
    SplitAt(bs, i, mid, |bs|);
  }

  /** Cutting a free block keeps the tiling, and the remainder has no free neighbour. */
  lemma SplitCorrect(bs: seq<Block>, i: nat, mid: nat, hs: nat, end: nat)
    requires Tiles(bs, hs, end) && Coalesced(bs) && i < |bs| && !bs[i].used
    requires bs[i].lo + hs <= mid && mid + hs <= bs[i].hi
    ensures Tiles(Split(bs, i, mid), hs, end) && Coalesced(Split(bs, i, mid))
  {
    SplitTiles(bs, i, mid, hs, end);
    var c := Split(bs, i, mid);
    forall k | 0 <= k < |c| - 1 ensures Parted(c, k) {
      SplitAt(bs, i, mid, k);
      SplitAt(bs, i, mid, k + 1);
      if k < i { assert Parted(bs, k); } else if k > i { assert Parted(bs, k - 1); }
    }
  }

  /** Undoing a cut by freeing its used part gives back the original blocks. */
  lemma ReleaseUndoesSplit(bs: seq<Block>, i: nat, mid: nat)
    requires Coalesced(bs) && i < |bs| && !bs[i].used
    ensures Release(Split(bs, i, mid), i) == bs
  {
    var s := Split(bs, i, mid);
    var b1 := Mark(s, i, false);
    assert s[i + 1] == Block(mid, bs[i].hi, false) && s[i + 2..] == bs[i + 1..] && s[..i] == bs[..i];
    assert Join(b1, i) == bs[..i] + [bs[i]] + bs[i + 1..] == bs;
    assert i > 0 ==> Parted(bs, i - 1);
  }

  lemma ReleaseUndoesMark(bs: seq<Block>, i: nat)
    requires Coalesced(bs) && i < |bs| && !bs[i].used
    ensures Release(Mark(bs, i, true), i) == bs
  {
    assert i > 0 ==> Parted(bs, i - 1);
    assert i + 1 < |bs| ==> Parted(bs, i);
    assert Mark(Mark(bs, i, true), i, false) == bs;
  }

  // ------------------------------------------------------------------ alignment

  const ALIGN_SIZE: nat := 4         // RT_ALIGN_SIZE

  /** RT_ALIGN for sizes that do not wrap. */
  function Align(n: nat): (r: nat)
    ensures n <= r < n + ALIGN_SIZE && r % ALIGN_SIZE == 0
  {
    (n + 3) / 4 * 4
  }

  /** RT_ALIGN_DOWN */
  function AlignDown(n: nat): (r: nat)
    ensures n - ALIGN_SIZE < r <= n && r % ALIGN_SIZE == 0
  {
    n / 4 * 4
  }

  ghost predicate Aligned(bs: seq<Block>) {
    forall i :: 0 <= i < |bs| ==> bs[i].lo % ALIGN_SIZE == 0
  }

  lemma AlignedSplit(bs: seq<Block>, i: nat, mid: nat)
    requires Aligned(bs) && i < |bs| && mid % ALIGN_SIZE == 0
    ensures Aligned(Split(bs, i, mid))
  {
  }

  lemma AlignedJoin(bs: seq<Block>, i: nat)
    requires Aligned(bs) && i + 1 < |bs|
    ensures Aligned(Join(bs, i))
  {
  }

  lemma AlignedRelease(bs: seq<Block>, i: nat)
    requires Aligned(bs) && i < |bs|
    ensures Aligned(Release(bs, i))
  {
  }

  /** A block that is not freed and not merged is still there after a release. */
  lemma ReleaseKeeps(bs: seq<Block>, i: nat, j: nat)
    requires i < |bs| && j < |bs| && j != i && bs[j].used
    ensures bs[j] in Release(bs, i)
  {
    var b1 := Mark(bs, i, false);
    var b2 := Forward(b1, i);
    var j2 := if |b2| == |b1| || j < i then j else j - 1;
    assert b2[j2] == bs[j];
    var b3 := Backward(b2, i);
    if b3 != b2 {
      JoinAt(b2, i - 1, if j2 < i then j2 else j2 - 1);
      assert b3[if j2 < i then j2 else j2 - 1] == bs[j];
    }
  }

  lemma SplitKeepsRest(bs: seq<Block>, i: nat, mid: nat)
    requires Coalesced(bs) && i < |bs|
    ensures CoalescedBut(Split(bs, i, mid), i + 1)
  {
    var c := Split(bs, i, mid);
    forall k | 0 <= k < |c| - 1 && k != i + 1 && k + 1 != i + 1 ensures Parted(c, k) {
      SplitAt(bs, i, mid, k);
      SplitAt(bs, i, mid, k + 1);
      assert Parted(bs, if k < i then k else k - 1);
    }
  }

  lemma ShrunkShape(bs: seq<Block>, i: nat, mid: nat, hs: nat, end: nat)
    requires Tiles(bs, hs, end) && Coalesced(bs) && i < |bs| && bs[i].used
    requires bs[i].lo + hs <= mid && mid + hs <= bs[i].hi
    ensures var r := Shrunk(bs, i, mid);
      Tiles(r, hs, end) && Coalesced(r) && i + 1 < |r| && r[i].used
  {
    var c := Split(bs, i, mid);
    SplitTiles(bs, i, mid, hs, end);
    SplitAt(bs, i, mid, i);
    SplitAt(bs, i, mid, i + 1);
    SplitKeepsRest(bs, i, mid);
    ForwardShape(c, i + 1, hs, end);
  }

  // ----------------------------------------------------------------- used blocks

  function UsedSet(bs: seq<Block>): set<Block> {
    set b | b in bs && b.used
  }

  /** A block is at one place of the chain only. */
  lemma NowhereElse(bs: seq<Block>, hs: nat, end: nat, i: nat)
    requires Tiles(bs, hs, end) && hs > 0 && i < |bs|
    ensures bs[i] !in bs[..i] && bs[i] !in bs[i + 1..]
  {
    Disjoint(bs, hs, end);
  }

  lemma UsedSetSplice(a: seq<Block>, x: seq<Block>, b: seq<Block>)
    ensures UsedSet(a + x + b) == UsedSet(a) + UsedSet(x) + UsedSet(b)
  {
  }

  /** Replacing block `i` by other blocks. */
  lemma UsedSetReplace(bs: seq<Block>, hs: nat, end: nat, i: nat, x: seq<Block>)
    requires Tiles(bs, hs, end) && hs > 0 && i < |bs|
    ensures UsedSet(bs[..i] + x + bs[i + 1..]) == UsedSet(bs) - {bs[i]} + UsedSet(x)
  {
    NowhereElse(bs, hs, end, i);
    UsedSetSplice(bs[..i], x, bs[i + 1..]);
    UsedSetSplice(bs[..i], [bs[i]], bs[i + 1..]);
    assert bs == bs[..i] + [bs[i]] + bs[i + 1..];
  }

  lemma UsedSetMark(bs: seq<Block>, hs: nat, end: nat, i: nat, u: bool)
    requires Tiles(bs, hs, end) && hs > 0 && i < |bs|
    ensures UsedSet(Mark(bs, i, u)) == UsedSet(bs) - {bs[i]} + if u then {bs[i].(used := true)} else {}
  {
    UsedSetReplace(bs, hs, end, i, [bs[i].(used := u)]);
    assert Mark(bs, i, u) == bs[..i] + [bs[i].(used := u)] + bs[i + 1..];
  }

  lemma UsedSetSplit(bs: seq<Block>, hs: nat, end: nat, i: nat, mid: nat)
    requires Tiles(bs, hs, end) && hs > 0 && i < |bs|
    ensures UsedSet(Split(bs, i, mid)) == UsedSet(bs) - {bs[i]} + {Block(bs[i].lo, mid, true)}
  {
    UsedSetReplace(bs, hs, end, i, [Block(bs[i].lo, mid, true), Block(mid, bs[i].hi, false)]);
  }

  lemma UsedSetJoin(bs: seq<Block>, i: nat)
    requires i + 1 < |bs| && !bs[i].used && !bs[i + 1].used
    ensures UsedSet(Join(bs, i)) == UsedSet(bs)
  {
    UsedSetSplice(bs[..i], [Block(bs[i].lo, bs[i + 1].hi, false)], bs[i + 2..]);
    UsedSetSplice(bs[..i], [bs[i], bs[i + 1]], bs[i + 2..]);
    assert bs == bs[..i] + [bs[i], bs[i + 1]] + bs[i + 2..];
  }

  /** A release takes exactly the released block from the used ones. */
  lemma UsedSetRelease(bs: seq<Block>, hs: nat, end: nat, i: nat)
    requires Tiles(bs, hs, end) && hs > 0 && i < |bs| && bs[i].used
    ensures UsedSet(Release(bs, i)) == UsedSet(bs) - {bs[i]}
  {
    var b1 := Mark(bs, i, false);
    var b2 := Forward(b1, i);
    UsedSetMark(bs, hs, end, i, false);
    if i + 1 < |b1| && !b1[i + 1].used { UsedSetJoin(b1, i); }
    if i > 0 && !b2[i - 1].used { UsedSetJoin(b2, i - 1); }
  }

  /** Cutting a used block shortens it and leaves the other used blocks alone. */
  lemma UsedSetShrunk(bs: seq<Block>, hs: nat, end: nat, i: nat, mid: nat)
    requires Tiles(bs, hs, end) && hs > 0 && i < |bs|
    ensures UsedSet(Shrunk(bs, i, mid)) == UsedSet(bs) - {bs[i]} + {Block(bs[i].lo, mid, true)}
  {
    var c := Split(bs, i, mid);
    UsedSetSplit(bs, hs, end, i, mid);
    SplitAt(bs, i, mid, i + 1);
    if i + 2 < |c| && !c[i + 2].used { UsedSetJoin(c, i + 1); }
  }
}
