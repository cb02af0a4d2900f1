/** Machine words as natural numbers, their bits, and the find-first-set table
    (src/kservice.c). */
module Words {
  /** Bit `i` of a word. */
  predicate Bit(w: nat, i: nat) {
    if i == 0 then w % 2 == 1 else Bit(w / 2, i - 1)
  }

  function And(w: nat, v: nat): nat {
    if w == 0 then 0 else 2 * And(w / 2, v / 2) + (w % 2) * (v % 2)
  }

  function Or(w: nat, v: nat): nat
    decreases w + v
  {
    if w == 0 && v == 0 then 0
    else 2 * Or(w / 2, v / 2) + if w % 2 == 1 || v % 2 == 1 then 1 else 0
  }

  /** `w & ~v`. */
  function AndNot(w: nat, v: nat): nat {
    if w == 0 then 0 else 2 * AndNot(w / 2, v / 2) + if w % 2 == 1 && v % 2 == 0 then 1 else 0
  }

  /** `1 << i`. */
  function Mask(i: nat): (r: nat)
    ensures r > 0
  {
    if i == 0 then 1 else 2 * Mask(i - 1)
  }

  lemma {:induction false} ZeroBits(i: nat)
    ensures !Bit(0, i)
  {
    if i > 0 { ZeroBits(i - 1); }
  }

  lemma {:induction false} AndBits(w: nat, v: nat, i: nat)
    ensures Bit(And(w, v), i) <==> Bit(w, i) && Bit(v, i)
    decreases i
  {
    ZeroBits(i);
    if w != 0 && i > 0 { AndBits(w / 2, v / 2, i - 1); }
  }

  lemma {:induction false} OrBits(w: nat, v: nat, i: nat)
    ensures Bit(Or(w, v), i) <==> Bit(w, i) || Bit(v, i)
    decreases i
  {
    ZeroBits(i);
    if w + v != 0 && i > 0 { OrBits(w / 2, v / 2, i - 1); }
  }

  lemma {:induction false} AndNotBits(w: nat, v: nat, i: nat)
    ensures Bit(AndNot(w, v), i) <==> Bit(w, i) && !Bit(v, i)
    decreases i
  {
    ZeroBits(i);
    if w != 0 && i > 0 { AndNotBits(w / 2, v / 2, i - 1); }
  }

  lemma {:induction false} MaskBits(k: nat, i: nat)
    ensures Bit(Mask(k), i) <==> i == k
    decreases i
  {
    if k == 0 { if i > 0 { ZeroBits(i - 1); } } else if i > 0 { MaskBits(k - 1, i - 1); }
  }

  /** The least one bit of a nonzero word. */
  function LeastBit(w: nat): nat
    requires w > 0
  {
    if w % 2 == 1 then 0 else 1 + LeastBit(w / 2)
  }

  lemma {:induction false} LeastBitSet(w: nat)
    requires w > 0
    ensures Bit(w, LeastBit(w))
  {
    if w % 2 == 0 { LeastBitSet(w / 2); }
  }

  lemma {:induction false} LeastBitLeast(w: nat, i: nat)
    requires w > 0 && i < LeastBit(w)
    ensures !Bit(w, i)
  {
    if i > 0 { LeastBitLeast(w / 2, i - 1); }
  }

  lemma ZeroIffNoBits(w: nat)
    ensures w == 0 ==> forall i: nat :: !Bit(w, i)
    ensures w != 0 ==> exists i: nat :: Bit(w, i)
  {
    if w == 0 {
      forall i: nat ensures !Bit(w, i) { ZeroBits(i); }
    } else {
      LeastBitSet(w);
    }
  }

  /** A word below 2^n has no bit from `n` on. */
  lemma {:induction false} HighBitsZero(w: nat, n: nat, i: nat)
    requires w < Mask(n) && i >= n
    ensures !Bit(w, i)
  {
    if n == 0 { ZeroBits(i); } else { HighBitsZero(w / 2, n - 1, i - 1); }
  }

  // --------------------------------------------------------------------- __rt_ffs

  /** The rows of __lowest_bit_bitmap differ in their first entry only. */
  const ROW_HEADS: seq<nat> := [0, 4, 5, 4, 6, 4, 5, 4, 7, 4, 5, 4, 6, 4, 5, 4]
  const ROW_REST: seq<nat> := [0, 1, 0, 2, 0, 1, 0, 3, 0, 1, 0, 2, 0, 1, 0]

  function LowestBitTable(b: nat): nat
    requires b < 256
  {
    if b % 16 == 0 then ROW_HEADS[b / 16] else ROW_REST[b % 16 - 1]
  }

  const WORD: nat := 0x1_0000_0000

  function Ffs(value: nat): nat
    requires value < WORD
  {
    if value == 0 then 0
    else if value % 0x100 != 0 then LowestBitTable(value % 0x100) + 1
    else if value / 0x100 % 0x100 != 0 then LowestBitTable(value / 0x100 % 0x100) + 9
    else if value / 0x1_0000 % 0x100 != 0 then LowestBitTable(value / 0x1_0000 % 0x100) + 17
    else LowestBitTable(value / 0x100_0000) + 25
  }

  lemma Even(x: nat)
    requires x > 0
    ensures LeastBit(2 * x) == 1 + LeastBit(x)
  {
  }

  lemma Odd(x: nat)
    ensures LeastBit(2 * x + 1) == 0
  {
  }

  /** The position of the least one bit of a nonzero nibble. */
  function NibbleBit(k: nat): nat {
    if k == 8 then 3 else if k == 4 || k == 12 then 2 else if k == 2 || k == 6 || k == 10 || k == 14 then 1 else 0
  }

  lemma RowRest(k: nat)
    requires 0 < k < 16
    ensures ROW_REST[k - 1] == NibbleBit(k)
  {
  }

  lemma RowHeads(k: nat)
    requires 0 < k < 16
    ensures ROW_HEADS[k] == 4 + NibbleBit(k)
  {
  }

  /** A nonzero low nibble `k` decides. */
  lemma LowNibble(q: nat, k: nat)
    requires 0 < k < 16
    ensures LeastBit(16 * q + k) == NibbleBit(k)
  {
    var j := k / 2;
    if k == 2 * j + 1 {
      Odd(8 * q + j);
    } else {
      Even(8 * q + j);
      LowThree(q, j);
    }
  }

  lemma LowThree(q: nat, j: nat)
    requires 0 < j < 8
    ensures LeastBit(8 * q + j) == NibbleBit(2 * j) - 1
  {
    if j == 4 {
      Even(4 * q + 2);
      Even(2 * q + 1);
      Odd(q);
    } else if j == 2 || j == 6 {
      Even(4 * q + j / 2);
      Odd(2 * q + j / 4);
    } else {
      Odd(4 * q + j / 2);
    }
  }

  lemma SkipNibble(q: nat)
    requires q > 0
    ensures LeastBit(16 * q) == 4 + LeastBit(q)
  {
    Even(8 * q);
    Even(4 * q);
    Even(2 * q);
    Even(q);
  }

  /** A nonzero low byte `b` decides, and the table holds its least bit. */
  lemma LowByte(q: nat, b: nat)
    requires 0 < b < 256
    ensures LeastBit(256 * q + b) == LowestBitTable(b) < 8
  {
    var h, k := b / 16, b % 16;
    assert 256 * q + b == 16 * (16 * q + h) + k;
    if k != 0 {
      RowRest(k);
      LowNibble(16 * q + h, k);
    } else {
      SkipNibble(16 * q + h);
      LowNibble(q, h);
      RowHeads(h);
    }
  }

  lemma SkipByte(q: nat)
    requires q > 0
    ensures LeastBit(256 * q) == 8 + LeastBit(q)
  {
    SkipNibble(16 * q);
    SkipNibble(q);
  }

  /** For every 32-bit word, __rt_ffs returns 0 for zero and otherwise one more than the
      position of the least one bit. */
  lemma FfsIsLeastBit(w: nat)
    requires w < WORD
    ensures Ffs(w) == 0 <==> w == 0
    ensures w != 0 ==> Bit(w, Ffs(w) - 1) && Ffs(w) <= 32 && forall i: nat :: i < Ffs(w) - 1 ==> !Bit(w, i)
  {
    if w != 0 {
      FfsLeast(w);
      LeastBitSet(w);
      forall i: nat | i < Ffs(w) - 1 ensures !Bit(w, i) { LeastBitLeast(w, i); }
    }
  }

  lemma FfsLeast(w: nat)
    requires 0 < w < WORD
    ensures LeastBit(w) == Ffs(w) - 1 && Ffs(w) <= 32
  {
    var w1 := w / 0x100;
    var w2 := w1 / 0x100;
    var w3 := w2 / 0x100;
    FourBytes(w, w1, w2, w3, w % 0x100, w1 % 0x100, w2 % 0x100);
    Quotients(w);
  }

  lemma Quotients(w: nat)
    ensures w / 0x100 / 0x100 == w / 0x1_0000 && w / 0x100 / 0x100 / 0x100 == w / 0x100_0000
  {
  }

  lemma ByteStep(w: nat, q: nat, b: nat)
    requires w == 256 * q + b && b < 256 && w > 0
    ensures b != 0 ==> LeastBit(w) == LowestBitTable(b) < 8
    ensures b == 0 ==> q > 0 && LeastBit(w) == 8 + LeastBit(q)
  {
    if b != 0 { LowByte(q, b); } else { SkipByte(q); }
  }

  /** The least nonzero byte decides. */
  lemma FourBytes(w: nat, w1: nat, w2: nat, d: nat, a: nat, b: nat, c: nat)
    requires a < 256 && b < 256 && c < 256 && d < 256 && w > 0
    requires w == 256 * w1 + a && w1 == 256 * w2 + b && w2 == 256 * d + c
    ensures LeastBit(w) ==
            if a != 0 then LowestBitTable(a)
            else if b != 0 then LowestBitTable(b) + 8
            else if c != 0 then LowestBitTable(c) + 16 else LowestBitTable(d) + 24
    ensures LeastBit(w) < 32
  {
    ByteStep(w, w1, a);
    if a == 0 {
      ByteStep(w1, w2, b);
      if b == 0 {
        ByteStep(w2, d, c);
        if c == 0 { ByteStep(d, 0, d); }
      }
    }
  }

  // -------------------------------------------------------------- words as sets

  function Positions(n: nat): (r: set<nat>)
    ensures forall i: nat :: i in r <==> i < n
  {
    if n == 0 then {} else Positions(n - 1) + {n - 1}
  }

  /** The positions below `n` of the one bits of a word. */
  ghost function BitsOf(w: nat, n: nat): set<nat> {
    set i | i in Positions(n) && Bit(w, i)
  }

  /** The bitwise operations are the set operations on positions, and a word that fits is
      zero exactly when it has no position. */
  lemma WordOperations(w: nat, v: nat, n: nat)
    ensures BitsOf(And(w, v), n) == BitsOf(w, n) * BitsOf(v, n)
    ensures BitsOf(Or(w, v), n) == BitsOf(w, n) + BitsOf(v, n)
    ensures BitsOf(AndNot(w, v), n) == BitsOf(w, n) - BitsOf(v, n)
    ensures w < Mask(n) ==> (w == 0 <==> BitsOf(w, n) == {})
  {
    forall i: nat ensures Bit(And(w, v), i) <==> Bit(w, i) && Bit(v, i) { AndBits(w, v, i); }
    forall i: nat ensures Bit(Or(w, v), i) <==> Bit(w, i) || Bit(v, i) { OrBits(w, v, i); }
    forall i: nat ensures Bit(AndNot(w, v), i) <==> Bit(w, i) && !Bit(v, i) { AndNotBits(w, v, i); }
    if w < Mask(n) {
      ZeroIffNoBits(w);
      forall i: nat | i >= n ensures !Bit(w, i) { HighBitsZero(w, n, i); }
      if w != 0 {
        LeastBitSet(w);
        assert LeastBit(w) in BitsOf(w, n);
      }
    }
  }
}
