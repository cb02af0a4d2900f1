/** The ready queues and the priority bitmap of the scheduler (src/scheduler.c), in the form
    for at most 32 priority levels and in the two-level form for 256. */
module ReadyQueues {
  import opened WaitList
  import opened Words

  type Queues = seq<seq<Tid>>

  // ------------------------------------------------------ the operations, on values

  function Inserted(q: Queues, t: Tid, p: nat): Queues
    requires p < |q|
  {
    q[p := q[p] + [t]]
  }

  function Removed(q: Queues, t: Tid, p: nat): Queues
    requires p < |q|
  {
    q[p := Without(q[p], t)]
  }

  /** rt_thread_yield: a thread that shares its queue moves to the back. */
  function Yielded(q: Queues, t: Tid, p: nat): Queues
    requires p < |q|
  {
    if |q[p]| >= 2 then q[p := Without(q[p], t) + [t]] else q
  }

  ghost predicate SomeReady(q: Queues) {
    exists p :: 0 <= p < |q| && q[p] != []
  }

  /** `p` is the most urgent level with a ready thread. */
  ghost predicate IsTop(q: Queues, p: nat) {
    p < |q| && q[p] != [] && forall i :: 0 <= i < p ==> q[i] == []
  }

  /** Thread `t` heads the most urgent nonempty queue. */
  ghost predicate Chosen(q: Queues, t: Tid) {
    exists p: nat :: IsTop(q, p) && t == q[p][0]
  }

  // ------------------------------------------------------------------ bitmap lemmas

  lemma {:induction false} MaskBound(k: nat, n: nat)
    requires k < n
    ensures Mask(k) < Mask(n)
    decreases n
  {
    if k > 0 { MaskBound(k - 1, n - 1); }
  }

  lemma {:induction false} OrBound(w: nat, v: nat, n: nat)
    requires w < Mask(n) && v < Mask(n)
    ensures Or(w, v) < Mask(n)
    decreases n
  {
    if n > 0 { OrBound(w / 2, v / 2, n - 1); }
  }

  lemma {:induction false} AndNotBound(w: nat, v: nat)
    ensures AndNot(w, v) <= w
  {
    if w != 0 { AndNotBound(w / 2, v / 2); }
  }

  lemma MaskValues()
    ensures Mask(8) == 0x100 && Mask(32) == WORD
  {
    assert Mask(4) == 16;
    assert Mask(8) == 0x100;
    assert Mask(12) == 0x1000;
    assert Mask(16) == 0x1_0000;
    assert Mask(20) == 0x10_0000;
    assert Mask(24) == 0x100_0000;
    assert Mask(28) == 0x1000_0000;
  }

  /** Setting a bit changes that bit only. */
  lemma SetBit(w: nat, k: nat, n: nat)
    requires w < Mask(n) && k < n
    ensures Or(w, Mask(k)) < Mask(n)
    ensures forall i: nat :: Bit(Or(w, Mask(k)), i) <==> Bit(w, i) || i == k
  {
    MaskBound(k, n);
    OrBound(w, Mask(k), n);
    forall i: nat ensures Bit(Or(w, Mask(k)), i) <==> Bit(w, i) || i == k {
      OrBits(w, Mask(k), i);
      MaskBits(k, i);
    }
  }

  /** Clearing a bit changes that bit only. */
  lemma ClearBit(w: nat, k: nat)
    ensures AndNot(w, Mask(k)) <= w
    ensures forall i: nat :: Bit(AndNot(w, Mask(k)), i) <==> Bit(w, i) && i != k
  {
    AndNotBound(w, Mask(k));
    forall i: nat ensures Bit(AndNot(w, Mask(k)), i) <==> Bit(w, i) && i != k {
      AndNotBits(w, Mask(k), i);
      MaskBits(k, i);
    }
  }

  // ------------------------------------------------------- at most 32 priority levels

  const LEVELS: nat := 32

  class Levels {
    const queues: array<seq<Tid>>
    var group: nat
    var current: Tid
    var lockNest: int

    ghost predicate Valid()
      reads this, queues
    {
      && queues.Length == LEVELS && group < WORD
      && forall p :: 0 <= p < LEVELS ==> (Bit(group, p) <==> queues[p] != [])
    }

    ghost function View(): Queues
      reads queues
    {
      queues[..]
    }

    constructor (first: Tid)
      ensures Valid() && fresh(queues) && View() == seq(LEVELS, i => [])
      ensures current == first && lockNest == 0
    {
      queues := new seq<Tid>[LEVELS](i => []);
      group, current, lockNest := 0, first, 0;
      forall i: nat ensures !Bit(0, i) { ZeroBits(i); }
    }

    method Insert(t: Tid, p: nat)
      requires Valid() && p < LEVELS
      modifies this`group, queues
      ensures Valid() && View() == Inserted(old(View()), t, p)
    {
      MaskValues();
      SetBit(group, p, LEVELS);
      queues[p] := queues[p] + [t];
      group := Or(group, Mask(p));
    }

    method Remove(t: Tid, p: nat)
      requires Valid() && p < LEVELS && t in queues[p]
      modifies this`group, queues
      ensures Valid() && View() == Removed(old(View()), t, p)
    {
      ClearBit(group, p);
      queues[p] := Without(queues[p], t);
      if queues[p] == [] { group := AndNot(group, Mask(p)); }
    }

    /** The end of rt_schedule_remove_thread for a thread that was on another list. */
    method ClearIfEmpty(p: nat)
      requires Valid() && p < LEVELS
      modifies this`group
      ensures Valid()
    {
      ClearBit(group, p);
      if queues[p] == [] { group := AndNot(group, Mask(p)); }
    }

    lemma BitsAreExact()
      requires Valid()
      ensures forall p: nat :: p in BitsOf(group, LEVELS) <==> p < |View()| && View()[p] != []
    {
    }

    /** rt_thread_yield's list moves leave the bitmap alone. */
    method Rotate(t: Tid, p: nat)
      requires Valid() && p < LEVELS
      modifies queues
      ensures Valid() && View() == Yielded(old(View()), t, p)
    {
      if |queues[p]| >= 2 { queues[p] := Without(queues[p], t) + [t]; }
    }

    /** The choice of rt_schedule. */
    method Highest() returns (p: nat, t: Tid)
      requires Valid() && SomeReady(View())
      ensures IsTop(View(), p) && t == View()[p][0]
    {
      ghost var k :| 0 <= k < LEVELS && queues[k] != [];
      assert Bit(group, k);
      ZeroBits(k);
      FfsIsLeastBit(group);
      p := Ffs(group) - 1;
      t := queues[p][0];
    }

    /** rt_schedule, without the context switch. */
    method Schedule()
      requires Valid() && SomeReady(View())
      modifies this`current
      ensures lockNest != 0 ==> current == old(current)
      ensures lockNest == 0 ==> Chosen(View(), current)
    {
      if lockNest == 0 {
        var p, t := Highest();
        if t != current { current := t; }
      }
    }

    method EnterCritical()
      modifies this`lockNest
      ensures lockNest == old(lockNest) + 1
    {
      lockNest := lockNest + 1;
    }

    /** The outermost rt_exit_critical makes up for every schedule skipped while locked. */
    method ExitCritical()
      requires Valid() && SomeReady(View())
      modifies this`lockNest, this`current
      ensures lockNest == if old(lockNest) <= 1 then 0 else old(lockNest) - 1
      ensures old(lockNest) > 1 ==> current == old(current)
      ensures old(lockNest) <= 1 ==> Chosen(View(), current)
    {
      lockNest := lockNest - 1;
      if lockNest <= 0 {
        lockNest := 0;
        Schedule();
      }
    }
  }

  // ------------------------------------------------------------- 256 priority levels

  const WIDE: nat := 256

  /** Byte `b` of the table stands for the eight queues of row `n`, `bit` for the byte. */
  ghost predicate Row(bit: bool, b: nat, q: Queues, n: nat)
    requires |q| == WIDE && n < 32
  {
    b < 256 && (bit <==> b != 0) && forall k: nat :: k < 8 ==> (Bit(b, k) <==> q[8 * n + k] != [])
  }

  lemma RowInsert(bit: bool, b: nat, q: Queues, n: nat, low: nat, t: Tid)
    requires |q| == WIDE && n < 32 && low < 8 && Row(bit, b, q, n)
    ensures Row(true, Or(b, Mask(low)), Inserted(q, t, 8 * n + low), n)
  {
    MaskValues();
    SetBit(b, low, 8);
    ZeroBits(low);
    assert Bit(Or(b, Mask(low)), low);
  }

  lemma RowRemove(bit: bool, b: nat, q: Queues, n: nat, low: nat, t: Tid)
    requires |q| == WIDE && n < 32 && low < 8 && Row(bit, b, q, n) && t in q[8 * n + low]
    ensures var q1 := Removed(q, t, 8 * n + low);
      var b1 := if q1[8 * n + low] == [] then AndNot(b, Mask(low)) else b;
      Row(b1 != 0, b1, q1, n)
  {
    ClearBit(b, low);
    ZeroBits(low);
  }

  class WideLevels {
    const queues: array<seq<Tid>>
    const table: array<nat>             // one byte for eight levels
    var group: nat

    ghost predicate Valid()
      reads this, queues, table
    {
      && queues.Length == WIDE && table.Length == 32 && group < WORD
      && (forall n :: 0 <= n < 32 ==> RowOk(n))
    }

    ghost predicate RowOk(n: nat)
      requires n < 32 && queues.Length == WIDE && table.Length == 32
      reads this, queues, table
    {
      Row(Bit(group, n), table[n], queues[..], n)
    }

    ghost function View(): Queues
      reads queues
    {
      queues[..]
    }

    constructor ()
      ensures Valid() && fresh(queues) && fresh(table) && View() == seq(WIDE, i => [])
    {
      queues := new seq<Tid>[WIDE](i => []);
      table := new nat[32](i => 0);
      group := 0;
      new;
      forall i: nat ensures !Bit(0, i) { ZeroBits(i); }
    }

    method Insert(t: Tid, number: nat, low: nat)
      requires Valid() && number < 32 && low < 8
      modifies this`group, queues, table
      ensures Valid() && View() == Inserted(old(View()), t, 8 * number + low)
    {
      assert RowOk(number);
      RowInsert(Bit(group, number), table[number], queues[..], number, low, t);
      MaskValues();
      SetBit(group, number, 32);
      queues[8 * number + low] := queues[8 * number + low] + [t];
      table[number] := Or(table[number], Mask(low));
      group := Or(group, Mask(number));
      assert View() == Inserted(old(View()), t, 8 * number + low);
      forall n | 0 <= n < 32 ensures RowOk(n) { assert old(RowOk(n)); }
    }

    method Remove(t: Tid, number: nat, low: nat)
      requires Valid() && number < 32 && low < 8 && t in queues[8 * number + low]
      modifies this`group, queues, table
      ensures Valid() && View() == Removed(old(View()), t, 8 * number + low)
    {
      assert RowOk(number);
      RowRemove(Bit(group, number), table[number], queues[..], number, low, t);
      ClearBit(group, number);
      queues[8 * number + low] := Without(queues[8 * number + low], t);
      if queues[8 * number + low] == [] {
        table[number] := AndNot(table[number], Mask(low));
        if table[number] == 0 { group := AndNot(group, Mask(number)); }
      }
      assert View() == Removed(old(View()), t, 8 * number + low);
      forall n | 0 <= n < 32 ensures RowOk(n) { assert old(RowOk(n)); }
    }

    method Highest() returns (p: nat, t: Tid)
      requires Valid() && SomeReady(View())
      ensures IsTop(View(), p) && t == View()[p][0]
    {
      TopFound();
      var number := Ffs(group) - 1;
      p := number * 8 + Ffs(table[number]) - 1;
      t := queues[p][0];
    }

    /** The two lookups of rt_schedule are in range and lead to the most urgent queue. */
    lemma TopFound()
      requires Valid() && SomeReady(View())
      ensures 0 < Ffs(group) <= 32
      ensures table[Ffs(group) - 1] < 256 && 0 < Ffs(table[Ffs(group) - 1]) <= 8
      ensures IsTop(View(), (Ffs(group) - 1) * 8 + Ffs(table[Ffs(group) - 1]) - 1)
    {
      RowOfReady();
      FfsIsLeastBit(group);
      var number: nat := Ffs(group) - 1;
      assert RowOk(number);
      FfsIsLeastBit(table[number]);
      var low: nat := Ffs(table[number]) - 1;
      LowBits(table[number], low);
      var p := 8 * number + low;
      forall i | 0 <= i < p ensures queues[i] == [] { EmptyBelow(number, low, i / 8, i % 8); }
    }

    lemma EmptyBelow(number: nat, low: nat, n: nat, k: nat)
      requires Valid() && number < 32 && low < 8 && k < 8 && 8 * n + k < 8 * number + low
      requires forall i: nat :: i < number ==> !Bit(group, i)
      requires forall i: nat :: i < low ==> !Bit(table[number], i)
      ensures queues[8 * n + k] == []
    {
      assert RowOk(n);
      if n < number {
        assert !Bit(group, n);
        ZeroBits(k);
      }
      assert !Bit(table[n], k);
    }

    lemma RowOfReady()
      requires Valid() && SomeReady(View())
      ensures group != 0
    {
      var p :| 0 <= p < WIDE && queues[p] != [];
      var n, k := p / 8, p % 8;
      assert RowOk(n) && p == 8 * n + k;
      ZeroBits(k);
      ZeroBits(n);
      assert Bit(table[n], k);
    }
  }

  lemma LowBits(b: nat, low: nat)
    requires b < 256 && Bit(b, low)
    ensures low < 8
  {
    MaskValues();
    if low >= 8 { HighBitsZero(b, 8, low); }
  }
}
