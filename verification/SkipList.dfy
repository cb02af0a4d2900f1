/** The timer skip list (src/timer.c): rows of timers ordered by a 32-bit tick comparison that
    wraps around. Row 0 is the sparsest; the last row holds every active timer. */
module SkipList {
  import opened TickTime
  import Cells
  import opened WaitList

  const MASK_VALUES: nat := 4             // RT_TIMER_SKIP_LIST_MASK + 1

  type Id = nat
  type Rows = seq<seq<Id>>

  datatype Head = ListHead | Node(id: Id)

  // ------------------------------------------------------------------ tick arithmetic

  /** `a - b` in rt_tick_t. */
  function Diff(a: nat, b: nat): nat
    requires a < TICKS && b < TICKS
  {
    if a >= b then a - b else a + TICKS - b
  }

  /** timeout_tick of a timer. */
  function TickOf(ticks: map<Id, nat>, x: Id): (r: nat)
    ensures r < TICKS
  {
    if x in ticks && ticks[x] < TICKS then ticks[x] else 0
  }

  /** The walk goes past timer `x` when a timer with timeout `v` is inserted. */
  predicate Passed(ticks: map<Id, nat>, x: Id, v: nat)
    requires v < TICKS
  {
    var d := Diff(TickOf(ticks, x), v);
    d == 0 || !(d < HALF)
  }

  /** Ticks from `now` until a timer expires. */
  function Rank(ticks: map<Id, nat>, now: nat, x: Id): nat
    requires now < TICKS
  {
    Diff(TickOf(ticks, x), now)
  }

  /** Within a window of fewer than RT_TICK_MAX / 2 ticks the wrapping comparison is the order
      of the expiry times. */
  lemma PassedIffNotLater(ticks: map<Id, nat>, now: nat, x: Id, v: nat)
    requires now < TICKS && v < TICKS && Rank(ticks, now, x) < HALF && Diff(v, now) < HALF
    ensures Passed(ticks, x, v) <==> Rank(ticks, now, x) <= Diff(v, now)
  {
  }

  // ----------------------------------------------------------------------------- rows

  /** Linear search from position `i` for the first timer that is not passed. */
  function Scan(row: seq<Id>, ticks: map<Id, nat>, v: nat, i: nat): (p: nat)
    requires v < TICKS && i <= |row|
    ensures i <= p <= |row| && (forall j :: i <= j < p ==> Passed(ticks, row[j], v))
        && (p < |row| ==> !Passed(ticks, row[p], v))
    decreases |row| - i
  {
    if i < |row| && Passed(ticks, row[i], v) then Scan(row, ticks, v, i + 1) else i
  }

  function Ids(row: seq<Id>): set<Id> {
    set x | x in row
  }

  function Restrict(row: seq<Id>, keep: set<Id>): (r: seq<Id>)
    ensures forall x :: x in r <==> x in row && x in keep
  {
    if row == [] then [] else if row[0] in keep then [row[0]] + Restrict(row[1..], keep) else Restrict(row[1..], keep)
  }

  /** A row is a subsequence of the row below. */
  predicate SubRow(upper: seq<Id>, lower: seq<Id>) {
    upper == Restrict(lower, Ids(upper))
  }

  ghost predicate SortedBy(row: seq<Id>, ticks: map<Id, nat>, now: nat)
    requires now < TICKS
  {
    forall i, j :: 0 <= i < j < |row| ==> Rank(ticks, now, row[i]) <= Rank(ticks, now, row[j])
  }

  ghost predicate InWindow(row: seq<Id>, ticks: map<Id, nat>, now: nat)
    requires now < TICKS
  {
    forall x :: x in row ==> Rank(ticks, now, x) < HALF
  }

  /** The structure of the skip list at tick `now`. */
  ghost predicate SkipOk(rows: Rows, ticks: map<Id, nat>, now: nat)
    requires now < TICKS
  {
    && |rows| >= 1
    && (forall l :: 0 <= l < |rows| ==> RowOk(rows[l], ticks, now))
    && (forall l :: 0 <= l < |rows| - 1 ==> Nested(rows, l))
  }

  ghost predicate RowOk(row: seq<Id>, ticks: map<Id, nat>, now: nat)
    requires now < TICKS
  {
    NoDup(row) && SortedBy(row, ticks, now) && InWindow(row, ticks, now)
  }

  predicate Nested(rows: Rows, l: nat)
    requires l + 1 < |rows|
  {
    SubRow(rows[l], rows[l + 1])
  }

  function Bottom(rows: Rows): seq<Id>
    requires |rows| >= 1
  {
    rows[|rows| - 1]
  }

  // ------------------------------------------------------------------ the descent

  /** The place behind `head` in a row. */
  function After(row: seq<Id>, head: Head, i: nat := 0): (p: nat)
    requires i <= |row|
    ensures i <= p <= |row|
    ensures head.Node? && head.id in row[i..] ==> i < p && row[p - 1] == head.id
    ensures head.ListHead? ==> p == i
    decreases |row| - i
  {
    if head.ListHead? || head.id !in row[i..] then i else if row[i] == head.id then i + 1 else After(row, head, i + 1)
  }

  function HeadAt(row: seq<Id>, p: nat): Head
    requires p <= |row|
  {
    if p == 0 then ListHead else Node(row[p - 1])
  }

  /** Where the descent stops in row `l`: each row is searched from where the row above
      stopped. */
  function DescendTo(rows: Rows, ticks: map<Id, nat>, v: nat, l: nat): (p: nat)
    requires v < TICKS && l < |rows|
    ensures p <= |rows[l]|
  {
    var head := if l == 0 then ListHead else HeadAt(rows[l - 1], DescendTo(rows, ticks, v, l - 1));
    Scan(rows[l], ticks, v, After(rows[l], head))
  }

  /** row_head for row `l`. */
  function HeadInto(rows: Rows, ticks: map<Id, nat>, v: nat, l: nat): Head
    requires v < TICKS && l <= |rows|
  {
    if l == 0 then ListHead else HeadAt(rows[l - 1], DescendTo(rows, ticks, v, l - 1))
  }

  /** The places in the first `n` rows. */
  function Places(rows: Rows, ticks: map<Id, nat>, v: nat, n: nat): (r: seq<nat>)
    requires v < TICKS && n <= |rows|
    ensures |r| == n && forall l :: 0 <= l < n ==> r[l] == DescendTo(rows, ticks, v, l)
  {
    if n == 0 then [] else Places(rows, ticks, v, n - 1) + [DescendTo(rows, ticks, v, n - 1)]
  }

  /** In a sorted row the passed timers form a prefix. */
  lemma PassedPrefix(row: seq<Id>, ticks: map<Id, nat>, now: nat, v: nat, k: nat)
    requires now < TICKS && v < TICKS && RowOk(row, ticks, now) && Diff(v, now) < HALF && k < |row|
    ensures Passed(ticks, row[k], v) <==> k < Scan(row, ticks, v, 0)
  {
  }

  /** Starting the search behind a passed timer finds the same place. */
  lemma ScanFromHead(row: seq<Id>, ticks: map<Id, nat>, now: nat, v: nat, head: Head)
    requires now < TICKS && v < TICKS && RowOk(row, ticks, now) && Diff(v, now) < HALF
    requires head.Node? ==> head.id in row && Passed(ticks, head.id, v)
    ensures Scan(row, ticks, v, After(row, head)) == Scan(row, ticks, v, 0)
  {
    var i, p := After(row, head), Scan(row, ticks, v, After(row, head));
    if i > 0 { PassedPrefix(row, ticks, now, v, i - 1); }
    if p < |row| { PassedPrefix(row, ticks, now, v, p); }
    if p > i { PassedPrefix(row, ticks, now, v, p - 1); }
  }

  /** For any number of rows the descent finds, in every row, the place that a linear search
      of that row from its beginning finds. */
  lemma {:induction false} DescentIsLinear(rows: Rows, ticks: map<Id, nat>, now: nat, v: nat, l: nat)
    requires now < TICKS && v < TICKS && SkipOk(rows, ticks, now) && Diff(v, now) < HALF && l < |rows|
    ensures DescendTo(rows, ticks, v, l) == Scan(rows[l], ticks, v, 0)
  {
    if l > 0 {
      DescentIsLinear(rows, ticks, now, v, l - 1);
      var p := DescendTo(rows, ticks, v, l - 1);
      if p > 0 {
        PassedPrefix(rows[l - 1], ticks, now, v, p - 1);
        assert Nested(rows, l - 1);
      }
      ScanFromHead(rows[l], ticks, now, v, HeadAt(rows[l - 1], p));
    }
  }

  // ----------------------------------------------------------------- insertion

  /** How many rows a new timer enters: one, and one more for every leading pair of zero bits
      of the start counter. */
  function Height(counter: nat, rows: nat, h: nat := 1): (r: nat)
    requires 1 <= h <= rows
    ensures h <= r <= rows
    decreases rows - h
  {
    if h < rows && counter % MASK_VALUES == 0 then Height(counter / MASK_VALUES, rows, h + 1) else h
  }

  /** 4 to the power `j`. */
  function Pow4(j: nat): (r: nat)
    ensures r > 0
  {
    if j == 0 then 1 else 4 * Pow4(j - 1)
  }

  lemma FourTimes(c: nat, m: nat)
    requires m > 0
    ensures c % (4 * m) == 0 <==> c % 4 == 0 && c / 4 % m == 0
  {
    if c % (4 * m) == 0 {
      var q := c / (4 * m);
      assert c == 4 * m * q == 4 * (m * q);
      assert c / 4 == m * q;
      Cells.MultipleMod(m, q);
    } else if c % 4 == 0 && c / 4 % m == 0 {
      var q := c / 4 / m;
      assert c / 4 == m * q;
      assert c == 4 * (m * q) == 4 * m * q;
      Cells.MultipleMod(4 * m, q);
    }
  }

  /** A timer enters more than `k` rows exactly if 4 to the power `k` divides its start counter: every
      row has a quarter of the timers of the row below. */
  lemma {:induction false} HeightIff(counter: nat, rows: nat, k: nat, h: nat)
    requires 1 <= h <= k < rows
    ensures Height(counter, rows, h) > k <==> counter % Pow4(k - h + 1) == 0
    decreases k - h
  {
    FourTimes(counter, Pow4(k - h));
    if h < k { HeightIff(counter / 4, rows, k, h + 1); }
  }

  /** Timer `x` with timeout `v` enters the last `h` rows at their linear places. */
  function Inserted(rows: Rows, ticks: map<Id, nat>, x: Id, v: nat, h: nat): Rows
    requires v < TICKS
  {
    seq(|rows|, l requires 0 <= l < |rows| =>
      if l >= |rows| - h then InsertAt(rows[l], Scan(rows[l], ticks, v, 0), x) else rows[l])
  }

  function RemovedFrom(rows: Rows, x: Id): (r: Rows)
    ensures |r| == |rows|
  {
    seq(|rows|, l requires 0 <= l < |rows| => Without(rows[l], x))
  }

  lemma {:induction false} RestrictAppend(a: seq<Id>, b: seq<Id>, keep: set<Id>)
    ensures Restrict(a + b, keep) == Restrict(a, keep) + Restrict(b, keep)
  {
    if a == [] {
      assert a + b == b;
    } else {
      assert (a + b)[1..] == a[1..] + b;
      RestrictAppend(a[1..], b, keep);
    }
  }

  lemma {:induction false} RestrictSame(row: seq<Id>, a: set<Id>, b: set<Id>)
    requires forall x :: x in row ==> (x in a <==> x in b)
    ensures Restrict(row, a) == Restrict(row, b)
  {
    if row != [] {
      assert row[0] in row && forall x :: x in row[1..] ==> x in row;
      RestrictSame(row[1..], a, b);
    }
  }

  /** The insertion places of a row and of the row below match: the passed part of the upper
      row is the passed part of the lower row, restricted. */
  lemma CutsMatch(upper: seq<Id>, lower: seq<Id>, ticks: map<Id, nat>, now: nat, v: nat)
    requires now < TICKS && v < TICKS && Diff(v, now) < HALF
    requires RowOk(upper, ticks, now) && RowOk(lower, ticks, now) && SubRow(upper, lower)
    ensures var p, q := Scan(lower, ticks, v, 0), Scan(upper, ticks, v, 0);
      upper[..q] == Restrict(lower[..p], Ids(upper)) && upper[q..] == Restrict(lower[p..], Ids(upper))
  {
    var keep, p, q := Ids(upper), Scan(lower, ticks, v, 0), Scan(upper, ticks, v, 0);
    assert lower == lower[..p] + lower[p..];
    RestrictAppend(lower[..p], lower[p..], keep);
    CutSize(upper, lower, ticks, now, v, Restrict(lower[..p], keep), Restrict(lower[p..], keep));
  }

  /** The upper row is cut after the members of the lower row's front part. */
  lemma CutSize(upper: seq<Id>, lower: seq<Id>, ticks: map<Id, nat>, now: nat, v: nat, ub: seq<Id>, ua: seq<Id>)
    requires now < TICKS && v < TICKS && Diff(v, now) < HALF
    requires RowOk(upper, ticks, now) && RowOk(lower, ticks, now) && upper == ub + ua
    requires forall x :: x in ub ==> x in lower[..Scan(lower, ticks, v, 0)]
    requires forall x :: x in ua ==> x in lower[Scan(lower, ticks, v, 0)..]
    ensures Scan(upper, ticks, v, 0) == |ub|
  {
    var q := Scan(upper, ticks, v, 0);
    if q < |ub| {
      assert upper[q] == ub[q] && ub[q] in ub;
      PassedSides(lower, ticks, now, v, ub[q]);
    }
    if q > |ub| {
      assert upper[|ub|] == ua[0] && ua[0] in ua;
      PassedSides(lower, ticks, now, v, ua[0]);
    }
  }

  lemma PassedSides(row: seq<Id>, ticks: map<Id, nat>, now: nat, v: nat, x: Id)
    requires now < TICKS && v < TICKS && RowOk(row, ticks, now) && Diff(v, now) < HALF
    ensures var p := Scan(row, ticks, v, 0);
      (x in row[..p] ==> Passed(ticks, x, v)) && (x in row[p..] ==> !Passed(ticks, x, v))
  {
  }

  /** Putting a newcomer between the matching parts of both rows, or of the lower row only. */
  lemma InsertBetween(upper: seq<Id>, lower: seq<Id>, q: nat, p: nat, x: Id)
    requires q <= |upper| && p <= |lower| && x !in lower && SubRow(upper, lower)
    requires upper[..q] == Restrict(lower[..p], Ids(upper)) && upper[q..] == Restrict(lower[p..], Ids(upper))
    ensures SubRow(InsertAt(upper, q, x), InsertAt(lower, p, x)) && SubRow(upper, InsertAt(lower, p, x))
  {
    var before, behind, both := lower[..p], lower[p..], InsertAt(upper, q, x);
    assert upper == upper[..q] + upper[q..];
    forall y ensures y in both <==> y in upper || y == x {}
    RestrictSame(before, Ids(upper), Ids(both));
    RestrictSame(behind, Ids(upper), Ids(both));
    InsertRestricted(before, behind, x, Ids(both));
    InsertRestricted(before, behind, x, Ids(upper));
  }

  lemma InsertRestricted(before: seq<Id>, behind: seq<Id>, x: Id, keep: set<Id>)
    ensures Restrict(before + [x] + behind, keep) ==
            Restrict(before, keep) + (if x in keep then [x] else []) + Restrict(behind, keep)
  {
    RestrictAppend(before + [x], behind, keep);
    RestrictAppend(before, [x], keep);
  }

  lemma InsertNested(upper: seq<Id>, lower: seq<Id>, ticks: map<Id, nat>, now: nat, x: Id, v: nat)
    requires now < TICKS && v < TICKS && Diff(v, now) < HALF && x !in lower
    requires RowOk(upper, ticks, now) && RowOk(lower, ticks, now) && SubRow(upper, lower)
    ensures SubRow(InsertAt(upper, Scan(upper, ticks, v, 0), x), InsertAt(lower, Scan(lower, ticks, v, 0), x))
    ensures SubRow(upper, InsertAt(lower, Scan(lower, ticks, v, 0), x))
  {
    CutsMatch(upper, lower, ticks, now, v);
    InsertBetween(upper, lower, Scan(upper, ticks, v, 0), Scan(lower, ticks, v, 0), x);
  }

  /** The newcomer stands behind every timer that expires no later, in particular behind those
      of the same tick, and before all others. */
  lemma InsertionPoint(row: seq<Id>, ticks: map<Id, nat>, now: nat, v: nat, k: nat)
    requires now < TICKS && v < TICKS && Diff(v, now) < HALF && RowOk(row, ticks, now) && k < |row|
    ensures k < Scan(row, ticks, v, 0) <==> Rank(ticks, now, row[k]) <= Diff(v, now)
  {
    PassedPrefix(row, ticks, now, v, k);
    PassedIffNotLater(ticks, now, row[k], v);
  }

  /** Inserting into a sorted row keeps it sorted. */
  lemma InsertSorted(row: seq<Id>, ticks: map<Id, nat>, now: nat, x: Id, v: nat)
    requires now < TICKS && v < TICKS && Diff(v, now) < HALF && x !in row && RowOk(row, ticks, now)
    ensures RowOk(InsertAt(row, Scan(row, ticks, v, 0), x), ticks[x := v], now)
  {
    var p, ticks1 := Scan(row, ticks, v, 0), ticks[x := v];
    SameTicks(row, ticks, ticks1, now);
    forall k | 0 <= k < |row| ensures k < p <==> Rank(ticks1, now, row[k]) <= Rank(ticks1, now, x) {
      InsertionPoint(row, ticks, now, v, k);
      assert row[k] in row;
    }
    SortedInsert(row, ticks1, now, x, p);
    WindowInsert(row, ticks1, now, x, p);
  }

  lemma WindowInsert(row: seq<Id>, ticks: map<Id, nat>, now: nat, x: Id, p: nat)
    requires now < TICKS && p <= |row| && InWindow(row, ticks, now) && Rank(ticks, now, x) < HALF
    ensures InWindow(InsertAt(row, p, x), ticks, now)
  {
  }

  lemma SortedInsert(row: seq<Id>, ticks: map<Id, nat>, now: nat, x: Id, p: nat)
    requires now < TICKS && p <= |row| && x !in row && NoDup(row) && SortedBy(row, ticks, now)
    requires forall k :: 0 <= k < |row| ==> (k < p <==> Rank(ticks, now, row[k]) <= Rank(ticks, now, x))
    ensures NoDup(InsertAt(row, p, x)) && SortedBy(InsertAt(row, p, x), ticks, now)
  {
    var r := InsertAt(row, p, x);
    forall i, j | 0 <= i < j < |r| ensures r[i] != r[j] && Rank(ticks, now, r[i]) <= Rank(ticks, now, r[j]) {
      var i1, j1 := if i < p then i else i - 1, if j < p then j else j - 1;
      if i != p { assert r[i] == row[i1]; }
      if j != p { assert r[j] == row[j1]; }
    }
  }

  /** A start keeps every row sorted and every upper row a subsequence of the row below. */
  lemma InsertKeepsSkip(rows: Rows, ticks: map<Id, nat>, now: nat, x: Id, v: nat, h: nat)
    requires now < TICKS && v < TICKS && Diff(v, now) < HALF && SkipOk(rows, ticks, now) && 1 <= h <= |rows|
    requires forall l :: 0 <= l < |rows| ==> x !in rows[l]
    ensures SkipOk(Inserted(rows, ticks, x, v, h), ticks[x := v], now)
  {
    var rows1, ticks1 := Inserted(rows, ticks, x, v, h), ticks[x := v];
    forall l | 0 <= l < |rows| ensures RowOk(rows1[l], ticks1, now) {
      InsertSorted(rows[l], ticks, now, x, v);
      if l < |rows| - h { SameTicks(rows[l], ticks, ticks1, now); }
    }
    forall l | 0 <= l < |rows| - 1 ensures Nested(rows1, l) {
      assert Nested(rows, l);
      InsertNested(rows[l], rows[l + 1], ticks, now, x, v);
    }
  }

  lemma SameTicks(row: seq<Id>, a: map<Id, nat>, b: map<Id, nat>, now: nat)
    requires now < TICKS && RowOk(row, a, now) && forall y :: y in row ==> TickOf(a, y) == TickOf(b, y)
    ensures RowOk(row, b, now)
  {
  }

  // ------------------------------------------------------------------- removal, time

  lemma {:induction false} RestrictWithout(row: seq<Id>, keep: set<Id>, x: Id)
    ensures Restrict(Without(row, x), keep - {x}) == Without(Restrict(row, keep), x)
  {
    if row != [] {
      RestrictWithout(row[1..], keep, x);
      if row[0] in keep {
        assert ([row[0]] + Restrict(row[1..], keep))[1..] == Restrict(row[1..], keep);
      }
      if row[0] != x {
        assert ([row[0]] + Without(row[1..], x))[1..] == Without(row[1..], x);
      }
    }
  }

  lemma SortedDelete(row: seq<Id>, ticks: map<Id, nat>, now: nat, n: nat)
    requires now < TICKS && n < |row| && SortedBy(row, ticks, now)
    ensures SortedBy(row[..n] + row[n + 1..], ticks, now)
  {
  }

  lemma WithoutRowOk(row: seq<Id>, ticks: map<Id, nat>, now: nat, x: Id)
    requires now < TICKS && RowOk(row, ticks, now)
    ensures RowOk(Without(row, x), ticks, now)
  {
    WithoutNoDup(row, x);
    if x in row {
      var n :| 0 <= n < |row| && row[n] == x;
      WithoutAt(row, n);
      SortedDelete(row, ticks, now, n);
    }
  }

  lemma BottomRemoved(rows: Rows, x: Id)
    requires |rows| >= 1
    ensures Bottom(RemovedFrom(rows, x)) == Without(Bottom(rows), x)
  {
  }

  lemma RemoveNested(upper: seq<Id>, lower: seq<Id>, x: Id)
    requires SubRow(upper, lower)
    ensures SubRow(Without(upper, x), Without(lower, x))
  {
    RestrictWithout(lower, Ids(upper), x);
    RestrictSame(Without(lower, x), Ids(upper) - {x}, Ids(Without(upper, x)));
  }

  lemma RemoveNestedAt(rows: Rows, x: Id, l: nat)
    requires l + 1 < |rows| && Nested(rows, l)
    ensures Nested(RemovedFrom(rows, x), l)
  {
    RemoveNested(rows[l], rows[l + 1], x);
  }

  /** _rt_timer_remove: taking a timer out of every row keeps the structure. */
  lemma RemoveKeepsSkip(rows: Rows, ticks: map<Id, nat>, now: nat, x: Id)
    requires now < TICKS && SkipOk(rows, ticks, now)
    ensures SkipOk(RemovedFrom(rows, x), ticks, now)
  {
    var rows1 := RemovedFrom(rows, x);
    forall l | 0 <= l < |rows1| ensures RowOk(rows1[l], ticks, now) { WithoutRowOk(rows[l], ticks, now, x); }
    forall l | 0 <= l < |rows1| - 1 ensures Nested(rows1, l) { RemoveNestedAt(rows, x, l); }
  }

  /** The next tick: if nothing was due at `now`, every order stays as it was. */
  lemma TickKeepsSkip(rows: Rows, ticks: map<Id, nat>, now: nat)
    requires now < TICKS && SkipOk(rows, ticks, now)
    requires forall l, x :: 0 <= l < |rows| && x in rows[l] ==> Rank(ticks, now, x) > 0
    ensures SkipOk(rows, ticks, (now + 1) % TICKS)
  {
    var now1 := (now + 1) % TICKS;
    forall l | 0 <= l < |rows| ensures RowOk(rows[l], ticks, now1) {
      forall x | x in rows[l] ensures Rank(ticks, now1, x) == Rank(ticks, now, x) - 1 {}
      assert forall i :: 0 <= i < |rows[l]| ==> rows[l][i] in rows[l];
    }
    forall l | 0 <= l < |rows| - 1 ensures Nested(rows, l) {}
  }
}
