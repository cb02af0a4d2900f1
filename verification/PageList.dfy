/** The page allocator under the slab allocator (src/slab.c): a list of runs of free pages in
    address order. Pages are numbered from the start of the heap. */
module PageList {
  import opened Cells

  /** struct rt_page_head: a run of `n` free pages that starts at page `lo`. */
  datatype Run = Run(lo: nat, n: nat)

  type Runs = seq<Run>

  function End(b: Run): nat {
    b.lo + b.n
  }

  /** Runs ascend, none is empty, and a gap separates any two: no two could be merged. */
  ghost predicate Ascending(l: Runs) {
    l != [] ==> l[0].n > 0 && (|l| > 1 ==> End(l[0]) < l[1].lo) && Ascending(l[1..])
  }

  /** Whether page `x` is free. */
  predicate Has(l: Runs, x: int) {
    l != [] && (l[0].lo <= x < End(l[0]) || Has(l[1..], x))
  }

  ghost predicate AllFree(l: Runs, a: nat, n: nat) {
    forall x :: a <= x < a + n ==> Has(l, x)
  }

  ghost predicate NoneFree(l: Runs, a: nat, n: nat) {
    forall x :: a <= x < a + n ==> !Has(l, x)
  }

  /** Number of free pages. */
  function Total(l: Runs): nat {
    if l == [] then 0 else l[0].n + Total(l[1..])
  }

  // ------------------------------------------------------ the operations, on values

  /** The list after `n` pages were taken from the first run that has them. */
  function Taken(l: Runs, n: nat): Runs {
    if l == [] then []
    else if l[0].n > n then [Run(l[0].lo + n, l[0].n - n)] + l[1..]
    else if l[0].n == n then l[1..]
    else [l[0]] + Taken(l[1..], n)
  }

  function FirstFit(l: Runs, n: nat): Option<nat> {
    if l == [] then None else if l[0].n >= n then Some(l[0].lo) else FirstFit(l[1..], n)
  }

  /** The list after the pages `a` to `a + n - 1` came back. */
  function Returned(l: Runs, a: nat, n: nat): Runs {
    if l == [] then [Run(a, n)]
    else if End(l[0]) == a then
      if |l| > 1 && a + n == l[1].lo then [Run(l[0].lo, l[0].n + n + l[1].n)] + l[2..]
      else [Run(l[0].lo, l[0].n + n)] + l[1..]
    else if l[0].lo == a + n then [Run(a, l[0].n + n)] + l[1..]
    else if l[0].lo > a + n then [Run(a, n)] + l
    else [l[0]] + Returned(l[1..], a, n)
  }

  /** The walk of rt_page_free goes past a run. */
  predicate Skips(b: Run, a: nat, n: nat) {
    End(b) != a && b.lo != a + n && b.lo <= a + n
  }

  lemma {:induction false} TakenAt(l: Runs, n: nat, i: nat)
    requires i <= |l| && forall j :: 0 <= j < i ==> l[j].n < n
    ensures Taken(l, n) == l[..i] + Taken(l[i..], n) && FirstFit(l, n) == FirstFit(l[i..], n)
  {
    if i > 0 {
      TakenAt(l[1..], n, i - 1);
      assert l[1..][..i - 1] == l[1..i] && l[1..][i - 1..] == l[i..] && [l[0]] + l[1..i] == l[..i];
    }
  }

  lemma {:induction false} ReturnedAt(l: Runs, a: nat, n: nat, i: nat)
    requires i <= |l| && forall j :: 0 <= j < i ==> Skips(l[j], a, n)
    ensures Returned(l, a, n) == l[..i] + Returned(l[i..], a, n)
  {
    if i > 0 {
      ReturnedAt(l[1..], a, n, i - 1);
      assert l[1..][..i - 1] == l[1..i] && l[1..][i - 1..] == l[i..] && [l[0]] + l[1..i] == l[..i];
    }
  }

  class Pages {
    var list: Runs

    /** rt_page_init */
    constructor (npages: nat)
      requires npages != 0
      ensures list == [Run(0, npages)]
    {
      list := Returned([], 0, npages);
    }

    /** rt_page_alloc: walks to the first run with enough pages and splits or unlinks it. */
    method Alloc(n: nat) returns (r: Option<nat>)
      modifies this
      ensures n == 0 ==> r == None && list == old(list)
      ensures n > 0 ==> r == FirstFit(old(list), n) && list == Taken(old(list), n)
    {
      if n == 0 { return None; }
      var i := 0;
      while i < |list| && list[i].n < n
        invariant 0 <= i <= |list| && list == old(list) && forall j :: 0 <= j < i ==> list[j].n < n
      {
        i := i + 1;
      }
      TakenAt(list, n, i);
      if i == |list| { return None; }
      r := Some(list[i].lo);
      SplitRun(n, i);
    }

    /** Takes `n` pages from run `i`. */
    method SplitRun(n: nat, i: nat)
      requires i < |list| && n <= list[i].n
      modifies this
      ensures list == old(list)[..i] + Taken(old(list)[i..], n)
    {
      var b := list[i];
      assert list[i..][1..] == list[i + 1..];
      if b.n > n {
        list := list[..i] + ([Run(b.lo + n, b.n - n)] + list[i + 1..]);
      } else {
        list := list[..i] + list[i + 1..];
      }
    }

    /** rt_page_free: walks to the place of the run and merges it with the runs it touches. */
    method Free(a: nat, n: nat)
      requires n != 0
      modifies this
      ensures list == Returned(old(list), a, n)
    {
      var i := 0;
      while i < |list| && Skips(list[i], a, n)
        invariant 0 <= i <= |list| && list == old(list) && forall j :: 0 <= j < i ==> Skips(list[j], a, n)
      {
        i := i + 1;
      }
      ReturnedAt(list, a, n, i);
      var tail := MergeAt(list[i..], a, n);
      list := list[..i] + tail;
    }

    /** What rt_page_free does at the run where its walk ends. */
    method MergeAt(l: Runs, a: nat, n: nat) returns (r: Runs)
      requires l != [] ==> !Skips(l[0], a, n)
      ensures r == Returned(l, a, n)
    {
      if l != [] && End(l[0]) == a {
        r := [Run(l[0].lo, l[0].n + n)] + l[1..];
        if |r| > 1 && End(r[0]) == r[1].lo {
          r := [Run(r[0].lo, r[0].n + r[1].n)] + r[2..];
          assert l[1..][1..] == l[2..];
        }
      } else if l != [] && l[0].lo == a + n {
        r := [Run(a, l[0].n + n)] + l[1..];
      } else {
        r := [Run(a, n)] + l;
      }
    }
  }

  // -------------------------------------------------------------------- properties

  /** In an ascending list everything behind the first run lies beyond a gap. */
  lemma {:induction false} Beyond(l: Runs, x: int)
    requires Ascending(l) && l != [] && Has(l[1..], x)
    ensures x > End(l[0])
  {
    if l[1..] != [] && !(l[1].lo <= x < End(l[1])) {
      Beyond(l[1..], x);
    }
  }

  /** The free pages determine the list: two fully merged lists of the same pages are equal. */
  lemma {:induction false} Canonical(l: Runs, m: Runs)
    requires Ascending(l) && Ascending(m) && forall x :: Has(l, x) <==> Has(m, x)
    ensures l == m
    decreases |l|
  {
    if l == [] {
      if m != [] { assert Has(m, m[0].lo); }
    } else if m == [] {
      assert Has(l, l[0].lo);
    } else {
      SameFirst(l, m);
      SameFirst(m, l);
      forall x ensures Has(l[1..], x) <==> Has(m[1..], x) {
        if Has(l[1..], x) { Beyond(l, x); assert Has(l, x); }
        if Has(m[1..], x) { Beyond(m, x); assert Has(m, x); }
      }
      Canonical(l[1..], m[1..]);
    }
  }

  lemma SameFirst(l: Runs, m: Runs)
    requires Ascending(l) && Ascending(m) && l != [] && m != [] && forall x :: Has(l, x) <==> Has(m, x)
    ensures m[0].lo <= l[0].lo && End(l[0]) <= End(m[0])
  {
    assert Has(l, l[0].lo) && Has(m, l[0].lo);
    if !(m[0].lo <= l[0].lo < End(m[0])) { Beyond(m, l[0].lo); }
    if Has(l, m[0].lo) && m[0].lo < l[0].lo { if Has(l[1..], m[0].lo) { Beyond(l, m[0].lo); } }
    if End(l[0]) > End(m[0]) {
      assert Has(l, End(m[0]));
      if Has(m[1..], End(m[0])) { Beyond(m, End(m[0])); }
    }
  }

  /** Pages `a` to `a + n - 1` left the free pages, and nothing else changed. */
  ghost predicate Removed(l: Runs, t: Runs, a: nat, n: nat) {
    AllFree(l, a, n) && Total(l) == Total(t) + n && forall x :: Has(t, x) <==> Has(l, x) && !(a <= x < a + n)
  }

  /** Allocation keeps the list fully merged, takes exactly the granted pages, and counts. */
  lemma {:induction false} TakenOk(l: Runs, n: nat)
    requires Ascending(l) && n > 0
    ensures Ascending(Taken(l, n)) && (Taken(l, n) != [] ==> l != [] && Taken(l, n)[0].lo >= l[0].lo)
    ensures var r := FirstFit(l, n);
      (r.None? ==> Taken(l, n) == l) && (r.Some? ==> Removed(l, Taken(l, n), r.value, n))
  {
    if l != [] {
      if l[0].n >= n {
        TakenHere(l, n);
      } else {
        TakenOk(l[1..], n);
        assert Taken(l, n)[1..] == Taken(l[1..], n);
        if FirstFit(l, n).Some? { RemovedLater(l, Taken(l[1..], n), FirstFit(l, n).value, n); }
      }
    }
  }

  lemma TakenHere(l: Runs, n: nat)
    requires Ascending(l) && n > 0 && l != [] && l[0].n >= n
    ensures var t := Taken(l, n);
      Ascending(t) && (t != [] ==> t[0].lo >= l[0].lo) && Removed(l, t, l[0].lo, n)
  {
    var t := Taken(l, n);
    if l[0].n > n { assert t[1..] == l[1..]; }
    forall x ensures Has(t, x) <==> Has(l, x) && !(l[0].lo <= x < l[0].lo + n) {
      if Has(l[1..], x) { Beyond(l, x); }
    }
  }

  lemma RemovedLater(l: Runs, t: Runs, a: nat, n: nat)
    requires Ascending(l) && l != [] && n > 0 && Removed(l[1..], t, a, n)
    ensures Removed(l, [l[0]] + t, a, n)
  {
    assert ([l[0]] + t)[1..] == t;
    assert Has(l[1..], a);
    Beyond(l, a);
    forall x | a <= x < a + n ensures Has(l, x) { assert Has(l[1..], x); }
  }

  /** First fit: the granted pages are the lowest `n` consecutive free pages, and allocation
      fails exactly when there are no `n` consecutive free pages. */
  lemma {:induction false} FirstFitIsLowest(l: Runs, n: nat, a: nat)
    requires Ascending(l) && n > 0 && AllFree(l, a, n)
    ensures FirstFit(l, n).Some? && FirstFit(l, n).value <= a
  {
    assert Has(l, a);
    if l[0].lo <= a < End(l[0]) {
      if a + n > End(l[0]) {
        var x := End(l[0]);
        assert Has(l, x);
        Beyond(l, x);
      }
    } else {
      Beyond(l, a);
      forall x | a <= x < a + n ensures Has(l[1..], x) { assert Has(l, x); }
      if l[0].n < n { FirstFitIsLowest(l[1..], n, a); }
    }
  }

  /** Returning pages that are not free keeps the list fully merged and adds exactly them. */
  lemma {:induction false} ReturnedOk(l: Runs, a: nat, n: nat)
    requires Ascending(l) && n > 0 && NoneFree(l, a, n)
    ensures var t := Returned(l, a, n);
      && Ascending(t) && t[0].lo >= (if l == [] || a < l[0].lo then a else l[0].lo)
      && Total(t) == Total(l) + n
      && forall x :: Has(t, x) <==> Has(l, x) || a <= x < a + n
  {
    var t := Returned(l, a, n);
    if l == [] {
      assert t[1..] == [];
    } else {
      assert !Has(l, a);
      if End(l[0]) == a {
        ReturnedAfter(l, a, n);
      } else if l[0].lo == a + n || l[0].lo > a + n {
        assert t[1..] == if l[0].lo == a + n then l[1..] else l;
      } else {
        ReturnedLater(l, a, n);
        ReturnedOk(l[1..], a, n);
        assert t[1..] == Returned(l[1..], a, n);
      }
    }
  }

  lemma ReturnedAfter(l: Runs, a: nat, n: nat)
    requires Ascending(l) && n > 0 && l != [] && End(l[0]) == a && NoneFree(l, a, n)
    ensures var t := Returned(l, a, n);
      && Ascending(t) && t[0].lo == l[0].lo && Total(t) == Total(l) + n
      && forall x :: Has(t, x) <==> Has(l, x) || a <= x < a + n
  {
    var t := Returned(l, a, n);
    if |l| > 1 {
      if a + n > l[1].lo { assert Has(l[1..], l[1].lo) && Has(l, l[1].lo); }
      if a + n == l[1].lo {
        assert t[1..] == l[2..] && l[1..][1..] == l[2..];
        assert |l| > 2 ==> l[1..][1] == l[2];
      } else {
        assert t[1..] == l[1..];
      }
    } else {
      assert t[1..] == [] == l[1..];
    }
  }

  /** Pages that do not touch the first run and do not lie before it lie behind a gap. */
  lemma ReturnedLater(l: Runs, a: nat, n: nat)
    requires Ascending(l) && n > 0 && l != [] && NoneFree(l, a, n) && End(l[0]) != a && l[0].lo < a + n
    ensures a > End(l[0]) && NoneFree(l[1..], a, n)
  {
    assert Has(l, l[0].lo) && !Has(l, a);
    forall x | a <= x < a + n ensures !Has(l[1..], x) { assert !Has(l, x); }
  }

  /** Freeing what was just allocated restores the list. */
  lemma FreeUndoesAlloc(l: Runs, n: nat)
    requires Ascending(l) && n > 0 && FirstFit(l, n).Some?
    ensures Returned(Taken(l, n), FirstFit(l, n).value, n) == l
  {
    var a := FirstFit(l, n).value;
    TakenOk(l, n);
    ReturnedOk(Taken(l, n), a, n);
    forall x ensures Has(Returned(Taken(l, n), a, n), x) <==> Has(l, x) {}
    Canonical(Returned(Taken(l, n), a, n), l);
  }

  // ------------------------------------------------------------------ whole runs

  /** The page allocator and the runs handed out. */
  datatype State = State(free: Runs, held: seq<Run>)

  datatype Op = Alloc(n: nat) | Release(k: nat)       // the k-th run handed out

  function Without<T>(s: seq<T>, k: nat): seq<T>
    requires k < |s|
  {
    s[..k] + s[k + 1..]
  }

  function Step(s: State, op: Op): State {
    match op
    case Alloc(n) =>
      if n == 0 || FirstFit(s.free, n).None? then s
      else State(Taken(s.free, n), s.held + [Run(FirstFit(s.free, n).value, n)])
    case Release(k) =>
      if k >= |s.held| then s else State(Returned(s.free, s.held[k].lo, s.held[k].n), Without(s.held, k))
  }

  function Exec(s: State, ops: seq<Op>): State
    decreases |ops|
  {
    if ops == [] then s else Exec(Step(s, ops[0]), ops[1..])
  }

  function Sum(held: seq<Run>): nat {
    if held == [] then 0 else held[0].n + Sum(held[1..])
  }

  predicate Apart(a: Run, b: Run) {
    End(a) <= b.lo || End(b) <= a.lo
  }

  ghost predicate HeldOk(s: State) {
    && (forall k :: 0 <= k < |s.held| ==> s.held[k].n > 0 && NoneFree(s.free, s.held[k].lo, s.held[k].n))
    && (forall j, k :: 0 <= j < k < |s.held| ==> Apart(s.held[j], s.held[k]))
  }

  ghost predicate Inv(s: State, pages: nat) {
    Ascending(s.free) && HeldOk(s) && Total(s.free) + Sum(s.held) == pages
  }

  lemma {:induction false} SumAppend(a: seq<Run>, b: seq<Run>)
    ensures Sum(a + b) == Sum(a) + Sum(b)
  {
    if a == [] {
      assert a + b == b;
    } else {
      assert (a + b)[1..] == a[1..] + b;
      SumAppend(a[1..], b);
    }
  }

  lemma {:induction false} SumWithout(held: seq<Run>, k: nat)
    requires k < |held|
    ensures Sum(held) == Sum(Without(held, k)) + held[k].n
  {
    var l, r := held[..k], held[k + 1..];
    var m := [held[k]];
    assert m[1..] == [];
    SumAppend(l, m + r);
    SumAppend(m, r);
    SumAppend(l, r);
    assert held == l + (m + r);
  }

  lemma AllocInv(s: State, pages: nat, n: nat)
    requires Inv(s, pages)
    ensures Inv(Step(s, Alloc(n)), pages)
  {
    if n > 0 && FirstFit(s.free, n).Some? {
      var r, s1 := Run(FirstFit(s.free, n).value, n), Step(s, Alloc(n));
      TakenOk(s.free, n);
      SumAppend(s.held, [r]);
      forall k | 0 <= k < |s.held| ensures NoneFree(s1.free, s.held[k].lo, s.held[k].n) && Apart(s.held[k], r) {
        ApartFromFree(s.free, s.held[k], r);
      }
    }
  }

  lemma ApartFromFree(l: Runs, b: Run, r: Run)
    requires NoneFree(l, b.lo, b.n) && AllFree(l, r.lo, r.n) && b.n > 0 && r.n > 0
    ensures Apart(b, r)
  {
    var x := if b.lo < r.lo then r.lo else b.lo;
    assert r.lo <= x < End(r) ==> Has(l, x);
    assert b.lo <= x < End(b) ==> !Has(l, x);
  }

  lemma ReleaseInv(s: State, pages: nat, k: nat)
    requires Inv(s, pages)
    ensures Inv(Step(s, Release(k)), pages)
  {
    if k < |s.held| {
      var r, s1 := s.held[k], Step(s, Release(k));
      ReturnedOk(s.free, r.lo, r.n);
      SumWithout(s.held, k);
      forall j | 0 <= j < |s1.held| ensures s1.held[j].n > 0 && NoneFree(s1.free, s1.held[j].lo, s1.held[j].n) {
        var i := if j < k then j else j + 1;
        assert s1.held[j] == s.held[i];
        assert if j < k then Apart(s.held[i], r) else Apart(r, s.held[i]);
      }
      forall i, j | 0 <= i < j < |s1.held| ensures Apart(s1.held[i], s1.held[j]) {
        assert s1.held[i] == s.held[if i < k then i else i + 1] && s1.held[j] == s.held[if j < k then j else j + 1];
      }
    }
  }

  lemma {:induction false} ExecInv(s: State, pages: nat, ops: seq<Op>)
    requires Inv(s, pages)
    ensures Inv(Exec(s, ops), pages)
    decreases |ops|
  {
    if ops != [] {
      match ops[0] {
        case Alloc(n) => AllocInv(s, pages, n);
        case Release(k) => ReleaseInv(s, pages, k);
      }
      ExecInv(Step(s, ops[0]), pages, ops[1..]);
    }
  }

  /** Over every run of the page allocator: the list ascends with gaps, the runs handed out
      are disjoint from it and from each other, and all page counts sum to the initial total. */
  lemma PagesConserved(npages: nat, ops: seq<Op>)
    requires npages > 0
    ensures var s := Exec(State([Run(0, npages)], []), ops);
      Ascending(s.free) && HeldOk(s) && Total(s.free) + Sum(s.held) == npages
  {
    assert [Run(0, npages)][1..] == [];
    ExecInv(State([Run(0, npages)], []), npages, ops);
  }
}
