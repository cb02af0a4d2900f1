/** Byte-addressed memory in which allocator headers live among the payload bytes.
    A header occupies `hs` consecutive cells, so writing one destroys the payload
    bytes underneath it and a stray payload write would destroy a header. */
module Cells {
  datatype Option<+T> = None | Some(value: T)

  datatype Cell<H> = Byte(b: bv8) | Head(h: H) | Cover

  /** The cells of one header: the header value and the cells it covers. */
  function Image<H>(h: H, hs: nat): (r: seq<Cell<H>>)
    requires hs > 0
    ensures |r| == hs && r[0] == Head(h)
  {
    [Head(h)] + seq(hs - 1, _ => Cover)
  }

  ghost predicate HeadAt<H>(m: seq<Cell<H>>, p: nat, hs: nat, h: H)
    requires hs > 0
  {
    p + hs <= |m| && m[p..p + hs] == Image(h, hs)
  }

  /** The memory after storing header `h` at address `p`. */
  function Put<H>(m: seq<Cell<H>>, p: nat, hs: nat, h: H): (r: seq<Cell<H>>)
    requires hs > 0 && p + hs <= |m|
    ensures |r| == |m|
  {
    m[..p] + Image(h, hs) + m[p + hs..]
  }

  lemma HeadCell<H>(m: seq<Cell<H>>, p: nat, hs: nat, h: H)
    requires hs > 0 && HeadAt(m, p, hs, h)
    ensures m[p] == Head(h)
  {
    assert m[p] == m[p..p + hs][0];
  }

  lemma PutHead<H>(m: seq<Cell<H>>, p: nat, hs: nat, h: H)
    requires hs > 0 && p + hs <= |m|
    ensures HeadAt(Put(m, p, hs, h), p, hs, h)
  {
    assert Put(m, p, hs, h)[p..p + hs] == Image(h, hs);
  }

  /** Storing a header leaves every range it does not overlap as it was. */
  lemma PutFrame<H>(m: seq<Cell<H>>, p: nat, hs: nat, h: H, a: nat, b: nat)
    requires hs > 0 && p + hs <= |m| && a <= b <= |m|
    requires b <= p || p + hs <= a
    ensures Put(m, p, hs, h)[a..b] == m[a..b]
  {
  }

  /** Equal ranges have equal sub-ranges. */
  lemma SubRange<T>(x: seq<T>, y: seq<T>, a: nat, b: nat, c: nat, d: nat)
    requires a <= c <= d <= b <= |x| && b <= |y| && x[a..b] == y[a..b]
    ensures x[c..d] == y[c..d]
  {
    forall k | c <= k < d ensures x[k] == y[k] {
      assert x[k] == x[a..b][k - a] && y[k] == y[a..b][k - a];
    }
  }

  function Min(a: int, b: int): int {
    if a < b then a else b
  }

  lemma MultipleMod(m: nat, q: int)
    requires m > 0
    ensures m * q % m == 0
  {
    var d, r := m * q / m, m * q % m;
    assert m * q == m * d + r;
    assert m * (q - d) == r;
    var e: int := q - d;
    assert e >= 1 ==> m * e >= m;
    assert e <= -1 ==> m * e <= m * -1;
  }

  /** rt_memcpy between disjoint ranges. */
  method CopyCells<T>(a: array<T>, to: nat, from: nat, n: nat)
    requires to + n <= a.Length && from + n <= a.Length && (from + n <= to || to + n <= from)
    modifies a
    ensures a[to..to + n] == old(a[from..from + n])
    ensures a[..to] == old(a[..to]) && a[to + n..] == old(a[to + n..])
    ensures a[..][0..to] == old(a[..])[0..to] && a[..][to + n..a.Length] == old(a[..])[to + n..a.Length]
  {
    var k := 0;
    while k < n
      invariant 0 <= k <= n
      invariant forall x :: 0 <= x < to || to + k <= x < a.Length ==> a[x] == old(a[x])
      invariant forall x :: to <= x < to + k ==> a[x] == old(a[from + x - to])
    {
      a[to + k] := a[from + k];
      k := k + 1;
    }
  }
}
