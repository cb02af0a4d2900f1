/** Doubly linked rings: the `next` and `prev` links of a set of nodes, as link maps for
    structures at computed addresses, and as list node objects (include/rtservice.h). */
module Rings {
  import opened WaitList

  type Links = map<int, int>

  function Succ<T>(s: seq<T>, i: nat): T
    requires i < |s|
  {
    if i + 1 < |s| then s[i + 1] else s[0]
  }

  predicate LinkOk(next: Links, prev: Links, s: seq<int>, i: nat)
    requires i < |s|
  {
    && s[i] in next && next[s[i]] == Succ(s, i)
    && Succ(s, i) in prev && prev[Succ(s, i)] == s[i]
  }

  /** Following `next` from any node of `s` visits `s` in order and comes back, and `prev`
      undoes every step. */
  ghost predicate Ring(next: Links, prev: Links, s: seq<int>) {
    |s| > 0 && NoDup(s) && forall i :: 0 <= i < |s| ==> LinkOk(next, prev, s, i)
  }

  function AfterInsert<T>(s: seq<T>, i: nat, q: T): seq<T>
    requires i < |s|
  {
    s[..i + 1] + [q] + s[i + 1..]
  }

  function Dropped<T>(s: seq<T>, i: nat): seq<T>
    requires i < |s|
  {
    s[..i] + s[i + 1..]
  }

  /** Linking `q` behind node `i`. */
  lemma InsertRing(next: Links, prev: Links, s: seq<int>, i: nat, q: int)
    requires Ring(next, prev, s) && i < |s| && q !in s
    ensures Ring(next[q := Succ(s, i)][s[i] := q], prev[q := s[i]][Succ(s, i) := q], AfterInsert(s, i, q))
  {
    var p, n, r := s[i], Succ(s, i), AfterInsert(s, i, q);
    var next1, prev1 := next[q := n][p := q], prev[q := p][n := q];
    forall k | 0 <= k < |r| ensures LinkOk(next1, prev1, r, k) {
      if k < i || k > i + 1 {
        var j := if k < i then k else k - 1;
        assert r[k] == s[j] && LinkOk(next, prev, s, j);
        assert Succ(r, k) == Succ(s, j);
        assert s[j] != p && Succ(s, j) != n;
      }
    }
  }

  /** Taking node `i` out of a ring of at least two. */
  lemma DropRing(next: Links, prev: Links, s: seq<int>, i: nat)
    requires Ring(next, prev, s) && i < |s| && |s| > 1
    ensures s[i] in next && s[i] in prev && next[s[i]] == Succ(s, i)
    ensures Ring(next[prev[s[i]] := next[s[i]]], prev[next[s[i]] := prev[s[i]]], Dropped(s, i))
  {
    var x, r := s[i], Dropped(s, i);
    var h := if i == 0 then |s| - 1 else i - 1;
    assert LinkOk(next, prev, s, i) && LinkOk(next, prev, s, h);
    assert Succ(s, h) == x && prev[x] == s[h];
    var next1, prev1 := next[s[h] := Succ(s, i)], prev[Succ(s, i) := s[h]];
    forall k | 0 <= k < |r| ensures LinkOk(next1, prev1, r, k) {
      var j := if k < i then k else k + 1;
      assert r[k] == s[j] && LinkOk(next, prev, s, j);
      if j == h { assert Succ(r, k) == Succ(s, i); } else { assert Succ(r, k) == Succ(s, j); }
    }
  }

  // ---------------------------------------------- inserting a node that is linked already

  /** The links rt_list_insert_before leaves when it puts `t` before the list head `h`. */
  function NextBefore(next: Links, prev: Links, h: int, t: int): Links
    requires h in prev
  {
    next[prev[h] := t][t := h]
  }

  function PrevBefore(next: Links, prev: Links, h: int, t: int): Links
    requires h in prev
  {
    prev[t := prev[h]][h := t]
  }

  /** If `t` is on that list already, nothing that holds its predecessor is a ring any more: the
      walk from the head comes back behind `t`, so the nodes that stood behind it are cut off,
      and going back from `t` does not lead to its predecessor. */
  lemma InsertLinkedNode(next: Links, prev: Links, s: seq<int>, j: nat)
    requires Ring(next, prev, s) && 0 < j < |s|
    ensures s[0] in prev
    ensures var next1, prev1 := NextBefore(next, prev, s[0], s[j]), PrevBefore(next, prev, s[0], s[j]);
      && (forall i :: 0 <= i < j ==> s[i] in next1 && next1[s[i]] == s[i + 1]) && next1[s[j]] == s[0]
      && prev1[s[j]] == s[|s| - 1] && (forall r :: s[j - 1] in r ==> !Ring(next1, prev1, r))
  {
    var z := |s| - 1;
    assert LinkOk(next, prev, s, z);
    var next1, prev1 := NextBefore(next, prev, s[0], s[j]), PrevBefore(next, prev, s[0], s[j]);
    forall i | 0 <= i < j ensures s[i] in next1 && next1[s[i]] == s[i + 1] { assert LinkOk(next, prev, s, i); }
    forall r | s[j - 1] in r ensures !Ring(next1, prev1, r) {
      var k :| 0 <= k < |r| && r[k] == s[j - 1];
      assert !LinkOk(next1, prev1, r, k);
    }
  }

  /** Removing the last node of a list that was inserted twice leaves its predecessor pointing to
      it and the node pointing to itself: the walk from the head never comes back. */
  lemma RemoveLinkedTwice(next: Links, prev: Links, s: seq<int>)
    requires Ring(next, prev, s) && |s| > 1
    ensures s[0] in prev
    ensures var h, t := s[0], s[|s| - 1];
      var next1, prev1 := NextBefore(next, prev, h, t), PrevBefore(next, prev, h, t);
      && t in prev1 && t in next1
      && var next2 := next1[prev1[t] := next1[t]][t := t];
         (forall i :: 0 <= i < |s| - 1 ==> s[i] in next2 && next2[s[i]] == s[i + 1]) && next2[t] == t
  {
    var z := |s| - 1;
    assert LinkOk(next, prev, s, z);
    forall i | 0 <= i < z ensures s[i] in next && next[s[i]] == s[i + 1]
        && s[i] != s[z]
    {
      assert LinkOk(next, prev, s, i);
    }
  }

  // ------------------------------------------------------------- list node objects

  /** struct rt_list_node. A ring is given by the sequence of its nodes from any one of them
      on; a list is a ring that starts with its head node. */
  class ListNode {
    var next: ListNode
    var prev: ListNode

    /** rt_list_init */
    constructor ()
      ensures RingOf([this])
    {
      next, prev := this, this;
    }
  }

  ghost predicate Distinct(s: seq<ListNode>) {
    forall i, j :: 0 <= i < j < |s| ==> s[i] != s[j]
  }

  ghost predicate JoinedAt(s: seq<ListNode>, i: nat)
    requires i < |s|
    reads s
  {
    s[i].next == Succ(s, i) && Succ(s, i).prev == s[i]
  }

  ghost predicate RingOf(s: seq<ListNode>)
    reads s
  {
    |s| > 0 && Distinct(s) && forall i :: 0 <= i < |s| ==> JoinedAt(s, i)
  }

  function PredIndex<T>(s: seq<T>, i: nat): (h: nat)
    requires i < |s|
    ensures h < |s|
  {
    if i == 0 then |s| - 1 else i - 1
  }

  /** rt_list_insert_after */
  method InsertAfter(l: ListNode, n: ListNode, ghost s: seq<ListNode>, ghost i: nat)
    requires RingOf(s) && i < |s| && s[i] == l && n !in s
    modifies l, l.next, n
    ensures RingOf(AfterInsert(s, i, n))
  {
    assert JoinedAt(s, i);
    ghost var r := AfterInsert(s, i, n);
    forall k | 0 <= k < |s| ensures s[k].next == Succ(s, k) && Succ(s, k).prev == s[k] { assert JoinedAt(s, k); }
    l.next.prev := n;
    n.next := l.next;
    l.next := n;
    n.prev := l;
    forall k | 0 <= k < |r| ensures JoinedAt(r, k) {
      if k < i || k > i + 1 {
        ghost var j := if k < i then k else k - 1;
        assert r[k] == s[j] && Succ(r, k) == Succ(s, j);
      }
    }
  }

  /** Before the head of a list means at its end. */
  lemma BeforeHeadAppends<T>(s: seq<T>, q: T)
    requires s != []
    ensures AfterInsert(s, PredIndex(s, 0), q) == s + [q]
  {
  }

  /** rt_list_insert_before: behind the predecessor. */
  method InsertBefore(l: ListNode, n: ListNode, ghost s: seq<ListNode>, ghost i: nat)
    requires RingOf(s) && i < |s| && s[i] == l && n !in s
    modifies l, l.prev, n
    ensures RingOf(AfterInsert(s, PredIndex(s, i), n))
  {
    ghost var h := PredIndex(s, i);
    assert JoinedAt(s, h) && Succ(s, h) == l && s[h] == l.prev;
    ghost var r := AfterInsert(s, h, n);
    forall k | 0 <= k < |s| ensures s[k].next == Succ(s, k) && Succ(s, k).prev == s[k] { assert JoinedAt(s, k); }
    l.prev.next := n;
    n.prev := l.prev;
    l.prev := n;
    n.next := l;
    forall k | 0 <= k < |r| && k != h && k != h + 1 ensures JoinedAt(r, k) {
      ghost var j := if k < h then k else k - 1;
      assert r[k] == s[j] && Succ(r, k) == Succ(s, j);
    }
    assert JoinedAt(r, h) && JoinedAt(r, h + 1);
  }

  /** rt_list_remove: the node leaves its ring and becomes a ring of its own. */
  method RemoveNode(n: ListNode, ghost s: seq<ListNode>, ghost i: nat)
    requires RingOf(s) && i < |s| && s[i] == n
    modifies n, n.next, n.prev
    ensures RingOf([n]) && (|s| > 1 ==> RingOf(Dropped(s, i)))
  {
    ghost var h, r := PredIndex(s, i), Dropped(s, i);
    assert JoinedAt(s, h) && Succ(s, h) == n && JoinedAt(s, i);
    forall k | 0 <= k < |s| ensures s[k].next == Succ(s, k) && Succ(s, k).prev == s[k] { assert JoinedAt(s, k); }
    n.next.prev := n.prev;
    n.prev.next := n.next;
    n.next := n;
    n.prev := n;
    forall k | 0 <= k < |r| ensures JoinedAt(r, k) {
      ghost var j := if k < i then k else k + 1;
      assert r[k] == s[j];
      assert Succ(r, k) == if j == h then Succ(s, i) else Succ(s, j);
    }
  }

  /** rt_list_isempty */
  method IsEmpty(l: ListNode, ghost s: seq<ListNode>) returns (r: bool)
    requires RingOf(s) && s[0] == l
    ensures r <==> |s| == 1
  {
    assert JoinedAt(s, 0);
    r := l.next == l;
  }

  /** Removing an inserted node gives back the ring, wherever the node was linked. */
  lemma DropUndoesInsert<T>(s: seq<T>, i: nat, q: T)
    requires i < |s|
    ensures Dropped(AfterInsert(s, i, q), i + 1) == s
  {
  }
}
