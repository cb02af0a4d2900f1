/** Lists of suspended threads, as every blocking kernel object keeps them (src/ipc.c). */
module WaitList {
  type Tid = nat

  datatype Order = Fifo | Prio

  datatype Outcome = EOk | ETimeout | EError | EFull | EInval

  /** Current priority of a thread; a smaller number is more urgent. */
  function PrioOf(prio: map<Tid, nat>, t: Tid): nat {
    if t in prio then prio[t] else 255
  }

  /** Where a thread of priority `p` goes: before the first less urgent waiter. */
  function Place(list: seq<Tid>, prio: map<Tid, nat>, p: nat, k: nat := 0): (r: nat)
    requires k <= |list|
    ensures k <= r <= |list|
    ensures forall j :: k <= j < r ==> PrioOf(prio, list[j]) <= p
    ensures r < |list| ==> p < PrioOf(prio, list[r])
    decreases |list| - k
  {
    if k == |list| || p < PrioOf(prio, list[k]) then k else Place(list, prio, p, k + 1)
  }

  function InsertAt(list: seq<Tid>, i: nat, t: Tid): seq<Tid>
    requires i <= |list|
  {
    list[..i] + [t] + list[i..]
  }

  /** The list after thread `t` was suspended on it. */
  function Enqueue(list: seq<Tid>, prio: map<Tid, nat>, order: Order, t: Tid): seq<Tid> {
    InsertAt(list, if order.Fifo? then |list| else Place(list, prio, PrioOf(prio, t)), t)
  }

  function Without(list: seq<Tid>, t: Tid): (r: seq<Tid>)
    ensures t !in r && forall u :: u in r <==> u in list && u != t
    ensures t !in list ==> r == list
  {
    if list == [] then [] else if list[0] == t then Without(list[1..], t) else [list[0]] + Without(list[1..], t)
  }

  ghost predicate NoDup<T(!new)>(s: seq<T>) {
    forall i, j :: 0 <= i < j < |s| ==> s[i] != s[j]
  }

  function Elems(s: seq<nat>): set<nat> {
    set a | a in s
  }

  /** The timeout left to a thread that waits again: 0 once it has run out, unchanged if it is
      not positive. */
  function Remaining(timeout: int, elapsed: nat): int {
    if timeout <= 0 then timeout else if timeout - elapsed < 0 then 0 else timeout - elapsed
  }

  ghost predicate Sorted(list: seq<Tid>, prio: map<Tid, nat>) {
    forall i, j :: 0 <= i < j < |list| ==> PrioOf(prio, list[i]) <= PrioOf(prio, list[j])
  }

  lemma EnqueueMembers(list: seq<Tid>, prio: map<Tid, nat>, order: Order, t: Tid)
    ensures var r := Enqueue(list, prio, order, t);
      && |r| == |list| + 1 && (forall u :: u in r <==> u in list || u == t)
      && (NoDup(list) && t !in list ==> NoDup(r))
  {
  }

  lemma {:induction false} WithoutNoDup(list: seq<Tid>, t: Tid)
    requires NoDup(list)
    ensures NoDup(Without(list, t))
    ensures |Without(list, t)| == |list| - if t in list then 1 else 0
  {
    if list != [] {
      WithoutNoDup(list[1..], t);
      assert list[0] !in list[1..];
    }
  }

  lemma {:induction false} WithoutAt(list: seq<Tid>, n: nat)
    requires NoDup(list) && n < |list|
    ensures Without(list, list[n]) == list[..n] + list[n + 1..]
  {
    if n == 0 {
      assert list[0] !in list[1..];
    } else {
      WithoutAt(list[1..], n - 1);
      assert list[..n] + list[n + 1..] == [list[0]] + (list[1..][..n - 1] + list[1..][n..]);
    }
  }

  /** A priority list stays sorted, and the newcomer stands behind every waiter that is at
      least as urgent: first in, first out within one priority. */
  lemma EnqueueSorted(list: seq<Tid>, prio: map<Tid, nat>, t: Tid)
    requires Sorted(list, prio)
    ensures var i := Place(list, prio, PrioOf(prio, t));
      && Sorted(Enqueue(list, prio, Prio, t), prio)
      && (forall j :: 0 <= j < |list| ==> (j < i <==> PrioOf(prio, list[j]) <= PrioOf(prio, t)))
  {
  }

  lemma {:induction false} WithoutSorted(list: seq<Tid>, prio: map<Tid, nat>, t: Tid)
    requires Sorted(list, prio)
    ensures Sorted(Without(list, t), prio)
  {
    if list != [] {
      WithoutSorted(list[1..], prio, t);
      var r := Without(list[1..], t);
      forall j | 0 <= j < |r| ensures PrioOf(prio, list[0]) <= PrioOf(prio, r[j]) {
        assert r[j] in list[1..];
      }
    }
  }

  // ------------------------------------------------------------- order of service

  /** Thread `a` is to be served before `b`; `since` says when each began to wait. */
  predicate Before(order: Order, prio: map<Tid, nat>, since: map<Tid, nat>, a: Tid, b: Tid) {
    && a in since && b in since
    && match order
       case Fifo => since[a] < since[b]
       case Prio => PrioOf(prio, a) < PrioOf(prio, b) || (PrioOf(prio, a) == PrioOf(prio, b) && since[a] < since[b])
  }

  ghost predicate InOrder(list: seq<Tid>, order: Order, prio: map<Tid, nat>, since: map<Tid, nat>) {
    && (forall i, j :: 0 <= i < j < |list| ==> Before(order, prio, since, list[i], list[j]))
    && (forall t :: t in list ==> t in since)
  }

  ghost predicate AllBefore(since: map<Tid, nat>, now: nat) {
    forall t :: t in since ==> since[t] < now
  }

  /** For either list order: a list in order of service is in that order again after a thread
      that begins to wait now was suspended on it. */
  lemma EnqueueInOrder(list: seq<Tid>, prio: map<Tid, nat>, order: Order, t: Tid, since: map<Tid, nat>, now: nat)
    requires InOrder(list, order, prio, since) && AllBefore(since, now) && t !in list
    ensures InOrder(Enqueue(list, prio, order, t), order, prio, since[t := now])
  {
    var r, since1 := Enqueue(list, prio, order, t), since[t := now];
    var n := if order.Fifo? then |list| else Place(list, prio, PrioOf(prio, t));
    forall i, j | 0 <= i < j < |r| ensures Before(order, prio, since1, r[i], r[j]) {
      var i1, j1 := if i < n then i else i - 1, if j < n then j else j - 1;
      if i != n && j != n {
        assert Before(order, prio, since, list[i1], list[j1]);
      } else if i == n {
        assert n < |list| && (j1 > n ==> Before(order, prio, since, list[n], list[j1]));
      } else {
        assert list[i] in list;
      }
    }
  }

  lemma {:induction false} WithoutInOrder(list: seq<Tid>, order: Order, prio: map<Tid, nat>, since: map<Tid, nat>,
                                          t: Tid)
    requires InOrder(list, order, prio, since)
    ensures InOrder(Without(list, t), order, prio, since)
  {
    if list != [] {
      WithoutInOrder(list[1..], order, prio, since, t);
      var r := Without(list[1..], t);
      forall j | 0 <= j < |r| ensures Before(order, prio, since, list[0], r[j]) { assert r[j] in list[1..]; }
    }
  }

  lemma TailInOrder(list: seq<Tid>, order: Order, prio: map<Tid, nat>, since: map<Tid, nat>)
    requires InOrder(list, order, prio, since) && list != []
    ensures InOrder(list[1..], order, prio, since)
  {
    forall i, j | 0 <= i < j < |list| - 1 ensures Before(order, prio, since, list[1..][i], list[1..][j]) {
      assert Before(order, prio, since, list[i + 1], list[j + 1]);
    }
  }

  lemma SameInOrder(list: seq<Tid>, order: Order, prio: map<Tid, nat>, since: map<Tid, nat>, prio1: map<Tid, nat>,
                    since1: map<Tid, nat>)
    requires InOrder(list, order, prio, since)
    requires forall t :: t in list ==> PrioOf(prio1, t) == PrioOf(prio, t) && t in since1 && since1[t] == since[t]
    ensures InOrder(list, order, prio1, since1)
  {
    forall i, j | 0 <= i < j < |list| ensures Before(order, prio1, since1, list[i], list[j]) {
      assert Before(order, prio, since, list[i], list[j]);
    }
  }

  /** rt_ipc_list_suspend: the walk that finds where the suspended thread is linked. */
  method SuspendOn(list: seq<Tid>, prio: map<Tid, nat>, order: Order, t: Tid) returns (r: seq<Tid>)
    ensures r == Enqueue(list, prio, order, t)
  {
    match order
    case Fifo =>
      r := InsertAt(list, |list|, t);
    case Prio =>
      var n := 0;
      while n < |list| && !(PrioOf(prio, t) < PrioOf(prio, list[n]))
        invariant 0 <= n <= |list|
        invariant Place(list, prio, PrioOf(prio, t), n) == Place(list, prio, PrioOf(prio, t))
      {
        n := n + 1;
      }
      r := InsertAt(list, n, t);
  }
}
