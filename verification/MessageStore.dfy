/** The message queue object (src/ipc.c): a pool of equal nodes that move between a free
    list and a message list, linked through one `next` field, with lists of suspended
    receivers and senders. Each method is one interrupt-disabled section. */
module MessageStore {
  import opened WaitList

  const MQ_ENTRY_MAX: nat := 0xFFFF
  const NIL: int := -1                      // RT_NULL

  datatype Config = Config(maxMsgs: nat, msgSize: nat, order: Order, prio: map<Tid, nat>)

  /** What a message queue object holds between sections. */
  datatype Store = Store(free: seq<nat>, queue: seq<nat>, entry: nat, receivers: seq<Tid>, senders: seq<Tid>)

  // --------------------------------------------------- the sections, on values

  function Take(s: Store): Store
    requires s.free != []
  {
    s.(free := s.free[1..])
  }

  /** Linking a filled node, at the back or (urgent) at the front. When the entry counter is
      saturated the section ends early, with the node linked but nobody woken. */
  function Link(s: Store, n: nat, urgent: bool): Store {
    var s1 := s.(queue := if urgent then [n] + s.queue else s.queue + [n]);
    if s.entry >= MQ_ENTRY_MAX then s1
    else s1.(entry := s.entry + 1, receivers := if s.receivers == [] then [] else s.receivers[1..])
  }

  function Pop(s: Store): Store
    requires s.queue != []
  {
    s.(queue := s.queue[1..], entry := if s.entry > 0 then s.entry - 1 else 0)
  }

  function PutBack(s: Store, n: nat): Store {
    s.(free := [n] + s.free, senders := if s.senders == [] then [] else s.senders[1..])
  }

  function First(list: seq<Tid>): set<Tid> {
    if list == [] then {} else {list[0]}
  }

  /** Messages released one by one onto the free list. */
  function ReleaseAll(queue: seq<nat>, free: seq<nat>): (r: seq<nat>)
    ensures |r| == |queue| + |free|
    ensures forall n :: n in r <==> n in queue || n in free
  {
    if queue == [] then free else ReleaseAll(queue[1..], [queue[0]] + free)
  }

  function Reset(s: Store): Store {
    Store(ReleaseAll(s.queue, s.free), [], 0, [], [])
  }

  function WaitToReceive(s: Store, c: Config, t: Tid): Store {
    s.(receivers := Enqueue(s.receivers, c.prio, c.order, t))
  }

  function WaitToSend(s: Store, c: Config, t: Tid): Store {
    s.(senders := Enqueue(s.senders, c.prio, c.order, t))
  }

  function Fresh(c: Config): Store {
    Store(seq(c.maxMsgs, i requires 0 <= i < c.maxMsgs => c.maxMsgs - 1 - i), [], 0, [], [])
  }

  lemma NoDupPush(n: nat, s: seq<nat>)
    requires NoDup(s) && n !in s
    ensures NoDup([n] + s) && NoDup(s + [n])
  {
  }

  lemma NoDupPop(s: seq<nat>)
    requires NoDup(s) && s != []
    ensures NoDup(s[1..]) && s[0] !in s[1..] && forall n :: n in s <==> n == s[0] || n in s[1..]
  {
  }

  lemma {:induction false} ReleaseAllNoDup(queue: seq<nat>, free: seq<nat>)
    requires NoDup(queue) && NoDup(free) && forall n :: n in queue ==> n !in free
    ensures NoDup(ReleaseAll(queue, free))
  {
    if queue != [] {
      assert forall n :: n in queue[1..] ==> n != queue[0];
      NoDupPush(queue[0], free);
      ReleaseAllNoDup(queue[1..], [queue[0]] + free);
    }
  }

  /** The node returned last is the next one taken, and taking it restores the free list. */
  lemma TakeUndoesPutBack(s: Store, n: nat)
    ensures PutBack(s, n).free != [] && PutBack(s, n).free[0] == n && Take(PutBack(s, n)).free == s.free
  {
  }

  /** A reset leaves the free nodes in front in the reverse order of their messages. */
  lemma {:induction false} ReleasedInReverse(queue: seq<nat>, free: seq<nat>, k: nat)
    requires k < |queue|
    ensures ReleaseAll(queue, free)[|queue| - 1 - k] == queue[k]
    ensures ReleaseAll(queue, free)[|queue|..] == free
  {
    var r := [queue[0]] + free;
    if |queue| > 1 {
      ReleasedInReverse(queue[1..], r, if k == 0 then 0 else k - 1);
      var all := ReleaseAll(queue[1..], r);
      assert all[|queue| - 1..][0] == queue[0] && all[|queue| - 1..][1..] == all[|queue|..];
    }
  }

  // ------------------------------------------------------- the linked structure

  /** Following the links from `start` visits exactly `s`. */
  predicate Chain(links: seq<int>, start: int, s: seq<nat>)
    decreases s
  {
    if s == [] then start == NIL
    else start == s[0] && s[0] < |links| && Chain(links, links[s[0]], s[1..])
  }

  lemma {:induction false} ChainBound(a: seq<int>, start: int, s: seq<nat>)
    requires Chain(a, start, s)
    ensures forall n :: n in s ==> n < |a|
    decreases s
  {
    if s != [] {
      ChainBound(a, a[s[0]], s[1..]);
      assert s == [s[0]] + s[1..];
    }
  }

  lemma {:induction false} ChainFrame(a: seq<int>, b: seq<int>, start: int, s: seq<nat>)
    requires |a| == |b| && Chain(a, start, s) && forall n :: n in s && n < |a| ==> a[n] == b[n]
    ensures Chain(b, start, s)
    decreases s
  {
    if s != [] { ChainFrame(a, b, a[s[0]], s[1..]); }
  }

  /** Linking node `n` behind the last node of a chain. */
  lemma {:induction false} ChainAppend(a: seq<int>, b: seq<int>, start: int, s: seq<nat>, n: nat)
    requires |a| == |b| && n < |a| && Chain(a, start, s) && NoDup(s) && n !in s && b[n] == NIL
    requires forall x :: x in s && x < |a| ==> b[x] == if x == s[|s| - 1] then n else a[x]
    ensures Chain(b, if s == [] then n else start, s + [n])
    decreases s
  {
    if s == [] {
      assert (s + [n])[1..] == [];
    } else {
      assert (s + [n])[1..] == s[1..] + [n];
      if |s| > 1 {
        assert s[0] != s[|s| - 1] && s[1..][|s| - 2] == s[|s| - 1];
      }
      NoDupPop(s);
      ChainAppend(a, b, a[s[0]], s[1..], n);
    }
  }

  class Queue {
    const c: Config
    const next: array<int>            // next links of the nodes, NIL at the end of a list
    var head: int
    var tail: int
    var freeHead: int
    var entry: nat
    var receivers: seq<Tid>
    var senders: seq<Tid>
    ghost var free: seq<nat>
    ghost var queue: seq<nat>

    ghost predicate Valid()
      reads this, next
    {
      && next.Length == c.maxMsgs
      && Chain(next[..], freeHead, free) && Chain(next[..], head, queue)
      && tail == (if queue == [] then NIL else queue[|queue| - 1])
      && NoDup(free) && NoDup(queue) && (forall n :: n in free ==> n !in queue)
    }

    ghost function View(): Store
      reads this
    {
      Store(free, queue, entry, receivers, senders)
    }

    /** rt_mq_init: every node goes onto the free list, the last one first. */
    constructor (c: Config)
      ensures Valid() && fresh(next) && this.c == c && View() == Fresh(c)
    {
      this.c := c;
      next := new int[c.maxMsgs];
      head, tail, freeHead, entry := NIL, NIL, NIL, 0;
      receivers, senders := [], [];
      free, queue := [], [];
      new;
      var k := 0;
      while k < c.maxMsgs
        invariant 0 <= k <= c.maxMsgs && |free| == k
        invariant forall i :: 0 <= i < k ==> free[i] == k - 1 - i
        invariant head == tail == NIL && queue == [] && entry == 0 && receivers == senders == []
        invariant fresh(next) && next.Length == c.maxMsgs && this.c == c && Valid()
      {
        ghost var was := next[..];
        NoDupPush(k, free);
        next[k] := freeHead;
        ChainFrame(was, next[..], freeHead, free);
        assert ([k] + free)[1..] == free;
        freeHead := k;
        free := [k] + free;
        k := k + 1;
      }
    }

    /** First section of a send: moves the free list pointer. */
    method TakeFree() returns (n: nat)
      requires Valid() && freeHead != NIL
      modifies this`freeHead, this`free
      ensures Valid() && old(free) != [] && n == old(free)[0] && View() == Take(old(View()))
      ensures n !in free && n !in queue && n < next.Length
    {
      NoDupPop(free);
      n := freeHead;
      freeHead := next[n];
      free := free[1..];
    }

    /** Last section of rt_mq_send_wait: links the filled node behind the tail. */
    method LinkTail(n: nat) returns (woken: set<Tid>, err: Outcome)
      requires Valid() && n < next.Length && n !in free && n !in queue
      modifies this, next
      ensures Valid() && View() == Link(old(View()), n, false)
      ensures err == if old(entry) >= MQ_ENTRY_MAX then EFull else EOk
      ensures woken == if err.EFull? then {} else First(old(receivers))
    {
      ghost var was := next[..];
      NoDupPush(n, queue);
      ChainBound(was, head, queue);
      next[n] := NIL;
      if tail != NIL {
        assert tail in queue;
        next[tail] := n;
      }
      tail := n;
      if head == NIL { head := n; }
      ChainAppend(was, next[..], old(head), queue, n);
      ChainFrame(was, next[..], freeHead, free);
      queue := queue + [n];
      woken, err := Publish();
    }

    /** Last section of rt_mq_urgent: links the filled node before the head. */
    method LinkHead(n: nat) returns (woken: set<Tid>, err: Outcome)
      requires Valid() && n < next.Length && n !in free && n !in queue
      modifies this, next
      ensures Valid() && View() == Link(old(View()), n, true)
      ensures err == if old(entry) >= MQ_ENTRY_MAX then EFull else EOk
      ensures woken == if err.EFull? then {} else First(old(receivers))
    {
      ghost var was := next[..];
      NoDupPush(n, queue);
      next[n] := head;
      ChainFrame(was, next[..], head, queue);
      ChainFrame(was, next[..], freeHead, free);
      assert ([n] + queue)[1..] == queue;
      head := n;
      if tail == NIL { tail := n; }
      queue := [n] + queue;
      woken, err := Publish();
    }

    /** Counts a linked message and wakes the first suspended receiver. */
    method Publish() returns (woken: set<Tid>, err: Outcome)
      modifies this`entry, this`receivers
      ensures err == if old(entry) >= MQ_ENTRY_MAX then EFull else EOk
      ensures woken == if err.EFull? then {} else First(old(receivers))
      ensures entry == old(entry) + if err.EFull? then 0 else 1
      ensures receivers == if err.EFull? || old(receivers) == [] then old(receivers) else old(receivers)[1..]
    {
      if entry < MQ_ENTRY_MAX {
        entry := entry + 1;
      } else {
        return {}, EFull;
      }
      woken, err := First(receivers), EOk;
      if receivers != [] { receivers := receivers[1..]; }
    }

    /** First section of a receive: unlinks the head message. */
    method PopHead() returns (n: nat)
      requires Valid() && head != NIL
      modifies this
      ensures Valid() && old(queue) != [] && n == old(queue)[0] && View() == Pop(old(View()))
      ensures n !in free && n !in queue && n < next.Length
    {
      NoDupPop(queue);
      n := head;
      head := next[n];
      if tail == n { tail := NIL; }
      if entry > 0 { entry := entry - 1; }
      queue := queue[1..];
    }

    /** Last section of a receive: returns the node and wakes the first suspended sender. */
    method ReturnNode(n: nat) returns (woken: set<Tid>)
      requires Valid() && n < next.Length && n !in free && n !in queue
      modifies this, next
      ensures Valid() && View() == PutBack(old(View()), n) && woken == First(old(senders))
    {
      ghost var was := next[..];
      NoDupPush(n, free);
      next[n] := freeHead;
      ChainFrame(was, next[..], freeHead, free);
      ChainFrame(was, next[..], head, queue);
      assert ([n] + free)[1..] == free;
      freeHead := n;
      free := [n] + free;
      woken := First(senders);
      if senders != [] { senders := senders[1..]; }
    }

    /** One round of the reset loop: the head message goes back to the free list. */
    method ReleaseHead()
      requires Valid() && head != NIL
      modifies next, this`head, this`tail, this`freeHead, this`free, this`queue
      ensures Valid() && old(queue) != []
      ensures queue == old(queue)[1..] && free == [old(queue)[0]] + old(free)
    {
      NoDupPop(queue);
      NoDupPush(queue[0], free);
      var msg := head;
      head := next[msg];
      if tail == msg { tail := NIL; }
      queue := queue[1..];
      ghost var was := next[..];
      next[msg] := freeHead;
      ChainFrame(was, next[..], freeHead, free);
      ChainFrame(was, next[..], head, queue);
      freeHead := msg;
      free := [msg] + free;
      assert free[1..] == old(free);
    }

    /** rt_mq_control(RESET): wakes everybody and releases every queued message. */
    method ResetAll() returns (woken: set<Tid>)
      requires Valid()
      modifies this, next
      ensures Valid() && View() == Reset(old(View()))
      ensures woken == (set t | t in old(receivers)) + (set t | t in old(senders))
    {
      woken := (set t | t in receivers) + (set t | t in senders);
      receivers, senders, entry := [], [], 0;
      while head != NIL
        invariant Valid() && receivers == senders == [] && entry == 0
        invariant ReleaseAll(queue, free) == ReleaseAll(old(queue), old(free))
        decreases |queue|
      {
        ReleaseHead();
      }
    }
  }
}
