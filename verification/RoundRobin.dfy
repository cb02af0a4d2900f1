/** Time slicing (src/clock.c with rt_thread_yield and rt_schedule): who runs during each tick
    while nobody blocks and the scheduler is unlocked. */
module RoundRobin {
  import opened WaitList
  import opened ReadyQueues
  import opened Threads
  import opened TickTime

  /** `init` and `left` are init_tick and remaining_tick of every thread. */
  datatype Cpu = Cpu(tick: nat, ready: Queues, prio: map<Tid, nat>, init: map<Tid, nat>, left: map<Tid, nat>,
          current: Tid)

  function Of(m: map<Tid, nat>, t: Tid): nat {
    if t in m then m[t] else 0
  }

  /** remaining_tick - 1 in 32 bits. */
  function Less(n: nat): nat {
    if n == 0 then TICKS - 1 else n - 1
  }

  /** rt_schedule's choice. */
  function Choice(ready: Queues, current: Tid): Tid {
    var top := TopFrom(ready, 0);
    if top < |ready| then ready[top][0] else current
  }

  /** rt_thread_yield of a ready thread: alone in its queue it neither moves nor schedules. */
  function YieldAndSchedule(c: Cpu): Cpu {
    var p := Of(c.prio, c.current);
    if p < |c.ready| && |c.ready[p]| >= 2 then
      var ready := Yielded(c.ready, c.current, p);
      c.(ready := ready, current := Choice(ready, c.current))
    else c
  }

  /** rt_tick_increase, without the timer check. */
  function Tick(c: Cpu): Cpu {
    var t := c.current;
    var n := Less(Of(c.left, t));
    var c1 := c.(tick := (c.tick + 1) % TICKS);
    if n != 0 then c1.(left := c.left[t := n])
    else YieldAndSchedule(c1.(left := c.left[t := Of(c.init, t)]))
  }

  /** Every queued thread stands in the queue of its priority and has a slice. */
  ghost predicate Known(ready: Queues, prio: map<Tid, nat>, init: map<Tid, nat>, left: map<Tid, nat>) {
    forall p, t :: 0 <= p < |ready| && t in ready[p] ==> t in prio && prio[t] == p && t in init && t in left
  }

  class Clock {
    const levels: Levels
    var tick: nat
    var prio: map<Tid, nat>
    var init: map<Tid, nat>
    var left: map<Tid, nat>

    ghost function View(): Cpu
      reads this, levels, levels.queues
    {
      Cpu(tick, levels.View(), prio, init, left, levels.current)
    }

    ghost predicate Valid()
      reads this, levels, levels.queues
    {
      && levels.Valid() && levels.lockNest == 0 && Known(levels.View(), prio, init, left)
      && levels.current in prio && prio[levels.current] < LEVELS
        && levels.current in levels.queues[prio[levels.current]]
    }

    constructor (levels: Levels, prio: map<Tid, nat>, init: map<Tid, nat>)
      requires levels.Valid()
      ensures this.levels == levels && View() == Cpu(0, levels.View(), prio, init, init, levels.current)
    {
      this.levels := levels;
      tick, this.prio, this.init, left := 0, prio, init, init;
    }

    method Increase()
      requires Valid()
      modifies this, levels, levels.queues
      ensures Valid() && View() == Tick(old(View()))
    {
      CurrentKnown();
      var t := levels.current;
      tick := (tick + 1) % TICKS;
      left := left[t := Less(left[t])];
      if left[t] == 0 {
        left := left[t := init[t]];
        YieldNow(t);
      }
    }

    lemma CurrentKnown()
      requires Valid()
      ensures levels.current in init && levels.current in left
    {
      var q := levels.View();
      assert levels.current in q[prio[levels.current]];
    }

    /** rt_thread_yield of the running, ready thread. */
    method YieldNow(t: Tid)
      requires Valid() && t == levels.current
      modifies levels, levels.queues
      ensures Valid() && View() == YieldAndSchedule(old(View()))
    {
      ghost var q := levels.View();
      assert t in q[prio[t]];
      if |levels.queues[prio[t]]| >= 2 {
        levels.Rotate(t, prio[t]);
        assert levels.View()[prio[t]] != [];
        YieldedKnown(q, prio, init, left, t, prio[t]);
        levels.Schedule();
        InOwnQueue(levels.View(), prio, init, left, levels.current);
      }
    }
  }

  lemma YieldedKnown(q: Queues, prio: map<Tid, nat>, init: map<Tid, nat>, left: map<Tid, nat>, t: Tid, p: nat)
    requires Known(q, prio, init, left) && p < |q| && t in q[p]
    ensures Known(Yielded(q, t, p), prio, init, left)
  {
  }

  /** The thread that was chosen stands in the queue of its priority. */
  lemma InOwnQueue(q: Queues, prio: map<Tid, nat>, init: map<Tid, nat>, left: map<Tid, nat>, t: Tid)
    requires Known(q, prio, init, left) && Chosen(q, t)
    ensures t in prio && prio[t] < |q| && t in q[prio[t]]
  {
  }

  // -------------------------------------------------------------- runs of ticks

  function Ticks(c: Cpu, n: nat): Cpu
    decreases n
  {
    if n == 0 then c else Ticks(Tick(c), n - 1)
  }

  /** The threads that run during the next `n` ticks. */
  function Trace(c: Cpu, n: nat): seq<Tid>
    decreases n
  {
    if n == 0 then [] else [c.current] + Trace(Tick(c), n - 1)
  }

  function Repeat<T>(x: T, n: nat): (r: seq<T>)
    ensures |r| == n && forall i :: 0 <= i < n ==> r[i] == x
  {
    seq(n, i => x)
  }

  lemma {:induction false} TicksSplit(c: Cpu, a: nat, b: nat)
    ensures Ticks(c, a + b) == Ticks(Ticks(c, a), b)
    decreases a
  {
    if a != 0 { TicksSplit(Tick(c), a - 1, b); }
  }

  lemma {:induction false} TraceSplit(c: Cpu, a: nat, b: nat)
    ensures Trace(c, a + b) == Trace(c, a) + Trace(Ticks(c, a), b)
    decreases a
  {
    if a == 0 {
      assert Trace(c, 0) + Trace(c, b) == Trace(c, b);
    } else {
      TraceSplit(Tick(c), a - 1, b);
    }
  }

  function Advance(tick: nat, n: nat): nat {
    (tick + n) % TICKS
  }

  /** The threads of level `p` share the processor: `p` is the most urgent level, all its
      threads have slices, and the first one runs. */
  ghost predicate Sharing(c: Cpu, p: nat) {
    && IsTop(c.ready, p) && NoDup(c.ready[p]) && c.current == c.ready[p][0]
    && (forall t :: t in c.ready[p] ==> Of(c.prio, t) == p && 0 < Of(c.left, t) && 0 < Of(c.init, t))
  }

  /** The first thread runs out its slice, gets a new one and moves to the back. */
  lemma {:induction false} OneSlice(c: Cpu, p: nat)
    requires Sharing(c, p) && c.tick < TICKS
    ensures var h, k := c.current, Of(c.left, c.current);
      var q := c.ready[p][1..] + [h];
      && Ticks(c, k) == Cpu(Advance(c.tick, k), c.ready[p := q], c.prio, c.init, c.left[h := Of(c.init, h)], q[0])
      && Trace(c, k) == Repeat(h, k)
    decreases Of(c.left, c.current)
  {
    var h, k := c.current, Of(c.left, c.current);
    assert h in c.ready[p];
    var c1 := Tick(c);
    if k > 1 {
      EarlyTick(c, p);
      OneSlice(c1, p);
      assert Repeat(h, k) == [h] + Repeat(h, k - 1);
    } else {
      LastTick(c, p);
      assert Ticks(c, 1) == c1 && Trace(c, 1) == [h] + Trace(c1, 0);
    }
  }

  lemma EarlyTick(c: Cpu, p: nat)
    requires Sharing(c, p) && Of(c.left, c.current) > 1 && c.tick < TICKS
    ensures var c1, h := Tick(c), c.current;
      && Sharing(c1, p) && c1.current == h && Of(c1.left, h) == Of(c.left, h) - 1
      && c1.ready == c.ready && c1.prio == c.prio && c1.init == c.init && c1.tick == Advance(c.tick, 1) < TICKS
      && c1.left[h := Of(c.init, h)] == c.left[h := Of(c.init, h)]
      && forall n: nat :: Advance(c1.tick, n) == Advance(c.tick, n + 1)
  {
  }

  lemma LastTick(c: Cpu, p: nat)
    requires Sharing(c, p) && Of(c.left, c.current) == 1
    ensures var h := c.current;
      var q := c.ready[p][1..] + [h];
      Tick(c) == Cpu(Advance(c.tick, 1), c.ready[p := q], c.prio, c.init, c.left[h := Of(c.init, h)], q[0])
  {
    var h, list := c.current, c.ready[p];
    var q := list[1..] + [h];
    assert h in list;
    if |list| >= 2 {
      assert list == [h] + list[1..] && h !in list[1..];
      WithoutHead(list);
      assert Yielded(c.ready, h, p) == c.ready[p := q];
      assert IsTop(c.ready[p := q], p);
      assert TopFrom(c.ready[p := q], 0) == p;
    } else {
      assert q == list && c.ready[p := q] == c.ready;
    }
  }

  lemma WithoutHead(list: seq<Tid>)
    requires list != [] && list[0] !in list[1..]
    ensures Without(list, list[0]) == list[1..]
  {
  }

  function SliceTicks(ts: seq<Tid>, left: map<Tid, nat>): nat {
    if ts == [] then 0 else Of(left, ts[0]) + SliceTicks(ts[1..], left)
  }

  /** Each thread of `ts` in turn, for its whole slice. */
  function Slices(ts: seq<Tid>, left: map<Tid, nat>): seq<Tid> {
    if ts == [] then [] else Repeat(ts[0], Of(left, ts[0])) + Slices(ts[1..], left)
  }

  function Renewed(ts: seq<Tid>, c: Cpu): map<Tid, nat> {
    if ts == [] then c.left else Renewed(ts[1..], c.(left := c.left[ts[0] := Of(c.init, ts[0])]))
  }

  lemma {:induction false} SlicesFrame(ts: seq<Tid>, a: map<Tid, nat>, b: map<Tid, nat>)
    requires forall t :: t in ts ==> Of(a, t) == Of(b, t)
    ensures SliceTicks(ts, a) == SliceTicks(ts, b) && Slices(ts, a) == Slices(ts, b)
  {
    if ts != [] {
      assert ts[0] in ts && forall t :: t in ts[1..] ==> t in ts;
      SlicesFrame(ts[1..], a, b);
    }
  }

  /** The threads `todo` at the front run one slice each, in order, and go behind `done`. */
  lemma {:induction false} SomeSlices(c: Cpu, p: nat, todo: seq<Tid>, done: seq<Tid>)
    requires Sharing(c, p) && c.tick < TICKS && c.ready[p] == todo + done
    ensures var n := SliceTicks(todo, c.left);
      AfterSlices(c, p, todo, done, n, Trace(c, n), Ticks(c, n))
    decreases |todo|
  {
    if todo == [] {
      assert todo + done == done && done + todo == done;
      assert c.ready[p := done] == c.ready;
    } else {
      var c1 := NextSlice(c, p, todo, done);
      SlicesFrame(todo[1..], c1.left, c.left);
      SomeSlices(c1, p, todo[1..], done + [todo[0]]);
      RunsOn(c, todo, c1);
      var n := SliceTicks(todo[1..], c.left);
      JoinSlices(c, p, todo, done, c1, Trace(c1, n), Ticks(c1, n));
    }
  }

  /** The slice of the first thread, then those of the rest. */
  lemma {:induction false} RunsOn(c: Cpu, todo: seq<Tid>, c1: Cpu)
    requires todo != [] && c1 == Ticks(c, Of(c.left, todo[0]))
    ensures var k, n, m := Of(c.left, todo[0]), SliceTicks(todo[1..], c.left), SliceTicks(todo, c.left);
      Ticks(c, m) == Ticks(c1, n) && Trace(c, m) == Trace(c, k) + Trace(c1, n)
  {
    TicksSplit(c, Of(c.left, todo[0]), SliceTicks(todo[1..], c.left));
    TraceSplit(c, Of(c.left, todo[0]), SliceTicks(todo[1..], c.left));
  }

  ghost predicate AfterSlices(c: Cpu, p: nat, todo: seq<Tid>, done: seq<Tid>, n: nat, trace: seq<Tid>, end: Cpu)
    requires p < |c.ready|
  {
    var q := done + todo;
    && q != [] && trace == Slices(todo, c.left)
    && end == Cpu(Advance(c.tick, n), c.ready[p := q], c.prio, c.init, Renewed(todo, c), q[0])
  }

  lemma NextSlice(c: Cpu, p: nat, todo: seq<Tid>, done: seq<Tid>) returns (c1: Cpu)
    requires Sharing(c, p) && c.tick < TICKS && todo != [] && c.ready[p] == todo + done
    ensures var k := Of(c.left, todo[0]);
      && c1 == Ticks(c, k) && Trace(c, k) == Repeat(todo[0], k) && Sharing(c1, p)
      && c1.ready == c.ready[p := todo[1..] + (done + [todo[0]])]
      && c1.tick == Advance(c.tick, k) && c1.prio == c.prio && c1.init == c.init
      && c1.left == c.left[todo[0] := Of(c.init, todo[0])]
      && forall t :: t in todo[1..] ==> Of(c1.left, t) == Of(c.left, t)
  {
    var h := todo[0];
    assert h in c.ready[p];
    OneSlice(c, p);
    c1 := Ticks(c, Of(c.left, h));
    assert c.ready[p][1..] == todo[1..] + done && todo[1..] + done + [h] == todo[1..] + (done + [h]);
    StillSharing(c, p, c1);
  }

  lemma {:induction false} JoinSlices(
    c: Cpu, p: nat, todo: seq<Tid>, done: seq<Tid>, c1: Cpu, trace: seq<Tid>, end: Cpu)
    requires p < |c.ready| && todo != [] && |c1.ready| == |c.ready|
    requires var k := Of(c.left, todo[0]);
      && c1.ready[p := done + todo] == c.ready[p := done + todo]
      && c1.tick == Advance(c.tick, k) && c1.prio == c.prio && c1.init == c.init
      && c1.left == c.left[todo[0] := Of(c.init, todo[0])]
    requires SliceTicks(todo[1..], c1.left) == SliceTicks(todo[1..], c.left)
        && Slices(todo[1..], c1.left) == Slices(todo[1..], c.left)
    requires AfterSlices(c1, p, todo[1..], done + [todo[0]], SliceTicks(todo[1..], c.left), trace, end)
    ensures AfterSlices(c, p, todo, done, SliceTicks(todo, c.left), Repeat(todo[0], Of(c.left, todo[0])) + trace, end)
  {
    assert done + [todo[0]] + todo[1..] == done + todo;
    JoinTick(c, todo, c1.tick);
    JoinRenewed(c, todo, c1);
  }

  lemma {:induction false} JoinTick(c: Cpu, todo: seq<Tid>, tick: nat)
    requires todo != [] && tick == Advance(c.tick, Of(c.left, todo[0]))
    ensures Advance(tick, SliceTicks(todo[1..], c.left)) == Advance(c.tick, SliceTicks(todo, c.left))
  {
    AdvanceTwice(c.tick, Of(c.left, todo[0]), SliceTicks(todo[1..], c.left));
  }

  lemma {:induction false} JoinRenewed(c: Cpu, todo: seq<Tid>, c1: Cpu)
    requires todo != [] && c1.init == c.init && c1.left == c.left[todo[0] := Of(c.init, todo[0])]
    ensures Renewed(todo[1..], c1) == Renewed(todo, c)
  {
    RenewedFrame(todo[1..], c1, c.(left := c1.left));
  }

  lemma AdvanceTwice(tick: nat, k: nat, n: nat)
    ensures Advance(Advance(tick, k), n) == Advance(tick, k + n)
  {
  }

  lemma {:induction false} RenewedFrame(ts: seq<Tid>, a: Cpu, b: Cpu)
    requires a.left == b.left && a.init == b.init
    ensures Renewed(ts, a) == Renewed(ts, b)
    decreases |ts|
  {
    if ts != [] {
      var x := Of(a.init, ts[0]);
      RenewedFrame(ts[1..], a.(left := a.left[ts[0] := x]), b.(left := b.left[ts[0] := x]));
    }
  }

  lemma StillSharing(c: Cpu, p: nat, c1: Cpu)
    requires Sharing(c, p) && p < |c1.ready| && c1.ready == c.ready[p := c.ready[p][1..] + [c.current]]
    requires c1.prio == c.prio && c1.init == c.init && c1.current == c1.ready[p][0]
    requires c1.left == c.left[c.current := Of(c.init, c.current)]
    ensures Sharing(c1, p)
    ensures forall t :: t in c.ready[p][1..] ==> Of(c1.left, t) == Of(c.left, t)
  {
  }

  lemma {:induction false} RenewedIs(ts: seq<Tid>, c: Cpu, t: Tid)
    ensures Of(Renewed(ts, c), t) == if t in ts then Of(c.init, t) else Of(c.left, t)
    decreases |ts|
  {
    if ts != [] {
      assert ts == [ts[0]] + ts[1..];
      RenewedIs(ts[1..], c.(left := c.left[ts[0] := Of(c.init, ts[0])]), t);
    }
  }

  /** One round: every thread of the level runs what is left of its slice, once, in queue
      order; then the queue is as it was and every thread has a full slice. No other thread
      runs and no other queue changes. */
  lemma OneRound(c: Cpu, p: nat)
    requires Sharing(c, p) && c.tick < TICKS
    ensures var n := SliceTicks(c.ready[p], c.left);
      var c1 := Ticks(c, n);
      && Trace(c, n) == Slices(c.ready[p], c.left)
      && c1.ready == c.ready && c1.current == c.current && c1.tick == Advance(c.tick, n)
      && c1.init == c.init && Sharing(c1, p) && (forall t :: t in c.ready[p] ==> Of(c1.left, t) == Of(c.init, t))
  {
    var q := c.ready[p];
    assert q == q + [] && [] + q == q;
    SomeSlices(c, p, q, []);
    var c1 := Ticks(c, SliceTicks(q, c.left));
    assert c.ready[p := q] == c.ready;
    forall t ensures Of(c1.left, t) == if t in q then Of(c.init, t) else Of(c.left, t) { RenewedIs(q, c, t); }
  }

  function Concat(s: seq<Tid>, k: nat): seq<Tid> {
    if k == 0 then [] else s + Concat(s, k - 1)
  }

  function Times(n: nat, k: nat): nat {
    if k == 0 then 0 else n + Times(n, k - 1)
  }

  /** Round robin for ever: from full slices, `k` rounds run the same sequence of slices `k`
      times, so between two turns of one thread every other thread of the level runs exactly
      once, for exactly its init_tick ticks. */
  lemma {:induction false} RoundRobinForever(c: Cpu, p: nat, k: nat)
    requires Sharing(c, p) && c.tick < TICKS && forall t :: t in c.ready[p] ==> Of(c.left, t) == Of(c.init, t)
    ensures Trace(c, Times(SliceTicks(c.ready[p], c.init), k)) == Concat(Slices(c.ready[p], c.init), k)
    decreases k
  {
    if k > 0 {
      var q := c.ready[p];
      var n := SliceTicks(q, c.init);
      SlicesFrame(q, c.left, c.init);
      OneRound(c, p);
      RoundRobinForever(Ticks(c, n), p, k - 1);
      TicksSplit(c, n, Times(n, k - 1));
      TraceSplit(c, n, Times(n, k - 1));
    }
  }

  function Count(s: seq<Tid>, t: Tid): nat {
    if s == [] then 0 else (if s[0] == t then 1 else 0) + Count(s[1..], t)
  }

  lemma {:induction false} CountAppend(a: seq<Tid>, b: seq<Tid>, t: Tid)
    ensures Count(a + b, t) == Count(a, t) + Count(b, t)
  {
    if a == [] { assert a + b == b; } else {
      assert (a + b)[1..] == a[1..] + b;
      CountAppend(a[1..], b, t);
    }
  }

  lemma {:induction false} CountRepeat(x: Tid, n: nat, t: Tid)
    ensures Count(Repeat(x, n), t) == if t == x then n else 0
  {
    if n > 0 {
      assert Repeat(x, n)[1..] == Repeat(x, n - 1);
      CountRepeat(x, n - 1, t);
    }
  }

  /** How many ticks a thread gets in one round: its own slice, and none for a thread of
      another level. */
  lemma {:induction false} ShareOfRound(ts: seq<Tid>, init: map<Tid, nat>, t: Tid)
    requires NoDup(ts)
    ensures Count(Slices(ts, init), t) == if t in ts then Of(init, t) else 0
  {
    if ts != [] {
      assert ts[0] !in ts[1..] && ts == [ts[0]] + ts[1..];
      CountAppend(Repeat(ts[0], Of(init, ts[0])), Slices(ts[1..], init), t);
      CountRepeat(ts[0], Of(init, ts[0]), t);
      ShareOfRound(ts[1..], init, t);
    }
  }

  /** remaining_tick is decremented before it is tested: a thread that starts with a slice of 0 has
      2^32 ticks before it yields. */
  lemma ZeroSliceLasts(c: Cpu)
    requires Of(c.left, c.current) == 0
    ensures var c1 := Tick(c);
      c1.current == c.current && c1.ready == c.ready && c1.left == c.left[c.current := 0xFFFF_FFFF]
  {
  }
}
