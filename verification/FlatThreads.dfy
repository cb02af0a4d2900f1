/** What callers may expect of threads, without queues and bitmap: each thread has a record, and a
    stamp that says when it last came to the back of its level. The kernel does exactly that,
    over every run whose sections find what they need. */
module FlatThreads {
  import opened WaitList
  import opened ReadyQueues
  import K = Threads

  /** `since` holds the stamps, `now` counts events. */
  datatype Flat = Flat(th: map<Tid, K.Thread>, since: map<Tid, nat>, waits: map<K.Oid, seq<Tid>>, current: Tid,
                       calls: map<K.Cid, K.Call>, now: nat)

  // ---------------------------------------------------------- what each event does

  /** Thread `t` is on no wait list any more. */
  function Gone(f: Flat, t: Tid): Flat {
    f.(waits := map o | o in f.waits :: Without(f.waits[o], t))
  }

  function Record(f: Flat, t: Tid, x: K.Thread): Flat {
    f.(th := f.th[t := x])
  }

  /** Thread `t` becomes ready, at the back of its level. */
  function Arrive(f: Flat, t: Tid, x: K.Thread): Flat {
    f.(th := f.th[t := x.(stat := K.Ready)], since := f.since[t := f.now])
  }

  predicate IsReady(f: Flat, t: Tid) {
    t in f.th && f.th[t].stat == K.Ready && t in f.since
  }

  /** Of the ready threads the most urgent, and of these the one that is longest at its level. */
  ghost predicate IsFirst(f: Flat, t: Tid) {
    && IsReady(f, t)
    && forall u :: IsReady(f, u) && u != t ==>
         f.th[t].prio < f.th[u].prio || (f.th[t].prio == f.th[u].prio && f.since[t] < f.since[u])
  }

  function AfterSection(f: Flat, call: K.Call): Flat
    requires call.t in f.th
  {
    var x := f.th[call.t];
    match call
    case ToSuspend(t) => Record(Gone(f, t), t, x.(stat := K.Suspend, timing := false))
    case ToResume(t) => Record(Gone(f, t), t, x.(timing := false))
    case ToInsert(t) => Arrive(f, t, x)
  }

  function ListOf(f: Flat, o: K.Oid): seq<Tid> {
    if o in f.waits then f.waits[o] else []
  }

  function Joined(f: Flat, t: Tid, o: K.Oid, order: Order): Flat {
    f.(waits := f.waits[o := Enqueue(ListOf(f, o), K.PriosOf(f.th), order, t)])
  }

  ghost function After(f: Flat, e: K.Event): Flat {
    var me := f.current;
    var running := IsReady(f, me);
    match e
    case CallSuspend(c, t) =>
      if c !in f.calls && t in f.th && f.th[t].stat == K.Ready then f.(calls := f.calls[c := K.ToSuspend(t)]) else f
    case CallResume(c, t) =>
      if c !in f.calls && t in f.th && f.th[t].stat == K.Suspend then f.(calls := f.calls[c := K.ToResume(t)]) else f
    case Go(c) =>
      if c !in f.calls || f.calls[c].t !in f.th then f
      else
        AfterSection(f, f.calls[c])
          .(calls := if f.calls[c].ToResume? then f.calls[c := K.ToInsert(f.calls[c].t)] else f.calls - {c})
    case Startup(t) =>
      if t in f.th && f.th[t].stat == K.Init then Record(f, t, f.th[t].(stat := K.Suspend, prio := f.th[t].initPrio))
      else f
    case Block(o, order, timeout) =>
      if !running then f
      else Joined(Record(f, me, f.th[me].(stat := K.Suspend, timing := timeout > 0, error := EOk)), me, o, order)
    case Sleep => if !running then f else Record(f, me, f.th[me].(stat := K.Suspend, timing := true))
    case WakeOne(o) =>
      if ListOf(f, o) == [] || ListOf(f, o)[0] !in f.th then f
      else
        var t := ListOf(f, o)[0];
        Arrive(Gone(f, t), t, f.th[t].(timing := false))
    case Fire(t) =>
      if t in f.th && f.th[t].timing then Arrive(Gone(f, t), t, f.th[t].(error := ETimeout, timing := false)) else f
    case YieldNow => if running then Arrive(f, me, f.th[me]) else f
    case SetPriority(t, p) =>
      if t !in f.th || p >= 32 then f
      else if f.th[t].stat == K.Ready then Arrive(f, t, f.th[t].(prio := p))
      else Record(f, t, f.th[t].(prio := p))
    case Exit => if !running then f else Record(f, me, f.th[me].(stat := K.Close, timing := false))
    case Schedule => if t :| IsFirst(f, t) then f.(current := t) else f
  }

  ghost function Step(f: Flat, e: K.Event): Flat {
    After(f, e).(now := f.now + 1)
  }

  ghost function Exec(f: Flat, es: seq<K.Event>): Flat
    decreases |es|
  {
    if es == [] then f else Exec(Step(f, es[0]), es[1..])
  }

  function Initial(prio: map<Tid, nat>): Flat {
    Flat(map t | t in prio :: K.Thread(K.Init, prio[t], prio[t], false, EOk), map[], map[], 0, map[], 0)
  }

  // ------------------------------------------------------------ what the kernel does

  /** The queues hold the threads of each level by their stamps. */
  ghost predicate Stamped(ready: Queues, since: map<Tid, nat>, now: nat) {
    AllBefore(since, now) && forall p :: 0 <= p < |ready| ==> InOrder(ready[p], Fifo, map[], since)
  }

  ghost predicate Follows(s: K.System, f: Flat) {
    && s.k.th == f.th && s.k.waits == f.waits && s.k.current == f.current && s.calls == f.calls
    && Stamped(s.k.ready, f.since, f.now)
  }

  lemma StampedLater(ready: Queues, since: map<Tid, nat>, now: nat)
    requires Stamped(ready, since, now)
    ensures Stamped(ready, since, now + 1)
  {
  }

  lemma RemovedStamped(ready: Queues, since: map<Tid, nat>, now: nat, t: Tid, p: nat)
    requires Stamped(ready, since, now) && p < |ready|
    ensures Stamped(Removed(ready, t, p), since, now)
  {
    WithoutInOrder(ready[p], Fifo, map[], since, t);
  }

  lemma InsertedStamped(ready: Queues, since: map<Tid, nat>, now: nat, t: Tid, p: nat)
    requires Stamped(ready, since, now) && p < |ready| && forall i :: 0 <= i < |ready| ==> t !in ready[i]
    ensures Stamped(Inserted(ready, t, p), since[t := now], now + 1)
  {
    var q1, since1 := Inserted(ready, t, p), since[t := now];
    EnqueueInOrder(ready[p], map[], Fifo, t, since, now);
    assert ready[p] + [t] == Enqueue(ready[p], map[], Fifo, t);
    forall i | 0 <= i < |q1| ensures InOrder(q1[i], Fifo, map[], since1) {
      if i != p { SameInOrder(ready[i], Fifo, map[], since, map[], since1); }
    }
  }

  /** A ready thread has a stamp and is on no wait list. */
  lemma ReadyStamped(s: K.System, f: Flat, t: Tid)
    requires K.Coherent(s.k) && Follows(s, f) && t in s.k.th && s.k.th[t].stat == K.Ready
    ensures t in f.since && s.k.th[t].prio < |s.k.ready| && t in s.k.ready[s.k.th[t].prio] && K.WaitsNowhere(s.k, t)
    ensures Gone(f, t).waits == f.waits
  {
    assert K.ThreadOk(s.k.th[t]);
    var p := s.k.th[t].prio;
    assert K.QueueExact(s.k.th, s.k.ready[p], p);
    forall o | o in f.waits ensures Without(f.waits[o], t) == f.waits[o] { assert !K.Waits(s.k, t, o); }
  }

  lemma RunningIff(s: K.System, f: Flat)
    requires K.Coherent(s.k) && Follows(s, f)
    ensures K.Running(s.k) <==> IsReady(f, f.current)
  {
    if K.Running(s.k) { ReadyStamped(s, f, s.k.current); }
  }

  /** Thread `t` leaves every list; the others keep their places. */
  lemma TakenOffIs(s: K.System, f: Flat, t: Tid)
    requires K.Coherent(s.k) && Follows(s, f) && t in s.k.th
    ensures var k1 := K.TakenOff(s.k, t);
      && k1.th == s.k.th && k1.waits == Gone(f, t).waits && k1.current == s.k.current
      && Stamped(k1.ready, f.since, f.now) && |k1.ready| == LEVELS && forall i :: 0 <= i < LEVELS ==> t !in k1.ready[i]
  {
    if s.k.th[t].stat == K.Ready {
      K.UnlinkReady(s.k, t);
      RemovedStamped(s.k.ready, f.since, f.now, t, s.k.th[t].prio);
    } else {
      K.UnlinkIdle(s.k, t);
    }
  }

  lemma UnlinkedIdleIs(s: K.System, f: Flat, t: Tid)
    requires K.Coherent(s.k) && Follows(s, f) && t in s.k.th && s.k.th[t].stat != K.Ready
    ensures var k1 := K.Unlinked(s.k, t);
      && k1.th == s.k.th && k1.waits == Gone(f, t).waits && k1.current == s.k.current && k1.ready == s.k.ready
      && |k1.ready| == LEVELS && forall i :: 0 <= i < LEVELS ==> t !in k1.ready[i]
  {
    K.UnlinkIdle(s.k, t);
    forall i | 0 <= i < LEVELS ensures t !in s.k.ready[i] { assert K.QueueExact(s.k.th, s.k.ready[i], i); }
  }

  /** A thread on no queue enters the one of its priority. */
  lemma MadeReadyIs(k: K.Kernel, t: Tid, since: map<Tid, nat>, now: nat)
    requires t in k.th && k.th[t].prio < |k.ready| && Stamped(k.ready, since, now)
    requires forall i :: 0 <= i < |k.ready| ==> t !in k.ready[i]
    ensures var k1 := K.MadeReady(k, t);
      && k1.th == k.th[t := k.th[t].(stat := K.Ready)] && k1.waits == k.waits && k1.current == k.current
      && Stamped(k1.ready, since[t := now], now + 1)
  {
    InsertedStamped(k.ready, since, now, t, k.th[t].prio);
  }

  lemma SectionFollows(s: K.System, f: Flat, call: K.Call)
    requires K.Coherent(s.k) && Follows(s, f) && call.t in s.k.th && K.Finds(s.k, call)
    ensures var k1, f1 := K.RunSection(s.k, call), AfterSection(f, call);
      k1.th == f1.th && k1.waits == f1.waits && k1.current == f1.current && Stamped(k1.ready, f1.since, f.now + 1)
  {
    var t := call.t;
    match call
    case ToSuspend(_) => TakenOffIs(s, f, t);
    case ToResume(_) => UnlinkedIdleIs(s, f, t);
    case ToInsert(_) =>
      UnlinkedIdleIs(s, f, t);
      assert K.ThreadOk(s.k.th[t]);
      MadeReadyIs(s.k, t, f.since, f.now);
  }

  /** The section of a blocking call, field by field. */
  lemma BlockedIs(k: K.Kernel, t: Tid, o: K.Oid, order: Order, timeout: int)
    requires t in k.th && k.th[t].stat == K.Ready && !k.th[t].timing && K.TakenOff(k, t).waits == k.waits
    ensures var k1 := K.Blocked(k, t, o, order, timeout);
      && k1.th == k.th[t := k.th[t].(stat := K.Suspend, timing := timeout > 0, error := EOk)]
      && k1.waits == k.waits[o := Enqueue(if o in k.waits then k.waits[o] else [], K.PriosOf(k.th), order, t)]
      && k1.current == k.current && k1.ready == K.TakenOff(k, t).ready
  {
    SamePrios(k.th, t, k.th[t].(stat := K.Suspend, timing := false));
  }

  lemma BlockFollows(s: K.System, f: Flat, o: K.Oid, order: Order, timeout: int)
    requires K.Coherent(s.k) && Follows(s, f)
    ensures var e := K.Block(o, order, timeout); Follows(K.Step(s, e), Step(f, e))
  {
    RunningIff(s, f);
    if K.Running(s.k) {
      var t := s.k.current;
      assert K.ThreadOk(s.k.th[t]);
      ReadyStamped(s, f, t);
      TakenOffIs(s, f, t);
      BlockedIs(s.k, t, o, order, timeout);
      SamePrios(s.k.th, t, s.k.th[t].(stat := K.Suspend, timing := timeout > 0, error := EOk));
    }
  }

  lemma SamePrios(th: map<Tid, K.Thread>, t: Tid, x: K.Thread)
    requires t in th && x.prio == th[t].prio
    ensures K.PriosOf(th[t := x]) == K.PriosOf(th)
  {
  }

  lemma SleepFollows(s: K.System, f: Flat)
    requires K.Coherent(s.k) && Follows(s, f)
    ensures Follows(K.Step(s, K.Sleep), Step(f, K.Sleep)) && Follows(K.Step(s, K.Exit), Step(f, K.Exit))
  {
    RunningIff(s, f);
    if K.Running(s.k) {
      ReadyStamped(s, f, s.k.current);
      TakenOffIs(s, f, s.k.current);
    }
  }

  /** A suspended thread is taken off its list and made ready. */
  lemma RevivedFollows(s: K.System, f: Flat, t: Tid, x: K.Thread)
    requires K.Coherent(s.k) && Follows(s, f) && t in s.k.th && s.k.th[t].stat == K.Suspend
    requires x.prio == s.k.th[t].prio
    ensures var k1, f1 := K.MadeReady(K.With(K.Unlinked(s.k, t), t, x), t), Arrive(Gone(f, t), t, x);
      k1.th == f1.th && k1.waits == f1.waits && k1.current == f1.current && Stamped(k1.ready, f1.since, f.now + 1)
  {
    UnlinkedIdleIs(s, f, t);
    assert K.ThreadOk(s.k.th[t]);
    MadeReadyIs(K.With(K.Unlinked(s.k, t), t, x), t, f.since, f.now);
  }

  lemma WakeFollows(s: K.System, f: Flat, o: K.Oid)
    requires K.Coherent(s.k) && Follows(s, f)
    ensures Follows(K.Step(s, K.WakeOne(o)), Step(f, K.WakeOne(o)))
  {
    if ListOf(f, o) != [] && ListOf(f, o)[0] in f.th {
      var t := ListOf(f, o)[0];
      assert K.Waits(s.k, t, o);
      RevivedFollows(s, f, t, s.k.th[t].(timing := false));
    }
  }

  lemma FireFollows(s: K.System, f: Flat, t: Tid)
    requires K.Coherent(s.k) && Follows(s, f)
    ensures Follows(K.Step(s, K.Fire(t)), Step(f, K.Fire(t)))
  {
    if t in f.th && f.th[t].timing {
      assert K.ThreadOk(s.k.th[t]);
      RevivedFollows(s, f, t, s.k.th[t].(error := ETimeout, timing := false));
    }
  }

  lemma YieldFollows(s: K.System, f: Flat)
    requires K.Coherent(s.k) && Follows(s, f)
    ensures Follows(K.Step(s, K.YieldNow), Step(f, K.YieldNow))
  {
    RunningIff(s, f);
    if K.Running(s.k) {
      var t := s.k.current;
      var p := s.k.th[t].prio;
      ReadyStamped(s, f, t);
      assert s.k.th[t := s.k.th[t].(stat := K.Ready)] == s.k.th;
      K.UnlinkReady(s.k, t);
      TakenOffIs(s, f, t);
      InsertedStamped(Removed(s.k.ready, t, p), f.since, f.now, t, p);
      if |s.k.ready[p]| < 2 { AloneStays(s.k.ready[p], t); }
      assert Yielded(s.k.ready, t, p) == Inserted(Removed(s.k.ready, t, p), t, p);
    }
  }

  /** Moving a thread that is alone on its queue to the back changes nothing. */
  lemma AloneStays(list: seq<Tid>, t: Tid)
    requires t in list && |list| < 2
    ensures Without(list, t) + [t] == list
  {
    assert list == [t] && list[1..] == [];
  }

  lemma PriorityFollows(s: K.System, f: Flat, t: Tid, p: nat)
    requires K.Coherent(s.k) && Follows(s, f)
    ensures Follows(K.Step(s, K.SetPriority(t, p)), Step(f, K.SetPriority(t, p)))
  {
    if t in f.th && p < LEVELS && f.th[t].stat == K.Ready {
      TakenOffIs(s, f, t);
      ReadyStamped(s, f, t);
      MadeReadyIs(K.With(K.TakenOff(s.k, t), t, s.k.th[t].(prio := p)), t, f.since, f.now);
    }
  }

  /** The head of the most urgent nonempty queue is first, and nobody else is. */
  lemma HeadIsFirst(s: K.System, f: Flat, t: Tid)
    requires K.Coherent(s.k) && Follows(s, f)
    ensures var p := K.TopBit(s.k.bits, 0, LEVELS);
      IsFirst(f, t) <==> p < LEVELS && s.k.ready[p] != [] && t == s.k.ready[p][0]
  {
    var p := K.TopBit(s.k.bits, 0, LEVELS);
    forall u | IsReady(f, u) ensures p <= f.th[u].prio < LEVELS && u in s.k.ready[f.th[u].prio] {
      ReadyStamped(s, f, u);
    }
    if p < LEVELS {
      var q := s.k.ready[p];
      assert K.QueueExact(s.k.th, q, p);
      var h := q[0];
      assert h in q;
      forall u | IsReady(f, u) && u != h && f.th[u].prio == p ensures f.since[h] < f.since[u] {
        var j :| 0 <= j < |q| && q[j] == u;
        assert Before(Fifo, map[], f.since, q[0], q[j]);
      }
      assert IsFirst(f, h);
      assert IsFirst(f, t) ==> t == h;
    }
  }

  lemma ScheduleFollows(s: K.System, f: Flat)
    requires K.Coherent(s.k) && Follows(s, f)
    ensures Follows(K.Step(s, K.Schedule), Step(f, K.Schedule))
  {
    var p := K.TopBit(s.k.bits, 0, LEVELS);
    forall t ensures IsFirst(f, t) <==> p < LEVELS && s.k.ready[p] != [] && t == s.k.ready[p][0] {
      HeadIsFirst(s, f, t);
    }
    if p < LEVELS { assert IsFirst(f, s.k.ready[p][0]); }
  }

  lemma GoFollows(s: K.System, f: Flat, c: K.Cid)
    requires K.Coherent(s.k) && Follows(s, f) && K.Admits(s, K.Go(c))
    ensures Follows(K.Step(s, K.Go(c)), Step(f, K.Go(c)))
  {
    if c in s.calls && s.calls[c].t in s.k.th { SectionFollows(s, f, s.calls[c]); }
  }

  lemma StepFollows(s: K.System, f: Flat, e: K.Event)
    requires K.Coherent(s.k) && Follows(s, f) && K.Admits(s, e)
    ensures Follows(K.Step(s, e), Step(f, e))
  {
    StampedLater(s.k.ready, f.since, f.now);
    match e
    case CallSuspend(c, t) =>
    case CallResume(c, t) =>
    case Go(c) => GoFollows(s, f, c);
    case Startup(t) =>
    case Block(o, order, timeout) => BlockFollows(s, f, o, order, timeout);
    case Sleep => SleepFollows(s, f);
    case WakeOne(o) => WakeFollows(s, f, o);
    case Fire(t) => FireFollows(s, f, t);
    case YieldNow => YieldFollows(s, f);
    case SetPriority(t, p) => PriorityFollows(s, f, t, p);
    case Exit => SleepFollows(s, f);
    case Schedule => ScheduleFollows(s, f);
  }

  lemma {:induction false} ExecFollows(s: K.System, f: Flat, es: seq<K.Event>)
    requires K.Coherent(s.k) && Follows(s, f) && K.AdmitsAll(s, es)
    ensures K.Coherent(K.Exec(s, es).k) && Follows(K.Exec(s, es), Exec(f, es))
    decreases |es|
  {
    if es != [] {
      K.StepCoherentIff(s, es[0]);
      StepFollows(s, f, es[0]);
      ExecFollows(K.Step(s, es[0]), Step(f, es[0]), es[1..]);
    }
  }

  /** Over every run whose sections find what they need, the kernel does what the flat account
      says: each thread has the state, priority, timer and error it says, the wait lists and the
      running thread are the ones it says, and every ready queue holds the threads of its level
      in the order in which they came to its back. */
  lemma KernelFollowsFlat(prio: map<Tid, nat>, es: seq<K.Event>)
    requires (forall t :: t in prio ==> prio[t] < LEVELS) && K.AdmitsAll(K.Initial(prio), es)
    ensures var s, f := K.Exec(K.Initial(prio), es), Exec(Initial(prio), es);
      && s.k.th == f.th && s.k.waits == f.waits && s.k.current == f.current && s.calls == f.calls
      && forall p :: 0 <= p < |s.k.ready| ==> InOrder(s.k.ready[p], Fifo, map[], f.since)
  {
    K.BootInv(prio);
    ExecFollows(K.Initial(prio), Initial(prio), es);
  }
}
