/** Thread states over startup, suspension, resumption, timeouts, yields and priority changes
    (src/thread.c over src/scheduler.c and the wait lists of src/ipc.c). A thread has one list
    link, so it must never be wanted on two lists at once.

    rt_thread_suspend and rt_thread_resume test the state of the thread before they disable
    interrupts, and act on it whatever it has become by then. */
module Threads {
  import opened WaitList
  import opened ReadyQueues
  import opened Words

  type Oid = nat

  datatype Stat = Init | Ready | Suspend | Close

  /** `timing`: the thread's own timer is active. */
  datatype Thread = Thread(stat: Stat, initPrio: nat, prio: nat, timing: bool, error: Outcome)

  /** `bits` holds the levels whose bit is set in rt_thread_ready_priority_group. */
  datatype Kernel = Kernel(th: map<Tid, Thread>, ready: Queues, bits: set<nat>, waits: map<Oid, seq<Tid>>, current: Tid)

  // ------------------------------------------------------ the sections, on values

  function AllWithout(q: Queues, t: Tid): (r: Queues)
    ensures |r| == |q|
  {
    seq(|q|, i requires 0 <= i < |q| => Without(q[i], t))
  }

  /** rt_list_remove of the thread's link, whatever list it is on. */
  function Unlinked(k: Kernel, t: Tid): Kernel {
    k.(ready := AllWithout(k.ready, t), waits := map o | o in k.waits :: Without(k.waits[o], t))
  }

  function With(k: Kernel, t: Tid, x: Thread): Kernel {
    k.(th := k.th[t := x])
  }

  /** rt_schedule_insert_thread. It links the thread without unlinking it first. */
  function MadeReady(k: Kernel, t: Tid): Kernel
    requires t in k.th
  {
    var x := k.th[t];
    if x.prio >= |k.ready| then k
    else With(k, t, x.(stat := Ready)).(ready := Inserted(k.ready, t, x.prio), bits := k.bits + {x.prio})
  }

  /** rt_schedule_remove_thread: off its list, and the bit of its level goes if that is empty. */
  function TakenOff(k: Kernel, t: Tid): Kernel
    requires t in k.th
  {
    var k1, p := Unlinked(k, t), k.th[t].prio;
    if p < |k.ready| && k1.ready[p] == [] then k1.(bits := k.bits - {p}) else k1
  }

  /** The section of rt_thread_suspend. */
  function SuspendSection(k: Kernel, t: Tid): Kernel
    requires t in k.th
  {
    With(TakenOff(k, t), t, k.th[t].(stat := Suspend, timing := false))
  }

  /** First section of rt_thread_resume; the second is MadeReady. */
  function ResumeSection(k: Kernel, t: Tid): Kernel
    requires t in k.th
  {
    With(Unlinked(k, t), t, k.th[t].(timing := false))
  }

  /** rt_thread_suspend called inside a section: test and section are one. */
  function Suspended(k: Kernel, t: Tid): Kernel
    requires t in k.th
  {
    if k.th[t].stat != Ready then k else SuspendSection(k, t)
  }

  /** rt_thread_resume called inside a section. */
  function Resumed(k: Kernel, t: Tid): Kernel
    requires t in k.th
  {
    if k.th[t].stat != Suspend then k else MadeReady(ResumeSection(k, t), t)
  }

  function PriosOf(th: map<Tid, Thread>): map<Tid, nat> {
    map t | t in th :: th[t].prio
  }

  /** The suspending section of every blocking call: off the ready queue, onto a wait list,
      and the timer started when the wait is bounded. */
  function Blocked(k: Kernel, t: Tid, o: Oid, order: Order, timeout: int): Kernel
    requires t in k.th
  {
    var k1 := Suspended(k, t);
    var list := if o in k1.waits then k1.waits[o] else [];
    With(k1, t, k1.th[t].(timing := k1.th[t].timing || timeout > 0, error := EOk))
      .(waits := k1.waits[o := Enqueue(list, PriosOf(k1.th), order, t)])
  }

  function Slept(k: Kernel, t: Tid): Kernel
    requires t in k.th
  {
    var k1 := Suspended(k, t);
    With(k1, t, k1.th[t].(timing := true))
  }

  /** rt_ipc_list_resume */
  function WokenOne(k: Kernel, o: Oid): Kernel {
    if o in k.waits && k.waits[o] != [] && k.waits[o][0] in k.th then Resumed(k, k.waits[o][0]) else k
  }

  /** rt_thread_timeout, the handler of the thread's timer. */
  function TimedOut(k: Kernel, t: Tid): Kernel
    requires t in k.th
  {
    MadeReady(With(Unlinked(k, t), t, k.th[t].(error := ETimeout, timing := false)), t)
  }

  /** rt_thread_control(CHANGE_PRIORITY) */
  function PrioritySet(k: Kernel, t: Tid, p: nat): Kernel
    requires t in k.th
  {
    if k.th[t].stat == Ready then MadeReady(With(TakenOff(k, t), t, k.th[t].(prio := p)), t)
    else With(k, t, k.th[t].(prio := p))
  }

  function YieldedBy(k: Kernel, t: Tid): Kernel
    requires t in k.th
  {
    if k.th[t].stat == Ready && k.th[t].prio < |k.ready| then k.(ready := Yielded(k.ready, t, k.th[t].prio)) else k
  }

  function Exited(k: Kernel, t: Tid): Kernel
    requires t in k.th
  {
    With(TakenOff(k, t), t, k.th[t].(stat := Close, timing := false))
  }

  /** rt_thread_startup up to its call of rt_thread_resume. */
  function Started(k: Kernel, t: Tid): Kernel
    requires t in k.th
  {
    With(k, t, k.th[t].(stat := Suspend, prio := k.th[t].initPrio))
  }

  /** The first nonempty queue from level `p` on. */
  function TopFrom(q: Queues, p: nat): (r: nat)
    requires p <= |q|
    ensures p <= r <= |q| && (forall i :: p <= i < r ==> q[i] == []) && (r < |q| ==> q[r] != [])
    decreases |q| - p
  {
    if p == |q| || q[p] != [] then p else TopFrom(q, p + 1)
  }

  /** The first level from `p` on whose bit is set. */
  function TopBit(bits: set<nat>, p: nat, n: nat): (r: nat)
    requires p <= n
    ensures p <= r <= n && (forall i :: p <= i < r ==> i !in bits) && (r < n ==> r in bits)
    decreases n - p
  {
    if p == n || p in bits then p else TopBit(bits, p + 1, n)
  }

  /** rt_schedule believes the bitmap. A set bit over an empty queue would make it take the head
      of the list for a thread, which is outside the model. */
  function Scheduled(k: Kernel): Kernel {
    var p := TopBit(k.bits, 0, |k.ready|);
    if p < |k.ready| && k.ready[p] != [] then k.(current := k.ready[p][0]) else k
  }

  // ------------------------------------------------------------------ the machine

  type Cid = nat

  /** Where a caller of rt_thread_suspend or rt_thread_resume stands: before the section of the
      one, before the first or before the second section of the other. */
  datatype Call = ToSuspend(t: Tid) | ToResume(t: Tid) | ToInsert(t: Tid)

  datatype System = System(k: Kernel, calls: map<Cid, Call>)

  datatype Event =
    | CallSuspend(c: Cid, t: Tid)                  // the test of rt_thread_suspend
    | CallResume(c: Cid, t: Tid)                   // the test of rt_thread_resume
    | Go(c: Cid)                                   // the next section of the caller
    | Startup(t: Tid)
    | Block(o: Oid, order: Order, timeout: int)    // by the running thread
    | Sleep                                        // by the running thread
    | WakeOne(o: Oid)
    | Fire(t: Tid)                                 // the timer of a thread expires
    | YieldNow                                     // by the running thread or its time slice
    | SetPriority(t: Tid, p: nat)
    | Exit                                         // by the running thread
    | Schedule                                     // with the scheduler unlocked

  /** Code of a thread runs only while the thread is current and ready. */
  predicate Running(k: Kernel) {
    k.current in k.th && k.th[k.current].stat == Ready
  }

  /** A section runs on whatever state it finds. */
  function RunSection(k: Kernel, call: Call): Kernel
    requires call.t in k.th
  {
    match call
    case ToSuspend(t) => SuspendSection(k, t)
    case ToResume(t) => ResumeSection(k, t)
    case ToInsert(t) => MadeReady(k, t)
  }

  function KernelStep(k: Kernel, e: Event): Kernel {
    match e
    case Startup(t) => if t in k.th && k.th[t].stat == Init then Started(k, t) else k
    case Block(o, order, timeout) => if Running(k) then Blocked(k, k.current, o, order, timeout) else k
    case Sleep => if Running(k) then Slept(k, k.current) else k
    case WakeOne(o) => WokenOne(k, o)
    case Fire(t) => if t in k.th && k.th[t].timing then TimedOut(k, t) else k
    case YieldNow => if k.current in k.th then YieldedBy(k, k.current) else k
    case SetPriority(t, p) => if t in k.th && p < LEVELS then PrioritySet(k, t, p) else k
    case Exit => if Running(k) then Exited(k, k.current) else k
    case Schedule => Scheduled(k)
    case _ => k
  }

  function Step(s: System, e: Event): System {
    match e
    case CallSuspend(c, t) =>
      if c !in s.calls && t in s.k.th && s.k.th[t].stat == Ready then s.(calls := s.calls[c := ToSuspend(t)]) else s
    case CallResume(c, t) =>
      if c !in s.calls && t in s.k.th && s.k.th[t].stat == Suspend then s.(calls := s.calls[c := ToResume(t)]) else s
    case Go(c) =>
      if c in s.calls && s.calls[c].t in s.k.th then
        System(RunSection(s.k, s.calls[c]), if s.calls[c].ToResume? then s.calls[c := ToInsert(s.calls[c].t)]
            else s.calls - {c})
      else s
    case _ => s.(k := KernelStep(s.k, e))
  }

  function Exec(s: System, es: seq<Event>): System
    decreases |es|
  {
    if es == [] then s else Exec(Step(s, es[0]), es[1..])
  }

  /** Threads created but not started. */
  function Boot(prio: map<Tid, nat>): Kernel {
    Kernel(map t | t in prio :: Thread(Init, prio[t], prio[t], false, EOk), seq(LEVELS, i => []), {}, map[], 0)
  }

  function Initial(prio: map<Tid, nat>): System {
    System(Boot(prio), map[])
  }

  // ----------------------------------------------------------------- the invariant

  /** Queue `p` holds exactly the ready threads of current priority `p`, each once. */
  ghost predicate QueueExact(th: map<Tid, Thread>, list: seq<Tid>, p: nat) {
    NoDup(list) && forall t :: t in list <==> t in th && th[t].stat == Ready && th[t].prio == p
  }

  ghost predicate BitsExact(bits: set<nat>, ready: Queues) {
    forall p: nat :: p in bits <==> p < |ready| && ready[p] != []
  }

  ghost predicate ReadyExact(k: Kernel) {
    |k.ready| == LEVELS && BitsExact(k.bits, k.ready) && forall p :: 0 <= p < LEVELS ==> QueueExact(k.th, k.ready[p], p)
  }

  predicate Waits(k: Kernel, t: Tid, o: Oid) {
    o in k.waits && t in k.waits[o]
  }

  ghost predicate WaitsNowhere(k: Kernel, t: Tid) {
    forall o :: !Waits(k, t, o)
  }

  /** A thread on a wait list is suspended, and on that list only. */
  ghost predicate WaitsExact(k: Kernel) {
    && (forall o :: o in k.waits ==> NoDup(k.waits[o]))
    && (forall t, o :: Waits(k, t, o) ==> t in k.th && k.th[t].stat == Suspend)
    && (forall t, o, q :: Waits(k, t, o) && Waits(k, t, q) ==> o == q)
  }

  predicate ThreadOk(x: Thread) {
    x.prio < LEVELS && x.initPrio < LEVELS && (x.timing ==> x.stat == Suspend)
  }

  ghost predicate ThreadsOk(th: map<Tid, Thread>) {
    forall t :: t in th ==> ThreadOk(th[t])
  }

  /** States, queues, bitmap, wait lists and timers agree. */
  ghost predicate Coherent(k: Kernel) {
    ReadyExact(k) && WaitsExact(k) && ThreadsOk(k.th)
  }

  // ---------------------------------------------------------- how sections change it

  /** A ready thread is on its own ready queue and nowhere else. */
  lemma UnlinkReady(k: Kernel, t: Tid)
    requires Coherent(k) && t in k.th && k.th[t].stat == Ready
    ensures k.th[t].prio < LEVELS && t in k.ready[k.th[t].prio]
    ensures Unlinked(k, t) == k.(ready := Removed(k.ready, t, k.th[t].prio))
  {
    assert ThreadOk(k.th[t]);
    var p := k.th[t].prio;
    assert QueueExact(k.th, k.ready[p], p);
    forall i | 0 <= i < LEVELS && i != p ensures Without(k.ready[i], t)
        == k.ready[i] { assert QueueExact(k.th, k.ready[i], i); }
    assert AllWithout(k.ready, t) == Removed(k.ready, t, p);
    forall o | o in k.waits ensures Without(k.waits[o], t) == k.waits[o] { assert !Waits(k, t, o); }
  }

  /** A thread that is not ready is on no ready queue. */
  lemma UnlinkIdle(k: Kernel, t: Tid)
    requires ReadyExact(k) && t in k.th && k.th[t].stat != Ready
    ensures Unlinked(k, t).ready == k.ready && TakenOff(k, t) == Unlinked(k, t)
  {
    forall i | 0 <= i < LEVELS ensures Without(k.ready[i], t) == k.ready[i] { assert QueueExact(k.th, k.ready[i], i); }
    assert AllWithout(k.ready, t) == k.ready;
    var p := k.th[t].prio;
    if p < LEVELS && k.ready[p] == [] { assert k.bits - {p} == k.bits; }
  }

  /** A thread leaves every list and is no longer ready. */
  lemma LeaveReady(k: Kernel, t: Tid, x: Thread)
    requires ReadyExact(k) && t in k.th && x.stat != Ready && ThreadOk(k.th[t])
    ensures ReadyExact(With(TakenOff(k, t), t, x))
  {
    var k1 := With(TakenOff(k, t), t, x);
    forall p | 0 <= p < LEVELS ensures QueueExact(k1.th, k1.ready[p], p) {
      assert QueueExact(k.th, k.ready[p], p);
      WithoutNoDup(k.ready[p], t);
    }
    forall p | 0 <= p < LEVELS && p != k.th[t].prio ensures k1.ready[p]
        == k.ready[p] { assert QueueExact(k.th, k.ready[p], p); }
  }

  lemma LeaveWaits(k: Kernel, t: Tid, x: Thread)
    requires WaitsExact(k) && t in k.th
    ensures WaitsExact(With(Unlinked(k, t), t, x)) && WaitsNowhere(With(Unlinked(k, t), t, x), t)
    ensures WaitsExact(With(TakenOff(k, t), t, x)) && WaitsNowhere(With(TakenOff(k, t), t, x), t)
  {
    var k1 := With(Unlinked(k, t), t, x);
    forall o | o in k1.waits ensures NoDup(k1.waits[o]) { WithoutNoDup(k.waits[o], t); }
    forall u, o | Waits(k1, u, o) ensures u in k1.th && k1.th[u].stat == Suspend && u != t { assert Waits(k, u, o); }
    forall u, o, q | Waits(k1, u, o) && Waits(k1, u, q) ensures o == q { assert Waits(k, u, o) && Waits(k, u, q); }
    SameWaits(k1, With(TakenOff(k, t), t, x));
  }

  /** The wait lists do not depend on the ready queues. */
  lemma SameWaits(k: Kernel, k1: Kernel)
    requires WaitsExact(k) && k1.waits == k.waits && k.th.Keys <= k1.th.Keys
    requires forall t :: t in k.th && k.th[t].stat == Suspend ==> k1.th[t].stat == Suspend
    ensures WaitsExact(k1) && forall t, o :: Waits(k1, t, o) == Waits(k, t, o)
  {
    forall t, o ensures Waits(k1, t, o) == Waits(k, t, o) {}
  }

  /** A thread that is not ready changes otherwise. */
  lemma ChangeIdle(k: Kernel, t: Tid, x: Thread)
    requires ReadyExact(k) && t in k.th && k.th[t].stat != Ready && x.stat != Ready
    ensures ReadyExact(With(k, t, x))
  {
    forall p | 0 <= p < LEVELS ensures QueueExact(k.th[t := x], k.ready[p], p) {
      assert QueueExact(k.th, k.ready[p], p);
    }
  }

  /** An unlinked thread that is not ready enters the queue of its priority. */
  lemma EnterReady(k: Kernel, t: Tid)
    requires ReadyExact(k) && t in k.th && k.th[t].stat != Ready && k.th[t].prio < LEVELS
    ensures ReadyExact(MadeReady(k, t))
  {
    var k1 := MadeReady(k, t);
    forall p | 0 <= p < LEVELS ensures QueueExact(k1.th, k1.ready[p], p) { assert QueueExact(k.th, k.ready[p], p); }
  }

  lemma EnterReadyWaits(k: Kernel, t: Tid)
    requires WaitsExact(k) && t in k.th && WaitsNowhere(k, t)
    ensures WaitsExact(MadeReady(k, t))
  {
    var k1 := MadeReady(k, t);
    forall u, o | Waits(k1, u, o) ensures u in k1.th && k1.th[u].stat == Suspend { assert Waits(k, u, o); }
    forall u, o, q | Waits(k1, u, o) && Waits(k1, u, q) ensures o == q { assert Waits(k, u, o) && Waits(k, u, q); }
  }

  /** The section of rt_thread_suspend keeps everything coherent in whatever state it finds the
      thread; a thread that is not ready any more it still takes off the list it waits on. */
  lemma SuspendSectionOk(k: Kernel, t: Tid)
    requires Coherent(k) && t in k.th
    ensures Coherent(SuspendSection(k, t)) && WaitsNowhere(SuspendSection(k, t), t)
  {
    var x := k.th[t].(stat := Suspend, timing := false);
    LeaveReady(k, t, x);
    LeaveWaits(k, t, x);
  }

  /** It does what an indivisible rt_thread_suspend would do exactly when the thread is still
      ready, or already suspended, with its timer stopped and on no wait list. */
  lemma SuspendSectionIff(k: Kernel, t: Tid)
    requires Coherent(k) && t in k.th
    ensures SuspendSection(k, t) == Suspended(k, t) <==>
            k.th[t].stat == Ready || (k.th[t].stat == Suspend && !k.th[t].timing && WaitsNowhere(k, t))
  {
    if k.th[t].stat != Ready {
      var k1 := SuspendSection(k, t);
      UnlinkIdle(k, t);
      if k.th[t].stat == Suspend && !k.th[t].timing && WaitsNowhere(k, t) {
        forall o | o in k.waits ensures Without(k.waits[o], t) == k.waits[o] { assert !Waits(k, t, o); }
        assert k1.waits == k.waits && k1.th == k.th;
      }
      if k1 == k {
        SuspendSectionOk(k, t);
        assert k1.th[t] == k.th[t];
      }
    }
  }

  /** The first section of rt_thread_resume keeps everything coherent exactly when the thread is
      not ready. A ready thread it takes off its queue while it stays READY, and the bit of its
      level stays set. */
  lemma ResumeSectionIff(k: Kernel, t: Tid)
    requires Coherent(k) && t in k.th
    ensures Coherent(ResumeSection(k, t)) <==> k.th[t].stat != Ready
    ensures WaitsNowhere(ResumeSection(k, t), t)
  {
    var x, k1 := k.th[t].(timing := false), ResumeSection(k, t);
    LeaveWaits(k, t, x);
    assert ThreadOk(k.th[t]);
    if k.th[t].stat == Ready {
      var p := x.prio;
      assert t !in k1.ready[p];
      assert !QueueExact(k1.th, k1.ready[p], p);
    } else {
      UnlinkIdle(k, t);
      ChangeIdle(k, t, x);
    }
  }

  /** The second section keeps everything coherent exactly when the thread is not ready, is on no
      wait list, and its timer is not active. */
  lemma InsertSectionIff(k: Kernel, t: Tid)
    requires Coherent(k) && t in k.th
    ensures Coherent(MadeReady(k, t)) <==> k.th[t].stat != Ready && !k.th[t].timing && WaitsNowhere(k, t)
  {
    var k1, p := MadeReady(k, t), k.th[t].prio;
    assert ThreadOk(k.th[t]);
    if k.th[t].stat == Ready {
      LinkedTwice(k, t);
    } else if k.th[t].timing {
      assert !ThreadOk(k1.th[t]);
    } else if !WaitsNowhere(k, t) {
      var o :| Waits(k, t, o);
      assert Waits(k1, t, o);
    } else {
      EnterReady(k, t);
      EnterReadyWaits(k, t);
    }
  }

  /** Inserting a ready thread once more puts it on its queue a second time. */
  lemma LinkedTwice(k: Kernel, t: Tid)
    requires ReadyExact(k) && t in k.th && k.th[t].stat == Ready && k.th[t].prio < LEVELS
    ensures !ReadyExact(MadeReady(k, t))
  {
    var k1, p := MadeReady(k, t), k.th[t].prio;
    assert QueueExact(k.th, k.ready[p], p);
    var i :| 0 <= i < |k.ready[p]| && k.ready[p][i] == t;
    assert k1.ready[p][i] == t == k1.ready[p][|k.ready[p]|];
    assert !QueueExact(k1.th, k1.ready[p], p);
  }

  lemma SuspendInv(k: Kernel, t: Tid)
    requires Coherent(k) && t in k.th
    ensures Coherent(Suspended(k, t)) && (k.th[t].stat == Ready ==> WaitsNowhere(Suspended(k, t), t))
  {
    SuspendSectionOk(k, t);
  }

  lemma ResumeInv(k: Kernel, t: Tid)
    requires Coherent(k) && t in k.th
    ensures Coherent(Resumed(k, t))
  {
    if k.th[t].stat == Suspend {
      ResumeSectionIff(k, t);
      InsertSectionIff(ResumeSection(k, t), t);
    }
  }

  lemma WakeInv(k: Kernel, o: Oid)
    requires Coherent(k)
    ensures Coherent(WokenOne(k, o))
  {
    if o in k.waits && k.waits[o] != [] && k.waits[o][0] in k.th { ResumeInv(k, k.waits[o][0]); }
  }

  lemma OffByTimeout(k: Kernel, t: Tid)
    requires Coherent(k) && t in k.th && k.th[t].timing
    ensures var k1 := With(Unlinked(k, t), t, k.th[t].(error := ETimeout, timing := false));
      Coherent(k1) && WaitsNowhere(k1, t) && k1.th[t].stat == Suspend
  {
    var x := k.th[t].(error := ETimeout, timing := false);
    assert ThreadOk(k.th[t]);
    UnlinkIdle(k, t);
    LeaveWaits(k, t, x);
    ChangeIdle(k, t, x);
  }

  lemma TimeoutInv(k: Kernel, t: Tid)
    requires Coherent(k) && t in k.th && k.th[t].timing
    ensures Coherent(TimedOut(k, t))
  {
    OffByTimeout(k, t);
    InsertSectionIff(With(Unlinked(k, t), t, k.th[t].(error := ETimeout, timing := false)), t);
  }

  lemma BlockInv(k: Kernel, t: Tid, o: Oid, order: Order, timeout: int)
    requires Coherent(k) && t in k.th && k.th[t].stat == Ready
    ensures Coherent(Blocked(k, t, o, order, timeout))
  {
    var k1 := Suspended(k, t);
    SuspendInv(k, t);
    var x := k1.th[t].(timing := k1.th[t].timing || timeout > 0, error := EOk);
    ChangeIdle(k1, t, x);
    SameWaits(k1, With(k1, t, x));
    JoinWaits(With(k1, t, x), PriosOf(k1.th), t, o, order);
  }

  lemma JoinWaits(k: Kernel, prio: map<Tid, nat>, t: Tid, o: Oid, order: Order)
    requires WaitsExact(k) && t in k.th && k.th[t].stat == Suspend && WaitsNowhere(k, t)
    ensures WaitsExact(k.(waits := k.waits[o := Enqueue(if o in k.waits then k.waits[o] else [], prio, order, t)]))
  {
    var list := if o in k.waits then k.waits[o] else [];
    var k1 := k.(waits := k.waits[o := Enqueue(list, prio, order, t)]);
    assert !Waits(k, t, o);
    EnqueueMembers(list, prio, order, t);
    forall u, q | Waits(k1, u, q) ensures (u == t && q == o) || Waits(k, u, q) {}
  }

  lemma SleepInv(k: Kernel, t: Tid)
    requires Coherent(k) && t in k.th && k.th[t].stat == Ready
    ensures Coherent(Slept(k, t))
  {
    var k1 := Suspended(k, t);
    SuspendInv(k, t);
    var x := k1.th[t].(timing := true);
    ChangeIdle(k1, t, x);
    SameWaits(k1, With(k1, t, x));
  }

  /** A ready thread moves to the queue of its new priority. */
  lemma RequeueReady(k: Kernel, t: Tid, p: nat)
    requires Coherent(k) && t in k.th && k.th[t].stat == Ready && p < LEVELS
    ensures Coherent(PrioritySet(k, t, p))
  {
    var x := k.th[t].(prio := p, stat := Suspend);
    assert ThreadOk(k.th[t]);
    LeaveReady(k, t, x);
    LeaveWaits(k, t, x);
    InsertSectionIff(With(TakenOff(k, t), t, x), t);
    RequeuedIs(k, t, p);
  }

  /** The state in between does not show. */
  lemma RequeuedIs(k: Kernel, t: Tid, p: nat)
    requires t in k.th && k.th[t].stat == Ready && p < |k.ready|
    ensures PrioritySet(k, t, p) == MadeReady(With(TakenOff(k, t), t, k.th[t].(prio := p, stat := Suspend)), t)
  {
  }

  lemma PriorityInv(k: Kernel, t: Tid, p: nat)
    requires Coherent(k) && t in k.th && p < LEVELS
    ensures Coherent(PrioritySet(k, t, p))
  {
    var x := k.th[t].(prio := p);
    if k.th[t].stat == Ready {
      RequeueReady(k, t, p);
    } else {
      assert ThreadOk(k.th[t]);
      ChangeIdle(k, t, x);
      SameWaits(k, With(k, t, x));
    }
  }

  lemma YieldInv(k: Kernel, t: Tid)
    requires Coherent(k) && t in k.th
    ensures Coherent(YieldedBy(k, t))
  {
    var k1 := YieldedBy(k, t);
    if k.th[t].stat == Ready {
      var p := k.th[t].prio;
      assert ThreadOk(k.th[t]);
      assert QueueExact(k.th, k.ready[p], p);
      WithoutNoDup(k.ready[p], t);
      forall i | 0 <= i < LEVELS ensures QueueExact(k1.th, k1.ready[i], i) { assert QueueExact(k.th, k.ready[i], i); }
      SameWaits(k, k1);
    }
  }

  lemma ExitInv(k: Kernel, t: Tid)
    requires Coherent(k) && t in k.th && k.th[t].stat == Ready
    ensures Coherent(Exited(k, t))
  {
    var x := k.th[t].(stat := Close, timing := false);
    LeaveReady(k, t, x);
    LeaveWaits(k, t, x);
  }

  lemma StartInv(k: Kernel, t: Tid)
    requires Coherent(k) && t in k.th && k.th[t].stat == Init
    ensures Coherent(Started(k, t))
  {
    var x := k.th[t].(stat := Suspend, prio := k.th[t].initPrio);
    assert ThreadOk(k.th[t]);
    ChangeIdle(k, t, x);
    SameWaits(k, Started(k, t));
  }

  lemma ScheduleInv(k: Kernel)
    requires Coherent(k)
    ensures Coherent(Scheduled(k))
  {
    var k1 := Scheduled(k);
    forall p | 0 <= p < LEVELS ensures QueueExact(k1.th, k1.ready[p], p) { assert QueueExact(k.th, k.ready[p], p); }
    SameWaits(k, k1);
  }

  /** Everything that tests and acts inside one section keeps the kernel coherent. */
  lemma KernelStepOk(k: Kernel, e: Event)
    requires Coherent(k)
    ensures Coherent(KernelStep(k, e))
  {
    match e
    case Startup(t) => if t in k.th && k.th[t].stat == Init { StartInv(k, t); }
    case Block(o, order, timeout) => if Running(k) { BlockInv(k, k.current, o, order, timeout); }
    case Sleep => if Running(k) { SleepInv(k, k.current); }
    case WakeOne(o) => WakeInv(k, o);
    case Fire(t) => if t in k.th && k.th[t].timing { TimeoutInv(k, t); }
    case YieldNow => if k.current in k.th { YieldInv(k, k.current); }
    case SetPriority(t, p) => if t in k.th && p < LEVELS { PriorityInv(k, t, p); }
    case Exit => if Running(k) { ExitInv(k, k.current); }
    case Schedule => ScheduleInv(k);
    case _ =>
  }

  lemma BootInv(prio: map<Tid, nat>)
    requires forall t :: t in prio ==> prio[t] < LEVELS
    ensures Coherent(Boot(prio))
  {
    var k := Boot(prio);
    forall p | 0 <= p < LEVELS ensures QueueExact(k.th, k.ready[p], p) {}
  }

  // ------------------------------------------------------------- over whole runs

  /** What a section must find, now that its test lies in the past. */
  ghost predicate Finds(k: Kernel, call: Call)
    requires call.t in k.th
  {
    match call
    case ToSuspend(t) => true
    case ToResume(t) => k.th[t].stat != Ready
    case ToInsert(t) => k.th[t].stat != Ready && !k.th[t].timing && WaitsNowhere(k, t)
  }

  ghost predicate Admits(s: System, e: Event) {
    e.Go? && e.c in s.calls && s.calls[e.c].t in s.k.th ==> Finds(s.k, s.calls[e.c])
  }

  /** Every section of the run finds what it must find. */
  ghost predicate AdmitsAll(s: System, es: seq<Event>)
    decreases |es|
  {
    es != [] ==> Admits(s, es[0]) && AdmitsAll(Step(s, es[0]), es[1..])
  }

  /** The kernel is coherent in every state of the run. */
  ghost predicate Throughout(s: System, es: seq<Event>)
    decreases |es|
  {
    Coherent(s.k) && (es != [] ==> Throughout(Step(s, es[0]), es[1..]))
  }

  lemma StepCoherentIff(s: System, e: Event)
    requires Coherent(s.k)
    ensures Coherent(Step(s, e).k) <==> Admits(s, e)
  {
    match e
    case CallSuspend(c, t) =>
    case CallResume(c, t) =>
    case Go(c) =>
      if c in s.calls && s.calls[c].t in s.k.th {
        match s.calls[c]
        case ToSuspend(t) => SuspendSectionOk(s.k, t);
        case ToResume(t) => ResumeSectionIff(s.k, t);
        case ToInsert(t) => InsertSectionIff(s.k, t);
      }
    case _ => KernelStepOk(s.k, e);
  }

  /** Over every run, with callers interleaved in every way: the kernel stays coherent throughout
      exactly when every first section of a resume finds its thread not READY, and every second
      section finds it not READY, on no wait list and without an active timer. */
  lemma {:induction false} CoherentIffAdmitted(s: System, es: seq<Event>)
    requires Coherent(s.k)
    ensures Throughout(s, es) <==> AdmitsAll(s, es)
    decreases |es|
  {
    if es != [] {
      StepCoherentIff(s, es[0]);
      if Admits(s, es[0]) { CoherentIffAdmitted(Step(s, es[0]), es[1..]); }
      else { assert !Throughout(Step(s, es[0]), es[1..]); }
    }
  }

  lemma {:induction false} AdmittedCoherent(s: System, es: seq<Event>)
    requires Coherent(s.k) && AdmitsAll(s, es)
    ensures Coherent(Exec(s, es).k)
    decreases |es|
  {
    if es != [] {
      StepCoherentIff(s, es[0]);
      AdmittedCoherent(Step(s, es[0]), es[1..]);
    }
  }

  ghost predicate Queued(k: Kernel, t: Tid, p: nat) {
    p < |k.ready| && t in k.ready[p]
  }

  /** After any such run: a thread is linked in a ready queue exactly when it is READY, and then
      in the queue of its current priority; a thread on a wait list is SUSPEND and on no other
      list; a thread whose timer is active is SUSPEND, so the assertion in the timeout handler
      holds whenever the timer fires; and the bitmap tells the nonempty queues. */
  lemma StatesMatchLists(prio: map<Tid, nat>, es: seq<Event>)
    requires (forall t :: t in prio ==> prio[t] < LEVELS) && AdmitsAll(Initial(prio), es)
    ensures var k := Exec(Initial(prio), es).k;
      && (forall t, p: nat :: Queued(k, t, p) <==> t in k.th && k.th[t].stat == Ready && k.th[t].prio == p)
      && (forall t, o :: Waits(k, t, o) ==>
            t in k.th && k.th[t].stat == Suspend && (forall q :: Waits(k, t, q) ==> q == o))
      && (forall t :: t in k.th && k.th[t].timing ==> k.th[t].stat == Suspend)
      && (forall p: nat :: p in k.bits <==> exists t :: Queued(k, t, p))
  {
    BootInv(prio);
    AdmittedCoherent(Initial(prio), es);
    var k := Exec(Initial(prio), es).k;
    forall t, p: nat ensures Queued(k, t, p) <==> t in k.th && k.th[t].stat == Ready && k.th[t].prio == p {
      if p < LEVELS { assert QueueExact(k.th, k.ready[p], p); }
      if t in k.th { assert ThreadOk(k.th[t]); }
    }
    forall t | t in k.th && k.th[t].timing ensures k.th[t].stat == Suspend { assert ThreadOk(k.th[t]); }
    forall p: nat ensures p in k.bits <==> exists t :: Queued(k, t, p) {
      if p in k.bits { assert Queued(k, k.ready[p][0], p); }
    }
  }

  /** After any such run, rt_schedule selects a READY thread that no other READY thread precedes
      in urgency, the one at the head of its queue; it changes nothing if nobody is ready. */
  lemma ScheduleSelectsMostUrgent(prio: map<Tid, nat>, es: seq<Event>)
    requires (forall t :: t in prio ==> prio[t] < LEVELS) && AdmitsAll(Initial(prio), es)
    ensures var k := Exec(Initial(prio), es).k;
      var k1 := Scheduled(k);
      && ((exists t :: t in k.th && k.th[t].stat == Ready) ==>
            && k1.current in k.th && k.th[k1.current].stat == Ready && Chosen(k.ready, k1.current)
            && forall t :: t in k.th && k.th[t].stat == Ready ==> k.th[k1.current].prio <= k.th[t].prio)
      && ((forall t :: t in k.th ==> k.th[t].stat != Ready) ==> k1 == k)
  {
    BootInv(prio);
    AdmittedCoherent(Initial(prio), es);
    var k := Exec(Initial(prio), es).k;
    var p := TopBit(k.bits, 0, LEVELS);
    forall t | t in k.th && k.th[t].stat == Ready ensures p <= k.th[t].prio < LEVELS {
      assert ThreadOk(k.th[t]);
      assert QueueExact(k.th, k.ready[k.th[t].prio], k.th[t].prio);
    }
    if p < LEVELS {
      assert QueueExact(k.th, k.ready[p], p);
      assert k.ready[p][0] in k.ready[p];
      assert IsTop(k.ready, p);
    }
  }

  // ------------------------------------------------- sections that come soon enough

  /** Nobody else stands between the two sections of a resume of `t`. */
  ghost predicate NobodyInserts(calls: map<Cid, Call>, t: Tid) {
    forall c :: c in calls ==> calls[c] != ToInsert(t)
  }

  /** The first section of a resume still finds the tested state, outside any other resume. */
  ghost predicate Timely(s: System, e: Event) {
    e.Go? && e.c in s.calls && s.calls[e.c].ToResume? && s.calls[e.c].t in s.k.th ==>
      s.k.th[s.calls[e.c].t].stat == Suspend && NobodyInserts(s.calls, s.calls[e.c].t)
  }

  ghost predicate TimelyAll(s: System, es: seq<Event>)
    decreases |es|
  {
    es != [] ==> Timely(s, es[0]) && TimelyAll(Step(s, es[0]), es[1..])
  }

  /** A thread between the two sections of a resume is suspended, on no list, its timer stopped. */
  predicate Idle(k: Kernel, t: Tid) {
    t in k.th && k.th[t].stat == Suspend && !k.th[t].timing && forall o :: o in k.waits ==> t !in k.waits[o]
  }

  ghost predicate InsertsOk(s: System) {
    && (forall c :: c in s.calls && s.calls[c].ToInsert? ==> Idle(s.k, s.calls[c].t))
    && (forall c, d :: c in s.calls && d in s.calls && c != d && s.calls[c].ToInsert? ==> s.calls[d] != s.calls[c])
  }

  lemma IdleThroughBlock(k: Kernel, o: Oid, order: Order, timeout: int, t: Tid)
    requires Running(k) && Idle(k, t)
    ensures Idle(Blocked(k, k.current, o, order, timeout), t)
  {
    var k1 := Suspended(k, k.current);
    IdleThroughLeave(k, k.current, t);
    JoinOthers(if o in k1.waits then k1.waits[o] else [], PriosOf(k1.th), order, k.current, t);
  }

  lemma JoinOthers(list: seq<Tid>, prio: map<Tid, nat>, order: Order, u: Tid, t: Tid)
    requires t !in list && t != u
    ensures t !in Enqueue(list, prio, order, u)
  {
    EnqueueMembers(list, prio, order, u);
  }

  lemma IdleThroughWake(k: Kernel, o: Oid, t: Tid)
    requires Idle(k, t)
    ensures Idle(WokenOne(k, o), t)
  {
    if o in k.waits && k.waits[o] != [] { assert k.waits[o][0] in k.waits[o]; }
  }

  lemma IdleThroughLeave(k: Kernel, u: Tid, t: Tid)
    requires Idle(k, t) && u in k.th && u != t
    ensures Idle(Suspended(k, u), t) && Idle(Slept(k, u), t) && Idle(Exited(k, u), t) && Idle(TimedOut(k, u), t)
  {
  }

  /** No event but its own resume ends the idleness of a thread. */
  lemma IdleStays(k: Kernel, e: Event, t: Tid)
    requires Idle(k, t)
    ensures Idle(KernelStep(k, e), t)
  {
    match e
    case WakeOne(o) => IdleThroughWake(k, o, t);
    case Block(o, order, timeout) => if Running(k) { IdleThroughBlock(k, o, order, timeout, t); }
    case Sleep => if Running(k) { IdleThroughLeave(k, k.current, t); }
    case Exit => if Running(k) { IdleThroughLeave(k, k.current, t); }
    case Fire(u) => if u in k.th && k.th[u].timing { IdleThroughLeave(k, u, t); }
    case _ =>
  }

  lemma IdleThroughSection(k: Kernel, call: Call, t: Tid)
    requires Idle(k, t) && call.t in k.th && (call.t == t ==> !call.ToInsert?)
    ensures Idle(RunSection(k, call), t)
  {
  }

  lemma StepInsertsOk(s: System, e: Event)
    requires Coherent(s.k) && InsertsOk(s) && Timely(s, e)
    ensures Admits(s, e) && InsertsOk(Step(s, e))
  {
    var s1 := Step(s, e);
    forall c | c in s1.calls && s1.calls[c].ToInsert? ensures Idle(s1.k, s1.calls[c].t) {
      var t := s1.calls[c].t;
      if e.Go? {
        if e.c == c && s.calls[c].ToResume? {
          ResumeSectionIff(s.k, t);
          assert forall o :: !Waits(s1.k, t, o);
        } else if e.c in s.calls && s.calls[e.c].t in s.k.th {
          IdleThroughSection(s.k, s.calls[e.c], t);
        }
      } else {
        IdleStays(s.k, e, t);
      }
    }
  }

  /** A first section that comes too late shows: exactly the timely steps keep every thread
      between two sections idle and in one resume only, together with coherence. */
  lemma SteadyIffTimely(s: System, e: Event)
    requires Coherent(s.k) && InsertsOk(s)
    ensures Coherent(Step(s, e).k) && InsertsOk(Step(s, e)) <==> Timely(s, e)
  {
    if Timely(s, e) {
      StepInsertsOk(s, e);
      StepCoherentIff(s, e);
    } else {
      var c, t := e.c, s.calls[e.c].t;
      StepGo(s, c);
      var s1 := Step(s, e);
      assert s1.calls[c] == ToInsert(t);
      if s.k.th[t].stat == Suspend {
        var d :| d in s.calls && s.calls[d] == ToInsert(t);
        assert s1.calls[d] == s1.calls[c];
      } else {
        assert !Idle(s1.k, t);
      }
    }
  }

  /** Runs whose resumes are timely are coherent throughout: it is enough that the first section
      of every resume finds its thread still suspended and in nobody else's resume. */
  lemma {:induction false} TimelyIsAdmitted(s: System, es: seq<Event>)
    requires Coherent(s.k) && InsertsOk(s) && TimelyAll(s, es)
    ensures AdmitsAll(s, es) && Throughout(s, es)
    decreases |es|
  {
    if es != [] {
      StepInsertsOk(s, es[0]);
      StepCoherentIff(s, es[0]);
      TimelyIsAdmitted(Step(s, es[0]), es[1..]);
    }
  }

  // ---------------------------------------------------------------------- failing runs

  lemma ExecOne(s: System, e: Event, rest: seq<Event>)
    ensures Exec(s, [e] + rest) == Exec(Step(s, e), rest)
  {
    assert ([e] + rest)[1..] == rest;
  }

  lemma Exec3(s: System, a: Event, b: Event, c: Event, rest: seq<Event>)
    ensures Exec(s, [a, b, c] + rest) == Exec(Step(Step(Step(s, a), b), c), rest)
  {
    assert [a, b, c] + rest == [a] + ([b] + ([c] + rest));
    ExecOne(s, a, [b] + ([c] + rest));
    ExecOne(Step(s, a), b, [c] + rest);
    ExecOne(Step(Step(s, a), b), c, rest);
  }

  lemma StepTests(s: System, c: Cid, t: Tid)
    requires c !in s.calls && t in s.k.th
    ensures s.k.th[t].stat == Suspend ==> Step(s, CallResume(c, t)) == s.(calls := s.calls[c := ToResume(t)])
    ensures s.k.th[t].stat == Ready ==> Step(s, CallSuspend(c, t)) == s.(calls := s.calls[c := ToSuspend(t)])
  {
  }

  lemma StepGo(s: System, c: Cid)
    requires c in s.calls && s.calls[c].t in s.k.th
    ensures var call := s.calls[c];
      Step(s, Go(c)) == System(RunSection(s.k, call), if call.ToResume? then s.calls[c := ToInsert(call.t)]
          else s.calls - {c})
  {
  }

  /** A resume that nobody disturbs does what an indivisible one would do. */
  lemma UndisturbedResume(s: System, c: Cid, t: Tid, rest: seq<Event>)
    requires c !in s.calls && t in s.k.th && s.k.th[t].stat == Suspend
    ensures Exec(s, [CallResume(c, t), Go(c), Go(c)] + rest) == Exec(s.(k := Resumed(s.k, t)), rest)
  {
    Exec3(s, CallResume(c, t), Go(c), Go(c), rest);
    StepTests(s, c, t);
    StepGo(s.(calls := s.calls[c := ToResume(t)]), c);
    StepGo(System(ResumeSection(s.k, t), s.calls[c := ToResume(t)][c := ToInsert(t)]), c);
    assert s.calls[c := ToResume(t)][c := ToInsert(t)] - {c} == s.calls;
  }

  /** The thread times out between test and first section of its resume. */
  lemma StaleResumeIs(s: System, c: Cid, t: Tid)
    requires c !in s.calls && t in s.k.th && s.k.th[t].timing && s.k.th[t].stat == Suspend
    ensures Exec(s, [CallResume(c, t), Fire(t), Go(c)] + []).k == ResumeSection(TimedOut(s.k, t), t)
  {
    Exec3(s, CallResume(c, t), Fire(t), Go(c), []);
    StepTests(s, c, t);
    var s1 := s.(calls := s.calls[c := ToResume(t)]);
    assert Step(s1, Fire(t)) == s1.(k := TimedOut(s.k, t));
    StepGo(s1.(k := TimedOut(s.k, t)), c);
  }

  lemma StaleResumeKernel(k: Kernel, t: Tid)
    requires Coherent(k) && t in k.th && k.th[t].timing
    ensures var k1 := ResumeSection(TimedOut(k, t), t);
      && t in k1.th && k1.th[t].stat == Ready && (forall p :: !Queued(k1, t, p))
      && k1.ready == k.ready && k1.bits == k.bits + {k.th[t].prio} && !Coherent(k1)
  {
    assert ThreadOk(k.th[t]);
    var k1, p := TimedOut(k, t), k.th[t].prio;
    TimeoutInv(k, t);
    UnlinkIdle(k, t);
    UnlinkReady(k1, t);
    ResumeSectionIff(k1, t);
    assert QueueExact(k.th, k.ready[p], p);
    AppendedWithout(k.ready[p], t);
    forall i: nat ensures !Queued(k, t, i) { if i < LEVELS { assert QueueExact(k.th, k.ready[i], i); } }
  }

  lemma {:induction false} AppendedWithout(list: seq<Tid>, t: Tid)
    requires t !in list
    ensures Without(list + [t], t) == list
  {
    if list == [] {
      assert list + [t] == [t] && [t][1..] == [];
    } else {
      assert (list + [t])[1..] == list[1..] + [t];
      AppendedWithout(list[1..], t);
    }
  }

  /** A resume whose thread times out between test and section takes the thread off its ready
      queue: it stays READY on no queue, and the bit of its level stays set, even if the queue
      is empty now. */
  lemma StaleResumeLosesThread(s: System, c: Cid, t: Tid)
    requires Coherent(s.k) && c !in s.calls && t in s.k.th && s.k.th[t].timing
    ensures var k := Exec(s, [CallResume(c, t), Fire(t), Go(c)]).k;
      && t in k.th && k.th[t].stat == Ready && (forall p :: !Queued(k, t, p))
      && k.ready == s.k.ready && k.bits == s.k.bits + {s.k.th[t].prio} && !Coherent(k)
  {
    assert ThreadOk(s.k.th[t]);
    StaleResumeIs(s, c, t);
    StaleResumeKernel(s.k, t);
    assert [CallResume(c, t), Fire(t), Go(c)] + [] == [CallResume(c, t), Fire(t), Go(c)];
  }

  // The smallest such runs have one thread, number 0 of priority 5.

  const ONE: map<Tid, nat> := map[0 := 5]

  const NO_QUEUES: Queues := seq(LEVELS, i => [])

  const STARTED: Kernel := Kernel(map[0 := Thread(Suspend, 5, 5, false, EOk)], NO_QUEUES, {}, map[], 0)

  const AWAKE: Kernel := Kernel(map[0 := Thread(Ready, 5, 5, false, EOk)], NO_QUEUES[5 := [0]], {5}, map[], 0)

  const ASLEEP: Kernel := Kernel(map[0 := Thread(Suspend, 5, 5, true, EOk)], NO_QUEUES, {}, map[], 0)

  lemma StartedKernel()
    ensures Started(Boot(ONE), 0) == STARTED && Coherent(STARTED)
  {
    assert Started(Boot(ONE), 0).th == STARTED.th;
    BootInv(ONE);
    StartInv(Boot(ONE), 0);
  }

  lemma AwakeKernel()
    ensures Resumed(STARTED, 0) == AWAKE && Scheduled(AWAKE) == AWAKE
  {
    StartedKernel();
    UnlinkIdle(STARTED, 0);
    var k := ResumeSection(STARTED, 0);
    assert k.th == STARTED.th && k.waits == map[];
    assert NO_QUEUES[5] + [0] == [0];
    assert MadeReady(k, 0).th == AWAKE.th && MadeReady(k, 0).ready == AWAKE.ready;
    assert TopBit({5}, 0, LEVELS) == 5;
  }

  lemma AsleepKernel()
    ensures Slept(AWAKE, 0) == ASLEEP && Coherent(ASLEEP)
  {
    assert Without([0], 0) == [];
    assert AllWithout(AWAKE.ready, 0) == NO_QUEUES;
    var k := SuspendSection(AWAKE, 0);
    assert k.bits == {} && k.waits == map[] && k.th == STARTED.th;
    assert Slept(AWAKE, 0).th == ASLEEP.th;
    forall p | 0 <= p < LEVELS ensures QueueExact(ASLEEP.th, ASLEEP.ready[p], p) {}
  }

  lemma ToWake(rest: seq<Event>)
    ensures Exec(Initial(ONE), [Startup(0)] + ([CallResume(1, 0), Go(1), Go(1)] + rest))
        == Exec(System(AWAKE, map[]), rest)
  {
    ExecOne(Initial(ONE), Startup(0), [CallResume(1, 0), Go(1), Go(1)] + rest);
    StartedKernel();
    UndisturbedResume(System(STARTED, map[]), 1, 0, rest);
    AwakeKernel();
  }

  lemma AwakeSteps()
    ensures Step(System(AWAKE, map[]), Schedule) == System(AWAKE, map[])
        && Step(System(AWAKE, map[]), Sleep) == System(ASLEEP, map[])
  {
    AwakeKernel();
    AsleepKernel();
  }

  /** Thread 0 is started and scheduled and goes to sleep. */
  lemma ToSleep(rest: seq<Event>)
    ensures Exec(Initial(ONE), [Startup(0)] + ([CallResume(1, 0), Go(1), Go(1)] + ([Schedule] + ([Sleep] + rest)))) ==
            Exec(System(ASLEEP, map[]), rest)
  {
    ToWake([Schedule] + ([Sleep] + rest));
    AwakeSteps();
    ExecOne(System(AWAKE, map[]), Schedule, [Sleep] + rest);
    ExecOne(System(AWAKE, map[]), Sleep, rest);
  }

  /** A run from the start that ends with a set bit over an empty queue: rt_schedule would take
      the head of the list for a thread. The sleeping thread is resumed when its sleep ends. */
  lemma StaleResumeRun()
    ensures var last := [CallResume(1, 0), Fire(0), Go(1)];
      var es := [Startup(0)] + ([CallResume(1, 0), Go(1), Go(1)] + ([Schedule] + ([Sleep] + last)));
      var k := Exec(Initial(ONE), es).k;
      k.ready == NO_QUEUES && k.bits == {5} && 0 in k.th && k.th[0].stat == Ready
  {
    ToSleep([CallResume(1, 0), Fire(0), Go(1)]);
    AsleepKernel();
    StaleResumeLosesThread(System(ASLEEP, map[]), 1, 0);
  }

  lemma OverlapIs(s: System, a: Cid, b: Cid, t: Tid)
    requires a !in s.calls && b !in s.calls && a != b && t in s.k.th && s.k.th[t].stat == Suspend
    ensures Exec(s, [CallResume(a, t), CallResume(b, t), Go(a)] + [Go(b), Go(a), Go(b)]).k ==
            MadeReady(MadeReady(ResumeSection(ResumeSection(s.k, t), t), t), t)
  {
    Exec3(s, CallResume(a, t), CallResume(b, t), Go(a), [Go(b), Go(a), Go(b)]);
    StepTests(s, a, t);
    var s1 := s.(calls := s.calls[a := ToResume(t)]);
    StepTests(s1, b, t);
    var s2 := s.(calls := s.calls[a := ToResume(t)][b := ToResume(t)]);
    StepGo(s2, a);
    OverlapEnds(System(ResumeSection(s.k, t), s2.calls[a := ToInsert(t)]), a, b, t);
  }

  lemma OverlapEnds(s: System, a: Cid, b: Cid, t: Tid)
    requires a in s.calls && b in s.calls && a != b && t in s.k.th && s.calls[a] == ToInsert(t)
        && s.calls[b] == ToResume(t)
    ensures Exec(s, [Go(b), Go(a), Go(b)]).k == MadeReady(MadeReady(ResumeSection(s.k, t), t), t)
  {
    Exec3(s, Go(b), Go(a), Go(b), []);
    assert [Go(b), Go(a), Go(b)] + [] == [Go(b), Go(a), Go(b)];
    StepGo(s, b);
    var s1 := System(ResumeSection(s.k, t), s.calls[b := ToInsert(t)]);
    StepGo(s1, a);
    StepGo(System(MadeReady(s1.k, t), s1.calls - {a}), b);
  }

  lemma OverlapKernel(k: Kernel, t: Tid)
    requires Coherent(k) && t in k.th && k.th[t].stat == Suspend
    ensures var k1, p := MadeReady(MadeReady(ResumeSection(ResumeSection(k, t), t), t), t), k.th[t].prio;
      p < |k.ready| && k1.ready == k.ready[p := k.ready[p] + [t, t]] && !Coherent(k1)
  {
    var p := k.th[t].prio;
    assert ThreadOk(k.th[t]);
    ResumeSectionIff(k, t);
    UnlinkIdle(k, t);
    var k1 := ResumeSection(k, t);
    ResumeSectionIff(k1, t);
    UnlinkIdle(k1, t);
    var k2 := ResumeSection(k1, t);
    InsertSectionIff(k2, t);
    InsertSectionIff(MadeReady(k2, t), t);
    assert k.ready[p] + [t, t] == (k.ready[p] + [t]) + [t];
  }

  /** Two resumes of one suspended thread that overlap insert it in its ready queue twice. */
  lemma OverlappingResumesLinkTwice(s: System, a: Cid, b: Cid, t: Tid)
    requires Coherent(s.k) && a !in s.calls && b !in s.calls && a != b && t in s.k.th && s.k.th[t].stat == Suspend
    ensures var k := Exec(s, [CallResume(a, t), CallResume(b, t), Go(a)] + [Go(b), Go(a), Go(b)]).k;
      var p := s.k.th[t].prio;
      p < |s.k.ready| && k.ready == s.k.ready[p := s.k.ready[p] + [t, t]] && !Coherent(k)
  {
    OverlapIs(s, a, b, t);
    OverlapKernel(s.k, t);
  }

  /** Such a run from the start: a second caller resumes the thread while it is started. */
  lemma OverlappingResumesRun()
    ensures var es := [Startup(0)] + ([CallResume(1, 0), CallResume(2, 0), Go(1)] + [Go(2), Go(1), Go(2)]);
      Exec(Initial(ONE), es).k.ready == NO_QUEUES[5 := [0, 0]]
  {
    ExecOne(Initial(ONE), Startup(0), [CallResume(1, 0), CallResume(2, 0), Go(1)] + [Go(2), Go(1), Go(2)]);
    StartedKernel();
    OverlappingResumesLinkTwice(System(STARTED, map[]), 1, 2, 0);
    assert NO_QUEUES[5] + [0, 0] == [0, 0];
  }

  /** Not every overlap does harm: if the thread is suspended once more between the insertions,
      the kernel stays coherent. */
  lemma HarmlessOverlap(k: Kernel, t: Tid)
    requires Coherent(k) && t in k.th && k.th[t].stat == Suspend
    ensures var k1 := MadeReady(ResumeSection(ResumeSection(k, t), t), t);
      Coherent(k1) && Coherent(MadeReady(SuspendSection(k1, t), t))
  {
    var k1 := ResumeSection(ResumeSection(k, t), t);
    ResumeSectionIff(k, t);
    ResumeSectionIff(ResumeSection(k, t), t);
    InsertSectionIff(k1, t);
    SuspendSectionOk(MadeReady(k1, t), t);
    InsertSectionIff(SuspendSection(MadeReady(k1, t), t), t);
  }

  /** The thread blocks between test and section of a suspend. */
  lemma StaleSuspendIs(s: System, c: Cid, o: Oid, order: Order, timeout: int)
    requires c !in s.calls && Running(s.k)
    ensures var t := s.k.current;
      Exec(s, [CallSuspend(c, t), Block(o, order, timeout), Go(c)] + []).k
          == SuspendSection(Blocked(s.k, t, o, order, timeout), t)
  {
    var t := s.k.current;
    Exec3(s, CallSuspend(c, t), Block(o, order, timeout), Go(c), []);
    StepTests(s, c, t);
    var s1 := s.(calls := s.calls[c := ToSuspend(t)]);
    assert Step(s1, Block(o, order, timeout)) == s1.(k := Blocked(s.k, t, o, order, timeout));
    StepGo(s1.(k := Blocked(s.k, t, o, order, timeout)), c);
  }

  lemma BlockedWaits(k: Kernel, t: Tid, o: Oid, order: Order, timeout: int)
    requires t in k.th
    ensures Waits(Blocked(k, t, o, order, timeout), t, o)
  {
    var k1 := Suspended(k, t);
    EnqueueMembers(if o in k1.waits then k1.waits[o] else [], PriosOf(k1.th), order, t);
  }

  /** A suspend whose thread blocks between test and section takes the thread off its wait list
      and stops its timer: neither the object nor the timeout will end its wait. */
  lemma StaleSuspendForgetsWaiter(s: System, c: Cid, o: Oid, order: Order, timeout: int)
    requires Coherent(s.k) && c !in s.calls && Running(s.k)
    ensures var t, k := s.k.current, Exec(s, [CallSuspend(c, s.k.current), Block(o, order, timeout), Go(c)]).k;
      Coherent(k) && Idle(k, t) && Waits(Blocked(s.k, t, o, order, timeout), t, o)
  {
    var t := s.k.current;
    StaleSuspendIs(s, c, o, order, timeout);
    assert [CallSuspend(c, t), Block(o, order, timeout), Go(c)] + []
        == [CallSuspend(c, t), Block(o, order, timeout), Go(c)];
    BlockInv(s.k, t, o, order, timeout);
    BlockedWaits(s.k, t, o, order, timeout);
    IdleAfterSuspend(Blocked(s.k, t, o, order, timeout), t);
  }

  lemma IdleAfterSuspend(k: Kernel, t: Tid)
    requires Coherent(k) && t in k.th
    ensures Coherent(SuspendSection(k, t)) && Idle(SuspendSection(k, t), t)
  {
    SuspendSectionOk(k, t);
    assert forall q :: !Waits(SuspendSection(k, t), t, q);
  }

  // ------------------------------------------------------------------- the object

  lemma SameBits(a: set<nat>, b: set<nat>, ready: Queues)
    requires BitsExact(a, ready) && BitsExact(b, ready)
    ensures a == b
  {
  }

  /** A ready thread that changes its priority leaves one queue and enters another. */
  lemma RequeuedQueues(k: Kernel, t: Tid, p: nat)
    requires Coherent(k) && t in k.th && k.th[t].stat == Ready && p < LEVELS
    ensures var k1 := PrioritySet(k, t, p);
      && k.th[t].prio < LEVELS && k1.ready == Inserted(Removed(k.ready, t, k.th[t].prio), t, p)
      && k1.th == k.th[t := k.th[t].(prio := p)] && k1.waits == k.waits && k1.current == k.current
  {
    UnlinkReady(k, t);
  }

  /** The bitmap leads to the head of the most urgent nonempty queue. */
  lemma ChosenIsScheduled(k: Kernel, t: Tid)
    requires BitsExact(k.bits, k.ready) && Chosen(k.ready, t)
    ensures Scheduled(k) == k.(current := t)
  {
    var p: nat :| IsTop(k.ready, p) && t == k.ready[p][0];
    var q := TopBit(k.bits, 0, |k.ready|);
    assert p in k.bits;
    assert q <= p;
  }

  class ThreadTable {
    const levels: Levels
    var th: map<Tid, Thread>
    var waits: map<Oid, seq<Tid>>

    ghost predicate Valid()
      reads this, levels, levels.queues
    {
      levels.Valid() && Coherent(View())
    }

    ghost function View(): Kernel
      reads this, levels, levels.queues
    {
      Kernel(th, levels.View(), BitsOf(levels.group, LEVELS), waits, levels.current)
    }

    constructor (prio: map<Tid, nat>)
      requires forall t :: t in prio ==> prio[t] < LEVELS
      ensures Valid() && fresh(levels) && fresh(levels.queues) && View() == Boot(prio)
    {
      th := map t | t in prio :: Thread(Init, prio[t], prio[t], false, EOk);
      waits := map[];
      levels := new Levels(0);
      new;
      BootInv(prio);
      levels.BitsAreExact();
      SameBits(BitsOf(levels.group, LEVELS), {}, levels.View());
    }

    /** The test of rt_thread_suspend, with interrupts enabled. */
    method TestSuspend(t: Tid) returns (err: Outcome)
      requires t in th
      ensures err == if th[t].stat == Ready then EOk else EError
    {
      err := if th[t].stat != Ready then EError else EOk;
    }

    /** The test of rt_thread_resume, with interrupts enabled. */
    method TestResume(t: Tid) returns (err: Outcome)
      requires t in th
      ensures err == if th[t].stat == Suspend then EOk else EError
    {
      err := if th[t].stat != Suspend then EError else EOk;
    }

    /** The section of rt_thread_suspend, whatever the thread's state is by now. */
    method SuspendNow(t: Tid)
      requires Valid() && t in th
      modifies this, levels, levels.queues
      ensures Valid() && View() == SuspendSection(old(View()), t)
    {
      ghost var k := View();
      SuspendSectionOk(k, t);
      assert ThreadOk(th[t]);
      if th[t].stat == Ready {
        UnlinkReady(k, t);
        levels.Remove(t, th[t].prio);
      } else {
        UnlinkIdle(k, t);
        waits := map o | o in waits :: Without(waits[o], t);
        levels.ClearIfEmpty(th[t].prio);
      }
      th := th[t := th[t].(stat := Suspend, timing := false)];
      levels.BitsAreExact();
      SameBits(View().bits, SuspendSection(k, t).bits, levels.View());
    }

    /** The first section of rt_thread_resume. */
    method ResumeNow(t: Tid)
      requires Valid() && t in th && Finds(View(), ToResume(t))
      modifies this
      ensures Valid() && View() == ResumeSection(old(View()), t)
    {
      ResumeSectionIff(View(), t);
      UnlinkIdle(View(), t);
      waits := map o | o in waits :: Without(waits[o], t);
      th := th[t := th[t].(timing := false)];
    }

    /** The second section of rt_thread_resume. */
    method InsertNow(t: Tid)
      requires Valid() && t in th && Finds(View(), ToInsert(t))
      modifies this, levels, levels.queues
      ensures Valid() && View() == MadeReady(old(View()), t)
    {
      ghost var k := View();
      InsertSectionIff(k, t);
      assert ThreadOk(th[t]);
      levels.Insert(t, th[t].prio);
      th := th[t := th[t].(stat := Ready)];
      levels.BitsAreExact();
      SameBits(View().bits, MadeReady(k, t).bits, levels.View());
    }

    /** rt_thread_timeout. The assertion at its head holds. */
    method Timeout(t: Tid)
      requires Valid() && t in th && th[t].timing
      modifies this, levels, levels.queues
      ensures Valid() && View() == TimedOut(old(View()), t)
    {
      assert ThreadOk(th[t]);
      assert th[t].stat == Suspend;
      UnlinkIdle(View(), t);
      OffByTimeout(View(), t);
      waits := map o | o in waits :: Without(waits[o], t);
      th := th[t := th[t].(error := ETimeout, timing := false)];
      InsertNow(t);
    }

    /** rt_thread_control(CHANGE_PRIORITY): a ready thread changes queue and bitmap bit, a
        suspended one keeps its place on its wait list. */
    method SetPriority(t: Tid, p: nat)
      requires Valid() && t in th && p < LEVELS
      modifies this, levels, levels.queues
      ensures Valid() && View() == PrioritySet(old(View()), t, p)
    {
      PriorityInv(View(), t, p);
      if th[t].stat == Ready {
        RequeuedQueues(View(), t, p);
        UnlinkReady(View(), t);
        Requeue(t, p, PrioritySet(View(), t, p));
      } else {
        th := th[t := th[t].(prio := p)];
      }
    }

    method Requeue(t: Tid, p: nat, ghost k1: Kernel)
      requires levels.Valid() && t in th && th[t].prio < LEVELS && p < LEVELS && t in levels.View()[th[t].prio]
      requires k1 == View().(th := th[t := th[t].(prio := p)], bits := k1.bits,
                             ready := Inserted(Removed(levels.View(), t, th[t].prio), t, p))
                                 && BitsExact(k1.bits, k1.ready)
      modifies this, levels, levels.queues
      ensures levels.Valid() && View() == k1
    {
      levels.Remove(t, th[t].prio);
      th := th[t := th[t].(prio := p)];
      levels.Insert(t, p);
      levels.BitsAreExact();
      SameBits(View().bits, k1.bits, levels.View());
    }

    /** rt_thread_yield */
    method YieldNow()
      requires Valid() && levels.current in th
      modifies levels.queues
      ensures Valid() && View() == YieldedBy(old(View()), levels.current)
    {
      var t := levels.current;
      YieldInv(View(), t);
      assert ThreadOk(th[t]);
      if th[t].stat == Ready { levels.Rotate(t, th[t].prio); }
    }

    /** rt_ipc_list_suspend on wait list `o`, with the timer start of its callers. */
    method Block(o: Oid, order: Order, timeout: int)
      requires Valid() && Running(View())
      modifies this, levels, levels.queues
      ensures Valid() && View() == Blocked(old(View()), old(levels.current), o, order, timeout)
    {
      var t := levels.current;
      BlockInv(View(), t, o, order, timeout);
      SuspendNow(t);
      var list := SuspendOn(if o in waits then waits[o] else [], PriosOf(th), order, t);
      waits := waits[o := list];
      th := th[t := th[t].(timing := th[t].timing || timeout > 0, error := EOk)];
    }

    /** rt_schedule, with the scheduler unlocked. */
    method Schedule()
      requires Valid() && SomeReady(levels.View()) && levels.lockNest == 0
      modifies levels
      ensures Valid() && View() == Scheduled(old(View()))
    {
      ghost var k := View();
      ScheduleInv(k);
      levels.Schedule();
      ChosenIsScheduled(k, levels.current);
    }
  }
}
