/** The recursive mutex with priority inheritance (src/ipc.c). */
module Mutex {
  import opened WaitList
  import opened CallHistory

  const HOLD_MAX: nat := 0xFF
  const VALUE_MAX: nat := 0xFFFF
  const NO_PRIORITY: nat := 0xFF

  datatype Owner = Nobody | Owned(who: Tid)

  /** The mutex object together with the current priorities of the threads. */
  datatype M = M(value: nat, hold: nat, owner: Owner, original: nat, waiters: seq<Tid>, prio: map<Tid, nat>)

  datatype TakeResult = Taken | Full | NoWait | Suspended

  datatype ReleaseResult = NotOwner | Kept | HandedTo(to: Tid) | Freed | Overflow

  function Raised(prio: map<Tid, nat>, t: Tid, p: nat): map<Tid, nat> {
    prio[t := p]
  }

  // ------------------------------------------------------ the sections, on values

  function TakeResultOf(m: M, t: Tid, timeout: int): TakeResult {
    if m.owner == Owned(t) || m.value > 0 then if m.hold < HOLD_MAX then Taken else Full
    else if timeout == 0 then NoWait
    else Suspended
  }

  function TakeIt(m: M, order: Order, t: Tid, timeout: int): M {
    if m.owner == Owned(t) then if m.hold < HOLD_MAX then m.(hold := m.hold + 1) else m
    else if m.value > 0 then
      var m1 := m.(value := m.value - 1, owner := Owned(t), original := PrioOf(m.prio, t));
      if m.hold < HOLD_MAX then m1.(hold := m.hold + 1) else m1
    else if timeout == 0 || m.owner.Nobody? then m
    else
      var o := m.owner.who;
      var prio := if PrioOf(m.prio, t) < PrioOf(m.prio, o) then Raised(m.prio, o, PrioOf(m.prio, t)) else m.prio;
      m.(prio := prio, waiters := Enqueue(m.waiters, prio, order, t))
  }

  function ReleaseResultOf(m: M, t: Tid): ReleaseResult {
    if m.owner != Owned(t) then NotOwner
    else if m.hold != 1 then Kept
    else if m.waiters != [] then HandedTo(m.waiters[0])
    else if m.value < VALUE_MAX then Freed else Overflow
  }

  function ReleaseIt(m: M, t: Tid): M {
    if m.owner != Owned(t) then m
    else if m.hold != 1 then m.(hold := if m.hold > 0 then m.hold - 1 else HOLD_MAX)
    else
      var prio := if m.original != PrioOf(m.prio, t) then Raised(m.prio, t, m.original) else m.prio;
      if m.waiters != [] then
        M(m.value, 1, Owned(m.waiters[0]), PrioOf(prio, m.waiters[0]), m.waiters[1..], prio)
      else if m.value < VALUE_MAX then M(m.value + 1, 0, Nobody, NO_PRIORITY, [], prio)
      else m.(prio := prio, hold := 0)
  }

  function Expired(m: M, t: Tid): M {
    m.(waiters := Without(m.waiters, t))
  }

  function Fresh(prio: map<Tid, nat>): M {
    M(1, 0, Nobody, NO_PRIORITY, [], prio)
  }

  // --------------------------------------------------------------- the object

  class MutexObject {
    const order: Order
    var value: nat
    var hold: nat
    var owner: Owner
    var originalPriority: nat
    var waiters: seq<Tid>
    var prio: map<Tid, nat>            // current_priority of every thread

    ghost function View(): M
      reads this
    {
      M(value, hold, owner, originalPriority, waiters, prio)
    }

    constructor (order: Order, prio: map<Tid, nat>)
      ensures View() == Fresh(prio) && this.order == order
    {
      this.order := order;
      value, hold, owner, originalPriority := 1, 0, Nobody, NO_PRIORITY;
      waiters := [];
      this.prio := prio;
    }

    /** rt_thread_control(CHANGE_PRIORITY), as far as the priority value goes. */
    method ChangePriority(t: Tid, p: nat)
      modifies this`prio
      ensures prio == Raised(old(prio), t, p)
    {
      prio := prio[t := p];
    }

    method Take(thread: Tid, time: int) returns (r: TakeResult)
      requires owner.Nobody? ==> value > 0
      modifies this
      ensures View() == TakeIt(old(View()), order, thread, time)
      ensures r == TakeResultOf(old(View()), thread, time)
    {
      if owner == Owned(thread) {
        if hold < HOLD_MAX {
          hold := hold + 1;
        } else {
          return Full;
        }
      } else if value > 0 {
        value := value - 1;
        owner := Owned(thread);
        originalPriority := PrioOf(prio, thread);
        if hold < HOLD_MAX {
          hold := hold + 1;
        } else {
          return Full;
        }
      } else {
        if time == 0 { return NoWait; }
        if PrioOf(prio, thread) < PrioOf(prio, owner.who) {
          ChangePriority(owner.who, PrioOf(prio, thread));
        }
        waiters := SuspendOn(waiters, prio, order, thread);
        return Suspended;
      }
      return Taken;
    }

    method Release(thread: Tid) returns (r: ReleaseResult)
      requires owner == Owned(thread) ==> hold > 0
      modifies this
      ensures View() == ReleaseIt(old(View()), thread)
      ensures r == ReleaseResultOf(old(View()), thread)
    {
      if owner != Owned(thread) { return NotOwner; }
      hold := hold - 1;
      if hold != 0 { return Kept; }
      if originalPriority != PrioOf(prio, thread) {
        ChangePriority(thread, originalPriority);
      }
      if waiters != [] {
        owner := Owned(waiters[0]);
        originalPriority := PrioOf(prio, waiters[0]);
        hold := hold + 1;
        r := HandedTo(waiters[0]);
        waiters := waiters[1..];
      } else if value < VALUE_MAX {
        value := value + 1;
        owner := Nobody;
        originalPriority := NO_PRIORITY;
        r := Freed;
      } else {
        r := Overflow;
      }
    }
  }

  // ------------------------------------------------------------------ the protocol

  datatype Pc = Ready(last: Outcome) | Waiting(timeout: int) | Woken(err: Outcome)

  datatype State = State(m: M, pc: map<Tid, Pc>)

  datatype Event =
    | Take(t: Tid, timeout: int)
    | Release(t: Tid)
    | Expire(t: Tid)                    // the timer of a suspended thread
    | Run(t: Tid)                       // a woken thread returns from its take
    | ChangePrio(t: Tid, p: nat)        // of a thread that neither owns nor awaits the mutex

  predicate Calls(s: State, t: Tid) {
    t in s.pc && s.pc[t].Ready? && t in s.m.prio
  }

  function Step(order: Order, s: State, e: Event): State {
    match e
    case Take(t, timeout) =>
      if !Calls(s, t) then s
      else
        State(TakeIt(s.m, order, t, timeout),
              match TakeResultOf(s.m, t, timeout)
              case Taken => s.pc[t := Ready(EOk)]
              case Full => s.pc[t := Ready(EFull)]
              case NoWait => s.pc[t := Ready(ETimeout)]
              case Suspended => s.pc[t := Waiting(timeout)])
    case Release(t) =>
      if !Calls(s, t) then s
      else
        State(ReleaseIt(s.m, t),
              match ReleaseResultOf(s.m, t)
              case NotOwner => s.pc[t := Ready(EError)]
              case HandedTo(u) => s.pc[t := Ready(EOk)][u := Woken(EOk)]
              case Overflow => s.pc[t := Ready(EFull)]
              case _ => s.pc[t := Ready(EOk)])
    case Expire(t) =>
      if t in s.pc && s.pc[t].Waiting? && s.pc[t].timeout > 0 then State(Expired(s.m, t), s.pc[t := Woken(ETimeout)])
          else s
    case Run(t) =>
      if t in s.pc && s.pc[t].Woken? then s.(pc := s.pc[t := Ready(s.pc[t].err)]) else s
    case ChangePrio(t, p) =>
      if t in s.m.prio && s.m.owner != Owned(t) && t !in s.m.waiters
          then s.(m := s.m.(prio := Raised(s.m.prio, t, p))) else s
  }

  function Exec(order: Order, s: State, es: seq<Event>): State
    decreases |es|
  {
    if es == [] then s else Exec(order, Step(order, s, es[0]), es[1..])
  }

  function Start(prio: map<Tid, nat>): State {
    State(Fresh(prio), map t | t in prio :: Ready(EOk))
  }

  // ----------------------------------------------------------------- the invariant

  /** Ownership: the value is 0 exactly while there is an owner, which holds at least once. */
  ghost predicate Owning(m: M) {
    && m.value == (if m.owner.Owned? then 0 else 1)
    && (m.owner.Owned? <==> m.hold > 0) && m.hold <= HOLD_MAX
    && (m.waiters != [] ==> m.owner.Owned?)
  }

  /** The wait list holds exactly the waiting threads; the owner is not among them. */
  ghost predicate ListExact(s: State) {
    && NoDup(s.m.waiters)
    && (forall t :: t in s.m.waiters <==> t in s.pc && s.pc[t].Waiting?)
    && (forall t :: t in s.pc ==> t in s.m.prio)
    && (s.m.owner.Owned? ==> s.m.owner.who in s.pc && s.m.owner.who !in s.m.waiters)
    && (forall t :: t in s.pc && s.pc[t].Woken? ==> (s.pc[t].err == EOk <==> s.m.owner == Owned(t)))
  }

  /** The owner runs at least as urgently as every waiter. */
  ghost predicate OwnerUrgent(m: M) {
    m.owner.Owned? ==> forall t :: t in m.waiters ==> PrioOf(m.prio, m.owner.who) <= PrioOf(m.prio, t)
  }

  ghost predicate Inv(s: State) {
    Owning(s.m) && ListExact(s)
  }

  ghost predicate PrioInv(s: State) {
    Inv(s) && Sorted(s.m.waiters, s.m.prio) && OwnerUrgent(s.m)
  }

  lemma TakeInv(order: Order, s: State, t: Tid, timeout: int)
    requires Inv(s)
    ensures Inv(Step(order, s, Take(t, timeout)))
  {
    if Calls(s, t) {
      var s1 := Step(order, s, Take(t, timeout));
      assert s1.pc.Keys == s.pc.Keys && forall u :: u in s.pc && u != t ==> s1.pc[u] == s.pc[u];
      if TakeResultOf(s.m, t, timeout).Suspended? {
        EnqueueMembers(s.m.waiters, s1.m.prio, order, t);
        assert forall u :: u in s.m.prio ==> u in s1.m.prio;
      }
      forall u ensures u in s1.m.waiters <==> u in s1.pc && s1.pc[u].Waiting? {}
    }
  }

  lemma ReleaseInv(order: Order, s: State, t: Tid)
    requires Inv(s)
    ensures Inv(Step(order, s, Release(t)))
  {
    if Calls(s, t) {
      var s1 := Step(order, s, Release(t));
      if s.m.waiters != [] {
        var w := s.m.waiters[0];
        assert w in s.m.waiters;
        assert forall u :: u in s.m.waiters <==> u == w || u in s.m.waiters[1..];
        assert w !in s.m.waiters[1..];
      }
      forall u ensures u in s1.m.waiters <==> u in s1.pc && s1.pc[u].Waiting? {}
    }
  }

  lemma StepInv(order: Order, s: State, e: Event)
    requires Inv(s)
    ensures Inv(Step(order, s, e))
  {
    match e
    case Take(t, timeout) => TakeInv(order, s, t, timeout);
    case Release(t) => ReleaseInv(order, s, t);
    case Expire(t) =>
      WithoutNoDup(s.m.waiters, t);
      var s1 := Step(order, s, e);
      forall u ensures u in s1.m.waiters <==> u in s1.pc && s1.pc[u].Waiting? {}
    case Run(t) =>
    case ChangePrio(t, p) =>
  }

  lemma {:induction false} ExecInv(order: Order, s: State, es: seq<Event>)
    requires Inv(s)
    ensures Inv(Exec(order, s, es))
    decreases |es|
  {
    if es != [] {
      StepInv(order, s, es[0]);
      ExecInv(order, Step(order, s, es[0]), es[1..]);
    }
  }

  // ---------------------------------------------------------- priority inheritance

  lemma SamePrioSorted(list: seq<Tid>, a: map<Tid, nat>, b: map<Tid, nat>)
    requires Sorted(list, a) && forall t :: t in list ==> PrioOf(b, t) == PrioOf(a, t)
    ensures Sorted(list, b)
  {
  }

  lemma TakePrioInv(s: State, t: Tid, timeout: int)
    requires PrioInv(s)
    ensures PrioInv(Step(Prio, s, Take(t, timeout)))
  {
    TakeInv(Prio, s, t, timeout);
    if Calls(s, t) { TakeUrgent(s.m, t, timeout); }
  }

  /** Suspending a taker boosts the owner to at least the taker's priority. */
  lemma TakeUrgent(m: M, t: Tid, timeout: int)
    requires Owning(m) && Sorted(m.waiters, m.prio) && OwnerUrgent(m) && (m.owner.Owned? ==> m.owner.who !in m.waiters)
    ensures var m1 := TakeIt(m, Prio, t, timeout); Sorted(m1.waiters, m1.prio) && OwnerUrgent(m1)
  {
    if TakeResultOf(m, t, timeout).Suspended? {
      var m1 := TakeIt(m, Prio, t, timeout);
      SamePrioSorted(m.waiters, m.prio, m1.prio);
      EnqueueSorted(m.waiters, m1.prio, t);
      EnqueueMembers(m.waiters, m1.prio, Prio, t);
    }
  }

  lemma ReleasePrioInv(s: State, t: Tid)
    requires PrioInv(s)
    ensures PrioInv(Step(Prio, s, Release(t)))
  {
    ReleaseInv(Prio, s, t);
    var s1 := Step(Prio, s, Release(t));
    if s.m.waiters != [] {
      SamePrioSorted(s.m.waiters, s.m.prio, s1.m.prio);
      assert forall u :: u in s.m.waiters[1..] ==> u in s.m.waiters;
    }
  }

  lemma StepPrioInv(s: State, e: Event)
    requires PrioInv(s)
    ensures PrioInv(Step(Prio, s, e))
  {
    StepInv(Prio, s, e);
    match e
    case Take(t, timeout) => TakePrioInv(s, t, timeout);
    case Release(t) => ReleasePrioInv(s, t);
    case Expire(t) => WithoutSorted(s.m.waiters, s.m.prio, t);
    case Run(t) =>
    case ChangePrio(t, p) => SamePrioSorted(s.m.waiters, s.m.prio, Step(Prio, s, e).m.prio);
  }

  lemma {:induction false} ExecPrioInv(s: State, es: seq<Event>)
    requires PrioInv(s)
    ensures PrioInv(Exec(Prio, s, es))
    decreases |es|
  {
    if es != [] {
      StepPrioInv(s, es[0]);
      ExecPrioInv(Step(Prio, s, es[0]), es[1..]);
    }
  }

  /** Over every run of a priority-ordered mutex: value, hold and owner agree, the wait list
      is sorted by priority, and the owner is at least as urgent as every waiter. */
  lemma NoPriorityInversion(prio: map<Tid, nat>, es: seq<Event>)
    ensures var s := Exec(Prio, Start(prio), es);
      Owning(s.m) && ListExact(s) && Sorted(s.m.waiters, s.m.prio) && OwnerUrgent(s.m)
  {
    ExecPrioInv(Start(prio), es);
  }

  /** A hand-off leaves the new owner at least as urgent as the remaining waiters exactly when
      the head of the list was the most urgent waiter. A priority-ordered list always meets
      this; a first-in-first-out list need not. */
  lemma HandOffUrgentIff(m: M, t: Tid)
    requires Owning(m) && m.owner == Owned(t) && m.hold == 1 && m.waiters != [] && NoDup(m.waiters) && t !in m.waiters
    ensures OwnerUrgent(ReleaseIt(m, t)) <==>
            forall w :: w in m.waiters ==> PrioOf(m.prio, m.waiters[0]) <= PrioOf(m.prio, w)
  {
    var m1 := ReleaseIt(m, t);
    assert forall w :: w in m.waiters <==> w == m.waiters[0] || w in m.waiters[1..];
    assert forall w :: w in m.waiters ==> PrioOf(m1.prio, w) == PrioOf(m.prio, w);
  }

  /** The last release of an owner while some waiter is more urgent than the first one. */
  ghost predicate HandsPast(s: State, e: Event) {
    && e.Release? && Calls(s, e.t) && s.m.owner == Owned(e.t) && s.m.hold == 1
    && exists w :: w in s.m.waiters && PrioOf(s.m.prio, w) < PrioOf(s.m.prio, s.m.waiters[0])
  }

  /** Suspending a taker boosts the owner, on a list of either order. */
  lemma TakeUrgentAnyOrder(m: M, order: Order, t: Tid, timeout: int)
    requires OwnerUrgent(m) && (m.owner.Owned? ==> m.owner.who !in m.waiters) && Owning(m)
    ensures OwnerUrgent(TakeIt(m, order, t, timeout))
  {
    if TakeResultOf(m, t, timeout).Suspended? {
      EnqueueMembers(m.waiters, TakeIt(m, order, t, timeout).prio, order, t);
    }
  }

  lemma ReleaseUrgentIff(s: State, t: Tid)
    requires Inv(s) && OwnerUrgent(s.m) && Calls(s, t)
    ensures OwnerUrgent(ReleaseIt(s.m, t)) <==> !HandsPast(s, Release(t))
  {
    if s.m.owner == Owned(t) && s.m.hold == 1 && s.m.waiters != [] { HandOffUrgentIff(s.m, t); }
  }

  /** For either list order and every event: the owner stays at least as urgent as every waiter
      exactly when the event is not the owner's last release with some waiter more urgent than
      the first. */
  lemma StepUrgentIff(order: Order, s: State, e: Event)
    requires Inv(s) && OwnerUrgent(s.m)
    ensures OwnerUrgent(Step(order, s, e).m) <==> !HandsPast(s, e)
  {
    match e
    case Take(t, timeout) => if Calls(s, t) { TakeUrgentAnyOrder(s.m, order, t, timeout); }
    case Release(t) => if Calls(s, t) { ReleaseUrgentIff(s, t); }
    case Expire(t) =>
    case Run(t) =>
    case ChangePrio(t, p) =>
  }

  ghost predicate NeverHandsPast(order: Order, s: State, es: seq<Event>)
    decreases |es|
  {
    es != [] ==> !HandsPast(s, es[0]) && NeverHandsPast(order, Step(order, s, es[0]), es[1..])
  }

  ghost predicate UrgentThroughout(order: Order, s: State, es: seq<Event>)
    decreases |es|
  {
    OwnerUrgent(s.m) && (es != [] ==> UrgentThroughout(order, Step(order, s, es[0]), es[1..]))
  }

  /** Over every run of a mutex of either order: the owner is at least as urgent as every waiter
      in all states exactly when no last release passes over a more urgent waiter. */
  lemma {:induction false} UrgentIffNeverHandsPast(order: Order, s: State, es: seq<Event>)
    requires Inv(s) && OwnerUrgent(s.m)
    ensures UrgentThroughout(order, s, es) <==> NeverHandsPast(order, s, es)
    decreases |es|
  {
    if es != [] {
      StepUrgentIff(order, s, es[0]);
      StepInv(order, s, es[0]);
      if HandsPast(s, es[0]) {
        assert !UrgentThroughout(order, Step(order, s, es[0]), es[1..]);
      } else {
        UrgentIffNeverHandsPast(order, Step(order, s, es[0]), es[1..]);
      }
    }
  }

  lemma Exec4(order: Order, s: State, a: Event, b: Event, c: Event, d: Event)
    ensures Exec(order, s, [a, b, c, d]) == Step(order, Step(order, Step(order, Step(order, s, a), b), c), d)
  {
    assert [a, b, c, d][1..] == [b, c, d] && [b, c, d][1..] == [c, d] && [c, d][1..] == [d] && [d][1..] == [];
    var s1 := Step(order, s, a);
    var s2 := Step(order, s1, b);
    assert Exec(order, s1, [b, c, d]) == Exec(order, s2, [c, d]) == Exec(order, Step(order, s2, c), [d]);
  }

  /** On a first-in-first-out mutex the hand-off does not raise the new owner: thread 1, of
      priority 20, ends up owning the mutex while thread 2, of priority 5, waits. */
  lemma FifoHandOffInverts()
    ensures var prio := map[0 := 30, 1 := 20, 2 := 5];
      var s := Exec(Fifo, Start(prio), [Take(0, -1), Take(1, -1), Take(2, -1), Release(0)]);
      s.m.owner == Owned(1) && s.m.waiters == [2] && !OwnerUrgent(s.m)
  {
    var s0 := Start(map[0 := 30, 1 := 20, 2 := 5]);
    Exec4(Fifo, s0, Take(0, -1), Take(1, -1), Take(2, -1), Release(0));
    var s2 := Step(Fifo, Step(Fifo, s0, Take(0, -1)), Take(1, -1));
    assert s2.m.waiters == [1];
    var s3 := Step(Fifo, s2, Take(2, -1));
    assert s3.m.waiters == [1, 2];
    var s4 := Step(Fifo, s3, Release(0));
    assert s4.m.waiters == [2] && 2 in s4.m.waiters;
  }

  /** The priority a thread falls back to: the one saved at acquisition while it owns the
      mutex, its current one otherwise. */
  function BasePrio(m: M, t: Tid): nat {
    if m.owner == Owned(t) then m.original else PrioOf(m.prio, t)
  }

  /** No operation on the mutex changes any thread's base priority. */
  lemma StepKeepsBase(order: Order, s: State, e: Event, t: Tid)
    requires Inv(s) && !(e.ChangePrio? && e.t == t)
    ensures BasePrio(Step(order, s, e).m, t) == BasePrio(s.m, t)
  {
    if s.m.waiters != [] { assert s.m.waiters[0] in s.m.waiters; }
  }

  lemma {:induction false} ExecKeepsBase(order: Order, s: State, es: seq<Event>, t: Tid)
    requires Inv(s) && forall e :: e in es ==> !(e.ChangePrio? && e.t == t)
    ensures BasePrio(Exec(order, s, es).m, t) == BasePrio(s.m, t)
    decreases |es|
  {
    if es != [] {
      assert es[0] in es;
      StepKeepsBase(order, s, es[0], t);
      StepInv(order, s, es[0]);
      ExecKeepsBase(order, Step(order, s, es[0]), es[1..], t);
    }
  }

  /** Every boost is undone: after any run in which nobody else changed its priority, a thread
      that does not own the mutex has the priority it started with, and one that owns it will
      get that priority back, since that is what the mutex has saved. */
  lemma PriorityRestored(order: Order, prio: map<Tid, nat>, es: seq<Event>, t: Tid)
    requires forall e :: e in es ==> !(e.ChangePrio? && e.t == t)
    ensures var m := Exec(order, Start(prio), es).m;
      && (m.owner != Owned(t) ==> PrioOf(m.prio, t) == PrioOf(prio, t))
      && (m.owner == Owned(t) ==>
            m.original == PrioOf(prio, t) && (m.hold == 1 ==> PrioOf(ReleaseIt(m, t).prio, t) == PrioOf(prio, t)))
  {
    ExecKeepsBase(order, Start(prio), es, t);
  }

  /** The priority last set for `t` from outside, while it neither owned nor awaited the mutex; `w` is
      the one it had before. */
  function LastSet(order: Order, s: State, es: seq<Event>, t: Tid, w: nat): nat
    decreases |es|
  {
    if es == [] then w
    else
      var sets := es[0].ChangePrio? && es[0].t == t && t in s.m.prio && s.m.owner != Owned(t) && t !in s.m.waiters;
      LastSet(order, Step(order, s, es[0]), es[1..], t, if sets then es[0].p else w)
  }

  lemma StepSetsBase(order: Order, s: State, t: Tid, p: nat)
    requires Inv(s)
    ensures BasePrio(Step(order, s, ChangePrio(t, p)).m, t) ==
            if t in s.m.prio && s.m.owner != Owned(t) && t !in s.m.waiters then p else BasePrio(s.m, t)
  {
  }

  lemma {:induction false} ExecSetsBase(order: Order, s: State, es: seq<Event>, t: Tid)
    requires Inv(s)
    ensures BasePrio(Exec(order, s, es).m, t) == LastSet(order, s, es, t, BasePrio(s.m, t))
    decreases |es|
  {
    if es != [] {
      StepInv(order, s, es[0]);
      if es[0].ChangePrio? && es[0].t == t { StepSetsBase(order, s, t, es[0].p); }
      else { StepKeepsBase(order, s, es[0], t); }
      ExecSetsBase(order, Step(order, s, es[0]), es[1..], t);
    }
  }

  /** After every run a thread has the priority last set for it from outside, or the one it started
      with; while it owns the mutex that priority is saved. */
  lemma PriorityAsSet(order: Order, prio: map<Tid, nat>, es: seq<Event>, t: Tid)
    ensures var m := Exec(order, Start(prio), es).m;
      (if m.owner == Owned(t) then m.original else PrioOf(m.prio, t)) ==
      LastSet(order, Start(prio), es, t, PrioOf(prio, t))
  {
    ExecSetsBase(order, Start(prio), es, t);
  }

  /** No barging: an owner is only ever replaced by its own last release, and then by the
      head of the wait list, or by nobody if nobody waits. */
  lemma OwnerReplacedOnlyByHandOff(order: Order, s: State, e: Event, o: Tid)
    requires Inv(s) && s.m.owner == Owned(o) && Step(order, s, e).m.owner != Owned(o)
    ensures e == Release(o) && s.m.hold == 1
    ensures Step(order, s, e).m.owner == if s.m.waiters == [] then Nobody else Owned(s.m.waiters[0])
    ensures Step(order, s, e).m.waiters == if s.m.waiters == [] then [] else s.m.waiters[1..]
  {
  }

  /** A blocked take returns success exactly when its thread has become the owner, so a taker
      that timed out never owns the mutex; returning changes nothing else. */
  lemma WokenTakerOwns(order: Order, prio: map<Tid, nat>, es: seq<Event>, t: Tid)
    ensures var s := Exec(order, Start(prio), es);
      t in s.pc && s.pc[t].Woken? ==>
        && (Step(order, s, Run(t)).pc[t] == Ready(EOk) <==> s.m.owner == Owned(t))
        && Step(order, s, Run(t)).m == s.m
  {
    ExecInv(order, Start(prio), es);
  }

  // --------------------------------------------------- the history of an ownership

  /** `holder` is whom the answers tell to own the mutex; since it became owner it has `taken`
      the mutex (a hand-off counts) and `given` it back that many times, and `pressed` is the
      most urgent priority among its own and those of the threads that began to wait. `now`
      counts events, and `since` tells when each thread last began to wait. */
  datatype History = History(holder: Owner, taken: nat, given: nat, pressed: nat, now: nat, since: map<Tid, nat>,
                             visits: Visits<()>)

  predicate Waits(s: State, t: Tid) {
    t in s.pc && s.pc[t].Waiting?
  }

  /** The wait of `t` ends with success at this step. */
  predicate Admitted(s: State, s1: State, t: Tid) {
    Waits(s, t) && t in s1.pc && s1.pc[t] == Woken(EOk)
  }

  function NoteTake(h: History, s: State, t: Tid, time: int, p: Pc): History {
    var g := h.(now := h.now + 1, visits := h.visits[t := Visit((), time, 0, EOk, if p == Ready(EOk) then 1 else 0)]);
    match p
    case Ready(EOk) =>
      if h.holder == Owned(t) then g.(taken := h.taken + 1)
      else g.(holder := Owned(t), taken := 1, given := 0, pressed := PrioOf(s.m.prio, t))
    case Waiting(_) =>
      g.(since := h.since[t := h.now],
         pressed := if PrioOf(s.m.prio, t) < h.pressed then PrioOf(s.m.prio, t) else h.pressed)
    case _ => g
  }

  /** A release that lets somebody in hands the mutex over; otherwise the mutex is free once it
      was given back as often as it was taken. */
  ghost function NoteRelease(h: History, s: State, t: Tid, s1: State): History {
    var g := h.(now := h.now + 1, visits := h.visits - {t});
    if t !in s1.pc || s1.pc[t] != Ready(EOk) then g
    else if u :| Admitted(s, s1, u) then
      g.(holder := Owned(u), taken := 1, given := 0, pressed := PrioOf(s.m.prio, u), visits := Credited(g.visits, {u}))
    else if h.given + 1 == h.taken then g.(holder := Nobody, taken := 0, given := 0)
    else g.(given := h.given + 1)
  }

  ghost function Note(h: History, s: State, e: Event, s1: State): History {
    var g := h.(now := h.now + 1);
    match e
    case Take(t, time) => if Calls(s, t) && t in s1.pc then NoteTake(h, s, t, time, s1.pc[t]) else g
    case Release(t) => if Calls(s, t) then NoteRelease(h, s, t, s1) else g
    case Expire(t) =>
      if Waits(s, t) && t in h.visits && h.visits[t].time > 0 then g.(visits := Struck(h.visits, {t}, ETimeout)) else g
    case _ => g
  }

  ghost function Recall(order: Order, s: State, h: History, es: seq<Event>): History
    decreases |es|
  {
    if es == [] then h
    else Recall(order, Step(order, s, es[0]), Note(h, s, es[0], Step(order, s, es[0])), es[1..])
  }

  const BLANK := History(Nobody, 0, 0, 0, 0, map[], map[])

  /** What a thread's state says about its take. EFull answers a take by the owner, see
      TakeAtOnceIff. */
  predicate Accounted(p: Pc, v: Visit<()>) {
    match p
    case Ready(EOk) => v.moved == 1
    case Ready(EFull) => v.moved == 0 && v.hit == EOk
    case Ready(err) => err == ETimeout && MayFail(v, err, ETimeout)
    case Waiting(time) => OnWait(v, time)
    case Woken(EOk) => v.moved == 1 && v.hit == EOk
    case Woken(err) => err == ETimeout && MayFail(v, err, ETimeout)
  }

  ghost predicate Owed(m: M, h: History) {
    && m.owner == h.holder && m.hold == h.taken - h.given && h.given <= h.taken
    && (m.owner.Owned? ==> PrioOf(m.prio, m.owner.who) == h.pressed)
  }

  ghost predicate VisitsTold(s: State, h: History) {
    && (forall t :: t in h.visits ==> t in s.pc && Accounted(s.pc[t], h.visits[t]))
    && (forall t :: Waits(s, t) ==> t in h.visits)
  }

  ghost predicate OrderTold(order: Order, m: M, h: History) {
    InOrder(m.waiters, order, m.prio, h.since) && AllBefore(h.since, h.now)
  }

  ghost predicate Told(order: Order, s: State, h: History) {
    Owed(s.m, h) && VisitsTold(s, h) && OrderTold(order, s.m, h)
  }

  lemma TakeTold(order: Order, s: State, h: History, t: Tid, time: int)
    requires Inv(s) && Told(order, s, h)
    ensures var s1 := Step(order, s, Take(t, time)); Told(order, s1, Note(h, s, Take(t, time), s1))
  {
    if Calls(s, t) {
      TakeOrder(order, s, h, t, time);
      TakeVisits(order, s, h, t, time);
    }
  }

  lemma TakeOrder(order: Order, s: State, h: History, t: Tid, time: int)
    requires Inv(s) && OrderTold(order, s.m, h) && Calls(s, t)
    ensures var s1 := Step(order, s, Take(t, time)); OrderTold(order, s1.m, NoteTake(h, s, t, time, s1.pc[t]))
  {
    if TakeResultOf(s.m, t, time).Suspended? {
      var m1 := TakeIt(s.m, order, t, time);
      SameInOrder(s.m.waiters, order, s.m.prio, h.since, m1.prio, h.since);
      EnqueueInOrder(s.m.waiters, m1.prio, order, t, h.since, h.now);
    }
  }

  lemma TakeVisits(order: Order, s: State, h: History, t: Tid, time: int)
    requires Inv(s) && VisitsTold(s, h) && Calls(s, t)
    ensures var s1 := Step(order, s, Take(t, time)); VisitsTold(s1, NoteTake(h, s, t, time, s1.pc[t]))
  {
    var s1 := Step(order, s, Take(t, time));
    assert s1.pc == s.pc[t := s1.pc[t]];
  }

  /** What a release adds to the history, and whom it lets in. */
  lemma NoteReleaseIs(order: Order, s: State, h: History, t: Tid)
    requires Inv(s) && Calls(s, t)
    ensures var s1 := Step(order, s, Release(t));
      var g := h.(now := h.now + 1, visits := h.visits - {t});
      NoteRelease(h, s, t, s1) ==
        if s.m.owner != Owned(t) then g
        else if s.m.hold == 1 && s.m.waiters != [] then
          g.(holder := Owned(s.m.waiters[0]), taken := 1, given := 0, pressed := PrioOf(s.m.prio, s.m.waiters[0]),
             visits := Credited(g.visits, {s.m.waiters[0]}))
        else if h.given + 1 == h.taken then g.(holder := Nobody, taken := 0, given := 0)
        else g.(given := h.given + 1)
  {
    var s1 := Step(order, s, Release(t));
    if s.m.waiters != [] {
      var w := s.m.waiters[0];
      assert w in s.m.waiters && Waits(s, w);
      assert s.m.owner == Owned(t) && s.m.hold == 1 ==> Admitted(s, s1, w);
      assert forall u :: Admitted(s, s1, u) ==> u == w && s.m.owner == Owned(t) && s.m.hold == 1;
    } else {
      assert forall u :: !Admitted(s, s1, u);
    }
  }

  lemma ReleaseTold(order: Order, s: State, h: History, t: Tid)
    requires Inv(s) && Told(order, s, h)
    ensures var s1 := Step(order, s, Release(t)); Told(order, s1, Note(h, s, Release(t), s1))
  {
    if Calls(s, t) {
      NoteReleaseIs(order, s, h, t);
      ReleaseOwed(order, s, h, t);
      ReleaseOrder(order, s, h, t);
      ReleaseVisits(order, s, h, t);
    }
  }

  lemma ReleaseOwed(order: Order, s: State, h: History, t: Tid)
    requires Inv(s) && Owed(s.m, h) && Calls(s, t)
    ensures Owed(ReleaseIt(s.m, t), NoteRelease(h, s, t, Step(order, s, Release(t))))
  {
    NoteReleaseIs(order, s, h, t);
    if s.m.waiters != [] { assert s.m.waiters[0] in s.m.waiters; }
  }

  lemma ReleaseOrder(order: Order, s: State, h: History, t: Tid)
    requires Inv(s) && OrderTold(order, s.m, h) && Calls(s, t)
    ensures InOrder(ReleaseIt(s.m, t).waiters, order, ReleaseIt(s.m, t).prio, h.since)
  {
    SameInOrder(s.m.waiters, order, s.m.prio, h.since, ReleaseIt(s.m, t).prio, h.since);
  }

  lemma ReleaseVisits(order: Order, s: State, h: History, t: Tid)
    requires Inv(s) && VisitsTold(s, h) && Calls(s, t)
    ensures var s1 := Step(order, s, Release(t)); VisitsTold(s1, NoteRelease(h, s, t, s1))
  {
    NoteReleaseIs(order, s, h, t);
    if s.m.waiters != [] { assert s.m.waiters[0] in s.m.waiters; }
  }

  lemma ExpireTold(order: Order, s: State, h: History, t: Tid)
    requires Inv(s) && Told(order, s, h)
    ensures var s1 := Step(order, s, Expire(t)); Told(order, s1, Note(h, s, Expire(t), s1))
  {
    WithoutInOrder(s.m.waiters, order, s.m.prio, h.since, t);
  }

  lemma StepTold(order: Order, s: State, h: History, e: Event)
    requires Inv(s) && Told(order, s, h)
    ensures Told(order, Step(order, s, e), Note(h, s, e, Step(order, s, e)))
  {
    match e
    case Take(t, time) => TakeTold(order, s, h, t, time);
    case Release(t) => ReleaseTold(order, s, h, t);
    case Expire(t) => ExpireTold(order, s, h, t);
    case Run(t) =>
    case ChangePrio(t, p) =>
      SameInOrder(s.m.waiters, order, s.m.prio, h.since, Step(order, s, e).m.prio, h.since);
  }

  lemma {:induction false} ExecTold(order: Order, s: State, h: History, es: seq<Event>)
    requires Inv(s) && Told(order, s, h)
    ensures Inv(Exec(order, s, es)) && Told(order, Exec(order, s, es), Recall(order, s, h, es))
    decreases |es|
  {
    if es != [] {
      StepInv(order, s, es[0]);
      StepTold(order, s, h, es[0]);
      ExecTold(order, Step(order, s, es[0]), Note(h, s, es[0], Step(order, s, es[0])), es[1..]);
    }
  }

  lemma ReachTold(order: Order, prio: map<Tid, nat>, es: seq<Event>)
    ensures Inv(Exec(order, Start(prio), es)) && Told(order, Exec(order, Start(prio), es), Past(order, prio, es))
  {
    ExecTold(order, Start(prio), BLANK, es);
  }

  /** The history of a run from the start. */
  ghost function Past(order: Order, prio: map<Tid, nat>, es: seq<Event>): History {
    Recall(order, Start(prio), BLANK, es)
  }

  /** Over every run, for either list order: the mutex knows its owner, holds are takes minus
      releases since the owner came in, and the owner runs at the most urgent of its own
      priority and those of the threads that have asked for the mutex since. */
  lemma HoldsAreTakesMinusReleases(order: Order, prio: map<Tid, nat>, es: seq<Event>)
    ensures var m := Exec(order, Start(prio), es).m;
      var h := Past(order, prio, es);
      && m.owner == h.holder && m.hold == h.taken - h.given
      && m.value == (if h.holder == Nobody then 1 else 0) && (h.holder != Nobody <==> h.given < h.taken)
      && (h.holder != Nobody ==> PrioOf(m.prio, h.holder.who) == h.pressed)
  {
    ReachTold(order, prio, es);
  }

  /** An owner that took the mutex n times stays owner until its n-th release. */
  lemma OwnerUntilLastRelease(order: Order, prio: map<Tid, nat>, es: seq<Event>, e: Event)
    ensures var s := Exec(order, Start(prio), es);
      var h := Past(order, prio, es);
      h.holder.Owned? ==>
        (Step(order, s, e).m.owner != h.holder <==>
           e == Release(h.holder.who) && Calls(s, h.holder.who) && h.given + 1 == h.taken)
  {
    ReachTold(order, prio, es);
    var s := Exec(order, Start(prio), es);
    if s.m.waiters != [] { assert s.m.waiters[0] in s.m.waiters; }
  }

  /** After any run a take succeeds at once exactly if nobody holds the mutex, or the taker
      itself does and holds it less than 255 times; a thread that finds another owner fails at
      once if it asked not to wait, and waits if it asked for any other time. */
  lemma TakeAtOnceIff(order: Order, prio: map<Tid, nat>, es: seq<Event>, t: Tid, time: int)
    ensures var s := Exec(order, Start(prio), es);
      var h := Past(order, prio, es);
      var s1 := Step(order, s, Take(t, time));
      Calls(s, t) ==>
        && (s1.pc[t] == Ready(EOk) <==> h.holder == Nobody || (h.holder == Owned(t) && h.taken - h.given < 255))
        && (s1.pc[t] == Ready(EFull) <==> h.holder == Owned(t) && h.taken - h.given == 255)
        && (h.holder != Nobody && h.holder != Owned(t) ==>
              s1.pc[t] == if time == 0 then Ready(ETimeout) else Waiting(time))
        && forall u :: u in s.pc && u != t ==> u in s1.pc && s1.pc[u] == s.pc[u]
  {
    ReachTold(order, prio, es);
  }

  /** After any run a woken thread that is scheduled returns from its take: with success if it was
      handed the mutex, otherwise with the timeout that hit it. */
  lemma WokenTakeReturns(order: Order, prio: map<Tid, nat>, es: seq<Event>, t: Tid)
    ensures var s := Exec(order, Start(prio), es);
      var h := Past(order, prio, es);
      t in s.pc && s.pc[t].Woken? && t in h.visits ==>
        Step(order, s, Run(t)) == s.(pc := s.pc[t := Ready(if h.visits[t].moved == 1 then EOk else ETimeout)])
  {
    ReachTold(order, prio, es);
  }

  ghost predicate ServedFirst(order: Order, s: State, h: History, t: Tid) {
    Waits(s, t) && forall u :: Waits(s, u) && u != t ==> Before(order, s.m.prio, h.since, t, u)
  }

  lemma HeadServedFirst(order: Order, s: State, h: History, t: Tid)
    requires Inv(s) && OrderTold(order, s.m, h) && ServedFirst(order, s, h, t)
    ensures s.m.waiters != [] && s.m.waiters[0] == t
  {
    assert t in s.m.waiters;
    var w := s.m.waiters[0];
    assert w in s.m.waiters && Waits(s, w);
    assert w != t ==> Before(order, s.m.prio, h.since, t, w) && Before(order, s.m.prio, h.since, w, t);
  }

  /** After any run a release by anybody but the owner is an error and has no other effect. The
      owner's last release gives the mutex to the waiting thread to be served first and makes
      its take succeed, or to nobody if nobody waits. */
  lemma ReleaseServesFirst(order: Order, prio: map<Tid, nat>, es: seq<Event>, t: Tid)
    ensures var s := Exec(order, Start(prio), es);
      var h := Past(order, prio, es);
      var s1 := Step(order, s, Release(t));
      Calls(s, t) ==>
        && (h.holder != Owned(t) ==> s1 == s.(pc := s.pc[t := Ready(EError)]))
        && (h.holder == Owned(t) && h.given + 1 < h.taken ==> s1.m.prio == s.m.prio && s1.pc == s.pc[t := Ready(EOk)])
        && (h.holder == Owned(t) && h.given + 1 == h.taken ==>
              && (forall u :: ServedFirst(order, s, h, u) ==>
                    s1.m.owner == Owned(u) && s1.pc == s.pc[t := Ready(EOk)][u := Woken(EOk)])
              && ((forall u :: !Waits(s, u)) ==> s1.m.owner == Nobody && s1.pc == s.pc[t := Ready(EOk)]))
  {
    ReachTold(order, prio, es);
    var s := Exec(order, Start(prio), es);
    var h := Past(order, prio, es);
    forall u | ServedFirst(order, s, h, u) ensures s.m.waiters != [] && s.m.waiters[0] == u {
      HeadServedFirst(order, s, h, u);
    }
    if s.m.waiters != [] { assert Waits(s, s.m.waiters[0]); }
  }

  /** Over every run each take is answered by its own history, and the list is in order of
      service. */
  lemma TakesAnswered(order: Order, prio: map<Tid, nat>, es: seq<Event>)
    ensures var s := Exec(order, Start(prio), es);
      var h := Past(order, prio, es);
      && (forall t :: t in h.visits ==> t in s.pc && Accounted(s.pc[t], h.visits[t]))
      && InOrder(s.m.waiters, order, s.m.prio, h.since)
  {
    ReachTold(order, prio, es);
  }
}
