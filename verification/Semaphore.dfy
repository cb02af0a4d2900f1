/** The counting semaphore (src/ipc.c): direct hand-off to waiters, timeouts and reset. */
module Semaphore {
  import opened WaitList
  import opened CallHistory

  const VALUE_MAX: nat := 0xFFFF

  datatype Sem = Sem(value: nat, waiters: seq<Tid>)

  datatype TakeResult = Taken | NoWait | Suspended

  function TakeResultOf(m: Sem, time: int): TakeResult {
    if m.value > 0 then Taken else if time == 0 then NoWait else Suspended
  }

  function TakeIt(m: Sem, order: Order, prio: map<Tid, nat>, t: Tid, time: int): Sem {
    match TakeResultOf(m, time)
    case Taken => m.(value := m.value - 1)
    case NoWait => m
    case Suspended => m.(waiters := Enqueue(m.waiters, prio, order, t))
  }

  function ReleaseIt(m: Sem): Sem {
    if m.waiters != [] then m.(waiters := m.waiters[1..])
    else if m.value < VALUE_MAX then m.(value := m.value + 1)
    else m
  }

  predicate ReleaseFails(m: Sem) {
    m.waiters == [] && m.value >= VALUE_MAX
  }

  class SemaphoreObject {
    const order: Order
    var value: nat
    var waiters: seq<Tid>

    ghost function View(): Sem
      reads this
    {
      Sem(value, waiters)
    }

    constructor (value: nat, order: Order)
      requires value <= VALUE_MAX
      ensures View() == Sem(value, []) && this.order == order
    {
      this.value := value;
      this.order := order;
      waiters := [];
    }

    method Take(thread: Tid, time: int, prio: map<Tid, nat>) returns (r: TakeResult)
      modifies this
      ensures View() == TakeIt(old(View()), order, prio, thread, time) && r == TakeResultOf(old(View()), time)
    {
      if value > 0 {
        value := value - 1;
        return Taken;
      }
      if time == 0 { return NoWait; }
      waiters := SuspendOn(waiters, prio, order, thread);
      return Suspended;
    }

    method Release() returns (err: Outcome, woken: seq<Tid>)
      modifies this
      ensures View() == ReleaseIt(old(View()))
      ensures err == if ReleaseFails(old(View())) then EFull else EOk
      ensures woken == if old(waiters) == [] then [] else [old(waiters)[0]]
    {
      woken := [];
      if waiters != [] {
        woken := [waiters[0]];
        waiters := waiters[1..];
      } else {
        if value < VALUE_MAX {
          value := value + 1;
        } else {
          return EFull, woken;
        }
      }
      err := EOk;
    }

    /** rt_sem_control(RESET): the new value is truncated to 16 bits. */
    method Reset(v: nat) returns (woken: seq<Tid>)
      modifies this
      ensures View() == Sem(v % (VALUE_MAX + 1), []) && woken == old(waiters)
    {
      woken := [];
      while waiters != []
        invariant woken + waiters == old(waiters)
        decreases |waiters|
      {
        woken := woken + [waiters[0]];
        waiters := waiters[1..];
      }
      value := v % (VALUE_MAX + 1);
    }
  }

  // ------------------------------------------------------------------ the protocol

  datatype Pc = Ready(last: Outcome) | Waiting(time: int) | Woken(err: Outcome)

  datatype State = State(m: Sem, pc: map<Tid, Pc>)

  datatype Config = Config(order: Order, prio: map<Tid, nat>)

  datatype Event =
    | Take(t: Tid, time: int)
    | Release                            // from any thread or interrupt handler
    | Expire(t: Tid)
    | Run(t: Tid)
    | Reset(v: nat)

  function Step(c: Config, s: State, e: Event): State {
    match e
    case Take(t, time) =>
      if t !in s.pc || !s.pc[t].Ready? then s
      else
        State(TakeIt(s.m, c.order, c.prio, t, time),
              match TakeResultOf(s.m, time)
              case Taken => s.pc[t := Ready(EOk)]
              case NoWait => s.pc[t := Ready(ETimeout)]
              case Suspended => s.pc[t := Waiting(time)])
    case Release =>
      if ReleaseFails(s.m) then s
      else if s.m.waiters == [] then s.(m := ReleaseIt(s.m))
      else State(ReleaseIt(s.m), s.pc[s.m.waiters[0] := Woken(EOk)])
    case Expire(t) =>
      if t in s.pc && s.pc[t].Waiting? && s.pc[t].time > 0
      then State(s.m.(waiters := Without(s.m.waiters, t)), s.pc[t := Woken(ETimeout)]) else s
    case Run(t) =>
      if t in s.pc && s.pc[t].Woken? then s.(pc := s.pc[t := Ready(s.pc[t].err)]) else s
    case Reset(v) =>
      State(Sem(v % (VALUE_MAX + 1), []), map t | t in s.pc :: if t in s.m.waiters then Woken(EError) else s.pc[t])
  }

  function Exec(c: Config, s: State, es: seq<Event>): State
    decreases |es|
  {
    if es == [] then s else Exec(c, Step(c, s, es[0]), es[1..])
  }

  function Start(threads: set<Tid>, value: nat): State {
    State(Sem(value, []), map t | t in threads :: Ready(EOk))
  }

  ghost predicate Inv(s: State) {
    && s.m.value <= VALUE_MAX
    && (s.m.waiters != [] ==> s.m.value == 0)
    && NoDup(s.m.waiters) && (forall t :: t in s.m.waiters <==> t in s.pc && s.pc[t].Waiting?)
  }

  lemma TakeInv(c: Config, s: State, t: Tid, time: int)
    requires Inv(s)
    ensures Inv(Step(c, s, Take(t, time)))
  {
    if t in s.pc && s.pc[t].Ready? && TakeResultOf(s.m, time).Suspended? { SuspendInv(c, s, t, time); }
  }

  lemma SuspendInv(c: Config, s: State, t: Tid, time: int)
    requires Inv(s) && t in s.pc && s.pc[t].Ready? && s.m.value == 0
    ensures Inv(State(s.m.(waiters := Enqueue(s.m.waiters, c.prio, c.order, t)), s.pc[t := Waiting(time)]))
  {
    var w1, pc1 := Enqueue(s.m.waiters, c.prio, c.order, t), s.pc[t := Waiting(time)];
    EnqueueMembers(s.m.waiters, c.prio, c.order, t);
    forall u ensures u in w1 <==> u in pc1 && pc1[u].Waiting? {}
  }

  lemma ReleaseInv(c: Config, s: State)
    requires Inv(s)
    ensures Inv(Step(c, s, Release))
  {
    if s.m.waiters != [] {
      var s1 := Step(c, s, Release);
      var w := s.m.waiters[0];
      assert w in s.m.waiters && w !in s.m.waiters[1..];
      assert forall u :: u in s.m.waiters <==> u == w || u in s.m.waiters[1..];
      forall u ensures u in s1.m.waiters <==> u in s1.pc && s1.pc[u].Waiting? {}
    }
  }

  lemma ExpireInv(c: Config, s: State, t: Tid)
    requires Inv(s)
    ensures Inv(Step(c, s, Expire(t)))
  {
    var s1 := Step(c, s, Expire(t));
    if s1 != s {
      WithoutNoDup(s.m.waiters, t);
      forall u ensures u in s1.m.waiters <==> u in s1.pc && s1.pc[u].Waiting? {}
    }
  }

  lemma StepInv(c: Config, s: State, e: Event)
    requires Inv(s)
    ensures Inv(Step(c, s, e))
  {
    match e
    case Take(t, time) => TakeInv(c, s, t, time);
    case Release => ReleaseInv(c, s);
    case Expire(t) => ExpireInv(c, s, t);
    case Run(t) =>
    case Reset(v) =>
  }

  // -------------------------------------------------- the history of tokens and takes

  /** `base` is the value set last, by the init or a reset; `released` and `granted` count the
      releases that succeeded and the takes that were granted a token since then; `now` counts
      events, and `since` tells when each thread last began to wait. */
  datatype History = History(base: nat, released: nat, granted: nat, now: nat, since: map<Tid, nat>,
                             visits: Visits<()>)

  predicate Waits(s: State, t: Tid) {
    t in s.pc && s.pc[t].Waiting?
  }

  function Sleepers(s: State): set<Tid> {
    set t | t in s.pc && s.pc[t].Waiting?
  }

  /** Threads whose wait ends with success at this step. */
  function Admitted(s: State, s1: State): set<Tid> {
    set t | t in s.pc && Waits(s, t) && t in s1.pc && s1.pc[t] == Woken(EOk)
  }

  /** What the event and the answers add to the history. A release fails if it has no effect. */
  function Note(h: History, s: State, e: Event, s1: State): History {
    var g := h.(now := h.now + 1);
    match e
    case Take(t, time) =>
      if t !in s.pc || !s.pc[t].Ready? || t !in s1.pc then g
      else
        var got := if s1.pc[t] == Ready(EOk) then 1 else 0;
        g.(granted := h.granted + got, visits := h.visits[t := Visit((), time, 0, EOk, got)],
           since := if Waits(s1, t) then h.since[t := h.now] else h.since)
    case Release =>
      if s1 == s then g
      else
        g.(released := h.released + 1, granted := h.granted + |Admitted(s, s1)|,
           visits := Credited(h.visits, Admitted(s, s1)))
    case Expire(t) =>
      if Waits(s, t) && t in h.visits && h.visits[t].time > 0 then g.(visits := Struck(h.visits, {t}, ETimeout)) else g
    case Run(t) => g
    case Reset(v) =>
      g.(base := v % 0x10000, released := 0, granted := 0,
         visits := Struck(h.visits, Sleepers(s), EError))
  }

  function Recall(c: Config, s: State, h: History, es: seq<Event>): History
    decreases |es|
  {
    if es == [] then h
    else Recall(c, Step(c, s, es[0]), Note(h, s, es[0], Step(c, s, es[0])), es[1..])
  }

  function Blank(value: nat): History {
    History(value, 0, 0, 0, map[], map[])
  }

  /** What a thread's state says about its call. */
  predicate Accounted(p: Pc, v: Visit<()>) {
    match p
    case Ready(EOk) => v.moved == 1
    case Ready(err) => MayFail(v, err, ETimeout)
    case Waiting(time) => OnWait(v, time)
    case Woken(EOk) => v.moved == 1 && v.hit == EOk
    case Woken(err) => MayFail(v, err, ETimeout) && v.hit == err
  }

  ghost predicate Told(c: Config, s: State, h: History) {
    && h.base + h.released == s.m.value + h.granted
    && InOrder(s.m.waiters, c.order, c.prio, h.since) && AllBefore(h.since, h.now)
    && (forall t :: t in h.visits ==> t in s.pc && Accounted(s.pc[t], h.visits[t]))
    && (forall t :: Waits(s, t) ==> t in h.visits)
  }

  lemma TakeTold(c: Config, s: State, h: History, t: Tid, time: int)
    requires Inv(s) && Told(c, s, h)
    ensures var s1 := Step(c, s, Take(t, time)); Told(c, s1, Note(h, s, Take(t, time), s1))
  {
    if t in s.pc && s.pc[t].Ready? && TakeResultOf(s.m, time).Suspended? {
      EnqueueInOrder(s.m.waiters, c.prio, c.order, t, h.since, h.now);
    }
  }

  lemma ReleaseTold(c: Config, s: State, h: History)
    requires Inv(s) && Told(c, s, h)
    ensures var s1 := Step(c, s, Release); Told(c, s1, Note(h, s, Release, s1))
  {
    var s1 := Step(c, s, Release);
    if s.m.waiters != [] {
      var w := s.m.waiters[0];
      assert Waits(s, w);
      assert Admitted(s, s1) == {w};
    } else {
      assert Admitted(s, s1) == {};
    }
  }

  lemma ExpireTold(c: Config, s: State, h: History, t: Tid)
    requires Inv(s) && Told(c, s, h)
    ensures var s1 := Step(c, s, Expire(t)); Told(c, s1, Note(h, s, Expire(t), s1))
  {
    WithoutInOrder(s.m.waiters, c.order, c.prio, h.since, t);
  }

  lemma StepTold(c: Config, s: State, h: History, e: Event)
    requires Inv(s) && Told(c, s, h)
    ensures Told(c, Step(c, s, e), Note(h, s, e, Step(c, s, e)))
  {
    match e
    case Take(t, time) => TakeTold(c, s, h, t, time);
    case Release => ReleaseTold(c, s, h);
    case Expire(t) => ExpireTold(c, s, h, t);
    case Run(t) =>
    case Reset(v) =>
  }

  lemma {:induction false} ExecTold(c: Config, s: State, h: History, es: seq<Event>)
    requires Inv(s) && Told(c, s, h)
    ensures Inv(Exec(c, s, es)) && Told(c, Exec(c, s, es), Recall(c, s, h, es))
    decreases |es|
  {
    if es != [] {
      StepInv(c, s, es[0]);
      StepTold(c, s, h, es[0]);
      ExecTold(c, Step(c, s, es[0]), Note(h, s, es[0], Step(c, s, es[0])), es[1..]);
    }
  }

  /** Token conservation over every run: what was put in since the last reset is still in the
      value or was granted, and somebody waits only while the value is 0. */
  lemma TokensConserved(c: Config, threads: set<Tid>, value: nat, es: seq<Event>)
    requires value <= VALUE_MAX
    ensures var s := Exec(c, Start(threads, value), es);
      var h := Recall(c, Start(threads, value), Blank(value), es);
      && h.base + h.released == s.m.value + h.granted
      && ((exists t :: t in s.pc && s.pc[t].Waiting?) ==> s.m.value == 0)
  {
    ExecTold(c, Start(threads, value), Blank(value), es);
  }

  /** Over every run each take is answered by its own history: success exactly when it was
      granted one token, otherwise none was granted and it was hit by a reset, or by a timeout
      it had asked for, or it had asked not to wait. A take without a time limit keeps waiting
      until one of these happens. The list is in order of service. */
  lemma TakesAnswered(c: Config, threads: set<Tid>, value: nat, es: seq<Event>)
    requires value <= VALUE_MAX
    ensures var s := Exec(c, Start(threads, value), es);
      var h := Recall(c, Start(threads, value), Blank(value), es);
      && (forall t :: t in h.visits ==> t in s.pc && Accounted(s.pc[t], h.visits[t]))
      && InOrder(s.m.waiters, c.order, c.prio, h.since)
  {
    ExecTold(c, Start(threads, value), Blank(value), es);
  }

  /** After any run a take is granted at once exactly while tokens are left. Otherwise it fails
      at once if it asked not to wait, and waits if it asked for any other time. */
  lemma TakeAtOnceIff(c: Config, threads: set<Tid>, value: nat, es: seq<Event>, t: Tid, time: int)
    requires value <= VALUE_MAX
    ensures var s := Exec(c, Start(threads, value), es);
      var h := Recall(c, Start(threads, value), Blank(value), es);
      var s1 := Step(c, s, Take(t, time));
      t in s.pc && s.pc[t].Ready? ==>
        && (h.base + h.released > h.granted ==> s1.pc[t] == Ready(EOk))
        && (h.base + h.released == h.granted ==> s1.pc[t] == if time == 0 then Ready(ETimeout) else Waiting(time))
        && forall u :: u in s.pc && u != t ==> u in s1.pc && s1.pc[u] == s.pc[u]
  {
    ExecTold(c, Start(threads, value), Blank(value), es);
  }

  /** After any run a woken thread that is scheduled returns from its take: with success if it was
      granted a token, otherwise with the timeout or the reset that hit it. */
  lemma WokenTakeReturns(c: Config, threads: set<Tid>, value: nat, es: seq<Event>, t: Tid)
    requires value <= VALUE_MAX
    ensures var s := Exec(c, Start(threads, value), es);
      var h := Recall(c, Start(threads, value), Blank(value), es);
      t in s.pc && s.pc[t].Woken? && t in h.visits ==>
        Step(c, s, Run(t)) == s.(pc := s.pc[t := Ready(if h.visits[t].moved == 1 then EOk else h.visits[t].hit)])
  {
    ExecTold(c, Start(threads, value), Blank(value), es);
  }

  ghost predicate ServedFirst(c: Config, s: State, h: History, t: Tid) {
    Waits(s, t) && forall u :: Waits(s, u) && u != t ==> Before(c.order, c.prio, h.since, t, u)
  }

  lemma HeadServedFirst(c: Config, s: State, h: History, t: Tid)
    requires Inv(s) && InOrder(s.m.waiters, c.order, c.prio, h.since) && ServedFirst(c, s, h, t)
    ensures s.m.waiters != [] && s.m.waiters[0] == t && Without(s.m.waiters, t) == s.m.waiters[1..]
  {
    assert t in s.m.waiters;
    WithoutAt(s.m.waiters, 0);
    var w := s.m.waiters[0];
    assert Waits(s, w);
    assert w != t ==> Before(c.order, c.prio, h.since, t, w) && Before(c.order, c.prio, h.since, w, t);
  }

  /** After any run a release wakes, of all waiting threads, the one to be served first. With
      nobody waiting it adds a token, unless 65535 are there: then it fails. */
  lemma ReleaseServesFirst(c: Config, threads: set<Tid>, value: nat, es: seq<Event>)
    requires value <= VALUE_MAX
    ensures var s := Exec(c, Start(threads, value), es);
      var h := Recall(c, Start(threads, value), Blank(value), es);
      var s1 := Step(c, s, Release);
      && (forall t :: ServedFirst(c, s, h, t) ==> s1 == State(Sem(0, Without(s.m.waiters, t)), s.pc[t := Woken(EOk)]))
      && ((forall t :: !Waits(s, t)) ==>
            s1 == if s.m.value == 65535 then s else s.(m := Sem(s.m.value + 1, [])))
      && (ReleaseFails(s.m) <==> s1 == s) && (ReleaseFails(s.m) ==> ReleaseIt(s.m) == s.m)
  {
    ExecTold(c, Start(threads, value), Blank(value), es);
    var s := Exec(c, Start(threads, value), es);
    var h := Recall(c, Start(threads, value), Blank(value), es);
    forall t | ServedFirst(c, s, h, t)
      ensures Step(c, s, Release) == State(Sem(0, Without(s.m.waiters, t)), s.pc[t := Woken(EOk)])
    {
      HeadServedFirst(c, s, h, t);
    }
    if s.m.waiters != [] { assert Waits(s, s.m.waiters[0]); }
  }

  /** Event `e` ends the wait of `t`: it takes exactly that thread off the list; a grant pairs it
      with one release, and a timeout moves no token. */
  ghost predicate EndsWait(c: Config, s: State, e: Event, t: Tid) {
    var s1 := Step(c, s, e);
    && t in s1.pc && t !in s1.m.waiters && s1.pc[t].Woken?
    && (s1.pc[t].err == EOk <==> e == Release && s.m.waiters != [] && s.m.waiters[0] == t)
    && (s1.pc[t].err == EOk ==> s1.m.value == s.m.value)
    && (s1.pc[t].err == ETimeout <==> e == Expire(t))
    && (s1.pc[t].err == ETimeout ==> s1.m.value == s.m.value)
    && (s1.pc[t].err != EOk && s1.pc[t].err != ETimeout ==> e.Reset?)
  }

  lemma StepOfWaiter(c: Config, s: State, e: Event, t: Tid)
    requires Inv(s) && Waits(s, t)
    ensures if Waits(Step(c, s, e), t) then Step(c, s, e).pc[t] == s.pc[t] else EndsWait(c, s, e, t)
  {
  }

  /** The number of events that leave the wait of `t` as it is. */
  function Waited(c: Config, s: State, es: seq<Event>, t: Tid): (n: nat)
    ensures n <= |es|
    decreases |es|
  {
    if es == [] || !Waits(Step(c, s, es[0]), t) then 0 else 1 + Waited(c, Step(c, s, es[0]), es[1..], t)
  }

  lemma ExecPrefix(c: Config, s: State, es: seq<Event>, i: nat)
    requires 0 < i <= |es|
    ensures Exec(c, s, es[..i]) == Exec(c, Step(c, s, es[0]), es[1..][..i - 1])
  {
    assert es[..i][1..] == es[1..][..i - 1];
  }

  lemma {:induction false} WokenStays(c: Config, s: State, es: seq<Event>, t: Tid)
    requires Inv(s) && t in s.pc && s.pc[t].Woken? && Run(t) !in es
    ensures t in Exec(c, s, es).pc && Exec(c, s, es).pc[t] == s.pc[t]
    decreases |es|
  {
    if es != [] {
      assert es == [es[0]] + es[1..];
      StepInv(c, s, es[0]);
      WokenStays(c, Step(c, s, es[0]), es[1..], t);
    }
  }

  /** What a whole wait looks like, from the suspension of `t` until it runs again. */
  ghost predicate OneWait(c: Config, s: State, es: seq<Event>, t: Tid)
    requires t in s.pc
  {
    var n := Waited(c, s, es, t);
    && (forall i :: 0 <= i <= n ==> t in Exec(c, s, es[..i]).pc && Exec(c, s, es[..i]).pc[t] == s.pc[t])
    && (n < |es| ==>
          var m := Exec(c, s, es[..n]);
          && EndsWait(c, m, es[n], t)
          && forall i :: n < i <= |es| ==>
            t in Exec(c, s, es[..i]).pc && Exec(c, s, es[..i]).pc[t] == Step(c, m, es[n]).pc[t])
  }

  /** Over every run of a suspended thread that has not run again: up to some event it waits, that
      event ends the wait in exactly one of the three ways, and from then on nothing changes
      what the take will return. */
  lemma {:induction false} WaitEndsOnce(c: Config, s: State, es: seq<Event>, t: Tid)
    requires Inv(s) && Waits(s, t) && Run(t) !in es
    ensures OneWait(c, s, es, t)
    decreases |es|
  {
    if es == [] {
      assert es[..0] == [];
    } else {
      var s1, rest := Step(c, s, es[0]), es[1..];
      assert es == [es[0]] + rest && es[..0] == [];
      StepInv(c, s, es[0]);
      StepOfWaiter(c, s, es[0], t);
      forall i | 0 < i <= |es| ensures Exec(c, s, es[..i]) == Exec(c, s1, rest[..i - 1]) { ExecPrefix(c, s, es, i); }
      if Waits(s1, t) {
        WaitEndsOnce(c, s1, rest, t);
      } else {
        forall i | 0 < i <= |es| ensures t in Exec(c, s, es[..i]).pc && Exec(c, s, es[..i]).pc[t] == s1.pc[t] {
          WokenStays(c, s1, rest[..i - 1], t);
        }
      }
    }
  }
}
