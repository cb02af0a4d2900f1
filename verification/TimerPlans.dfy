/** What callers may expect of timers, without rows, places and wrapping ticks: a map from timers
    to what was asked of them. The timer list does exactly that, over every run. */
module TimerPlans {
  import opened SkipList
  import opened TickTime
  import T = Timers

  /** When a started timer shall fire; `order` is the number of its start. */
  datatype When = Never | At(tick: nat, order: nat)

  /** `every` is the duration asked for, `again` the mode. */
  datatype Plan = Plan(every: nat, again: bool, due: When)

  datatype Book = Book(clock: nat, plans: map<Id, Plan>, starts: nat, log: seq<T.Firing>)

  // ------------------------------------------------------------ what is asked

  function StartPlan(b: Book, x: Id): Book
    requires x in b.plans
  {
    var p := b.plans[x];
    b.(plans := b.plans[x := p.(due := At(b.clock + p.every, b.starts))], starts := b.starts + 1)
  }

  function Ask(b: Book, op: T.Op): Book {
    if op.id !in b.plans then b
    else
      var x, p := op.id, b.plans[op.id];
      match op
      case Start(_) => StartPlan(b, x)
      case Stop(_) => b.(plans := b.plans[x := p.(due := Never)])
      case SetTime(_, d) => if 1 <= d < 0x7FFF_FFFF then b.(plans := b.plans[x := p.(every := d)]) else b
      case SetPeriodic(_, on) => b.(plans := b.plans[x := p.(again := on)])
  }

  function AskAll(b: Book, ops: seq<T.Op>): Book
    decreases |ops|
  {
    if ops == [] then b else AskAll(Ask(b, ops[0]), ops[1..])
  }

  predicate DueNow(b: Book, x: Id) {
    x in b.plans && b.plans[x].due.At? && b.plans[x].due.tick == b.clock
  }

  /** Of the timers due now, the one started first. */
  ghost predicate IsNext(b: Book, x: Id) {
    DueNow(b, x) && forall y :: DueNow(b, y) && y != x ==> b.plans[x].due.order < b.plans[y].due.order
  }

  /** The firing of timer `x`, which is no longer due, on the record. */
  function Noted(b: Book, x: Id): Book
    requires DueNow(b, x)
  {
    var p := b.plans[x];
    b.(plans := b.plans[x := p.(due := Never)], log := b.log + [T.Firing(x, b.clock, p.due.tick, p.due.order)])
  }

  /** Timer `x` fires: its callback is run, and if it was periodic before and still is, and the
      callback has neither started nor stopped it, it is started again. */
  function Fire(b: Book, x: Id, ops: seq<T.Op>): Book
    requires DueNow(b, x)
  {
    var b1 := AskAll(Noted(b, x), ops);
    if b.plans[x].again && !T.StartsOrStops(ops, x) && x in b1.plans && b1.plans[x].again then StartPlan(b1, x) else b1
  }

  function Due(b: Book): set<Id> {
    set x | x in b.plans && DueNow(b, x)
  }

  /** No timer may be due the moment it is started. */
  ghost predicate Sensible(b: Book) {
    forall x :: x in b.plans ==> b.plans[x].every >= 1
  }

  lemma AskShrinksDue(b: Book, op: T.Op)
    requires Sensible(b)
    ensures var b1 := Ask(b, op);
      Sensible(b1) && Due(b1) <= Due(b) && b1.clock == b.clock && b1.plans.Keys == b.plans.Keys
  {
  }

  lemma {:induction false} AskAllShrinksDue(b: Book, ops: seq<T.Op>)
    requires Sensible(b)
    ensures var b1 := AskAll(b, ops);
      Sensible(b1) && Due(b1) <= Due(b) && b1.clock == b.clock && b1.plans.Keys == b.plans.Keys
    decreases |ops|
  {
    if ops != [] {
      AskShrinksDue(b, ops[0]);
      AskAllShrinksDue(Ask(b, ops[0]), ops[1..]);
    }
  }

  lemma FireShrinksDue(b: Book, x: Id, ops: seq<T.Op>)
    requires Sensible(b) && DueNow(b, x)
    ensures Sensible(Fire(b, x, ops)) && Due(Fire(b, x, ops)) < Due(b)
  {
    var b0 := Noted(b, x);
    assert x in Due(b) && x !in Due(b0) && Due(b0) <= Due(b);
    AskAllShrinksDue(b0, ops);
    var b1 := AskAll(b0, ops);
    assert x in b1.plans ==> Due(StartPlan(b1, x)) <= Due(b1);
  }

  /** The timers due now fire one after the other, in the order of their starts. */
  ghost function FireDue(b: Book, cb: T.Callbacks): Book
    requires Sensible(b)
    decreases |Due(b)|
  {
    if x :| IsNext(b, x) then
      FireShrinksDue(b, x, T.OpsOf(cb, x));
      T.SmallerSet(Due(Fire(b, x, T.OpsOf(cb, x))), Due(b));
      FireDue(Fire(b, x, T.OpsOf(cb, x)), cb)
    else b
  }

  ghost function Step(b: Book, e: T.Event): Book
    requires Sensible(b)
  {
    match e
    case Tick(cb) => FireDue(b.(clock := b.clock + 1), cb)
    case Call(op) => Ask(b, op)
  }

  // ------------------------------------------------------ what the timer list does

  function WhenOf(s: T.State, x: Id): When {
    if x in T.Active(s) then At(T.TimerOf(s.tm, x).due, T.TimerOf(s.tm, x).order) else Never
  }

  function BookOf(s: T.State): Book {
    Book(s.clock, map x | x in s.tm :: Plan(s.tm[x].init, s.tm[x].periodic, WhenOf(s, x)), s.starts, s.log)
  }

  lemma SensibleBook(s: T.State)
    requires T.Inv(s)
    ensures Sensible(BookOf(s))
  {
    forall x | x in s.tm ensures s.tm[x].init >= 1 { assert T.Fits(s.tm[x]); }
  }

  lemma BookIs(s: T.State, b: Book)
    requires b.clock == s.clock && b.starts == s.starts && b.log == s.log && b.plans.Keys == s.tm.Keys
    requires forall y :: y in s.tm ==> b.plans[y] == Plan(s.tm[y].init, s.tm[y].periodic, WhenOf(s, y))
    ensures BookOf(s) == b
  {
    assert BookOf(s).plans == b.plans;
  }

  lemma StartedIs(s: T.State, x: Id)
    requires x in s.tm && |s.rows| >= 1
    ensures var s1 := T.Started(s, x);
      && s1.clock == s.clock && s1.starts == s.starts + 1 && s1.log == s.log
      && s1.tm == s.tm[x := s.tm[x].(active := true, due := s.clock + s.tm[x].init, order := s.starts)]
  {
  }

  lemma StartRefines(s: T.State, x: Id)
    requires x in s.tm && |s.rows| >= 1
    ensures BookOf(T.Started(s, x)) == StartPlan(BookOf(s), x)
  {
    StartedIs(s, x);
    forall y ensures y in T.Active(T.Started(s, x)) <==> y == x || y in T.Active(s) { T.StartMembers(s, x, y); }
    StartBook(s, T.Started(s, x), x);
  }

  lemma StartBook(s: T.State, s1: T.State, x: Id)
    requires x in s.tm && s1.clock == s.clock && s1.starts == s.starts + 1 && s1.log == s.log
    requires s1.tm == s.tm[x := s.tm[x].(active := true, due := s.clock + s.tm[x].init, order := s.starts)]
    requires forall y :: y in T.Active(s1) <==> y == x || y in T.Active(s)
    ensures BookOf(s1) == StartPlan(BookOf(s), x)
  {
    BookIs(s1, StartPlan(BookOf(s), x));
  }

  lemma StopRefines(s: T.State, x: Id)
    requires T.Inv(s) && x in s.tm
    ensures BookOf(T.Stopped(s, x)) == Ask(BookOf(s), T.Stop(x))
  {
    if s.tm[x].active { T.UnlinkMembers(s, x); } else { assert x in T.Active(s) ==> T.LinkedOk(s, x); }
    StopPlan(s, T.Stopped(s, x), x);
  }

  lemma StopPlan(s: T.State, s1: T.State, x: Id)
    requires x in s.tm && s1.clock == s.clock && s1.starts == s.starts && s1.log == s.log
    requires x in s1.tm && s1.tm == s.tm[x := s.tm[x].(active := s1.tm[x].active)]
    requires forall y :: y in T.Active(s1) <==> y in T.Active(s) && y != x
    ensures BookOf(s1) == Ask(BookOf(s), T.Stop(x))
  {
    BookIs(s1, Ask(BookOf(s), T.Stop(x)));
  }

  lemma DoRefines(s: T.State, op: T.Op)
    requires T.Inv(s)
    ensures BookOf(T.Do(s, op)) == Ask(BookOf(s), op)
  {
    if op.id in s.tm {
      match op
      case Start(x) => StartRefines(s, x);
      case Stop(x) => StopRefines(s, x);
      case SetTime(x, d) => assert BookOf(T.Do(s, op)).plans == Ask(BookOf(s), op).plans;
      case SetPeriodic(x, on) => assert BookOf(T.Do(s, op)).plans == Ask(BookOf(s), op).plans;
    }
  }

  lemma {:induction false} DoAllRefines(s: T.State, ops: seq<T.Op>)
    requires T.Inv(s)
    ensures BookOf(T.DoAll(s, ops)) == AskAll(BookOf(s), ops)
    decreases |ops|
  {
    if ops != [] {
      T.DoInv(s, ops[0]);
      DoRefines(s, ops[0]);
      DoAllRefines(T.Do(s, ops[0]), ops[1..]);
    }
  }

  /** The head of the last row is the next timer to fire, and nobody else is. */
  lemma HeadIsNext(s: T.State, x: Id)
    requires T.Inv(s)
    ensures IsNext(BookOf(s), x) <==> T.HeadExpired(s) && x == T.Active(s)[0]
  {
    var b, row := BookOf(s), T.Active(s);
    if row != [] {
      T.ExpiredIffDue(s);
      var h := row[0];
      assert h in row;
      forall y | DueNow(b, y) && y != h ensures T.HeadExpired(s) && b.plans[h].due.order < b.plans[y].due.order {
        assert T.LinkedOk(s, h);
        var k := T.PositionOf(row, y);
        assert T.Earlier(T.TimerOf(s.tm, row[0]), T.TimerOf(s.tm, row[k]));
      }
      assert DueNow(b, h) <==> T.HeadExpired(s);
      assert T.HeadExpired(s) ==> IsNext(b, h);
      assert T.HeadExpired(s) ==> (IsNext(b, x) ==> x == h);
    }
  }

  lemma DetachRefines(s: T.State)
    requires T.Inv(s) && s.temp == ListHead && T.HeadExpired(s)
    ensures T.Active(s)[0] in s.tm && DueNow(BookOf(s), T.Active(s)[0])
    ensures BookOf(T.Detached(s)) == Noted(BookOf(s), T.Active(s)[0])
  {
    T.DetachInv(s);
    T.DetachShrinksDue(s);
    assert T.Active(s)[0] in T.Active(s);
    DetachPlan(s, T.Detached(s), T.Active(s)[0]);
  }

  lemma DetachPlan(s: T.State, s1: T.State, x: Id)
    requires x in s.tm && x in T.Active(s) && s.tm[x].due == s.clock && x in s1.tm
    requires s1.clock == s.clock && s1.starts == s.starts
    requires s1.log == s.log + [T.Firing(x, s.clock, s.tm[x].due, s.tm[x].order)]
    requires s1.tm == s.tm[x := s.tm[x].(active := s1.tm[x].active)]
    requires forall y :: y in T.Active(s1) <==> y in T.Active(s) && y != x
    ensures DueNow(BookOf(s), x) && BookOf(s1) == Noted(BookOf(s), x)
  {
    BookIs(s1, Noted(BookOf(s), x));
  }

  /** One round of the drain loop is the firing of the next timer. */
  lemma FireRefines(s: T.State, cb: T.Callbacks)
    requires T.Inv(s) && s.temp == ListHead && T.HeadExpired(s)
    ensures T.Active(s)[0] in s.tm && DueNow(BookOf(s), T.Active(s)[0])
    ensures BookOf(T.Fired(s, cb)) == Fire(BookOf(s), T.Active(s)[0], T.OpsOf(cb, T.Active(s)[0]))
  {
    var x := T.Active(s)[0];
    var ops := T.OpsOf(cb, x);
    DetachRefines(s);
    T.DetachInv(s);
    assert x in T.Active(s) && T.LinkedOk(s, x);
    var s0 := T.Detached(s);
    DoAllRefines(s0, ops);
    T.DoAllInv(s0, ops);
    T.DoAllShrinksDue(s0, ops);
    if s.tm[x].periodic { T.CallbackOfActive(s0, ops, x); } else { T.CallbackOfInactive(s0, ops, x); }
    FinishRefines(T.DoAll(s0, ops), x);
    ModeRefines(BookOf(s0), ops, x);
  }

  lemma {:induction false} ModeRefines(b: Book, ops: seq<T.Op>, x: Id)
    requires x in b.plans
    ensures x in AskAll(b, ops).plans && AskAll(b, ops).plans[x].again == T.ModeAfter(ops, x, b.plans[x].again)
    decreases |ops|
  {
    if ops != [] { ModeRefines(Ask(b, ops[0]), ops[1..], x); }
  }

  lemma FinishRefines(s: T.State, x: Id)
    requires T.Inv(s) && (s.temp == ListHead || s.temp == Node(x))
    ensures var again := s.temp == Node(x) && x in s.tm && s.tm[x].periodic && s.tm[x].active;
      BookOf(T.Finished(s, x)) == if again then StartPlan(BookOf(s), x) else BookOf(s)
  {
    var s1 := s.(temp := ListHead);
    assert BookOf(s1) == BookOf(s);
    if s.temp == Node(x) && x in s.tm && s.tm[x].periodic && s.tm[x].active {
      T.TempCleared(s);
      StartRefines(s1, x);
    }
  }

  lemma {:induction false} DrainRefines(s: T.State, cb: T.Callbacks)
    requires T.Inv(s) && s.temp == ListHead
    ensures Sensible(BookOf(s)) && BookOf(T.Drained(s, cb)) == FireDue(BookOf(s), cb)
    decreases |T.DueNow(s)|
  {
    SensibleBook(s);
    forall x ensures IsNext(BookOf(s), x) <==> T.HeadExpired(s) && x == T.Active(s)[0] { HeadIsNext(s, x); }
    if T.HeadExpired(s) {
      var x := T.Active(s)[0];
      T.FireInv(s, cb);
      T.SmallerSet(T.DueNow(T.Fired(s, cb)), T.DueNow(s));
      FireRefines(s, cb);
      DrainRefines(T.Fired(s, cb), cb);
      assert IsNext(BookOf(s), x);
    }
  }

  lemma StepRefines(s: T.State, e: T.Event)
    requires T.Rest(s)
    ensures Sensible(BookOf(s)) && BookOf(T.Step(s, e)) == Step(BookOf(s), e)
  {
    SensibleBook(s);
    match e
    case Tick(cb) =>
      T.TickInv(s);
      assert BookOf(T.Ticked(s)) == BookOf(s).(clock := s.clock + 1);
      DrainRefines(T.Ticked(s), cb);
    case Call(op) => DoRefines(s, op);
  }

  /** `bs` are the books of a run: one more than events, each the step of the one before. */
  ghost predicate Kept(bs: seq<Book>, es: seq<T.Event>) {
    && |bs| == |es| + 1
    && forall i :: 0 <= i < |es| ==> Sensible(bs[i]) && bs[i + 1] == Step(bs[i], es[i])
  }

  ghost function Books(s: T.State, es: seq<T.Event>): (bs: seq<Book>)
    requires T.Rest(s)
    ensures |bs| == |es| + 1
    decreases |es|
  {
    [BookOf(s)] + if es == [] then [] else Books(T.Step(s, es[0]), es[1..])
  }

  /** Over every run of ticks, callbacks and calls, the timer list does what the plain book of plans
      says: the same timers are due at the same ticks, and the same firings have happened, in
      the same order. */
  lemma {:induction false} TimersFollowPlans(s: T.State, es: seq<T.Event>)
    requires T.Rest(s)
    ensures Kept(Books(s, es), es)
    ensures Books(s, es)[0] == BookOf(s) && Books(s, es)[|es|] == BookOf(T.Exec(s, es))
    decreases |es|
  {
    if es != [] {
      var s1 := T.Step(s, es[0]);
      StepRefines(s, es[0]);
      TimersFollowPlans(s1, es[1..]);
      var bs, rest := Books(s, es), Books(s1, es[1..]);
      forall i | 0 <= i < |es| ensures Sensible(bs[i]) && bs[i + 1] == Step(bs[i], es[i]) {
        if i > 0 { assert bs[i] == rest[i - 1] && bs[i + 1] == rest[i] && es[i] == es[1..][i - 1]; }
      }
    }
  }

  // ------------------------------------------------------- the counter of the starts

  ghost predicate Counts(s: T.State) {
    s.counter == s.starts % TICKS
  }

  lemma DoCounts(s: T.State, op: T.Op)
    requires |s.rows| >= 1 && Counts(s)
    ensures Counts(T.Do(s, op))
  {
    if op.Start? && op.id in s.tm { StartCounts(s, op.id); }
  }

  lemma StartCounts(s: T.State, x: Id)
    requires |s.rows| >= 1 && Counts(s) && x in s.tm
    ensures Counts(T.Started(s, x)) && T.Started(s, x).starts == s.starts + 1
  {
    assert (s.starts % TICKS + 1) % TICKS == (s.starts + 1) % TICKS;
  }

  lemma {:induction false} DoAllCounts(s: T.State, ops: seq<T.Op>)
    requires |s.rows| >= 1 && Counts(s)
    ensures Counts(T.DoAll(s, ops))
    decreases |ops|
  {
    if ops != [] {
      DoCounts(s, ops[0]);
      DoAllCounts(T.Do(s, ops[0]), ops[1..]);
    }
  }

  lemma {:induction false} DrainCounts(s: T.State, cb: T.Callbacks)
    requires T.Inv(s) && s.temp == ListHead && Counts(s)
    ensures Counts(T.Drained(s, cb))
    decreases |T.DueNow(s)|
  {
    if T.HeadExpired(s) {
      T.FireInv(s, cb);
      T.SmallerSet(T.DueNow(T.Fired(s, cb)), T.DueNow(s));
      var x := T.Active(s)[0];
      var s1 := T.DoAll(T.Detached(s), T.OpsOf(cb, x));
      DoAllCounts(T.Detached(s), T.OpsOf(cb, x));
      if x in s1.tm { StartCounts(s1.(temp := ListHead), x); }
      DrainCounts(T.Fired(s, cb), cb);
    }
  }

  lemma {:induction false} ExecCounts(s: T.State, es: seq<T.Event>)
    requires T.Rest(s) && Counts(s)
    ensures Counts(T.Exec(s, es))
    decreases |es|
  {
    if es != [] {
      match es[0]
      case Tick(cb) =>
        T.TickInv(s);
        DrainCounts(T.Ticked(s), cb);
        ExecCounts(T.Step(s, es[0]), es[1..]);
      case Call(op) =>
        DoCounts(s, op);
        ExecCounts(T.Step(s, es[0]), es[1..]);
    }
  }

  /** The next start enters more than `k` rows exactly if 4 to the power `k` divides its number. */
  ghost predicate NextHeightRight(s: T.State, x: Id, k: nat)
    requires x in s.tm && k < |s.rows|
  {
    var s1 := T.Started(s, x);
    s1.counter == s1.starts == s.starts + 1 && (Height(s1.counter, |s.rows|) > k <==> s1.starts % Pow4(k) == 0)
  }

  lemma NextHeight(s: T.State, x: Id, k: nat)
    requires Counts(s) && s.starts + 1 < TICKS && x in s.tm && 1 <= k < |s.rows|
    ensures NextHeightRight(s, x, k)
  {
    StartCounts(s, x);
    HeightIff(T.Started(s, x).counter, |s.rows|, k, 1);
  }

  /** Over every run the counter that chooses the heights counts the starts modulo 2^32: below that the
      n-th start enters more than `k` rows exactly if 4 to the power `k` divides n. */
  lemma HeightOfStart(tm: map<Id, T.Timer>, levels: nat, es: seq<T.Event>, x: Id, k: nat)
    requires levels >= 1 && forall y :: y in tm ==> T.Fits(tm[y]) && !tm[y].active
    ensures T.Rest(T.Boot(tm, levels))
    ensures var s := T.Exec(T.Boot(tm, levels), es);
      x in s.tm && 1 <= k < |s.rows| && s.starts + 1 < TICKS ==> NextHeightRight(s, x, k)
  {
    T.BootRest(tm, levels);
    ExecCounts(T.Boot(tm, levels), es);
    var s := T.Exec(T.Boot(tm, levels), es);
    if x in s.tm && 1 <= k < |s.rows| && s.starts + 1 < TICKS { NextHeight(s, x, k); }
  }
}
