/** Timers (src/timer.c, driven by src/clock.c): starting, stopping and the drain loop that
    fires expired timers on every tick. */
module Timers {
  import opened WaitList
  import opened SkipList
  import opened TickTime

  /** `init`, `periodic` and `active` are init_tick and the two flags. `due` and `order` are
      history variables: the absolute tick at which the timer shall fire and the number of its
      start. */
  datatype Timer = Timer(init: nat, periodic: bool, active: bool, due: nat, order: nat)

  datatype Firing = Firing(id: Id, at: nat, due: nat, order: nat)

  /** `clock` counts ticks without wrapping; rt_tick is `clock` modulo 2^32. `temp` is the
      temporary list of the drain loop, which holds the timer whose callback runs. */
  datatype State = State(clock: nat, rows: Rows, ticks: map<Id, nat>, tm: map<Id, Timer>, counter: nat,
                         temp: Head, starts: nat, log: seq<Firing>)

  /** What a callback, or code outside, does to timers. */
  datatype Op = Start(id: Id) | Stop(id: Id) | SetTime(id: Id, d: nat) | SetPeriodic(id: Id, on: bool)

  type Callbacks = map<Id, seq<Op>>

  function Now(s: State): (r: nat)
    ensures r < TICKS
  {
    s.clock % TICKS
  }

  function Active(s: State): seq<Id> {
    if |s.rows| == 0 then [] else Bottom(s.rows)
  }

  /** _rt_timer_remove, with the activated flag cleared. */
  function Unlinked(s: State, x: Id): State
    requires x in s.tm
  {
    s.(rows := RemovedFrom(s.rows, x), tm := s.tm[x := s.tm[x].(active := false)],
       temp := if s.temp == Node(x) then ListHead else s.temp)
  }

  /** The timeout tick of a start. */
  function StartTick(s: State, x: Id): (v: nat)
    requires x in s.tm
    ensures v < TICKS
  {
    (s.clock + s.tm[x].init) % TICKS
  }

  /** The insertion of rt_timer_start, at the places a linear search finds (DescentIsLinear). */
  function LinkedUp(s: State, x: Id): State
    requires x in s.tm && |s.rows| >= 1
  {
    var v := StartTick(s, x);
    var counter := (s.counter + 1) % TICKS;
    var ticks := s.ticks[x := v];
    s.(rows := Inserted(s.rows, ticks, x, v, Height(counter, |s.rows|)), ticks := ticks, counter := counter,
       tm := s.tm[x := s.tm[x].(active := true, due := s.clock + s.tm[x].init, order := s.starts)],
           starts := s.starts + 1)
  }

  /** rt_timer_start */
  function Started(s: State, x: Id): State
    requires x in s.tm && |s.rows| >= 1
  {
    LinkedUp(Unlinked(s, x), x)
  }

  /** rt_timer_stop */
  function Stopped(s: State, x: Id): State
    requires x in s.tm
  {
    if s.tm[x].active then Unlinked(s, x) else s
  }

  /** One operation. Durations outside 1 .. RT_TICK_MAX/2 - 1 are out of scope. */
  function Do(s: State, op: Op): State
    requires |s.rows| >= 1
  {
    if op.id !in s.tm then s
    else match op
      case Start(x) => Started(s, x)
      case Stop(x) => Stopped(s, x)
      case SetTime(x, d) => if 1 <= d < HALF then s.(tm := s.tm[x := s.tm[x].(init := d)]) else s
      case SetPeriodic(x, on) => s.(tm := s.tm[x := s.tm[x].(periodic := on)])
  }

  function DoAll(s: State, ops: seq<Op>): (r: State)
    requires |s.rows| >= 1
    ensures |r.rows| == |s.rows| && r.clock == s.clock
    decreases |ops|
  {
    if ops == [] then s else DoAll(Do(s, ops[0]), ops[1..])
  }

  /** The drain loop finds the first timer expired. */
  predicate HeadExpired(s: State) {
    Active(s) != [] && Diff(Now(s), TickOf(s.ticks, Active(s)[0])) < HALF
  }

  /** The first timer leaves the rows for the temporary list. */
  function Detached(s: State): State
    requires Active(s) != [] && Active(s)[0] in s.tm
  {
    var x := Active(s)[0];
    var t := s.tm[x];
    s.(rows := RemovedFrom(s.rows, x), tm := s.tm[x := t.(active := t.periodic && t.active)], temp := Node(x),
       log := s.log + [Firing(x, s.clock, t.due, t.order)])
  }

  /** After the callback: a timer still on the temporary list is started again if periodic. */
  function Finished(s: State, x: Id): State
    requires |s.rows| >= 1
  {
    if s.temp == ListHead then s
    else
      var s1 := s.(temp := ListHead);
      if x in s.tm && s.tm[x].periodic && s.tm[x].active then Started(s1, x) else s1
  }

  function OpsOf(cb: Callbacks, x: Id): seq<Op> {
    if x in cb then cb[x] else []
  }

  /** One round of the drain loop. */
  function Fired(s: State, cb: Callbacks): State
    requires Active(s) != [] && Active(s)[0] in s.tm
  {
    var x := Active(s)[0];
    Finished(DoAll(Detached(s), OpsOf(cb, x)), x)
  }

  // ----------------------------------------------------------------- the invariant

  function TimerOf(tm: map<Id, Timer>, x: Id): Timer {
    if x in tm then tm[x] else Timer(0, false, false, 0, 0)
  }

  /** Firing order: by expiry, and by start within one tick. */
  predicate Earlier(a: Timer, b: Timer) {
    a.due < b.due || (a.due == b.due && a.order < b.order)
  }

  ghost predicate Ordered(row: seq<Id>, tm: map<Id, Timer>) {
    forall i, j :: 0 <= i < j < |row| ==> Earlier(TimerOf(tm, row[i]), TimerOf(tm, row[j]))
  }

  ghost predicate LinkedOk(s: State, x: Id) {
    && x in s.tm && x in s.ticks && s.tm[x].active && s.ticks[x] == s.tm[x].due % TICKS
    && s.clock <= s.tm[x].due < s.clock + HALF && s.tm[x].order < s.starts
  }

  ghost predicate Fits(t: Timer) {
    1 <= t.init < HALF
  }

  /** The log is in firing order, every entry is on time, and everything still linked comes
      after it. */
  ghost predicate LogOk(s: State) {
    && (forall e :: e in s.log ==> e.at == e.due <= s.clock && e.order < s.starts)
    && (forall i, j :: 0 <= i < j < |s.log| ==> Before(s.log[i], s.log[j].due, s.log[j].order))
    && (forall e, x :: e in s.log && x in Active(s) ==> Before(e, TimerOf(s.tm, x).due, TimerOf(s.tm, x).order))
  }

  predicate Before(e: Firing, due: nat, order: nat) {
    e.due < due || (e.due == due && e.order < order)
  }

  ghost predicate ActiveOk(s: State) {
    forall x :: x in Active(s) ==> LinkedOk(s, x) && s.temp != Node(x)
  }

  ghost predicate Fitting(tm: map<Id, Timer>) {
    forall x :: x in tm ==> Fits(tm[x])
  }

  ghost predicate Inv(s: State) {
    SkipOk(s.rows, s.ticks, Now(s)) && ActiveOk(s) && Fitting(s.tm) && Ordered(Active(s), s.tm) && LogOk(s)
  }

  /** Between checks nothing is due and no callback runs. */
  ghost predicate Rest(s: State) {
    Inv(s) && s.temp == ListHead && forall x :: x in Active(s) ==> s.tm[x].due > s.clock
  }

  lemma RankIsWait(ticks: map<Id, nat>, clock: nat, x: Id, due: nat)
    requires x in ticks && ticks[x] == due % TICKS && clock <= due < clock + HALF
    ensures Rank(ticks, clock % TICKS, x) == due - clock
    ensures Diff(clock % TICKS, ticks[x]) < HALF <==> due == clock
  {
  }

  /** Taking timer `x` off the rows and changing its record only. */
  lemma UnlinkInv(s: State, x: Id, t: Timer, temp: Head)
    requires Inv(s) && x in s.tm && Fits(t)
    requires temp == s.temp || temp == Node(x) || (temp == ListHead && s.temp == Node(x))
    requires temp == Node(x) ==> s.temp == ListHead || s.temp == temp
    ensures Inv(s.(rows := RemovedFrom(s.rows, x), tm := s.tm[x := t], temp := temp))
  {
    var s1 := s.(rows := RemovedFrom(s.rows, x), tm := s.tm[x := t], temp := temp);
    RemoveKeepsSkip(s.rows, s.ticks, Now(s), x);
    assert Active(s1) == Without(Active(s), x);
    WithoutOrdered(Active(s), s.tm, s1.tm, x);
    forall y | y in Active(s1) ensures LinkedOk(s1, y) && temp != Node(y) { assert LinkedOk(s, y); }
    LogLater(s, s1);
  }

  /** The log stays in order when the linked timers are old ones or come later than all. */
  lemma LogLater(s: State, s1: State)
    requires LogOk(s) && s1.log == s.log && s1.clock == s.clock && s1.starts >= s.starts
    requires forall x :: x in Active(s1) ==>
      (x in Active(s) && TimerOf(s1.tm, x).due == TimerOf(s.tm, x).due
          && TimerOf(s1.tm, x).order == TimerOf(s.tm, x).order)
      || (TimerOf(s1.tm, x).due > s.clock)
    ensures LogOk(s1)
  {
  }

  lemma WithoutOrdered(row: seq<Id>, tm: map<Id, Timer>, tm1: map<Id, Timer>, x: Id)
    requires NoDup(row) && Ordered(row, tm) && forall y :: y != x ==> TimerOf(tm1, y) == TimerOf(tm, y)
    ensures Ordered(Without(row, x), tm1)
  {
    var r := Without(row, x);
    WithoutNoDup(row, x);
    var n := if x in row then PositionOf(row, x) else |row|;
    if x in row { WithoutAt(row, n); }
    forall i, j | 0 <= i < j < |r| ensures Earlier(TimerOf(tm1, r[i]), TimerOf(tm1, r[j])) {
      assert r[i] == row[if i < n then i else i + 1] && r[j] == row[if j < n then j else j + 1];
      assert r[i] in r && r[j] in r;
    }
  }

  function PositionOf(row: seq<Id>, x: Id): (n: nat)
    requires x in row
    ensures n < |row| && row[n] == x
  {
    if row[0] == x then 0 else 1 + PositionOf(row[1..], x)
  }

  /** The place found for a new timer keeps the firing order: behind every timer that is due no
      later, since all of those were started before. */
  lemma InsertOrdered(row: seq<Id>, tm: map<Id, Timer>, x: Id, p: nat)
    requires p <= |row| && Ordered(row, tm)
    requires forall k :: 0 <= k < p ==> Earlier(TimerOf(tm, row[k]), TimerOf(tm, x))
    requires forall k :: p <= k < |row| ==> Earlier(TimerOf(tm, x), TimerOf(tm, row[k]))
    ensures Ordered(InsertAt(row, p, x), tm)
  {
  }

  lemma InsertSkip(s: State, x: Id)
    requires SkipOk(s.rows, s.ticks, Now(s)) && x in s.tm && Fits(s.tm[x])
    requires forall l :: 0 <= l < |s.rows| ==> x !in s.rows[l]
    ensures var s1 := LinkedUp(s, x);
      && SkipOk(s1.rows, s1.ticks, Now(s)) && SkipOk(s.rows, s1.ticks, Now(s))
        && Diff(StartTick(s, x), Now(s)) == s.tm[x].init
  {
    var s1, v := LinkedUp(s, x), StartTick(s, x);
    RankIsWait(s1.ticks, s.clock, x, s.clock + s.tm[x].init);
    TicksSkip(s.rows, s.ticks, s1.ticks, Now(s));
    InsertKeepsSkip(s.rows, s1.ticks, Now(s), x, v, Height(s1.counter, |s.rows|));
    assert s1.ticks[x := v] == s1.ticks;
  }

  function StartPlace(s: State, x: Id): (p: nat)
    requires x in s.tm && |s.rows| >= 1
    ensures p <= |Active(s)|
  {
    Scan(Active(s), s.ticks[x := StartTick(s, x)], StartTick(s, x), 0)
  }

  lemma InsertBottom(s: State, x: Id)
    requires x in s.tm && |s.rows| >= 1
    ensures Active(LinkedUp(s, x)) == InsertAt(Active(s), StartPlace(s, x), x)
  {
  }

  lemma InsertInv(s: State, x: Id)
    requires Inv(s) && x in s.tm && s.temp != Node(x) && (forall l :: 0 <= l < |s.rows| ==> x !in s.rows[l])
    ensures Inv(LinkedUp(s, x))
  {
    var s1 := LinkedUp(s, x);
    assert Fits(s.tm[x]);
    InsertSkip(s, x);
    InsertBottom(s, x);
    InsertOrder(s, x);
    InsertActive(s, s1, x, StartPlace(s, x));
    InsertLog(s, x);
  }

  lemma InsertOrder(s: State, x: Id)
    requires Inv(s) && x in s.tm && x !in Active(s)
    ensures Ordered(Active(LinkedUp(s, x)), LinkedUp(s, x).tm)
  {
    var row, tm, p := Active(s), LinkedUp(s, x).tm, StartPlace(s, x);
    forall k | 0 <= k < |row|
      ensures row[k] != x
      ensures if k < p then Earlier(TimerOf(tm, row[k]), TimerOf(tm, x))
          else Earlier(TimerOf(tm, x), TimerOf(tm, row[k]))
    {
      assert row[k] in row;
      InsertPlaceOrdered(s, x, k);
    }
    assert Ordered(row, tm);
    InsertOrdered(row, tm, x, p);
    InsertBottom(s, x);
  }

  lemma InsertLog(s: State, x: Id)
    requires LogOk(s) && Fitting(s.tm) && x in s.tm && |s.rows| >= 1
    ensures LogOk(LinkedUp(s, x))
  {
    var s1 := LinkedUp(s, x);
    InsertBottom(s, x);
    assert Fits(s.tm[x]);
    forall y | y in Active(s1) ensures y == x || y in Active(s) {}
    LogLater(s, s1);
  }

  lemma TicksSkip(rows: Rows, a: map<Id, nat>, b: map<Id, nat>, now: nat)
    requires now < TICKS && SkipOk(rows, a, now)
    requires forall l, y :: 0 <= l < |rows| && y in rows[l] ==> TickOf(a, y) == TickOf(b, y)
    ensures SkipOk(rows, b, now)
  {
  }

  lemma InsertActive(s: State, s1: State, x: Id, p: nat)
    requires ActiveOk(s) && Fitting(s.tm) && p <= |Active(s)| && Active(s1) == InsertAt(Active(s), p, x)
    requires x in s.tm && |s.rows| >= 1 && s1.tm == LinkedUp(s, x).tm && s1.temp == s.temp && s.temp != Node(x)
    requires s1.ticks == s.ticks[x := (s.clock + s.tm[x].init) % TICKS] && s1.clock == s.clock
        && s1.starts == s.starts + 1
    ensures ActiveOk(s1)
  {
    forall y | y in Active(s1) ensures LinkedOk(s1, y) && s1.temp != Node(y) {
      if y != x { assert y in Active(s) && LinkedOk(s, y); }
    }
  }

  lemma InsertPlaceOrdered(s: State, x: Id, k: nat)
    requires Inv(s) && x in s.tm && x !in Active(s) && k < |Active(s)|
    ensures var row, tm := Active(s), LinkedUp(s, x).tm;
      if k < StartPlace(s, x) then Earlier(TimerOf(tm, row[k]), TimerOf(tm, x))
          else Earlier(TimerOf(tm, x), TimerOf(tm, row[k]))
  {
    var row, y, v := Active(s), Active(s)[k], StartTick(s, x);
    var ticks := s.ticks[x := v];
    assert y in row && LinkedOk(s, y) && Fits(s.tm[x]);
    RankIsWait(ticks, s.clock, x, s.clock + s.tm[x].init);
    RankIsWait(ticks, s.clock, y, s.tm[y].due);
    assert RowOk(row, ticks, Now(s)) by { SameTicks(row, s.ticks, ticks, Now(s)); }
    InsertionPoint(row, ticks, Now(s), v, k);
  }

  /** rt_timer_start keeps the invariant. */
  lemma StartInv(s: State, x: Id)
    requires Inv(s) && x in s.tm
    ensures Inv(Started(s, x))
  {
    UnlinkedInv(s, x);
    InsertInv(Unlinked(s, x), x);
  }

  lemma UnlinkedInv(s: State, x: Id)
    requires Inv(s) && x in s.tm
    ensures Inv(Unlinked(s, x))
  {
    assert Fits(s.tm[x]);
    UnlinkInv(s, x, s.tm[x].(active := false), if s.temp == Node(x) then ListHead else s.temp);
  }

  lemma StopInv(s: State, x: Id)
    requires Inv(s) && x in s.tm
    ensures Inv(Stopped(s, x))
  {
    if s.tm[x].active { UnlinkedInv(s, x); }
  }

  /** Changing the period or the mode of a timer moves nothing. */
  lemma TuneInv(s: State, x: Id, t: Timer)
    requires Inv(s) && x in s.tm && Fits(t) && t.active == s.tm[x].active && t.due == s.tm[x].due
        && t.order == s.tm[x].order
    ensures Inv(s.(tm := s.tm[x := t]))
  {
    var s1 := s.(tm := s.tm[x := t]);
    forall y | y in Active(s1) ensures LinkedOk(s1, y) { assert LinkedOk(s, y); }
    assert Ordered(Active(s1), s1.tm);
    LogLater(s, s1);
  }

  lemma DoInv(s: State, op: Op)
    requires Inv(s)
    ensures Inv(Do(s, op))
  {
    if op.id in s.tm {
      var t := s.tm[op.id];
      assert Fits(t);
      match op
      case Start(x) => StartInv(s, x);
      case Stop(x) => StopInv(s, x);
      case SetTime(x, d) => if 1 <= d < HALF { TuneInv(s, x, t.(init := d)); }
      case SetPeriodic(x, on) => TuneInv(s, x, t.(periodic := on));
    }
  }

  lemma {:induction false} DoAllInv(s: State, ops: seq<Op>)
    requires Inv(s)
    ensures Inv(DoAll(s, ops))
    decreases |ops|
  {
    if ops != [] {
      DoInv(s, ops[0]);
      DoAllInv(Do(s, ops[0]), ops[1..]);
    }
  }

  // -------------------------------------------------------------- one firing

  /** The head of a sorted list is expired exactly when it is due now. */
  lemma ExpiredIffDue(s: State)
    requires Inv(s) && Active(s) != []
    ensures Active(s)[0] in s.tm && (HeadExpired(s) <==> s.tm[Active(s)[0]].due == s.clock)
  {
    var x := Active(s)[0];
    assert x in Active(s) && LinkedOk(s, x);
    RankIsWait(s.ticks, s.clock, x, s.tm[x].due);
  }

  /** Without the timer `x` that was due, fewer are due. */
  lemma DetachShrinksDue(s: State)
    requires |s.rows| >= 1 && Active(s) != [] && Active(s)[0] in s.tm && s.tm[Active(s)[0]].due == s.clock
    ensures var x := Active(s)[0];
      && Active(Detached(s)) == Without(Active(s), x) && x in DueNow(s) && DueNow(Detached(s)) <= DueNow(s) - {x}
  {
    var x := Active(s)[0];
    assert Active(Detached(s)) == Without(Active(s), x);
    assert x in Active(s);
  }

  lemma DetachInv(s: State)
    requires Inv(s) && s.temp == ListHead && HeadExpired(s)
    ensures Active(s)[0] in s.tm && s.tm[Active(s)[0]].due == s.clock && Inv(Detached(s))
  {
    var x := Active(s)[0];
    assert x in Active(s) && LinkedOk(s, x) && Fits(s.tm[x]);
    ExpiredIffDue(s);
    DetachShrinksDue(s);
    var t := s.tm[x].(active := s.tm[x].periodic && s.tm[x].active);
    var s1 := s.(rows := RemovedFrom(s.rows, x), tm := s.tm[x := t], temp := Node(x));
    UnlinkInv(s, x, t, Node(x));
    LogFired(s, s1, Detached(s));
  }

  lemma LogFired(s: State, s1: State, s2: State)
    requires LogOk(s) && Active(s) != [] && Active(s)[0] in s.tm && Ordered(Active(s), s.tm)
    requires var x := Active(s)[0];
      && s.tm[x].due == s.clock && s.tm[x].order < s.starts
      && s2 == s1.(log := s.log + [Firing(x, s.clock, s.tm[x].due, s.tm[x].order)])
      && s1.clock == s.clock && s1.starts == s.starts
      && (forall y :: y in Active(s1) ==> y in Active(s) && y != x && TimerOf(s1.tm, y) == TimerOf(s.tm, y))
    ensures LogOk(s2)
  {
    var x := Active(s)[0];
    var e := Firing(x, s.clock, s.tm[x].due, s.tm[x].order);
    assert x in Active(s);
    forall i, j | 0 <= i < j < |s2.log| ensures Before(s2.log[i], s2.log[j].due, s2.log[j].order) {
      assert s2.log[i] == s.log[i] && s.log[i] in s.log;
      if j < |s.log| { assert s2.log[j] == s.log[j]; }
    }
    forall y | y in Active(s2) ensures Before(e, TimerOf(s2.tm, y).due, TimerOf(s2.tm, y).order) {
      var k := PositionOf(Active(s), y);
      assert Earlier(TimerOf(s.tm, Active(s)[0]), TimerOf(s.tm, Active(s)[k]));
    }
  }

  lemma FinishInv(s: State, x: Id)
    requires Inv(s) && (s.temp == ListHead || s.temp == Node(x))
    ensures Inv(Finished(s, x)) && Finished(s, x).temp == ListHead
  {
    if s.temp == Node(x) {
      TempCleared(s);
      if x in s.tm && s.tm[x].periodic && s.tm[x].active { StartInv(s.(temp := ListHead), x); }
    }
  }

  lemma TempCleared(s: State)
    requires Inv(s)
    ensures Inv(s.(temp := ListHead))
  {
    var s1 := s.(temp := ListHead);
    forall y | y in Active(s1) ensures LinkedOk(s1, y) { assert LinkedOk(s, y); }
    LogLater(s, s1);
  }

  // --------------------------------------------------------------- the drain loop

  /** The linked timers that are due now. */
  function DueNow(s: State): set<Id> {
    set x | x in Active(s) && TimerOf(s.tm, x).due == s.clock
  }

  /** Nothing a callback may do makes a timer due now: a started timer lies in the future. */
  lemma DoShrinksDue(s: State, op: Op)
    requires Fitting(s.tm) && |s.rows| >= 1
    ensures DueNow(Do(s, op)) <= DueNow(s) && Do(s, op).clock == s.clock
    ensures Do(s, op).temp == s.temp || Do(s, op).temp == ListHead
  {
    if op.id in s.tm {
      assert Fits(s.tm[op.id]);
      match op
      case Start(x) => StartShrinksDue(s, x);
      case Stop(x) => if s.tm[x].active { UnlinkShrinksDue(s, x); }
      case _ =>
    }
  }

  lemma UnlinkMembers(s: State, x: Id)
    requires x in s.tm && |s.rows| >= 1
    ensures Active(Unlinked(s, x)) == Without(Active(s), x)
  {
    BottomRemoved(s.rows, x);
  }

  lemma UnlinkShrinksDue(s: State, x: Id)
    requires x in s.tm && |s.rows| >= 1
    ensures DueNow(Unlinked(s, x)) <= DueNow(s)
  {
  }

  lemma StartShrinksDue(s: State, x: Id)
    requires x in s.tm && |s.rows| >= 1 && Fits(s.tm[x])
    ensures DueNow(Started(s, x)) <= DueNow(s)
  {
    forall y | y in DueNow(Started(s, x)) ensures y in DueNow(s) { StartMembers(s, x, y); }
  }

  lemma StartMembers(s: State, x: Id, y: Id)
    requires x in s.tm && |s.rows| >= 1
    ensures y in Active(Started(s, x)) <==> y == x || y in Active(s)
    ensures y != x ==> TimerOf(Started(s, x).tm, y) == TimerOf(s.tm, y)
    ensures Started(s, x).tm[x] == s.tm[x].(active := true, due := s.clock + s.tm[x].init, order := s.starts)
  {
  }

  lemma {:induction false} DoAllShrinksDue(s: State, ops: seq<Op>)
    requires Inv(s)
    ensures DueNow(DoAll(s, ops)) <= DueNow(s) && DoAll(s, ops).clock == s.clock
    ensures DoAll(s, ops).temp == s.temp || DoAll(s, ops).temp == ListHead
    decreases |ops|
  {
    if ops != [] {
      DoShrinksDue(s, ops[0]);
      DoInv(s, ops[0]);
      DoAllShrinksDue(Do(s, ops[0]), ops[1..]);
    }
  }

  /** One round keeps the invariant and leaves strictly fewer timers due, so the loop ends. */
  lemma FireInv(s: State, cb: Callbacks)
    requires Inv(s) && s.temp == ListHead && HeadExpired(s)
    ensures Active(s)[0] in s.tm
    ensures var s1 := Fired(s, cb); Inv(s1) && s1.temp == ListHead && s1.clock == s.clock && DueNow(s1) < DueNow(s)
  {
    var x := Active(s)[0];
    DetachInv(s);
    DetachShrinksDue(s);
    var s1 := Detached(s);
    DoAllInv(s1, OpsOf(cb, x));
    DoAllShrinksDue(s1, OpsOf(cb, x));
    var s2 := DoAll(s1, OpsOf(cb, x));
    FinishInv(s2, x);
    FinishShrinksDue(s2, x);
  }

  lemma FinishShrinksDue(s: State, x: Id)
    requires Inv(s)
    ensures DueNow(Finished(s, x)) <= DueNow(s) && Finished(s, x).clock == s.clock
  {
    if s.temp != ListHead && x in s.tm && s.tm[x].periodic && s.tm[x].active {
      assert Fits(s.tm[x]);
      var s1 := s.(temp := ListHead);
      StartShrinksDue(s1, x);
    }
  }

  /** rt_timer_check */
  ghost function Drained(s: State, cb: Callbacks): (r: State)
    requires Inv(s) && s.temp == ListHead
    ensures Inv(r) && r.temp == ListHead && r.clock == s.clock && !HeadExpired(r)
    decreases |DueNow(s)|
  {
    if !HeadExpired(s) then s
    else
      FireInv(s, cb);
      SmallerSet(DueNow(Fired(s, cb)), DueNow(s));
      Drained(Fired(s, cb), cb)
  }

  lemma SmallerSet(a: set<Id>, b: set<Id>)
    requires a < b
    ensures |a| < |b|
  {
    assert b == a + (b - a);
    assert b - a != {};
  }

  /** After a check no expired timer is left. */
  lemma DrainLeavesNoneExpired(s: State, cb: Callbacks)
    requires Inv(s) && s.temp == ListHead
    ensures Rest(Drained(s, cb))
  {
    var r := Drained(s, cb);
    if Active(r) != [] { ExpiredIffDue(r); }
    forall x | x in Active(r) ensures r.tm[x].due > r.clock {
      assert LinkedOk(r, x);
      var k := PositionOf(Active(r), x);
      if k > 0 { assert Earlier(TimerOf(r.tm, Active(r)[0]), TimerOf(r.tm, Active(r)[k])); }
      assert Active(r)[0] in Active(r) && LinkedOk(r, Active(r)[0]);
    }
  }

  // --------------------------------------------------------------------- whole runs

  datatype Event = Tick(cb: Callbacks) | Call(op: Op)

  /** Every timer linked in some row is in the last row. */
  lemma {:induction false} InBottom(rows: Rows, l: nat, x: Id)
    requires l < |rows| && x in rows[l] && forall k :: 0 <= k < |rows| - 1 ==> Nested(rows, k)
    ensures x in Bottom(rows)
    decreases |rows| - l
  {
    if l + 1 < |rows| {
      assert Nested(rows, l);
      InBottom(rows, l + 1, x);
    }
  }

  function Ticked(s: State): State {
    s.(clock := s.clock + 1)
  }

  lemma TickInv(s: State)
    requires Rest(s)
    ensures Inv(Ticked(s))
  {
    var s1 := Ticked(s);
    forall l, x | 0 <= l < |s.rows| && x in s.rows[l] ensures Rank(s.ticks, Now(s), x) > 0 {
      InBottom(s.rows, l, x);
      assert LinkedOk(s, x);
      RankIsWait(s.ticks, s.clock, x, s.tm[x].due);
    }
    TickKeepsSkip(s.rows, s.ticks, Now(s));
    assert (Now(s) + 1) % TICKS == Now(s1);
    forall x | x in Active(s1) ensures LinkedOk(s1, x) { assert LinkedOk(s, x); }
  }

  lemma CallRest(s: State, op: Op)
    requires Rest(s)
    ensures Rest(Do(s, op)) && Do(s, op).clock == s.clock
  {
    DoInv(s, op);
    DoShrinksDue(s, op);
    var s1 := Do(s, op);
    forall x | x in Active(s1) ensures s1.tm[x].due > s1.clock {
      assert LinkedOk(s1, x);
      assert s1.tm[x].due == s1.clock <==> x in DueNow(s1);
    }
  }

  /** rt_timer_stop tests the activated flag before its section. That does no harm: between
      checks the section alone does what test and section together would do. */
  lemma LateStopIsStop(s: State, x: Id)
    requires Rest(s) && x in s.tm
    ensures Unlinked(s, x) == Stopped(s, x)
  {
    if !s.tm[x].active {
      forall l | 0 <= l < |s.rows| ensures x !in s.rows[l] {
        if x in s.rows[l] {
          InBottom(s.rows, l, x);
        }
      }
      assert RemovedFrom(s.rows, x) == s.rows;
      assert s.tm[x := s.tm[x].(active := false)] == s.tm;
    }
  }

  ghost function Step(s: State, e: Event): (r: State)
    requires Rest(s)
    ensures Rest(r) && r.clock == s.clock + if e.Tick? then 1 else 0
  {
    match e
    case Tick(cb) =>
      TickInv(s);
      DrainLeavesNoneExpired(Ticked(s), cb);
      Drained(Ticked(s), cb)
    case Call(op) =>
      CallRest(s, op);
      Do(s, op)
  }

  ghost function Exec(s: State, es: seq<Event>): (r: State)
    requires Rest(s)
    ensures Rest(r)
    decreases |es|
  {
    if es == [] then s else Exec(Step(s, es[0]), es[1..])
  }

  function Boot(tm: map<Id, Timer>, levels: nat): State {
    State(0, seq(levels, i => []), map[], tm, 0, ListHead, 0, [])
  }

  lemma BootRest(tm: map<Id, Timer>, levels: nat)
    requires levels >= 1 && forall x :: x in tm ==> Fits(tm[x]) && !tm[x].active
    ensures Rest(Boot(tm, levels))
  {
  }

  /** Over every run: no expired timer is ever left behind by a check, every firing happens at
      the tick its timer was due, firings of the same tick follow the order of the starts, and
      every row of the skip list is a sorted subsequence of the row below. */
  lemma FiringsOnTimeInOrder(tm: map<Id, Timer>, levels: nat, es: seq<Event>)
    requires levels >= 1 && forall x :: x in tm ==> Fits(tm[x]) && !tm[x].active
    ensures Rest(Boot(tm, levels))
    ensures var s := Exec(Boot(tm, levels), es);
      && (forall x :: x in Active(s) ==> x in s.tm && s.tm[x].due > s.clock)
      && (forall e :: e in s.log ==> e.at == e.due)
      && (forall i, j :: 0 <= i < j < |s.log| ==>
            s.log[i].at < s.log[j].at || (s.log[i].at == s.log[j].at && s.log[i].order < s.log[j].order))
      && SkipOk(s.rows, s.ticks, Now(s))
  {
    BootRest(tm, levels);
    var s := Exec(Boot(tm, levels), es);
    forall x | x in Active(s) ensures x in s.tm { assert LinkedOk(s, x); }
    forall i | 0 <= i < |s.log| ensures s.log[i].at == s.log[i].due { assert s.log[i] in s.log; }
  }

  // --------------------------------------------------------------- exact firing times

  function TimesOf(log: seq<Firing>, x: Id): seq<nat> {
    if log == [] then []
    else TimesOf(log[..|log| - 1], x) + if log[|log| - 1].id == x then [log[|log| - 1].at] else []
  }

  /** due, due + d, due + 2d, ... up to `end`. */
  function Series(due: nat, d: nat, end: nat): seq<nat>
    requires d >= 1
    decreases end - due
  {
    if due > end then [] else [due] + Series(due + d, d, end)
  }

  /** When a linked timer that is left alone from now on fires, up to tick `end`. */
  function Firings(t: Timer, end: nat): seq<nat> {
    if t.init < 1 then [] else if t.periodic then Series(t.due, t.init, end) else if t.due <= end then [t.due] else []
  }

  function Future(s: State, x: Id, end: nat): seq<nat> {
    if x in Active(s) then Firings(TimerOf(s.tm, x), end) else []
  }

  /** What has fired and what will fire. */
  function Schedule(s: State, x: Id, end: nat): seq<nat> {
    TimesOf(s.log, x) + Future(s, x, end)
  }

  predicate Untouched(ops: seq<Op>, x: Id) {
    forall op :: op in ops ==> op.id != x
  }

  predicate EventSpares(e: Event, x: Id) {
    match e
    case Tick(cb) => forall y :: y in cb ==> Untouched(cb[y], x)
    case Call(op) => op.id != x
  }

  /** Operations on other timers leave `x` linked or not, with its record. */
  ghost predicate SameTimer(s: State, s1: State, x: Id) {
    && (x in Active(s1) <==> x in Active(s)) && TimerOf(s1.tm, x) == TimerOf(s.tm, x) && (x in s1.tm <==> x in s.tm)
    && (s1.temp == Node(x) <==> s.temp == Node(x)) && s1.log == s.log && s1.clock == s.clock
  }

  lemma DoSpares(s: State, op: Op, x: Id)
    requires |s.rows| >= 1 && op.id != x
    ensures SameTimer(s, Do(s, op), x)
  {
    if op.id in s.tm {
      match op
      case Start(y) => StartMembers(s, y, x);
      case Stop(y) => if s.tm[y].active { UnlinkMembers(s, y); }
      case _ =>
    }
  }

  lemma {:induction false} DoAllSpares(s: State, ops: seq<Op>, x: Id)
    requires |s.rows| >= 1 && Untouched(ops, x)
    ensures SameTimer(s, DoAll(s, ops), x)
    decreases |ops|
  {
    if ops != [] {
      assert ops[0] in ops && forall op :: op in ops[1..] ==> op in ops;
      DoSpares(s, ops[0], x);
      DoAllSpares(Do(s, ops[0]), ops[1..], x);
    }
  }

  lemma FinishSpares(s: State, h: Id, x: Id)
    requires |s.rows| >= 1 && h != x && s.temp != Node(x)
    ensures SameTimer(s, Finished(s, h), x)
  {
    if s.temp != ListHead && h in s.tm && s.tm[h].periodic && s.tm[h].active {
      StartMembers(s.(temp := ListHead), h, x);
    }
  }

  /** A round of the drain loop moves the next firing of `x` from the future to the past, or
      concerns another timer: the schedule stays the same. */
  lemma FireKeepsSchedule(s: State, cb: Callbacks, x: Id, end: nat)
    requires Inv(s) && s.temp == ListHead && HeadExpired(s) && s.clock <= end && EventSpares(Tick(cb), x)
    ensures Active(s)[0] in s.tm && Schedule(Fired(s, cb), x, end) == Schedule(s, x, end)
  {
    DetachInv(s);
    if Active(s)[0] != x {
      DetachSpares(s, x);
      OtherFiring(s, cb, x);
      SameSchedule(s, Fired(s, cb), x, end);
    } else {
      assert x in Active(s) && LinkedOk(s, x) && Fits(s.tm[x]);
      OwnFiring(s, cb, x, end);
    }
  }

  lemma SameSchedule(s: State, s1: State, x: Id, end: nat)
    requires (x in Active(s1) <==> x in Active(s)) && TimerOf(s1.tm, x) == TimerOf(s.tm, x)
        && TimesOf(s1.log, x) == TimesOf(s.log, x)
    ensures Schedule(s1, x, end) == Schedule(s, x, end)
  {
  }

  lemma DetachSpares(s: State, x: Id)
    requires |s.rows| >= 1 && Active(s) != [] && Active(s)[0] in s.tm && s.tm[Active(s)[0]].due == s.clock
        && Active(s)[0] != x
    ensures var s1 := Detached(s);
      && (x in Active(s1) <==> x in Active(s)) && TimerOf(s1.tm, x) == TimerOf(s.tm, x)
        && TimesOf(s1.log, x) == TimesOf(s.log, x)
  {
  }

  lemma OtherFiring(s: State, cb: Callbacks, x: Id)
    requires |s.rows| >= 1 && Active(s) != [] && Active(s)[0] in s.tm && Active(s)[0] != x && EventSpares(Tick(cb), x)
    ensures var s1, s2 := Detached(s), Fired(s, cb);
      && (x in Active(s2) <==> x in Active(s1)) && TimerOf(s2.tm, x) == TimerOf(s1.tm, x) && s2.log == s1.log
  {
    var h, s1 := Active(s)[0], Detached(s);
    DoAllSpares(s1, OpsOf(cb, h), x);
    FinishSpares(DoAll(s1, OpsOf(cb, h)), h, x);
  }

  lemma OwnFiring(s: State, cb: Callbacks, x: Id, end: nat)
    requires |s.rows| >= 1 && NoDup(Active(s)) && Active(s) != [] && x == Active(s)[0] && x in s.tm && s.tm[x].active
    requires s.tm[x].due == s.clock <= end && s.tm[x].init >= 1 && EventSpares(Tick(cb), x)
    ensures Schedule(Fired(s, cb), x, end) == Schedule(s, x, end)
  {
    var s2 := DoAll(Detached(s), OpsOf(cb, x));
    DoAllSpares(Detached(s), OpsOf(cb, x), x);
    TimesAppend(s.log, Firing(x, s.clock, s.tm[x].due, s.tm[x].order), x);
    if s.tm[x].periodic { OwnPeriodic(s, s2, x, end); } else { OwnOneShot(s, s2, x, end); }
    FromFutureToPast(s, Finished(s2, x), x, end, s.clock);
  }

  lemma FromFutureToPast(s: State, s1: State, x: Id, end: nat, at: nat)
    requires TimesOf(s1.log, x) == TimesOf(s.log, x) + [at] && Future(s, x, end) == [at] + Future(s1, x, end)
    ensures Schedule(s1, x, end) == Schedule(s, x, end)
  {
  }

  lemma TimesAppend(log: seq<Firing>, e: Firing, x: Id)
    ensures TimesOf(log + [e], x) == TimesOf(log, x) + if e.id == x then [e.at] else []
  {
  }

  lemma OwnOneShot(s: State, s2: State, x: Id, end: nat)
    requires |s.rows| >= 1 && NoDup(Active(s)) && Active(s) != [] && x == Active(s)[0] && x in s.tm && !s.tm[x].periodic
    requires s.tm[x].due == s.clock <= end && s.tm[x].init >= 1 && |s2.rows| >= 1 && SameTimer(Detached(s), s2, x)
    ensures Future(s, x, end) == [s.clock] && Future(Finished(s2, x), x, end) == [] && Finished(s2, x).log == s2.log
  {
  }

  lemma OwnPeriodic(s: State, s2: State, x: Id, end: nat)
    requires |s.rows| >= 1 && Active(s) != [] && x == Active(s)[0] && x in s.tm && s.tm[x].periodic && s.tm[x].active
    requires s.tm[x].due == s.clock <= end && s.tm[x].init >= 1 && |s2.rows| >= 1 && SameTimer(Detached(s), s2, x)
    ensures Future(s, x, end) == [s.clock] + Future(Finished(s2, x), x, end) && Finished(s2, x).log == s2.log
  {
    assert x in Active(s);
    var s3, t := s2.(temp := ListHead), s.tm[x];
    StartMembers(s3, x, x);
    PeriodicFirings(t, s3.tm[x].(active := true, due := s3.clock + s3.tm[x].init, order := s3.starts), end);
    assert Finished(s2, x) == Started(s3, x);
  }

  lemma PeriodicFirings(t: Timer, t1: Timer, end: nat)
    requires t.periodic && t1.periodic && t1.init == t.init >= 1 && t1.due == t.due + t.init && t.due <= end
    ensures Firings(t, end) == [t.due] + Firings(t1, end)
  {
  }

  lemma {:induction false} DrainKeepsSchedule(s: State, cb: Callbacks, x: Id, end: nat)
    requires Inv(s) && s.temp == ListHead && s.clock <= end && EventSpares(Tick(cb), x)
    ensures Schedule(Drained(s, cb), x, end) == Schedule(s, x, end)
    decreases |DueNow(s)|
  {
    if HeadExpired(s) {
      FireKeepsSchedule(s, cb, x, end);
      FireInv(s, cb);
      SmallerSet(DueNow(Fired(s, cb)), DueNow(s));
      DrainKeepsSchedule(Fired(s, cb), cb, x, end);
    }
  }

  lemma {:induction false} ClockNeverFalls(s: State, es: seq<Event>)
    requires Rest(s)
    ensures s.clock <= Exec(s, es).clock
    decreases |es|
  {
    if es != [] { ClockNeverFalls(Step(s, es[0]), es[1..]); }
  }

  lemma StepKeepsSchedule(s: State, e: Event, x: Id, end: nat)
    requires Rest(s) && EventSpares(e, x) && Step(s, e).clock <= end
    ensures Schedule(Step(s, e), x, end) == Schedule(s, x, end)
  {
    match e
    case Tick(cb) =>
      TickInv(s);
      DrainKeepsSchedule(Ticked(s), cb, x, end);
    case Call(op) => DoSpares(s, op, x);
  }

  lemma {:induction false} ExecKeepsSchedule(s: State, es: seq<Event>, x: Id, end: nat)
    requires Rest(s) && (forall e :: e in es ==> EventSpares(e, x)) && Exec(s, es).clock <= end
    ensures Schedule(Exec(s, es), x, end) == Schedule(s, x, end)
    decreases |es|
  {
    if es != [] {
      assert es[0] in es && forall e :: e in es[1..] ==> e in es;
      var s1 := Step(s, es[0]);
      ClockNeverFalls(s1, es[1..]);
      StepKeepsSchedule(s, es[0], x, end);
      ExecKeepsSchedule(s1, es[1..], x, end);
    }
  }

  /** A timer that nobody touches fires exactly when it is due: a one-shot timer once, at the
      tick of its start plus its duration, if the run gets there; a periodic one at that tick
      and then every period. Nothing else makes it fire. */
  lemma FiresExactly(s: State, es: seq<Event>, x: Id)
    requires Rest(s) && x in Active(s) && forall e :: e in es ==> EventSpares(e, x)
    ensures var r := Exec(s, es);
      TimesOf(r.log, x) == TimesOf(s.log, x) + Firings(TimerOf(s.tm, x), r.clock)
  {
    var r := Exec(s, es);
    assert LinkedOk(s, x) && Fits(s.tm[x]);
    ExecKeepsSchedule(s, es, x, r.clock);
    if x in Active(r) { assert LinkedOk(r, x); }
    assert Future(r, x, r.clock) == [];
  }

  /** rt_timer_start makes a timer due `init` ticks from now. */
  lemma StartSetsDue(s: State, x: Id)
    requires Rest(s) && x in s.tm
    ensures var s1 := Step(s, Call(Start(x)));
      x in Active(s1) && s1.tm[x].due == s.clock + s.tm[x].init && s1.tm[x].periodic == s.tm[x].periodic
      && s1.tm[x].init == s.tm[x].init && s1.clock == s.clock && s1.log == s.log
  {
    StartMembers(s, x, x);
  }

  /** The firings of timer `x` after it was started in state `s` and left alone. */
  function FiringsFrom(s: State, x: Id, end: nat): seq<nat>
    requires x in s.tm && s.tm[x].init >= 1
  {
    var d := s.tm[x].init;
    if s.tm[x].periodic then Series(s.clock + d, d, end) else if s.clock + d <= end then [s.clock + d] else []
  }

  lemma FiringsFromStart(s: State, x: Id, t: Timer, end: nat)
    requires x in s.tm && s.tm[x].init >= 1
    requires t.init == s.tm[x].init && t.periodic == s.tm[x].periodic && t.due == s.clock + t.init
    ensures Firings(t, end) == FiringsFrom(s, x, end)
  {
  }

  /** A timer started at tick s with duration d and then left alone fires exactly when the tick
      becomes s + d, and if periodic at every s + k * d, whatever other timers do. */
  lemma StartedTimerFires(s: State, s1: State, es: seq<Event>, x: Id)
    requires Rest(s) && x in s.tm && s1 == Step(s, Call(Start(x))) && forall e :: e in es ==> EventSpares(e, x)
    ensures s.tm[x].init >= 1
    ensures TimesOf(Exec(s1, es).log, x) == TimesOf(s.log, x) + FiringsFrom(s, x, Exec(s1, es).clock)
  {
    assert Fits(s.tm[x]);
    StartSetsDue(s, x);
    FiresExactly(s1, es, x);
    FiringsFromStart(s, x, s1.tm[x], Exec(s1, es).clock);
  }

  // ------------------------------------------------ the activated flag and the rows

  /** Every timer whose activated flag is set is linked, or its callback runs. */
  ghost predicate Tracked(s: State) {
    forall x :: x in s.tm && s.tm[x].active ==> x in Active(s) || s.temp == Node(x)
  }

  lemma DoTracked(s: State, op: Op)
    requires |s.rows| >= 1 && Tracked(s)
    ensures Tracked(Do(s, op))
  {
    var s1 := Do(s, op);
    forall x | x in s1.tm && s1.tm[x].active ensures x in Active(s1) || s1.temp == Node(x) {
      if x != op.id { DoSpares(s, op, x); } else if op.Start? { StartMembers(s, x, x); }
    }
  }

  lemma {:induction false} DoAllTracked(s: State, ops: seq<Op>)
    requires |s.rows| >= 1 && Tracked(s)
    ensures Tracked(DoAll(s, ops))
    decreases |ops|
  {
    if ops != [] {
      DoTracked(s, ops[0]);
      DoAllTracked(Do(s, ops[0]), ops[1..]);
    }
  }

  lemma DetachTracked(s: State)
    requires |s.rows| >= 1 && Tracked(s) && s.temp == ListHead && Active(s) != [] && Active(s)[0] in s.tm
    ensures Tracked(Detached(s))
  {
  }

  /** What commands `ops` hold for timer `x`. */
  predicate StartsOrStops(ops: seq<Op>, x: Id) {
    Start(x) in ops || Stop(x) in ops
  }

  /** The mode of timer `x` after commands `ops`, if it was `mode` before. */
  function ModeAfter(ops: seq<Op>, x: Id, mode: bool): bool {
    if ops == [] then mode
    else ModeAfter(ops[1..], x, if ops[0].SetPeriodic? && ops[0].id == x then ops[0].on else mode)
  }

  /** The commands of a periodic timer's callback make it one-shot, and neither start nor stop it. */
  predicate UnmakesItself(ops: seq<Op>, x: Id) {
    !StartsOrStops(ops, x) && !ModeAfter(ops, x, true)
  }

  /** The next firing is that of a periodic timer whose callback makes it one-shot. */
  predicate Loses(s: State, cb: Callbacks) {
    Active(s) != [] && Active(s)[0] in s.tm && s.tm[Active(s)[0]].periodic
        && UnmakesItself(OpsOf(cb, Active(s)[0]), Active(s)[0])
  }

  lemma {:induction false} TempStaysEmpty(s: State, ops: seq<Op>)
    requires |s.rows| >= 1 && s.temp == ListHead
    ensures DoAll(s, ops).temp == ListHead
    decreases |ops|
  {
    if ops != [] { TempStaysEmpty(Do(s, ops[0]), ops[1..]); }
  }

  /** What the callback of a timer that is still activated makes of it. */
  lemma {:induction false} CallbackOfActive(s: State, ops: seq<Op>, x: Id)
    requires |s.rows| >= 1 && x in s.tm && s.tm[x].active && s.temp == Node(x)
    ensures var r := DoAll(s, ops);
      if StartsOrStops(ops, x) then r.temp == ListHead
      else r.temp == Node(x) && x in r.tm && r.tm[x].active && r.tm[x].periodic == ModeAfter(ops, x, s.tm[x].periodic)
    decreases |ops|
  {
    if ops != [] {
      assert ops == [ops[0]] + ops[1..];
      var s1 := Do(s, ops[0]);
      if ops[0] == Start(x) || ops[0] == Stop(x) {
        TempStaysEmpty(s1, ops[1..]);
      } else {
        if ops[0].id != x { DoSpares(s, ops[0], x); }
        CallbackOfActive(s1, ops[1..], x);
      }
    }
  }

  /** The callback of a timer that is not activated leaves it so, or starts it. */
  lemma {:induction false} CallbackOfInactive(s: State, ops: seq<Op>, x: Id)
    requires |s.rows| >= 1 && x in s.tm && !s.tm[x].active && s.temp == Node(x)
    ensures var r := DoAll(s, ops); r.temp == ListHead || (x in r.tm && !r.tm[x].active)
    decreases |ops|
  {
    if ops != [] {
      var s1 := Do(s, ops[0]);
      if ops[0] == Start(x) {
        TempStaysEmpty(s1, ops[1..]);
      } else {
        if ops[0].id != x { DoSpares(s, ops[0], x); }
        CallbackOfInactive(s1, ops[1..], x);
      }
    }
  }

  /** A firing keeps flags and rows together except in one case, which the commands of the
      callback show beforehand: the timer is periodic, the commands hold no start and no stop of
      it, and the last mode they set for it is one-shot. It ends activated but not linked. */
  lemma FiringTrackedIff(s: State, cb: Callbacks)
    requires Inv(s) && Tracked(s) && s.temp == ListHead && HeadExpired(s)
    ensures Active(s)[0] in s.tm && (Tracked(Fired(s, cb)) <==> !Loses(s, cb))
  {
    var x := Active(s)[0];
    assert LinkedOk(s, x);
    DetachTracked(s);
    DetachInv(s);
    var s0, ops := Detached(s), OpsOf(cb, x);
    DoAllTracked(s0, ops);
    DoAllInv(s0, ops);
    DoAllShrinksDue(s0, ops);
    FinishTrackedIff(DoAll(s0, ops), x);
    if s.tm[x].periodic { CallbackOfActive(s0, ops, x); } else { CallbackOfInactive(s0, ops, x); }
  }

  lemma FinishTrackedIff(s: State, x: Id)
    requires Inv(s) && Tracked(s) && (s.temp == ListHead || s.temp == Node(x))
    ensures Tracked(Finished(s, x)) <==> !(s.temp == Node(x) && x in s.tm && s.tm[x].active && !s.tm[x].periodic)
  {
    var s1 := Finished(s, x);
    if s.temp == Node(x) {
      if x in s.tm && s.tm[x].periodic && s.tm[x].active {
        forall y | y in s1.tm && s1.tm[y].active ensures y in Active(s1) { StartMembers(s.(temp := ListHead), x, y); }
      } else {
        assert x !in Active(s1);
      }
    }
  }

  ghost predicate DrainTracked(s: State, cb: Callbacks)
    requires Inv(s) && s.temp == ListHead
    decreases |DueNow(s)|
  {
    if !HeadExpired(s) then Tracked(s)
    else
      FireInv(s, cb);
      SmallerSet(DueNow(Fired(s, cb)), DueNow(s));
      Tracked(s) && DrainTracked(Fired(s, cb), cb)
  }

  /** No round of the drain loop loses its timer. */
  ghost predicate DrainKeeps(s: State, cb: Callbacks)
    requires Inv(s) && s.temp == ListHead
    decreases |DueNow(s)|
  {
    if !HeadExpired(s) then true
    else
      FireInv(s, cb);
      SmallerSet(DueNow(Fired(s, cb)), DueNow(s));
      !Loses(s, cb) && DrainKeeps(Fired(s, cb), cb)
  }

  lemma {:induction false} DrainTrackedIff(s: State, cb: Callbacks)
    requires Inv(s) && s.temp == ListHead && Tracked(s)
    ensures DrainTracked(s, cb) <==> DrainKeeps(s, cb)
    ensures DrainKeeps(s, cb) ==> Tracked(Drained(s, cb))
    decreases |DueNow(s)|
  {
    if HeadExpired(s) {
      FireInv(s, cb);
      SmallerSet(DueNow(Fired(s, cb)), DueNow(s));
      FiringTrackedIff(s, cb);
      if !Loses(s, cb) { DrainTrackedIff(Fired(s, cb), cb); }
    }
  }

  ghost predicate CheckTracked(s: State, e: Event)
    requires Rest(s)
  {
    match e
    case Tick(cb) =>
      TickInv(s);
      DrainTracked(Ticked(s), cb)
    case Call(op) => true
  }

  ghost predicate CheckKeeps(s: State, e: Event)
    requires Rest(s)
  {
    match e
    case Tick(cb) =>
      TickInv(s);
      DrainKeeps(Ticked(s), cb)
    case Call(op) => true
  }

  /** In every state of a run, also between the rounds of a check. */
  ghost predicate TrackedThroughout(s: State, es: seq<Event>)
    requires Rest(s)
    decreases |es|
  {
    Tracked(s) && (es != [] ==> CheckTracked(s, es[0]) && TrackedThroughout(Step(s, es[0]), es[1..]))
  }

  ghost predicate NeverLoses(s: State, es: seq<Event>)
    requires Rest(s)
    decreases |es|
  {
    es != [] ==> CheckKeeps(s, es[0]) && NeverLoses(Step(s, es[0]), es[1..])
  }

  /** Over every run: activated timers are linked, or their callback runs, in every state exactly
      when no firing is that of a periodic timer whose callback unmakes it. */
  lemma {:induction false} TrackedIffNeverLoses(s: State, es: seq<Event>)
    requires Rest(s) && Tracked(s)
    ensures TrackedThroughout(s, es) <==> NeverLoses(s, es)
    decreases |es|
  {
    if es != [] {
      match es[0]
      case Tick(cb) =>
        TickInv(s);
        DrainTrackedIff(Ticked(s), cb);
        if DrainKeeps(Ticked(s), cb) { TrackedIffNeverLoses(Step(s, es[0]), es[1..]); }
      case Call(op) =>
        DoTracked(s, op);
        TrackedIffNeverLoses(Step(s, es[0]), es[1..]);
    }
  }

  /** A timer of period 1 whose callback makes it one-shot. */
  const PERIODIC: map<Id, Timer> := map[0 := Timer(1, true, false, 0, 0)]

  const ONE_SHOT: Callbacks := map[0 := [SetPeriodic(0, false)]]

  /** One timer, of period 1, is linked and due on the next tick. */
  ghost predicate OneLinked(s: State) {
    && |s.rows| == 1 && Active(s) == [0] && 0 in s.tm && s.tm[0].periodic && s.tm[0].active
    && s.tm[0].due == s.clock + 1 && s.temp == ListHead
  }

  lemma LosingStart()
    ensures Rest(Boot(PERIODIC, 1)) && OneLinked(Step(Boot(PERIODIC, 1), Call(Start(0))))
  {
    BootRest(PERIODIC, 1);
    var s := Boot(PERIODIC, 1);
    StartSetsDue(s, 0);
    StartMembers(s, 0, 0);
    OnlyMember(s, Started(s, 0));
  }

  lemma LosingTick(s: State)
    requires Rest(s) && OneLinked(s)
    ensures var r := Step(s, Tick(ONE_SHOT));
      Active(r) == [] && 0 in r.tm && r.tm[0].active && r.temp == ListHead
  {
    TickInv(s);
    var s1 := Ticked(s);
    ExpiredIffDue(s1);
    FireInv(s1, ONE_SHOT);
    SmallerSet(DueNow(Fired(s1, ONE_SHOT)), DueNow(s1));
    LosingRound(s1);
    assert Drained(s1, ONE_SHOT) == Drained(Fired(s1, ONE_SHOT), ONE_SHOT) == Fired(s1, ONE_SHOT);
  }

  /** It is started, and fires on the next tick. */
  lemma LosingRun()
    ensures Rest(Boot(PERIODIC, 1))
    ensures var s := Exec(Boot(PERIODIC, 1), [Call(Start(0))] + [Tick(ONE_SHOT)]);
      0 in s.tm && s.tm[0].active && 0 !in Active(s) && s.temp == ListHead && !Tracked(s)
  {
    LosingStart();
    var s := Boot(PERIODIC, 1);
    var s1 := Step(s, Call(Start(0)));
    LosingTick(s1);
    assert ([Call(Start(0))] + [Tick(ONE_SHOT)])[1..] == [Tick(ONE_SHOT)] && [Tick(ONE_SHOT)][1..] == [];
    assert Exec(s, [Call(Start(0))] + [Tick(ONE_SHOT)]) == Exec(s1, [Tick(ONE_SHOT)]) == Step(s1, Tick(ONE_SHOT));
  }

  lemma OnlyMember(s: State, s1: State)
    requires s == Boot(PERIODIC, 1) && s1 == Started(s, 0)
    ensures Active(s1) == [0]
  {
    assert Active(Unlinked(s, 0)) == [];
  }

  lemma LosingRound(s: State)
    requires |s.rows| == 1 && Active(s) == [0] && 0 in s.tm && s.tm[0].periodic && s.tm[0].active && s.temp == ListHead
    ensures var r := Fired(s, ONE_SHOT);
      Active(r) == [] && 0 in r.tm && r.tm[0].active && r.temp == ListHead
  {
    var ops := [SetPeriodic(0, false)];
    assert ops[1..] == [];
    var s0 := Detached(s);
    assert DoAll(s0, ops) == Do(s0, ops[0]);
    assert Without([0], 0) == [];
  }

  // ------------------------------------------------------------------- the object

  ghost predicate PlacesIn(rows: Rows, pos: seq<nat>)
    requires |pos| == |rows|
  {
    forall l :: 0 <= l < |rows| ==> pos[l] <= |rows[l]|
  }

  /** The rows from `k` on have timer `x` at its place, the others are as they were. */
  ghost predicate PartInserted(was: Rows, rows: Rows, pos: seq<nat>, x: Id, k: int) {
    && |was| == |rows| == |pos| && PlacesIn(was, pos)
    && forall l :: 0 <= l < |rows| ==> rows[l] == if l >= k then InsertAt(was[l], pos[l], x) else was[l]
  }

  class TimerList {
    const rows: array<seq<Id>>
    var ticks: map<Id, nat>             // timeout_tick
    var tm: map<Id, Timer>
    var counter: nat                    // random_nr
    var temp: Head
    var tick: nat                       // rt_tick
    var clock: nat                      // history: ticks without wrapping
    var starts: nat                     // history: starts so far
    var log: seq<Firing>                // history: firings so far

    ghost predicate Valid()
      reads this, rows
    {
      rows.Length >= 1 && tick == clock % TICKS && Inv(View())
    }

    ghost function View(): State
      reads this, rows
    {
      State(clock, rows[..], ticks, tm, counter, temp, starts, log)
    }

    constructor (levels: nat, timers: map<Id, Timer>)
      requires levels >= 1 && forall x :: x in timers ==> Fits(timers[x]) && !timers[x].active
      ensures Valid() && fresh(rows) && View() == Boot(timers, levels)
    {
      rows := new seq<Id>[levels](i => []);
      ticks, tm, counter, temp, tick, clock, starts, log := map[], timers, 0, ListHead, 0, 0, 0, [];
      BootRest(timers, levels);
    }

    /** _rt_timer_remove: out of every row. */
    method RemoveRows(x: Id)
      modifies rows
      ensures rows[..] == RemovedFrom(old(rows[..]), x)
    {
      var l := 0;
      while l < rows.Length
        invariant 0 <= l <= rows.Length
        invariant forall k :: 0 <= k < rows.Length ==> rows[k] == if k < l then Without(old(rows[k]), x)
            else old(rows[k])
      {
        rows[l] := Without(rows[l], x);
        l := l + 1;
      }
    }

    /** _rt_timer_remove and clearing the activated flag. */
    method Remove(x: Id)
      requires x in tm
      modifies this`tm, this`temp, rows
      ensures View() == Unlinked(old(View()), x)
    {
      RemoveRows(x);
      if temp == Node(x) { temp := ListHead; }
      tm := tm[x := tm[x].(active := false)];
    }

    /** The walk along one row, from position `p`. */
    method Walk(row: seq<Id>, v: nat, p: nat) returns (q: nat)
      requires v < TICKS && p <= |row|
      ensures q == Scan(row, ticks, v, p)
    {
      q := p;
      while q < |row| && Passed(ticks, row[q], v)
        invariant p <= q <= |row| && Scan(row, ticks, v, q) == Scan(row, ticks, v, p)
      {
        q := q + 1;
      }
    }

    /** The search of rt_timer_start from the first row down. */
    method FindPlaces(v: nat) returns (pos: seq<nat>)
      requires v < TICKS
      ensures pos == Places(rows[..], ticks, v, rows.Length)
    {
      pos := [];
      var head := ListHead;
      ghost var all := rows[..];
      var l := 0;
      while l < rows.Length
        invariant l <= |all| && head == HeadInto(all, ticks, v, l) && pos == Places(all, ticks, v, l)
      {
        var p := Walk(rows[l], v, After(rows[l], head));
        pos := pos + [p];
        head := HeadAt(rows[l], p);
        l := l + 1;
      }
    }

    /** Sets the timeout tick and finds the places for it. */
    method Aim(x: Id) returns (pos: seq<nat>)
      requires rows.Length >= 1 && tick == clock % TICKS && x in tm
      modifies this`ticks
      ensures ticks == old(ticks)[x := StartTick(old(View()), x)]
      ensures pos == Places(rows[..], ticks, StartTick(old(View()), x), rows.Length)
    {
      var v := (tick + tm[x].init) % TICKS;
      ModTwice(clock, tm[x].init);
      ticks := ticks[x := v];
      pos := FindPlaces(v);
    }

    /** The insertion of rt_timer_start: always into the last row, and into rows above it while
        the counter's low bits are zero. */
    method LinkUp(x: Id)
      requires rows.Length >= 1 && tick == clock % TICKS && x in tm && Linear(View(), x)
      modifies this`ticks, this`tm, this`counter, this`starts, rows
      ensures View() == LinkedUp(old(View()), x)
    {
      ghost var s, v := View(), StartTick(View(), x);
      var pos := Aim(x);
      assert rows[..] == s.rows && ticks == s.ticks[x := v];
      LinearPlaces(s, x, pos);
      SameStartTick(s, View(), x);
      LinkAt(x, v, pos);
      AimedLinksSame(s, x);
    }

    method LinkAt(x: Id, ghost v: nat, pos: seq<nat>)
      requires rows.Length >= 1 && x in tm && v == StartTick(View(), x) && x in ticks && ticks[x] == v
      requires AtScan(rows[..], ticks, v, pos)
      modifies this`tm, this`counter, this`starts, rows
      ensures View() == LinkedUp(old(View()), x)
    {
      assert ticks[x := v] == ticks;
      counter := (counter + 1) % TICKS;
      InsertRows(x, v, pos);
      tm := tm[x := tm[x].(active := true, due := clock + tm[x].init, order := starts)];
      starts := starts + 1;
    }

    /** rt_timer_start */
    method Start(x: Id)
      requires Valid() && x in tm
      modifies this, rows
      ensures Valid() && View() == Started(old(View()), x)
    {
      StartInv(View(), x);
      Restart(x);
    }

    /** rt_timer_stop inside a section, as in a callback. */
    method Stop(x: Id) returns (err: Outcome)
      requires Valid() && x in tm
      modifies this, rows
      ensures Valid() && View() == Stopped(old(View()), x) && err == if old(tm)[x].active then EOk else EError
    {
      StopInv(View(), x);
      if !tm[x].active { return EError; }
      Remove(x);
      err := EOk;
    }

    /** The test of rt_timer_stop, with interrupts enabled. */
    method TestStop(x: Id) returns (err: Outcome)
      requires x in tm
      ensures err == if tm[x].active then EOk else EError
    {
      err := if !tm[x].active then EError else EOk;
    }

    /** The section of rt_timer_stop, whatever has become of the timer since the test. */
    method StopNow(x: Id)
      requires Valid() && Rest(View()) && x in tm
      modifies this, rows
      ensures Valid() && View() == Stopped(old(View()), x)
    {
      LateStopIsStop(View(), x);
      StopInv(View(), x);
      Remove(x);
    }

    /** What a callback does, one operation: rt_timer_start, rt_timer_stop, rt_timer_control. */
    method Perform(op: Op)
      requires Valid()
      modifies this, rows
      ensures Valid() && View() == Do(old(View()), op)
    {
      DoInv(View(), op);
      if op.id in tm {
        match op
        case Start(x) => Start(x);
        case Stop(x) => var _ := Stop(x);
        case SetTime(x, d) => if 1 <= d < HALF { tm := tm[x := tm[x].(init := d)]; }
        case SetPeriodic(x, on) => tm := tm[x := tm[x].(periodic := on)];
      }
    }

    method RunCallback(ops: seq<Op>)
      requires Valid()
      modifies this, rows
      ensures Valid() && View() == DoAll(old(View()), ops)
    {
      var i := 0;
      assert ops[0..] == ops;
      while i < |ops|
        invariant 0 <= i <= |ops| && Valid()
        invariant DoAll(View(), ops[i..]) == DoAll(old(View()), ops)
      {
        assert ops[i..][1..] == ops[i + 1..];
        Perform(ops[i]);
        i := i + 1;
      }
    }

    /** rt_timer_check: fires expired timers from the front of the last row until none is left. */
    method Check(cb: Callbacks)
      requires Valid() && temp == ListHead
      modifies this, rows
      ensures Valid() && View() == Drained(old(View()), cb)
    {
      var expired := FirstExpired();
      while expired
        invariant Valid() && temp == ListHead && expired == HeadExpired(View())
        invariant Drained(View(), cb) == Drained(old(View()), cb)
        decreases |DueNow(View())|, expired
      {
        FireInv(View(), cb);
        SmallerSet(DueNow(Fired(View(), cb)), DueNow(View()));
        FireOne(cb);
        expired := FirstExpired();
      }
    }

    /** The loop condition of rt_timer_check. */
    method FirstExpired() returns (r: bool)
      requires rows.Length >= 1 && tick == clock % TICKS
      ensures r == HeadExpired(View())
    {
      var last := rows[rows.Length - 1];
      r := last != [] && Diff(tick, TickOf(ticks, last[0])) < HALF;
    }

    method FireOne(cb: Callbacks)
      requires Valid() && temp == ListHead && HeadExpired(View()) && Active(View())[0] in tm
      modifies this, rows
      ensures Valid() && View() == Fired(old(View()), cb)
    {
      var t := rows[rows.Length - 1][0];
      DetachInv(View());
      Detach(t);
      DoAllShrinksDue(View(), OpsOf(cb, t));
      RunCallback(OpsOf(cb, t));
      Finish(t);
    }

    method Detach(t: Id)
      requires rows.Length >= 1 && Active(View()) != [] && t == Active(View())[0] && t in tm
      modifies this, rows
      ensures View() == Detached(old(View())) && tick == old(tick)
      ensures temp == Node(t)
    {
      log := log + [Firing(t, clock, tm[t].due, tm[t].order)];
      RemoveRows(t);
      if !tm[t].periodic { tm := tm[t := tm[t].(active := false)]; }
      temp := Node(t);
      assert tm[t := tm[t]] == tm;
    }

    /** Whether the callback stopped or restarted the timer shows in the temporary list. */
    method Finish(t: Id)
      requires Valid() && (temp == ListHead || temp == Node(t))
      modifies this, rows
      ensures Valid() && View() == Finished(old(View()), t)
    {
      FinishInv(View(), t);
      if temp == ListHead { return; }
      temp := ListHead;
      if t in tm && tm[t].periodic && tm[t].active { Restart(t); }
    }

    method Restart(t: Id)
      requires rows.Length >= 1 && tick == clock % TICKS && t in tm && Inv(View())
      modifies this, rows
      ensures View() == Started(old(View()), t) && tick == old(tick) && clock == old(clock)
    {
      StartLinear(View(), t);
      Remove(t);
      LinkUp(t);
    }

    /** The timer part of rt_tick_increase. */
    method TickIncrease(cb: Callbacks)
      requires Valid() && Rest(View())
      modifies this, rows
      ensures Valid() && Rest(View()) && View() == Step(old(View()), Tick(cb))
    {
      TickInv(View());
      DrainLeavesNoneExpired(Ticked(View()), cb);
      clock := clock + 1;
      tick := (tick + 1) % TICKS;
      Check(cb);
    }

    /** Links the timer into row `l`, when it is in all rows behind. */
    method InsertRow(x: Id, ghost was: seq<seq<Id>>, pos: seq<nat>, l: nat)
      requires l < rows.Length && |was| == |pos| == rows.Length && PlacesIn(was, pos)
      requires PartInserted(was, rows[..], pos, x, l + 1)
      modifies rows
      ensures PartInserted(was, rows[..], pos, x, l)
    {
      rows[l] := InsertAt(rows[l], pos[l], x);
    }

    method InsertRows(x: Id, ghost v: nat, pos: seq<nat>)
      requires v < TICKS && rows.Length >= 1 && AtScan(rows[..], ticks, v, pos)
      modifies rows
      ensures rows[..] == Inserted(old(rows[..]), ticks, x, v, Height(counter, rows.Length))
    {
      var n := rows.Length;
      ghost var was := rows[..];
      InsertRow(x, was, pos, n - 1);
      var h, bits: nat := 1, counter;
      while h < n && bits % MASK_VALUES == 0
        invariant 1 <= h <= n && Height(bits, n, h) == Height(counter, n)
        invariant PartInserted(was, rows[..], pos, x, n - h)
      {
        InsertRow(x, was, pos, n - 1 - h);
        bits := bits / MASK_VALUES;
        h := h + 1;
      }
      RowsInserted(old(rows[..]), ticks, x, v, h, rows[..]);
    }
  }

  /** The places found for a start are those of a linear search. */
  ghost predicate Linear(s: State, x: Id)
    requires x in s.tm
  {
    var v := StartTick(s, x);
    forall l :: 0 <= l < |s.rows| ==> DescendTo(s.rows, s.ticks[x := v], v, l) == Scan(s.rows[l], s.ticks[x := v], v, 0)
  }

  lemma LinearPlaces(s: State, x: Id, pos: seq<nat>)
    requires x in s.tm && Linear(s, x) && pos == Places(s.rows, s.ticks[x := StartTick(s, x)], StartTick(s, x),
        |s.rows|)
    ensures AtScan(s.rows, s.ticks[x := StartTick(s, x)], StartTick(s, x), pos)
  {
  }

  /** `pos` holds, for every row, the place that a linear search finds. */
  ghost predicate AtScan(rows: Rows, ticks: map<Id, nat>, v: nat, pos: seq<nat>)
    requires v < TICKS
  {
    |pos| == |rows| && forall l :: 0 <= l < |pos| ==> pos[l] == Scan(rows[l], ticks, v, 0)
  }

  lemma StartLinear(s: State, x: Id)
    requires Inv(s) && x in s.tm
    ensures Linear(Unlinked(s, x), x)
  {
    UnlinkedInv(s, x);
    PlacesLinear(Unlinked(s, x), x);
  }

  lemma PlacesLinear(s: State, x: Id)
    requires Inv(s) && x in s.tm && forall l :: 0 <= l < |s.rows| ==> x !in s.rows[l]
    ensures Linear(s, x)
  {
    assert Fits(s.tm[x]);
    InsertSkip(s, x);
    var v := StartTick(s, x);
    forall l | 0 <= l < |s.rows| ensures DescendTo(s.rows, s.ticks[x := v], v, l)
        == Scan(s.rows[l], s.ticks[x := v], v, 0) {
      DescentIsLinear(s.rows, s.ticks[x := v], Now(s), v, l);
    }
  }

  lemma SameStartTick(s: State, s1: State, x: Id)
    requires x in s.tm && s1.tm == s.tm && s1.clock == s.clock
    ensures StartTick(s1, x) == StartTick(s, x)
  {
  }

  lemma AimedLinksSame(s: State, x: Id)
    requires x in s.tm && |s.rows| >= 1
    ensures LinkedUp(s.(ticks := s.ticks[x := StartTick(s, x)]), x) == LinkedUp(s, x)
  {
    var v := StartTick(s, x);
    assert s.ticks[x := v][x := v] == s.ticks[x := v];
  }

  lemma RowsInserted(rows: Rows, ticks: map<Id, nat>, x: Id, v: nat, h: nat, rows1: Rows)
    requires v < TICKS && |rows| == |rows1|
    requires forall l :: 0 <= l < |rows| ==>
      rows1[l] == if l >= |rows| - h then InsertAt(rows[l], Scan(rows[l], ticks, v, 0), x) else rows[l]
    ensures rows1 == Inserted(rows, ticks, x, v, h)
  {
  }

  lemma ModTwice(clock: nat, d: nat)
    ensures (clock % TICKS + d) % TICKS == (clock + d) % TICKS
  {
  }
}
