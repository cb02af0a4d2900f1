/** What is known of a blocking call from the outside: its arguments, the events that have hit it
    and what it has obtained. The IPC objects are measured against such histories, which are
    built from events and answers alone. */
module CallHistory {
  import opened WaitList

  /** The current or last call of a thread: `time` is the timeout it asked for, `spent` the ticks
      it has waited in ended waits, `hit` the timeout or reset that ended its wait, and `moved`
      the number of tokens or messages it has been part of. */
  datatype Visit<C> = Visit(call: C, time: int, spent: nat, hit: Outcome, moved: nat)

  type Visits<C> = map<Tid, Visit<C>>

  function Struck<C>(vs: Visits<C>, ts: set<Tid>, err: Outcome): Visits<C> {
    map t | t in vs :: if t in ts then vs[t].(hit := err) else vs[t]
  }

  function Credited<C>(vs: Visits<C>, ts: set<Tid>): Visits<C> {
    map t | t in vs :: if t in ts then vs[t].(moved := vs[t].moved + 1) else vs[t]
  }

  function Spent<C>(vs: Visits<C>, t: Tid, ticks: nat): Visits<C> {
    if t in vs then vs[t := vs[t].(spent := vs[t].spent + ticks)] else vs
  }

  /** A suspended call has obtained nothing and was hit by nothing. It did not ask for an
      immediate answer, and its timer, if it has one, runs for what is left of its time. */
  predicate OnWait<C>(v: Visit<C>, timeout: int) {
    && v.moved == 0 && v.hit == EOk && v.time != 0
    && (if v.time < 0 then timeout < 0 else timeout == v.time - v.spent && timeout > 0)
  }

  /** What a failed call may report: the reset that hit it; the timeout that hit it, if it had a
      time limit; or, if nothing hit it, `full` once its time limit was used up. A call without
      a time limit never runs out of time. */
  predicate MayFail<C>(v: Visit<C>, err: Outcome, full: Outcome) {
    && v.moved == 0
    && (v.hit == EOk ==> err == full && 0 <= v.time <= v.spent)
    && (v.hit != EOk ==> err == v.hit && (err == ETimeout ==> v.time > 0))
  }

  /** Both say how long to wait; every negative time means forever. */
  predicate SameTime(a: int, b: int) {
    if b < 0 then a < 0 else a == b
  }
}
