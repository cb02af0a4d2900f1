/** Event flags (src/ipc.c): a word of 32 bits on which threads wait for all or any of a set
    of bits, and which a send walks waiter by waiter. */
module EventFlags {
  import opened WaitList
  import opened CallHistory

  /** A word, as the set of the positions of its one bits (see WordOperations). */
  type Bits = set<nat>

  /** RT_EVENT_FLAG_AND, RT_EVENT_FLAG_OR and RT_EVENT_FLAG_CLEAR. */
  datatype Flags = Flags(all: bool, any: bool, clear: bool)

  /** event_set and event_info of a thread: the bits and the option of its request, and after
      a wakeup the bits it received. */
  datatype Info = Info(bits: Bits, option: Flags)

  datatype Ev = Ev(word: Bits, waiters: seq<Tid>, info: map<Tid, Info>)

  function InfoOf(m: Ev, t: Tid): Info {
    if t in m.info then m.info[t] else Info({}, Flags(false, false, false))
  }

  predicate ValidOption(option: Flags) {
    option.all || option.any
  }

  /** Whether the word satisfies a request; AND decides when both flags are given. */
  predicate Meets(word: Bits, want: Info) {
    if want.option.all then want.bits <= word
    else want.option.any && word * want.bits != {}
  }

  // ------------------------------------------------------ the sections, on values

  /** What an immediate receive does when its request is met. */
  function ReceiveNow(m: Ev, t: Tid, want: Info): Ev {
    Ev(if want.option.clear then m.word - want.bits else m.word, m.waiters,
       m.info[t := Info(m.word * want.bits, want.option)])
  }

  function Suspend(m: Ev, prio: map<Tid, nat>, order: Order, t: Tid, want: Info): Ev {
    Ev(m.word, Enqueue(m.waiters, prio, order, t), m.info[t := want])
  }

  /** The bits a send hands to a waiter: those of an AND request as they are, those of an OR
      request masked by the word. */
  function Handed(word: Bits, want: Info): Bits {
    if want.option.all then want.bits else want.bits * word
  }

  function WakeAt(m: Ev, n: nat): Ev
    requires n < |m.waiters|
  {
    var t := m.waiters[n];
    var want := InfoOf(m, t);
    var got := Handed(m.word, want);
    Ev(if want.option.clear then m.word - got else m.word,
       m.waiters[..n] + m.waiters[n + 1..], m.info[t := Info(got, want.option)])
  }

  datatype Walked = Walked(ev: Ev, woken: seq<Tid>, err: Outcome)

  /** The walk of rt_event_send from position `n` of the list on. A waiter with neither flag
      ends it. */
  function Walk(m: Ev, n: nat, woken: seq<Tid>): Walked
    requires n <= |m.waiters|
    decreases |m.waiters| - n
  {
    if n == |m.waiters| then Walked(m, woken, EOk)
    else if !ValidOption(InfoOf(m, m.waiters[n]).option) then Walked(m, woken, EInval)
    else if Meets(m.word, InfoOf(m, m.waiters[n])) then Walk(WakeAt(m, n), n, woken + [m.waiters[n]])
    else Walk(m, n + 1, woken)
  }

  function SendIt(m: Ev, bits: Bits): Walked {
    if bits == {} then Walked(m, [], EError) else Walk(m.(word := m.word + bits), 0, [])
  }

  datatype Received = Bits(got: Bits) | NoWait | Suspended | Refused

  class EventObject {
    const order: Order
    var word: Bits
    var waiters: seq<Tid>
    var info: map<Tid, Info>           // event_set and event_info of every thread

    ghost function View(): Ev
      reads this
    {
      Ev(word, waiters, info)
    }

    constructor (order: Order, info: map<Tid, Info>)
      ensures View() == Ev({}, [], info) && this.order == order
    {
      this.order := order;
      word, waiters, this.info := {}, [], info;
    }

    /** Wakes the waiter at position `n`; its successor takes that position. */
    method Wake(n: nat)
      requires n < |waiters|
      modifies this
      ensures View() == WakeAt(old(View()), n)
    {
      var t := waiters[n];
      var want := if t in info then info[t] else Info({}, Flags(false, false, false));
      var got := want.bits;
      if !want.option.all { got := want.bits * word; }
      info := info[t := Info(got, want.option)];
      if want.option.clear { word := word - got; }
      waiters := waiters[..n] + waiters[n + 1..];
    }

    method Send(bits: Bits) returns (err: Outcome, woken: seq<Tid>)
      modifies this
      ensures Walked(View(), woken, err) == SendIt(old(View()), bits)
    {
      woken := [];
      if bits == {} { return EError, []; }
      word := word + bits;
      var n := 0;
      while n < |waiters|
        invariant 0 <= n <= |waiters|
        invariant Walk(View(), n, woken) == SendIt(old(View()), bits)
        decreases |waiters| - n
      {
        var t := waiters[n];
        var want := if t in info then info[t] else Info({}, Flags(false, false, false));
        if !ValidOption(want.option) { return EInval, woken; }
        var met := Satisfies(word, want);
        if met {
          Wake(n);
          woken := woken + [t];
        } else {
          n := n + 1;
        }
      }
      err := EOk;
    }

    method Satisfies(w: Bits, want: Info) returns (met: bool)
      ensures met == Meets(w, want)
    {
      met := false;
      if want.option.all {
        if want.bits <= w { met := true; }
      } else if want.option.any {
        if w * want.bits != {} { met := true; }
      }
    }

    /** rt_event_recv up to the point where it returns or suspends. */
    method Receive(t: Tid, want: Info, timeout: int, prio: map<Tid, nat>) returns (r: Received)
      requires ValidOption(want.option)
      modifies this
      ensures r == if want.bits == {} then Refused
                   else if Meets(old(word), want) then Bits(old(word) * want.bits)
                   else if timeout == 0 then NoWait else Suspended
      ensures View() == match r
        case Bits(_) => ReceiveNow(old(View()), t, want)
        case Suspended => Suspend(old(View()), prio, order, t, want)
        case _ => old(View())
    {
      if want.bits == {} { return Refused; }
      var met := Satisfies(word, want);
      if met {
        r := Bits(word * want.bits);
        info := info[t := Info(word * want.bits, want.option)];
        if want.option.clear { word := word - want.bits; }
      } else if timeout == 0 {
        r := NoWait;
      } else {
        info := info[t := want];
        waiters := SuspendOn(waiters, prio, order, t);
        r := Suspended;
      }
    }

    method Reset() returns (woken: seq<Tid>)
      modifies this
      ensures View() == Ev({}, [], old(info)) && woken == old(waiters)
    {
      woken := [];
      while waiters != []
        invariant woken + waiters == old(waiters) && info == old(info)
        decreases |waiters|
      {
        woken := woken + [waiters[0]];
        waiters := waiters[1..];
      }
      word := {};
    }
  }

  // --------------------------------------- a send is a round of immediate receives

  /** Every thread of `ts`, in turn, tries an immediate receive of what it asked for; those
      that succeed leave the list. */
  function AskAll(m: Ev, ts: seq<Tid>, woken: seq<Tid>): Walked
    decreases |ts|
  {
    if ts == [] then Walked(m, woken, EOk)
    else if Meets(m.word, InfoOf(m, ts[0])) then
      AskAll(ReceiveNow(m, ts[0], InfoOf(m, ts[0])).(waiters := Without(m.waiters, ts[0])), ts[1..], woken + [ts[0]])
    else AskAll(m, ts[1..], woken)
  }

  lemma BitsHanded(word: Bits, want: Info)
    requires Meets(word, want)
    ensures Handed(word, want) == word * want.bits && Answers(Handed(word, want), want)
    ensures word - Handed(word, want) == word - want.bits
  {
  }

  ghost predicate OptionsValid(m: Ev) {
    NoDup(m.waiters) && forall t :: t in m.waiters ==> ValidOption(InfoOf(m, t).option)
  }

  /** Waking the waiter at `n` is that waiter's own immediate receive. */
  lemma WakeIsReceive(m: Ev, n: nat)
    requires OptionsValid(m) && n < |m.waiters| && Meets(m.word, InfoOf(m, m.waiters[n]))
    ensures var t := m.waiters[n];
      && WakeAt(m, n) == ReceiveNow(m, t, InfoOf(m, t)).(waiters := Without(m.waiters, t))
      && OptionsValid(WakeAt(m, n)) && WakeAt(m, n).waiters[n..] == m.waiters[n..][1..]
  {
    var t := m.waiters[n];
    BitsHanded(m.word, InfoOf(m, t));
    WithoutAt(m.waiters, n);
    WithoutNoDup(m.waiters, t);
  }

  /** For every list of valid requests, walking the list gives the same word, the same list,
      the same received bits and the same woken threads as asking the threads one by one. */
  lemma {:induction false} WalkIsReceives(m: Ev, n: nat, woken: seq<Tid>)
    requires OptionsValid(m) && n <= |m.waiters|
    ensures Walk(m, n, woken) == AskAll(m, m.waiters[n..], woken)
    decreases |m.waiters| - n
  {
    if n < |m.waiters| {
      if Meets(m.word, InfoOf(m, m.waiters[n])) {
        WakeIsReceive(m, n);
        WalkIsReceives(WakeAt(m, n), n, woken + [m.waiters[n]]);
      } else {
        WalkIsReceives(m, n + 1, woken);
      }
    }
  }

  /** rt_event_send equals an immediate receive by each waiter in list order. */
  lemma SendIsReceives(m: Ev, bits: Bits)
    requires OptionsValid(m) && bits != {}
    ensures SendIt(m, bits) == AskAll(m.(word := m.word + bits), m.waiters, [])
  {
    var m1 := m.(word := m.word + bits);
    assert m1.waiters[0..] == m1.waiters;
    WalkIsReceives(m1, 0, []);
  }

  // ------------------------------------------------------- what a walk leaves behind

  /** `got` is a proper answer to a request: nothing that was not asked for, all of an AND
      request, and something of an OR request. */
  predicate Answers(got: Bits, want: Info) {
    && got - want.bits == {}
    && (if want.option.all then got == want.bits else got != {})
  }

  /** The walk, described waiter by waiter. */
  ghost predicate WalkResult(m: Ev, r: Walked, woken: seq<Tid>) {
    && r.err == EOk && NoDup(r.ev.waiters) && r.ev.word <= m.word
    && (forall t :: t in r.ev.waiters ==> t in m.waiters && !Meets(r.ev.word, InfoOf(m, t)))
    && (forall t :: t in r.woken <==> t in woken || (t in m.waiters && t !in r.ev.waiters))
    && (forall t :: t in m.waiters && t !in r.ev.waiters ==>
          Answers(InfoOf(r.ev, t).bits, InfoOf(m, t)) && r.ev.word * InfoOf(m, t).bits <= InfoOf(r.ev, t).bits)
    && (forall t :: t !in m.waiters || t in r.ev.waiters ==> InfoOf(r.ev, t) == InfoOf(m, t))
  }

  ghost predicate Unmet(m: Ev, n: nat)
    requires n <= |m.waiters|
  {
    forall i :: 0 <= i < n ==> !Meets(m.word, InfoOf(m, m.waiters[i]))
  }

  lemma WakeKeepsUnmet(m: Ev, n: nat)
    requires OptionsValid(m) && n < |m.waiters| && Unmet(m, n)
    ensures Unmet(WakeAt(m, n), n)
  {
  }

  lemma {:induction false} WalkDescribed(m: Ev, n: nat, woken: seq<Tid>)
    requires OptionsValid(m) && n <= |m.waiters| && Unmet(m, n)
    ensures WalkResult(m, Walk(m, n, woken), woken)
    decreases |m.waiters| - n
  {
    if n == |m.waiters| {
    } else if Meets(m.word, InfoOf(m, m.waiters[n])) {
      WakeIsReceive(m, n);
      WakeKeepsUnmet(m, n);
      WalkDescribed(WakeAt(m, n), n, woken + [m.waiters[n]]);
      WalkCompose(m, n, woken, Walk(m, n, woken));
    } else {
      WalkDescribed(m, n + 1, woken);
    }
  }

  lemma WalkCompose(m: Ev, n: nat, woken: seq<Tid>, r: Walked)
    requires OptionsValid(m) && n < |m.waiters| && Meets(m.word, InfoOf(m, m.waiters[n]))
    requires WalkResult(WakeAt(m, n), r, woken + [m.waiters[n]])
    ensures WalkResult(m, r, woken)
  {
    var t, m1 := m.waiters[n], WakeAt(m, n);
    WakeIsReceive(m, n);
    BitsHanded(m.word, InfoOf(m, t));
    ComposeMembers(m.waiters, m1.waiters, r.ev.waiters, woken, t, r.woken);
    forall u ensures u != t ==> InfoOf(m1, u) == InfoOf(m, u) {}
    forall u | u in r.ev.waiters ensures !Meets(r.ev.word, InfoOf(m, u)) { assert u in m1.waiters; }
    forall u | u in m.waiters && u !in r.ev.waiters
      ensures Answers(InfoOf(r.ev, u).bits, InfoOf(m, u)) && r.ev.word * InfoOf(m, u).bits <= InfoOf(r.ev, u).bits
    {
      if u != t { assert u in m1.waiters; }
    }
    forall u | u !in m.waiters || u in r.ev.waiters ensures InfoOf(r.ev, u) == InfoOf(m, u) {
      assert u != t;
    }
  }

  lemma ComposeMembers(all: seq<Tid>, rest: seq<Tid>, left: seq<Tid>, woken: seq<Tid>, t: Tid, out: seq<Tid>)
    requires t in all && rest == Without(all, t) && forall u :: u in left ==> u in rest
    requires forall u :: u in out <==> u in woken + [t] || (u in rest && u !in left)
    ensures forall u :: u in left ==> u in all && u != t
    ensures forall u :: u in out <==> u in woken || (u in all && u !in left)
  {
  }

  // ---------------------------------------------------------- bits are handed out once

  predicate Served(m: Ev, r: Walked, t: Tid) {
    t in m.waiters && t !in r.ev.waiters
  }

  predicate Clears(m: Ev, r: Walked, t: Tid) {
    Served(m, r, t) && InfoOf(m, t).option.clear
  }

  /** The bits handed out come from the word; bits handed to a clearing receiver are gone from
      the word and from every other clearing receiver; and only such bits are gone. */
  ghost predicate HandedOnce(m: Ev, r: Walked) {
    && (forall t :: Served(m, r, t) ==> InfoOf(r.ev, t).bits <= m.word)
    && (forall t :: Clears(m, r, t) ==> InfoOf(r.ev, t).bits !! r.ev.word)
    && (forall t, u :: Clears(m, r, t) && Clears(m, r, u) && t != u ==> InfoOf(r.ev, t).bits !! InfoOf(r.ev, u).bits)
    && (forall b :: b in m.word && b !in r.ev.word ==> exists t :: Clears(m, r, t) && b in InfoOf(r.ev, t).bits)
  }

  lemma {:induction false} WalkHandsOnce(m: Ev, n: nat, woken: seq<Tid>)
    requires OptionsValid(m) && n <= |m.waiters| && Unmet(m, n)
    ensures HandedOnce(m, Walk(m, n, woken))
    decreases |m.waiters| - n
  {
    if n == |m.waiters| {
    } else if Meets(m.word, InfoOf(m, m.waiters[n])) {
      WakeIsReceive(m, n);
      WakeKeepsUnmet(m, n);
      WalkHandsOnce(WakeAt(m, n), n, woken + [m.waiters[n]]);
      WalkDescribed(WakeAt(m, n), n, woken + [m.waiters[n]]);
      WakeShare(m, n, woken + [m.waiters[n]], Walk(m, n, woken));
      HandOnceMore(m, WakeAt(m, n), m.waiters[n], Walk(m, n, woken));
    } else {
      WalkHandsOnce(m, n + 1, woken);
    }
  }

  /** What the first wake-up of a walk contributes to the whole. */
  ghost predicate FirstShare(m: Ev, m1: Ev, t: Tid, r: Walked) {
    && Served(m, r, t) && t !in m1.waiters && InfoOf(r.ev, t).bits <= m.word && r.ev.word <= m1.word <= m.word
    && (forall u :: u != t ==> (Served(m, r, u) <==> Served(m1, r, u)) && (Clears(m, r, u) <==> Clears(m1, r, u)))
    && (if Clears(m, r, t) then m1.word == m.word - InfoOf(r.ev, t).bits else m1.word == m.word)
  }

  lemma WakeShare(m: Ev, n: nat, woken: seq<Tid>, r: Walked)
    requires OptionsValid(m) && n < |m.waiters| && Meets(m.word, InfoOf(m, m.waiters[n]))
    requires WalkResult(WakeAt(m, n), r, woken)
    ensures FirstShare(m, WakeAt(m, n), m.waiters[n], r)
  {
  }

  lemma HandOnceMore(m: Ev, m1: Ev, t: Tid, r: Walked)
    requires FirstShare(m, m1, t, r) && HandedOnce(m1, r)
    ensures HandedOnce(m, r)
  {
  }

  /** Over one send: every bit of the word ends up in exactly one place, still in the word or
      with exactly one of the receivers that clear what they receive. */
  lemma SendConservesBits(m: Ev, bits: Bits)
    requires OptionsValid(m) && bits != {}
    ensures HandedOnce(m.(word := m.word + bits), SendIt(m, bits))
  {
    WalkHandsOnce(m.(word := m.word + bits), 0, []);
  }

  // ------------------------------------------------------------------ the protocol

  datatype Ret = Sent | Got(bits: Bits, want: Info) | Failed(err: Outcome)

  datatype Pc = Returned(r: Ret) | Waiting(want: Info, timeout: int) | Woken(want: Info, err: Outcome)

  datatype State = State(ev: Ev, pc: map<Tid, Pc>)

  datatype Config = Config(order: Order, prio: map<Tid, nat>)

  datatype Event =
    | Send(bits: Bits)                   // from any thread or interrupt handler
    | Receive(t: Tid, want: Info, timeout: int)
    | Run(t: Tid)                        // a woken thread returns from its receive
    | Expire(t: Tid)                     // the timer of a suspended thread
    | Reset

  function Roused(pc: map<Tid, Pc>, ts: seq<Tid>, err: Outcome): map<Tid, Pc> {
    map t | t in pc :: if t in ts && pc[t].Waiting? then Woken(pc[t].want, err) else pc[t]
  }

  function Step(c: Config, s: State, e: Event): State {
    match e
    case Send(bits) =>
      var w := SendIt(s.ev, bits);
      State(w.ev, Roused(s.pc, w.woken, EOk))
    case Receive(t, want, timeout) =>
      if t !in s.pc || !s.pc[t].Returned? || !ValidOption(want.option) then s
      else if want.bits == {} then s.(pc := s.pc[t := Returned(Failed(EError))])
      else if Meets(s.ev.word, want) then
        State(ReceiveNow(s.ev, t, want), s.pc[t := Returned(Got(s.ev.word * want.bits, want))])
      else if timeout == 0 then s.(pc := s.pc[t := Returned(Failed(ETimeout))])
      else State(Suspend(s.ev, c.prio, c.order, t, want), s.pc[t := Waiting(want, timeout)])
    case Run(t) =>
      if t in s.pc && s.pc[t].Woken? then
        s.(pc := s.pc[t := Returned(if s.pc[t].err == EOk then Got(InfoOf(s.ev, t).bits, s.pc[t].want)
                                    else Failed(s.pc[t].err))])
      else s
    case Expire(t) =>
      if t in s.pc && s.pc[t].Waiting? && s.pc[t].timeout > 0 then
        State(s.ev.(waiters := Without(s.ev.waiters, t)), s.pc[t := Woken(s.pc[t].want, ETimeout)])
      else s
    case Reset =>
      State(Ev({}, [], s.ev.info), Roused(s.pc, s.ev.waiters, EError))
  }

  function Exec(c: Config, s: State, es: seq<Event>): State
    decreases |es|
  {
    if es == [] then s else Exec(c, Step(c, s, es[0]), es[1..])
  }

  function Start(threads: set<Tid>): State {
    State(Ev({}, [], map[]), map t | t in threads :: Returned(Sent))
  }

  ghost predicate ListExact(s: State) {
    NoDup(s.ev.waiters) && forall t :: t in s.ev.waiters <==> t in s.pc && s.pc[t].Waiting?
  }

  /** What must hold of one thread: a waiter's request is valid, recorded and not met by the
      current word; a woken or returned receiver has a proper answer. */
  ghost predicate PcOk(m: Ev, t: Tid, p: Pc) {
    match p
    case Waiting(want, _) => ValidOption(want.option) && want.bits != {} && InfoOf(m, t) == want && !Meets(m.word, want)
    case Woken(want, err) => err == EOk ==> Answers(InfoOf(m, t).bits, want)
    case Returned(r) => r.Got? ==> Answers(r.bits, r.want)
  }

  ghost predicate Inv(s: State) {
    ListExact(s) && forall t :: t in s.pc ==> PcOk(s.ev, t, s.pc[t])
  }

  lemma SendInv(c: Config, s: State, bits: Bits)
    requires Inv(s)
    ensures Inv(Step(c, s, Send(bits)))
    ensures bits != {} ==> SendIt(s.ev, bits).err == EOk
  {
    var s1 := Step(c, s, Send(bits));
    if bits == {} {
      assert s1.pc == s.pc;
    } else {
      var m := s.ev.(word := s.ev.word + bits);
      assert OptionsValid(m) by {
        forall t | t in m.waiters ensures ValidOption(InfoOf(m, t).option) { assert PcOk(s.ev, t, s.pc[t]); }
      }
      WalkDescribed(m, 0, []);
      SentInv(s, m, SendIt(s.ev, bits));
    }
  }

  lemma SentInv(s: State, m: Ev, r: Walked)
    requires Inv(s) && m.waiters == s.ev.waiters && m.info == s.ev.info && WalkResult(m, r, [])
    ensures Inv(State(r.ev, Roused(s.pc, r.woken, EOk)))
  {
    var pc1 := Roused(s.pc, r.woken, EOk);
    forall t | t in pc1 ensures PcOk(r.ev, t, pc1[t]) {
      assert PcOk(s.ev, t, s.pc[t]);
      assert InfoOf(m, t) == InfoOf(s.ev, t);
    }
    forall t ensures t in r.ev.waiters <==> t in pc1 && pc1[t].Waiting? {}
  }

  /** An immediate receive only takes bits away, so no waiter's request becomes met. */
  lemma ReceiveNowInv(s: State, t: Tid, want: Info)
    requires Inv(s) && t in s.pc && s.pc[t].Returned? && Meets(s.ev.word, want)
    ensures Inv(State(ReceiveNow(s.ev, t, want), s.pc[t := Returned(Got(s.ev.word * want.bits, want))]))
  {
  }

  lemma SuspendInv(c: Config, s: State, t: Tid, want: Info, timeout: int)
    requires Inv(s) && t in s.pc && s.pc[t].Returned? && ValidOption(want.option) && want.bits != {}
        && !Meets(s.ev.word, want)
    ensures Inv(State(Suspend(s.ev, c.prio, c.order, t, want), s.pc[t := Waiting(want, timeout)]))
  {
  }

  lemma PlainInv(s: State, t: Tid, p: Pc)
    requires Inv(s) && t in s.pc && !s.pc[t].Waiting? && !p.Waiting? && PcOk(s.ev, t, p)
    ensures Inv(s.(pc := s.pc[t := p]))
  {
  }

  lemma ExpireInv(c: Config, s: State, t: Tid)
    requires Inv(s)
    ensures Inv(Step(c, s, Expire(t)))
  {
    var s1 := Step(c, s, Expire(t));
    if s1 != s {
      WithoutNoDup(s.ev.waiters, t);
      forall u | u in s1.pc ensures PcOk(s1.ev, u, s1.pc[u]) { assert PcOk(s.ev, u, s.pc[u]); }
      forall u ensures u in s1.ev.waiters <==> u in s1.pc && s1.pc[u].Waiting? {}
    }
  }

  lemma ResetInv(c: Config, s: State)
    requires Inv(s)
    ensures Inv(Step(c, s, Reset))
  {
  }

  lemma StepInv(c: Config, s: State, e: Event)
    requires Inv(s)
    ensures Inv(Step(c, s, e))
  {
    match e
    case Send(bits) => SendInv(c, s, bits);
    case Receive(t, want, timeout) =>
      if t in s.pc && s.pc[t].Returned? && ValidOption(want.option) {
        if want.bits == {} { PlainInv(s, t, Returned(Failed(EError))); }
        else if Meets(s.ev.word, want) { ReceiveNowInv(s, t, want); }
        else if timeout == 0 { PlainInv(s, t, Returned(Failed(ETimeout))); }
        else { SuspendInv(c, s, t, want, timeout); }
      }
    case Run(t) =>
      if t in s.pc && s.pc[t].Woken? {
        assert PcOk(s.ev, t, s.pc[t]);
        PlainInv(s, t, Step(c, s, e).pc[t]);
      }
    case Expire(t) => ExpireInv(c, s, t);
    case Reset => ResetInv(c, s);
  }

  lemma {:induction false} ExecInv(c: Config, s: State, es: seq<Event>)
    requires Inv(s)
    ensures Inv(Exec(c, s, es))
    decreases |es|
  {
    if es != [] {
      StepInv(c, s, es[0]);
      ExecInv(c, Step(c, s, es[0]), es[1..]);
    }
  }

  /** In every reachable state a suspended AND request lacks some requested bit and a suspended
      OR request lacks them all, so nobody sleeps on bits that are there; every answer returned
      fits its request; and the walk never meets a waiter without AND or OR. */
  lemma NobodySleepsOnItsBits(c: Config, threads: set<Tid>, es: seq<Event>)
    ensures var s := Exec(c, Start(threads), es);
      && (forall t :: t in s.pc && s.pc[t].Waiting? ==>
            t in s.ev.waiters
            && if s.pc[t].want.option.all then exists b :: b in s.pc[t].want.bits && b !in s.ev.word
               else forall b :: b in s.pc[t].want.bits ==> b !in s.ev.word)
      && (forall t :: t in s.pc && s.pc[t].Returned? && s.pc[t].r.Got? ==> Answers(s.pc[t].r.bits, s.pc[t].r.want))
      && (forall bits :: bits != {} ==> SendIt(s.ev, bits).err == EOk)
  {
    ExecInv(c, Start(threads), es);
    var s := Exec(c, Start(threads), es);
    forall bits | bits != {} ensures SendIt(s.ev, bits).err == EOk { SendInv(c, s, bits); }
    forall t | t in s.pc && s.pc[t].Waiting?
      ensures if s.pc[t].want.option.all then exists b :: b in s.pc[t].want.bits && b !in s.ev.word
              else forall b :: b in s.pc[t].want.bits ==> b !in s.ev.word
    {
      assert PcOk(s.ev, t, s.pc[t]);
      NotMet(s.ev.word, s.pc[t].want);
    }
  }

  lemma NotMet(word: Bits, want: Info)
    requires ValidOption(want.option) && !Meets(word, want)
    ensures if want.option.all then exists b :: b in want.bits && b !in word
            else forall b :: b in want.bits ==> b !in word
  {
    forall b | b in want.bits && b in word ensures b in word * want.bits {}
  }

  /** The bits a woken thread was handed stay its own until it runs, whatever happens meanwhile. */
  lemma HandedBitsKept(c: Config, s: State, e: Event, t: Tid)
    requires Inv(s) && t in s.pc && s.pc[t].Woken? && s.pc[t].err == EOk && e != Run(t)
    ensures var s1 := Step(c, s, e);
      && s1.pc[t] == s.pc[t] && InfoOf(s1.ev, t) == InfoOf(s.ev, t)
  {
    if e.Send? && e.bits != {} {
      var m := s.ev.(word := s.ev.word + e.bits);
      assert OptionsValid(m) by {
        forall u | u in m.waiters ensures ValidOption(InfoOf(m, u).option) { assert PcOk(s.ev, u, s.pc[u]); }
      }
      WalkDescribed(m, 0, []);
    }
  }

  // ------------------------------------------------------ the history of the bits

  /** `lit` holds the bits sent since they were last taken by a receiver that clears, or reset;
      `now` counts events, and `since` tells when each thread last began to wait. */
  datatype History = History(lit: Bits, now: nat, since: map<Tid, nat>, visits: Visits<Info>)

  predicate Waits(s: State, t: Tid) {
    t in s.pc && s.pc[t].Waiting?
  }

  function Sleepers(s: State): set<Tid> {
    set t | t in s.pc && s.pc[t].Waiting?
  }

  /** Threads whose wait ends with success at this step. */
  function Admitted(s: State, s1: State): set<Tid> {
    set t | t in s.pc && Waits(s, t) && t in s1.pc && s1.pc[t].Woken? && s1.pc[t].err == EOk
  }

  /** The bits received by those of them that clear what they receive. */
  function Cleared(s: State, s1: State): Bits {
    set t, b | t in Admitted(s, s1) && s.pc[t].want.option.clear && b in InfoOf(s1.ev, t).bits :: b
  }

  function Note(h: History, s: State, e: Event, s1: State): History {
    var g := h.(now := h.now + 1);
    match e
    case Send(bits) =>
      g.(lit := h.lit + bits - Cleared(s, s1), visits := Credited(h.visits, Admitted(s, s1)))
    case Receive(t, want, time) =>
      if t !in s.pc || !s.pc[t].Returned? || !ValidOption(want.option) || t !in s1.pc then g
      else
        var got := s1.pc[t].Returned? && s1.pc[t].r.Got?;
        g.(lit := if got && want.option.clear then h.lit - s1.pc[t].r.bits else h.lit,
           visits := h.visits[t := Visit(want, time, 0, EOk, if got then 1 else 0)],
           since := if Waits(s1, t) then h.since[t := h.now] else h.since)
    case Run(t) => g
    case Expire(t) =>
      if Waits(s, t) && t in h.visits && h.visits[t].time > 0 then g.(visits := Struck(h.visits, {t}, ETimeout)) else g
    case Reset => g.(lit := {}, visits := Struck(h.visits, Sleepers(s), EError))
  }

  function Recall(c: Config, s: State, h: History, es: seq<Event>): History
    decreases |es|
  {
    if es == [] then h else Recall(c, Step(c, s, es[0]), Note(h, s, es[0], Step(c, s, es[0])), es[1..])
  }

  /** The history of a run from the start. */
  function Past(c: Config, threads: set<Tid>, es: seq<Event>): History {
    Recall(c, Start(threads), History({}, 0, map[], map[]), es)
  }

  /** What a thread's state says about its receive. */
  predicate Accounted(p: Pc, v: Visit<Info>) {
    match p
    case Returned(Sent) => false
    case Returned(Got(bits, want)) => v.moved == 1 && want == v.call && Answers(bits, want)
    case Returned(Failed(err)) =>
      if v.call.bits == {} then err == EError && v.moved == 0 && v.hit == EOk else MayFail(v, err, ETimeout)
    case Waiting(want, timeout) => want == v.call && want.bits != {} && OnWait(v, timeout)
    case Woken(want, EOk) => want == v.call && v.moved == 1 && v.hit == EOk
    case Woken(want, err) => want.bits != {} && want == v.call && MayFail(v, err, ETimeout) && v.hit == err
  }

  ghost predicate VisitsTold(s: State, h: History) {
    && (forall t :: t in h.visits ==> t in s.pc && Accounted(s.pc[t], h.visits[t]))
    && (forall t :: Waits(s, t) ==> t in h.visits)
  }

  ghost predicate OrderTold(c: Config, m: Ev, h: History) {
    InOrder(m.waiters, c.order, c.prio, h.since) && AllBefore(h.since, h.now)
  }

  ghost predicate Told(c: Config, s: State, h: History) {
    s.ev.word == h.lit && VisitsTold(s, h) && OrderTold(c, s.ev, h)
  }

  lemma {:induction false} WalkInOrder(c: Config, m: Ev, n: nat, woken: seq<Tid>, since: map<Tid, nat>)
    requires OptionsValid(m) && n <= |m.waiters| && InOrder(m.waiters, c.order, c.prio, since)
    ensures InOrder(Walk(m, n, woken).ev.waiters, c.order, c.prio, since)
    decreases |m.waiters| - n
  {
    if n < |m.waiters| {
      if Meets(m.word, InfoOf(m, m.waiters[n])) {
        WakeIsReceive(m, n);
        WithoutInOrder(m.waiters, c.order, c.prio, since, m.waiters[n]);
        WalkInOrder(c, WakeAt(m, n), n, woken + [m.waiters[n]], since);
      } else {
        WalkInOrder(c, m, n + 1, woken, since);
      }
    }
  }

  lemma WokenAdmitted(s: State, m: Ev, r: Walked)
    requires Inv(s) && m.waiters == s.ev.waiters && m.info == s.ev.info && WalkResult(m, r, [])
    ensures forall t :: t in Admitted(s, State(r.ev, Roused(s.pc, r.woken, EOk))) <==> t in r.woken
    ensures forall t :: t in m.waiters ==> t in s.pc && InfoOf(m, t) == s.pc[t].want
  {
    forall t | t in m.waiters ensures t in s.pc && InfoOf(m, t) == s.pc[t].want {
      assert PcOk(s.ev, t, s.pc[t]) && InfoOf(m, t) == InfoOf(s.ev, t);
    }
  }

  /** A walk takes away exactly what the woken receivers that clear were given. */
  lemma WalkClears(s: State, m: Ev, r: Walked)
    requires Inv(s) && m.waiters == s.ev.waiters && m.info == s.ev.info
    requires WalkResult(m, r, []) && HandedOnce(m, r)
    ensures r.ev.word == m.word - Cleared(s, State(r.ev, Roused(s.pc, r.woken, EOk)))
  {
    var s1 := State(r.ev, Roused(s.pc, r.woken, EOk));
    WokenAdmitted(s, m, r);
    forall b | b in Cleared(s, s1) ensures b !in r.ev.word {
      var t :| t in Admitted(s, s1) && s.pc[t].want.option.clear && b in InfoOf(s1.ev, t).bits;
      assert Clears(m, r, t);
    }
    forall b | b in m.word && b !in r.ev.word ensures b in Cleared(s, s1) {
      var t :| Clears(m, r, t) && b in InfoOf(r.ev, t).bits;
      assert t in Admitted(s, s1);
    }
  }

  lemma SendTold(c: Config, s: State, h: History, bits: Bits)
    requires Inv(s) && Told(c, s, h)
    ensures var s1 := Step(c, s, Send(bits)); Told(c, s1, Note(h, s, Send(bits), s1))
  {
    var s1 := Step(c, s, Send(bits));
    if bits == {} {
      assert Admitted(s, s1) == {} && Cleared(s, s1) == {};
      assert s1.pc == s.pc && Credited(h.visits, {}) == h.visits;
    } else {
      var m := s.ev.(word := s.ev.word + bits);
      assert OptionsValid(m) by {
        forall t | t in m.waiters ensures ValidOption(InfoOf(m, t).option) { assert PcOk(s.ev, t, s.pc[t]); }
      }
      var r := SendIt(s.ev, bits);
      WalkDescribed(m, 0, []);
      WalkHandsOnce(m, 0, []);
      WalkInOrder(c, m, 0, [], h.since);
      WokenAdmitted(s, m, r);
      WalkClears(s, m, r);
      SentVisits(s, h, r, s1);
    }
  }

  lemma SentVisits(s: State, h: History, r: Walked, s1: State)
    requires ListExact(s) && VisitsTold(s, h) && s1.pc == Roused(s.pc, r.woken, EOk)
    requires forall t :: t in Admitted(s, s1) <==> t in r.woken
    ensures VisitsTold(s1, h.(visits := Credited(h.visits, Admitted(s, s1))))
  {
    forall t | t in h.visits ensures Accounted(s1.pc[t], Credited(h.visits, Admitted(s, s1))[t]) {
      assert Accounted(s.pc[t], h.visits[t]);
    }
  }

  lemma ReceiveVisits(c: Config, s: State, h: History, t: Tid, want: Info, time: int)
    requires Inv(s) && VisitsTold(s, h)
    ensures var e := Receive(t, want, time); VisitsTold(Step(c, s, e), Note(h, s, e, Step(c, s, e)))
  {
    if Meets(s.ev.word, want) { BitsHanded(s.ev.word, want); }
  }

  lemma ReceiveTold(c: Config, s: State, h: History, t: Tid, want: Info, time: int)
    requires Inv(s) && Told(c, s, h)
    ensures var e := Receive(t, want, time); Told(c, Step(c, s, e), Note(h, s, e, Step(c, s, e)))
  {
    ReceiveVisits(c, s, h, t, want, time);
    if t in s.pc && s.pc[t].Returned? && Waits(Step(c, s, Receive(t, want, time)), t) {
      EnqueueInOrder(s.ev.waiters, c.prio, c.order, t, h.since, h.now);
    }
  }

  lemma RunTold(c: Config, s: State, h: History, t: Tid)
    requires Inv(s) && Told(c, s, h)
    ensures var s1 := Step(c, s, Run(t)); Told(c, s1, Note(h, s, Run(t), s1))
  {
    if t in s.pc { assert PcOk(s.ev, t, s.pc[t]); }
  }

  lemma ExpireTold(c: Config, s: State, h: History, t: Tid)
    requires Inv(s) && Told(c, s, h)
    ensures var s1 := Step(c, s, Expire(t)); Told(c, s1, Note(h, s, Expire(t), s1))
  {
    WithoutInOrder(s.ev.waiters, c.order, c.prio, h.since, t);
  }

  lemma ResetTold(c: Config, s: State, h: History)
    requires Inv(s) && Told(c, s, h)
    ensures var s1 := Step(c, s, Reset); Told(c, s1, Note(h, s, Reset, s1))
  {
  }

  lemma StepTold(c: Config, s: State, h: History, e: Event)
    requires Inv(s) && Told(c, s, h)
    ensures Told(c, Step(c, s, e), Note(h, s, e, Step(c, s, e)))
  {
    match e
    case Send(bits) => SendTold(c, s, h, bits);
    case Receive(t, want, time) => ReceiveTold(c, s, h, t, want, time);
    case Run(t) => RunTold(c, s, h, t);
    case Expire(t) => ExpireTold(c, s, h, t);
    case Reset => ResetTold(c, s, h);
  }

  lemma {:induction false} ExecTold(c: Config, s: State, h: History, es: seq<Event>)
    requires Inv(s) && Told(c, s, h)
    ensures Inv(Exec(c, s, es)) && Told(c, Exec(c, s, es), Recall(c, s, h, es))
    decreases |es|
  {
    if es != [] {
      StepInv(c, s, es[0]);
      StepTold(c, s, h, es[0]);
      ExecTold(c, Step(c, s, es[0]), Note(h, s, es[0], Step(c, s, es[0])), es[1..]);
    }
  }

  /** Over every run: the word holds exactly the bits sent since they were last taken or reset;
      each receive is answered by its own history, success with a proper answer to what the call
      asked for; and the list is in order of service. */
  lemma ReceivesAnswered(c: Config, threads: set<Tid>, es: seq<Event>)
    ensures var s, h := Exec(c, Start(threads), es), Past(c, threads, es);
      && s.ev.word == h.lit
      && (forall t :: t in h.visits ==> t in s.pc && Accounted(s.pc[t], h.visits[t]))
      && InOrder(s.ev.waiters, c.order, c.prio, h.since)
  {
    ExecTold(c, Start(threads), History({}, 0, map[], map[]), es);
  }

  /** After any run a receive of some bits succeeds at once if and only if all of them (AND), or
      some of them (OR alone), have been sent and not taken since. It gets those of its bits
      that are there, and they go exactly if it clears. Otherwise it fails at once if it asked
      not to wait, and waits if it asked for any other time. */
  lemma ReceiveAtOnceIff(c: Config, threads: set<Tid>, es: seq<Event>, t: Tid, want: Info, time: int)
    requires (want.option.all || want.option.any) && want.bits != {}
    ensures var s, h := Exec(c, Start(threads), es), Past(c, threads, es);
      var s1 := Step(c, s, Receive(t, want, time));
      t in s.pc && s.pc[t].Returned? ==>
        if (if want.option.all then forall b :: b in want.bits ==> b in h.lit
            else exists b :: b in want.bits && b in h.lit)
        then
          && s1.pc == s.pc[t := Returned(Got(h.lit * want.bits, want))]
          && s1.ev.word == (if want.option.clear then h.lit - want.bits else h.lit)
        else
          && s1.pc == s.pc[t := if time == 0 then Returned(Failed(ETimeout)) else Waiting(want, time)]
          && s1.ev.word == h.lit
  {
    ReceivesAnswered(c, threads, es);
    var word := Exec(c, Start(threads), es).ev.word;
    if !Meets(word, want) { NotMet(word, want); }
  }

  /** After any run a woken thread that is scheduled returns from its receive: with the bits it was
      handed, or with the timeout or the reset that hit it. */
  lemma WokenReceiveReturns(c: Config, threads: set<Tid>, es: seq<Event>, t: Tid)
    ensures var s, h := Exec(c, Start(threads), es), Past(c, threads, es);
      t in s.pc && s.pc[t].Woken? && t in h.visits ==>
        var v := h.visits[t];
        Step(c, s, Run(t)) ==
          s.(pc := s.pc[t := Returned(if v.moved == 1 then Got(InfoOf(s.ev, t).bits, v.call) else Failed(v.hit))])
  {
    ReceivesAnswered(c, threads, es);
  }

  /** After any run a send of no bits is an error and does nothing. Of any other send, each thread it wakes gets
      all bits of an AND request and some of an OR request, only requested ones, and every
      requested bit that is still there afterwards. */
  lemma SendMissesNoBit(c: Config, threads: set<Tid>, es: seq<Event>, bits: Bits)
    ensures var s := Exec(c, Start(threads), es);
      var s1 := Step(c, s, Send(bits));
      && (bits == {} ==> s1 == s && SendIt(s.ev, bits).err == EError)
      && forall t :: t in Admitted(s, s1) ==>
           && s1.ev.word * s.pc[t].want.bits <= InfoOf(s1.ev, t).bits
           && Answers(InfoOf(s1.ev, t).bits, s.pc[t].want)
  {
    ExecInv(c, Start(threads), es);
    var s := Exec(c, Start(threads), es);
    if bits == {} {
      assert Step(c, s, Send(bits)).pc == s.pc;
    } else {
      var m := s.ev.(word := s.ev.word + bits);
      assert OptionsValid(m) by {
        forall t | t in m.waiters ensures ValidOption(InfoOf(m, t).option) { assert PcOk(s.ev, t, s.pc[t]); }
      }
      WalkDescribed(m, 0, []);
      forall t | t in Admitted(s, Step(c, s, Send(bits))) ensures InfoOf(m, t) == s.pc[t].want {
        assert PcOk(s.ev, t, s.pc[t]) && InfoOf(m, t) == InfoOf(s.ev, t);
      }
    }
  }
}
