/** The mailbox (src/ipc.c): a ring of word-sized mails with suspended receivers and senders,
    and the retry loops around suspension as a protocol. */
module Mailbox {
  import opened WaitList
  import opened CallHistory

  const MB_ENTRY_MAX: nat := 0xFFFF

  type Mail = nat

  datatype Box = Box(size: nat, mail: seq<Mail>, receivers: seq<Tid>, senders: seq<Tid>)

  function Rest(list: seq<Tid>): seq<Tid> {
    if list == [] then [] else list[1..]
  }

  // ------------------------------------------------------ the sections, on values

  /** A mail goes in at the back and the first suspended receiver leaves its list. */
  function Put(b: Box, v: Mail): Box {
    b.(mail := b.mail + [v], receivers := Rest(b.receivers))
  }

  /** The front mail goes out and the first suspended sender leaves its list. */
  function Get(b: Box): Box
    requires b.mail != []
  {
    b.(mail := b.mail[1..], senders := Rest(b.senders))
  }

  function WaitToSend(b: Box, prio: map<Tid, nat>, order: Order, t: Tid): Box {
    b.(senders := Enqueue(b.senders, prio, order, t))
  }

  function WaitToReceive(b: Box, prio: map<Tid, nat>, order: Order, t: Tid): Box {
    b.(receivers := Enqueue(b.receivers, prio, order, t))
  }

  datatype Section = Done(v: Mail, woken: seq<Tid>) | NoWait | Suspended

  function FirstOf(list: seq<Tid>): seq<Tid> {
    if list == [] then [] else [list[0]]
  }

  class MailboxObject {
    const size: nat
    const order: Order
    const pool: array<Mail>
    var entry: nat
    var inOffset: nat
    var outOffset: nat
    var receivers: seq<Tid>
    var senders: seq<Tid>

    ghost predicate Valid()
      reads this
    {
      && pool.Length == size <= MB_ENTRY_MAX && entry <= size
      && (if size == 0 then outOffset == 0 else outOffset < size)
      && inOffset == Slot(entry)
    }

    /** The slot of the ring `i` mails behind the front. */
    function Slot(i: nat): (k: int)
      reads this
    {
      if outOffset + i < size then outOffset + i else outOffset + i - size
    }

    ghost function Mails(): (m: seq<Mail>)
      requires Valid()
      reads this, pool
      ensures |m| == entry
    {
      seq(entry, i requires 0 <= i < entry reads this, pool requires Valid() => pool[Slot(i)])
    }

    ghost function View(): Box
      requires Valid()
      reads this, pool
    {
      Box(size, Mails(), receivers, senders)
    }

    constructor (size: nat, order: Order)
      requires size <= MB_ENTRY_MAX
      ensures Valid() && fresh(pool) && this.order == order && View() == Box(size, [], [], [])
    {
      this.size := size;
      this.order := order;
      pool := new Mail[size];
      entry, inOffset, outOffset := 0, 0, 0;
      receivers, senders := [], [];
    }

    /** The end of rt_mb_send_wait. The overflow of the entry counter cannot happen. */
    method Deposit(v: Mail) returns (err: Outcome, woken: seq<Tid>)
      requires Valid() && entry < size
      modifies this, pool
      ensures Valid() && err == EOk && woken == FirstOf(old(receivers))
      ensures View() == Put(old(View()), v)
    {
      ghost var was := Mails();
      pool[inOffset] := v;
      inOffset := inOffset + 1;
      if inOffset >= size { inOffset := 0; }
      err := if entry < MB_ENTRY_MAX then EOk else EFull;
      woken := [];
      if err == EOk {
        entry := entry + 1;
        if receivers != [] {
          woken := [receivers[0]];
          receivers := receivers[1..];
        }
      }
      assert Mails() == old(Mails()) + [v];
    }

    /** The end of rt_mb_recv. */
    method Fetch() returns (v: Mail, woken: seq<Tid>)
      requires Valid() && entry > 0
      modifies this
      ensures Valid() && v == old(Mails())[0] && woken == FirstOf(old(senders))
      ensures View() == Get(old(View()))
    {
      v := pool[outOffset];
      outOffset := outOffset + 1;
      if outOffset >= size { outOffset := 0; }
      if entry > 0 { entry := entry - 1; }
      woken := [];
      if senders != [] {
        woken := [senders[0]];
        senders := senders[1..];
      }
      assert Mails() == old(Mails())[1..];
    }

    /** One pass through the loop head of rt_mb_send_wait. */
    method Send(t: Tid, v: Mail, timeout: int, prio: map<Tid, nat>) returns (r: Section)
      requires Valid()
      modifies this, pool
      ensures Valid()
      ensures r == if old(entry) < size then Done(v, FirstOf(old(receivers))) else if timeout == 0 then NoWait
          else Suspended
      ensures View() == match r
        case Done(_, _) => Put(old(View()), v)
        case NoWait => old(View())
        case Suspended => WaitToSend(old(View()), prio, order, t)
    {
      if entry == size {
        if timeout == 0 { return NoWait; }
        senders := SuspendOn(senders, prio, order, t);
        assert Mails() == old(Mails());
        return Suspended;
      }
      var err, woken := Deposit(v);
      r := Done(v, woken);
    }

    /** One pass through the loop head of rt_mb_recv. */
    method Receive(t: Tid, timeout: int, prio: map<Tid, nat>) returns (r: Section)
      requires Valid()
      modifies this
      ensures Valid()
      ensures r == if old(entry) > 0 then Done(old(Mails())[0], FirstOf(old(senders)))
          else if timeout == 0 then NoWait else Suspended
      ensures View() == match r
        case Done(_, _) => Get(old(View()))
        case NoWait => old(View())
        case Suspended => WaitToReceive(old(View()), prio, order, t)
    {
      if entry == 0 {
        if timeout == 0 { return NoWait; }
        receivers := SuspendOn(receivers, prio, order, t);
        assert Mails() == old(Mails());
        return Suspended;
      }
      var v, woken := Fetch();
      r := Done(v, woken);
    }

    /** rt_ipc_list_resume_all on both lists, then an empty ring. */
    method Reset() returns (woken: seq<Tid>)
      requires Valid()
      modifies this
      ensures Valid() && View() == Box(size, [], [], []) && woken == old(receivers) + old(senders)
    {
      woken := [];
      while receivers != []
        invariant woken + receivers == old(receivers) && senders == old(senders)
        decreases |receivers|
      {
        woken := woken + [receivers[0]];
        receivers := receivers[1..];
      }
      while senders != []
        invariant woken + senders == old(receivers) + old(senders) && receivers == []
        decreases |senders|
      {
        woken := woken + [senders[0]];
        senders := senders[1..];
      }
      entry, inOffset, outOffset := 0, 0, 0;
    }
  }

  // ------------------------------------------------------------------ the protocol

  datatype Config = Config(size: nat, order: Order, prio: map<Tid, nat>)

  datatype Ret = Sent | Got(v: Mail) | Failed(err: Outcome)

  datatype Pc =
    | Returned(r: Ret)
    | SendWait(v: Mail, timeout: int)
    | SendWoken(v: Mail, timeout: int, err: Outcome)
    | RecvWait(timeout: int)
    | RecvWoken(timeout: int, err: Outcome)

  datatype State = State(box: Box, pc: map<Tid, Pc>)

  datatype Event =
    | Send(t: Tid, v: Mail, timeout: int)
    | Post(v: Mail)                      // rt_mb_send from an interrupt handler: no waiting
    | Receive(t: Tid, timeout: int)
    | Run(t: Tid, elapsed: nat)          // a woken thread is scheduled again
    | Expire(t: Tid)                     // the timer of a suspended thread
    | Reset

  function Woken(p: Pc, err: Outcome): Pc {
    match p
    case SendWait(v, timeout) => SendWoken(v, timeout, err)
    case RecvWait(timeout) => RecvWoken(timeout, err)
    case _ => p
  }

  function Wake(pc: map<Tid, Pc>, list: seq<Tid>): map<Tid, Pc> {
    if list == [] || list[0] !in pc then pc else pc[list[0] := Woken(pc[list[0]], EOk)]
  }

  function Accept(s: State, pc: map<Tid, Pc>, v: Mail): State {
    State(Put(s.box, v), Wake(pc, s.box.receivers))
  }

  function SendLoop(c: Config, s: State, t: Tid, v: Mail, timeout: int): State {
    if |s.box.mail| != s.box.size then Accept(s, s.pc[t := Returned(Sent)], v)
    else if timeout == 0 then s.(pc := s.pc[t := Returned(Failed(EFull))])
    else s.(box := WaitToSend(s.box, c.prio, c.order, t), pc := s.pc[t := SendWait(v, timeout)])
  }

  function RecvLoop(c: Config, s: State, t: Tid, timeout: int): State {
    if s.box.mail != [] then
      State(Get(s.box), Wake(s.pc[t := Returned(Got(s.box.mail[0]))], s.box.senders))
    else if timeout == 0 then s.(pc := s.pc[t := Returned(Failed(ETimeout))])
    else s.(box := WaitToReceive(s.box, c.prio, c.order, t), pc := s.pc[t := RecvWait(timeout)])
  }

  predicate Calls(s: State, t: Tid) {
    t in s.pc && s.pc[t].Returned?
  }

  function Step(c: Config, s: State, e: Event): State {
    match e
    case Send(t, v, timeout) => if Calls(s, t) then SendLoop(c, s, t, v, timeout) else s
    case Post(v) => if |s.box.mail| != s.box.size then Accept(s, s.pc, v) else s
    case Receive(t, timeout) => if Calls(s, t) then RecvLoop(c, s, t, timeout) else s
    case Run(t, elapsed) =>
      if t in s.pc && s.pc[t].SendWoken? then
        var SendWoken(v, timeout, err) := s.pc[t];
        if err != EOk then s.(pc := s.pc[t := Returned(Failed(err))])
            else SendLoop(c, s, t, v, Remaining(timeout, elapsed))
      else if t in s.pc && s.pc[t].RecvWoken? then
        var RecvWoken(timeout, err) := s.pc[t];
        if err != EOk then s.(pc := s.pc[t := Returned(Failed(err))])
            else RecvLoop(c, s, t, Remaining(timeout, elapsed))
      else s
    case Expire(t) =>
      if t in s.pc && Waits(s.pc[t]) && s.pc[t].timeout > 0 then
        s.(box := s.box.(receivers := Without(s.box.receivers, t), senders := Without(s.box.senders, t)),
           pc := s.pc[t := Woken(s.pc[t], ETimeout)])
      else s
    case Reset =>
      State(Box(s.box.size, [], [], []),
            map t | t in s.pc :: if t in s.box.receivers || t in s.box.senders then Woken(s.pc[t], EError)
                else s.pc[t])
  }

  function Exec(c: Config, s: State, es: seq<Event>): State
    decreases |es|
  {
    if es == [] then s else Exec(c, Step(c, s, es[0]), es[1..])
  }

  function Start(c: Config, threads: set<Tid>): State {
    State(Box(c.size, [], [], []), map t | t in threads :: Returned(Sent))
  }

  // ----------------------------------------------------------------- the invariant

  predicate Waits(p: Pc) {
    p.RecvWait? || p.SendWait?
  }

  function WokenReceivers(pc: map<Tid, Pc>): set<Tid> {
    set t | t in pc && pc[t].RecvWoken? && pc[t].err.EOk?
  }

  function WokenSenders(pc: map<Tid, Pc>): set<Tid> {
    set t | t in pc && pc[t].SendWoken? && pc[t].err.EOk?
  }

  /** The two lists hold exactly the suspended threads. */
  ghost predicate ListsExact(b: Box, pc: map<Tid, Pc>) {
    && NoDup(b.receivers) && NoDup(b.senders)
    && (forall t :: t in b.receivers <==> t in pc && pc[t].RecvWait?)
    && (forall t :: t in b.senders <==> t in pc && pc[t].SendWait?)
  }

  /** While a receiver is suspended the mails never outnumber the woken receivers that have not
      run yet; while a sender is suspended the free slots never outnumber the woken senders. */
  ghost predicate NoLostWakeup(b: Box, pc: map<Tid, Pc>) {
    && (b.receivers != [] ==> |b.mail| <= |WokenReceivers(pc)|)
    && (b.senders != [] ==> b.size - |b.mail| <= |WokenSenders(pc)|)
  }

  ghost predicate Inv(s: State) {
    && ListsExact(s.box, s.pc) && NoLostWakeup(s.box, s.pc)
    && |s.box.mail| <= s.box.size
  }

  function One(b: bool): int {
    if b then 1 else 0
  }

  lemma WokenReceiversUpdate(pc: map<Tid, Pc>, t: Tid, p: Pc)
    requires t in pc
    ensures |WokenReceivers(pc[t := p])| ==
            |WokenReceivers(pc)| + One(p.RecvWoken? && p.err.EOk?) - One(pc[t].RecvWoken? && pc[t].err.EOk?)
  {
    var r := WokenReceivers(pc);
    assert WokenReceivers(pc[t := p]) == if p.RecvWoken? && p.err.EOk? then r + {t} else r - {t};
  }

  lemma WokenSendersUpdate(pc: map<Tid, Pc>, t: Tid, p: Pc)
    requires t in pc
    ensures |WokenSenders(pc[t := p])| ==
            |WokenSenders(pc)| + One(p.SendWoken? && p.err.EOk?) - One(pc[t].SendWoken? && pc[t].err.EOk?)
  {
    var s := WokenSenders(pc);
    assert WokenSenders(pc[t := p]) == if p.SendWoken? && p.err.EOk? then s + {t} else s - {t};
  }

  lemma WokenUpdate(pc: map<Tid, Pc>, t: Tid, p: Pc)
    requires t in pc
    ensures var pc1 := pc[t := p];
      && |WokenReceivers(pc1)| ==
         |WokenReceivers(pc)| + One(p.RecvWoken? && p.err.EOk?) - One(pc[t].RecvWoken? && pc[t].err.EOk?)
      && |WokenSenders(pc1)| ==
         |WokenSenders(pc)| + One(p.SendWoken? && p.err.EOk?) - One(pc[t].SendWoken? && pc[t].err.EOk?)
  {
    WokenReceiversUpdate(pc, t, p);
    WokenSendersUpdate(pc, t, p);
  }

  /** A step of a thread that does not wait, before or after, keeps the lists exact. */
  lemma ListsStay(b: Box, pc: map<Tid, Pc>, t: Tid, p: Pc)
    requires ListsExact(b, pc) && t in pc && !Waits(pc[t]) && !Waits(p)
    ensures ListsExact(b, pc[t := p])
  {
  }

  lemma ListsWait(c: Config, b: Box, pc: map<Tid, Pc>, t: Tid, p: Pc)
    requires ListsExact(b, pc) && t in pc && !Waits(pc[t]) && Waits(p)
    ensures ListsExact(if p.RecvWait? then WaitToReceive(b, c.prio, c.order, t)
        else WaitToSend(b, c.prio, c.order, t), pc[t := p])
  {
    var pc1 := pc[t := p];
    var b1 := if p.RecvWait? then WaitToReceive(b, c.prio, c.order, t) else WaitToSend(b, c.prio, c.order, t);
    EnqueueMembers(b.receivers, c.prio, c.order, t);
    EnqueueMembers(b.senders, c.prio, c.order, t);
    forall u ensures u in b1.receivers <==> u in pc1 && pc1[u].RecvWait? {}
    forall u ensures u in b1.senders <==> u in pc1 && pc1[u].SendWait? {}
  }

  lemma PopFirst(list: seq<Tid>)
    requires NoDup(list) && list != []
    ensures NoDup(list[1..]) && list[0] !in list[1..] && forall t :: t in list <==> t == list[0] || t in list[1..]
  {
  }

  /** Waking the first receiver takes it off its list and counts it as woken. */
  lemma WakeReceiver(b: Box, pc: map<Tid, Pc>)
    requires ListsExact(b, pc)
    ensures var pc1 := Wake(pc, b.receivers);
      && ListsExact(b.(receivers := Rest(b.receivers)), pc1)
      && |WokenReceivers(pc1)| == |WokenReceivers(pc)| + One(b.receivers != [])
        && |WokenSenders(pc1)| == |WokenSenders(pc)|
  {
    if b.receivers != [] {
      var w, pc1 := b.receivers[0], Wake(pc, b.receivers);
      PopFirst(b.receivers);
      WokenUpdate(pc, w, Woken(pc[w], EOk));
      forall u ensures u in Rest(b.receivers) <==> u in pc1 && pc1[u].RecvWait? {}
      forall u ensures u in b.senders <==> u in pc1 && pc1[u].SendWait? {}
    }
  }

  lemma WakeSender(b: Box, pc: map<Tid, Pc>)
    requires ListsExact(b, pc)
    ensures var pc1 := Wake(pc, b.senders);
      && ListsExact(b.(senders := Rest(b.senders)), pc1)
      && |WokenSenders(pc1)| == |WokenSenders(pc)| + One(b.senders != [])
        && |WokenReceivers(pc1)| == |WokenReceivers(pc)|
  {
    if b.senders != [] {
      var w, pc1 := b.senders[0], Wake(pc, b.senders);
      PopFirst(b.senders);
      WokenUpdate(pc, w, Woken(pc[w], EOk));
      forall u ensures u in Rest(b.senders) <==> u in pc1 && pc1[u].SendWait? {}
      forall u ensures u in b.receivers <==> u in pc1 && pc1[u].RecvWait? {}
    }
  }

  predicate MaySend(p: Pc) {
    p.Returned? || (p.SendWoken? && p.err.EOk?)
  }

  predicate MayReceive(p: Pc) {
    p.Returned? || (p.RecvWoken? && p.err.EOk?)
  }

  lemma SendLoopInv(c: Config, s: State, t: Tid, v: Mail, timeout: int)
    requires Inv(s) && t in s.pc && MaySend(s.pc[t])
    ensures Inv(SendLoop(c, s, t, v, timeout))
  {
    if |s.box.mail| != s.box.size {
      ListsStay(s.box, s.pc, t, Returned(Sent));
      WokenUpdate(s.pc, t, Returned(Sent));
      WakeReceiver(s.box, s.pc[t := Returned(Sent)]);
    } else if timeout == 0 {
      ListsStay(s.box, s.pc, t, Returned(Failed(EFull)));
      WokenUpdate(s.pc, t, Returned(Failed(EFull)));
    } else {
      ListsWait(c, s.box, s.pc, t, SendWait(v, timeout));
      WokenUpdate(s.pc, t, SendWait(v, timeout));
    }
  }

  lemma RecvLoopInv(c: Config, s: State, t: Tid, timeout: int)
    requires Inv(s) && t in s.pc && MayReceive(s.pc[t])
    ensures Inv(RecvLoop(c, s, t, timeout))
  {
    if s.box.mail != [] {
      var p := Returned(Got(s.box.mail[0]));
      ListsStay(s.box, s.pc, t, p);
      WokenUpdate(s.pc, t, p);
      WakeSender(s.box, s.pc[t := p]);
    } else if timeout == 0 {
      ListsStay(s.box, s.pc, t, Returned(Failed(ETimeout)));
      WokenUpdate(s.pc, t, Returned(Failed(ETimeout)));
    } else {
      ListsWait(c, s.box, s.pc, t, RecvWait(timeout));
      WokenUpdate(s.pc, t, RecvWait(timeout));
    }
  }

  lemma ExpireInv(c: Config, s: State, t: Tid)
    requires Inv(s)
    ensures Inv(Step(c, s, Expire(t)))
  {
    if t in s.pc && Waits(s.pc[t]) && s.pc[t].timeout > 0 {
      var s1 := Step(c, s, Expire(t));
      WithoutNoDup(s.box.receivers, t);
      WithoutNoDup(s.box.senders, t);
      WokenUpdate(s.pc, t, Woken(s.pc[t], ETimeout));
      forall u ensures u in s1.box.receivers <==> u in s1.pc && s1.pc[u].RecvWait? {}
      forall u ensures u in s1.box.senders <==> u in s1.pc && s1.pc[u].SendWait? {}
    }
  }

  lemma FailedInv(s: State, t: Tid)
    requires Inv(s) && t in s.pc && (s.pc[t].SendWoken? || s.pc[t].RecvWoken?) && s.pc[t].err != EOk
    ensures Inv(s.(pc := s.pc[t := Returned(Failed(s.pc[t].err))]))
  {
    ListsStay(s.box, s.pc, t, Returned(Failed(s.pc[t].err)));
    WokenUpdate(s.pc, t, Returned(Failed(s.pc[t].err)));
  }

  lemma StepInv(c: Config, s: State, e: Event)
    requires Inv(s)
    ensures Inv(Step(c, s, e))
  {
    match e
    case Send(t, v, timeout) => if Calls(s, t) { SendLoopInv(c, s, t, v, timeout); }
    case Post(v) => WakeReceiver(s.box, s.pc);
    case Receive(t, timeout) => if Calls(s, t) { RecvLoopInv(c, s, t, timeout); }
    case Run(t, elapsed) =>
      if t in s.pc && (s.pc[t].SendWoken? || s.pc[t].RecvWoken?) {
        if s.pc[t].err != EOk { FailedInv(s, t); }
        else if s.pc[t].SendWoken? { SendLoopInv(c, s, t, s.pc[t].v, Remaining(s.pc[t].timeout, elapsed)); }
        else { RecvLoopInv(c, s, t, Remaining(s.pc[t].timeout, elapsed)); }
      }
    case Expire(t) => ExpireInv(c, s, t);
    case Reset =>
  }

  lemma {:induction false} ExecInv(c: Config, s: State, es: seq<Event>)
    requires Inv(s)
    ensures Inv(Exec(c, s, es))
    decreases |es|
  {
    if es != [] {
      StepInv(c, s, es[0]);
      ExecInv(c, Step(c, s, es[0]), es[1..]);
    }
  }

  /** Over every run no wakeup is lost, in either direction, through stealing, timeouts,
      renewed waits and resets. */
  lemma NobodyForgotten(c: Config, threads: set<Tid>, es: seq<Event>)
    ensures var s := Exec(c, Start(c, threads), es);
      && ((exists t :: t in s.pc && s.pc[t].RecvWait?) ==> |s.box.mail| <= |WokenReceivers(s.pc)|)
      && ((exists t :: t in s.pc && s.pc[t].SendWait?) ==> c.size - |s.box.mail| <= |WokenSenders(s.pc)|)
  {
    ExecInv(c, Start(c, threads), es);
    SizeFixed(c, Start(c, threads), es);
  }

  lemma {:induction false} SizeFixed(c: Config, s: State, es: seq<Event>)
    ensures Exec(c, s, es).box.size == s.box.size
    decreases |es|
  {
    if es != [] { SizeFixed(c, Step(c, s, es[0]), es[1..]); }
  }

  /** Threads that have not run yet since they were woken: with none of them left, a suspended
      receiver means an empty box, and a suspended sender a full one. */
  lemma QuietMeansBlocked(c: Config, threads: set<Tid>, es: seq<Event>)
    requires var s := Exec(c, Start(c, threads), es);
      forall t :: t in s.pc ==> s.pc[t].Returned? || Waits(s.pc[t])
    ensures var s := Exec(c, Start(c, threads), es);
      && (s.box.receivers != [] ==> s.box.mail == [])
      && (s.box.senders != [] ==> |s.box.mail| == c.size)
      && (c.size > 0 ==> s.box.receivers == [] || s.box.senders == [])
  {
    ExecInv(c, Start(c, threads), es);
    SizeFixed(c, Start(c, threads), es);
    var s := Exec(c, Start(c, threads), es);
    assert WokenReceivers(s.pc) == {} && WokenSenders(s.pc) == {};
  }

  // ---------------------------------------------------- the history of the mails

  datatype Call = Sending(v: Mail) | Receiving

  /** `put` and `got` are the mails accepted and delivered since the last reset: those that
      accepted calls carried and that answers returned. `now` counts events, and `since` tells
      when each thread last began to wait. */
  datatype History = History(put: seq<Mail>, got: seq<Mail>, now: nat, since: map<Tid, nat>, visits: Visits<Call>)

  function Sleepers(pc: map<Tid, Pc>): set<Tid> {
    set t | t in pc && Waits(pc[t])
  }

  /** What is known when the call of `t` has come as far as `p` at event `now`. */
  function NoteMove(h: History, now: nat, t: Tid, p: Pc): History {
    if t !in h.visits then h
    else if p.Returned? && p.r.Sent? && h.visits[t].call.Sending? then
      h.(put := h.put + [h.visits[t].call.v], visits := Credited(h.visits, {t}))
    else if p.Returned? && p.r.Got? then h.(got := h.got + [p.r.v], visits := Credited(h.visits, {t}))
    else if Waits(p) then h.(since := h.since[t := now])
    else h
  }

  /** A post fails if it has no effect. */
  function Note(h: History, s: State, e: Event, s1: State): History {
    var g := h.(now := h.now + 1);
    match e
    case Send(t, v, time) =>
      if !Calls(s, t) || t !in s1.pc then g
      else NoteMove(g.(visits := h.visits[t := Visit(Sending(v), time, 0, EOk, 0)]), h.now, t, s1.pc[t])
    case Post(v) => if s1 == s then g else g.(put := h.put + [v])
    case Receive(t, time) =>
      if !Calls(s, t) || t !in s1.pc then g
      else NoteMove(g.(visits := h.visits[t := Visit(Receiving, time, 0, EOk, 0)]), h.now, t, s1.pc[t])
    case Run(t, elapsed) =>
      if t !in s.pc || !(s.pc[t].SendWoken? || s.pc[t].RecvWoken?) || t !in s1.pc then g
      else NoteMove(g.(visits := Spent(h.visits, t, elapsed)), h.now, t, s1.pc[t])
    case Expire(t) =>
      if t in Sleepers(s.pc) && t in h.visits && h.visits[t].time > 0 then g.(visits := Struck(h.visits, {t}, ETimeout))
      else g
    case Reset => g.(put := [], got := [], visits := Struck(h.visits, Sleepers(s.pc), EError))
  }

  function Recall(c: Config, s: State, h: History, es: seq<Event>): History
    decreases |es|
  {
    if es == [] then h else Recall(c, Step(c, s, es[0]), Note(h, s, es[0], Step(c, s, es[0])), es[1..])
  }

  /** The state and the history after a run from the start. */
  function Reach(c: Config, threads: set<Tid>, es: seq<Event>): State {
    Exec(c, Start(c, threads), es)
  }

  function Past(c: Config, threads: set<Tid>, es: seq<Event>): History {
    Recall(c, Start(c, threads), History([], [], 0, map[], map[]), es)
  }

  /** What a thread's state says about its call. */
  predicate Accounted(p: Pc, v: Visit<Call>) {
    match p
    case Returned(Sent) => v.call.Sending? && v.moved == 1
    case Returned(Got(_)) => v.call.Receiving? && v.moved == 1
    case Returned(Failed(err)) => MayFail(v, err, if v.call.Sending? then EFull else ETimeout)
    case SendWait(m, timeout) => v.call == Sending(m) && OnWait(v, timeout)
    case SendWoken(m, timeout, err) =>
      v.call == Sending(m) && if err == EOk then OnWait(v, timeout) else MayFail(v, err, EFull) && v.hit == err
    case RecvWait(timeout) => v.call.Receiving? && OnWait(v, timeout)
    case RecvWoken(timeout, err) =>
      v.call.Receiving? && if err == EOk then OnWait(v, timeout) else MayFail(v, err, ETimeout) && v.hit == err
  }

  ghost predicate VisitsTold(pc: map<Tid, Pc>, vs: Visits<Call>) {
    && (forall t :: t in vs ==> t in pc && Accounted(pc[t], vs[t]))
    && (forall t :: t in pc && !pc[t].Returned? ==> t in vs)
  }

  ghost predicate OrderTold(c: Config, b: Box, h: History) {
    && InOrder(b.receivers, c.order, c.prio, h.since) && InOrder(b.senders, c.order, c.prio, h.since)
    && AllBefore(h.since, h.now)
  }

  ghost predicate Told(c: Config, s: State, h: History) {
    h.put == h.got + s.box.mail && VisitsTold(s.pc, h.visits) && OrderTold(c, s.box, h)
  }

  lemma WakeTold(pc: map<Tid, Pc>, vs: Visits<Call>, list: seq<Tid>)
    requires VisitsTold(pc, vs)
    ensures VisitsTold(Wake(pc, list), vs)
  {
  }

  lemma WaitOrder(c: Config, s: State, h: History, t: Tid, p: Pc)
    requires Inv(s) && OrderTold(c, s.box, h) && t in s.pc && !Waits(s.pc[t]) && Waits(p)
    ensures OrderTold(c, if p.RecvWait? then WaitToReceive(s.box, c.prio, c.order, t)
                         else WaitToSend(s.box, c.prio, c.order, t),
                      h.(now := h.now + 1, since := h.since[t := h.now]))
  {
    EnqueueInOrder(s.box.receivers, c.prio, c.order, t, h.since, h.now);
    EnqueueInOrder(s.box.senders, c.prio, c.order, t, h.since, h.now);
    SameInOrder(s.box.receivers, c.order, c.prio, h.since, c.prio, h.since[t := h.now]);
    SameInOrder(s.box.senders, c.order, c.prio, h.since, c.prio, h.since[t := h.now]);
  }

  /** `g` is the history in which the call of `t` has come to its loop head. */
  ghost predicate AtLoop(c: Config, s: State, h: History, g: History, t: Tid, timeout: int) {
    && g.now == h.now + 1 && g.since == h.since && g.put == h.put && g.got == h.got
    && t in s.pc && !Waits(s.pc[t]) && t in g.visits
    && VisitsTold(s.pc - {t}, g.visits - {t})
    && g.visits[t].moved == 0 && g.visits[t].hit == EOk
    && (if timeout == 0 then 0 <= g.visits[t].time <= g.visits[t].spent else OnWait(g.visits[t], timeout))
  }

  lemma SendLoopTold(c: Config, s: State, h: History, g: History, t: Tid, v: Mail, timeout: int)
    requires Inv(s) && Told(c, s, h) && AtLoop(c, s, h, g, t, timeout) && g.visits[t].call == Sending(v)
    ensures var s1 := SendLoop(c, s, t, v, timeout); Told(c, s1, NoteMove(g, h.now, t, s1.pc[t]))
  {
    if |s.box.mail| != s.box.size {
      var pc1 := s.pc[t := Returned(Sent)];
      LoopEnds(s, g, t, Returned(Sent), Credited(g.visits, {t}));
      WakeTold(pc1, Credited(g.visits, {t}), s.box.receivers);
      WakeSpares(s, t, Returned(Sent), s.box.receivers);
    } else if timeout == 0 {
      LoopEnds(s, g, t, Returned(Failed(EFull)), g.visits);
    } else {
      LoopEnds(s, g, t, SendWait(v, timeout), g.visits);
      WaitOrder(c, s, h, t, SendWait(v, timeout));
    }
  }

  lemma LoopEnds(s: State, g: History, t: Tid, p: Pc, vs: Visits<Call>)
    requires t in s.pc && VisitsTold(s.pc - {t}, g.visits - {t})
    requires t in vs && vs - {t} == g.visits - {t} && Accounted(p, vs[t])
    ensures VisitsTold(s.pc[t := p], vs)
  {
    var pc1 := s.pc[t := p];
    forall u | u in vs ensures u in pc1 && Accounted(pc1[u], vs[u]) {
      if u != t { assert u in vs - {t}; }
    }
    forall u | u in pc1 && !pc1[u].Returned? ensures u in vs {
      if u != t { assert u in s.pc - {t}; }
    }
  }

  lemma WakeSpares(s: State, t: Tid, p: Pc, list: seq<Tid>)
    requires Inv(s) && t in s.pc && !Waits(s.pc[t]) && (list == s.box.receivers || list == s.box.senders)
    ensures t in Wake(s.pc[t := p], list) && Wake(s.pc[t := p], list)[t] == p
  {
    if list != [] { assert list[0] in list; }
  }

  lemma RecvLoopTold(c: Config, s: State, h: History, g: History, t: Tid, timeout: int)
    requires Inv(s) && Told(c, s, h) && AtLoop(c, s, h, g, t, timeout) && g.visits[t].call == Receiving
    ensures var s1 := RecvLoop(c, s, t, timeout); Told(c, s1, NoteMove(g, h.now, t, s1.pc[t]))
  {
    if s.box.mail != [] {
      var p := Returned(Got(s.box.mail[0]));
      LoopEnds(s, g, t, p, Credited(g.visits, {t}));
      WakeTold(s.pc[t := p], Credited(g.visits, {t}), s.box.senders);
      WakeSpares(s, t, p, s.box.senders);
    } else if timeout == 0 {
      LoopEnds(s, g, t, Returned(Failed(ETimeout)), g.visits);
    } else {
      LoopEnds(s, g, t, RecvWait(timeout), g.visits);
      WaitOrder(c, s, h, t, RecvWait(timeout));
    }
  }

  lemma CallTold(c: Config, s: State, h: History, t: Tid, call: Call, time: int)
    requires Inv(s) && Told(c, s, h) && Calls(s, t)
    ensures AtLoop(c, s, h, h.(now := h.now + 1, visits := h.visits[t := Visit(call, time, 0, EOk, 0)]), t, time)
  {
  }

  lemma RerunTold(c: Config, s: State, h: History, t: Tid, elapsed: nat)
    requires Inv(s) && Told(c, s, h) && t in s.pc && MayLoop(s.pc[t])
    ensures t in h.visits
    ensures AtLoop(c, s, h, h.(now := h.now + 1, visits := Spent(h.visits, t, elapsed)), t,
                   Remaining(s.pc[t].timeout, elapsed))
  {
  }

  predicate MayLoop(p: Pc) {
    (p.SendWoken? || p.RecvWoken?) && p.err == EOk
  }

  lemma GaveUpTold(c: Config, s: State, h: History, t: Tid, elapsed: nat)
    requires Inv(s) && Told(c, s, h) && t in s.pc && (s.pc[t].SendWoken? || s.pc[t].RecvWoken?) && s.pc[t].err != EOk
    ensures var e := Run(t, elapsed); Told(c, Step(c, s, e), Note(h, s, e, Step(c, s, e)))
  {
  }

  lemma RunTold(c: Config, s: State, h: History, t: Tid, elapsed: nat)
    requires Inv(s) && Told(c, s, h)
    ensures var e := Run(t, elapsed); Told(c, Step(c, s, e), Note(h, s, e, Step(c, s, e)))
  {
    if t in s.pc && MayLoop(s.pc[t]) {
      RerunTold(c, s, h, t, elapsed);
      var g := h.(now := h.now + 1, visits := Spent(h.visits, t, elapsed));
      if s.pc[t].SendWoken? { SendLoopTold(c, s, h, g, t, s.pc[t].v, Remaining(s.pc[t].timeout, elapsed)); }
      else { RecvLoopTold(c, s, h, g, t, Remaining(s.pc[t].timeout, elapsed)); }
    } else if t in s.pc && (s.pc[t].SendWoken? || s.pc[t].RecvWoken?) {
      GaveUpTold(c, s, h, t, elapsed);
    }
  }

  lemma ExpireTold(c: Config, s: State, h: History, t: Tid)
    requires Inv(s) && Told(c, s, h)
    ensures var s1 := Step(c, s, Expire(t)); Told(c, s1, Note(h, s, Expire(t), s1))
  {
    WithoutInOrder(s.box.receivers, c.order, c.prio, h.since, t);
    WithoutInOrder(s.box.senders, c.order, c.prio, h.since, t);
  }

  lemma ResetTold(c: Config, s: State, h: History)
    requires Inv(s) && Told(c, s, h)
    ensures var s1 := Step(c, s, Reset); Told(c, s1, Note(h, s, Reset, s1))
  {
  }

  lemma SendTold(c: Config, s: State, h: History, t: Tid, v: Mail, time: int)
    requires Inv(s) && Told(c, s, h) && Calls(s, t)
    ensures var e := Send(t, v, time); Told(c, Step(c, s, e), Note(h, s, e, Step(c, s, e)))
  {
    CallTold(c, s, h, t, Sending(v), time);
    var g := h.(now := h.now + 1, visits := h.visits[t := Visit(Sending(v), time, 0, EOk, 0)]);
    SendLoopTold(c, s, h, g, t, v, time);
  }

  lemma ReceiveTold(c: Config, s: State, h: History, t: Tid, time: int)
    requires Inv(s) && Told(c, s, h) && Calls(s, t)
    ensures var e := Receive(t, time); Told(c, Step(c, s, e), Note(h, s, e, Step(c, s, e)))
  {
    CallTold(c, s, h, t, Receiving, time);
    var g := h.(now := h.now + 1, visits := h.visits[t := Visit(Receiving, time, 0, EOk, 0)]);
    RecvLoopTold(c, s, h, g, t, time);
  }

  lemma PostTold(c: Config, s: State, h: History, v: Mail)
    requires Inv(s) && Told(c, s, h)
    ensures var s1 := Step(c, s, Post(v)); Told(c, s1, Note(h, s, Post(v), s1))
  {
    WakeTold(s.pc, h.visits, s.box.receivers);
  }

  lemma StepTold(c: Config, s: State, h: History, e: Event)
    requires Inv(s) && Told(c, s, h)
    ensures Told(c, Step(c, s, e), Note(h, s, e, Step(c, s, e)))
  {
    match e
    case Send(t, v, time) => if Calls(s, t) { SendTold(c, s, h, t, v, time); }
    case Post(v) => PostTold(c, s, h, v);
    case Receive(t, time) => if Calls(s, t) { ReceiveTold(c, s, h, t, time); }
    case Run(t, elapsed) => RunTold(c, s, h, t, elapsed);
    case Expire(t) => ExpireTold(c, s, h, t);
    case Reset => ResetTold(c, s, h);
  }

  lemma {:induction false} ExecTold(c: Config, s: State, h: History, es: seq<Event>)
    requires Inv(s) && Told(c, s, h)
    ensures Inv(Exec(c, s, es)) && Told(c, Exec(c, s, es), Recall(c, s, h, es))
    decreases |es|
  {
    if es != [] {
      StepInv(c, s, es[0]);
      StepTold(c, s, h, es[0]);
      ExecTold(c, Step(c, s, es[0]), Note(h, s, es[0], Step(c, s, es[0])), es[1..]);
    }
  }

  lemma ReachTold(c: Config, threads: set<Tid>, es: seq<Event>)
    ensures var s := Reach(c, threads, es);
      Inv(s) && Told(c, s, Past(c, threads, es)) && s.box.size == c.size
  {
    ExecTold(c, Start(c, threads), History([], [], 0, map[], map[]), es);
    SizeFixed(c, Start(c, threads), es);
  }

  /** Over every run the mails accepted since the last reset are, in order, the delivered ones
      followed by those still in the box: nothing lost, doubled, altered or reordered, from the
      argument of the call that sent a mail, through waits and renewed waits, to the answer of
      the call that received it. */
  lemma FirstInFirstOut(c: Config, threads: set<Tid>, es: seq<Event>)
    ensures var s, h := Reach(c, threads, es), Past(c, threads, es);
      h.put == h.got + s.box.mail && |s.box.mail| <= c.size
  {
    ReachTold(c, threads, es);
  }

  /** Over every run each call is answered by its own history: success exactly when it moved
      one mail; otherwise it moved none and was hit by a reset, or by a timeout it had asked
      for, or had used up its time. A call without a time limit waits on. Both lists are in
      order of service. */
  lemma CallsAnswered(c: Config, threads: set<Tid>, es: seq<Event>)
    ensures var s, h := Reach(c, threads, es), Past(c, threads, es);
      && (forall t :: t in h.visits ==> t in s.pc && Accounted(s.pc[t], h.visits[t]))
      && InOrder(s.box.receivers, c.order, c.prio, h.since) && InOrder(s.box.senders, c.order, c.prio, h.since)
  {
    ReachTold(c, threads, es);
  }

  /** After any run a send is accepted at once exactly while fewer mails than the box can hold
      are under way; otherwise it fails at once if it asked not to wait, and waits if it asked
      for any other time. A post never waits. A receive answers at once exactly while mails
      are under way, with the oldest. */
  lemma CallsAtOnceIff(c: Config, threads: set<Tid>, es: seq<Event>, t: Tid, v: Mail, time: int)
    ensures var s, h := Reach(c, threads, es), Past(c, threads, es);
      Calls(s, t) ==>
        var s1, s2 := Step(c, s, Send(t, v, time)), Step(c, s, Receive(t, time));
        && (if |h.put| < |h.got| + c.size then s1.pc[t] == Returned(Sent)
            else s1.pc[t] == if time == 0 then Returned(Failed(EFull)) else SendWait(v, time))
        && (if |h.put| > |h.got| then s2.pc[t] == Returned(Got(h.put[|h.got|]))
            else s2.pc[t] == if time == 0 then Returned(Failed(ETimeout)) else RecvWait(time))
    ensures var s, h := Reach(c, threads, es), Past(c, threads, es);
      Step(c, s, Post(v)) == s <==> |h.put| == |h.got| + c.size
  {
    ReachTold(c, threads, es);
    var s := Reach(c, threads, es);
    if Calls(s, t) {
      WakeSpares(s, t, Returned(Sent), s.box.receivers);
      if s.box.mail != [] { WakeSpares(s, t, Returned(Got(s.box.mail[0])), s.box.senders); }
    }
  }

  /** After any run a woken thread that is scheduled returns with the timeout or the reset that hit
      its call. If nothing did, its call goes on like a new one that has the rest of its time. */
  lemma WokenCallGoesOn(c: Config, threads: set<Tid>, es: seq<Event>, t: Tid, elapsed: nat)
    requires var s, h := Reach(c, threads, es), Past(c, threads, es);
      t in s.pc && (s.pc[t].SendWoken? || s.pc[t].RecvWoken?) && t in h.visits
    ensures var s, h := Reach(c, threads, es), Past(c, threads, es);
      var v, p := h.visits[t], Step(c, s, Run(t, elapsed)).pc[t];
      var over := 0 <= v.time <= v.spent + elapsed;
      var left := if v.time < 0 then v.time else v.time - v.spent - elapsed;
      if v.hit != EOk then p == Returned(Failed(v.hit))
      else if v.call.Sending? then
        if |h.put| < |h.got| + c.size then p == Returned(Sent)
        else if over then p == Returned(Failed(EFull)) else p.SendWait? && p.v == v.call.v && SameTime(p.timeout, left)
      else
        if |h.put| > |h.got| then p == Returned(Got(h.put[|h.got|]))
        else if over then p == Returned(Failed(ETimeout)) else p.RecvWait? && SameTime(p.timeout, left)
  {
    ReachTold(c, threads, es);
    var s, h := Reach(c, threads, es), Past(c, threads, es);
    assert Accounted(s.pc[t], h.visits[t]);
    WakeSpares(s, t, Returned(Sent), s.box.receivers);
    if s.box.mail != [] { WakeSpares(s, t, Returned(Got(s.box.mail[0])), s.box.senders); }
  }
}
