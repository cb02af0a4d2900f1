/** The blocking message queue as a protocol (src/ipc.c): threads and interrupt handlers
    interleave at the boundaries of interrupt-disabled sections, and copy message bytes
    with interrupts enabled while a node is in their hands. */
module MessageQueue {
  import opened WaitList
  import opened CallHistory
  import opened MessageStore

  type Bytes = seq<bv8>

  datatype Ret = Sent | Got(out: Bytes, msg: Bytes) | Failed(err: Outcome)

  /** Where a thread stands in its current call. `msg` is a history variable: the message
      the node held when it was unlinked. */
  datatype Pc =
    | Returned(r: Ret)
    | SendWait(buf: Bytes, timeout: int)
    | SendWoken(buf: Bytes, timeout: int, err: Outcome)
    | Filling(node: nat, buf: Bytes, urgent: bool)
    | Filled(node: nat, buf: Bytes, urgent: bool)
    | RecvWait(size: nat, timeout: int)
    | RecvWoken(size: nat, timeout: int, err: Outcome)
    | Draining(node: nat, size: nat, msg: Bytes)
    | Drained(node: nat, out: Bytes, msg: Bytes)

  /** `data` is the message area of each node; `sent` is a history variable: the accepted
      and not yet unlinked messages, in delivery order. */
  datatype State = State(store: Store, data: seq<Bytes>, sent: seq<Bytes>, pc: map<Tid, Pc>)

  datatype Event =
    | Send(t: Tid, buf: Bytes, timeout: int)
    | Urgent(t: Tid, buf: Bytes)
    | Fill(t: Tid)                       // the unlocked memcpy into the node
    | LinkIt(t: Tid)
    | Recv(t: Tid, size: nat, timeout: int)
    | Drain(t: Tid)                      // the unlocked memcpy out of the node
    | GiveBack(t: Tid)
    | Run(t: Tid, elapsed: nat)          // a woken thread is scheduled again
    | Expire(t: Tid)                     // the thread timer of a suspended thread
    | ResetAll

  function Woken(p: Pc, err: Outcome): Pc {
    match p
    case SendWait(buf, timeout) => SendWoken(buf, timeout, err)
    case RecvWait(size, timeout) => RecvWoken(size, timeout, err)
    case _ => p
  }

  function Wake(pc: map<Tid, Pc>, list: seq<Tid>): map<Tid, Pc> {
    if list == [] || list[0] !in pc then pc else pc[list[0] := Woken(pc[list[0]], EOk)]
  }

  /** The loop head of rt_mq_send_wait. */
  function SendLoop(c: Config, s: State, t: Tid, buf: Bytes, timeout: int): State {
    if s.store.free != [] then
      s.(store := Take(s.store), pc := s.pc[t := Filling(s.store.free[0], buf, false)])
    else if timeout == 0 then s.(pc := s.pc[t := Returned(Failed(EFull))])
    else s.(store := WaitToSend(s.store, c, t), pc := s.pc[t := SendWait(buf, timeout)])
  }

  /** The loop head of rt_mq_recv. */
  function RecvLoop(c: Config, s: State, t: Tid, size: nat, timeout: int): State {
    if s.store.entry == 0 then
      if timeout == 0 then s.(pc := s.pc[t := Returned(Failed(ETimeout))])
      else s.(store := WaitToReceive(s.store, c, t), pc := s.pc[t := RecvWait(size, timeout)])
    else if s.store.queue == [] || s.sent == [] then s
    else State(Pop(s.store), s.data, s.sent[1..], s.pc[t := Draining(s.store.queue[0], size, s.sent[0])])
  }

  predicate Calls(s: State, t: Tid) {
    t in s.pc && s.pc[t].Returned?
  }

  function Step(c: Config, s: State, e: Event): State {
    match e
    case Send(t, buf, timeout) =>
      if !Calls(s, t) then s
      else if |buf| > c.msgSize then s.(pc := s.pc[t := Returned(Failed(EError))])
      else SendLoop(c, s, t, buf, timeout)
    case Urgent(t, buf) =>
      if !Calls(s, t) then s
      else if |buf| > c.msgSize then s.(pc := s.pc[t := Returned(Failed(EError))])
      else if s.store.free == [] then s.(pc := s.pc[t := Returned(Failed(EFull))])
      else s.(store := Take(s.store), pc := s.pc[t := Filling(s.store.free[0], buf, true)])
    case Fill(t) =>
      if t !in s.pc || !s.pc[t].Filling? then s
      else
        var n, buf := s.pc[t].node, s.pc[t].buf;
        if n >= |s.data| || |buf| > |s.data[n]| then s
        else s.(data := s.data[n := buf + s.data[n][|buf|..]], pc := s.pc[t := Filled(n, buf, s.pc[t].urgent)])
    case LinkIt(t) =>
      if t !in s.pc || !s.pc[t].Filled? then s
      else
        var Filled(n, buf, urgent) := s.pc[t];
        var full := s.store.entry >= MQ_ENTRY_MAX;
        var pc := s.pc[t := Returned(if full then Failed(EFull) else Sent)];
        State(Link(s.store, n, urgent), s.data,
              if urgent then [buf] + s.sent else s.sent + [buf],
              if full then pc else Wake(pc, s.store.receivers))
    case Recv(t, size, timeout) =>
      if !Calls(s, t) then s else RecvLoop(c, s, t, size, timeout)
    case Drain(t) =>
      if t !in s.pc || !s.pc[t].Draining? then s
      else
        var n, size := s.pc[t].node, if s.pc[t].size > c.msgSize then c.msgSize else s.pc[t].size;
        if n >= |s.data| || size > |s.data[n]| then s
        else s.(pc := s.pc[t := Drained(n, s.data[n][..size], s.pc[t].msg)])
    case GiveBack(t) =>
      if t !in s.pc || !s.pc[t].Drained? then s
      else
        s.(store := PutBack(s.store, s.pc[t].node),
           pc := Wake(s.pc[t := Returned(Got(s.pc[t].out, s.pc[t].msg))], s.store.senders))
    case Run(t, elapsed) =>
      if t in s.pc && s.pc[t].SendWoken? then
        var SendWoken(buf, timeout, err) := s.pc[t];
        if err != EOk then s.(pc := s.pc[t := Returned(Failed(err))])
        else SendLoop(c, s, t, buf, Remaining(timeout, elapsed))
      else if t in s.pc && s.pc[t].RecvWoken? then
        var RecvWoken(size, timeout, err) := s.pc[t];
        if err != EOk then s.(pc := s.pc[t := Returned(Failed(err))])
        else RecvLoop(c, s, t, size, Remaining(timeout, elapsed))
      else s
    case Expire(t) =>
      if t in s.pc && (s.pc[t].SendWait? || s.pc[t].RecvWait?) && s.pc[t].timeout > 0 then
        State(s.store.(receivers := Without(s.store.receivers, t), senders := Without(s.store.senders, t)),
              s.data, s.sent, s.pc[t := Woken(s.pc[t], ETimeout)])
      else s
    case ResetAll =>
      State(Reset(s.store), s.data, [],
            map t | t in s.pc :: if t in s.store.receivers || t in s.store.senders then Woken(s.pc[t], EError)
                else s.pc[t])
  }

  function Exec(c: Config, s: State, es: seq<Event>): State
    decreases |es|
  {
    if es == [] then s else Exec(c, Step(c, s, es[0]), es[1..])
  }

  function Start(c: Config, threads: set<Tid>): State {
    State(Fresh(c), seq(c.maxMsgs, i => seq(c.msgSize, j => 0)), [], map t | t in threads :: Returned(Sent))
  }

  // -------------------------------------------------------------- the invariant

  datatype Role = WokenReceiver | WokenSender | Holder

  predicate Plays(p: Pc, k: Role) {
    match k
    case WokenReceiver => p.RecvWoken? && p.err.EOk?
    case WokenSender => p.SendWoken? && p.err.EOk?
    case Holder => p.Filling? || p.Filled? || p.Draining? || p.Drained?
  }

  function Members(pc: map<Tid, Pc>, k: Role): set<Tid> {
    set t | t in pc && Plays(pc[t], k)
  }

  /** Each node is on the free list, in the queue or in one thread's hands, never in two. */
  ghost predicate NodesOnce(c: Config, st: Store, pc: map<Tid, Pc>) {
    && StoreOk(c, st) && HandsApart(pc)
    && (forall t :: t in pc ==> HandOk(c, st, pc[t]))
    && |st.free| + |st.queue| + |Members(pc, Holder)| == c.maxMsgs
  }

  ghost predicate StoreOk(c: Config, st: Store) {
    && NoDup(st.free) && NoDup(st.queue) && st.entry == |st.queue|
    && (forall n :: n in st.free ==> n < c.maxMsgs && n !in st.queue)
    && (forall n :: n in st.queue ==> n < c.maxMsgs)
  }

  predicate HandOk(c: Config, st: Store, p: Pc) {
    Plays(p, Holder) ==> p.node < c.maxMsgs && p.node !in st.free && p.node !in st.queue
  }

  ghost predicate HandsApart(pc: map<Tid, Pc>) {
    forall t, u :: t in pc && u in pc && t != u ==> Apart(pc[t], pc[u])
  }

  predicate Apart(p: Pc, q: Pc) {
    Plays(p, Holder) && Plays(q, Holder) ==> p.node != q.node
  }

  /** The two lists hold exactly the suspended threads. */
  ghost predicate ListsExact(st: Store, pc: map<Tid, Pc>) {
    && NoDup(st.receivers) && NoDup(st.senders)
    && (forall t :: t in st.receivers <==> t in pc && pc[t].RecvWait?)
    && (forall t :: t in st.senders <==> t in pc && pc[t].SendWait?)
  }

  /** While anybody waits for a message, every queued message is covered by a woken receiver
      that has not run yet; symmetrically for senders and free nodes. */
  ghost predicate NoLostWakeup(st: Store, pc: map<Tid, Pc>) {
    && (st.receivers != [] ==> |st.queue| <= |Members(pc, WokenReceiver)|)
    && (st.senders != [] ==> |st.free| <= |Members(pc, WokenSender)|)
  }

  /** `out` agrees with message `msg` as far as both reach. */
  predicate Agrees(out: Bytes, msg: Bytes) {
    var k := if |out| < |msg| then |out| else |msg|;
    out[..k] == msg[..k]
  }

  /** Nodes in the queue hold the accepted messages in order, and nodes in hand hold theirs. */
  ghost predicate BytesOk(c: Config, s: State) {
    && |s.data| == c.maxMsgs && (forall n :: 0 <= n < |s.data| ==> |s.data[n]| == c.msgSize)
    && |s.sent| == |s.store.queue|
    && (forall i :: 0 <= i < |s.sent| ==> s.store.queue[i] < |s.data| && s.sent[i] <= s.data[s.store.queue[i]])
    && (forall t :: t in s.pc ==> PcBytes(c, s.data, s.pc[t]))
  }

  ghost predicate PcBytes(c: Config, data: seq<Bytes>, p: Pc) {
    match p
    case SendWait(buf, _) => |buf| <= c.msgSize
    case SendWoken(buf, _, _) => |buf| <= c.msgSize
    case Filling(n, buf, _) => |buf| <= c.msgSize
    case Filled(n, buf, _) => n < |data| && buf <= data[n]
    case Draining(n, _, msg) => n < |data| && msg <= data[n]
    case Drained(n, out, msg) => Agrees(out, msg)
    case Returned(r) => r.Got? ==> Agrees(r.out, r.msg)
    case _ => true
  }

  ghost predicate Inv(c: Config, s: State) {
    NodesOnce(c, s.store, s.pc) && ListsExact(s.store, s.pc) && NoLostWakeup(s.store, s.pc) && BytesOk(c, s)
  }

  lemma MembersUpdate(pc: map<Tid, Pc>, t: Tid, p: Pc, k: Role)
    requires t in pc
    ensures Members(pc[t := p], k) == if Plays(p, k) then Members(pc, k) + {t} else Members(pc, k) - {t}
    ensures |Members(pc[t := p], k)| ==
            |Members(pc, k)| + (if Plays(p, k) then 1 else 0) - (if Plays(pc[t], k) then 1 else 0)
  {
    assert Members(pc[t := p], k) == if Plays(p, k) then Members(pc, k) + {t} else Members(pc, k) - {t};
  }

  lemma MembersAll(pc: map<Tid, Pc>, t: Tid, p: Pc)
    requires t in pc
    ensures var pc1 := pc[t := p];
      && |Members(pc1, Holder)| == |Members(pc, Holder)|
           + (if Plays(p, Holder) then 1 else 0) - (if Plays(pc[t], Holder) then 1 else 0)
      && |Members(pc1, WokenReceiver)| == |Members(pc, WokenReceiver)|
           + (if Plays(p, WokenReceiver) then 1 else 0) - (if Plays(pc[t], WokenReceiver) then 1 else 0)
      && |Members(pc1, WokenSender)| == |Members(pc, WokenSender)|
           + (if Plays(p, WokenSender) then 1 else 0) - (if Plays(pc[t], WokenSender) then 1 else 0)
  {
    MembersUpdate(pc, t, p, Holder);
    MembersUpdate(pc, t, p, WokenReceiver);
    MembersUpdate(pc, t, p, WokenSender);
  }

  // ------------------------------------------- steps that move nodes, one kind each

  lemma HandsApartUpdate(pc: map<Tid, Pc>, t: Tid, p: Pc)
    requires HandsApart(pc) && t in pc
    requires forall u :: u in pc && u != t ==> Apart(p, pc[u])
    ensures HandsApart(pc[t := p])
  {
    forall u, v | u in pc && v in pc && u != v ensures Apart(pc[t := p][u], pc[t := p][v]) {
      assert Apart(pc[u], pc[v]);
    }
  }

  /** A step that leaves the thread's hands and the two node lists as they were. */
  lemma NodesStay(c: Config, st: Store, pc: map<Tid, Pc>, t: Tid, p: Pc, next: Store)
    requires NodesOnce(c, st, pc) && t in pc
    requires next.free == st.free && next.queue == st.queue && next.entry == st.entry
    requires Plays(p, Holder) == Plays(pc[t], Holder) && (Plays(p, Holder) ==> p.node == pc[t].node)
    ensures NodesOnce(c, next, pc[t := p])
  {
    MembersUpdate(pc, t, p, Holder);
    forall u | u in pc && u != t ensures Apart(p, pc[u]) { assert Apart(pc[t], pc[u]); }
    HandsApartUpdate(pc, t, p);
    var pc1 := pc[t := p];
    forall u | u in pc1 ensures HandOk(c, next, pc1[u]) { assert HandOk(c, st, pc[u]); }
  }

  /** The head of the free list moves into empty hands. */
  lemma NodesTake(c: Config, st: Store, pc: map<Tid, Pc>, t: Tid, p: Pc)
    requires NodesOnce(c, st, pc) && t in pc && st.free != []
    requires !Plays(pc[t], Holder) && Plays(p, Holder) && p.node == st.free[0]
    ensures NodesOnce(c, Take(st), pc[t := p])
  {
    MembersUpdate(pc, t, p, Holder);
    NoDupPop(st.free);
    forall u | u in pc ensures HandOk(c, st, pc[u]) && Apart(p, pc[u]) {}
    HandsApartUpdate(pc, t, p);
    var pc1 := pc[t := p];
    forall u | u in pc1 ensures HandOk(c, Take(st), pc1[u]) { assert HandOk(c, st, pc[u]); }
  }

  /** The head message moves into empty hands. */
  lemma NodesPop(c: Config, st: Store, pc: map<Tid, Pc>, t: Tid, p: Pc)
    requires NodesOnce(c, st, pc) && t in pc && st.queue != []
    requires !Plays(pc[t], Holder) && Plays(p, Holder) && p.node == st.queue[0]
    ensures NodesOnce(c, Pop(st), pc[t := p])
  {
    MembersUpdate(pc, t, p, Holder);
    NoDupPop(st.queue);
    forall u | u in pc ensures HandOk(c, st, pc[u]) && Apart(p, pc[u]) {}
    HandsApartUpdate(pc, t, p);
    var pc1 := pc[t := p];
    forall u | u in pc1 ensures HandOk(c, Pop(st), pc1[u]) { assert HandOk(c, st, pc[u]); }
  }

  /** The node in hand goes back into the store: linked as a message, or freed. The entry
      counter is never saturated at that moment. */
  lemma NodesDrop(c: Config, st: Store, pc: map<Tid, Pc>, t: Tid, p: Pc, free: bool, urgent: bool)
    requires NodesOnce(c, st, pc) && t in pc && c.maxMsgs <= MQ_ENTRY_MAX
    requires Plays(pc[t], Holder) && !Plays(p, Holder)
    ensures st.entry < MQ_ENTRY_MAX
    ensures NodesOnce(c, if free then PutBack(st, pc[t].node) else Link(st, pc[t].node, urgent), pc[t := p])
  {
    var n := pc[t].node;
    var next := if free then PutBack(st, n) else Link(st, n, urgent);
    MembersUpdate(pc, t, p, Holder);
    assert t in Members(pc, Holder);
    assert HandOk(c, st, pc[t]);
    NoDupPush(n, if free then st.free else st.queue);
    HandsApartUpdate(pc, t, p);
    var pc1 := pc[t := p];
    forall u | u in pc1 ensures HandOk(c, next, pc1[u]) {
      assert HandOk(c, st, pc[u]);
      if u != t { assert Apart(pc[u], pc[t]); }
    }
  }

  // ------------------------------------------------------------ steps of one thread

  predicate Waits(p: Pc) {
    p.RecvWait? || p.SendWait?
  }

  /** A step of a thread that does not wait, before or after, keeps the lists exact. */
  lemma ListsStay(st: Store, pc: map<Tid, Pc>, t: Tid, p: Pc, next: Store)
    requires ListsExact(st, pc) && t in pc && !Waits(pc[t]) && !Waits(p)
    requires next.receivers == st.receivers && next.senders == st.senders
    ensures ListsExact(next, pc[t := p])
  {
    var pc1 := pc[t := p];
    forall u ensures u in next.receivers <==> u in pc1 && pc1[u].RecvWait? {}
    forall u ensures u in next.senders <==> u in pc1 && pc1[u].SendWait? {}
  }

  /** A thread that suspends is linked on the list of its kind. */
  lemma ListsWait(c: Config, st: Store, pc: map<Tid, Pc>, t: Tid, p: Pc)
    requires ListsExact(st, pc) && t in pc && !Waits(pc[t]) && Waits(p)
    ensures ListsExact(if p.RecvWait? then WaitToReceive(st, c, t) else WaitToSend(st, c, t), pc[t := p])
  {
    var pc1 := pc[t := p];
    var next := if p.RecvWait? then WaitToReceive(st, c, t) else WaitToSend(st, c, t);
    EnqueueMembers(st.receivers, c.prio, c.order, t);
    EnqueueMembers(st.senders, c.prio, c.order, t);
    forall u ensures u in next.receivers <==> u in pc1 && pc1[u].RecvWait? {}
    forall u ensures u in next.senders <==> u in pc1 && pc1[u].SendWait? {}
  }

  /** A step that moves no message and touches no node's bytes. */
  lemma BytesStay(c: Config, s: State, t: Tid, p: Pc, next: Store)
    requires BytesOk(c, s) && t in s.pc && next.queue == s.store.queue && PcBytes(c, s.data, p)
    ensures BytesOk(c, State(next, s.data, s.sent, s.pc[t := p]))
  {
    var pc1 := s.pc[t := p];
    forall u | u in pc1 ensures PcBytes(c, s.data, pc1[u]) {
      if u != t { assert PcBytes(c, s.data, s.pc[u]); }
    }
  }

  lemma SendLoopInv(c: Config, s: State, t: Tid, buf: Bytes, timeout: int)
    requires Inv(c, s) && t in s.pc && |buf| <= c.msgSize
    requires s.pc[t].Returned? || (s.pc[t].SendWoken? && s.pc[t].err.EOk?)
    ensures Inv(c, SendLoop(c, s, t, buf, timeout))
  {
    var s1 := SendLoop(c, s, t, buf, timeout);
    var p := s1.pc[t];
    MembersAll(s.pc, t, p);
    BytesStay(c, s, t, p, s1.store);
    if s.store.free != [] {
      NodesTake(c, s.store, s.pc, t, p);
      ListsStay(s.store, s.pc, t, p, s1.store);
    } else {
      NodesStay(c, s.store, s.pc, t, p, s1.store);
      if timeout == 0 { ListsStay(s.store, s.pc, t, p, s1.store); } else { ListsWait(c, s.store, s.pc, t, p); }
    }
  }

  lemma RecvLoopInv(c: Config, s: State, t: Tid, size: nat, timeout: int)
    requires Inv(c, s) && t in s.pc
    requires s.pc[t].Returned? || (s.pc[t].RecvWoken? && s.pc[t].err.EOk?)
    ensures Inv(c, RecvLoop(c, s, t, size, timeout))
  {
    var s1 := RecvLoop(c, s, t, size, timeout);
    var p := s1.pc[t];
    MembersAll(s.pc, t, p);
    if s.store.entry == 0 {
      BytesStay(c, s, t, p, s1.store);
      NodesStay(c, s.store, s.pc, t, p, s1.store);
      if timeout == 0 { ListsStay(s.store, s.pc, t, p, s1.store); } else { ListsWait(c, s.store, s.pc, t, p); }
    } else {
      NodesPop(c, s.store, s.pc, t, p);
      ListsStay(s.store, s.pc, t, p, s1.store);
      BytesPop(c, s, t, p);
    }
  }

  /** Unlinking the head message hands its bytes to the receiver. */
  lemma BytesPop(c: Config, s: State, t: Tid, p: Pc)
    requires BytesOk(c, s) && t in s.pc && s.store.queue != []
    requires p.Draining? && p.node == s.store.queue[0] && p.msg == s.sent[0]
    ensures BytesOk(c, State(Pop(s.store), s.data, s.sent[1..], s.pc[t := p]))
  {
    BytesStay(c, s, t, p, s.store);
    var s1 := State(Pop(s.store), s.data, s.sent[1..], s.pc[t := p]);
    forall i | 0 <= i < |s1.sent| ensures s1.store.queue[i] < |s.data| && s1.sent[i] <= s.data[s1.store.queue[i]] {
      assert s1.sent[i] == s.sent[i + 1] && s1.store.queue[i] == s.store.queue[i + 1];
    }
  }

  // ---------------------------------------------------- steps that wake somebody

  /** Popping the first waiter of the receivers' (or senders') list and waking it. */
  lemma ListsWake(st: Store, pc: map<Tid, Pc>, next: Store, recv: bool)
    requires ListsExact(st, pc)
    requires var list := if recv then st.receivers else st.senders;
      var rest := if list == [] then [] else list[1..];
      if recv then next.receivers == rest && next.senders == st.senders
      else next.senders == rest && next.receivers == st.receivers
    ensures ListsExact(next, Wake(pc, if recv then st.receivers else st.senders))
  {
    var list := if recv then st.receivers else st.senders;
    if list != [] {
      NoDupPop(list);
      var w := list[0];
      var pc1 := Wake(pc, list);
      assert w in list;
      forall u ensures u in next.receivers <==> u in pc1 && pc1[u].RecvWait? {}
      forall u ensures u in next.senders <==> u in pc1 && pc1[u].SendWait? {}
    }
  }

  /** Waking keeps the nodes where they are and adds one woken thread of that kind. */
  lemma WakeCounts(c: Config, st: Store, pc: map<Tid, Pc>, next: Store, recv: bool)
    requires NodesOnce(c, st, pc) && next.free == st.free && next.queue == st.queue && next.entry == st.entry
    requires ListsExact(next, pc)
    ensures var list := if recv then next.receivers else next.senders;
      var pc1 := Wake(pc, list);
      var one := if list == [] then 0 else 1;
      && NodesOnce(c, st, pc1)
      && |Members(pc1, WokenReceiver)| == |Members(pc, WokenReceiver)| + (if recv then one else 0)
      && |Members(pc1, WokenSender)| == |Members(pc, WokenSender)| + (if recv then 0 else one)
  {
    var list := if recv then next.receivers else next.senders;
    if list != [] {
      assert list[0] in list;
      var p := Woken(pc[list[0]], EOk);
      MembersAll(pc, list[0], p);
      NodesStay(c, st, pc, list[0], p, st);
    }
  }

  lemma WakeBytes(c: Config, s: State, list: seq<Tid>)
    requires BytesOk(c, s)
    ensures BytesOk(c, s.(pc := Wake(s.pc, list)))
  {
    if list != [] && list[0] in s.pc {
      assert PcBytes(c, s.data, s.pc[list[0]]);
      BytesStay(c, s, list[0], Woken(s.pc[list[0]], EOk), s.store);
    }
  }

  lemma BytesLink(c: Config, s: State, t: Tid, p: Pc, next: Store)
    requires BytesOk(c, s) && t in s.pc && s.pc[t].Filled? && PcBytes(c, s.data, p)
    requires next.queue == Link(s.store, s.pc[t].node, s.pc[t].urgent).queue
    ensures var sent := if s.pc[t].urgent then [s.pc[t].buf] + s.sent else s.sent + [s.pc[t].buf];
      BytesOk(c, State(next, s.data, sent, s.pc[t := p]))
  {
    BytesStay(c, s, t, p, s.store);
    assert PcBytes(c, s.data, s.pc[t]);
    var sent := if s.pc[t].urgent then [s.pc[t].buf] + s.sent else s.sent + [s.pc[t].buf];
    forall i | 0 <= i < |sent| ensures next.queue[i] < |s.data| && sent[i] <= s.data[next.queue[i]] {
      if s.pc[t].urgent && i > 0 {
        assert next.queue[i] == s.store.queue[i - 1] && sent[i] == s.sent[i - 1];
      }
    }
  }

  lemma LinkNodes(c: Config, s: State, t: Tid)
    requires NodesOnce(c, s.store, s.pc) && ListsExact(s.store, s.pc) && NoLostWakeup(s.store, s.pc)
    requires c.maxMsgs <= MQ_ENTRY_MAX && t in s.pc && s.pc[t].Filled?
    ensures var s1 := Step(c, s, LinkIt(t));
      NodesOnce(c, s1.store, s1.pc) && NoLostWakeup(s1.store, s1.pc) && s.store.entry < MQ_ENTRY_MAX
  {
    var p := Returned(Sent);
    var pc1, st1 := s.pc[t := p], Link(s.store, s.pc[t].node, s.pc[t].urgent);
    NodesDrop(c, s.store, s.pc, t, p, false, s.pc[t].urgent);
    MembersAll(s.pc, t, p);
    ListsStay(s.store, s.pc, t, p, s.store);
    WakeCounts(c, st1, pc1, st1.(receivers := s.store.receivers), true);
  }

  lemma LinkLists(c: Config, s: State, t: Tid)
    requires Inv(c, s) && t in s.pc && s.pc[t].Filled? && s.store.entry < MQ_ENTRY_MAX
    ensures var s1 := Step(c, s, LinkIt(t)); ListsExact(s1.store, s1.pc)
  {
    var p := Returned(Sent);
    ListsStay(s.store, s.pc, t, p, s.store);
    ListsWake(s.store, s.pc[t := p], Link(s.store, s.pc[t].node, s.pc[t].urgent), true);
  }

  lemma LinkBytes(c: Config, s: State, t: Tid)
    requires Inv(c, s) && t in s.pc && s.pc[t].Filled? && s.store.entry < MQ_ENTRY_MAX
    ensures BytesOk(c, Step(c, s, LinkIt(t)))
  {
    var Filled(n, buf, urgent) := s.pc[t];
    var st1 := Link(s.store, n, urgent);
    BytesLink(c, s, t, Returned(Sent), st1);
    WakeBytes(c, State(st1, s.data, if urgent then [buf] + s.sent else s.sent + [buf], s.pc[t := Returned(Sent)]),
              s.store.receivers);
  }

  lemma LinkInv(c: Config, s: State, t: Tid)
    requires Inv(c, s) && c.maxMsgs <= MQ_ENTRY_MAX && t in s.pc && s.pc[t].Filled?
    ensures Inv(c, Step(c, s, LinkIt(t)))
  {
    LinkNodes(c, s, t);
    LinkLists(c, s, t);
    LinkBytes(c, s, t);
  }

  lemma GiveBackNodes(c: Config, s: State, t: Tid)
    requires NodesOnce(c, s.store, s.pc) && ListsExact(s.store, s.pc) && NoLostWakeup(s.store, s.pc)
    requires c.maxMsgs <= MQ_ENTRY_MAX && t in s.pc && s.pc[t].Drained?
    ensures var s1 := Step(c, s, GiveBack(t));
      NodesOnce(c, s1.store, s1.pc) && NoLostWakeup(s1.store, s1.pc)
  {
    var p := Returned(Got(s.pc[t].out, s.pc[t].msg));
    var pc1, st1 := s.pc[t := p], PutBack(s.store, s.pc[t].node);
    NodesDrop(c, s.store, s.pc, t, p, true, false);
    MembersAll(s.pc, t, p);
    ListsStay(s.store, s.pc, t, p, s.store);
    WakeCounts(c, st1, pc1, st1.(senders := s.store.senders), false);
  }

  lemma GiveBackInv(c: Config, s: State, t: Tid)
    requires Inv(c, s) && c.maxMsgs <= MQ_ENTRY_MAX && t in s.pc && s.pc[t].Drained?
    ensures Inv(c, Step(c, s, GiveBack(t)))
  {
    GiveBackNodes(c, s, t);
    GiveBackRest(c, s, t);
  }

  lemma GiveBackRest(c: Config, s: State, t: Tid)
    requires ListsExact(s.store, s.pc) && BytesOk(c, s) && t in s.pc && s.pc[t].Drained?
    ensures var s1 := Step(c, s, GiveBack(t)); ListsExact(s1.store, s1.pc) && BytesOk(c, s1)
  {
    var p := Returned(Got(s.pc[t].out, s.pc[t].msg));
    var pc1, st1 := s.pc[t := p], PutBack(s.store, s.pc[t].node);
    assert PcBytes(c, s.data, s.pc[t]);
    BytesStay(c, s, t, p, st1);
    WakeBytes(c, State(st1, s.data, s.sent, pc1), s.store.senders);
    ListsStay(s.store, s.pc, t, p, s.store);
    ListsWake(s.store, pc1, st1, false);
  }

  // --------------------------------------------- copies, failures, timers, reset

  /** Filling the node in hand changes no other node's bytes. */
  lemma FillInv(c: Config, s: State, t: Tid)
    requires Inv(c, s)
    ensures Inv(c, Step(c, s, Fill(t)))
  {
    var s1 := Step(c, s, Fill(t));
    if s1 != s {
      var Filling(n, buf, urgent) := s.pc[t];
      var p := Filled(n, buf, urgent);
      MembersAll(s.pc, t, p);
      NodesStay(c, s.store, s.pc, t, p, s.store);
      ListsStay(s.store, s.pc, t, p, s.store);
      assert HandOk(c, s.store, s.pc[t]);
      assert buf <= s1.data[n];
      forall u | u in s1.pc ensures PcBytes(c, s1.data, s1.pc[u]) {
        assert PcBytes(c, s.data, s.pc[u]);
        if u != t { assert Apart(s.pc[u], s.pc[t]); }
      }
      forall i | 0 <= i < |s1.sent| ensures s1.sent[i] <= s1.data[s1.store.queue[i]] {
        assert s.store.queue[i] in s.store.queue;
      }
    }
  }

  /** A step of a thread that only changes how far it has come. */
  lemma PlainInv(c: Config, s: State, t: Tid, p: Pc)
    requires Inv(c, s) && t in s.pc && !Waits(s.pc[t]) && !Waits(p) && PcBytes(c, s.data, p)
    requires Plays(p, Holder) == Plays(s.pc[t], Holder) && (Plays(p, Holder) ==> p.node == s.pc[t].node)
    requires Plays(p, WokenReceiver) == Plays(s.pc[t], WokenReceiver)
    requires Plays(p, WokenSender) == Plays(s.pc[t], WokenSender)
    ensures Inv(c, s.(pc := s.pc[t := p]))
  {
    MembersAll(s.pc, t, p);
    NodesStay(c, s.store, s.pc, t, p, s.store);
    ListsStay(s.store, s.pc, t, p, s.store);
    BytesStay(c, s, t, p, s.store);
  }

  lemma DrainInv(c: Config, s: State, t: Tid)
    requires Inv(c, s)
    ensures Inv(c, Step(c, s, Drain(t)))
  {
    if Step(c, s, Drain(t)) != s {
      var p := Step(c, s, Drain(t)).pc[t];
      assert PcBytes(c, s.data, s.pc[t]);
      PlainInv(c, s, t, p);
    }
  }

  lemma ListsExpire(st: Store, pc: map<Tid, Pc>, t: Tid, next: Store)
    requires ListsExact(st, pc) && t in pc && Waits(pc[t])
    requires next.receivers == Without(st.receivers, t) && next.senders == Without(st.senders, t)
    ensures ListsExact(next, pc[t := Woken(pc[t], ETimeout)])
  {
    var pc1 := pc[t := Woken(pc[t], ETimeout)];
    WithoutNoDup(st.receivers, t);
    WithoutNoDup(st.senders, t);
    forall u ensures u in next.receivers <==> u in pc1 && pc1[u].RecvWait? {}
    forall u ensures u in next.senders <==> u in pc1 && pc1[u].SendWait? {}
  }

  /** A timer that fires unlinks exactly its own thread, and consumes nothing. */
  lemma ExpireInv(c: Config, s: State, t: Tid)
    requires Inv(c, s)
    ensures Inv(c, Step(c, s, Expire(t)))
  {
    var s1 := Step(c, s, Expire(t));
    if t in s.pc && Waits(s.pc[t]) && s.pc[t].timeout > 0 {
      var p := Woken(s.pc[t], ETimeout);
      MembersAll(s.pc, t, p);
      NodesStay(c, s.store, s.pc, t, p, s1.store);
      assert PcBytes(c, s.data, s.pc[t]);
      BytesStay(c, s, t, p, s1.store);
      ListsExpire(s.store, s.pc, t, s1.store);
      assert NoLostWakeup(s1.store, s1.pc);
    }
  }

  lemma ResetNodes(c: Config, s: State)
    requires NodesOnce(c, s.store, s.pc)
    ensures var s1 := Step(c, s, ResetAll); NodesOnce(c, s1.store, s1.pc)
  {
    var s1 := Step(c, s, ResetAll);
    ReleaseAllNoDup(s.store.queue, s.store.free);
    assert Members(s1.pc, Holder) == Members(s.pc, Holder);
    forall u, v | u in s1.pc && v in s1.pc && u != v ensures Apart(s1.pc[u], s1.pc[v]) {
      assert Apart(s.pc[u], s.pc[v]);
    }
    forall u | u in s1.pc ensures HandOk(c, s1.store, s1.pc[u]) { assert HandOk(c, s.store, s.pc[u]); }
  }

  lemma ResetInv(c: Config, s: State)
    requires Inv(c, s)
    ensures Inv(c, Step(c, s, ResetAll))
  {
    ResetNodes(c, s);
    var s1 := Step(c, s, ResetAll);
    assert ListsExact(s1.store, s1.pc);
    forall u | u in s1.pc ensures PcBytes(c, s1.data, s1.pc[u]) { assert PcBytes(c, s.data, s.pc[u]); }
  }

  lemma StepInv(c: Config, s: State, e: Event)
    requires Inv(c, s) && c.maxMsgs <= MQ_ENTRY_MAX
    ensures Inv(c, Step(c, s, e))
  {
    match e
    case Send(t, buf, timeout) =>
      if Calls(s, t) {
        if |buf| > c.msgSize { PlainInv(c, s, t, Returned(Failed(EError))); }
            else { SendLoopInv(c, s, t, buf, timeout); }
      }
    case Urgent(t, buf) => UrgentInv(c, s, t, buf);
    case Fill(t) => FillInv(c, s, t);
    case LinkIt(t) => if t in s.pc && s.pc[t].Filled? { LinkInv(c, s, t); }
    case Recv(t, size, timeout) => if Calls(s, t) { RecvLoopInv(c, s, t, size, timeout); }
    case Drain(t) => DrainInv(c, s, t);
    case GiveBack(t) => if t in s.pc && s.pc[t].Drained? { GiveBackInv(c, s, t); }
    case Run(t, elapsed) =>
      if t in s.pc && (s.pc[t].SendWoken? || s.pc[t].RecvWoken?) {
        assert PcBytes(c, s.data, s.pc[t]);
        if s.pc[t].err != EOk { PlainInv(c, s, t, Returned(Failed(s.pc[t].err))); }
        else if s.pc[t].SendWoken? { SendLoopInv(c, s, t, s.pc[t].buf, Remaining(s.pc[t].timeout, elapsed)); }
        else { RecvLoopInv(c, s, t, s.pc[t].size, Remaining(s.pc[t].timeout, elapsed)); }
      }
    case Expire(t) => ExpireInv(c, s, t);
    case ResetAll => ResetInv(c, s);
  }

  lemma UrgentInv(c: Config, s: State, t: Tid, buf: Bytes)
    requires Inv(c, s)
    ensures Inv(c, Step(c, s, Urgent(t, buf)))
  {
    if Calls(s, t) {
      var s1 := Step(c, s, Urgent(t, buf));
      if |buf| > c.msgSize || s.store.free == [] {
        PlainInv(c, s, t, s1.pc[t]);
      } else {
        var p := s1.pc[t];
        MembersAll(s.pc, t, p);
        NodesTake(c, s.store, s.pc, t, p);
        ListsStay(s.store, s.pc, t, p, s1.store);
        BytesStay(c, s, t, p, s1.store);
      }
    }
  }

  // ------------------------------------------------------------- over whole runs

  lemma StartInv(c: Config, threads: set<Tid>)
    ensures Inv(c, Start(c, threads))
  {
    var s := Start(c, threads);
    assert Members(s.pc, Holder) == {};
  }

  lemma {:induction false} ExecInv(c: Config, s: State, es: seq<Event>)
    requires Inv(c, s) && c.maxMsgs <= MQ_ENTRY_MAX
    ensures Inv(c, Exec(c, s, es))
    decreases |es|
  {
    if es != [] {
      StepInv(c, s, es[0]);
      ExecInv(c, Step(c, s, es[0]), es[1..]);
    }
  }

  // ------------------------------------------------------- what a run guarantees

  /** The state after any run of a queue whose message count fits the 16-bit counter. */
  function Reach(c: Config, threads: set<Tid>, es: seq<Event>): State {
    Exec(c, Start(c, threads), es)
  }

  lemma ReachInv(c: Config, threads: set<Tid>, es: seq<Event>)
    requires c.maxMsgs <= MQ_ENTRY_MAX
    ensures Inv(c, Reach(c, threads, es))
  {
    StartInv(c, threads);
    ExecInv(c, Start(c, threads), es);
  }

  /** No lost wakeup: while a receiver is suspended, the queued messages never outnumber the
      receivers already woken for them; while a sender is suspended, the free nodes never
      outnumber the woken senders. */
  lemma NobodyForgotten(c: Config, threads: set<Tid>, es: seq<Event>)
    requires c.maxMsgs <= MQ_ENTRY_MAX
    ensures var s := Reach(c, threads, es);
      && ((exists t :: t in s.pc && s.pc[t].RecvWait?) ==> |s.store.queue| <= |Members(s.pc, WokenReceiver)|)
      && ((exists t :: t in s.pc && s.pc[t].SendWait?) ==> |s.store.free| <= |Members(s.pc, WokenSender)|)
  {
    ReachInv(c, threads, es);
  }

  function Hands(pc: map<Tid, Pc>, ts: set<Tid>): set<nat>
    requires ts <= Members(pc, Holder)
  {
    set t | t in ts :: pc[t].node
  }

  lemma {:induction false} HandsCount(pc: map<Tid, Pc>, ts: set<Tid>)
    requires ts <= Members(pc, Holder) && HandsApart(pc)
    ensures |Hands(pc, ts)| == |ts|
  {
    if ts != {} {
      var t :| t in ts;
      HandsCount(pc, ts - {t});
      forall u | u in ts - {t} ensures pc[u].node != pc[t].node { assert Apart(pc[u], pc[t]); }
      assert Hands(pc, ts) == Hands(pc, ts - {t}) + {pc[t].node};
    }
  }

  function Below(k: nat): (r: set<nat>)
    ensures |r| == k && forall n: nat :: n in r <==> n < k
  {
    if k == 0 then {} else
      var b := Below(k - 1);
      assert k - 1 !in b;
      b + {k - 1}
  }

  lemma {:induction false} ListCount(s: seq<nat>)
    requires NoDup(s)
    ensures |Elems(s)| == |s|
  {
    if s == [] {
      assert Elems(s) == {};
    } else {
      NoDupPop(s);
      ListCount(s[1..]);
      assert Elems(s) == Elems(s[1..]) + {s[0]};
    }
  }

  lemma FullSubset(a: set<nat>, b: set<nat>)
    requires a <= b && |a| == |b|
    ensures a == b
  {
    assert b == a + (b - a);
    assert |b| == |a| + |b - a|;
  }

  /** The three places together account for the whole pool. */
  lemma PoolCovered(c: Config, st: Store, pc: map<Tid, Pc>)
    requires NodesOnce(c, st, pc)
    ensures Elems(st.free) + Elems(st.queue) + Hands(pc, Members(pc, Holder)) == Below(c.maxMsgs)
  {
    ListCount(st.free);
    ListCount(st.queue);
    HandsCount(pc, Members(pc, Holder));
    HandsOutside(c, st, pc);
    ThreePlaces(Elems(st.free), Elems(st.queue), Hands(pc, Members(pc, Holder)), c.maxMsgs);
  }

  /** Nodes in hand are nodes of the pool and on neither list. */
  lemma HandsOutside(c: Config, st: Store, pc: map<Tid, Pc>)
    requires forall t :: t in pc ==> HandOk(c, st, pc[t])
    ensures forall n :: n in Hands(pc, Members(pc, Holder)) ==> n < c.maxMsgs && n !in st.free && n !in st.queue
  {
    forall t | t in Members(pc, Holder) ensures pc[t].node < c.maxMsgs && pc[t].node !in st.free
        && pc[t].node !in st.queue {
      assert HandOk(c, st, pc[t]);
    }
  }

  /** Three disjoint sets of nodes that are as many as the pool are the pool. */
  lemma ThreePlaces(free: set<nat>, queue: set<nat>, held: set<nat>, n: nat)
    requires free !! queue && free !! held && queue !! held && |free| + |queue| + |held| == n
    requires forall x :: x in free || x in queue || x in held ==> x < n
    ensures free + queue + held == Below(n)
  {
    assert |free + queue| == |free| + |queue|;
    assert |free + queue + held| == |free + queue| + |held|;
    FullSubset(free + queue + held, Below(n));
  }

  /** Thread `t` is copying into or out of node `n`. */
  predicate Has(pc: map<Tid, Pc>, t: Tid, n: nat) {
    t in pc && Plays(pc[t], Holder) && pc[t].node == n
  }

  lemma SomePlace(c: Config, st: Store, pc: map<Tid, Pc>, n: nat)
    requires NodesOnce(c, st, pc) && n < c.maxMsgs
    ensures n in st.free || n in st.queue || exists t :: Has(pc, t, n)
  {
    PoolCovered(c, st, pc);
    assert n in Below(c.maxMsgs);
    if n in Hands(pc, Members(pc, Holder)) {
      var t :| t in Members(pc, Holder) && pc[t].node == n;
      assert Has(pc, t, n);
    }
  }

  lemma OnePlace(c: Config, st: Store, pc: map<Tid, Pc>, n: nat)
    requires NodesOnce(c, st, pc)
    ensures forall t :: Has(pc, t, n) ==> n !in st.free && n !in st.queue
    ensures forall t, u :: Has(pc, t, n) && Has(pc, u, n) ==> t == u
  {
    forall t | Has(pc, t, n) ensures n !in st.free && n !in st.queue { assert HandOk(c, st, pc[t]); }
    forall t, u | Has(pc, t, n) && Has(pc, u, n) ensures t == u { assert Apart(pc[t], pc[u]) || t == u; }
  }

  /** After any run every node of the pool is in exactly one place: free, queued, or in the
      hands of exactly one thread that is copying a message. */
  lemma EveryNodeInOnePlace(c: Config, threads: set<Tid>, es: seq<Event>, n: nat)
    requires c.maxMsgs <= MQ_ENTRY_MAX && n < c.maxMsgs
    ensures var s := Reach(c, threads, es);
      && (n in s.store.free || n in s.store.queue || exists t :: Has(s.pc, t, n))
      && !(n in s.store.free && n in s.store.queue)
      && (forall t :: Has(s.pc, t, n) ==> n !in s.store.free && n !in s.store.queue)
      && (forall t, u :: Has(s.pc, t, n) && Has(s.pc, u, n) ==> t == u)
  {
    ReachInv(c, threads, es);
    var s := Reach(c, threads, es);
    SomePlace(c, s.store, s.pc, n);
    OnePlace(c, s.store, s.pc, n);
  }

  /** The saturation branch of the entry counter is never taken: linking always succeeds. */
  lemma LinkAlwaysSucceeds(c: Config, threads: set<Tid>, es: seq<Event>, t: Tid)
    requires c.maxMsgs <= MQ_ENTRY_MAX
    requires t in threads && t in Reach(c, threads, es).pc && Reach(c, threads, es).pc[t].Filled?
    ensures Step(c, Reach(c, threads, es), LinkIt(t)).pc[t] == Returned(Sent)
  {
    ReachInv(c, threads, es);
    var s := Reach(c, threads, es);
    LinkNodes(c, s, t);
    assert s.store.receivers != [] ==> s.store.receivers[0] in s.store.receivers;
  }

  // ------------------------------------------------- the history of the messages

  datatype Call = Sending(buf: Bytes, front: bool) | Receiving(size: nat)

  /** `deque` holds the messages accepted and not yet received, as their calls were given them, in
      delivery order; `front` the message each thread last took from its front; `now` counts
      events, and `since` tells when each thread last began to wait. */
  datatype History = History(deque: seq<Bytes>, front: map<Tid, Bytes>, now: nat, since: map<Tid, nat>,
                             visits: Visits<Call>)

  function Sleepers(pc: map<Tid, Pc>): set<Tid> {
    set t | t in pc && Waits(pc[t])
  }

  function Begun(h: History, t: Tid, call: Call, time: int): History {
    h.(now := h.now + 1, visits := h.visits[t := Visit(call, time, 0, EOk, 0)])
  }

  /** What is known when the call of `t` has come as far as `p` at event `now`: a receive that
      has got hold of a node takes the front message. */
  function NoteMove(h: History, now: nat, t: Tid, p: Pc): History {
    if p.Draining? && h.deque != [] then
      h.(deque := h.deque[1..], front := h.front[t := h.deque[0]], visits := Credited(h.visits, {t}))
    else if Waits(p) then h.(since := h.since[t := now])
    else h
  }

  /** A call whose linking succeeds has its own message put where the call asked for. */
  function NoteLink(h: History, t: Tid): History {
    if t !in h.visits || !h.visits[t].call.Sending? then h
    else
      var Sending(buf, front) := h.visits[t].call;
      h.(deque := if front then [buf] + h.deque else h.deque + [buf], visits := Credited(h.visits, {t}))
  }

  function Note(h: History, s: State, e: Event, s1: State): History {
    var g := h.(now := h.now + 1);
    match e
    case Send(t, buf, time) =>
      if !Calls(s, t) || t !in s1.pc then g
      else NoteMove(Begun(h, t, Sending(buf, false), time), h.now, t, s1.pc[t])
    case Urgent(t, buf) =>
      if !Calls(s, t) || t !in s1.pc then g else NoteMove(Begun(h, t, Sending(buf, true), 0), h.now, t, s1.pc[t])
    case LinkIt(t) =>
      if t !in s.pc || !s.pc[t].Filled? || t !in s1.pc || s1.pc[t] != Returned(Sent) then g else NoteLink(g, t)
    case Recv(t, size, time) =>
      if !Calls(s, t) || t !in s1.pc then g
      else NoteMove(Begun(h, t, Receiving(size), time), h.now, t, s1.pc[t])
    case Run(t, elapsed) =>
      if t !in s.pc || !(s.pc[t].SendWoken? || s.pc[t].RecvWoken?) || t !in s1.pc then g
      else NoteMove(g.(visits := Spent(h.visits, t, elapsed)), h.now, t, s1.pc[t])
    case Expire(t) =>
      if t in Sleepers(s.pc) && t in h.visits && h.visits[t].time > 0 then g.(visits := Struck(h.visits, {t}, ETimeout))
      else g
    case ResetAll => g.(deque := [], visits := Struck(h.visits, Sleepers(s.pc), EError))
    case _ => g
  }

  function Recall(c: Config, s: State, h: History, es: seq<Event>): History
    decreases |es|
  {
    if es == [] then h else Recall(c, Step(c, s, es[0]), Note(h, s, es[0], Step(c, s, es[0])), es[1..])
  }

  const BLANK := History([], map[], 0, map[], map[])

  /** The history of a run from the start. */
  function Past(c: Config, threads: set<Tid>, es: seq<Event>): History {
    Recall(c, Start(c, threads), BLANK, es)
  }

  /** `out` is what a receive that asked for `size` bytes has to return of the front message. */
  predicate Delivers(c: Config, out: Bytes, size: nat, msg: Bytes) {
    |out| == (if size < c.msgSize then size else c.msgSize) && Agrees(out, msg)
  }

  predicate TooLong(c: Config, call: Call) {
    call.Sending? && |call.buf| > c.msgSize
  }

  predicate Took(v: Visit<Call>, size: nat, front: map<Tid, Bytes>, t: Tid, msg: Bytes) {
    v.call == Receiving(size) && v.moved == 1 && t in front && msg == front[t]
  }

  /** What a thread's state says about its call. */
  predicate Accounted(c: Config, front: map<Tid, Bytes>, t: Tid, p: Pc, v: Visit<Call>) {
    match p
    case Returned(Sent) => v.call.Sending? && v.moved == 1
    case Returned(Got(out, msg)) =>
      v.call.Receiving? && Took(v, v.call.size, front, t, msg) && Delivers(c, out, v.call.size, msg)
    case Returned(Failed(err)) =>
      if TooLong(c, v.call) then err == EError && v.moved == 0
      else MayFail(v, err, if v.call.Sending? then EFull else ETimeout)
    case SendWait(buf, timeout) => v.call == Sending(buf, false) && OnWait(v, timeout) && |buf| <= c.msgSize
    case SendWoken(buf, timeout, err) =>
      && v.call == Sending(buf, false) && |buf| <= c.msgSize
      && if err == EOk then OnWait(v, timeout) else MayFail(v, err, EFull) && v.hit == err
    case Filling(_, buf, urgent) => v.call == Sending(buf, urgent) && v.moved == 0 && v.hit == EOk
    case Filled(_, buf, urgent) => v.call == Sending(buf, urgent) && v.moved == 0 && v.hit == EOk
    case RecvWait(size, timeout) => v.call == Receiving(size) && OnWait(v, timeout)
    case RecvWoken(size, timeout, err) =>
      && v.call == Receiving(size)
      && if err == EOk then OnWait(v, timeout) else MayFail(v, err, ETimeout) && v.hit == err
    case Draining(_, size, msg) => Took(v, size, front, t, msg)
    case Drained(_, out, msg) =>
      v.call.Receiving? && Took(v, v.call.size, front, t, msg) && Delivers(c, out, v.call.size, msg)
  }

  ghost predicate VisitsTold(c: Config, pc: map<Tid, Pc>, front: map<Tid, Bytes>, vs: Visits<Call>) {
    && (forall t :: t in vs ==> t in pc && Accounted(c, front, t, pc[t], vs[t]))
    && (forall t :: t in pc && !pc[t].Returned? ==> t in vs)
  }

  ghost predicate OrderTold(c: Config, st: Store, h: History) {
    && InOrder(st.receivers, c.order, c.prio, h.since) && InOrder(st.senders, c.order, c.prio, h.since)
    && AllBefore(h.since, h.now)
  }

  ghost predicate Told(c: Config, s: State, h: History) {
    s.sent == h.deque && VisitsTold(c, s.pc, h.front, h.visits) && OrderTold(c, s.store, h)
  }

  lemma WaitOrder(c: Config, s: State, h: History, t: Tid, p: Pc)
    requires ListsExact(s.store, s.pc) && OrderTold(c, s.store, h) && t in s.pc && !Waits(s.pc[t]) && Waits(p)
    ensures OrderTold(c, if p.RecvWait? then WaitToReceive(s.store, c, t) else WaitToSend(s.store, c, t),
                      h.(now := h.now + 1, since := h.since[t := h.now]))
  {
    EnqueueInOrder(s.store.receivers, c.prio, c.order, t, h.since, h.now);
    EnqueueInOrder(s.store.senders, c.prio, c.order, t, h.since, h.now);
    SameInOrder(s.store.receivers, c.order, c.prio, h.since, c.prio, h.since[t := h.now]);
    SameInOrder(s.store.senders, c.order, c.prio, h.since, c.prio, h.since[t := h.now]);
  }

  lemma WakeTold(c: Config, pc: map<Tid, Pc>, front: map<Tid, Bytes>, vs: Visits<Call>, list: seq<Tid>)
    requires VisitsTold(c, pc, front, vs)
    ensures VisitsTold(c, Wake(pc, list), front, vs)
  {
  }

  /** One thread's call gets as far as `p`; the others' calls stay as they are. */
  lemma CallMoves(c: Config, pc: map<Tid, Pc>, front: map<Tid, Bytes>, vs: Visits<Call>, t: Tid, p: Pc,
                  front1: map<Tid, Bytes>, vs1: Visits<Call>)
    requires t in pc && VisitsTold(c, pc, front, vs)
    requires t in vs1 && vs1 - {t} == vs - {t} && front1 - {t} == front - {t} && Accounted(c, front1, t, p, vs1[t])
    ensures VisitsTold(c, pc[t := p], front1, vs1)
  {
    var pc1 := pc[t := p];
    forall u | u in vs1 ensures u in pc1 && Accounted(c, front1, u, pc1[u], vs1[u]) {
      if u != t {
        assert u in vs1 - {t} && (u in front1 <==> u in front1 - {t}) && (u in front <==> u in front - {t});
      }
    }
    forall u | u in pc1 && !pc1[u].Returned? ensures u in vs1 {
      if u != t { assert u in vs - {t}; }
    }
  }

  /** The call of `t` has come to its loop head, as `g` says. */
  ghost predicate AtLoop(s: State, h: History, g: History, t: Tid, timeout: int) {
    && g.now == h.now + 1 && g.since == h.since && g.deque == h.deque && g.front == h.front
    && t in s.pc && !Waits(s.pc[t]) && t in g.visits && g.visits - {t} == h.visits - {t}
    && g.visits[t].moved == 0 && g.visits[t].hit == EOk
    && (if timeout == 0 then 0 <= g.visits[t].time <= g.visits[t].spent else OnWait(g.visits[t], timeout))
  }

  lemma SendLoopTold(c: Config, s: State, h: History, g: History, t: Tid, buf: Bytes, timeout: int)
    requires Inv(c, s) && Told(c, s, h) && AtLoop(s, h, g, t, timeout) && |buf| <= c.msgSize
    requires g.visits[t].call == Sending(buf, false)
    ensures var s1 := SendLoop(c, s, t, buf, timeout); Told(c, s1, NoteMove(g, h.now, t, s1.pc[t]))
  {
    var p := SendLoop(c, s, t, buf, timeout).pc[t];
    CallMoves(c, s.pc, h.front, h.visits, t, p, g.front, g.visits);
    if Waits(p) { WaitOrder(c, s, h, t, p); }
  }

  lemma RecvLoopTold(c: Config, s: State, h: History, g: History, t: Tid, size: nat, timeout: int)
    requires Inv(c, s) && Told(c, s, h) && AtLoop(s, h, g, t, timeout) && g.visits[t].call == Receiving(size)
    ensures var s1 := RecvLoop(c, s, t, size, timeout); Told(c, s1, NoteMove(g, h.now, t, s1.pc[t]))
  {
    var p := RecvLoop(c, s, t, size, timeout).pc[t];
    if p.Draining? {
      CallMoves(c, s.pc, h.front, h.visits, t, p, g.front[t := s.sent[0]], Credited(g.visits, {t}));
    } else {
      CallMoves(c, s.pc, h.front, h.visits, t, p, g.front, g.visits);
      if Waits(p) { WaitOrder(c, s, h, t, p); }
    }
  }

  lemma BegunAtLoop(s: State, h: History, t: Tid, call: Call, time: int)
    requires Calls(s, t)
    ensures AtLoop(s, h, Begun(h, t, call, time), t, time)
  {
  }

  /** A call that is answered without touching the queue, or gets a node at once. */
  lemma AnsweredTold(c: Config, s: State, h: History, t: Tid, p: Pc, store: Store, call: Call, time: int)
    requires Told(c, s, h) && Calls(s, t) && !Waits(p) && !p.Draining?
    requires store.receivers == s.store.receivers && store.senders == s.store.senders
    requires Accounted(c, h.front, t, p, Visit(call, time, 0, EOk, 0))
    ensures Told(c, State(store, s.data, s.sent, s.pc[t := p]), NoteMove(Begun(h, t, call, time), h.now, t, p))
  {
    CallMoves(c, s.pc, h.front, h.visits, t, p, h.front, Begun(h, t, call, time).visits);
  }

  lemma SendTold(c: Config, s: State, h: History, t: Tid, buf: Bytes, time: int)
    requires Inv(c, s) && Told(c, s, h) && Calls(s, t)
    ensures var s1 := Step(c, s, Send(t, buf, time)); Told(c, s1, Note(h, s, Send(t, buf, time), s1))
  {
    if |buf| > c.msgSize {
      AnsweredTold(c, s, h, t, Returned(Failed(EError)), s.store, Sending(buf, false), time);
    } else {
      BegunAtLoop(s, h, t, Sending(buf, false), time);
      SendLoopTold(c, s, h, Begun(h, t, Sending(buf, false), time), t, buf, time);
    }
  }

  lemma UrgentTold(c: Config, s: State, h: History, t: Tid, buf: Bytes)
    requires Inv(c, s) && Told(c, s, h) && Calls(s, t)
    ensures var s1 := Step(c, s, Urgent(t, buf)); Told(c, s1, Note(h, s, Urgent(t, buf), s1))
  {
    var s1 := Step(c, s, Urgent(t, buf));
    AnsweredTold(c, s, h, t, s1.pc[t], s1.store, Sending(buf, true), 0);
  }

  lemma RecvTold(c: Config, s: State, h: History, t: Tid, size: nat, time: int)
    requires Inv(c, s) && Told(c, s, h) && Calls(s, t)
    ensures var s1 := Step(c, s, Recv(t, size, time)); Told(c, s1, Note(h, s, Recv(t, size, time), s1))
  {
    BegunAtLoop(s, h, t, Receiving(size), time);
    RecvLoopTold(c, s, h, Begun(h, t, Receiving(size), time), t, size, time);
  }

  lemma GaveUpTold(c: Config, s: State, h: History, t: Tid, elapsed: nat)
    requires Told(c, s, h) && t in s.pc && (s.pc[t].SendWoken? || s.pc[t].RecvWoken?) && s.pc[t].err != EOk
    ensures var e := Run(t, elapsed); Told(c, Step(c, s, e), Note(h, s, e, Step(c, s, e)))
  {
    assert Accounted(c, h.front, t, s.pc[t], h.visits[t]);
    CallMoves(c, s.pc, h.front, h.visits, t, Returned(Failed(s.pc[t].err)), h.front, Spent(h.visits, t, elapsed));
  }

  lemma RerunTold(c: Config, s: State, h: History, g: History, t: Tid, elapsed: nat)
    requires Inv(c, s) && Told(c, s, h) && t in s.pc && (s.pc[t].SendWoken? || s.pc[t].RecvWoken?) && s.pc[t].err == EOk
    requires g == h.(now := h.now + 1, visits := Spent(h.visits, t, elapsed))
    ensures var s1 := Step(c, s, Run(t, elapsed)); Told(c, s1, NoteMove(g, h.now, t, s1.pc[t]))
  {
    assert Accounted(c, h.front, t, s.pc[t], h.visits[t]);
    RerunAtLoop(c, s, h, t, elapsed);
    if s.pc[t].SendWoken? { SendLoopTold(c, s, h, g, t, s.pc[t].buf, Remaining(s.pc[t].timeout, elapsed)); }
    else { RecvLoopTold(c, s, h, g, t, s.pc[t].size, Remaining(s.pc[t].timeout, elapsed)); }
  }

  lemma RunTold(c: Config, s: State, h: History, t: Tid, elapsed: nat)
    requires Inv(c, s) && Told(c, s, h) && t in s.pc && (s.pc[t].SendWoken? || s.pc[t].RecvWoken?)
    ensures var e := Run(t, elapsed); Told(c, Step(c, s, e), Note(h, s, e, Step(c, s, e)))
  {
    if s.pc[t].err != EOk { GaveUpTold(c, s, h, t, elapsed); }
    else { RerunTold(c, s, h, h.(now := h.now + 1, visits := Spent(h.visits, t, elapsed)), t, elapsed); }
  }

  lemma RerunAtLoop(c: Config, s: State, h: History, t: Tid, elapsed: nat)
    requires t in s.pc && t in h.visits && Accounted(c, h.front, t, s.pc[t], h.visits[t])
    requires (s.pc[t].SendWoken? || s.pc[t].RecvWoken?) && s.pc[t].err == EOk
    ensures AtLoop(s, h, h.(now := h.now + 1, visits := Spent(h.visits, t, elapsed)), t,
                   Remaining(s.pc[t].timeout, elapsed))
  {
  }

  lemma LinkTold(c: Config, s: State, h: History, t: Tid)
    requires Inv(c, s) && Told(c, s, h) && c.maxMsgs <= MQ_ENTRY_MAX && t in s.pc && s.pc[t].Filled?
    ensures var s1 := Step(c, s, LinkIt(t)); Told(c, s1, Note(h, s, LinkIt(t), s1))
  {
    LinkNodes(c, s, t);
    assert s.store.receivers != [] ==> s.store.receivers[0] in s.store.receivers;
    var vs1 := Credited(h.visits, {t});
    CallMoves(c, s.pc, h.front, h.visits, t, Returned(Sent), h.front, vs1);
    WakeTold(c, s.pc[t := Returned(Sent)], h.front, vs1, s.store.receivers);
    if s.store.receivers != [] { TailInOrder(s.store.receivers, c.order, c.prio, h.since); }
  }

  /** A step of a thread in its copying phase, which moves no message. */
  lemma CopyTold(c: Config, s: State, h: History, e: Event, t: Tid)
    requires Inv(c, s) && Told(c, s, h) && (e == Fill(t) || e == Drain(t))
    ensures Told(c, Step(c, s, e), Note(h, s, e, Step(c, s, e)))
  {
    var s1 := Step(c, s, e);
    if s1 != s {
      assert Accounted(c, h.front, t, s.pc[t], h.visits[t]) && PcBytes(c, s.data, s.pc[t]);
      CallMoves(c, s.pc, h.front, h.visits, t, s1.pc[t], h.front, h.visits);
    }
  }

  lemma GiveBackTold(c: Config, s: State, h: History, t: Tid)
    requires Inv(c, s) && Told(c, s, h) && t in s.pc && s.pc[t].Drained?
    ensures var s1 := Step(c, s, GiveBack(t)); Told(c, s1, Note(h, s, GiveBack(t), s1))
  {
    var p := Returned(Got(s.pc[t].out, s.pc[t].msg));
    assert Accounted(c, h.front, t, s.pc[t], h.visits[t]);
    CallMoves(c, s.pc, h.front, h.visits, t, p, h.front, h.visits);
    WakeTold(c, s.pc[t := p], h.front, h.visits, s.store.senders);
    if s.store.senders != [] { TailInOrder(s.store.senders, c.order, c.prio, h.since); }
  }

  lemma ExpireTold(c: Config, s: State, h: History, t: Tid)
    requires Inv(c, s) && Told(c, s, h)
    ensures var s1 := Step(c, s, Expire(t)); Told(c, s1, Note(h, s, Expire(t), s1))
  {
    WithoutInOrder(s.store.receivers, c.order, c.prio, h.since, t);
    WithoutInOrder(s.store.senders, c.order, c.prio, h.since, t);
    if t in s.pc && Waits(s.pc[t]) && s.pc[t].timeout > 0 {
      CallMoves(c, s.pc, h.front, h.visits, t, Woken(s.pc[t], ETimeout), h.front, Struck(h.visits, {t}, ETimeout));
    }
  }

  lemma ResetTold(c: Config, s: State, h: History)
    requires Inv(c, s) && Told(c, s, h)
    ensures var s1 := Step(c, s, ResetAll); Told(c, s1, Note(h, s, ResetAll, s1))
  {
    var s1 := Step(c, s, ResetAll);
    var vs1 := Struck(h.visits, Sleepers(s.pc), EError);
    forall t | t in vs1 ensures t in s1.pc && Accounted(c, h.front, t, s1.pc[t], vs1[t]) {
      assert Accounted(c, h.front, t, s.pc[t], h.visits[t]);
    }
  }

  lemma StepTold(c: Config, s: State, h: History, e: Event)
    requires Inv(c, s) && Told(c, s, h) && c.maxMsgs <= MQ_ENTRY_MAX
    ensures Told(c, Step(c, s, e), Note(h, s, e, Step(c, s, e)))
  {
    match e
    case Send(t, buf, time) => if Calls(s, t) { SendTold(c, s, h, t, buf, time); }
    case Urgent(t, buf) => if Calls(s, t) { UrgentTold(c, s, h, t, buf); }
    case Fill(t) => CopyTold(c, s, h, e, t);
    case LinkIt(t) => if t in s.pc && s.pc[t].Filled? { LinkTold(c, s, h, t); }
    case Recv(t, size, time) => if Calls(s, t) { RecvTold(c, s, h, t, size, time); }
    case Drain(t) => CopyTold(c, s, h, e, t);
    case GiveBack(t) => if t in s.pc && s.pc[t].Drained? { GiveBackTold(c, s, h, t); }
    case Run(t, elapsed) =>
      if t in s.pc && (s.pc[t].SendWoken? || s.pc[t].RecvWoken?) { RunTold(c, s, h, t, elapsed); }
    case Expire(t) => ExpireTold(c, s, h, t);
    case ResetAll => ResetTold(c, s, h);
  }

  lemma {:induction false} ExecTold(c: Config, s: State, h: History, es: seq<Event>)
    requires Inv(c, s) && Told(c, s, h) && c.maxMsgs <= MQ_ENTRY_MAX
    ensures Inv(c, Exec(c, s, es)) && Told(c, Exec(c, s, es), Recall(c, s, h, es))
    decreases |es|
  {
    if es != [] {
      StepInv(c, s, es[0]);
      StepTold(c, s, h, es[0]);
      ExecTold(c, Step(c, s, es[0]), Note(h, s, es[0], Step(c, s, es[0])), es[1..]);
    }
  }

  lemma ReachTold(c: Config, threads: set<Tid>, es: seq<Event>)
    requires c.maxMsgs <= MQ_ENTRY_MAX
    ensures Inv(c, Reach(c, threads, es)) && Told(c, Reach(c, threads, es), Past(c, threads, es))
  {
    StartInv(c, threads);
    ExecTold(c, Start(c, threads), BLANK, es);
  }

  /** The queue is a deque of the messages the calls were given: after any run, the bytes held by
      the queued nodes, front to back, begin with exactly the messages of a deque on which each
      send that was linked has pushed its own buffer at the back, each urgent one at the front,
      and from which each receive that got a node has popped the front. */
  lemma QueueHoldsDeque(c: Config, threads: set<Tid>, es: seq<Event>)
    requires c.maxMsgs <= MQ_ENTRY_MAX
    ensures var s, d := Reach(c, threads, es), Past(c, threads, es).deque;
      && |s.store.queue| == s.store.entry == |d|
      && forall i :: 0 <= i < |d| ==> s.store.queue[i] < |s.data| && d[i] <= s.data[s.store.queue[i]]
  {
    ReachTold(c, threads, es);
  }

  /** Over every run each call is answered by its own history. A send has returned success
      exactly when its message was linked once. A receive has returned as many bytes as it asked
      for, but at most the message size, and they are those of the message it took from the front
      of the deque as far as that reaches. A failed call moved nothing: it was too long, or was
      hit by a reset or a timeout it had asked for, or had used up its time. Both lists are in
      order of service. */
  lemma CallsAnswered(c: Config, threads: set<Tid>, es: seq<Event>)
    requires c.maxMsgs <= MQ_ENTRY_MAX
    ensures var s, h := Reach(c, threads, es), Past(c, threads, es);
      && (forall t :: t in h.visits ==> t in s.pc && Accounted(c, h.front, t, s.pc[t], h.visits[t]))
      && InOrder(s.store.receivers, c.order, c.prio, h.since) && InOrder(s.store.senders, c.order, c.prio, h.since)
  {
    ReachTold(c, threads, es);
  }

  lemma NodeLeftIff(c: Config, st: Store, pc: map<Tid, Pc>)
    requires NodesOnce(c, st, pc)
    ensures st.free != [] <==> |st.queue| + |Members(pc, Holder)| < c.maxMsgs
  {
  }

  /** After any run a send or urgent of a proper length gets a node at once exactly while the
      queued messages and those being copied are fewer than the pool holds. Otherwise an urgent
      one fails, and a send fails if it asked not to wait and waits if it asked for any other
      time. A receive gets a node at once exactly if messages are queued. */
  lemma CallsAtOnceIff(c: Config, threads: set<Tid>, es: seq<Event>, t: Tid, buf: Bytes, size: nat, time: int)
    requires c.maxMsgs <= MQ_ENTRY_MAX && Calls(Reach(c, threads, es), t)
    ensures var s, d := Reach(c, threads, es), Past(c, threads, es).deque;
      var s1, s2, s3 := Step(c, s, Send(t, buf, time)), Step(c, s, Urgent(t, buf)), Step(c, s, Recv(t, size, time));
      && (|buf| > c.msgSize ==> s1.pc[t] == s2.pc[t] == Returned(Failed(EError)))
      && (|buf| <= c.msgSize ==>
            if |d| + |Members(s.pc, Holder)| < c.maxMsgs then s1.pc[t].Filling? && s2.pc[t].Filling?
            else
              && s2.pc[t] == Returned(Failed(EFull))
              && s1.pc[t] == if time == 0 then Returned(Failed(EFull)) else SendWait(buf, time))
      && (if d != [] then s3.pc[t].Draining?
          else s3.pc[t] == if time == 0 then Returned(Failed(ETimeout)) else RecvWait(size, time))
  {
    ReachTold(c, threads, es);
    var s := Reach(c, threads, es);
    NodeLeftIff(c, s.store, s.pc);
  }

  /** After any run a thread that holds a node is never stuck: each of its steps brings its call one
      phase further, for messages and buffers of every size. */
  lemma HoldersAdvance(c: Config, threads: set<Tid>, es: seq<Event>, t: Tid)
    requires c.maxMsgs <= MQ_ENTRY_MAX && t in Reach(c, threads, es).pc
    ensures var s := Reach(c, threads, es);
      match s.pc[t]
      case Filling(n, buf, urgent) => Step(c, s, Fill(t)).pc[t] == Filled(n, buf, urgent)
      case Filled(_, _, _) => Step(c, s, LinkIt(t)).pc[t] == Returned(Sent)
      case Draining(n, _, _) => Step(c, s, Drain(t)).pc[t].Drained? && Step(c, s, Drain(t)).pc[t].node == n
      case Drained(_, _, _) => Step(c, s, GiveBack(t)).pc[t].Returned? && Step(c, s, GiveBack(t)).pc[t].r.Got?
      case _ => true
  {
    ReachInv(c, threads, es);
    var s := Reach(c, threads, es);
    assert PcBytes(c, s.data, s.pc[t]) && HandOk(c, s.store, s.pc[t]);
    if s.pc[t].Filled? {
      LinkNodes(c, s, t);
      assert s.store.receivers != [] ==> s.store.receivers[0] in s.store.receivers;
    }
    assert s.store.senders != [] ==> s.store.senders[0] in s.store.senders;
  }

  /** After any run a woken thread that is scheduled returns with the timeout or the reset that hit
      its call. If nothing did, its call goes on like a new one that has the rest of its time. */
  lemma WokenCallGoesOn(c: Config, threads: set<Tid>, es: seq<Event>, t: Tid, elapsed: nat)
    requires c.maxMsgs <= MQ_ENTRY_MAX
    requires var s, h := Reach(c, threads, es), Past(c, threads, es);
      t in s.pc && (s.pc[t].SendWoken? || s.pc[t].RecvWoken?) && t in h.visits
    ensures var s, h := Reach(c, threads, es), Past(c, threads, es);
      GoesOn(c, s, h.visits[t], |h.deque|, Step(c, s, Run(t, elapsed)).pc[t], elapsed)
  {
    ReachTold(c, threads, es);
    var s, h := Reach(c, threads, es), Past(c, threads, es);
    assert Accounted(c, h.front, t, s.pc[t], h.visits[t]);
    NodeLeftIff(c, s.store, s.pc);
  }

  /** Where the call `v` stands after its thread ran, with `n` messages queued. */
  ghost predicate GoesOn(c: Config, s: State, v: Visit<Call>, n: nat, p: Pc, elapsed: nat) {
    var over := 0 <= v.time <= v.spent + elapsed;
    var left := if v.time < 0 then v.time else v.time - v.spent - elapsed;
    if v.hit != EOk then p == Returned(Failed(v.hit))
    else match v.call
      case Sending(buf, _) =>
        if n + |Members(s.pc, Holder)| < c.maxMsgs then p.Filling?
        else if over then p == Returned(Failed(EFull)) else p.SendWait? && SameTime(p.timeout, left)
      case Receiving(_) =>
        if n > 0 then p.Draining?
        else if over then p == Returned(Failed(ETimeout)) else p.RecvWait? && SameTime(p.timeout, left)
  }
}
