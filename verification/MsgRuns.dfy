/** What one kernel step can do to one receiver, and what that means for senders and requests. */
module MsgRuns {
  import opened Wrappers
  import opened Queues
  import opened Sched
  import opened Reschedule
  import opened KernelState
  import opened FlagSpec
  import opened MsgOrder
  import opened MsgSpec
  import opened MsgSteps
  import opened Kernel
  import opened KernelSteps
  import opened Runs
  import opened MutexRuns

  /** The threads blocked on a send to a receiver, in order, and its messages. */
  datatype Inbox = Inbox(senders: seq<Tid>, c: Chan)

  function InboxOf(s: State, r: Tid): Inbox {
    Inbox(L(s.k.q, SendQ(r)), ChanOf(s.ms, r))
  }

  datatype Delivery =
    | Untouched
    | Direct(m: Msg)              // handed to the blocked receiver
    | Enqueued(m: Msg)            // put into the queue
    | Blocked(a: Tid, m: Msg)     // the sender has to wait
    | Dequeued                    // received from the queue
    | Refilled(m: Msg)            // received from the queue, and the first sender's message took the slot
    | Fetched(m: Msg)             // received from the first sender
    | NewQueue(n: nat)

  predicate IsDelivery(d: Delivery, prio: map<Tid, nat>, v: Inbox, v': Inbox) {
    match d
    case Untouched => v' == v
    case Direct(m) =>
      v.senders == [] && v.c.queue == [] && v' == v.(c := v.c.(dlv := v.c.dlv + [m], acc := v.c.acc + [m]))
    case Enqueued(m) =>
      v.senders == [] && |v.c.queue| < v.c.cap && v' == v.(c := v.c.(queue := v.c.queue + [m], acc := v.c.acc + [m]))
    case Blocked(a, m) =>
      && a !in v.senders && |v.c.queue| == v.c.cap && m.src == Thread(a)
      && v' == Inbox(InsertAt(v.senders, InsertPos(prio, v.senders, Get(prio, a)), a), v.c.(acc := v.c.acc + [m]))
    case Dequeued =>
      v.senders == [] && v.c.queue != [] && v' == v.(c := v.c.(dlv := v.c.dlv + [v.c.queue[0]], queue := v.c.queue[1..]))
    case Refilled(m) =>
      && v.senders != [] && v.c.queue != [] && m.src == Thread(v.senders[0])
      && v' == Inbox(v.senders[1..], v.c.(dlv := v.c.dlv + [v.c.queue[0]], queue := v.c.queue[1..] + [m]))
    case Fetched(m) =>
      && v.senders != [] && v.c.queue == [] && m.src == Thread(v.senders[0])
      && v' == Inbox(v.senders[1..], v.c.(dlv := v.c.dlv + [m]))
    case NewQueue(n) =>
      && v.c.queue == [] && (v.senders != [] ==> n == 0)
      && v' == v.(c := v.c.(cap := n))
  }

  predicate Delivered(d: Delivery, s: State, s': State, r: Tid) {
    IsDelivery(d, s.k.prio, InboxOf(s, r), InboxOf(s', r))
  }

  lemma SameInbox(s: State, s': State, r: Tid) returns (d: Delivery)
    requires InboxOf(s', r) == InboxOf(s, r)
    ensures Delivered(d, s, s', r)
  {
    d := Untouched;
  }

  // ---- Sending ----

  /** The lists a notification leaves alone. */
  lemma NotifyLists(k: Sched, fl: map<Tid, bv16>, wait: map<Tid, Wait>, r: Tid, o: Owe)
    requires Inv(k)
    ensures SameSendLists(k.q, Owes(NotifyWake(k, fl, wait, r), o).q)
  {
    hide Inv, Grown, OnlyStatus, FlagWake, With, Wakes;
    var f, w := With(FlagsOf(fl, r), MSG_WAITING), WaitOf(wait, r);
    FlagWakeOk(k, r, f, w);
  }

  lemma ChanAfter(ms: Messages, r0: Tid, m: Msg, r: Tid)
    ensures var c := ChanOf(ms, r);
      && ChanOf(MsgSpec.Handed(ms, r0, m), r) == (if r == r0 then c.(dlv := c.dlv + [m], acc := c.acc + [m]) else c)
      && ChanOf(Queued(ms, r0, m), r) == (if r == r0 then c.(queue := c.queue + [m], acc := c.acc + [m]) else c)
  {
  }

  lemma DirectDelivers(s: State, r0: Tid, m: Msg, r: Tid) returns (d: Delivery)
    requires Inv(s.k) && ReceiversOk(s.k.q, s.k.status, s.wait, s.ms) && St(s.k, r0).ReceiveBlocked?
    requires if s.k.cpu.isr then Act(s.k) else s.k.cpu.active.Some?
    ensures Delivered(d, s, SendDirect(s, r0, m), r)
  {
    hide LinksOk, MatchOk, Act, SetStatus, Owes, Only, MsgSpec.Handed, ChanOf;
    OnSendQ(s.k, r0);
    WakeYieldOk(s.k, r0);
    ChanAfter(s.ms, r0, m, r);
    d := if r == r0 then Direct(m) else Untouched;
  }

  lemma QueueLists(s: State, r0: Tid, m: Msg, o: Owe, r: Tid)
    requires Inv(s.k)
    ensures InboxOf(SendQueue(s, r0, m, o), r) == InboxOf(s, r).(c := ChanOf(Queued(s.ms, r0, m), r))
  {
    hide Inv, NotifyWake, Notified, Owes, Queued, ChanOf;
    NotifyLists(s.k, s.fl, s.wait, r0, o);
  }

  lemma QueueDelivers(s: State, r0: Tid, m: Msg, o: Owe, r: Tid) returns (d: Delivery)
    requires Inv(s.k) && FullOk(s.k.q, s.ms) && Room(s.ms, r0)
    ensures Delivered(d, s, SendQueue(s, r0, m, o), r)
  {
    hide Inv, SendQueue, Queued;
    QueueLists(s, r0, m, o, r);
    ChanAfter(s.ms, r0, m, r);
    d := if r == r0 then Enqueued(m) else Untouched;
  }

  lemma BlockLists(s: State, a: Tid, r0: Tid, m: Msg, r: Tid)
    requires Inv(s.k) && CanBlock(s.k, a)
    ensures var q := L(s.k.q, SendQ(r));
      L(SendBlock(s, a, r0, m).k.q, SendQ(r)) == if r == r0 then InsertAt(q, InsertPos(s.k.prio, q, Pr(s.k, a)), a) else q
  {
    hide LinksOk, MatchOk, NotifyWake, Notified, Owes, Block, CanBlock, InsertAt, InsertPos;
    var k1 := Block(s.k, a, SenderStatus(s.k, a), Some(SendQ(r0)));
    BlockOk(s.k, a, SenderStatus(s.k, a), Some(SendQ(r0)));
    NotifyLists(k1, s.fl, s.wait[a := Buffer(m)], r0, YieldHigher);
  }

  lemma BlockDelivers(s: State, a: Tid, r0: Tid, m: Msg, r: Tid) returns (d: Delivery)
    requires Inv(s.k) && CanBlock(s.k, a) && ChansOk(s.ms.ch, s.ms.uid) && !Room(s.ms, r0) && r0 in s.ms.ch
    requires m.src == Thread(a) && (a in s.k.q.on ==> !s.k.q.on[a].SendQ?)
    ensures Delivered(d, s, SendBlock(s, a, r0, m), r)
  {
    hide MatchOk, SortedOk, BitsOk, NoDup, NotifyWake, Notified, Owes, Block, CanBlock, InsertAt, InsertPos, Increasing;
    BlockLists(s, a, r0, m, r);
    ExactlyFull(s.ms, r0);
    d := if r == r0 then Blocked(a, m) else Untouched;
  }

  lemma CoreDelivers(s: State, a: Tid, r0: Tid, m: Msg, block: bool, r: Tid) returns (d: Delivery)
    requires CanSend(s.k, a) && MsgOkBut(s.k.q, s.k.status, s.wait, s.ms, Requesting(s.k, a))
    requires r0 in s.ms.ch && m.src == Thread(a)
    ensures Delivered(d, s, SendCore(s, a, r0, m, block), r)
  {
    hide Inv, Act, IsDelivery, SendDirect, SendQueue, SendBlock, Room, CanBlock;
    CanSendStatus(s.k, a);
    if St(s.k, r0).ReceiveBlocked? {
      d := DirectDelivers(s, r0, m, r);
    } else if Room(s.ms, r0) {
      d := QueueDelivers(s, r0, m, IfRequested, r);
    } else if block {
      d := BlockDelivers(s, a, r0, m, r);
    } else {
      d := SameInbox(s, s.(ret := Ret.Int(0)), r);
    }
  }

  lemma SendDelivers(s: State, a: Tid, pid: nat, body: int, block: bool, r: Tid) returns (d: Delivery)
    requires SchedOk(s.k) && MsgInv(s) && Tabled(s) && Calling(s, a)
    ensures Delivered(d, s, Send(s, a, pid, body, block), r)
  {
    hide SchedOk, CanSend, ChansOk, OrderOk, SendersOk, RequestsOk, IsDelivery, SendCore, SendQueue, Room, Known;
    CallerCanSend(s, a);
    CallerRuns(s, a);
    if PidOf(s, a) == pid {
      if Room(s.ms, a) {
        d := QueueDelivers(s, a, NewMsg(s, a, a, body), Nothing, r);
      } else {
        d := SameInbox(s, s.(ret := Ret.Int(0)), r);
      }
    } else if pid !in s.pids {
      d := SameInbox(s, s.(ret := Ret.Int(-1)), r);
    } else {
      d := CoreDelivers(s, a, s.pids[pid], NewMsg(s, a, s.pids[pid], body), block, r);
    }
  }

  lemma SendIsrDelivers(s: State, pid: nat, body: int, r: Tid) returns (d: Delivery)
    requires SchedOk(s.k) && MsgInv(s) && s.k.cpu.isr
    ensures Delivered(d, s, SendIsr(s, pid, body), r)
  {
    hide Inv, Act, ChansOk, OrderOk, SendersOk, RequestsOk, IsDelivery, SendDirect, SendQueue, Room;
    if pid !in s.pids {
      d := SameInbox(s, s.(ret := Ret.Int(-1)), r);
    } else {
      var r0 := s.pids[pid];
      var m := Msg(PID_ISR, Source.Isr, r0, s.ms.uid, body);
      if St(s.k, r0).ReceiveBlocked? {
        d := DirectDelivers(s, r0, m, r);
      } else if Room(s.ms, r0) {
        d := QueueDelivers(s, r0, m, Nothing, r);
      } else {
        d := SameInbox(s, s.(ret := Ret.Int(0)), r);
      }
    }
  }

  lemma SendReceiveDelivers(s: State, a: Tid, pid: nat, body: int, r: Tid) returns (d: Delivery)
    requires SchedOk(s.k) && MsgInv(s) && FlagInv(s) && Tabled(s) && Calling(s, a) && pid in s.pids
    ensures Delivered(d, s, SendReceive(s, a, pid, body), r)
  {
    hide SchedOk, MsgOk, FlagsOk, CanSend, MsgOkBut, Only, IsDelivery, SendCore, SetStatus, Sending, Known;
    var r0 := s.pids[pid];
    var m := NewMsg(s, a, r0, body);
    var s1 := AwaitReply(s, a, m);
    AwaitReplyOk(s, a, r0, m);
    AwaitReplySched(s.k, a);
    d := CoreDelivers(s1, a, r0, m, true, r);
    AwaitingSamePrio(s.k, a);
    assert InboxOf(s1, r) == InboxOf(s, r);
  }

  lemma AwaitingSamePrio(k: Sched, a: Tid)
    ensures SetStatus(k, a, ReplyBlocked).prio == k.prio
  {
  }

  // ---- Receiving ----

  lemma SenderHolds(s: State, a: Tid)
    requires Inv(s.k) && SendersOk(s.k.q.on, s.wait) && L(s.k.q, SendQ(a)) != []
    ensures SenderMsg(s, L(s.k.q, SendQ(a))[0]).src == Thread(L(s.k.q, SendQ(a))[0])
  {
    hide LinksOk, MatchOk;
    DropOk(s.k, SendQ(a), 0);
  }

  lemma UnlinkedLists(k: Sched, a: Tid, r: Tid)
    requires Inv(k) && L(k.q, SendQ(a)) != []
    ensures var q := if r == a then L(k.q, SendQ(a))[1..] else L(k.q, SendQ(r));
      L(Unlink(k.q, SendQ(a), 0), SendQ(r)) == q && L(WakeAt(k, SendQ(a), 0).q, SendQ(r)) == q
  {
    hide LinksOk, MatchOk, WakeAt, Unlink;
    var q := L(k.q, SendQ(a));
    assert RemoveAt(q, 0) == q[1..];
    DropOk(k, SendQ(a), 0);
    WakeAtOk(k, SendQ(a), 0);
  }

  lemma ReleasedLists(k: Sched, a: Tid, o: Owe, r: Tid)
    requires Inv(k) && L(k.q, SendQ(a)) != []
    ensures L(Owes(ReleaseSender(k, a), o).q, SendQ(r)) == if r == a then L(k.q, SendQ(a))[1..] else L(k.q, SendQ(r))
  {
    hide Inv, WakeAt, Unlink, L;
    UnlinkedLists(k, a, r);
  }

  lemma TakeFromSenderDelivers(s: State, a: Tid, r: Tid) returns (d: Delivery)
    requires Inv(s.k) && SendersOk(s.k.q.on, s.wait) && L(s.k.q, SendQ(a)) != [] && ChanOf(s.ms, a).queue == []
    ensures Delivered(d, s, TakeFromSender(s, a), r)
  {
    hide Inv, ReleaseSender, SenderOwe, SenderWait, SenderMsg, Owes;
    var w := L(s.k.q, SendQ(a))[0];
    SenderHolds(s, a);
    ReleasedLists(s.k, a, SenderOwe(s.k, w), r);
    d := if r == a then Fetched(SenderMsg(s, w)) else Untouched;
  }

  lemma TakeAndRefillDelivers(s: State, a: Tid, r: Tid) returns (d: Delivery)
    requires Inv(s.k) && SendersOk(s.k.q.on, s.wait) && L(s.k.q, SendQ(a)) != [] && ChanOf(s.ms, a).queue != []
    ensures Delivered(d, s, TakeAndRefill(s, a), r)
  {
    hide Inv, ReleaseSender, SenderOwe, SenderWait, SenderMsg, Owes;
    var w := L(s.k.q, SendQ(a))[0];
    SenderHolds(s, a);
    ReleasedLists(s.k, a, SenderOwe(s.k, w), r);
    d := if r == a then Refilled(SenderMsg(s, w)) else Untouched;
  }

  lemma TakeQueuedDelivers(s: State, a: Tid, r: Tid) returns (d: Delivery)
    requires L(s.k.q, SendQ(a)) == [] && ChanOf(s.ms, a).queue != []
    ensures Delivered(d, s, TakeQueued(s, a), r)
  {
    d := if r == a then Dequeued else Untouched;
  }

  lemma AwaitMsgDelivers(s: State, a: Tid, r: Tid) returns (d: Delivery)
    requires SchedOk(s.k) && Calling(s, a)
    ensures Delivered(d, s, AwaitMsg(s, a), r)
  {
    hide Inv, Act, Block, Owes, Only;
    AwaitMsgSched(s.k, a);
    d := Untouched;
  }

  lemma ReceiveDelivers(s: State, a: Tid, block: bool, r: Tid) returns (d: Delivery)
    requires SchedOk(s.k) && MsgInv(s) && Calling(s, a)
    ensures Delivered(d, s, Receive(s, a, block), r)
  {
    hide Inv, Act, ChansOk, OrderOk, ReceiversOk, FullOk, SendersOk, RequestsOk, IsDelivery;
    hide TakeFromSender, TakeAndRefill, TakeQueued, AwaitMsg;
    if ChanOf(s.ms, a).queue == [] {
      if L(s.k.q, SendQ(a)) != [] {
        d := TakeFromSenderDelivers(s, a, r);
      } else if block {
        d := AwaitMsgDelivers(s, a, r);
      } else {
        d := SameInbox(s, s.(ret := Ret.Int(-1)), r);
      }
    } else if L(s.k.q, SendQ(a)) == [] {
      d := TakeQueuedDelivers(s, a, r);
    } else {
      d := TakeAndRefillDelivers(s, a, r);
    }
  }

  lemma InitQueueDelivers(s: State, a: Tid, n: nat, r: Tid) returns (d: Delivery)
    requires ChanOf(s.ms, a).queue == [] && (L(s.k.q, SendQ(a)) != [] ==> n == 0)
    ensures Delivered(d, s, InitQueue(s, a, n), r)
  {
    d := if r == a then NewQueue(n) else Untouched;
  }

  lemma ReplyDelivers(s: State, pid: nat, reply: Msg, r: Tid) returns (d: Delivery)
    requires SchedOk(s.k) && InContext(s.k) && ReplyAllowed(s, pid)
    ensures Delivered(d, s, Reply(s, s.pids[pid], reply), r)
  {
    hide Inv, Act, SetStatus, Owes, Only;
    var t := s.pids[pid];
    if St(s.k, t).ReplyBlocked? {
      if s.k.cpu.isr {
        WakeYieldOk(s.k, t);
      } else {
        WakeSwitchOk(s.k, t);
      }
    }
    d := SameInbox(s, Reply(s, t, reply), r);
  }

  lemma MsgCallDelivers(s: State, a: Tid, c: Call, r: Tid) returns (d: Delivery)
    requires KernelInv(s) && Calling(s, a) && MsgCall(c) && CallOk(s, a, c)
    ensures Delivered(d, s, MsgStep(s, a, c), r)
  {
    hide SchedOk, MutexSpec.MutexOk, FlagInv, MsgInv, MboxSpec.MboxInv, Tabled, Delivered, Send, SendReceive, Reply, Receive, InitQueue;
    match c
    case MsgSend(pid, body, block) => d := SendDelivers(s, a, pid, body, block, r);
    case MsgSendReceive(pid, body) => d := SendReceiveDelivers(s, a, pid, body, r);
    case MsgReply(pid, reply) => d := ReplyDelivers(s, pid, reply, r);
    case MsgReceive(block) => d := ReceiveDelivers(s, a, block, r);
    case MsgInitQueue(n) => d := InitQueueDelivers(s, a, n, r);
  }

  lemma IsrMsgDelivers(s: State, c: Call, r: Tid) returns (d: Delivery)
    requires KernelInv(s) && s.k.cpu.isr && MsgCall(c) && IsrOk(s, c)
    ensures Delivered(d, s, IsrMsgStep(s, c), r)
  {
    hide SchedOk, MutexSpec.MutexOk, FlagInv, MsgInv, MboxSpec.MboxInv, Tabled, Delivered, SendIsr, Reply;
    match c
    case MsgSend(pid, body, block) => d := SendIsrDelivers(s, pid, body, r);
    case MsgReply(pid, reply) => d := ReplyDelivers(s, pid, reply, r);
    case _ => d := Untouched;
  }

  /**
    Every kernel step does one of eight things to a receiver. A message goes straight to the
    receiver or into the queue only when no sender waits; a sender waits only behind a full
    queue; a receive takes the oldest message and moves the first sender up.
  */
  lemma MsgTransition(s: State, e: Event, r: Tid) returns (d: Delivery)
    requires KernelInv(s) && Enabled(s, e)
    ensures Delivered(d, s, Step(s, e), r)
  {
    hide KernelInv, MutexOnly, MsgOnly, MutexQuiet, Delivered, CallOk, IsrOk, MutexStep, IsrMutexStep, Resume, MsgStep, IsrMsgStep;
    hide ThreadStep, FlagMboxStep, IsrOtherStep, IsrEnter, IsrExit, SchedRun;
    if InMsg(e) {
      match e
      case Thr(c) => d := MsgCallDelivers(s, s.k.cpu.active.value, c, r);
      case Intr(c) => d := IsrMsgDelivers(s, c, r);
      case _ => d := Untouched;
    } else {
      StepKeeps(s, e);
      if InMutex(s, e) {
        MutexIsQuiet(s, Step(s, e));
      }
      d := SameInbox(s, Step(s, e), r);
    }
  }

  // ---- Overtaking ----

  /** The messages of `p` that got past the senders' list. */
  function Passed(v: Inbox, p: Source): seq<Msg> {
    From(v.c.dlv, p) + From(v.c.queue, p)
  }

  lemma TakeKeepsPassed(c: Chan, p: Source)
    requires c.queue != []
    ensures From(c.dlv + [c.queue[0]], p) + From(c.queue[1..], p) == From(c.dlv, p) + From(c.queue, p)
  {
    hide From;
    assert c.queue == [c.queue[0]] + c.queue[1..];
    FromConcat([c.queue[0]], c.queue[1..], p);
    FromConcat(c.dlv, [c.queue[0]], p);
  }

  lemma OtherSource(q: seq<Msg>, m: Msg, p: Source)
    requires m.src != p
    ensures From(q + [m], p) == From(q, p)
  {
    FromConcat(q, [m], p);
    FromOne(m, p);
  }

  /** While `t` waits, no message of a thread behind it gets past the list. */
  lemma DeliveryKeepsBefore(d: Delivery, prio: map<Tid, nat>, v: Inbox, v': Inbox, t: Tid, u: Tid)
    requires IsDelivery(d, prio, v, v') && t != u && Before(v.senders, t, u) && t in v'.senders
    requires NoDup(v.senders) && ByPriority(prio, v.senders) && Get(prio, t) <= Get(prio, u)
    ensures Before(v'.senders, t, u) && Passed(v', Thread(u)) == Passed(v, Thread(u))
  {
    hide NoDup, ByPriority, Before, From, InsertAt, InsertPos;
    var q, p := v.senders, Thread(u);
    FirstIsNot(q, t, u);
    match d
    case Blocked(a, m) =>
      JoinKeepsBefore(prio, q, a, t, u);
    case Refilled(m) =>
      TakeKeepsPassed(v.c, p);
      OtherSource(v.c.queue[1..], m, p);
      assert q[1..] == RemoveAt(q, 0);
      RemoveKeepsBefore(q, 0, t, u);
    case Fetched(m) =>
      OtherSource(v.c.dlv, m, p);
      assert q[1..] == RemoveAt(q, 0);
      RemoveKeepsBefore(q, 0, t, u);
    case _ =>
  }

  /** Throughout the run `t` is blocked on a send to `r`, and `u` never has a higher priority. */
  predicate BlockedThroughout(s: State, es: seq<Event>, t: Tid, u: Tid, r: Tid)
    decreases |es|
  {
    && t in L(s.k.q, SendQ(r)) && Pr(s.k, t) <= Pr(s.k, u)
    && (es == [] || BlockedThroughout(Step(s, es[0]), es[1..], t, u, r))
  }

  /**
    A blocked sender is not overtaken: as long as `t` waits, no message of a thread that was
    not ahead of it and has the same or a lower priority reaches the receiver or its queue.
  */
  lemma {:induction false} SenderNotOvertaken(s: State, es: seq<Event>, t: Tid, u: Tid, r: Tid)
    requires KernelInv(s) && Valid(s, es) && BlockedThroughout(s, es, t, u, r) && t != u
    requires Before(L(s.k.q, SendQ(r)), t, u)
    ensures Passed(InboxOf(After(s, es), r), Thread(u)) == Passed(InboxOf(s, r), Thread(u))
    ensures Before(L(After(s, es).k.q, SendQ(r)), t, u)
    decreases |es|
  {
    hide KernelInv, Enabled, Step, Sorts, Before, IsDelivery, Passed, NoDup, ByPriority;
    if es != [] {
      var s1 := Step(s, es[0]);
      StepKeeps(s, es[0]);
      var d := MsgTransition(s, es[0], r);
      WaitListShape(s, SendQ(r));
      assert t in L(s1.k.q, SendQ(r));
      DeliveryKeepsBefore(d, s.k.prio, InboxOf(s, r), InboxOf(s1, r), t, u);
      SenderNotOvertaken(s1, es[1..], t, u, r);
    }
  }

  /**
    A send returns 1 exactly if its message was accepted, as the last one, with the pid of its
    sender; it returns -1 without a target and 0 without room; a failed send changes nothing.
  */
  lemma SendResult(s: State, a: Tid, pid: nat, body: int, block: bool)
    ensures var s' := Send(s, a, pid, body, block);
      var r := if pid == PidOf(s, a) then a else if pid in s.pids then s.pids[pid] else 0;
      if s'.ret == Ret.Int(1) then ChanOf(s'.ms, r).acc == ChanOf(s.ms, r).acc + [Msg(Get(s.pid, a), Thread(a), r, s.ms.uid, body)]
      else
        && s' == s.(ret := if pid == Get(s.pid, a) || pid in s.pids then Ret.Int(0) else Ret.Int(-1))
        && (block && pid in s.pids ==> pid == Get(s.pid, a))
  {
    hide Owes, SendQueue, SendCore, Room;
    if PidOf(s, a) == pid {
      AcceptedBy(s, a, a, NewMsg(s, a, a, body), Nothing);
    } else if pid in s.pids {
      CoreResult(s, a, s.pids[pid], NewMsg(s, a, s.pids[pid], body), block);
    }
  }

  /** The same for `msg_send_int`, which never blocks. */
  lemma SendIsrResult(s: State, pid: nat, body: int)
    ensures var s' := SendIsr(s, pid, body);
      var r := if pid in s.pids then s.pids[pid] else 0;
      if s'.ret == Ret.Int(1) then ChanOf(s'.ms, r).acc == ChanOf(s.ms, r).acc + [Msg(PID_ISR, Isr, r, s.ms.uid, body)]
      else s' == s.(ret := if pid in s.pids then Ret.Int(0) else Ret.Int(-1))
  {
    hide SendDirect, SendQueue, Room;
    if pid in s.pids {
      AcceptedBy(s, 0, s.pids[pid], Msg(PID_ISR, Isr, s.pids[pid], s.ms.uid, body), Nothing);
    }
  }

  /** A request to an existing thread is always accepted, as the last message. */
  lemma RequestAccepted(s: State, a: Tid, pid: nat, body: int)
    requires pid in s.pids
    ensures var s', r := SendReceive(s, a, pid, body), s.pids[pid];
      && s'.ret == Ret.Int(1)
      && ChanOf(s'.ms, r).acc == ChanOf(s.ms, r).acc + [Msg(Get(s.pid, a), Thread(a), r, s.ms.uid, body)]
  {
    hide SendCore, SetStatus;
    var m := NewMsg(s, a, s.pids[pid], body);
    CoreResult(AwaitReply(s, a, m), a, s.pids[pid], m, true);
  }

  lemma CoreResult(s: State, a: Tid, r: Tid, m: Msg, block: bool)
    ensures var s' := SendCore(s, a, r, m, block);
      if s'.ret == Ret.Int(1) then ChanOf(s'.ms, r).acc == ChanOf(s.ms, r).acc + [m]
      else s' == s.(ret := Ret.Int(0)) && !block
  {
    hide Owes, SendDirect, SendQueue, SendBlock, Room;
    AcceptedBy(s, a, r, m, IfRequested);
  }

  lemma AcceptedBy(s: State, a: Tid, r: Tid, m: Msg, o: Owe)
    ensures SendDirect(s, r, m).ret == SendQueue(s, r, m, o).ret == SendBlock(s, a, r, m).ret == Ret.Int(1)
    ensures ChanOf(SendDirect(s, r, m).ms, r).acc == ChanOf(s.ms, r).acc + [m]
    ensures ChanOf(SendQueue(s, r, m, o).ms, r).acc == ChanOf(s.ms, r).acc + [m]
    ensures ChanOf(SendBlock(s, a, r, m).ms, r).acc == ChanOf(s.ms, r).acc + [m]
  {
    hide Owes, SetStatus, NotifyWake, Notified, Block, SenderStatus;
  }

  // ---- Request and reply ----

  /** Threads waiting for a reply, other than `a`, go on waiting with the same buffer, and no others start to. */
  ghost predicate StillWaiting(s: State, s': State, a: Tid) {
    && (forall t :: t != a ==> (St(s'.k, t).ReplyBlocked? <==> St(s.k, t).ReplyBlocked?))
    && (forall t :: t != a && St(s.k, t).ReplyBlocked? ==> WaitOf(s'.wait, t) == WaitOf(s.wait, t))
  }

  lemma NotifyStatus(k: Sched, fl: map<Tid, bv16>, wait: map<Tid, Wait>, r: Tid, o: Owe)
    requires Inv(k)
    ensures forall t :: St(Owes(NotifyWake(k, fl, wait, r), o), t).ReplyBlocked? <==> St(k, t).ReplyBlocked?
  {
    hide Inv, Grown, FlagWake, With, Wakes;
    var f, w := With(FlagsOf(fl, r), MSG_WAITING), WaitOf(wait, r);
    FlagWakeOk(k, r, f, w);
    StillAll(k, FlagWake(k, r, f, w));
  }

  lemma StillAll(k: Sched, k': Sched)
    requires Only(k, k', FlagKinds, FlagStatuses)
    ensures forall t :: St(k', t).ReplyBlocked? <==> St(k, t).ReplyBlocked?
  {
  }

  lemma DirectStill(s: State, r: Tid, m: Msg, a: Tid)
    requires Inv(s.k) && St(s.k, r).ReceiveBlocked?
    requires if s.k.cpu.isr then Act(s.k) else s.k.cpu.active.Some?
    ensures StillWaiting(s, SendDirect(s, r, m), a)
  {
    hide LinksOk, MatchOk, Act, SetStatus, Owes, Only;
    OnSendQ(s.k, r);
    WakeYieldOk(s.k, r);
  }

  lemma QueueStill(s: State, r: Tid, m: Msg, o: Owe, a: Tid)
    requires Inv(s.k)
    ensures StillWaiting(s, SendQueue(s, r, m, o), a)
  {
    hide Inv, NotifyWake, Notified, Owes;
    NotifyStatus(s.k, s.fl, s.wait, r, o);
  }

  lemma BlockStill(s: State, a: Tid, r: Tid, m: Msg)
    requires Inv(s.k) && CanBlock(s.k, a)
    ensures StillWaiting(s, SendBlock(s, a, r, m), a)
  {
    hide LinksOk, MatchOk, NotifyWake, Notified, Owes, Block, CanBlock, InsertPos, InsertAt;
    var k1 := Block(s.k, a, SenderStatus(s.k, a), Some(SendQ(r)));
    BlockOk(s.k, a, SenderStatus(s.k, a), Some(SendQ(r)));
    NotifyStatus(k1, s.fl, s.wait[a := Buffer(m)], r, YieldHigher);
    forall t | t != a ensures St(SendBlock(s, a, r, m).k, t).ReplyBlocked? <==> St(s.k, t).ReplyBlocked? {
      assert St(k1, t) == St(s.k, t);
    }
  }

  lemma CoreStill(s: State, a: Tid, r: Tid, m: Msg, block: bool)
    requires CanSend(s.k, a)
    ensures StillWaiting(s, SendCore(s, a, r, m, block), a)
  {
    hide Inv, Act, SendDirect, SendQueue, SendBlock, Room, CanBlock;
    if St(s.k, r).ReceiveBlocked? {
      DirectStill(s, r, m, a);
    } else if Room(s.ms, r) {
      QueueStill(s, r, m, IfRequested, a);
    } else if block {
      BlockStill(s, a, r, m);
    }
  }

  lemma SendStill(s: State, a: Tid, pid: nat, body: int, block: bool)
    requires SchedOk(s.k) && MsgInv(s) && Calling(s, a)
    ensures StillWaiting(s, Send(s, a, pid, body, block), a)
  {
    hide Inv, Act, MsgOk, CanSend, MsgOkBut, SendCore, SendQueue, Room, StillWaiting;
    CallerCanSend(s, a);
    SameStill(s, Ret.Int(0), a);
    SameStill(s, Ret.Int(-1), a);
    if PidOf(s, a) == pid {
      QueueStill(s, a, NewMsg(s, a, a, body), Nothing, a);
    } else if pid in s.pids {
      CoreStill(s, a, s.pids[pid], NewMsg(s, a, s.pids[pid], body), block);
    }
  }

  lemma SameStill(s: State, r: Ret, a: Tid)
    ensures StillWaiting(s, s.(ret := r), a)
  {
  }

  lemma SendIsrStill(s: State, pid: nat, body: int, a: Tid)
    requires SchedOk(s.k) && s.k.cpu.isr
    ensures StillWaiting(s, SendIsr(s, pid, body), a)
  {
    hide Inv, Act, SendDirect, SendQueue, Room, StillWaiting;
    SameStill(s, Ret.Int(0), a);
    SameStill(s, Ret.Int(-1), a);
    if pid in s.pids {
      var r := s.pids[pid];
      var m := Msg(PID_ISR, Source.Isr, r, s.ms.uid, body);
      if St(s.k, r).ReceiveBlocked? {
        DirectStill(s, r, m, a);
      } else {
        QueueStill(s, r, m, Nothing, a);
      }
    }
  }

  lemma AwaitStill(s: State, a: Tid, m: Msg)
    ensures StillWaiting(s, AwaitReply(s, a, m), a)
  {
    hide RunqueuePush, RunqueuePop;
  }

  lemma SendReceiveStill(s: State, a: Tid, pid: nat, body: int)
    requires SchedOk(s.k) && Calling(s, a) && pid in s.pids
    ensures StillWaiting(s, SendReceive(s, a, pid, body), a)
  {
    hide SchedOk, CanSend, Only, SendCore, SetStatus, StillWaiting;
    var r := s.pids[pid];
    var m := NewMsg(s, a, r, body);
    AwaitReplySched(s.k, a);
    AwaitStill(s, a, m);
    CoreStill(AwaitReply(s, a, m), a, r, m, true);
    StillTrans(s, AwaitReply(s, a, m), SendReceive(s, a, pid, body), a);
  }

  lemma StillTrans(s: State, s1: State, s': State, a: Tid)
    requires StillWaiting(s, s1, a) && StillWaiting(s1, s', a)
    ensures StillWaiting(s, s', a)
  {
  }

  lemma ReleaseStill(s: State, a: Tid, o: Owe, t: Tid)
    requires Inv(s.k) && L(s.k.q, SendQ(a)) != []
    ensures var w := L(s.k.q, SendQ(a))[0];
      && (St(Owes(ReleaseSender(s.k, a), o), t).ReplyBlocked? <==> St(s.k, t).ReplyBlocked?)
      && (St(s.k, t).ReplyBlocked? ==> WaitOf(SenderWait(s, w), t) == WaitOf(s.wait, t))
  {
    hide LinksOk, MatchOk, WakeAt, Unlink;
    if !St(s.k, L(s.k.q, SendQ(a))[0]).ReplyBlocked? {
      WakeAtOk(s.k, SendQ(a), 0);
    }
  }

  lemma TakeStill(s: State, a: Tid)
    requires Inv(s.k) && L(s.k.q, SendQ(a)) != []
    ensures StillWaiting(s, TakeFromSender(s, a), a)
    ensures ChanOf(s.ms, a).queue != [] ==> StillWaiting(s, TakeAndRefill(s, a), a)
  {
    hide Inv, ReleaseSender, Owes, SenderOwe, SenderMsg, SenderWait;
    var w := L(s.k.q, SendQ(a))[0];
    forall t | t != a
      ensures St(Owes(ReleaseSender(s.k, a), SenderOwe(s.k, w)), t).ReplyBlocked? <==> St(s.k, t).ReplyBlocked?
      ensures St(s.k, t).ReplyBlocked? ==> WaitOf(SenderWait(s, w), t) == WaitOf(s.wait, t)
    {
      ReleaseStill(s, a, SenderOwe(s.k, w), t);
    }
  }

  lemma AwaitMsgStill(s: State, a: Tid)
    requires SchedOk(s.k) && Calling(s, a)
    ensures StillWaiting(s, AwaitMsg(s, a), a)
  {
    hide Inv, Act, Block, Owes, Only;
    AwaitMsgSched(s.k, a);
  }

  lemma TakeQueuedStill(s: State, a: Tid)
    requires ChanOf(s.ms, a).queue != []
    ensures StillWaiting(s, TakeQueued(s, a), a)
  {
  }

  lemma ReceiveStill(s: State, a: Tid, block: bool)
    requires SchedOk(s.k) && Calling(s, a)
    ensures StillWaiting(s, Receive(s, a, block), a)
  {
    hide Inv, Act, TakeFromSender, TakeAndRefill, TakeQueued, AwaitMsg, StillWaiting;
    SameStill(s, Ret.Int(-1), a);
    if L(s.k.q, SendQ(a)) != [] {
      TakeStill(s, a);
    } else if ChanOf(s.ms, a).queue != [] {
      TakeQueuedStill(s, a);
    } else {
      AwaitMsgStill(s, a);
    }
  }

  /** The reply that a step makes, if it makes one. */
  function ReplyTo(s: State, e: Event): Option<(Tid, Msg)> {
    match e
    case Thr(MsgReply(pid, reply)) => if pid in s.pids then Some((s.pids[pid], reply)) else None
    case Intr(MsgReply(pid, reply)) => if pid in s.pids then Some((s.pids[pid], reply)) else None
    case _ => None
  }

  lemma ReplyEffect(s: State, pid: nat, reply: Msg)
    requires SchedOk(s.k) && InContext(s.k) && ReplyAllowed(s, pid)
    ensures var t, s' := s.pids[pid], Reply(s, s.pids[pid], reply);
      && StillWaiting(s, s', t)
      && (St(s.k, t).ReplyBlocked? ==> St(s'.k, t).Pending? && WaitOf(s'.wait, t) == Buffer(reply))
  {
    hide Inv, Act, SetStatus, Owes, Only, StillWaiting;
    var t := s.pids[pid];
    SameStill(s, Ret.Int(-1), t);
    if St(s.k, t).ReplyBlocked? {
      if s.k.cpu.isr {
        WakeYieldOk(s.k, t);
      } else {
        WakeSwitchOk(s.k, t);
      }
      Answered(s, Reply(s, t, reply), t, Buffer(reply));
    }
  }

  lemma Answered(s: State, s': State, t: Tid, w: Wait)
    requires s'.k.status == s.k.status[t := Pending] && s'.wait == s.wait[t := w]
    ensures StillWaiting(s, s', t)
  {
  }

  lemma MsgCallStill(s: State, a: Tid, c: Call)
    requires KernelInv(s) && Calling(s, a) && MsgCall(c) && !c.MsgReply? && CallOk(s, a, c)
    ensures StillWaiting(s, MsgStep(s, a, c), a)
  {
    hide SchedOk, MutexSpec.MutexOk, FlagInv, MsgInv, MboxSpec.MboxInv, Tabled, StillWaiting, Send, SendReceive, Receive;
    match c
    case MsgSend(pid, body, block) => SendStill(s, a, pid, body, block);
    case MsgSendReceive(pid, body) => SendReceiveStill(s, a, pid, body);
    case MsgReceive(block) => ReceiveStill(s, a, block);
    case MsgInitQueue(n) => InitStill(s, a, n);
    case _ =>
  }

  lemma InitStill(s: State, a: Tid, n: nat)
    ensures StillWaiting(s, InitQueue(s, a, n), a)
  {
  }

  lemma CallerNotWaiting(s: State, a: Tid)
    requires SchedOk(s.k) && Calling(s, a)
    ensures !St(s.k, a).ReplyBlocked?
  {
    hide SchedOk;
    CallerRuns(s, a);
  }

  /**
    A thread leaves REPLY_BLOCKED only through a reply aimed at it, and then its buffer holds
    that reply; until then its buffer does not change.
  */
  lemma OnlyReplyEnds(s: State, e: Event, t: Tid)
    requires KernelInv(s) && Enabled(s, e) && St(s.k, t).ReplyBlocked?
    ensures var s' := Step(s, e);
      if ReplyTo(s, e).Some? && ReplyTo(s, e).value.0 == t
      then St(s'.k, t).Pending? && WaitOf(s'.wait, t) == Buffer(ReplyTo(s, e).value.1)
      else St(s'.k, t).ReplyBlocked? && WaitOf(s'.wait, t) == WaitOf(s.wait, t)
  {
    hide SchedOk, MutexSpec.MutexOk, FlagInv, MsgInv, MboxSpec.MboxInv, Tabled, MutexOnly, MsgOnly, MutexQuiet;
    hide MutexStep, IsrMutexStep, Resume, MsgStep, IsrMsgStep, ThreadStep, FlagMboxStep, IsrOtherStep, IsrEnter, IsrExit, SchedRun;
    hide CallOk, IsrOk;
    if InMsg(e) {
      match e
      case Thr(c) => ThreadReply(s, s.k.cpu.active.value, c, t);
      case Intr(c) => IsrReply(s, c, t);
      case _ =>
    } else {
      StepKeeps(s, e);
      if InMutex(s, e) {
        MutexIsQuiet(s, Step(s, e));
      }
    }
  }

  lemma ThreadReply(s: State, a: Tid, c: Call, t: Tid)
    requires KernelInv(s) && Calling(s, a) && MsgCall(c) && CallOk(s, a, c) && St(s.k, t).ReplyBlocked?
    ensures var s' := MsgStep(s, a, c);
      if c.MsgReply? && c.pid in s.pids && s.pids[c.pid] == t
      then St(s'.k, t).Pending? && WaitOf(s'.wait, t) == Buffer(c.reply)
      else St(s'.k, t).ReplyBlocked? && WaitOf(s'.wait, t) == WaitOf(s.wait, t)
  {
    hide SchedOk, MutexSpec.MutexOk, FlagInv, MsgInv, MboxSpec.MboxInv, Tabled, Send, SendReceive, Receive, InitQueue, Reply;
    if c.MsgReply? {
      ReplyEffect(s, c.pid, c.reply);
    } else {
      MsgCallStill(s, a, c);
      CallerNotWaiting(s, a);
    }
  }

  lemma IsrReply(s: State, c: Call, t: Tid)
    requires KernelInv(s) && s.k.cpu.isr && MsgCall(c) && IsrOk(s, c) && St(s.k, t).ReplyBlocked?
    ensures var s' := IsrMsgStep(s, c);
      if c.MsgReply? && c.pid in s.pids && s.pids[c.pid] == t
      then St(s'.k, t).Pending? && WaitOf(s'.wait, t) == Buffer(c.reply)
      else St(s'.k, t).ReplyBlocked? && WaitOf(s'.wait, t) == WaitOf(s.wait, t)
  {
    hide SchedOk, MutexSpec.MutexOk, FlagInv, MsgInv, MboxSpec.MboxInv, Tabled, SendIsr, Reply;
    if c.MsgReply? {
      ReplyEffect(s, c.pid, c.reply);
    } else {
      SendIsrStill(s, c.pid, c.body, t + 1);
    }
  }

  lemma {:induction false} InFrom(q: seq<Msg>, m: Msg)
    ensures m in From(q, m.src) <==> m in q
  {
    if q != [] {
      var n := |q| - 1;
      InFrom(q[..n], m);
      assert q == q[..n] + [q[n]];
    }
  }

  /** When the reply arrives, the request has been copied out of the buffer: delivered, or in the receiver's queue. */
  lemma RequestCopiedOut(s: State, t: Tid)
    requires MsgInv(s) && St(s.k, t).ReplyBlocked? && t !in s.k.q.on
    ensures WaitOf(s.wait, t).Buffer?
    ensures var m := WaitOf(s.wait, t).m; var c := ChanOf(s.ms, m.dst);
      m.src == Thread(t) && (m in c.dlv || m in c.queue)
  {
    hide ChansOk, ReceiversOk, FullOk, SendersOk, From;
    var m := s.wait[t].m;
    var c := ChanOf(s.ms, m.dst);
    assert m in c.acc;
    assert Ordered(s.k.q.on, s.wait, c, m.dst);
    assert InOrder(c, Held(s.k.q.on, s.wait, m.dst, m.src), m.src);
    InFrom(c.acc, m);
    InFrom(c.dlv, m);
    InFrom(c.queue, m);
    assert m in From(c.dlv, m.src) + From(c.queue, m.src) + [];
  }
}
