/** What the calls of `msg.c` have achieved when they return or block. */
module MsgCalls {
  import opened Wrappers
  import opened Queues
  import opened Sched
  import opened Reschedule
  import opened KernelState
  import opened FlagSpec
  import opened FlagSets
  import opened FlagRuns
  import opened FlagCalls
  import opened MsgSpec
  import opened MsgSteps
  import opened Kernel
  import opened KernelSteps
  import opened Runs
  import opened MsgRuns
  import opened LockCalls

  /** The number of the flag that messages set. */
  const MSG_FLAG: nat := 15

  /** `m` was accepted for `r`, as the last message, and nothing was accepted for anybody else. */
  ghost predicate Grew(s: State, s': State, r: Tid, m: Msg) {
    forall u :: ChanOf(s'.ms, u).acc == ChanOf(s.ms, u).acc + (if u == r then [m] else [])
  }

  /**
    `m` was sent to `r`: a receiver that was blocked has it in its buffer and is PENDING; any
    other receiver is told by its message flag.
  */
  ghost predicate Sent(s: State, s': State, r: Tid, m: Msg) {
    && s'.ret == Ret.Int(1) && Grew(s, s', r, m)
    && if St(s.k, r).ReceiveBlocked? then
         && St(s'.k, r).Pending? && WaitOf(s'.wait, r) == Buffer(m)
         && ChanOf(s'.ms, r).dlv == ChanOf(s.ms, r).dlv + [m]
       else
         MSG_FLAG in FlagsIn(s', r) && ChanOf(s'.ms, r).dlv == ChanOf(s.ms, r).dlv
  }

  // ---- The three ways to send ----

  lemma DirectSends(s: State, r: Tid, m: Msg)
    requires St(s.k, r).ReceiveBlocked?
    ensures Sent(s, SendDirect(s, r, m), r, m)
  {
    hide SetStatus, Owes;
    RousedStatus(s.k, r, Pending, YieldHigher);
  }

  lemma RousedStatus(k: Sched, t: Tid, st: Status, o: Owe)
    ensures Owes(SetStatus(k, t, st), o).status == k.status[t := st]
  {
    hide Owes, RunqueuePush, RunqueuePop;
    OwesStatus(SetStatus(k, t, st), o);
  }

  lemma Told(fl: map<Tid, bv16>, r: Tid)
    ensures MSG_FLAG in SetOf(FlagsOf(Notified(fl, r), r))
  {
    hide SetOf, With;
    SetOps(FlagsOf(fl, r), MSG_WAITING);
    MsgBit();
  }

  lemma MsgBit()
    ensures MSG_FLAG in SetOf(MSG_WAITING)
  {
    hide SetOf;
    assert Bit(15) == 0x8000;
    BitSet(15);
  }

  lemma QueueSends(s: State, r: Tid, m: Msg, o: Owe)
    requires !St(s.k, r).ReceiveBlocked?
    ensures Sent(s, SendQueue(s, r, m, o), r, m)
  {
    hide NotifyWake, Notified, Owes, SetOf;
    Told(s.fl, r);
  }

  lemma BlockSends(s: State, a: Tid, r: Tid, m: Msg)
    requires !St(s.k, r).ReceiveBlocked?
    ensures Sent(s, SendBlock(s, a, r, m), r, m)
  {
    hide NotifyWake, Notified, Owes, Block, SenderStatus, SetOf;
    Told(s.fl, r);
  }

  lemma CoreSends(s: State, a: Tid, r: Tid, m: Msg, block: bool)
    ensures var s' := SendCore(s, a, r, m, block);
      Sent(s, s', r, m) || (!block && s' == s.(ret := Ret.Int(0)) && !St(s.k, r).ReceiveBlocked? && !Room(s.ms, r))
  {
    hide SendDirect, SendQueue, SendBlock, Sent, Room;
    if St(s.k, r).ReceiveBlocked? {
      DirectSends(s, r, m);
    } else if Room(s.ms, r) {
      QueueSends(s, r, m, IfRequested);
    } else if block {
      BlockSends(s, a, r, m);
    }
  }

  // ---- The calls ----

  /**
    `msg_send` and `msg_try_send`: the message, with the pid of its sender, is accepted, and the
    receiver has it or is told; or the call fails and nothing happens: with -1 if there is no
    such thread, with 0 if there is no room and the call must not, or cannot, wait.
  */
  lemma SendEffect(s: State, pid: nat, body: int, block: bool)
    requires KernelInv(s) && Enabled(s, Thr(MsgSend(pid, body, block)))
    ensures var a, s' := s.k.cpu.active.value, Step(s, Thr(MsgSend(pid, body, block)));
      if pid !in s.pids then s' == s.(ret := Ret.Int(-1))
      else
        var r := s.pids[pid];
        || Sent(s, s', r, Msg(Get(s.pid, a), Thread(a), r, s.ms.uid, body))
        || (&& s' == s.(ret := Ret.Int(0)) && (block ==> r == a)
            && !St(s.k, r).ReceiveBlocked? && |ChanOf(s.ms, r).queue| >= ChanOf(s.ms, r).cap)
  {
    hide KernelInv, Ready, SendQueue, SendCore, Sent;
    var a := s.k.cpu.active.value;
    assert Step(s, Thr(MsgSend(pid, body, block))) == Send(s, a, pid, body, block);
    CallerListed(s, a);
    var m := Msg(Get(s.pid, a), Thread(a), if pid in s.pids then s.pids[pid] else 0, s.ms.uid, body);
    if pid == Get(s.pid, a) {
      if Room(s.ms, a) {
        QueueSends(s, a, m, Nothing);
      }
    } else if pid in s.pids {
      CoreSends(s, a, s.pids[pid], m, block);
    }
  }

  /** The caller is in the thread table, and runs. */
  lemma CallerListed(s: State, a: Tid)
    requires KernelInv(s) && Calling(s, a)
    ensures St(s.k, a).Running? && Get(s.pid, a) in s.pids && s.pids[Get(s.pid, a)] == a && a in s.ms.ch
  {
    hide Inv, MutexSpec.MutexOk, FlagInv, MsgInv, MboxSpec.MboxInv, IsHead;
    Quiescent(s.k);
  }

  /** `msg_send_int`: the same from an interrupt handler, which never waits. */
  lemma SendIsrEffect(s: State, pid: nat, body: int, block: bool)
    requires Enabled(s, Intr(MsgSend(pid, body, block)))
    ensures var s' := Step(s, Intr(MsgSend(pid, body, block)));
      if pid !in s.pids then s' == s.(ret := Ret.Int(-1))
      else
        var r := s.pids[pid];
        || Sent(s, s', r, Msg(PID_ISR, Isr, r, s.ms.uid, body))
        || (&& s' == s.(ret := Ret.Int(0))
            && !St(s.k, r).ReceiveBlocked? && |ChanOf(s.ms, r).queue| >= ChanOf(s.ms, r).cap)
  {
    hide SendQueue, SendDirect, Sent;
    assert Step(s, Intr(MsgSend(pid, body, block))) == SendIsr(s, pid, body);
    if pid in s.pids {
      var r := s.pids[pid];
      var m := Msg(PID_ISR, Isr, r, s.ms.uid, body);
      if St(s.k, r).ReceiveBlocked? {
        DirectSends(s, r, m);
      } else if Room(s.ms, r) {
        QueueSends(s, r, m, Nothing);
      }
    }
  }

  /**
    `msg_send_receive`: the caller waits for a reply, with the request in its buffer, and the
    request is sent like any message, with the pid of the caller.
  */
  lemma RequestEffect(s: State, pid: nat, body: int)
    requires KernelInv(s) && Enabled(s, Thr(MsgSendReceive(pid, body)))
    ensures pid in s.pids
    ensures var a, r, s' := s.k.cpu.active.value, s.pids[pid], Step(s, Thr(MsgSendReceive(pid, body)));
      var m := Msg(Get(s.pid, a), Thread(a), r, s.ms.uid, body);
      r != a && Sent(s, s', r, m) && St(s'.k, a).ReplyBlocked? && WaitOf(s'.wait, a) == Buffer(m)
  {
    hide KernelInv, Ready, SendCore, SetStatus;
    var a, r := s.k.cpu.active.value, s.pids[pid];
    var m := Msg(Get(s.pid, a), Thread(a), r, s.ms.uid, body);
    var s1 := AwaitReply(s, a, m);
    assert Step(s, Thr(MsgSendReceive(pid, body))) == SendCore(s1, a, r, m, true);
    CallerListed(s, a);
    TableUnique(s, pid);
    assert r != a;
    AwaitStatus(s, a, m);
    CoreSends(s1, a, r, m, true);
    CoreCaller(s1, a, r, m);
  }

  lemma TableUnique(s: State, pid: nat)
    requires KernelInv(s) && pid in s.pids
    ensures Get(s.pid, s.pids[pid]) == pid
  {
    hide SchedOk, MutexSpec.MutexOk, FlagInv, MsgInv, MboxSpec.MboxInv;
  }

  lemma AwaitStatus(s: State, a: Tid, m: Msg)
    ensures AwaitReply(s, a, m).k.status == s.k.status[a := ReplyBlocked]
  {
    hide RunqueuePush, RunqueuePop;
  }

  /** The caller of `msg_send_receive` stays REPLY_BLOCKED while it sends. */
  lemma CoreCaller(s: State, a: Tid, r: Tid, m: Msg)
    requires r != a && St(s.k, a).ReplyBlocked? && WaitOf(s.wait, a) == Buffer(m)
    ensures var s' := SendCore(s, a, r, m, true); St(s'.k, a).ReplyBlocked? && WaitOf(s'.wait, a) == Buffer(m)
  {
    hide SendDirect, SendQueue, SendBlock, Room;
    if St(s.k, r).ReceiveBlocked? {
      DirectFrame(s, r, m);
    } else if Room(s.ms, r) {
      QueueFrame(s, r, m, IfRequested);
    } else {
      BlockFrame(s, a, r, m);
    }
  }

  lemma DirectFrame(s: State, r: Tid, m: Msg)
    ensures var s' := SendDirect(s, r, m); s'.k.status == s.k.status[r := Pending] && s'.wait == s.wait[r := Buffer(m)]
  {
    hide SetStatus, Owes;
    RousedStatus(s.k, r, Pending, YieldHigher);
  }

  /** A thread other than `a` that waits for flags may have become runnable. */
  ghost predicate OnlyWoke(s: State, s': State, a: Tid, r: Tid) {
    forall t :: t != a ==>
      || St(s'.k, t) == St(s.k, t)
      || (t == r && (St(s.k, t).FlagBlockedAny? || St(s.k, t).FlagBlockedAll?) && St(s'.k, t).Pending?)
  }

  lemma QueueFrame(s: State, r: Tid, m: Msg, o: Owe)
    ensures var s' := SendQueue(s, r, m, o);
      s'.wait == s.wait && (forall a :: OnlyWoke(s, s', a, r)) && (forall t :: St(s.k, t).ReplyBlocked? ==> St(s'.k, t).ReplyBlocked?)
  {
    hide NotifyWake, Notified, Owes, Queued;
    NotifiedStatus(s.k, s.fl, s.wait, r, o);
  }

  lemma BlockFrame(s: State, a: Tid, r: Tid, m: Msg)
    requires r != a
    ensures var s' := SendBlock(s, a, r, m);
      s'.wait == s.wait[a := Buffer(m)] && St(s'.k, a) == SenderStatus(s.k, a) && OnlyWoke(s, s', a, r)
  {
    hide NotifyWake, Notified, Owes, Accepted, Block;
    var wait, k1 := s.wait[a := Buffer(m)], Block(s.k, a, SenderStatus(s.k, a), Some(SendQ(r)));
    BlockStatus(s.k, a, SenderStatus(s.k, a), Some(SendQ(r)));
    NotifiedStatus(k1, s.fl, wait, r, YieldHigher);
  }

  lemma NotifiedStatus(k: Sched, fl: map<Tid, bv16>, wait: map<Tid, Wait>, r: Tid, o: Owe)
    ensures var k' := Owes(NotifyWake(k, fl, wait, r), o);
      k'.status == k.status || ((St(k, r).FlagBlockedAny? || St(k, r).FlagBlockedAll?) && k'.status == k.status[r := Pending])
  {
    hide Owes, FlagWake, With, Any, All;
    var f, w := With(FlagsOf(fl, r), MSG_WAITING), WaitOf(wait, r);
    FlagWakeStatus(k, r, f, w);
    OwesStatus(NotifyWake(k, fl, wait, r), o);
  }

  // ---- Receiving ----

  /** The first waiting sender left the list, and goes on unless it waits for a reply. */
  predicate SenderLeft(s: State, s': State, a: Tid)
    requires L(s.k.q, SendQ(a)) != []
  {
    var w := L(s.k.q, SendQ(a))[0];
    && L(s'.k.q, SendQ(a)) == L(s.k.q, SendQ(a))[1..]
    && St(s'.k, w) == (if St(s.k, w).ReplyBlocked? then ReplyBlocked else Pending)
    && WaitOf(s'.wait, w) == if St(s.k, w).ReplyBlocked? then WaitOf(s.wait, w) else Null
  }

  lemma ReleasedSender(s: State, a: Tid, o: Owe)
    requires SchedOk(s.k) && Calling(s, a) && L(s.k.q, SendQ(a)) != []
    ensures var w, k' := L(s.k.q, SendQ(a))[0], Owes(ReleaseSender(s.k, a), o);
      && L(k'.q, SendQ(a)) == L(s.k.q, SendQ(a))[1..]
      && k'.status == (if St(s.k, w).ReplyBlocked? then s.k.status else s.k.status[w := Pending])
      && w != a && MsgBlocked(St(s.k, w))
  {
    hide Inv, Act, ReleaseSender, Owes, Only, SameRest;
    ReleaseOk(s.k, a);
    ReleasedLists(s.k, a, o, a);
    OwesStatus(ReleaseSender(s.k, a), o);
    FirstSender(s, a);
  }

  lemma FirstSender(s: State, a: Tid)
    requires SchedOk(s.k) && Calling(s, a) && L(s.k.q, SendQ(a)) != []
    ensures var w := L(s.k.q, SendQ(a))[0]; w != a && MsgBlocked(St(s.k, w))
  {
    hide Act, SortedOk, BitsOk, NoDup, IsHead, CanBlock;
    var w := L(s.k.q, SendQ(a))[0];
    CallerCanBlock(s.k, a);
    assert w in s.k.q.lists[SendQ(a)];
    assert Matches(s.k.status[w], OnOf(s.k.q.on, w), Pr(s.k, w));
  }

  /**
    `msg_receive` and `msg_try_receive`: the oldest message, queued or else held by the first
    waiting sender, is delivered, and the first sender leaves the list, its message going into
    the queue if it was not the one delivered. Without a message the call blocks, or fails and
    nothing happens.
  */
  lemma ReceiveEffect(s: State, block: bool)
    requires KernelInv(s) && Enabled(s, Thr(MsgReceive(block)))
    ensures forall w :: w in L(s.k.q, SendQ(s.k.cpu.active.value)) ==> WaitOf(s.wait, w).Buffer?
    ensures var a, s' := s.k.cpu.active.value, Step(s, Thr(MsgReceive(block)));
      var queue, q := ChanOf(s.ms, a).queue, L(s.k.q, SendQ(a));
      if q != [] then
        Took(s, s', a, queue + [WaitOf(s.wait, q[0]).m])
      else if queue != [] then
        && s'.ret == Ret.Int(1) && s'.k == s.k && s'.wait == s.wait
        && ChanOf(s'.ms, a).dlv == ChanOf(s.ms, a).dlv + [queue[0]] && ChanOf(s'.ms, a).queue == queue[1..]
      else if block then
        St(s'.k, a).ReceiveBlocked? && s'.ms == s.ms && s'.ret == Ret.Int(1)
      else
        s' == s.(ret := Ret.Int(-1))
  {
    hide KernelInv, Ready, TakeFromSender, TakeAndRefill, AwaitMsg, Took;
    var a := s.k.cpu.active.value;
    assert Step(s, Thr(MsgReceive(block))) == Receive(s, a, block);
    hide Step;
    Scheduled(s);
    SendersHold(s, a);
    var queue, q := ChanOf(s.ms, a).queue, L(s.k.q, SendQ(a));
    if q != [] {
      FirstIn(q);
      if queue == [] {
        FromSender(s, a);
        assert queue + [WaitOf(s.wait, q[0]).m] == [WaitOf(s.wait, q[0]).m];
      } else {
        AndRefill(s, a);
      }
    } else if queue == [] {
      AwaitEffect(s, a);
    }
  }

  lemma FirstIn(q: seq<Tid>)
    requires q != []
    ensures q[0] in q
  {
  }

  lemma Scheduled(s: State)
    requires KernelInv(s)
    ensures SchedOk(s.k)
  {
  }

  lemma SendersHold(s: State, a: Tid)
    requires KernelInv(s)
    ensures forall w :: w in L(s.k.q, SendQ(a)) ==> WaitOf(s.wait, w).Buffer?
  {
    hide MutexSpec.MutexOk, FlagInv, MboxSpec.MboxInv, Tabled, Act, MatchOk, SortedOk, BitsOk, NoDup, OrderOk, ChansOk, FullOk;
    hide ReceiversOk, RequestsOk;
  }

  lemma AwaitEffect(s: State, a: Tid)
    ensures var s' := AwaitMsg(s, a); St(s'.k, a).ReceiveBlocked? && s'.ms == s.ms && s'.ret == Ret.Int(1)
  {
    hide Owes, Block;
    BlockStatus(s.k, a, ReceiveBlocked, None);
    OwesStatus(Block(s.k, a, ReceiveBlocked, None), YieldHigher);
  }

  /** What taking a message does to the receiver `a`: the first of `all` is delivered, the rest stays queued. */
  predicate Took(s: State, s': State, a: Tid, all: seq<Msg>)
    requires L(s.k.q, SendQ(a)) != [] && all != []
  {
    && s'.ret == Ret.Int(1) && St(s'.k, a) == St(s.k, a) && SenderLeft(s, s', a)
    && ChanOf(s'.ms, a).dlv == ChanOf(s.ms, a).dlv + [all[0]] && ChanOf(s'.ms, a).queue == all[1..]
  }

  lemma FromSender(s: State, a: Tid)
    requires SchedOk(s.k) && Calling(s, a) && L(s.k.q, SendQ(a)) != [] && WaitOf(s.wait, L(s.k.q, SendQ(a))[0]).Buffer?
    requires ChanOf(s.ms, a).queue == []
    ensures Took(s, TakeFromSender(s, a), a, [WaitOf(s.wait, L(s.k.q, SendQ(a))[0]).m])
  {
    hide SchedOk, Calling, ReleaseSender, Owes, SenderOwe;
    ReleasedSender(s, a, SenderOwe(s.k, L(s.k.q, SendQ(a))[0]));
  }

  lemma AndRefill(s: State, a: Tid)
    requires SchedOk(s.k) && Calling(s, a) && L(s.k.q, SendQ(a)) != [] && WaitOf(s.wait, L(s.k.q, SendQ(a))[0]).Buffer?
    requires ChanOf(s.ms, a).queue != []
    ensures Took(s, TakeAndRefill(s, a), a, ChanOf(s.ms, a).queue + [WaitOf(s.wait, L(s.k.q, SendQ(a))[0]).m])
  {
    hide SchedOk, Calling, ReleaseSender, Owes, SenderOwe;
    ReleasedSender(s, a, SenderOwe(s.k, L(s.k.q, SendQ(a))[0]));
  }

  /** `msg_init_queue`: the caller has an empty queue of that size, and nobody else is affected. */
  lemma InitQueueEffect(s: State, n: nat)
    requires Enabled(s, Thr(MsgInitQueue(n)))
    ensures var a, s' := s.k.cpu.active.value, Step(s, Thr(MsgInitQueue(n)));
      && ChanOf(s'.ms, a).cap == n && ChanOf(s'.ms, a).queue == [] && ChanOf(s'.ms, a).acc == ChanOf(s.ms, a).acc
      && (forall r :: r != a ==> ChanOf(s'.ms, r) == ChanOf(s.ms, r))
      && s' == s.(ms := s'.ms, ret := NoRet)
  {
    hide Ready;
  }

  // ---- Replies ----

  /**
    `msg_reply` and `msg_reply_int`: a thread that waits for a reply gets it into its buffer and
    is PENDING, and the call returns 1; to any other thread it returns -1 and nothing happens.
  */
  lemma AnswerEffect(s: State, e: Event, pid: nat, reply: Msg)
    requires Enabled(s, e) && (e == Thr(MsgReply(pid, reply)) || e == Intr(MsgReply(pid, reply)))
    ensures pid in s.pids
    ensures var t, s' := s.pids[pid], Step(s, e);
      if St(s.k, t).ReplyBlocked? then
        && s'.ret == Ret.Int(1) && s'.wait == s.wait[t := Buffer(reply)] && s'.ms == s.ms
        && (forall u :: St(s'.k, u) == if u == t then Pending else St(s.k, u))
      else s' == s.(ret := Ret.Int(-1))
  {
    hide Ready, SetStatus, Owes;
    var t := s.pids[pid];
    assert Step(s, e) == Reply(s, t, reply);
    RousedStatus(s.k, t, Pending, if s.k.cpu.isr then YieldHigher else Switch(Pr(s.k, t)));
  }
}
