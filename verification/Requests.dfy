/** Messages name their sender, so that a reply to a request reaches the thread that made it. */
module Requests {
  import opened Wrappers
  import opened Queues
  import opened Sched
  import opened Reschedule
  import opened KernelState
  import opened FlagSpec
  import opened MsgSpec
  import opened MsgSteps
  import opened Kernel
  import opened KernelSteps
  import opened Runs
  import opened MsgRuns
  import opened MsgCalls
  import opened LockCalls

  // ---- What is accepted in a step ----

  /** `m` is signed by the caller of step `e`. */
  predicate Signs(s: State, e: Event, m: Msg) {
    && m.uid == s.ms.uid
    && if e.Thr? then
         s.k.cpu.active.Some? && m.src == Thread(s.k.cpu.active.value) && m.pid == Get(s.pid, s.k.cpu.active.value)
       else
         m.src == Isr && m.pid == PID_ISR
  }

  /** At most one message was accepted for `r`, and it is signed and addressed. */
  predicate Accepts(s: State, e: Event, s': State, r: Tid) {
    var acc, acc' := ChanOf(s.ms, r).acc, ChanOf(s'.ms, r).acc;
    acc' == acc || (|acc'| == |acc| + 1 && acc' == acc + [acc'[|acc|]] && Signs(s, e, acc'[|acc|]) && acc'[|acc|].dst == r)
  }

  lemma GrewAccepts(s: State, e: Event, s': State, r0: Tid, m: Msg, r: Tid)
    requires Grew(s, s', r0, m) && Signs(s, e, m) && m.dst == r0
    ensures Accepts(s, e, s', r)
  {
    hide Signs;
  }

  lemma SameAccepts(s: State, e: Event, s': State, r: Tid)
    requires ChanOf(s'.ms, r).acc == ChanOf(s.ms, r).acc
    ensures Accepts(s, e, s', r)
  {
    hide Signs;
  }

  lemma ReceiveAcc(s: State, a: Tid, block: bool, r: Tid)
    ensures ChanOf(Receive(s, a, block).ms, r).acc == ChanOf(s.ms, r).acc
  {
    hide TakeFromSender, TakeAndRefill, AwaitMsg;
    if L(s.k.q, SendQ(a)) == [] {
      AwaitAcc(s, a);
    } else if ChanOf(s.ms, a).queue == [] {
      FromSenderAcc(s, a, r);
    } else {
      RefillAcc(s, a, r);
    }
  }

  lemma AwaitAcc(s: State, a: Tid)
    ensures AwaitMsg(s, a).ms == s.ms
  {
    hide Owes, Block;
  }

  lemma FromSenderAcc(s: State, a: Tid, r: Tid)
    requires L(s.k.q, SendQ(a)) != []
    ensures ChanOf(TakeFromSender(s, a).ms, r).acc == ChanOf(s.ms, r).acc
  {
    hide Owes, ReleaseSender, SenderOwe, SenderWait, SenderMsg;
  }

  lemma RefillAcc(s: State, a: Tid, r: Tid)
    requires L(s.k.q, SendQ(a)) != [] && ChanOf(s.ms, a).queue != []
    ensures ChanOf(TakeAndRefill(s, a).ms, r).acc == ChanOf(s.ms, r).acc
  {
    hide Owes, ReleaseSender, SenderOwe, SenderWait, SenderMsg;
  }

  lemma CallAccepts(s: State, c: Call, r: Tid)
    requires KernelInv(s) && Enabled(s, Thr(c)) && MsgCall(c)
    ensures Accepts(s, Thr(c), Step(s, Thr(c)), r)
  {
    hide KernelInv, Ready, Accepts, Send, SendReceive, Receive, Reply, InitQueue;
    var a, e, s' := s.k.cpu.active.value, Thr(c), Step(s, Thr(c));
    match c {
      case MsgSend(pid, body, block) => SendAccepts(s, pid, body, block, r);
      case MsgSendReceive(pid, body) =>
        RequestEffect(s, pid, body);
        var m := Msg(Get(s.pid, a), Thread(a), s.pids[pid], s.ms.uid, body);
        GrewAccepts(s, e, s', s.pids[pid], m, r);
      case MsgReceive(block) =>
        ReceiveAcc(s, a, block, r);
        SameAccepts(s, e, s', r);
      case MsgReply(pid, reply) =>
        AnswerEffect(s, e, pid, reply);
        SameAccepts(s, e, s', r);
      case MsgInitQueue(n) =>
        InitQueueEffect(s, n);
        SameAccepts(s, e, s', r);
    }
  }

  lemma SendAccepts(s: State, pid: nat, body: int, block: bool, r: Tid)
    requires KernelInv(s) && Enabled(s, Thr(MsgSend(pid, body, block)))
    ensures Accepts(s, Thr(MsgSend(pid, body, block)), Step(s, Thr(MsgSend(pid, body, block))), r)
  {
    hide KernelInv, Ready, Accepts, Step;
    var a, e := s.k.cpu.active.value, Thr(MsgSend(pid, body, block));
    var s' := Step(s, e);
    SendEffect(s, pid, body, block);
    if s'.ms == s.ms {
      SameAccepts(s, e, s', r);
    } else {
      var m := Msg(Get(s.pid, a), Thread(a), s.pids[pid], s.ms.uid, body);
      assert Sent(s, s', s.pids[pid], m);
      GrewAccepts(s, e, s', s.pids[pid], m, r);
    }
  }

  lemma IsrAccepts(s: State, c: Call, r: Tid)
    requires Enabled(s, Intr(c)) && MsgCall(c)
    ensures Accepts(s, Intr(c), Step(s, Intr(c)), r)
  {
    hide Accepts, Step;
    var e := Intr(c);
    var s' := Step(s, e);
    if c.MsgSend? {
      SendIsrEffect(s, c.pid, c.body, c.block);
      if s'.ms == s.ms {
        SameAccepts(s, e, s', r);
      } else {
        var m := Msg(PID_ISR, Isr, s.pids[c.pid], s.ms.uid, c.body);
        assert Sent(s, s', s.pids[c.pid], m);
        GrewAccepts(s, e, s', s.pids[c.pid], m, r);
      }
    } else {
      AnswerEffect(s, e, c.pid, c.reply);
      SameAccepts(s, e, s', r);
    }
  }

  /** Every message is signed by the thread, or by the interrupt handler, that sends it. */
  lemma AcceptedSigned(s: State, e: Event, r: Tid)
    requires KernelInv(s) && Enabled(s, e)
    ensures Accepts(s, e, Step(s, e), r)
  {
    hide KernelInv, Enabled, Step, Accepts, MutexOnly, MsgOnly, MutexQuiet;
    if InMsg(e) {
      match e
      case Thr(c) => CallAccepts(s, c, r);
      case Intr(c) => IsrAccepts(s, c, r);
      case _ =>
    } else {
      StepKeeps(s, e);
      if InMutex(s, e) {
        MutexIsQuiet(s, Step(s, e));
      }
      SameAccepts(s, e, Step(s, e), r);
    }
  }

  // ---- Over runs ----

  /** An accepted message carries the pid of the thread that sent it. */
  predicate NamesSender(s: State, m: Msg) {
    m.src.Thread? ==> m.src.tid in s.ms.ch && m.pid == Get(s.pid, m.src.tid)
  }

  ghost predicate Signed(s: State) {
    forall r, i :: 0 <= i < |ChanOf(s.ms, r).acc| ==> NamesSender(s, ChanOf(s.ms, r).acc[i])
  }

  lemma Grows(s: State, e: Event)
    requires KernelInv(s) && Enabled(s, e)
    ensures TableGrows(s, Step(s, e))
  {
    hide KernelInv, Enabled, Step, MutexQuiet, MsgQuiet, Framed;
    StepKeeps(s, e);
  }

  lemma SignerKnown(s: State, e: Event, m: Msg)
    requires KernelInv(s) && Enabled(s, e) && Signs(s, e, m)
    ensures NamesSender(s, m)
  {
    hide KernelInv, CallOk, IsrOk, Ready;
    if e.Thr? {
      CallerListed(s, s.k.cpu.active.value);
    }
  }

  lemma SignedStep(s: State, e: Event)
    requires KernelInv(s) && Enabled(s, e) && Signed(s)
    ensures Signed(Step(s, e))
  {
    hide KernelInv, Enabled, Step, Signs;
    var s' := Step(s, e);
    Grows(s, e);
    forall r, i | 0 <= i < |ChanOf(s'.ms, r).acc| ensures NamesSender(s', ChanOf(s'.ms, r).acc[i]) {
      AcceptedSigned(s, e, r);
      var m := ChanOf(s'.ms, r).acc[i];
      if i < |ChanOf(s.ms, r).acc| {
        assert m == ChanOf(s.ms, r).acc[i];
      } else {
        SignerKnown(s, e, m);
      }
    }
  }

  lemma {:induction false} SignedRun(s: State, es: seq<Event>)
    requires KernelInv(s) && Valid(s, es) && Signed(s)
    ensures Signed(After(s, es))
    decreases |es|
  {
    hide KernelInv, Enabled, Step, Sorts, Signed;
    if es != [] {
      StepKeeps(s, es[0]);
      SignedStep(s, es[0]);
      SignedRun(Step(s, es[0]), es[1..]);
    }
  }

  /**
    After every run, every message accepted for anybody carries the pid of the thread that sent
    it; and as long as that thread is not stopped, the thread table leads from that pid to it.
  */
  lemma MessagesNameSender(s: State, r: Tid, m: Msg)
    requires Reachable(s) && m in ChanOf(s.ms, r).acc && m.src.Thread?
    ensures m.pid == Get(s.pid, m.src.tid)
    ensures !St(s.k, m.src.tid).Stopped? ==> m.pid in s.pids && s.pids[m.pid] == m.src.tid
  {
    hide KernelInv, Valid, After, Signed;
    var t: Tid, prio: nat, es: seq<Event> :| prio < PRIO_LEVELS && Valid(Init(t, prio), es) && s == After(Init(t, prio), es);
    InitOk(t, prio);
    InitSigned(t, prio);
    SignedRun(Init(t, prio), es);
    PidsUnique(s);
    SignedAt(s, r, m);
  }

  lemma InitSigned(t: Tid, prio: nat)
    ensures Signed(Init(t, prio))
  {
  }

  lemma SignedAt(s: State, r: Tid, m: Msg)
    requires Signed(s) && m in ChanOf(s.ms, r).acc
    ensures NamesSender(s, m)
  {
    var i :| 0 <= i < |ChanOf(s.ms, r).acc| && ChanOf(s.ms, r).acc[i] == m;
    assert NamesSender(s, ChanOf(s.ms, r).acc[i]);
  }

  // ---- Request and reply ----

  lemma RequestOf(s: State, t: Tid)
    requires KernelInv(s) && St(s.k, t).ReplyBlocked?
    ensures WaitOf(s.wait, t).Buffer?
    ensures var m := WaitOf(s.wait, t).m; m.src == Thread(t) && m in ChanOf(s.ms, m.dst).acc
  {
    hide SchedOk, MutexSpec.MutexOk, FlagInv, MboxSpec.MboxInv, Tabled, ChansOk, ReceiversOk, FullOk, SendersOk, OrderOk;
  }

  /**
    In every reachable state a thread that waits for a reply has its request in its buffer, and
    the pid in that request, which is what its receiver replies to, leads back to it. Once the
    request has left the sender list, a reply to that pid, by a thread or an interrupt handler,
    returns 1, makes the thread PENDING and puts the reply into its buffer.
  */
  lemma ReplyReaches(s: State, t: Tid, e: Event, reply: Msg)
    requires Reachable(s) && St(s.k, t).ReplyBlocked?
    ensures WaitOf(s.wait, t).Buffer?
    ensures var m := WaitOf(s.wait, t).m;
      && m.src == Thread(t) && m in ChanOf(s.ms, m.dst).acc && m.pid in s.pids && s.pids[m.pid] == t
      && (t !in s.k.q.on ==> m in ChanOf(s.ms, m.dst).dlv + ChanOf(s.ms, m.dst).queue && ReplyAllowed(s, m.pid))
      && (Enabled(s, e) && (e == Thr(MsgReply(m.pid, reply)) || e == Intr(MsgReply(m.pid, reply))) ==>
            var s' := Step(s, e);
            s'.ret == Ret.Int(1) && St(s'.k, t).Pending? && WaitOf(s'.wait, t) == Buffer(reply))
  {
    hide KernelInv, Reachable, Enabled, Step;
    ReachableInv(s);
    RequestOf(s, t);
    var m := WaitOf(s.wait, t).m;
    MessagesNameSender(s, m.dst, m);
    if t !in s.k.q.on {
      CopiedOut(s, t);
    }
    if Enabled(s, e) && (e == Thr(MsgReply(m.pid, reply)) || e == Intr(MsgReply(m.pid, reply))) {
      AnswerEffect(s, e, m.pid, reply);
    }
  }

  lemma CopiedOut(s: State, t: Tid)
    requires KernelInv(s) && St(s.k, t).ReplyBlocked? && t !in s.k.q.on
    ensures WaitOf(s.wait, t).Buffer?
    ensures var m := WaitOf(s.wait, t).m; m in ChanOf(s.ms, m.dst).dlv + ChanOf(s.ms, m.dst).queue
  {
    hide SchedOk, MutexSpec.MutexOk, FlagInv, MsgInv, MboxSpec.MboxInv, Tabled;
    RequestCopiedOut(s, t);
  }
}
