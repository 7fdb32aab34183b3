/** A request is answered at most once. */
module ReplyRuns {
  import opened Wrappers
  import opened Sched
  import opened Reschedule
  import opened KernelState
  import opened FlagSpec
  import opened MsgSpec
  import opened MsgSteps
  import opened Kernel
  import opened KernelSteps
  import opened Runs
  import opened MsgRuns

  /** The step is a call of `msg_send_receive` by `t`. */
  predicate Requests(s: State, e: Event, t: Tid) {
    e.Thr? && e.call.MsgSendReceive? && s.k.cpu.active == Some(t)
  }

  lemma BlockCaller(s: State, a: Tid, r: Tid, m: Msg)
    requires Inv(s.k) && CanBlock(s.k, a) && !St(s.k, a).ReplyBlocked?
    ensures !St(SendBlock(s, a, r, m).k, a).ReplyBlocked?
  {
    hide LinksOk, MatchOk, NotifyWake, Notified, Owes, Block, CanBlock, InsertPos;
    BlockOk(s.k, a, SendBlocked, Some(SendQ(r)));
    NotifyStatus(Block(s.k, a, SendBlocked, Some(SendQ(r))), s.fl, s.wait[a := Buffer(m)], r, YieldHigher);
  }

  lemma SendCaller(s: State, a: Tid, pid: nat, body: int, block: bool)
    requires SchedOk(s.k) && MsgInv(s) && Calling(s, a) && !St(s.k, a).ReplyBlocked?
    ensures !St(Send(s, a, pid, body, block).k, a).ReplyBlocked?
  {
    hide Inv, Act, MsgOk, MsgOkBut, CanBlock, SendDirect, SendQueue, SendBlock, Room;
    CallerCanSend(s, a);
    if PidOf(s, a) == pid {
      QueueStill(s, a, NewMsg(s, a, a, body), Nothing, a + 1);
    } else if pid in s.pids {
      var r := s.pids[pid];
      var m := NewMsg(s, a, r, body);
      if St(s.k, r).ReceiveBlocked? {
        DirectStill(s, r, m, a + 1);
      } else if Room(s.ms, r) {
        QueueStill(s, r, m, IfRequested, a + 1);
      } else if block {
        BlockCaller(s, a, r, m);
      }
    }
  }

  lemma ReceiveCaller(s: State, a: Tid, block: bool)
    requires SchedOk(s.k) && Calling(s, a) && !St(s.k, a).ReplyBlocked?
    ensures !St(Receive(s, a, block).k, a).ReplyBlocked?
  {
    hide Inv, Act, ReleaseSender, Owes, SenderOwe, SenderMsg, SenderWait, Block, Only;
    AwaitMsgSched(s.k, a);
    if L(s.k.q, SendQ(a)) != [] {
      ReleaseStill(s, a, SenderOwe(s.k, L(s.k.q, SendQ(a))[0]), a);
    }
  }

  lemma MsgCaller(s: State, a: Tid, c: Call)
    requires KernelInv(s) && Calling(s, a) && MsgCall(c) && CallOk(s, a, c) && !c.MsgSendReceive?
    ensures !St(MsgStep(s, a, c).k, a).ReplyBlocked?
  {
    hide SchedOk, MutexSpec.MutexOk, FlagInv, MsgInv, MboxSpec.MboxInv, Tabled, StillWaiting, Send, SendReceive, Receive, Reply;
    CallerNotWaiting(s, a);
    match c
    case MsgSend(pid, body, block) => SendCaller(s, a, pid, body, block);
    case MsgReceive(block) => ReceiveCaller(s, a, block);
    case MsgReply(pid, reply) => ReplyCaller(s, pid, reply, a);
    case _ =>
  }

  lemma ReplyCaller(s: State, pid: nat, reply: Msg, t: Tid)
    requires SchedOk(s.k) && InContext(s.k) && ReplyAllowed(s, pid) && !St(s.k, t).ReplyBlocked?
    ensures !St(Reply(s, s.pids[pid], reply).k, t).ReplyBlocked?
  {
    hide SchedOk, Reply;
    ReplyEffect(s, pid, reply);
    if t == s.pids[pid] {
      NoReply(s, t, reply);
    }
  }

  /** A reply to a thread that does not wait for one fails and changes nothing. */
  lemma NoReply(s: State, t: Tid, reply: Msg)
    requires !St(s.k, t).ReplyBlocked?
    ensures Reply(s, t, reply) == s.(ret := Ret.Int(-1))
  {
  }

  lemma ThreadStarts(s: State, a: Tid, c: Call, t: Tid)
    requires KernelInv(s) && Calling(s, a) && MsgCall(c) && CallOk(s, a, c) && !St(s.k, t).ReplyBlocked?
    requires !(c.MsgSendReceive? && t == a)
    ensures !St(MsgStep(s, a, c).k, t).ReplyBlocked?
  {
    hide SchedOk, MutexSpec.MutexOk, FlagInv, MsgInv, MboxSpec.MboxInv, Tabled, Send, SendReceive, Receive, InitQueue, Reply;
    if t == a {
      MsgCaller(s, a, c);
    } else if c.MsgReply? {
      ReplyCaller(s, c.pid, c.reply, t);
    } else {
      MsgCallStill(s, a, c);
    }
  }

  lemma IsrStarts(s: State, c: Call, t: Tid)
    requires KernelInv(s) && s.k.cpu.isr && MsgCall(c) && IsrOk(s, c) && !St(s.k, t).ReplyBlocked?
    ensures !St(IsrMsgStep(s, c).k, t).ReplyBlocked?
  {
    hide SchedOk, MutexSpec.MutexOk, FlagInv, MsgInv, MboxSpec.MboxInv, Tabled, SendIsr, Reply;
    if c.MsgReply? {
      ReplyCaller(s, c.pid, c.reply, t);
    } else {
      SendIsrStill(s, c.pid, c.body, t + 1);
    }
  }

  /** A thread gets into REPLY_BLOCKED only by its own call of `msg_send_receive`. */
  lemma OnlyRequestStarts(s: State, e: Event, t: Tid)
    requires KernelInv(s) && Enabled(s, e) && !St(s.k, t).ReplyBlocked? && !Requests(s, e, t)
    ensures !St(Step(s, e).k, t).ReplyBlocked?
  {
    hide SchedOk, MutexSpec.MutexOk, FlagInv, MsgInv, MboxSpec.MboxInv, Tabled, MutexOnly, MsgOnly, MutexQuiet;
    hide MutexStep, IsrMutexStep, Resume, MsgStep, IsrMsgStep, ThreadStep, FlagMboxStep, IsrOtherStep, IsrEnter, IsrExit, SchedRun;
    hide CallOk, IsrOk;
    if InMsg(e) {
      match e
      case Thr(c) => ThreadStarts(s, s.k.cpu.active.value, c, t);
      case Intr(c) => IsrStarts(s, c, t);
      case _ =>
    } else {
      StepKeeps(s, e);
      if InMutex(s, e) {
        MutexIsQuiet(s, Step(s, e));
      }
    }
  }

  /** `t` makes no request in the whole run. */
  predicate NoRequest(s: State, es: seq<Event>, t: Tid)
    decreases |es|
  {
    es == [] || (!Requests(s, es[0], t) && NoRequest(Step(s, es[0]), es[1..], t))
  }

  lemma {:induction false} StaysAnswered(s: State, es: seq<Event>, t: Tid)
    requires KernelInv(s) && Valid(s, es) && !St(s.k, t).ReplyBlocked? && NoRequest(s, es, t)
    ensures !St(After(s, es).k, t).ReplyBlocked?
    decreases |es|
  {
    hide KernelInv, Enabled, Step, Sorts, Requests;
    if es != [] {
      StepKeeps(s, es[0]);
      OnlyRequestStarts(s, es[0], t);
      StaysAnswered(Step(s, es[0]), es[1..], t);
    }
  }

  /** After a reply, every further reply fails and changes nothing, until the thread's next request. */
  lemma SecondReplyFails(s: State, e: Event, es: seq<Event>, t: Tid, reply: Msg)
    requires KernelInv(s) && Enabled(s, e) && St(s.k, t).ReplyBlocked?
    requires ReplyTo(s, e).Some? && ReplyTo(s, e).value.0 == t
    requires Valid(Step(s, e), es) && NoRequest(Step(s, e), es, t)
    ensures var s' := After(Step(s, e), es); Reply(s', t, reply) == s'.(ret := Ret.Int(-1))
  {
    hide KernelInv, Enabled, Step, Sorts, Reply, ReplyTo, Valid, After, NoRequest;
    StepKeeps(s, e);
    OnlyReplyEnds(s, e, t);
    StaysAnswered(Step(s, e), es, t);
    NoReply(After(Step(s, e), es), t, reply);
  }
}
