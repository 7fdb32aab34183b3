/**
  Nobody but the running thread itself can block a thread that can run, or write its buffer:
  what a thread was given while it was blocked is there when it runs again.
*/
module Buffers {
  import opened Wrappers
  import opened Queues
  import opened Sched
  import opened Reschedule
  import opened KernelState
  import opened MutexSpec
  import opened FlagSpec
  import opened MsgSpec
  import opened MsgSteps
  import opened MboxSpec
  import opened ThreadSpec
  import opened Kernel
  import opened KernelSteps
  import opened Remainders
  import opened Runs
  import opened CondRuns
  import opened LockRuns
  import opened LockCalls
  import opened FlagRuns
  import opened FlagCalls
  import opened MsgRuns
  import opened MsgCalls
  import opened MboxCalls
  import opened ThreadCalls

  /** `t` can still run, and has the same buffer and the same messages. */
  predicate Settled(s: State, s': State, t: Tid) {
    && OnRunqueue(St(s'.k, t)) && WaitOf(s'.wait, t) == WaitOf(s.wait, t)
    && ChanOf(s'.ms, t).dlv == ChanOf(s.ms, t).dlv
  }

  // ---- Mutexes ----

  lemma CallWakes(s: State, c: Call, t: Tid)
    requires KernelInv(s) && Enabled(s, Thr(c)) && MutexCall(c) && t != s.k.cpu.active.value
    ensures Woken(s, Step(s, Thr(c)), t)
  {
    hide KernelInv, Ready, Lock, LockCancelable, Unlock, UnlockAndSleep, CondWait, Cancel, Signal;
    var a, e := s.k.cpu.active.value, Thr(c);
    InCtx(s, e);
    match c
    case MutexLock(m, block) => LockOthers(s, a, m, block, t);
    case MutexLockCancelable(x) => CancelableOthers(s, a, x, t);
    case MutexUnlock(m) => UnlockResult(s, e, m, t);
    case MutexUnlockAndSleep(m) => UnlockAndSleepResult(s, m, t);
    case MutexCancelInit(x, m) =>
    case MutexCancel(x) => CancelResult(s, e, x);
    case CondWaiting(d, m) => CondWaitResult(s, d, m, t);
    case CondSignal(d, broadcast) => SignalWakesFirst(s, d, broadcast);
  }

  lemma IsrWakes(s: State, c: Call, t: Tid)
    requires KernelInv(s) && Enabled(s, Intr(c)) && MutexCall(c)
    ensures Woken(s, Step(s, Intr(c)), t)
  {
    hide KernelInv, Unlock, Cancel, Signal;
    var e := Intr(c);
    InCtx(s, e);
    match c
    case MutexUnlock(m) => UnlockResult(s, e, m, t);
    case MutexCancel(x) => CancelResult(s, e, x);
    case CondSignal(d, broadcast) => SignalWakesFirst(s, d, broadcast);
    case _ =>
  }

  lemma ResumeWakes(s: State, t: Tid)
    requires Enabled(s, Continue) && InMutex(s, Continue) && t != s.k.cpu.active.value
    ensures Woken(s, Step(s, Continue), t)
  {
    hide Lock, LockReturn, PutReturn, FlagReturn, Pay;
    var a := s.k.cpu.active.value;
    if Co(s, a).Relock? {
      LockOthers(s, a, Co(s, a).mutex, true, t);
    } else {
      ReturnSched(s, a);
    }
  }

  lemma MutexSettles(s: State, e: Event, t: Tid)
    requires KernelInv(s) && Enabled(s, e) && InMutex(s, e) && OnRunqueue(St(s.k, t)) && !Acts(s, e, t)
    ensures Settled(s, Step(s, e), t)
  {
    hide KernelInv, Step, Framed;
    StepKeeps(s, e);
    match e
    case Thr(c) => CallWakes(s, c, t);
    case Intr(c) => IsrWakes(s, c, t);
    case Continue => ResumeWakes(s, t);
    case _ =>
  }

  // ---- Messages ----

  /** Nothing happened to `t`. */
  predicate Kept(s: State, s': State, t: Tid) {
    St(s'.k, t) == St(s.k, t) && WaitOf(s'.wait, t) == WaitOf(s.wait, t) && ChanOf(s'.ms, t).dlv == ChanOf(s.ms, t).dlv
  }

  /** `t`, which was blocked in receive, has exactly one more message, and it is in its buffer. */
  predicate Got(s: State, s': State, t: Tid) {
    var dlv, dlv' := ChanOf(s.ms, t).dlv, ChanOf(s'.ms, t).dlv;
    && St(s.k, t).ReceiveBlocked? && St(s'.k, t).Pending?
    && |dlv'| == |dlv| + 1 && dlv' == dlv + [dlv'[|dlv|]] && WaitOf(s'.wait, t) == Buffer(dlv'[|dlv|])
  }

  /** A thread that can run or is blocked in receive. */
  predicate Idle(st: Status) {
    OnRunqueue(st) || st.ReceiveBlocked?
  }

  lemma DirectOthers(s: State, r: Tid, m: Msg, t: Tid)
    requires St(s.k, r).ReceiveBlocked?
    ensures var s' := SendDirect(s, r, m); if t == r then Got(s, s', t) else Kept(s, s', t)
  {
    hide SetStatus, Owes;
    RousedStatus(s.k, r, Pending, YieldHigher);
  }

  lemma QueueOthers(s: State, r: Tid, m: Msg, o: Owe, t: Tid)
    requires Idle(St(s.k, t))
    ensures Kept(s, SendQueue(s, r, m, o), t)
  {
    hide NotifyWake, Notified, Owes;
    QueueFrame(s, r, m, o);
    assert OnlyWoke(s, SendQueue(s, r, m, o), t + 1, r);
  }

  lemma BlockOthers(s: State, a: Tid, r: Tid, m: Msg, t: Tid)
    requires Idle(St(s.k, t)) && t != a && r != a
    ensures Kept(s, SendBlock(s, a, r, m), t)
  {
    hide NotifyWake, Notified, Owes, Block;
    BlockFrame(s, a, r, m);
  }

  lemma CoreOthers(s: State, a: Tid, r: Tid, m: Msg, block: bool, t: Tid)
    requires Idle(St(s.k, t)) && t != a && r != a
    ensures var s' := SendCore(s, a, r, m, block); Kept(s, s', t) || Got(s, s', t)
  {
    hide SendDirect, SendQueue, SendBlock, Kept, Got, Room;
    KeptRet(s, Ret.Int(0), t);
    if St(s.k, r).ReceiveBlocked? {
      DirectOthers(s, r, m, t);
    } else if Room(s.ms, r) {
      QueueOthers(s, r, m, IfRequested, t);
    } else if block {
      BlockOthers(s, a, r, m, t);
    }
  }

  lemma KeptRet(s: State, ret: Ret, t: Tid)
    ensures Kept(s, s.(ret := ret), t)
  {
  }

  lemma SendOthers(s: State, a: Tid, pid: nat, body: int, block: bool, t: Tid)
    requires KernelInv(s) && Idle(St(s.k, t)) && t != a
    ensures var s' := Send(s, a, pid, body, block); Kept(s, s', t) || Got(s, s', t)
  {
    hide KernelInv, SendQueue, SendCore, Kept, Got, Room, NewMsg;
    KeptRet(s, Ret.Int(0), t);
    KeptRet(s, Ret.Int(-1), t);
    if PidOf(s, a) == pid {
      QueueOthers(s, a, NewMsg(s, a, a, body), Nothing, t);
    } else if pid in s.pids {
      TableUnique(s, pid);
      CoreOthers(s, a, s.pids[pid], NewMsg(s, a, s.pids[pid], body), block, t);
    }
  }

  lemma SendIsrOthers(s: State, pid: nat, body: int, t: Tid)
    requires Idle(St(s.k, t))
    ensures var s' := SendIsr(s, pid, body); Kept(s, s', t) || Got(s, s', t)
  {
    hide SendDirect, SendQueue, Kept, Got, Room;
    KeptRet(s, Ret.Int(0), t);
    KeptRet(s, Ret.Int(-1), t);
    if pid in s.pids {
      var r := s.pids[pid];
      var m := Msg(PID_ISR, Isr, r, s.ms.uid, body);
      if St(s.k, r).ReceiveBlocked? {
        DirectOthers(s, r, m, t);
      } else {
        QueueOthers(s, r, m, Nothing, t);
      }
    }
  }

  lemma RequestOthers(s: State, a: Tid, pid: nat, body: int, t: Tid)
    requires KernelInv(s) && Idle(St(s.k, t)) && t != a && pid in s.pids && pid != Get(s.pid, a)
    ensures var s' := SendReceive(s, a, pid, body); Kept(s, s', t) || Got(s, s', t)
  {
    hide KernelInv, SendCore, SetStatus;
    TableUnique(s, pid);
    var m := NewMsg(s, a, s.pids[pid], body);
    var s1 := AwaitReply(s, a, m);
    AwaitStatus(s, a, m);
    CoreOthers(s1, a, s.pids[pid], m, true, t);
  }

  lemma ReceiveOthers(s: State, a: Tid, block: bool, t: Tid)
    requires SchedOk(s.k) && Calling(s, a) && Idle(St(s.k, t)) && t != a
    ensures Kept(s, Receive(s, a, block), t)
  {
    hide SchedOk, Calling, TakeFromSender, TakeAndRefill, AwaitMsg;
    if L(s.k.q, SendQ(a)) == [] {
      AwaitOthers(s, a, t);
    } else {
      TakeOthers(s, a, t);
    }
  }

  lemma AwaitOthers(s: State, a: Tid, t: Tid)
    requires t != a
    ensures Kept(s, AwaitMsg(s, a), t)
  {
    hide Owes, Block;
    BlockStatus(s.k, a, ReceiveBlocked, None);
    OwesStatus(Block(s.k, a, ReceiveBlocked, None), YieldHigher);
  }

  lemma TakeOthers(s: State, a: Tid, t: Tid)
    requires SchedOk(s.k) && Calling(s, a) && Idle(St(s.k, t)) && t != a && L(s.k.q, SendQ(a)) != []
    ensures Kept(s, TakeFromSender(s, a), t)
    ensures ChanOf(s.ms, a).queue != [] ==> Kept(s, TakeAndRefill(s, a), t)
  {
    hide SchedOk, Calling, ReleaseSender, Owes, SenderOwe, SenderMsg;
    var w := L(s.k.q, SendQ(a))[0];
    ReleasedSender(s, a, SenderOwe(s.k, w));
    SenderNotIdle(s, a);
    assert w != t;
  }

  /** The first sender waits to send, or for a reply. */
  lemma SenderNotIdle(s: State, a: Tid)
    requires SchedOk(s.k) && L(s.k.q, SendQ(a)) != []
    ensures !Idle(St(s.k, L(s.k.q, SendQ(a))[0]))
  {
    hide Act, SortedOk, BitsOk, NoDup;
    var w := L(s.k.q, SendQ(a))[0];
    assert w in s.k.q.lists[SendQ(a)];
    assert Matches(s.k.status[w], OnOf(s.k.q.on, w), Pr(s.k, w));
  }

  lemma MsgOthers(s: State, e: Event, t: Tid)
    requires KernelInv(s) && Enabled(s, e) && InMsg(e) && Idle(St(s.k, t)) && (e.Thr? ==> s.k.cpu.active != Some(t))
    ensures Kept(s, Step(s, e), t) || Got(s, Step(s, e), t)
  {
    hide KernelInv, Ready, Kept, Got, Send, SendIsr, SendReceive, Receive, InitQueue, Reply;
    var c := e.call;
    if c.MsgReply? {
      AnswerEffect(s, e, c.pid, c.reply);
      ReplyKept(s, e, c.pid, c.reply, t);
    } else if e.Intr? {
      SendIsrOthers(s, c.pid, c.body, t);
    } else {
      var a := s.k.cpu.active.value;
      match c
      case MsgSend(pid, body, block) => SendOthers(s, a, pid, body, block, t);
      case MsgSendReceive(pid, body) => RequestOthers(s, a, pid, body, t);
      case MsgReceive(block) => Scheduled(s); ReceiveOthers(s, a, block, t);
      case MsgInitQueue(n) => InitOthers(s, n, t);
    }
  }

  lemma InitOthers(s: State, n: nat, t: Tid)
    requires Enabled(s, Thr(MsgInitQueue(n))) && s.k.cpu.active != Some(t)
    ensures Kept(s, Step(s, Thr(MsgInitQueue(n))), t)
  {
    hide Step;
    InitQueueEffect(s, n);
  }

  lemma ReplyKept(s: State, e: Event, pid: nat, reply: Msg, t: Tid)
    requires Enabled(s, e) && (e == Thr(MsgReply(pid, reply)) || e == Intr(MsgReply(pid, reply))) && Idle(St(s.k, t))
    ensures Kept(s, Step(s, e), t)
  {
    hide Step, Enabled;
    AnswerEffect(s, e, pid, reply);
  }

  /**
    A thread blocked in `msg_receive` stays there with nothing delivered, or gets exactly one
    message, which is then in its buffer, and is PENDING.
  */
  lemma ReceiveStep(s: State, e: Event, t: Tid)
    requires KernelInv(s) && Enabled(s, e) && St(s.k, t).ReceiveBlocked?
    ensures Kept(s, Step(s, e), t) || Got(s, Step(s, e), t)
  {
    hide KernelInv, Step, MutexOnly, MsgOnly, MutexQuiet, Got;
    if InMsg(e) {
      if e.Thr? {
        CallerListed(s, s.k.cpu.active.value);
      }
      MsgOthers(s, e, t);
    } else {
      StepKeeps(s, e);
      if InMutex(s, e) {
        MutexIsQuiet(s, Step(s, e));
      }
    }
  }

  // ---- The other calls ----

  /** `t` can still run, and has the same buffer. */
  predicate Same(s: State, s': State, t: Tid) {
    OnRunqueue(St(s'.k, t)) && WaitOf(s'.wait, t) == WaitOf(s.wait, t)
  }

  lemma FlagClears(s: State, a: Tid, mask: bv16)
    ensures FlagsClear(s, a, mask).k == s.k && FlagsClear(s, a, mask).wait == s.wait
  {
    hide Without, Masked;
  }

  lemma FlagReturnSame(s: State, a: Tid, t: Tid)
    requires OnRunqueue(St(s.k, t))
    ensures Same(s, FlagReturn(s, a), t)
  {
    hide FlagsClear, LowestFlag, Masked;
    match Co(s, a)
    case ClearAny(mask) => FlagClears(s, a, mask);
    case ClearOne(_, bit) => FlagClears(s, a, bit);
    case ClearAll(mask) => FlagClears(s, a, mask);
    case _ =>
  }

  lemma FlagWaitSame(s: State, a: Tid, mask: bv16, st: Status, c: Cont, t: Tid)
    requires OnRunqueue(St(s.k, t)) && t != a
    ensures Same(s, FlagWait(s, a, mask, st, c), t)
  {
    hide Owes, Block;
    BlockStatus(s.k, a, st, None);
    OwesStatus(Block(s.k, a, st, None), YieldHigher);
  }

  lemma FlagCallSame(s: State, c: Call, t: Tid)
    requires KernelInv(s) && Enabled(s, Thr(c)) && OnRunqueue(St(s.k, t)) && s.k.cpu.active != Some(t)
    requires c.FlagSet? || c.FlagClear? || c.FlagWaitAny? || c.FlagWaitAll?
    ensures Same(s, Step(s, Thr(c)), t)
  {
    hide KernelInv, Ready, FlagsSet, FlagsClear, WaitAny, WaitAll, FlagSets.SetOf, Satisfied;
    var a := s.k.cpu.active.value;
    match c
    case FlagSet(u, mask) => SetResult(s, Thr(c), u, mask);
    case FlagClear(mask) => FlagClears(s, a, mask);
    case FlagWaitAny(mask, one) => WaitsSame(s, a, mask, one, t);
    case FlagWaitAll(mask) => WaitsSame(s, a, mask, false, t);
  }

  lemma WaitsSame(s: State, a: Tid, mask: bv16, one: bool, t: Tid)
    requires OnRunqueue(St(s.k, t)) && t != a
    ensures Same(s, WaitAny(s, a, mask, one), t) && Same(s, WaitAll(s, a, mask), t)
  {
    hide FlagWait, Any, All;
    FlagWaitSame(s, a, mask, FlagBlockedAny, if one then ReadOne(mask) else ClearAny(mask), t);
    FlagWaitSame(s, a, mask, FlagBlockedAll, ClearAll(mask), t);
  }

  lemma PutSame(s: State, e: Event, b: nat, m: Msg, block: bool, t: Tid)
    requires KernelInv(s) && Enabled(s, e) && OnRunqueue(St(s.k, t)) && !Acts(s, e, t)
    requires e == Thr(MboxPut(b, m, block)) || (e.Intr? && e.call.MboxPut? && e.call.b == b && e.call.msg == m && !block)
    ensures Same(s, Step(s, e), t)
  {
    hide KernelInv, Enabled, Step, OnlyBox;
    PutEffect(s, e, b, m, block);
  }

  lemma GetSame(s: State, e: Event, b: nat, block: bool, t: Tid)
    requires KernelInv(s) && Enabled(s, e) && OnRunqueue(St(s.k, t)) && !Acts(s, e, t)
    requires e == Thr(MboxGet(b, block)) || (e.Intr? && e.call.MboxGet? && e.call.b == b && !block)
    ensures Same(s, Step(s, e), t)
  {
    hide KernelInv, Enabled, Step, OnlyBox;
    GetEffect(s, e, b, block);
  }

  lemma WakeupSame(s: State, e: Event, pid: nat, t: Tid)
    requires KernelInv(s) && Enabled(s, e) && OnRunqueue(St(s.k, t))
    requires e == Thr(ThreadWakeup(pid)) || e == Intr(ThreadWakeup(pid))
    ensures Same(s, Step(s, e), t)
  {
    hide KernelInv, Enabled, Step;
    WakeupResult(s, e, pid);
  }

  lemma KillSame(s: State, e: Event, pid: nat, t: Tid)
    requires Enabled(s, e) && OnRunqueue(St(s.k, t))
    requires e == Thr(ThreadKillZombie(pid)) || e == Intr(ThreadKillZombie(pid))
    ensures Same(s, Step(s, e), t)
  {
    hide Enabled, Step;
    KillZombieResult(s, e, pid);
  }

  lemma ThreadOpWait(s: State, c: Call)
    requires Enabled(s, Thr(c)) && (c.ThreadSleep? || c.ThreadZombify? || c.ThreadExit?)
    ensures Step(s, Thr(c)).wait == s.wait
  {
    hide Ready, Owes, Block, SetStatus, SchedRun;
  }

  lemma CreateSame(s: State, t0: Tid, prio: nat, how: Start, flags: bv16, t: Tid)
    requires KernelInv(s) && Enabled(s, Thr(ThreadCreate(t0, prio, how, flags))) && OnRunqueue(St(s.k, t))
    ensures Same(s, Step(s, Thr(ThreadCreate(t0, prio, how, flags))), t)
  {
    hide KernelInv, Step, Ready;
    CreateResult(s, t0, prio, how, flags);
    assert t != t0;
  }

  lemma ThreadOpSame(s: State, c: Call, t: Tid)
    requires KernelInv(s) && Enabled(s, Thr(c)) && ThreadOp(c) && OnRunqueue(St(s.k, t)) && s.k.cpu.active != Some(t)
    ensures Same(s, Step(s, Thr(c)), t)
  {
    hide KernelInv, Enabled, Step, Movable;
    HasActive(s, c);
    match c {
      case ThreadYield(rotate) => YieldSame(s, rotate, t);
      case ThreadSleep => SleepResult(s, c); ThreadOpWait(s, c);
      case ThreadZombify => SleepResult(s, c); ThreadOpWait(s, c);
      case ThreadWakeup(pid) => WakeupSame(s, Thr(c), pid, t);
      case ThreadKillZombie(pid) => KillSame(s, Thr(c), pid, t);
      case ThreadExit => ExitResult(s); ThreadOpWait(s, c);
      case ThreadCreate(t0, prio, how, flags) => CreateSame(s, t0, prio, how, flags, t);
      case ThreadPriority(t0, prio) => PriorityResult(s, t0, prio);
    }
  }

  lemma HasActive(s: State, c: Call)
    requires Enabled(s, Thr(c))
    ensures s.k.cpu.active.Some?
  {
  }

  lemma YieldSame(s: State, rotate: bool, t: Tid)
    requires OnRunqueue(St(s.k, t))
    ensures Same(s, Step(s, Thr(ThreadYield(rotate))), t)
  {
    hide Owes;
    OwesStatus(s.k, if rotate then YieldRotate else YieldHigher);
  }

  lemma IsrSame(s: State, c: Call, t: Tid)
    requires KernelInv(s) && Enabled(s, Intr(c)) && !MutexCall(c) && !MsgCall(c) && OnRunqueue(St(s.k, t))
    ensures Same(s, Step(s, Intr(c)), t)
  {
    hide KernelInv, Step, FlagSets.SetOf, Satisfied;
    var e := Intr(c);
    if c.FlagSet? {
      SetResult(s, e, c.t, c.mask);
    } else if c.MboxPut? {
      PutSame(s, e, c.b, c.msg, false, t);
    } else if c.MboxGet? {
      GetSame(s, e, c.b, false, t);
    } else if c.ThreadWakeup? {
      WakeupSame(s, e, c.pid, t);
    } else {
      KillSame(s, e, c.pid, t);
    }
  }

  lemma SchedulingSame(s: State, k': Sched, t: Tid)
    requires OnlyScheduling(s.k, k') && OnRunqueue(St(s.k, t))
    ensures Same(s, s.(k := k'), t)
  {
  }

  lemma SystemSame(s: State, e: Event, t: Tid)
    requires KernelInv(s) && Enabled(s, e) && (e.Enter? || e.Leave? || e.Wake?) && OnRunqueue(St(s.k, t))
    ensures Same(s, Step(s, e), t)
  {
    hide Inv, Act, MutexOk, FlagInv, MsgInv, MboxInv, Tabled, OnlyScheduling, IsrEnter, IsrExit, SchedRun, ThreadCall, IsrCall, Resume;
    match e
    case Enter =>
      EnterOk(s.k);
      SchedulingSame(s, IsrEnter(s.k), t);
    case Leave =>
      IsrExitOk(s.k);
      SchedulingSame(s, IsrExit(s.k), t);
    case Wake =>
      RunAct(s.k);
      SchedulingSame(s, SchedRun(s.k), t);
  }

  lemma PaySame(s: State, a: Tid, t: Tid)
    requires KernelInv(s) && !s.k.cpu.isr && !s.k.cpu.idle && s.k.cpu.active == Some(a) && OnRunqueue(St(s.k, t))
    ensures Same(s, s.(k := Pay(s.k, a)), t)
  {
    hide Inv, Act, MutexOk, FlagInv, MsgInv, MboxInv, Tabled, Pay, OnlyScheduling;
    PayOk(s.k, a);
    SchedulingSame(s, Pay(s.k, a), t);
  }

  lemma ContinueSame(s: State, t: Tid)
    requires KernelInv(s) && Enabled(s, Continue) && !InMutex(s, Continue) && OnRunqueue(St(s.k, t)) && !Owns(s, Continue, t)
    ensures Same(s, Step(s, Continue), t)
  {
    hide KernelInv, Pay, Lock, LockReturn, PutReturn, FlagReturn, OnlyBox;
    var a := s.k.cpu.active.value;
    if !Ow(s.k, a).Nothing? {
      PaySame(s, a, t);
    } else if Co(s, a).PutRetry? {
      PutGoesOn(s, a, Co(s, a).mbox, Co(s, a).m);
    } else {
      FlagReturnSame(s, a, t);
    }
  }

  /** The step is a call of `t`, or goes on with one. */
  predicate Owns(s: State, e: Event, t: Tid) {
    s.k.cpu.active == Some(t) && (e.Thr? || (e.Continue? && Ow(s.k, t).Nothing? && Co(s, t) != User))
  }

  /** A thread that can run is blocked, its buffer written and messages delivered to it only by its own steps. */
  lemma OnlySelfBlocks(s: State, e: Event, t: Tid)
    requires KernelInv(s) && Enabled(s, e) && OnRunqueue(St(s.k, t)) && !Owns(s, e, t)
    ensures Settled(s, Step(s, e), t)
  {
    hide KernelInv, Step, MutexOnly, MsgOnly, MutexQuiet, Got;
    if InMutex(s, e) {
      MutexSettles(s, e, t);
    } else if InMsg(e) {
      MsgOthers(s, e, t);
      NotGot(s, Step(s, e), t);
    } else {
      StepKeeps(s, e);
      match e
      case Thr(c) =>
        if ThreadOp(c) {
          ThreadOpSame(s, c, t);
        } else if c.MboxPut? {
          PutSame(s, e, c.b, c.msg, c.block, t);
        } else if c.MboxGet? {
          GetSame(s, e, c.b, c.block, t);
        } else if c.MboxInit? {
          InitBoxEffect(s, c.b, c.cap);
        } else {
          FlagCallSame(s, c, t);
        }
      case Intr(c) => IsrSame(s, c, t);
      case Continue => ContinueSame(s, t);
      case _ => SystemSame(s, e, t);
    }
  }

  lemma NotGot(s: State, s': State, t: Tid)
    requires OnRunqueue(St(s.k, t))
    ensures !Got(s, s', t)
  {
  }

  // ---- Calls that blocked, over runs ----

  /** `t` makes no call in the run. */
  predicate NoCall(s: State, es: seq<Event>, t: Tid)
    decreases |es|
  {
    es == [] || (!(es[0].Thr? && s.k.cpu.active == Some(t)) && NoCall(Step(s, es[0]), es[1..], t))
  }

  /** A thread in its own code stays there until its next call. */
  lemma UserStays(s: State, e: Event, t: Tid)
    requires Enabled(s, e) && Co(s, t) == User && !(e.Thr? && s.k.cpu.active == Some(t))
    ensures Co(Step(s, e), t) == User && !Owns(s, e, t)
  {
    hide ThreadCall, IsrCall, IsrEnter, IsrExit, SchedRun, Pay, CallOk, IsrOk, Lock, LockReturn, PutReturn;
    if !Acts(s, e, t) {
      OthersRemain(s, e, t);
    }
  }

  lemma {:induction false} SettledRun(s: State, es: seq<Event>, t: Tid)
    requires KernelInv(s) && Valid(s, es) && NoCall(s, es, t) && Co(s, t) == User && OnRunqueue(St(s.k, t))
    ensures Settled(s, After(s, es), t)
    decreases |es|
  {
    hide KernelInv, Enabled, Step, Sorts, Owns;
    if es != [] {
      StepKeeps(s, es[0]);
      UserStays(s, es[0], t);
      OnlySelfBlocks(s, es[0], t);
      SettledRun(Step(s, es[0]), es[1..], t);
    }
  }

  /** `t` can run, and exactly one more message was delivered to it than `dlv`: the one in its buffer. */
  predicate Has(s: State, t: Tid, dlv: seq<Msg>) {
    var dlv' := ChanOf(s.ms, t).dlv;
    && OnRunqueue(St(s.k, t))
    && |dlv'| == |dlv| + 1 && dlv' == dlv + [dlv'[|dlv|]] && WaitOf(s.wait, t) == Buffer(dlv'[|dlv|])
  }

  lemma {:induction false} ReceiveRun(s: State, es: seq<Event>, t: Tid)
    requires KernelInv(s) && Valid(s, es) && NoCall(s, es, t) && Co(s, t) == User && St(s.k, t).ReceiveBlocked?
    ensures Kept(s, After(s, es), t) || Has(After(s, es), t, ChanOf(s.ms, t).dlv)
    decreases |es|
  {
    hide KernelInv, Enabled, Step, Sorts, Owns;
    if es != [] {
      var s1 := Step(s, es[0]);
      StepKeeps(s, es[0]);
      UserStays(s, es[0], t);
      ReceiveStep(s, es[0], t);
      if Kept(s, s1, t) {
        ReceiveRun(s1, es[1..], t);
      } else {
        SettledRun(s1, es[1..], t);
      }
    }
  }

  /**
    A call of `msg_receive` that blocks: whatever happens until its thread makes its next call,
    either it still waits and nothing was delivered, or exactly one message was, and that one is
    in its buffer.
  */
  lemma ReceiveReturns(s: State, es: seq<Event>)
    requires KernelInv(s) && Enabled(s, Thr(MsgReceive(true))) && St(Step(s, Thr(MsgReceive(true))).k, s.k.cpu.active.value).ReceiveBlocked?
    requires var s1 := Step(s, Thr(MsgReceive(true))); Valid(s1, es) && NoCall(s1, es, s.k.cpu.active.value)
    ensures var a, s' := s.k.cpu.active.value, After(Step(s, Thr(MsgReceive(true))), es);
      || (St(s'.k, a).ReceiveBlocked? && ChanOf(s'.ms, a).dlv == ChanOf(s.ms, a).dlv)
      || Has(s', a, ChanOf(s.ms, a).dlv)
  {
    hide KernelInv, Valid, After, NoCall, Receive, Has;
    var a, s1 := s.k.cpu.active.value, Step(s, Thr(MsgReceive(true)));
    StepKeeps(s, Thr(MsgReceive(true)));
    CallerListed(s, a);
    ReceiveEffect(s, true);
    Remainders.ReceiveStill(s, a, true);
    ReceiveRun(s1, es, a);
  }

  /** The first reply made to `t` in the run. */
  function RepliedIn(s: State, es: seq<Event>, t: Tid): Option<Msg>
    decreases |es|
  {
    if es == [] then None
    else if ReplyTo(s, es[0]).Some? && ReplyTo(s, es[0]).value.0 == t then Some(ReplyTo(s, es[0]).value.1)
    else RepliedIn(Step(s, es[0]), es[1..], t)
  }

  lemma {:induction false} ReplyRun(s: State, es: seq<Event>, t: Tid)
    requires KernelInv(s) && Valid(s, es) && NoCall(s, es, t) && Co(s, t) == User && St(s.k, t).ReplyBlocked?
    ensures var s' := After(s, es);
      match RepliedIn(s, es, t)
      case None => St(s'.k, t).ReplyBlocked? && WaitOf(s'.wait, t) == WaitOf(s.wait, t)
      case Some(reply) => OnRunqueue(St(s'.k, t)) && WaitOf(s'.wait, t) == Buffer(reply)
    decreases |es|
  {
    hide KernelInv, Enabled, Step, Sorts, Owns, ReplyTo;
    if es != [] {
      var s1 := Step(s, es[0]);
      StepKeeps(s, es[0]);
      UserStays(s, es[0], t);
      OnlyReplyEnds(s, es[0], t);
      if ReplyTo(s, es[0]).Some? && ReplyTo(s, es[0]).value.0 == t {
        SettledRun(s1, es[1..], t);
      } else {
        ReplyRun(s1, es[1..], t);
      }
    }
  }

  /**
    A call of `msg_send_receive`: whatever happens until its thread makes its next call, either
    nobody replied and it still waits, with the request in its buffer, or it can run, and its
    buffer holds the first reply that was made to it.
  */
  lemma RequestReturns(s: State, pid: nat, body: int, es: seq<Event>)
    requires KernelInv(s) && Enabled(s, Thr(MsgSendReceive(pid, body)))
    requires var s1 := Step(s, Thr(MsgSendReceive(pid, body))); Valid(s1, es) && NoCall(s1, es, s.k.cpu.active.value)
    ensures var a, s1 := s.k.cpu.active.value, Step(s, Thr(MsgSendReceive(pid, body)));
      var s' := After(s1, es);
      match RepliedIn(s1, es, a)
      case None => St(s'.k, a).ReplyBlocked? && WaitOf(s'.wait, a) == WaitOf(s1.wait, a)
      case Some(reply) => OnRunqueue(St(s'.k, a)) && WaitOf(s'.wait, a) == Buffer(reply)
  {
    hide KernelInv, Valid, After, NoCall, SendReceive, RepliedIn, Sent;
    var a, s1 := s.k.cpu.active.value, Step(s, Thr(MsgSendReceive(pid, body)));
    StepKeeps(s, Thr(MsgSendReceive(pid, body)));
    RequestEffect(s, pid, body);
    Remainders.SendReceiveStill(s, a, pid, body);
    ReplyRun(s1, es, a);
  }
}
