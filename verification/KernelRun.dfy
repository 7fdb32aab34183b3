/**
  The kernel object runs: from a state that meets the kernel's invariant, each event that is
  allowed makes it take exactly the step of the state machine, so that whatever holds of every
  run of that machine holds of the object.
*/
module KernelRun {
  import opened Wrappers
  import opened Sched
  import opened Reschedule
  import opened KernelState
  import opened MutexSpec
  import opened FlagSpec
  import opened MsgSpec
  import opened MsgSteps
  import opened MboxSpec
  import opened ThreadSpec
  import opened Kernel
  import opened KernelSteps
  import opened Runs
  import opened SchedImpl
  import Bits
  import KernelImpl
  import ListMemory

  /** A mutex that is locked without waiters has none. */
  ghost predicate Marked(o: KernelImpl.Kernel)
    reads o, o.sched
  {
    forall m :: m in o.mark ==> o.sched.List(MutexQ(m)) == []
  }

  /** What the calls of the kernel object demand. */
  lemma Callable(s: State)
    requires KernelInv(s)
    ensures Inv(s.k) && PrioOk(s.k.prio) && (forall m :: m in s.mx.mark ==> L(s.k.q, MutexQ(m)) == [])
  {
    hide LinksOk, MatchOk, Act, LockersOk, FlagInv, MsgInv, MboxInv, Tabled;
  }

  lemma Linked(s: State)
    requires KernelInv(s)
    ensures ListsOk(s.k.q.lists, s.k.q.on)
  {
    hide ListsOk, MatchOk, Act, MutexOk, FlagInv, MsgInv, MboxInv, Tabled;
  }

  lemma Headed(s: State, a: Tid)
    requires KernelInv(s) && Calling(s, a)
    ensures IsHead(s.k, a)
  {
    hide LinksOk, MatchOk, MutexOk, FlagInv, MsgInv, MboxInv, Tabled;
    CallerCanBlock(s.k, a);
  }

  method DoMutex(o: KernelImpl.Kernel, c: Call)
    requires o.sched.PrioValid() && Marked(o) && o.sched.active.Some? && MutexCall(c)
    requires o.sched.Intact()
    modifies o, o.sched
    ensures o.View() == MutexStep(old(o.View()), old(o.sched.active.value), c)
    ensures o.sched.Sound()
  {
    hide ListMemory.Intact, ListMemory.Twice, Bits.QueuesOf, Scheduler.K, Lock, LockCancelable, Unlock, UnlockAndSleep, Cancel, CondWait, Signal;
    match c {
      case MutexLock(m, block) => o.MutexLock(m, block);
      case MutexLockCancelable(x) =>
        if x in o.mc {
          o.MutexLockCancelable(x);
        }
      case MutexUnlock(m) => o.MutexUnlock(m);
      case MutexUnlockAndSleep(m) => o.MutexUnlockAndSleep(m);
      case MutexCancelInit(x, m) => o.MutexCancelInit(x, m);
      case MutexCancel(x) =>
        if x in o.mc {
          o.MutexCancel(x);
        }
      case CondWaiting(cond, m) => o.CondWait(cond, m);
      case CondSignal(cond, broadcast) => o.CondSignal(cond, broadcast);
    }
  }

  method DoMsg(o: KernelImpl.Kernel, c: Call)
    requires o.sched.PrioValid() && o.sched.active.Some? && MsgCall(c)
    requires o.sched.Intact()
    modifies o, o.sched
    ensures o.View() == MsgStep(old(o.View()), old(o.sched.active.value), c)
    ensures o.sched.Sound()
  {
    hide ListMemory.Intact, ListMemory.Twice, Bits.QueuesOf, Scheduler.K, Send, SendReceive, Reply, Receive, InitQueue;
    match c {
      case MsgSend(pid, body, block) => o.MsgSend(pid, body, block);
      case MsgSendReceive(pid, body) => o.MsgSendReceive(pid, body);
      case MsgReply(pid, reply) =>
        if pid in o.pids {
          o.MsgReply(o.pids[pid], reply);
        }
      case MsgReceive(block) => o.MsgReceive(block);
      case MsgInitQueue(n) => o.MsgInitQueue(n);
    }
  }

  method DoFlagMbox(o: KernelImpl.Kernel, c: Call)
    requires o.sched.PrioValid() && o.sched.active.Some?
    requires o.sched.Intact()
    modifies o, o.sched
    ensures o.View() == FlagMboxStep(old(o.View()), old(o.sched.active.value), c)
    ensures o.sched.Sound()
  {
    hide ListMemory.Intact, ListMemory.Twice, Bits.QueuesOf, Scheduler.K, FlagsSet, FlagsClear, WaitAny, WaitAll, Put, Fetch;
    if c.FlagSet? {
      o.FlagsSet(c.t, c.mask);
    } else if c.FlagClear? {
      o.FlagsClear(c.mask);
    } else if c.FlagWaitAny? {
      o.FlagsWaitAny(c.mask, c.one);
    } else if c.FlagWaitAll? {
      o.FlagsWaitAll(c.mask);
    } else if c.MboxInit? {
      o.MboxInit(c.b, c.cap);
    } else if c.MboxPut? {
      o.MboxPut(c.b, c.msg, c.block);
    } else if c.MboxGet? {
      o.MboxGet(c.b, c.block);
    }
  }

  method DoThread(o: KernelImpl.Kernel, c: Call)
    requires o.sched.PrioValid() && o.sched.active.Some?
    requires c.ThreadYield? || c.ThreadSleep? || c.ThreadWakeup? || c.ThreadZombify? || c.ThreadKillZombie?
    requires o.sched.Intact()
    modifies o, o.sched
    ensures o.View() == ThreadStep(old(o.View()), old(o.sched.active.value), c)
    ensures o.sched.Sound()
  {
    hide Scheduler.Intact, Scheduler.Sound, PrioOk, Scheduler.K, Bits.QueuesOf, Sleep, Wakeup, KillZombie, Owes;
    if c.ThreadYield? {
      o.ThreadYield(c.rotate);
    } else if c.ThreadWakeup? {
      o.ThreadWakeup(c.pid);
    } else if c.ThreadKillZombie? {
      o.ThreadKillZombie(c.pid);
    } else {
      DoSleep(o, c);
    }
  }

  method DoSleep(o: KernelImpl.Kernel, c: Call)
    requires o.sched.PrioValid() && o.sched.active.Some? && (c.ThreadSleep? || c.ThreadZombify?)
    requires o.sched.Intact()
    modifies o, o.sched
    ensures o.View() == ThreadStep(old(o.View()), old(o.sched.active.value), c)
    ensures o.sched.Sound()
  {
    hide Scheduler.Intact, Scheduler.Sound, PrioOk, Scheduler.K, Bits.QueuesOf, Sleep;
    o.ThreadSleep(if c.ThreadSleep? then Sleeping else Zombie);
  }

  method DoLifetime(o: KernelImpl.Kernel, c: Call)
    requires o.sched.PrioValid() && o.sched.active.Some? && (c.ThreadExit? || c.ThreadCreate? || c.ThreadPriority?)
    requires c.ThreadExit? ==> Inv(o.sched.K()) && IsHead(o.sched.K(), o.sched.active.value)
    requires c.ThreadPriority? ==> c.prio < PRIO_LEVELS
    requires o.sched.Intact()
    modifies o, o.sched
    ensures o.View() == ThreadStep(old(o.View()), old(o.sched.active.value), c)
    ensures o.sched.Sound()
  {
    hide ListMemory.Intact, ListMemory.Twice, Inv, IsHead, PrioOk, Scheduler.K, Bits.QueuesOf, Exit, Create, ChangePriority;
    if c.ThreadExit? {
      o.Exit();
    } else if c.ThreadCreate? {
      o.ThreadCreate(c.t, c.prio, c.how, c.flags);
    } else {
      o.ChangePriority(c.t, c.prio);
    }
  }

  method DoIsr(o: KernelImpl.Kernel, c: Call)
    requires o.sched.PrioValid() && Marked(o)
    requires o.sched.Intact()
    modifies o, o.sched
    ensures o.View() == IsrCall(old(o.View()), c)
    ensures o.sched.Sound()
  {
    hide ListMemory.Intact, ListMemory.Twice, Bits.QueuesOf, Scheduler.K, IsrMutexStep, IsrMsgStep, IsrOtherStep, MutexCall, MsgCall;
    if MutexCall(c) {
      DoIsrMutex(o, c);
    } else if MsgCall(c) {
      DoIsrMsg(o, c);
    } else {
      DoIsrOther(o, c);
    }
  }

  method DoIsrMutex(o: KernelImpl.Kernel, c: Call)
    requires o.sched.PrioValid() && Marked(o)
    requires o.sched.Intact()
    modifies o, o.sched
    ensures o.View() == IsrMutexStep(old(o.View()), c)
    ensures o.sched.Sound()
  {
    hide ListMemory.Intact, ListMemory.Twice, Bits.QueuesOf, Scheduler.K, Unlock, Cancel, Signal;
    if c.MutexUnlock? {
      o.MutexUnlock(c.m);
    } else if c.MutexCancel? && c.x in o.mc {
      o.MutexCancel(c.x);
    } else if c.CondSignal? {
      o.CondSignal(c.c, c.broadcast);
    }
  }

  method DoIsrMsg(o: KernelImpl.Kernel, c: Call)
    requires o.sched.PrioValid()
    requires o.sched.Intact()
    modifies o, o.sched
    ensures o.View() == IsrMsgStep(old(o.View()), c)
    ensures o.sched.Sound()
  {
    hide ListMemory.Intact, ListMemory.Twice, Bits.QueuesOf, Scheduler.K, SendIsr, Reply;
    if c.MsgSend? {
      o.MsgSendInt(c.pid, c.body);
    } else if c.MsgReply? && c.pid in o.pids {
      o.MsgReply(o.pids[c.pid], c.reply);
    }
  }

  method DoIsrOther(o: KernelImpl.Kernel, c: Call)
    requires o.sched.PrioValid()
    requires o.sched.Intact()
    modifies o, o.sched
    ensures o.View() == IsrOtherStep(old(o.View()), c)
    ensures o.sched.Sound()
  {
    hide ListMemory.Intact, ListMemory.Twice, Bits.QueuesOf, Scheduler.K, FlagsSet, Put, Fetch, Wakeup, KillZombie;
    if c.FlagSet? {
      o.FlagsSet(c.t, c.mask);
    } else if c.MboxPut? {
      o.MboxPut(c.b, c.msg, false);
    } else if c.MboxGet? {
      o.MboxGet(c.b, false);
    } else if c.ThreadWakeup? {
      o.ThreadWakeup(c.pid);
    } else if c.ThreadKillZombie? {
      o.ThreadKillZombie(c.pid);
    }
  }

  method DoResume(o: KernelImpl.Kernel)
    requires Inv(o.sched.K()) && Marked(o) && o.sched.active.Some?
    requires o.sched.Intact()
    modifies o, o.sched
    ensures o.View() == Resume(old(o.View()), old(o.sched.active.value))
    ensures o.sched.Sound()
  {
    hide ListMemory.Intact, ListMemory.Twice, LinksOk, MatchOk, Bits.QueuesOf, Pay, LockReturn, Lock, PutReturn, FlagReturn;
    var a := o.sched.active.value;
    if a in o.sched.owe && !o.sched.owe[a].Nothing? {
      o.sched.Pay();
      return;
    }
    match if a in o.cont then o.cont[a] else User {
      case Locking(_) => o.MutexLockReturn();
      case CancelCheck(_) => o.MutexLockReturn();
      case Relock(m) => o.MutexLock(m, true);
      case PutRetry(_, _) => o.MboxPutReturn();
      case _ => o.FlagsReturn();
    }
  }

  method DoCall(o: KernelImpl.Kernel, c: Call)
    requires KernelInv(o.View()) && o.sched.active.Some? && Calling(o.View(), o.sched.active.value)
    requires CallOk(o.View(), o.sched.active.value, c)
    requires o.sched.Intact()
    modifies o, o.sched
    ensures o.View() == ThreadCall(old(o.View()), old(o.sched.active.value), c)
    ensures o.sched.Sound()
  {
    hide ListMemory.Intact, ListMemory.Twice, KernelInv, MutexStep, MsgStep, ThreadStep, FlagMboxStep, MutexCall, MsgCall, Ready, LinksOk, MatchOk, IsHead;
    Callable(o.View());
    Headed(o.View(), o.sched.active.value);
    if MutexCall(c) {
      DoMutex(o, c);
    } else if MsgCall(c) {
      DoMsg(o, c);
    } else if c.ThreadExit? || c.ThreadCreate? || c.ThreadPriority? {
      DoLifetime(o, c);
    } else if ThreadOp(c) {
      DoThread(o, c);
    } else {
      DoFlagMbox(o, c);
    }
  }

  method Do(o: KernelImpl.Kernel, e: Event)
    requires KernelInv(o.View()) && Enabled(o.View(), e)
    requires o.sched.Intact()
    modifies o, o.sched
    ensures o.View() == Step(old(o.View()), e) && KernelInv(o.View())
    ensures o.sched.Intact()
  {
    hide ListMemory.Intact, ListMemory.Twice, KernelInv, LinksOk, MatchOk, ThreadCall, CallOk, Resume, IsrCall, IsrOk, IsrEnter, IsrExit, SchedRun, Sorts, Ready;
    StepKeeps(o.View(), e);
    Callable(o.View());
    match e {
      case Thr(c) => DoCall(o, c);
      case Continue => DoResume(o);
      case Enter => o.sched.EnterIsr();
      case Intr(c) => DoIsr(o, c);
      case Leave => o.sched.LeaveIsr();
      case Wake => o.sched.SchedRun();
    }
    Linked(o.View());
    ListMemory.SoundIntact(o.sched.next, o.sched.lists, o.sched.on);
  }

  /** Every run of the object is a run of the state machine. */
  method Execute(o: KernelImpl.Kernel, es: seq<Event>)
    requires KernelInv(o.View()) && Valid(o.View(), es)
    requires o.sched.Intact()
    modifies o, o.sched
    ensures o.View() == After(old(o.View()), es) && KernelInv(o.View())
    ensures o.sched.Intact()
  {
    hide ListMemory.Intact, ListMemory.Twice, KernelInv, Enabled, Step;
    var i := 0;
    while i < |es|
      invariant i <= |es| && o.sched.Intact() && KernelInv(o.View()) && Valid(o.View(), es[i..])
      invariant After(o.View(), es[i..]) == After(old(o.View()), es)
    {
      Do(o, es[i]);
      assert es[i..][1..] == es[i + 1..];
      i := i + 1;
    }
  }

  /** A booted kernel only ever reaches states that the theorems about reachable states cover. */
  method Boot(t: Tid, prio: nat, clz: bool, es: seq<Event>) returns (o: KernelImpl.Kernel)
    requires prio < PRIO_LEVELS && Valid(Init(t, prio), es)
    ensures fresh(o) && fresh(o.sched) && o.View() == After(Init(t, prio), es) && Reachable(o.View())
    ensures o.sched.Intact()
  {
    hide ListMemory.Intact, ListMemory.Twice, KernelInv, Valid, After, Init;
    InitOk(t, prio);
    o := new KernelImpl.Kernel(t, prio, clz);
    Execute(o, es);
  }
}
