/**
  What a step does to the unfinished calls: at most the remainder of the calling thread's own
  call changes, and it stays with the subsystem the step belongs to.
*/
module Remainders {
  import opened Wrappers
  import opened Sched
  import opened Reschedule
  import opened KernelState
  import opened MutexSpec
  import opened FlagSpec
  import opened MsgSpec
  import opened MboxSpec
  import opened ThreadSpec
  import opened Frames
  import opened Kernel
  import opened KernelSteps

  /** Neither a remainder nor a mailbox changes. */
  predicate Still(s: State, s': State) {
    s'.mb == s.mb && s'.cont == s.cont
  }

  /** At most the remainder of `a`'s call changes, to one of family `f` or none. */
  predicate Elsewhere(s: State, s': State, a: Tid, f: Family) {
    && s'.mb == s.mb
    && (s'.cont == s.cont || (a in s'.cont && s'.cont == s.cont[a := s'.cont[a]] && InFamily(s'.cont[a], f)))
  }

  predicate InFamily(c: Cont, f: Family) {
    FamilyOf(c) == NoFamily || FamilyOf(c) == f
  }

  lemma StillElsewhere(s: State, s': State, a: Tid, f: Family)
    requires Still(s, s')
    ensures Elsewhere(s, s', a, f)
  {
  }

  lemma Returns(s: State, r: Ret)
    ensures Still(s, s) && Still(s, s.(ret := r))
  {
  }

  // ---- Mutexes and condition variables ----

  lemma BlockOnElsewhere(s: State, a: Tid, m: nat, c: Cont)
    requires FamilyOf(c) == MutexFamily
    ensures Elsewhere(s, BlockOn(s, a, m, c), a, MutexFamily)
  {
    hide Owes, Block, FamilyOf;
  }

  lemma TakeElsewhere(s: State, a: Tid, m: nat, r: Ret)
    ensures Still(s, Take(s, a, m).(ret := r))
    ensures Elsewhere(s, Take(s, a, m).(cont := s.cont[a := User], ret := r), a, MutexFamily)
  {
  }

  lemma LockElsewhere(s: State, a: Tid, m: nat, block: bool)
    ensures Elsewhere(s, Lock(s, a, m, block), a, MutexFamily)
  {
    hide Elsewhere, BlockOn, Take, Unlocked, Still;
    TakeElsewhere(s, a, m, Ret.Int(1));
    Returns(s, Ret.Int(0));
    StillElsewhere(s, s.(ret := Ret.Int(0)), a, MutexFamily);
    BlockOnElsewhere(s, a, m, Locking(m));
  }

  lemma LockCancelableElsewhere(s: State, a: Tid, x: nat)
    requires x in s.mc
    ensures Elsewhere(s, LockCancelable(s, a, x), a, MutexFamily)
  {
    hide Elsewhere, BlockOn, Take, Unlocked, Still;
    TakeElsewhere(s, a, s.mc[x].mutex, Ret.Int(0));
    StillElsewhere(s, Take(s, a, s.mc[x].mutex).(ret := Ret.Int(0)), a, MutexFamily);
    Returns(s, Ret.Cancelled);
    StillElsewhere(s, s.(ret := Ret.Cancelled), a, MutexFamily);
    BlockOnElsewhere(s, a, s.mc[x].mutex, CancelCheck(x));
  }

  lemma ReturnElsewhere(s: State, a: Tid, r: Ret, f: Family)
    ensures Elsewhere(s, s.(cont := s.cont[a := User], ret := r), a, f)
  {
  }

  lemma LockReturnElsewhere(s: State, a: Tid)
    ensures Elsewhere(s, LockReturn(s, a), a, MutexFamily)
  {
    hide Elsewhere, Still;
    Returns(s, NoRet);
    StillElsewhere(s, s, a, MutexFamily);
    ReturnElsewhere(s, a, LockReturn(s, a).ret, MutexFamily);
  }

  lemma UnlockStill(s: State, m: nat)
    ensures Still(s, Unlock(s, m))
  {
    hide Owes, ReleaseWake, ReleaseMutex, ReleaseOwe;
  }

  lemma UnlockAndSleepElsewhere(s: State, a: Tid, m: nat)
    ensures Elsewhere(s, UnlockAndSleep(s, a, m), a, MutexFamily)
  {
    hide ReleaseAndBlock, ReleaseWake, ReleaseMutex;
  }

  lemma CancelStill(s: State, x: nat)
    requires x in s.mc
    ensures Still(s, Cancel(s, x))
  {
    hide Owes, CancelWake, CancelMutex, Cancellable;
  }

  lemma CancelInitStill(s: State, x: nat, m: nat, a: Tid)
    ensures Still(s, CancelInit(s, x, m, a))
  {
  }

  lemma CondWaitElsewhere(s: State, a: Tid, c: nat, m: nat)
    ensures Elsewhere(s, CondWait(s, a, c, m), a, MutexFamily)
  {
    hide ReleaseAndBlock, ReleaseWake, ReleaseMutex, ReleaseOwe;
  }

  lemma SignalStill(s: State, c: nat, broadcast: bool)
    ensures Still(s, Signal(s, c, broadcast))
  {
    hide SignalSched;
  }

  lemma MutexElsewhere(s: State, a: Tid, c: Call)
    requires MutexCall(c)
    ensures Elsewhere(s, MutexStep(s, a, c), a, MutexFamily)
  {
    hide Elsewhere, Still, Lock, LockCancelable, Unlock, UnlockAndSleep, Cancel, CondWait, Signal, CancelInit;
    if c.MutexLock? {
      LockElsewhere(s, a, c.m, c.block);
    } else if c.MutexLockCancelable? && c.x in s.mc {
      LockCancelableElsewhere(s, a, c.x);
    } else if c.MutexUnlockAndSleep? {
      UnlockAndSleepElsewhere(s, a, c.m);
    } else if c.CondWaiting? {
      CondWaitElsewhere(s, a, c.c, c.m);
    } else {
      MutexStill(s, a, c);
      StillElsewhere(s, MutexStep(s, a, c), a, MutexFamily);
    }
  }

  lemma MutexStill(s: State, a: Tid, c: Call)
    requires c.MutexUnlock? || c.MutexCancelInit? || c.MutexCancel? || c.CondSignal? || (c.MutexLockCancelable? && c.x !in s.mc)
    ensures Still(s, MutexStep(s, a, c))
  {
    hide Still, Unlock, Cancel, Signal, CancelInit;
    Returns(s, NoRet);
    if c.MutexUnlock? {
      UnlockStill(s, c.m);
    } else if c.MutexCancelInit? {
      CancelInitStill(s, c.x, c.m, a);
    } else if c.MutexCancel? && c.x in s.mc {
      CancelStill(s, c.x);
    } else if c.CondSignal? {
      SignalStill(s, c.c, c.broadcast);
    }
  }

  lemma IsrMutexStill(s: State, c: Call)
    ensures Still(s, IsrMutexStep(s, c))
  {
    hide Still, Unlock, Cancel, Signal;
    Returns(s, NoRet);
    if c.MutexUnlock? {
      UnlockStill(s, c.m);
    } else if c.MutexCancel? && c.x in s.mc {
      CancelStill(s, c.x);
    } else if c.CondSignal? {
      SignalStill(s, c.c, c.broadcast);
    }
  }

  // ---- Messages ----

  lemma DeliverStill(s: State, a: Tid, r: Tid, m: Msg, o: Owe)
    ensures Still(s, SendDirect(s, r, m)) && Still(s, SendQueue(s, r, m, o)) && Still(s, SendBlock(s, a, r, m))
  {
    hide Owes, Block, SetStatus, NotifyWake, Notified, SenderStatus;
  }

  lemma SendToStill(s: State, a: Tid, r: Tid, m: Msg, block: bool)
    ensures Still(s, SendCore(s, a, r, m, block))
  {
    hide Still, SendDirect, SendQueue, SendBlock, Room;
    DeliverStill(s, a, r, m, IfRequested);
    Returns(s, Ret.Int(0));
  }

  lemma SendStill(s: State, a: Tid, pid: nat, body: int, block: bool)
    ensures Still(s, Send(s, a, pid, body, block))
  {
    hide Still, SendQueue, SendCore, Room, NewMsg;
    Returns(s, Ret.Int(0));
    Returns(s, Ret.Int(-1));
    DeliverStill(s, a, a, NewMsg(s, a, a, body), Nothing);
    if pid in s.pids {
      SendToStill(s, a, s.pids[pid], NewMsg(s, a, s.pids[pid], body), block);
    }
  }

  lemma SendReceiveStill(s: State, a: Tid, pid: nat, body: int)
    ensures Still(s, SendReceive(s, a, pid, body))
  {
    hide SetStatus, SendCore;
    if pid in s.pids {
      var m := NewMsg(s, a, s.pids[pid], body);
      SendToStill(AwaitReply(s, a, m), a, s.pids[pid], m, true);
    }
  }

  lemma SendIsrStill(s: State, pid: nat, body: int)
    ensures Still(s, SendIsr(s, pid, body))
  {
    hide Still, SendDirect, SendQueue, Room;
    Returns(s, Ret.Int(0));
    Returns(s, Ret.Int(-1));
    if pid in s.pids {
      DeliverStill(s, 0, s.pids[pid], Msg(PID_ISR, Isr, s.pids[pid], s.ms.uid, body), Nothing);
    }
  }

  lemma ReplyStill(s: State, t: Tid, reply: Msg)
    ensures Still(s, Reply(s, t, reply))
  {
    hide Owes, SetStatus;
  }

  lemma TakeStill(s: State, a: Tid)
    ensures L(s.k.q, SendQ(a)) != [] ==> Still(s, TakeFromSender(s, a))
    ensures ChanOf(s.ms, a).queue != [] ==> Still(s, TakeQueued(s, a))
    ensures ChanOf(s.ms, a).queue != [] && L(s.k.q, SendQ(a)) != [] ==> Still(s, TakeAndRefill(s, a))
    ensures Still(s, AwaitMsg(s, a))
  {
    hide Owes, ReleaseSender, SenderOwe, SenderWait, SenderMsg, Block;
  }

  lemma ReceiveStill(s: State, a: Tid, block: bool)
    ensures Still(s, Receive(s, a, block))
  {
    hide Still, TakeFromSender, TakeQueued, TakeAndRefill, AwaitMsg;
    TakeStill(s, a);
    Returns(s, Ret.Int(-1));
  }

  lemma InitQueueStill(s: State, a: Tid, n: nat)
    ensures Still(s, InitQueue(s, a, n))
  {
  }

  lemma MsgStill(s: State, a: Tid, c: Call)
    requires MsgCall(c)
    ensures Still(s, MsgStep(s, a, c))
  {
    hide Still, Send, SendReceive, Reply, Receive, InitQueue;
    Returns(s, NoRet);
    if c.MsgSend? {
      SendStill(s, a, c.pid, c.body, c.block);
    } else if c.MsgSendReceive? {
      SendReceiveStill(s, a, c.pid, c.body);
    } else if c.MsgReply? && c.pid in s.pids {
      ReplyStill(s, s.pids[c.pid], c.reply);
    } else if c.MsgReceive? {
      ReceiveStill(s, a, c.block);
    } else if c.MsgInitQueue? {
      InitQueueStill(s, a, c.n);
    }
  }

  lemma IsrMsgStill(s: State, c: Call)
    ensures Still(s, IsrMsgStep(s, c))
  {
    hide Still, SendIsr, Reply;
    Returns(s, NoRet);
    if c.MsgSend? {
      SendIsrStill(s, c.pid, c.body);
    } else if c.MsgReply? && c.pid in s.pids {
      ReplyStill(s, s.pids[c.pid], c.reply);
    }
  }

  // ---- Threads ----

  lemma WakeupStill(s: State, pid: nat)
    ensures Still(s, Wakeup(s, pid))
  {
    hide Owes, SetStatus;
  }

  lemma KillZombieStill(s: State, pid: nat)
    ensures Still(s, KillZombie(s, pid))
  {
    hide SetStatus;
  }

  lemma CreateStill(s: State, t: Tid, prio: nat, how: Start, flags: bv16)
    ensures Still(s, Create(s, t, prio, how, flags))
  {
    hide Started, Registered, FreePid;
  }

  lemma OtherStill(s: State, a: Tid, st: Status, t: Tid, prio: nat, o: Owe)
    ensures Still(s, Sleep(s, a, st)) && Still(s, Exit(s, a)) && Still(s, ChangePriority(s, t, prio))
    ensures Still(s, s.(k := Owes(s.k, o)))
  {
    hide SetStatus, SchedRun, Owes, Block, Reprioritised;
  }

  lemma ThreadStill(s: State, a: Tid, c: Call)
    requires ThreadOp(c)
    ensures Still(s, ThreadStep(s, a, c))
  {
    hide Still, Wakeup, KillZombie, Create, Sleep, Exit, ChangePriority, Owes;
    if c.ThreadWakeup? {
      WakeupStill(s, c.pid);
    } else if c.ThreadKillZombie? {
      KillZombieStill(s, c.pid);
    } else if c.ThreadCreate? {
      CreateStill(s, c.t, c.prio, c.how, c.flags);
    } else if c.ThreadPriority? {
      OtherStill(s, a, Sleeping, c.t, c.prio, Nothing);
    } else {
      var o := if c.ThreadYield? && c.rotate then YieldRotate else YieldHigher;
      OtherStill(s, a, if c.ThreadSleep? then Sleeping else Zombie, 0, 0, o);
    }
  }

  // ---- Thread flags ----

  lemma FlagsSetStill(s: State, t: Tid, mask: bv16)
    ensures Still(s, FlagsSet(s, t, mask))
  {
    hide Owes, FlagWake, Wakes, With;
  }

  lemma FlagsClearElsewhere(s: State, a: Tid, mask: bv16)
    ensures Elsewhere(s, FlagsClear(s, a, mask), a, FlagFamily)
  {
    hide Without, Masked;
  }

  lemma MovesOn(s: State, a: Tid, c: Cont, f: Family)
    requires InFamily(c, f)
    ensures Elsewhere(s, s.(cont := s.cont[a := c]), a, f)
  {
  }

  lemma FlagWaitElsewhere(s: State, a: Tid, mask: bv16, st: Status, c: Cont)
    requires FamilyOf(c) == FlagFamily
    ensures Elsewhere(s, FlagWait(s, a, mask, st, c), a, FlagFamily)
  {
    hide Owes, Block, FamilyOf;
  }

  lemma WaitElsewhere(s: State, a: Tid, mask: bv16, one: bool)
    ensures Elsewhere(s, WaitAny(s, a, mask, one), a, FlagFamily)
    ensures Elsewhere(s, WaitAll(s, a, mask), a, FlagFamily)
  {
    hide Elsewhere, FlagWait, Any, All;
    var c := if one then ReadOne(mask) else ClearAny(mask);
    FlagWaitElsewhere(s, a, mask, FlagBlockedAny, c);
    FlagWaitElsewhere(s, a, mask, FlagBlockedAll, ClearAll(mask));
    MovesOn(s, a, c, FlagFamily);
    MovesOn(s, a, ClearAll(mask), FlagFamily);
  }

  lemma FlagReturnElsewhere(s: State, a: Tid)
    ensures Elsewhere(s, FlagReturn(s, a), a, FlagFamily)
  {
    hide FlagsClear, LowestFlag, Masked, Elsewhere, Still;
    Returns(s, NoRet);
    StillElsewhere(s, s, a, FlagFamily);
    match Co(s, a)
    case ClearAny(mask) => FlagsClearElsewhere(s, a, mask);
    case ReadOne(mask) => MovesOn(s, a, ClearOne(mask, LowestFlag(Masked(FlagsOf(s.fl, a), mask))), FlagFamily);
    case ClearOne(_, bit) => FlagsClearElsewhere(s, a, bit);
    case ClearAll(mask) => FlagsClearElsewhere(s, a, mask);
    case _ =>
  }

  lemma FlagElsewhere(s: State, a: Tid, c: Call)
    requires c.FlagSet? || c.FlagClear? || c.FlagWaitAny? || c.FlagWaitAll?
    ensures Elsewhere(s, FlagMboxStep(s, a, c), a, FlagFamily)
  {
    hide Elsewhere, Still, FlagsSet, FlagsClear, WaitAny, WaitAll;
    if c.FlagSet? {
      FlagsSetStill(s, c.t, c.mask);
      StillElsewhere(s, FlagsSet(s, c.t, c.mask), a, FlagFamily);
    } else if c.FlagClear? {
      FlagsClearElsewhere(s, a, c.mask);
    } else if c.FlagWaitAny? {
      WaitElsewhere(s, a, c.mask, c.one);
    } else {
      WaitElsewhere(s, a, c.mask, false);
    }
  }

  // ---- Any step that is not one of a mailbox ----

  predicate MboxCall(c: Call) {
    c.MboxInit? || c.MboxPut? || c.MboxGet?
  }

  /** The step is one of `mbox.c`. */
  predicate InMbox(s: State, e: Event) {
    match e
    case Thr(c) => MboxCall(c)
    case Intr(c) => MboxCall(c)
    case Continue => s.k.cpu.active.Some? && Ow(s.k, s.k.cpu.active.value).Nothing? && Co(s, s.k.cpu.active.value).PutRetry?
    case _ => false
  }

  /** The step is one of the thread `t` itself. */
  predicate Acts(s: State, e: Event, t: Tid) {
    (e.Thr? || e.Continue?) && s.k.cpu.active == Some(t)
  }

  /** The family that the remainder of the caller may get into. */
  function FamilyIn(s: State, e: Event): Family {
    if InMutex(s, e) then MutexFamily else FlagFamily
  }

  lemma CallElsewhere(s: State, a: Tid, c: Call)
    requires !MboxCall(c)
    ensures Elsewhere(s, ThreadCall(s, a, c), a, if MutexCall(c) then MutexFamily else FlagFamily)
  {
    hide Elsewhere, Still, MutexStep, MsgStep, ThreadStep, FlagMboxStep;
    if MutexCall(c) {
      MutexElsewhere(s, a, c);
    } else if MsgCall(c) {
      MsgStill(s, a, c);
      StillElsewhere(s, MsgStep(s, a, c), a, FlagFamily);
    } else if ThreadOp(c) {
      ThreadStill(s, a, c);
      StillElsewhere(s, ThreadStep(s, a, c), a, FlagFamily);
    } else {
      FlagElsewhere(s, a, c);
    }
  }

  lemma IsrStill(s: State, c: Call)
    requires !MboxCall(c)
    ensures Still(s, IsrCall(s, c))
  {
    hide Still, IsrMutexStep, IsrMsgStep, MutexCall, MsgCall, FlagsSet, Wakeup, KillZombie, Put, Fetch;
    IsrMutexStill(s, c);
    IsrMsgStill(s, c);
    Returns(s, NoRet);
    if c.FlagSet? {
      FlagsSetStill(s, c.t, c.mask);
    } else if c.ThreadWakeup? {
      WakeupStill(s, c.pid);
    } else if c.ThreadKillZombie? {
      KillZombieStill(s, c.pid);
    }
  }

  lemma SystemStill(s: State, k: Sched)
    ensures Still(s, s.(k := k))
  {
  }

  lemma ResumeElsewhere(s: State, a: Tid)
    requires !(Ow(s.k, a).Nothing? && Co(s, a).PutRetry?)
    ensures Elsewhere(s, Resume(s, a), a, if Ow(s.k, a).Nothing? && LockCont(Co(s, a)) then MutexFamily else FlagFamily)
  {
    hide Pay, LockReturn, Lock, FlagReturn, Elsewhere, PutReturn, Still;
    if !Ow(s.k, a).Nothing? {
      SystemStill(s, Pay(s.k, a));
      StillElsewhere(s, s.(k := Pay(s.k, a)), a, FlagFamily);
    } else if Co(s, a).Relock? {
      LockElsewhere(s, a, Co(s, a).mutex, true);
    } else if LockCont(Co(s, a)) {
      LockReturnElsewhere(s, a);
    } else {
      FlagReturnElsewhere(s, a);
    }
  }

  /** A step that is not one of a mailbox. */
  lemma StepElsewhere(s: State, e: Event)
    requires !InMbox(s, e)
    ensures (e.Thr? || e.Continue?) && s.k.cpu.active.Some? ==>
      Elsewhere(s, Step(s, e), s.k.cpu.active.value, FamilyIn(s, e))
    ensures !((e.Thr? || e.Continue?) && s.k.cpu.active.Some?) ==> Still(s, Step(s, e))
  {
    hide Elsewhere, Still, ThreadCall, Resume, IsrCall, IsrEnter, IsrExit, SchedRun, MutexCall;
    Returns(s, NoRet);
    match e
    case Thr(c) => if s.k.cpu.active.Some? { CallElsewhere(s, s.k.cpu.active.value, c); }
    case Continue => if s.k.cpu.active.Some? { ResumeElsewhere(s, s.k.cpu.active.value); }
    case Intr(c) => IsrStill(s, c);
    case _ => SystemStill(s, Step(s, e).k);
  }

  // ---- Mailboxes ----

  lemma PutConts(s: State, b: nat, m: Msg, block: bool)
    ensures var s' := Put(s, b, m, block);
      s'.cont == s.cont || (block && s.k.cpu.active.Some? && s'.cont == s.cont[s.k.cpu.active.value := PutRetry(b, m)])
  {
    hide Owes, WakeAt, Block, Stamped, Enqueued, Full;
  }

  lemma FetchConts(s: State, b: nat, block: bool)
    ensures Fetch(s, b, block).cont == s.cont
  {
    hide WriterWake, Owes, Block, Dequeued;
  }

  lemma PutReturnConts(s: State, a: Tid)
    requires Co(s, a).PutRetry?
    ensures PutReturn(s, a).cont == s.cont[a := Co(s, a)] || PutReturn(s, a).cont == s.cont[a := User]
  {
    hide Owes, Block, Stamped, Enqueued, Full;
  }

  // ---- All steps ----

  lemma MboxConts(s: State, e: Event, t: Tid)
    requires InMbox(s, e)
    ensures !Acts(s, e, t) ==> ContOf(Step(s, e).cont, t) == ContOf(s.cont, t)
    ensures ContOf(Step(s, e).cont, t) == ContOf(s.cont, t) || (t in Step(s, e).cont && InFamily(Step(s, e).cont[t], MboxFamily))
  {
    hide Put, Fetch, PutReturn;
    match e
    case Thr(c) =>
      if c.MboxPut? {
        PutConts(s, c.b, c.msg, c.block);
      } else if c.MboxGet? {
        FetchConts(s, c.b, c.block);
      }
    case Intr(c) =>
      if c.MboxPut? {
        PutConts(s, c.b, c.msg, false);
      } else if c.MboxGet? {
        FetchConts(s, c.b, false);
      }
    case Continue => PutReturnConts(s, s.k.cpu.active.value);
    case _ =>
  }

  /** Nobody touches the remainder of another thread's call. */
  lemma OthersRemain(s: State, e: Event, t: Tid)
    requires !Acts(s, e, t)
    ensures ContOf(Step(s, e).cont, t) == ContOf(s.cont, t)
  {
    hide Step, InMbox, FamilyIn, InFamily;
    if InMbox(s, e) {
      MboxConts(s, e, t);
    } else {
      StepElsewhere(s, e);
    }
  }

  /** Only steps of `mutex.c` and `cond.c` start to wait for a mutex. */
  lemma OnlyMutexWaits(s: State, e: Event, t: Tid)
    requires !InMutex(s, e)
    ensures t in Step(s, e).cont && FamilyOf(Step(s, e).cont[t]) == MutexFamily ==> ContOf(Step(s, e).cont, t) == ContOf(s.cont, t)
  {
    hide Step, InMbox, InMutex;
    if InMbox(s, e) {
      MboxConts(s, e, t);
    } else {
      StepElsewhere(s, e);
    }
  }
}
