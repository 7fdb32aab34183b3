/** Thread flags over whole runs: only their owner clears them, and what the wait calls return. */
module FlagRuns {
  import opened Wrappers
  import opened Sched
  import opened Reschedule
  import opened KernelState
  import opened MutexSpec
  import opened FlagSpec
  import opened FlagSets
  import opened MsgSpec
  import opened MboxSpec
  import opened ThreadSpec
  import opened Frames
  import opened Kernel
  import opened KernelSteps
  import opened Remainders
  import opened Runs
  import opened LockRuns

  // ---- Who changes flags ----

  lemma BlockOnFlags(s: State, a: Tid, m: nat, c: Cont)
    ensures BlockOn(s, a, m, c).fl == s.fl
  {
    hide Owes, Block;
  }

  lemma LockFlags(s: State, a: Tid, m: nat, block: bool)
    ensures Lock(s, a, m, block).fl == s.fl
  {
    hide BlockOn, Unlocked;
    BlockOnFlags(s, a, m, Locking(m));
  }

  lemma LockCancelableFlags(s: State, a: Tid, x: nat)
    requires x in s.mc
    ensures LockCancelable(s, a, x).fl == s.fl
  {
    hide BlockOn, Unlocked;
    BlockOnFlags(s, a, s.mc[x].mutex, CancelCheck(x));
  }

  lemma LockReturnFlags(s: State, a: Tid)
    ensures LockReturn(s, a).fl == s.fl
  {
    match Co(s, a)
    case Locking(_) => assert LockReturn(s, a) == s.(cont := s.cont[a := User], ret := Ret.Int(1));
    case _ =>
  }

  lemma ReleaseFlags(s: State, a: Tid, m: nat, c: nat, broadcast: bool)
    ensures Unlock(s, m).fl == UnlockAndSleep(s, a, m).fl == CondWait(s, a, c, m).fl == Signal(s, c, broadcast).fl == s.fl
  {
    hide Owes, ReleaseWake, ReleaseMutex, ReleaseAndBlock, ReleaseOwe, SignalSched;
  }

  lemma CancelFlags(s: State, x: nat)
    requires x in s.mc
    ensures Cancel(s, x).fl == s.fl
  {
    hide Owes, CancelWake, CancelMutex, Cancellable;
  }

  lemma MutexFlags(s: State, a: Tid, c: Call)
    requires MutexCall(c)
    ensures MutexStep(s, a, c).fl == s.fl && IsrMutexStep(s, c).fl == s.fl
  {
    hide Lock, LockCancelable, Unlock, UnlockAndSleep, Cancel, CondWait, Signal;
    if c.MutexLock? {
      LockFlags(s, a, c.m, c.block);
    } else if c.MutexLockCancelable? {
      if c.x in s.mc {
        LockCancelableFlags(s, a, c.x);
      }
    } else if c.MutexCancel? {
      if c.x in s.mc {
        CancelFlags(s, c.x);
      }
    } else if c.CondSignal? {
      ReleaseFlags(s, a, 0, c.c, c.broadcast);
    } else if !c.MutexCancelInit? {
      ReleaseFlags(s, a, c.m, if c.CondWaiting? then c.c else 0, false);
    }
  }

  /** At most the flag for messages is set. */
  ghost predicate Told(s: State, s': State) {
    s'.fl == s.fl || exists r :: s'.fl == Notified(s.fl, r)
  }

  lemma DeliverFlags(s: State, a: Tid, r: Tid, m: Msg, o: Owe)
    ensures Told(s, SendDirect(s, r, m)) && Told(s, SendQueue(s, r, m, o)) && Told(s, SendBlock(s, a, r, m))
  {
    hide Owes, Block, SetStatus, NotifyWake, Notified, SenderStatus, Handed, Queued, Accepted;
    assert SendQueue(s, r, m, o).fl == Notified(s.fl, r) && SendBlock(s, a, r, m).fl == Notified(s.fl, r);
  }

  lemma SendToFlags(s: State, a: Tid, r: Tid, m: Msg, block: bool)
    ensures Told(s, SendCore(s, a, r, m, block))
  {
    hide SendDirect, SendQueue, SendBlock, Room, Notified;
    DeliverFlags(s, a, r, m, IfRequested);
  }

  lemma SendFlags(s: State, a: Tid, pid: nat, body: int, block: bool)
    ensures Told(s, Send(s, a, pid, body, block))
  {
    hide SendQueue, SendCore, Room, NewMsg, Notified;
    DeliverFlags(s, a, a, NewMsg(s, a, a, body), Nothing);
    if pid in s.pids {
      SendToFlags(s, a, s.pids[pid], NewMsg(s, a, s.pids[pid], body), block);
    }
  }

  lemma SendReceiveFlags(s: State, a: Tid, pid: nat, body: int)
    ensures Told(s, SendReceive(s, a, pid, body))
  {
    hide SetStatus, SendCore, Notified;
    if pid in s.pids {
      var m := NewMsg(s, a, s.pids[pid], body);
      SendToFlags(AwaitReply(s, a, m), a, s.pids[pid], m, true);
    }
  }

  lemma SendIsrFlags(s: State, pid: nat, body: int)
    ensures Told(s, SendIsr(s, pid, body))
  {
    hide SendDirect, SendQueue, Room, Notified;
    if pid in s.pids {
      DeliverFlags(s, 0, s.pids[pid], Msg(PID_ISR, Isr, s.pids[pid], s.ms.uid, body), Nothing);
    }
  }

  lemma ReplyFlags(s: State, t: Tid, reply: Msg)
    ensures Reply(s, t, reply).fl == s.fl
  {
    hide Owes, SetStatus, St;
    if !St(s.k, t).ReplyBlocked? {
      assert Reply(s, t, reply) == s.(ret := Ret.Int(-1));
    } else {
      assert Reply(s, t, reply) == s.(k := Reply(s, t, reply).k, wait := s.wait[t := Buffer(reply)], ret := Ret.Int(1));
    }
  }

  lemma TakeFlags(s: State, a: Tid)
    ensures L(s.k.q, SendQ(a)) != [] ==> TakeFromSender(s, a).fl == s.fl
    ensures ChanOf(s.ms, a).queue != [] ==> TakeQueued(s, a).fl == s.fl
    ensures ChanOf(s.ms, a).queue != [] && L(s.k.q, SendQ(a)) != [] ==> TakeAndRefill(s, a).fl == s.fl
    ensures AwaitMsg(s, a).fl == s.fl
  {
    hide Owes, ReleaseSender, SenderOwe, SenderWait, SenderMsg, Block;
  }

  lemma ReceiveFlags(s: State, a: Tid, block: bool)
    ensures Receive(s, a, block).fl == s.fl
  {
    hide TakeFromSender, TakeQueued, TakeAndRefill, AwaitMsg;
    TakeFlags(s, a);
  }

  lemma MsgFlags(s: State, a: Tid, c: Call)
    requires MsgCall(c)
    ensures Told(s, MsgStep(s, a, c)) && Told(s, IsrMsgStep(s, c))
  {
    hide Send, SendReceive, SendIsr, Receive, Reply, Notified;
    if c.MsgSend? {
      SendFlags(s, a, c.pid, c.body, c.block);
      SendIsrFlags(s, c.pid, c.body);
    } else if c.MsgSendReceive? {
      SendReceiveFlags(s, a, c.pid, c.body);
    } else if c.MsgReply? {
      if c.pid in s.pids {
        ReplyFlags(s, s.pids[c.pid], c.reply);
      }
    } else if c.MsgReceive? {
      ReceiveFlags(s, a, c.block);
    }
  }

  lemma WakeupFlags(s: State, pid: nat)
    ensures Wakeup(s, pid).fl == s.fl
  {
    hide Owes, SetStatus, St;
    if pid in s.pids && St(s.k, s.pids[pid]).Sleeping? {
      assert Wakeup(s, pid) == s.(k := Wakeup(s, pid).k, ret := Ret.Int(1));
    } else {
      assert Wakeup(s, pid) == s.(ret := Ret.Int(NOT_FOUND));
    }
  }

  lemma KillZombieFlags(s: State, pid: nat)
    ensures KillZombie(s, pid).fl == s.fl
  {
    hide SetStatus, St;
    if pid in s.pids && St(s.k, s.pids[pid]).Zombie? {
      assert KillZombie(s, pid) == s.(k := KillZombie(s, pid).k, pids := s.pids - {pid}, ret := Ret.Int(1));
    } else {
      assert KillZombie(s, pid) == s.(ret := Ret.Int(NOT_FOUND));
    }
  }

  lemma CreateFlags(s: State, t: Tid, prio: nat, how: Start, flags: bv16)
    ensures Create(s, t, prio, how, flags).fl == s.fl || Create(s, t, prio, how, flags).fl == s.fl[t := flags]
  {
    hide ThreadSpec.Started, Registered, FreePid;
    var s' := Create(s, t, prio, how, flags);
    if prio >= PRIO_LEVELS {
      assert s' == s.(ret := Ret.Int(-EINVAL));
    } else if FreePid(s.pids, PID_FIRST).None? {
      assert s' == s.(ret := Ret.Int(-EOVERFLOW));
    } else {
      assert s'.fl == s.fl[t := flags];
    }
  }

  lemma OtherFlags(s: State, a: Tid, st: Status, t: Tid, prio: nat)
    ensures Sleep(s, a, st).fl == Exit(s, a).fl == ChangePriority(s, t, prio).fl == s.fl
  {
    hide SetStatus, SchedRun, Owes, Block, Reprioritised;
  }

  lemma ThreadFlags(s: State, a: Tid, c: Call)
    requires ThreadOp(c)
    ensures ThreadStep(s, a, c).fl == s.fl || (c.ThreadCreate? && ThreadStep(s, a, c).fl == s.fl[c.t := c.flags])
  {
    hide Wakeup, KillZombie, Create, Sleep, Exit, ChangePriority, Owes;
    if c.ThreadWakeup? {
      WakeupFlags(s, c.pid);
    } else if c.ThreadKillZombie? {
      KillZombieFlags(s, c.pid);
    } else if c.ThreadCreate? {
      CreateFlags(s, c.t, c.prio, c.how, c.flags);
    } else if c.ThreadPriority? {
      OtherFlags(s, a, Sleeping, c.t, c.prio);
    } else {
      OtherFlags(s, a, if c.ThreadSleep? then Sleeping else Zombie, 0, 0);
    }
  }

  lemma PutFlags(s: State, b: nat, m: Msg, block: bool)
    ensures Put(s, b, m, block).fl == s.fl
  {
    hide Owes, Block, WakeAt, Enqueued, Stamped, Full;
  }

  lemma FetchFlags(s: State, b: nat, block: bool)
    ensures Fetch(s, b, block).fl == s.fl
  {
    hide Owes, Block, WriterWake, Dequeued;
  }

  lemma PutReturnFlags(s: State, a: Tid)
    ensures PutReturn(s, a).fl == s.fl
  {
    hide Owes, Block, Enqueued, Stamped, Full;
  }

  // ---- Nobody else clears them ----

  /** The flags of `t` are all still there. */
  predicate Kept(s: State, s': State, t: Tid) {
    All(FlagsOf(s'.fl, t), FlagsOf(s.fl, t))
  }

  lemma AllOf(f: bv16)
    ensures All(f, f)
  {
  }

  lemma AllWith(f: bv16, n: bv16)
    ensures All(With(f, n), f)
  {
  }

  lemma AllTrans(f: bv16, g: bv16, h: bv16)
    requires All(g, f) && All(h, g)
    ensures All(h, f)
  {
    assert h & f == h & (g & f) == (h & g) & f;
  }

  lemma SameKept(s: State, s': State, t: Tid)
    requires s'.fl == s.fl
    ensures Kept(s, s', t)
  {
    hide All;
    AllOf(FlagsOf(s.fl, t));
  }

  lemma ToldKept(s: State, s': State, t: Tid)
    requires Told(s, s')
    ensures Kept(s, s', t)
  {
    hide All, With;
    AllOf(FlagsOf(s.fl, t));
    AllWith(FlagsOf(s.fl, t), MSG_WAITING);
  }

  lemma SetKept(s: State, t0: Tid, mask: bv16, t: Tid)
    ensures Kept(s, FlagsSet(s, t0, mask), t)
  {
    hide All, With, Owes, FlagWake, Wakes;
    AllOf(FlagsOf(s.fl, t));
    AllWith(FlagsOf(s.fl, t), mask);
  }

  lemma ClearKept(s: State, a: Tid, mask: bv16, t: Tid)
    requires t != a
    ensures Kept(s, FlagsClear(s, a, mask), t)
  {
    hide All, Without, Masked;
    AllOf(FlagsOf(s.fl, t));
  }

  lemma FlagWaitFlags(s: State, a: Tid, mask: bv16, st: Status, c: Cont)
    ensures FlagWait(s, a, mask, st, c).fl == s.fl
  {
    hide Owes, Block;
  }

  lemma WaitFlags(s: State, a: Tid, mask: bv16, one: bool)
    ensures WaitAny(s, a, mask, one).fl == WaitAll(s, a, mask).fl == s.fl
  {
    hide Any, All, FlagWait;
    FlagWaitFlags(s, a, mask, FlagBlockedAny, if one then ReadOne(mask) else ClearAny(mask));
    FlagWaitFlags(s, a, mask, FlagBlockedAll, ClearAll(mask));
  }

  lemma FlagReturnKept(s: State, a: Tid, t: Tid)
    requires t != a
    ensures Kept(s, FlagReturn(s, a), t)
  {
    hide Kept, FlagsClear, LowestFlag, Masked;
    match Co(s, a)
    case ClearAny(mask) => ClearKept(s, a, mask, t);
    case ClearOne(_, bit) => ClearKept(s, a, bit, t);
    case ClearAll(mask) => ClearKept(s, a, mask, t);
    case _ => SameKept(s, FlagReturn(s, a), t);
  }

  lemma CallKept(s: State, a: Tid, c: Call, t: Tid)
    requires CallOk(s, a, c) && t in s.ms.ch && t != a
    ensures Kept(s, ThreadCall(s, a, c), t)
  {
    hide Kept, MutexStep, MsgStep, ThreadStep, Put, Fetch, FlagsSet, FlagsClear, WaitAny, WaitAll;
    var s' := ThreadCall(s, a, c);
    if MutexCall(c) {
      MutexFlags(s, a, c);
      SameKept(s, s', t);
    } else if MsgCall(c) {
      MsgFlags(s, a, c);
      ToldKept(s, s', t);
    } else if ThreadOp(c) {
      ThreadKept(s, a, c, t);
    } else if c.FlagSet? {
      SetKept(s, c.t, c.mask, t);
    } else if c.FlagClear? {
      ClearKept(s, a, c.mask, t);
    } else if c.FlagWaitAny? || c.FlagWaitAll? {
      WaitFlags(s, a, c.mask, c.FlagWaitAny? && c.one);
      SameKept(s, s', t);
    } else {
      if c.MboxPut? {
        PutFlags(s, c.b, c.msg, c.block);
      } else if c.MboxGet? {
        FetchFlags(s, c.b, c.block);
      }
      SameKept(s, s', t);
    }
  }

  lemma ThreadKept(s: State, a: Tid, c: Call, t: Tid)
    requires ThreadOp(c) && CallOk(s, a, c) && t in s.ms.ch
    ensures Kept(s, ThreadStep(s, a, c), t)
  {
    hide ThreadStep, All;
    ThreadFlags(s, a, c);
    AllOf(FlagsOf(s.fl, t));
  }

  lemma IsrKept(s: State, c: Call, t: Tid)
    ensures Kept(s, IsrCall(s, c), t)
  {
    hide Kept, IsrMutexStep, IsrMsgStep, Put, Fetch, FlagsSet, Wakeup, KillZombie, MutexCall, MsgCall;
    var s' := IsrCall(s, c);
    if MutexCall(c) {
      MutexFlags(s, t, c);
      SameKept(s, s', t);
    } else if MsgCall(c) {
      MsgFlags(s, t, c);
      ToldKept(s, s', t);
    } else if c.FlagSet? {
      SetKept(s, c.t, c.mask, t);
    } else {
      IsrSameFlags(s, c);
      SameKept(s, s', t);
    }
  }

  lemma IsrSameFlags(s: State, c: Call)
    requires !c.FlagSet?
    ensures IsrOtherStep(s, c).fl == s.fl
  {
    hide Put, Fetch, Wakeup, KillZombie;
    if c.MboxPut? {
      PutFlags(s, c.b, c.msg, false);
    } else if c.MboxGet? {
      FetchFlags(s, c.b, false);
    } else if c.ThreadWakeup? {
      WakeupFlags(s, c.pid);
    } else if c.ThreadKillZombie? {
      KillZombieFlags(s, c.pid);
    }
  }

  lemma ResumeKept(s: State, a: Tid, t: Tid)
    requires t != a || !Ow(s.k, a).Nothing?
    ensures Kept(s, Resume(s, a), t)
  {
    hide Kept, Pay, LockReturn, Lock, FlagReturn, PutReturn;
    if !Ow(s.k, a).Nothing? {
      SameKept(s, Resume(s, a), t);
    } else if LockCont(Co(s, a)) {
      LockReturnFlags(s, a);
      if Co(s, a).Relock? {
        LockFlags(s, a, Co(s, a).mutex, true);
      }
      SameKept(s, Resume(s, a), t);
    } else if Co(s, a).PutRetry? {
      PutReturnFlags(s, a);
      SameKept(s, Resume(s, a), t);
    } else {
      FlagReturnKept(s, a, t);
    }
  }

  /** The flags of `t` that are set. */
  function FlagsIn(s: State, t: Tid): set<nat> {
    SetOf(FlagsOf(s.fl, t))
  }

  /** A step that is not one of `t` itself clears none of its flags. */
  lemma OnlyOwnerClears(s: State, e: Event, t: Tid)
    requires Enabled(s, e) && t in s.ms.ch && !OwnStep(s, e, t)
    ensures FlagsIn(s, t) <= FlagsIn(Step(s, e), t)
  {
    hide Enabled, Step, OwnStep, All, SetOf;
    NoneCleared(s, e, t);
    WaitOps(FlagsOf(Step(s, e).fl, t), FlagsOf(s.fl, t));
  }

  lemma NoneCleared(s: State, e: Event, t: Tid)
    requires Enabled(s, e) && t in s.ms.ch && !OwnStep(s, e, t)
    ensures Kept(s, Step(s, e), t)
  {
    hide Kept, ThreadCall, Resume, IsrCall, IsrEnter, IsrExit, SchedRun, CallOk, IsrOk;
    match e
    case Thr(c) => CallKept(s, s.k.cpu.active.value, c, t);
    case Continue => ResumeKept(s, s.k.cpu.active.value, t);
    case Intr(c) => IsrKept(s, c, t);
    case _ => SameKept(s, Step(s, e), t);
  }

  // ---- The wait calls ----

  /** An unfinished wait call stays where it is until its thread goes on. */
  lemma StaysInWait(s: State, e: Event, t: Tid)
    requires Enabled(s, e) && FamilyOf(Co(s, t)) == FlagFamily && !GoesOn(s, e, t)
    ensures Co(Step(s, e), t) == Co(s, t) && !OwnStep(s, e, t)
  {
    hide ThreadCall, IsrCall, IsrEnter, IsrExit, SchedRun, Pay, CallOk, IsrOk, Lock, LockReturn, PutReturn, FlagReturn;
    if !Acts(s, e, t) {
      OthersRemain(s, e, t);
    }
  }

  lemma Waiting(s: State, t: Tid)
    requires KernelInv(s) && FamilyOf(Co(s, t)) == FlagFamily
    ensures t in s.ms.ch
  {
    hide SchedOk, MutexOk, FlagInv, MsgInv, MboxInv;
  }

  lemma {:induction false} WaitRun(s: State, es: seq<Event>, t: Tid)
    requires KernelInv(s) && Valid(s, es) && FamilyOf(Co(s, t)) == FlagFamily && Unfinished(s, es, t)
    ensures var s' := After(s, es); KernelInv(s') && Co(s', t) == Co(s, t) && Kept(s, s', t)
    decreases |es|
  {
    hide KernelInv, Enabled, Step, Sorts, GoesOn, OwnStep, FamilyOf, All;
    if es == [] {
      AllOf(FlagsOf(s.fl, t));
    } else {
      var s1 := Step(s, es[0]);
      StepKeeps(s, es[0]);
      StaysInWait(s, es[0], t);
      Waiting(s, t);
      NoneCleared(s, es[0], t);
      WaitRun(s1, es[1..], t);
      AllTrans(FlagsOf(s.fl, t), FlagsOf(s1.fl, t), FlagsOf(After(s, es).fl, t));
    }
  }

  /** The next step of the wait call that `a` is in. */
  lemma GoesOnWaiting(s: State, a: Tid)
    requires Calling(s, a) && FamilyOf(Co(s, a)) == FlagFamily
    ensures Enabled(s, Continue) && Step(s, Continue) == FlagReturn(s, a)
  {
    hide FlagReturn, PutReturn, LockReturn, Lock;
  }

  lemma Cleared(s: State, a: Tid, bits: bv16)
    requires (Co(s, a).ClearOne? && Co(s, a).bit == bits) || ((Co(s, a).ClearAll? || Co(s, a).ClearAny?) && Co(s, a).mask == bits)
    ensures var s', f := FlagReturn(s, a), FlagsOf(s.fl, a);
      Co(s', a) == User && FlagsOf(s'.fl, a) == Without(f, Masked(f, bits))
  {
    hide Without, Masked;
  }

  lemma WaitParts(s: State)
    requires KernelInv(s)
    ensures SchedOk(s.k) && FlagInv(s)
  {
  }

  lemma WaitBits(s: State, es: seq<Event>, a: Tid)
    requires KernelInv(s) && (Co(s, a).ClearAll? || Co(s, a).ClearAny?)
    requires Valid(s, es) && Unfinished(s, es, a) && Calling(After(s, es), a)
    ensures var mask, s1, s2 := Co(s, a).mask, After(s, es), Step(After(s, es), Continue);
      var f := FlagsOf(s1.fl, a);
      && Co(s2, a) == User && All(f, FlagsOf(s.fl, a))
      && s2.ret == Flags(Masked(f, mask)) && FlagsOf(s2.fl, a) == Without(f, Masked(f, mask))
      && (Co(s, a).ClearAny? ==> Masked(f, mask) != 0)
      && (Co(s, a).ClearAll? ==> Masked(f, mask) == mask)
  {
    hide KernelInv, SchedOk, FlagInv, Valid, After, Unfinished, Step, Calling, All, Masked, Without, FlagReturn;
    WaitRun(s, es, a);
    var s1 := After(s, es);
    WaitParts(s1);
    GoesOnWaiting(s1, a);
    FlagReturnValue(s1, a);
    if Co(s, a).ClearAll? {
      FlagReturnMask(s1, a);
    }
    Cleared(s1, a, Co(s, a).mask);
  }

  /**
    `thread_flags_wait_all` returns exactly its mask and `thread_flags_wait_any` the masked
    flags, at least one, which are then cleared, whatever other threads and interrupt
    handlers do before the call ends.
  */
  lemma WaitReturns(s: State, es: seq<Event>, a: Tid)
    requires KernelInv(s) && (Co(s, a).ClearAll? || Co(s, a).ClearAny?)
    requires Valid(s, es) && Unfinished(s, es, a) && Calling(After(s, es), a)
    ensures var mask, s1, s2 := SetOf(Co(s, a).mask), After(s, es), Step(After(s, es), Continue);
      && Co(s2, a) == User && s2.ret.Flags?
      && FlagsIn(s, a) <= FlagsIn(s1, a)
      && SetOf(s2.ret.bits) == FlagsIn(s1, a) * mask && FlagsIn(s2, a) == FlagsIn(s1, a) - mask
      && (Co(s, a).ClearAny? ==> SetOf(s2.ret.bits) != {})
      && (Co(s, a).ClearAll? ==> SetOf(s2.ret.bits) == mask)
  {
    hide KernelInv, Valid, After, Unfinished, Step, Calling, All, Masked, Without, SetOf;
    WaitBits(s, es, a);
    var f, mask := FlagsOf(After(s, es).fl, a), Co(s, a).mask;
    SetOps(f, mask);
    SetOps(f, Masked(f, mask));
    NoFlags(Masked(f, mask));
    WaitOps(f, FlagsOf(s.fl, a));
    assert SetOf(f) - SetOf(f) * SetOf(mask) == SetOf(f) - SetOf(mask);
  }

  lemma FlagReturnMask(s: State, a: Tid)
    requires SchedOk(s.k) && FlagInv(s) && Calling(s, a) && Co(s, a).ClearAll?
    ensures Masked(FlagsOf(s.fl, a), Co(s, a).mask) == Co(s, a).mask
  {
    hide Inv, Act, Any, All, Masked, OneOf;
    CallerCanBlock(s.k, a);
    AllMasked(FlagsOf(s.fl, a), Co(s, a).mask);
  }

  lemma WaitOneBits(s: State, es: seq<Event>, a: Tid, mask: bv16)
    requires KernelInv(s) && Calling(s, a) && Co(s, a) == ReadOne(mask)
    requires var s1 := Step(s, Continue); Valid(s1, es) && Unfinished(s1, es, a) && Calling(After(s1, es), a)
    ensures var s1 := Step(s, Continue);
      var s2, s3 := After(s1, es), Step(After(s1, es), Continue);
      && Co(s3, a) == User && s3.ret.Flags? && OneOf(s3.ret.bits, mask)
      && IsLowestOf(s3.ret.bits, Masked(FlagsOf(s.fl, a), mask))
      && All(FlagsOf(s2.fl, a), FlagsOf(s.fl, a)) && FlagsOf(s3.fl, a) == Without(FlagsOf(s2.fl, a), s3.ret.bits)
  {
    hide KernelInv, SchedOk, FlagInv, Valid, After, Unfinished, Step, Calling, All, Masked, Without, FlagReturn, OneOf, IsLowestOf;
    var s1 := Step(s, Continue);
    var s2 := After(s1, es);
    WaitParts(s);
    GoesOnWaiting(s, a);
    FlagReturnValue(s, a);
    ReadKeeps(s, a);
    StepKeeps(s, Continue);
    WaitRun(s1, es, a);
    WaitParts(s2);
    GoesOnWaiting(s2, a);
    FlagReturnValue(s2, a);
    FlagReturnBit(s2, a);
    Cleared(s2, a, Co(s2, a).bit);
  }

  /**
    `thread_flags_wait_one` returns the single flag that was the lowest masked one when it
    looked, and clears exactly that one: until it does, only more flags can be set.
  */
  lemma WaitOneReturns(s: State, es: seq<Event>, a: Tid, mask: bv16) returns (i: nat)
    requires KernelInv(s) && Calling(s, a) && Co(s, a) == ReadOne(mask)
    requires var s1 := Step(s, Continue); Valid(s1, es) && Unfinished(s1, es, a) && Calling(After(s1, es), a)
    ensures var s2 := After(Step(s, Continue), es);
      var s3 := Step(s2, Continue);
      && Co(s3, a) == User && s3.ret.Flags? && SetOf(s3.ret.bits) == {i}
      && IsLeast(i, FlagsIn(s, a) * SetOf(mask))
      && FlagsIn(s, a) <= FlagsIn(s2, a) && FlagsIn(s3, a) == FlagsIn(s2, a) - {i}
  {
    hide KernelInv, Valid, After, Unfinished, Step, Calling, All, Masked, Without, OneOf, IsLowestOf, SetOf;
    WaitOneBits(s, es, a, mask);
    var s2 := After(Step(s, Continue), es);
    var b := Step(s2, Continue).ret.bits;
    SetOps(FlagsOf(s.fl, a), mask);
    SetOps(FlagsOf(s2.fl, a), b);
    WaitOps(FlagsOf(s2.fl, a), FlagsOf(s.fl, a));
    i := LowestSet(b, Masked(FlagsOf(s.fl, a), mask));
  }

  lemma ReadKeeps(s: State, a: Tid)
    requires Co(s, a).ReadOne?
    ensures FlagReturn(s, a).fl == s.fl && Co(FlagReturn(s, a), a).ClearOne? && Co(FlagReturn(s, a), a).mask == Co(s, a).mask
  {
    hide LowestFlag, Masked;
  }

  lemma FlagReturnBit(s: State, a: Tid)
    requires SchedOk(s.k) && FlagInv(s) && Calling(s, a) && Co(s, a).ClearOne?
    ensures Masked(FlagsOf(s.fl, a), Co(s, a).bit) == Co(s, a).bit
  {
    hide Inv, Act, Any, All, Masked, OneOf;
    CallerCanBlock(s.k, a);
    AllMasked(FlagsOf(s.fl, a), Co(s, a).bit);
  }
}
