/**
  The kernel as a state machine. A step is one critical section of a kernel call made by the
  running thread or by an interrupt handler, the reschedule that a thread owes, the rest of a
  call that blocked, or entering and leaving an interrupt. Every interleaving of these steps
  is a run.
*/
module Kernel {
  import opened Wrappers
  import opened Sched
  import opened Reschedule
  import opened KernelState
  import opened MutexSpec
  import opened FlagSpec
  import opened MsgSpec
  import opened MsgSteps
  import opened MboxSpec
  import opened ThreadSpec
  import opened Frames

  datatype Call =
    | MutexLock(m: nat, block: bool)
    | MutexLockCancelable(x: nat)
    | MutexUnlock(m: nat)
    | MutexUnlockAndSleep(m: nat)
    | MutexCancelInit(x: nat, m: nat)
    | MutexCancel(x: nat)
    | CondWaiting(c: nat, m: nat)
    | CondSignal(c: nat, broadcast: bool)
    | FlagSet(t: Tid, mask: bv16)
    | FlagClear(mask: bv16)
    | FlagWaitAny(mask: bv16, one: bool)
    | FlagWaitAll(mask: bv16)
    | MsgSend(pid: nat, body: int, block: bool)
    | MsgSendReceive(pid: nat, body: int)
    | MsgReply(pid: nat, reply: Msg)
    | MsgReceive(block: bool)
    | MsgInitQueue(n: nat)
    | MboxInit(b: nat, cap: nat)
    | MboxPut(b: nat, msg: Msg, block: bool)
    | MboxGet(b: nat, block: bool)
    | ThreadYield(rotate: bool)
    | ThreadSleep
    | ThreadWakeup(pid: nat)
    | ThreadZombify
    | ThreadKillZombie(pid: nat)
    | ThreadExit
    | ThreadCreate(t: Tid, prio: nat, how: Start, flags: bv16)
    | ThreadPriority(t: Tid, prio: nat)

  datatype Event =
    | Thr(call: Call)
    | Continue
    | Enter
    | Intr(call: Call)
    | Leave
    | Wake

  // ---- Steps ----

  function CancelInit(s: State, x: nat, m: nat, a: Tid): State {
    s.(mc := s.mc[x := Canceller(m, a, false)])
  }

  function InitBox(s: State, b: nat, cap: nat): State {
    s.(mb := s.mb[b := Mbox(cap, [], [], [], false)])
  }

  predicate MutexCall(c: Call) {
    c.MutexLock? || c.MutexLockCancelable? || c.MutexUnlock? || c.MutexUnlockAndSleep? || c.MutexCancelInit? || c.MutexCancel?
    || c.CondWaiting? || c.CondSignal?
  }

  predicate MsgCall(c: Call) {
    c.MsgSend? || c.MsgSendReceive? || c.MsgReply? || c.MsgReceive? || c.MsgInitQueue?
  }

  predicate ThreadOp(c: Call) {
    c.ThreadYield? || c.ThreadSleep? || c.ThreadWakeup? || c.ThreadZombify? || c.ThreadKillZombie? || c.ThreadExit?
    || c.ThreadCreate? || c.ThreadPriority?
  }

  function ThreadCall(s: State, a: Tid, c: Call): State {
    if MutexCall(c) then MutexStep(s, a, c)
    else if MsgCall(c) then MsgStep(s, a, c)
    else if ThreadOp(c) then ThreadStep(s, a, c)
    else FlagMboxStep(s, a, c)
  }

  function MutexStep(s: State, a: Tid, c: Call): State {
    match c
    case MutexLock(m, block) => Lock(s, a, m, block)
    case MutexLockCancelable(x) => if x in s.mc then LockCancelable(s, a, x) else s
    case MutexUnlock(m) => Unlock(s, m)
    case MutexUnlockAndSleep(m) => UnlockAndSleep(s, a, m)
    case MutexCancelInit(x, m) => CancelInit(s, x, m, a)
    case MutexCancel(x) => if x in s.mc then Cancel(s, x) else s
    case CondWaiting(c, m) => CondWait(s, a, c, m)
    case CondSignal(c, broadcast) => Signal(s, c, broadcast)
    case _ => s
  }

  function MsgStep(s: State, a: Tid, c: Call): State {
    match c
    case MsgSend(pid, body, block) => Send(s, a, pid, body, block)
    case MsgSendReceive(pid, body) => SendReceive(s, a, pid, body)
    case MsgReply(pid, reply) => if pid in s.pids then Reply(s, s.pids[pid], reply) else s
    case MsgReceive(block) => Receive(s, a, block)
    case MsgInitQueue(n) => InitQueue(s, a, n)
    case _ => s
  }

  function FlagMboxStep(s: State, a: Tid, c: Call): State {
    match c
    case FlagSet(t, mask) => FlagsSet(s, t, mask)
    case FlagClear(mask) => FlagsClear(s, a, mask)
    case FlagWaitAny(mask, one) => WaitAny(s, a, mask, one)
    case FlagWaitAll(mask) => WaitAll(s, a, mask)
    case MboxInit(b, cap) => InitBox(s, b, cap)
    case MboxPut(b, msg, block) => Put(s, b, msg, block)
    case MboxGet(b, block) => Fetch(s, b, block)
    case _ => s
  }

  function ThreadStep(s: State, a: Tid, c: Call): State {
    match c
    case ThreadYield(rotate) => s.(k := Owes(s.k, if rotate then YieldRotate else YieldHigher))
    case ThreadSleep => Sleep(s, a, Sleeping)
    case ThreadWakeup(pid) => Wakeup(s, pid)
    case ThreadZombify => Sleep(s, a, Zombie)
    case ThreadKillZombie(pid) => KillZombie(s, pid)
    case ThreadExit => Exit(s, a)
    case ThreadCreate(t, prio, how, flags) => Create(s, t, prio, how, flags)
    case ThreadPriority(t, prio) => ChangePriority(s, t, prio)
    case _ => s
  }

  /** The calls that interrupt handlers make. */
  function IsrCall(s: State, c: Call): State {
    if MutexCall(c) then IsrMutexStep(s, c)
    else if MsgCall(c) then IsrMsgStep(s, c)
    else IsrOtherStep(s, c)
  }

  function IsrMutexStep(s: State, c: Call): State {
    match c
    case MutexUnlock(m) => Unlock(s, m)
    case MutexCancel(x) => if x in s.mc then Cancel(s, x) else s
    case CondSignal(c, broadcast) => Signal(s, c, broadcast)
    case _ => s
  }

  function IsrMsgStep(s: State, c: Call): State {
    match c
    case MsgSend(pid, body, block) => SendIsr(s, pid, body)
    case MsgReply(pid, reply) => if pid in s.pids then Reply(s, s.pids[pid], reply) else s
    case _ => s
  }

  function IsrOtherStep(s: State, c: Call): State {
    match c
    case FlagSet(t, mask) => FlagsSet(s, t, mask)
    case MboxPut(b, msg, block) => Put(s, b, msg, false)
    case MboxGet(b, block) => Fetch(s, b, false)
    case ThreadWakeup(pid) => Wakeup(s, pid)
    case ThreadKillZombie(pid) => KillZombie(s, pid)
    case _ => s
  }

  /** The thread goes on: first it reschedules if it owes that, then it finishes its call. */
  function Resume(s: State, a: Tid): State {
    if !Ow(s.k, a).Nothing? then s.(k := Pay(s.k, a))
    else
      match Co(s, a)
      case Locking(_) => LockReturn(s, a)
      case CancelCheck(_) => LockReturn(s, a)
      case Relock(m) => Lock(s, a, m, true)
      case PutRetry(_, _) => PutReturn(s, a)
      case _ => FlagReturn(s, a)
  }

  function Step(s: State, e: Event): State {
    match e
    case Thr(c) => if s.k.cpu.active.Some? then ThreadCall(s, s.k.cpu.active.value, c) else s
    case Continue => if s.k.cpu.active.Some? then Resume(s, s.k.cpu.active.value) else s
    case Enter => s.(k := IsrEnter(s.k))
    case Intr(c) => IsrCall(s, c)
    case Leave => s.(k := IsrExit(s.k))
    case Wake => s.(k := SchedRun(s.k))
  }

  // ---- What callers must respect ----

  predicate CallOk(s: State, a: Tid, c: Call) {
    match c
    case MutexLockCancelable(x) => x in s.mc && s.mc[x].thread == a
    case MutexCancelInit(x, m) => x in s.mc ==> Co(s, s.mc[x].thread) != CancelCheck(x)
    case MutexCancel(x) => CancelAllowed(s, x)
    case MsgSendReceive(pid, _) => pid in s.pids && pid != PidOf(s, a)
    case MsgReply(pid, _) => ReplyAllowed(s, pid)
    case MsgInitQueue(n) => ChanOf(s.ms, a).queue == [] && (L(s.k.q, SendQ(a)) != [] ==> n == 0)
    case MboxInit(b, _) => b !in s.mb
    case MboxPut(b, _, _) => b in s.mb
    case MboxGet(b, _) => b in s.mb
    case ThreadCreate(t, _, _, _) => t !in s.k.status && t !in s.ms.ch
    case ThreadPriority(t, prio) => t in s.k.status && prio < PRIO_LEVELS && Movable(s.k, t)
    case _ => true
  }

  /** Only the receiver of a request replies to it. */
  predicate ReplyAllowed(s: State, pid: nat) {
    pid in s.pids && (St(s.k, s.pids[pid]).ReplyBlocked? ==> s.pids[pid] !in s.k.q.on)
  }

  /** The calls allowed in an interrupt handler; `sched_switch` needs an active thread also there. */
  predicate IsrOk(s: State, c: Call) {
    match c
    case MutexUnlock(_) => s.k.cpu.active.Some?
    case MutexCancel(x) => s.k.cpu.active.Some? && CancelAllowed(s, x)
    case CondSignal(_, _) => s.k.cpu.active.Some?
    case FlagSet(_, _) => true
    case MsgSend(_, _, _) => true
    case MsgReply(pid, _) => ReplyAllowed(s, pid)
    case MboxPut(b, _, _) => s.k.cpu.active.Some? && b in s.mb
    case MboxGet(b, _) => s.k.cpu.active.Some? && b in s.mb
    case ThreadWakeup(_) => s.k.cpu.active.Some?
    case ThreadKillZombie(_) => true
    case _ => false
  }

  predicate Enabled(s: State, e: Event) {
    match e
    case Thr(c) => s.k.cpu.active.Some? && Calling(s, s.k.cpu.active.value) && Co(s, s.k.cpu.active.value) == User
                   && CallOk(s, s.k.cpu.active.value, c)
    case Continue => !s.k.cpu.isr && !s.k.cpu.idle && s.k.cpu.active.Some?
    case Enter => !s.k.cpu.isr
    case Intr(c) => s.k.cpu.isr && IsrOk(s, c)
    case Leave => s.k.cpu.isr
    case Wake => s.k.cpu.idle && !s.k.cpu.isr && s.k.q.bits != {}
  }

  ghost predicate KernelInv(s: State) {
    SchedOk(s.k) && MutexOk(s) && FlagInv(s) && MsgInv(s) && MboxInv(s) && Tabled(s)
  }
}
