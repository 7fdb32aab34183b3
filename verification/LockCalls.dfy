/** What the calls of `mutex.c` and `cond.c` have achieved when they return, block or go on. */
module LockCalls {
  import opened Wrappers
  import opened Queues
  import opened Sched
  import opened Reschedule
  import opened KernelState
  import opened MutexSpec
  import opened Frames
  import opened Kernel
  import opened KernelSteps
  import opened Remainders
  import opened MutexRuns
  import opened CondRuns
  import opened LockRuns

  // ---- Statuses ----

  lemma OwesStatus(k: Sched, o: Owe)
    ensures Owes(k, o).status == k.status && Owes(k, o).q == k.q && Owes(k, o).prio == k.prio
    ensures Owes(k, o).cpu.active == k.cpu.active && Owes(k, o).cpu.isr == k.cpu.isr
  {
  }

  lemma BlockStatus(k: Sched, a: Tid, st: Status, wl: Option<ListId>)
    ensures Block(k, a, st, wl).status == k.status[a := st]
  {
    hide AddToList, RunqueuePush, RunqueuePop;
  }

  lemma WakeStatus(k: Sched, id: ListId, i: nat)
    requires i < |L(k.q, id)|
    ensures WakeAt(k, id, i).status == k.status[L(k.q, id)[i] := Pending]
  {
    hide Unlink, RunqueuePush, RunqueuePop;
  }

  // ---- Locking ----

  /** The caller waits for `m`, and the rest of its call is `c`. */
  predicate Waits(s: State, s': State, a: Tid, m: nat, c: Cont) {
    Co(s', a) == c && a in Waiters(s', m) && St(s'.k, a).MutexBlocked? && s'.mx.holds == s.mx.holds
  }

  lemma BlockOnWaits(s: State, a: Tid, m: nat, c: Cont)
    requires SchedOk(s.k) && Calling(s, a)
    ensures Waits(s, BlockOn(s, a, m, c), a, m, c)
  {
    hide SchedOk, Owes, Block, InsertPos;
    var q := Waiters(s, m);
    BlockOnLists(s, a, m, c, m);
    BlockStatus(s.k, a, MutexBlocked, Some(MutexQ(m)));
    OwesStatus(Block(s.k, a, MutexBlocked, Some(MutexQ(m))), YieldHigher);
    assert InsertAt(q, InsertPos(s.k.prio, q, Pr(s.k, a)), a)[InsertPos(s.k.prio, q, Pr(s.k, a))] == a;
  }

  /** The mutex is free and was so before: nobody holds it. */
  lemma FreeForAll(s: State, a: Tid, m: nat)
    requires KernelInv(s) && Unlocked(s.k.q, s.mx, m)
    ensures (a, m) !in s.mx.holds
  {
    hide KernelInv, Unlocked, Holders;
    FreeMeansNone(s, m);
    IsHolder(s.mx.holds, a, m);
  }

  /**
    `mutex_lock` and `mutex_trylock`: a call that is through returns 1 exactly if it got the
    mutex, which it does exactly if that was free, and 0 otherwise; 0 is returned only by
    trylock, and nothing else happened. Any other call waits.
  */
  lemma LockResult(s: State, m: nat, block: bool)
    requires KernelInv(s) && Enabled(s, Thr(MutexLock(m, block)))
    ensures var a, s' := s.k.cpu.active.value, Step(s, Thr(MutexLock(m, block)));
      if Co(s', a) == User then
        && (s'.ret == Ret.Int(1) || s'.ret == Ret.Int(0))
        && (s'.ret == Ret.Int(1) <==> (a, m) in s'.mx.holds && (a, m) !in s.mx.holds)
        && (s'.ret == Ret.Int(1) <==> m !in s.mx.mark && Waiters(s, m) == [])
        && (s'.ret == Ret.Int(0) ==> !block && s' == s.(ret := Ret.Int(0)))
      else
        block && (m in s.mx.mark || Waiters(s, m) != []) && Waits(s, s', a, m, Locking(m))
  {
    hide KernelInv, BlockOn, Ready, Waiters;
    var a := s.k.cpu.active.value;
    assert Step(s, Thr(MutexLock(m, block))) == Lock(s, a, m, block);
    LockSplit(s, a, m, block);
    FreeIs(s, m);
    hide Lock, Unlocked;
    if Unlocked(s.k.q, s.mx, m) {
      FreeForAll(s, a, m);
    } else if block {
      Parts(s);
      BlockOnWaits(s, a, m, Locking(m));
    }
  }

  lemma LockSplit(s: State, a: Tid, m: nat, block: bool)
    ensures var s' := Lock(s, a, m, block);
      if Unlocked(s.k.q, s.mx, m) then
        Co(s', a) == User && s'.ret == Ret.Int(1) && s'.mx.holds == s.mx.holds + {(a, m)}
      else if !block then s' == s.(ret := Ret.Int(0))
      else s' == BlockOn(s, a, m, Locking(m))
  {
    hide BlockOn, Unlocked;
  }

  lemma Parts(s: State)
    requires KernelInv(s)
    ensures SchedOk(s.k) && MutexOk(s)
  {
  }

  lemma FreeIs(s: State, m: nat)
    ensures Unlocked(s.k.q, s.mx, m) <==> m !in s.mx.mark && Waiters(s, m) == []
  {
  }

  /**
    `mutex_lock_cancelable`: a call that was cancelled before returns that, and nothing else
    happened. Otherwise it returns 0 with the mutex exactly if that was free, and else waits.
  */
  lemma CancelableResult(s: State, x: nat)
    requires KernelInv(s) && Enabled(s, Thr(MutexLockCancelable(x)))
    ensures x in s.mc
    ensures var a, m, s' := s.k.cpu.active.value, s.mc[x].mutex, Step(s, Thr(MutexLockCancelable(x)));
      if s.mc[x].cancelled then s' == s.(ret := Ret.Cancelled)
      else if m !in s.mx.mark && Waiters(s, m) == [] then
        Co(s', a) == User && s'.ret == Ret.Int(0) && (a, m) in s'.mx.holds && (a, m) !in s.mx.holds
      else
        Waits(s, s', a, m, CancelCheck(x))
  {
    hide KernelInv, BlockOn, Ready, Waiters;
    var a, m := s.k.cpu.active.value, s.mc[x].mutex;
    FreeIs(s, m);
    if Unlocked(s.k.q, s.mx, m) {
      FreeForAll(s, a, m);
    } else if !s.mc[x].cancelled {
      Parts(s);
      BlockOnWaits(s, a, m, CancelCheck(x));
    }
  }

  /** A fresh canceller for `m` makes `mutex_lock_cancelable` lock exactly that mutex. */
  lemma FreshCanceller(s: State, x: nat, m: nat)
    requires KernelInv(s) && Enabled(s, Thr(MutexCancelInit(x, m)))
    ensures var a, s1 := s.k.cpu.active.value, Step(s, Thr(MutexCancelInit(x, m)));
      var s2 := Step(s1, Thr(MutexLockCancelable(x)));
      && Enabled(s1, Thr(MutexLockCancelable(x))) && s1.mx == s.mx && s1.k == s.k
      && (forall y :: y in s.mc && y != x ==> y in s1.mc && s1.mc[y] == s.mc[y])
      && if m !in s.mx.mark && Waiters(s, m) == [] then
           Co(s2, a) == User && s2.ret == Ret.Int(0) && (a, m) in s2.mx.holds
         else
           Waits(s1, s2, a, m, CancelCheck(x))
  {
    hide KernelInv, BlockOn, Ready;
    var a := s.k.cpu.active.value;
    var s1 := Step(s, Thr(MutexCancelInit(x, m)));
    assert s1 == s.(mc := s.mc[x := Canceller(m, a, false)]);
    StepKeeps(s, Thr(MutexCancelInit(x, m)));
    CancelableResult(s1, x);
  }

  // ---- Unlocking ----

  /** The status of `t` once `m` is unlocked: the first waiter is PENDING. */
  function Released(s: State, m: nat, t: Tid): Status {
    if Waiters(s, m) != [] && t == Waiters(s, m)[0] then Pending else St(s.k, t)
  }

  /** `mutex_unlock`: the first waiter is PENDING, and nobody else's status changes. */
  lemma UnlockResult(s: State, e: Event, m: nat, t: Tid)
    requires Enabled(s, e) && (e == Thr(MutexUnlock(m)) || e == Intr(MutexUnlock(m)))
    ensures St(Step(s, e).k, t) == Released(s, m, t) && Step(s, e).cont == s.cont
  {
    hide Ready, Owes, ReleaseMutex, ReleaseWake, ReleaseOwe;
    assert Step(s, e) == Unlock(s, m);
    ReleaseStatus(s.k, m);
    OwesStatus(ReleaseWake(s.k, m), ReleaseOwe(s, m));
  }

  /** So it is for `mutex_unlock_and_sleep`, whose caller is SLEEPING. */
  lemma UnlockAndSleepResult(s: State, m: nat, t: Tid)
    requires Enabled(s, Thr(MutexUnlockAndSleep(m)))
    ensures var a, s' := s.k.cpu.active.value, Step(s, Thr(MutexUnlockAndSleep(m)));
      St(s'.k, t) == (if t == a then Sleeping else Released(s, m, t)) && Co(s', a) == User
  {
    hide Ready, Owes, ReleaseMutex, ReleaseWake, Block;
    var a := s.k.cpu.active.value;
    assert Step(s, Thr(MutexUnlockAndSleep(m))) == UnlockAndSleep(s, a, m);
    ReleaseStatus(s.k, m);
    BlockAfter(ReleaseWake(s.k, m), false, a, Sleeping, None);
  }

  /** And for `cond_wait`, whose caller is COND_BLOCKED, with the mutex still to be locked again. */
  lemma CondWaitResult(s: State, c: nat, m: nat, t: Tid)
    requires Enabled(s, Thr(CondWaiting(c, m)))
    ensures var a, s' := s.k.cpu.active.value, Step(s, Thr(CondWaiting(c, m)));
      St(s'.k, t) == (if t == a then CondBlocked else Released(s, m, t)) && Co(s', a) == Relock(m)
  {
    hide Ready, Owes, ReleaseMutex, ReleaseWake, ReleaseOwe, Block;
    var a := s.k.cpu.active.value;
    assert Step(s, Thr(CondWaiting(c, m))) == CondWait(s, a, c, m);
    ReleaseStatus(s.k, m);
    var request := ReleaseOwe(s, m).Switch? && Pr(s.k, a) > ReleaseOwe(s, m).prio;
    BlockAfter(ReleaseWake(s.k, m), request, a, CondBlocked, Some(CondQ(c)));
  }

  lemma ReleaseStatus(k: Sched, m: nat)
    ensures var q := L(k.q, MutexQ(m));
      ReleaseWake(k, m).status == if q == [] then k.status else k.status[q[0] := Pending]
  {
    hide WakeAt;
    if L(k.q, MutexQ(m)) != [] {
      WakeStatus(k, MutexQ(m), 0);
    }
  }

  lemma BlockAfter(k1: Sched, request: bool, a: Tid, st: Status, wl: Option<ListId>)
    ensures Owes(Block(if request then Request(k1) else k1, a, st, wl), YieldHigher).status == k1.status[a := st]
  {
    hide Owes, Block;
    var k2 := if request then Request(k1) else k1;
    BlockStatus(k2, a, st, wl);
    OwesStatus(Block(k2, a, st, wl), YieldHigher);
  }

  /**
    `mutex_cancel`: the canceller is marked; its thread, if it waits for the mutex, is PENDING
    and no longer in the queue; no other thread, canceller or holder changes.
  */
  lemma CancelResult(s: State, e: Event, x: nat)
    requires KernelInv(s) && Enabled(s, e) && Cancels(s, e, x)
    ensures x in s.mc
    ensures var t, m, s' := s.mc[x].thread, s.mc[x].mutex, Step(s, e);
      && s'.mc == s.mc[x := Canceller(m, t, true)] && s'.mx.holds == s.mx.holds
      && t !in Waiters(s', m)
      && (forall u :: St(s'.k, u) == if u == t && t in Waiters(s, m) then Pending else St(s.k, u))
  {
    hide KernelInv, Ready, Cancel, Cancellable;
    assert Step(s, e) == Cancel(s, x);
    Parts(s);
    InCtx(s, e);
    CancelQueue(s, x);
    CancelStatus(s, x);
  }

  lemma CancelStatus(s: State, x: nat)
    requires x in s.mc
    ensures var t, s' := s.mc[x].thread, Cancel(s, x);
      && s'.mc == s.mc[x := Canceller(s.mc[x].mutex, t, true)]
      && (forall u :: St(s'.k, u) == if u == t && Cancellable(s, x) then Pending else St(s.k, u))
  {
    hide Owes, CancelMutex, WakeAt, IndexOf;
    var t, m := s.mc[x].thread, s.mc[x].mutex;
    OwesStatus(s.k, Nothing);
    if Cancellable(s, x) {
      var i := IndexOf(L(s.k.q, MutexQ(m)), t);
      WakeStatus(s.k, MutexQ(m), i);
      OwesStatus(WakeAt(s.k, MutexQ(m), i), Switch(Pr(s.k, t)));
    }
  }

  lemma InCtx(s: State, e: Event)
    requires Enabled(s, e) && (e.Thr? || e.Intr?)
    ensures InContext(s.k)
  {
  }

  lemma CancelQueue(s: State, x: nat)
    requires SchedOk(s.k) && MutexOk(s) && InContext(s.k) && CancelAllowed(s, x)
    ensures var t, m := s.mc[x].thread, s.mc[x].mutex;
      && t !in Waiters(Cancel(s, x), m) && (Cancellable(s, x) <==> t in Waiters(s, m))
      && Cancel(s, x).mx.holds == s.mx.holds
  {
    hide Act, MatchOk, BitsOk, SortedOk, HolderOk, LockersOk, Cancel, IndexOf;
    var t, m := s.mc[x].thread, s.mc[x].mutex;
    CancelOk(s, x);
    var q := Waiters(s, m);
    if t in q {
      OnQueue(s, t, m);
      QueuedCancellable(s, x);
      RemoveAtElements(q, IndexOf(q, t));
    }
  }

  // ---- Condition variables ----

  /** `cond_wait` comes back only with the mutex, or to wait for it as `mutex_lock` does. */
  lemma WaitRelocks(s: State, e: Event, t: Tid, m: nat)
    requires KernelInv(s) && Enabled(s, e) && Co(s, t) == Relock(m)
    ensures var s' := Step(s, e);
      || Co(s', t) == Relock(m)
      || (Co(s', t) == User && (t, m) in s'.mx.holds)
      || (Co(s', t) == Locking(m) && t in Waiters(s', m))
  {
    hide KernelInv, ThreadCall, IsrCall, IsrEnter, IsrExit, SchedRun, Pay, CallOk, IsrOk, Lock;
    if !Acts(s, e, t) {
      OthersRemain(s, e, t);
    } else if Ow(s.k, t).Nothing? {
      Parts(s);
      RelockEffect(s, t, m);
    }
  }

  predicate Signals(s: State, e: Event, c: nat) {
    (e.Thr? || e.Intr?) && e.call.CondSignal? && e.call.c == c
  }

  lemma CondWaiter(s: State, t: Tid, c: nat)
    requires KernelInv(s) && t in L(s.k.q, CondQ(c))
    ensures St(s.k, t).CondBlocked? && forall id :: t in L(s.k.q, id) ==> id == CondQ(c)
  {
    hide MutexOk, FlagSpec.FlagInv, MsgSpec.MsgInv, MboxSpec.MboxInv, MsgSteps.Tabled, Act, SortedOk, BitsOk, NoDup;
    assert OnOf(s.k.q.on, t) == Some(CondQ(c));
    assert Matches(s.k.status[t], OnOf(s.k.q.on, t), Pr(s.k, t));
  }

  /** `t` waits for condition variable `c` and nothing else. */
  ghost predicate WaitsOn(s: State, t: Tid, c: nat) {
    St(s.k, t).CondBlocked? && forall id :: t in L(s.k.q, id) ==> id == CondQ(c)
  }

  lemma NotFirst(s: State, t: Tid, c: nat, m: nat)
    requires WaitsOn(s, t, c)
    ensures t !in Waiters(s, m) && Released(s, m, t).CondBlocked? && St(s.k, t).CondBlocked?
  {
  }

  /** Only the caller blocks: any other thread keeps its status, or is woken. */
  predicate Woken(s: State, s': State, t: Tid) {
    St(s'.k, t) == St(s.k, t) || St(s'.k, t).Pending?
  }

  lemma LockOthers(s: State, a: Tid, m: nat, block: bool, t: Tid)
    requires t != a
    ensures St(Lock(s, a, m, block).k, t) == St(s.k, t)
  {
    hide Unlocked, BlockOn;
    BlockOnOthers(s, a, m, Locking(m), t);
  }

  lemma CancelableOthers(s: State, a: Tid, x: nat, t: Tid)
    requires t != a && x in s.mc
    ensures St(LockCancelable(s, a, x).k, t) == St(s.k, t)
  {
    hide Unlocked, BlockOn;
    BlockOnOthers(s, a, s.mc[x].mutex, CancelCheck(x), t);
  }

  lemma BlockOnOthers(s: State, a: Tid, m: nat, c: Cont, t: Tid)
    requires t != a
    ensures St(BlockOn(s, a, m, c).k, t) == St(s.k, t)
  {
    hide Owes, Block;
    BlockStatus(s.k, a, MutexBlocked, Some(MutexQ(m)));
    OwesStatus(Block(s.k, a, MutexBlocked, Some(MutexQ(m))), YieldHigher);
  }

  /** `cond_signal` and `cond_broadcast`, by a thread or an interrupt handler. */
  lemma SignalResult(s: State, e: Event, c: nat, broadcast: bool)
    requires KernelInv(s) && Enabled(s, e) && (e == Thr(CondSignal(c, broadcast)) || e == Intr(CondSignal(c, broadcast)))
    ensures var q, s' := L(s.k.q, CondQ(c)), Step(s, e);
      var n := if broadcast then |q| else if q == [] then 0 else 1;
      && L(s'.k.q, CondQ(c)) == q[n..] && s'.cont == s.cont && s'.mx == s.mx
      && (forall t :: St(s'.k, t) == if t in q[..n] then Pending else St(s.k, t))
  {
    hide KernelInv, Ready, SignalSched;
    InCtx(s, e);
    SignalWakesFirst(s, c, broadcast);
  }

  lemma SignalLeaves(s: State, d: nat, broadcast: bool, t: Tid, c: nat)
    requires KernelInv(s) && InContext(s.k) && WaitsOn(s, t, c) && d != c
    ensures St(Signal(s, d, broadcast).k, t).CondBlocked?
  {
    hide KernelInv, Signal;
    var q := L(s.k.q, CondQ(d));
    SignalWakesFirst(s, d, broadcast);
    assert t !in q;
  }

  lemma CallLeaves(s: State, call: Call, t: Tid, c: nat)
    requires KernelInv(s) && Enabled(s, Thr(call)) && MutexCall(call) && WaitsOn(s, t, c) && !Signals(s, Thr(call), c)
    ensures St(Step(s, Thr(call)).k, t).CondBlocked?
  {
    hide KernelInv, Ready, Lock, LockCancelable, Unlock, UnlockAndSleep, CondWait, Cancel, Signal, WaitsOn, Released;
    var a, e := s.k.cpu.active.value, Thr(call);
    InCtx(s, e);
    NotCaller(s, a, t, c);
    match call
    case MutexLock(m, block) => LockOthers(s, a, m, block, t);
    case MutexLockCancelable(x) => CancelableOthers(s, a, x, t);
    case MutexUnlock(m) => NotFirst(s, t, c, m); UnlockResult(s, e, m, t);
    case MutexUnlockAndSleep(m) => NotFirst(s, t, c, m); UnlockAndSleepResult(s, m, t);
    case MutexCancelInit(x, m) =>
    case MutexCancel(x) => NotFirst(s, t, c, s.mc[x].mutex); CancelResult(s, e, x);
    case CondWaiting(d, m) => NotFirst(s, t, c, m); CondWaitResult(s, d, m, t);
    case CondSignal(d, broadcast) => SignalLeaves(s, d, broadcast, t, c);
  }

  lemma NotCaller(s: State, a: Tid, t: Tid, c: nat)
    requires KernelInv(s) && Calling(s, a) && WaitsOn(s, t, c)
    ensures a != t && St(s.k, t).CondBlocked?
  {
    hide Inv, Act, MutexOk, FlagSpec.FlagInv, MsgSpec.MsgInv, MboxSpec.MboxInv, MsgSteps.Tabled;
    CallerCanBlock(s.k, a);
  }

  lemma IsrLeaves(s: State, call: Call, t: Tid, c: nat)
    requires KernelInv(s) && Enabled(s, Intr(call)) && MutexCall(call) && WaitsOn(s, t, c) && !Signals(s, Intr(call), c)
    ensures St(Step(s, Intr(call)).k, t).CondBlocked?
  {
    hide KernelInv, Unlock, Cancel, Signal, WaitsOn, Released;
    var e := Intr(call);
    InCtx(s, e);
    match call
    case MutexUnlock(m) => NotFirst(s, t, c, m); UnlockResult(s, e, m, t);
    case MutexCancel(x) => NotFirst(s, t, c, s.mc[x].mutex); CancelResult(s, e, x);
    case CondSignal(d, broadcast) => SignalLeaves(s, d, broadcast, t, c);
    case _ =>
  }

  lemma ResumeLeaves(s: State, t: Tid, c: nat)
    requires KernelInv(s) && Enabled(s, Continue) && InMutex(s, Continue) && WaitsOn(s, t, c)
    ensures St(Step(s, Continue).k, t).CondBlocked?
  {
    hide KernelInv, Lock, LockReturn, WaitsOn, MboxSpec.PutReturn, FlagSpec.FlagReturn, Pay;
    var a := s.k.cpu.active.value;
    NotCaller(s, a, t, c);
    if Co(s, a).Relock? {
      LockOthers(s, a, Co(s, a).mutex, true, t);
    } else {
      ReturnStep(s, a);
      ReturnSched(s, a);
    }
  }

  lemma ReturnSched(s: State, a: Tid)
    ensures LockReturn(s, a).k == s.k
  {
    match Co(s, a)
    case Locking(_) => assert LockReturn(s, a) == s.(cont := s.cont[a := User], ret := Ret.Int(1));
    case _ =>
  }

  /** A thread that waits for a condition variable goes on waiting until that one is signalled. */
  lemma OnlySignalWakes(s: State, e: Event, t: Tid, c: nat)
    requires KernelInv(s) && Enabled(s, e) && t in L(s.k.q, CondQ(c)) && !Signals(s, e, c)
    ensures St(Step(s, e).k, t).CondBlocked?
  {
    hide KernelInv, Enabled, Step, MutexOnly, MsgOnly, MsgQuiet;
    CondWaiter(s, t, c);
    if InMutex(s, e) {
      match e
      case Thr(call) => CallLeaves(s, call, t, c);
      case Intr(call) => IsrLeaves(s, call, t, c);
      case Continue => ResumeLeaves(s, t, c);
      case _ =>
    } else {
      StepKeeps(s, e);
      if InMsg(e) {
        MsgIsQuiet(s, Step(s, e));
      }
    }
  }
}
