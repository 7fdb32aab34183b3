/**
  Who holds the mutex when a lock call returns. Between the hand-off and the return another
  unlock takes the mutex away again, and a cancellation comes too late; the exact conditions
  are about the steps of the run in that window.
*/
module LockRuns {
  import opened Wrappers
  import opened Queues
  import opened Sched
  import opened Reschedule
  import opened KernelState
  import opened MutexSpec
  import opened Frames
  import opened Kernel
  import opened KernelSteps
  import opened Remainders
  import opened Runs
  import opened MutexRuns
  import opened CondRuns

  // ---- One step, for a thread in the middle of a lock call ----

  /** The step ends the unfinished call of `t`, or goes on with it. */
  predicate GoesOn(s: State, e: Event, t: Tid) {
    e.Continue? && s.k.cpu.active == Some(t) && Ow(s.k, t).Nothing?
  }

  /** A thread in `mutex_lock`, `cond_wait` or `mutex_lock_cancelable`, after `_block`, stays there until it goes on. */
  lemma StaysInCall(s: State, e: Event, t: Tid)
    requires Enabled(s, e) && FamilyOf(Co(s, t)) == MutexFamily && !GoesOn(s, e, t)
    ensures Co(Step(s, e), t) == Co(s, t)
  {
    hide ThreadCall, IsrCall, IsrEnter, IsrExit, SchedRun, Pay, CallOk, IsrOk, Lock, LockReturn, MboxSpec.PutReturn, FlagSpec.FlagReturn;
    if !Acts(s, e, t) {
      OthersRemain(s, e, t);
    }
  }

  lemma NotTheCaller(s: State, e: Event, t: Tid, a: Tid)
    requires Enabled(s, e) && FamilyOf(Co(s, t)) == MutexFamily && !GoesOn(s, e, t)
    requires Acts(s, e, a) && Ow(s.k, a).Nothing?
    ensures a != t
  {
  }

  lemma FreeMeansNone(s: State, m: nat)
    requires KernelInv(s) && Unlocked(s.k.q, s.mx, m)
    ensures Holders(s.mx.holds, m) == {}
  {
    hide SchedOk, LockersOk, FlagSpec.FlagInv, MsgSpec.MsgInv, MboxSpec.MboxInv, MsgSteps.Tabled, HolderOk, Holders;
    FreeHolders(s, m);
  }

  /**
    A thread that was handed the mutex, and has not returned yet, keeps it exactly until the
    next unlock, whoever that comes from. One that was not handed it does not get it.
  */
  lemma WindowStep(s: State, e: Event, t: Tid, m: nat)
    requires KernelInv(s) && Enabled(s, e) && FamilyOf(Co(s, t)) == MutexFamily && !GoesOn(s, e, t)
    requires t !in Waiters(s, m)
    ensures t !in Waiters(Step(s, e), m)
    ensures (t, m) in Step(s, e).mx.holds <==> (t, m) in s.mx.holds && !Unlocks(s, e, m)
  {
    hide KernelInv, Enabled, Step, FamilyOf, GoesOn, Acts, Unlocks, Holders, Unlocked, InsertPos;
    var s' := Step(s, e);
    var mv := MutexTransition(s, e, m);
    IsHolder(s.mx.holds, t, m);
    IsHolder(s'.mx.holds, t, m);
    match mv
    case Stays => if Unlocks(s, e, m) { FreeMeansNone(s, m); }
    case Taken(a) => NotTheCaller(s, e, t, a);
    case Dropped =>
    case Handed => assert Waiters(s, m)[0] in Waiters(s, m);
    case Joined(a) =>
      NotTheCaller(s, e, t, a);
      JoinElements(Waiters(s, m), InsertPos(s.k.prio, Waiters(s, m), Get(s.k.prio, a)), a, t);
    case Left(i) =>
      LeftElements(Waiters(s, m), i, t);
      CancelIsNoUnlock(s, e, m);
  }

  lemma CancelIsNoUnlock(s: State, e: Event, m: nat)
    requires (e.Thr? || e.Intr?) && e.call.MutexCancel?
    ensures !Unlocks(s, e, m)
  {
  }

  lemma JoinElements(q: seq<Tid>, i: nat, a: Tid, t: Tid)
    requires i <= |q|
    ensures t in q ==> t in InsertAt(q, i, a)
    ensures t in InsertAt(q, i, a) ==> t in q || t == a
  {
    if t in q {
      var j :| 0 <= j < |q| && q[j] == t;
      assert InsertAt(q, i, a)[if j < i then j else j + 1] == t;
    }
  }

  lemma LeftElements(q: seq<Tid>, i: nat, t: Tid)
    requires i < |q| && t !in q
    ensures t !in RemoveAt(q, i)
  {
  }

  /** The call takes the thread of canceller `x` off the queue of `m`. */
  predicate CancelsWaiter(s: State, e: Event, t: Tid, m: nat) {
    (e.Thr? || e.Intr?) && e.call.MutexCancel? && Cancels(s, e, e.call.x)
    && e.call.x in s.mc && s.mc[e.call.x].thread == t && s.mc[e.call.x].mutex == m
  }

  /** A thread leaves the queue by being handed the mutex, or by being cancelled. */
  lemma QueueStep(s: State, e: Event, t: Tid, m: nat)
    requires KernelInv(s) && Enabled(s, e) && t in Waiters(s, m)
    ensures t in Waiters(Step(s, e), m) ==> ((t, m) in Step(s, e).mx.holds ==> (t, m) in s.mx.holds)
    ensures t !in Waiters(Step(s, e), m) ==>
      || (Unlocks(s, e, m) && (t, m) in Step(s, e).mx.holds)
      || (CancelsWaiter(s, e, t, m) && ((t, m) in Step(s, e).mx.holds <==> (t, m) in s.mx.holds))
  {
    hide KernelInv, Enabled, Step, Acts, Unlocks, Holders, Unlocked, InsertPos, NoDup, ByPriority;
    var q, s' := Waiters(s, m), Step(s, e);
    var mv := MutexTransition(s, e, m);
    WaitListShape(s, MutexQ(m));
    IsHolder(s.mx.holds, t, m);
    IsHolder(s'.mx.holds, t, m);
    match mv
    case Stays =>
    case Taken(_) =>
    case Dropped =>
    case Handed => HandedElements(q, t);
    case Joined(a) => JoinElements(q, InsertPos(s.k.prio, q, Get(s.k.prio, a)), a, t);
    case Left(i) =>
      RemoveAtElements(q, i);
      assert t in q && t !in RemoveAt(q, i) ==> q[i] == t;
  }

  lemma HandedElements(q: seq<Tid>, t: Tid)
    requires t in q && NoDup(q)
    ensures t in q[1..] <==> t != q[0]
  {
  }

  // ---- Cancellers ----

  lemma BlockOnSame(s: State, a: Tid, m: nat, c: Cont)
    ensures BlockOn(s, a, m, c).mc == s.mc
  {
    hide Owes, Block;
  }

  lemma LockSame(s: State, a: Tid, m: nat, block: bool)
    ensures Lock(s, a, m, block).mc == s.mc
  {
    hide BlockOn, Unlocked;
    BlockOnSame(s, a, m, Locking(m));
  }

  lemma LockCancelableSame(s: State, a: Tid, x: nat)
    requires x in s.mc
    ensures LockCancelable(s, a, x).mc == s.mc
  {
    hide BlockOn, Unlocked;
    BlockOnSame(s, a, s.mc[x].mutex, CancelCheck(x));
  }

  lemma LockReturnSame(s: State, a: Tid)
    ensures LockReturn(s, a).mc == s.mc
  {
  }

  lemma ReleaseSame(s: State, a: Tid, m: nat, c: nat, broadcast: bool)
    ensures Unlock(s, m).mc == UnlockAndSleep(s, a, m).mc == CondWait(s, a, c, m).mc == Signal(s, c, broadcast).mc == s.mc
  {
    hide Owes, ReleaseWake, ReleaseMutex, ReleaseAndBlock, ReleaseOwe, SignalSched;
  }

  lemma SameCancellers(s: State, a: Tid, c: Call)
    requires MutexCall(c) && !c.MutexCancelInit? && !c.MutexCancel?
    ensures MutexStep(s, a, c).mc == s.mc && IsrMutexStep(s, c).mc == s.mc
  {
    hide Lock, LockCancelable, Unlock, UnlockAndSleep, CondWait, Signal;
    if c.MutexLock? {
      LockSame(s, a, c.m, c.block);
    } else if c.MutexLockCancelable? {
      if c.x in s.mc {
        LockCancelableSame(s, a, c.x);
      }
    } else if c.CondSignal? {
      ReleaseSame(s, a, 0, c.c, c.broadcast);
    } else {
      ReleaseSame(s, a, c.m, if c.CondWaiting? then c.c else 0, false);
    }
  }

  lemma CallCancellers(s: State, a: Tid, c: Call, t: Tid, x: nat)
    requires CallOk(s, a, c) && MutexCall(c) && Co(s, t) == CancelCheck(x) && x in s.mc && s.mc[x].thread == t
    ensures x in MutexStep(s, a, c).mc
    ensures MutexStep(s, a, c).mc[x] == s.mc[x].(cancelled := s.mc[x].cancelled || c == MutexCancel(x))
  {
    hide Lock, LockCancelable, Unlock, UnlockAndSleep, CondWait, Signal, CancelWake, CancelMutex, Cancellable, Owes;
    if !c.MutexCancelInit? && !c.MutexCancel? {
      SameCancellers(s, a, c);
    }
  }

  lemma IsrCancellers(s: State, c: Call, t: Tid, x: nat)
    requires MutexCall(c) && x in s.mc
    ensures x in IsrMutexStep(s, c).mc
    ensures IsrMutexStep(s, c).mc[x] == s.mc[x].(cancelled := s.mc[x].cancelled || c == MutexCancel(x))
  {
    hide Unlock, Signal, CancelWake, CancelMutex, Cancellable, Owes;
    if !c.MutexCancelInit? && !c.MutexCancel? {
      SameCancellers(s, t, c);
    }
  }

  lemma OwnCanceller(s: State, t: Tid, x: nat)
    requires KernelInv(s) && Co(s, t) == CancelCheck(x)
    ensures x in s.mc && s.mc[x].thread == t && (t in Waiters(s, s.mc[x].mutex) ==> !s.mc[x].cancelled)
  {
    hide Inv, Act, HolderOk, FlagSpec.FlagInv, MsgSpec.MsgInv, MboxSpec.MboxInv, MsgSteps.Tabled;
    assert LockerOk(s.mc, OnOf(s.k.q.on, t), s.cont[t], t);
    if t in Waiters(s, s.mc[x].mutex) {
      OnQueue(s, t, s.mc[x].mutex);
    }
  }

  lemma OnQueue(s: State, t: Tid, m: nat)
    requires SchedOk(s.k) && t in Waiters(s, m)
    ensures OnOf(s.k.q.on, t) == Some(MutexQ(m))
  {
    hide Act, MatchOk, BitsOk, SortedOk, NoDup;
  }

  /** While a thread uses a canceller, only `mutex_cancel` changes it. */
  lemma CancellerStep(s: State, e: Event, t: Tid, x: nat)
    requires KernelInv(s) && Enabled(s, e) && Co(s, t) == CancelCheck(x)
    ensures x in s.mc && x in Step(s, e).mc
    ensures Step(s, e).mc[x] == s.mc[x].(cancelled := s.mc[x].cancelled || Cancels(s, e, x))
  {
    hide KernelInv, MutexOnly, MsgOnly, MsgQuiet, CallOk, IsrOk, MutexStep, IsrMutexStep, Lock, LockReturn, MsgStep, IsrMsgStep;
    hide ThreadStep, FlagMboxStep, IsrOtherStep, IsrEnter, IsrExit, SchedRun, MboxSpec.PutReturn, FlagSpec.FlagReturn, Pay;
    OwnCanceller(s, t, x);
    if InMutex(s, e) {
      match e
      case Thr(c) => CallCancellers(s, s.k.cpu.active.value, c, t, x);
      case Intr(c) => IsrCancellers(s, c, t, x);
      case Continue =>
        var a := s.k.cpu.active.value;
        LockReturnSame(s, a);
        if Co(s, a).Relock? {
          LockSame(s, a, Co(s, a).mutex, true);
        }
      case _ =>
    } else {
      StepKeeps(s, e);
      if InMsg(e) {
        MsgIsQuiet(s, Step(s, e));
      }
    }
  }

  // ---- The window between hand-off and return ----

  /** The lock call of `t` is not gone on with in the run. */
  predicate Unfinished(s: State, es: seq<Event>, t: Tid)
    decreases |es|
  {
    es == [] || (!GoesOn(s, es[0], t) && Unfinished(Step(s, es[0]), es[1..], t))
  }

  /** Somebody unlocks `m` in the run. */
  predicate UnlockedIn(s: State, es: seq<Event>, m: nat)
    decreases |es|
  {
    es != [] && (Unlocks(s, es[0], m) || UnlockedIn(Step(s, es[0]), es[1..], m))
  }

  /** Somebody uses canceller `x` in the run. */
  predicate CancelledIn(s: State, es: seq<Event>, x: nat)
    decreases |es|
  {
    es != [] && (Cancels(s, es[0], x) || CancelledIn(Step(s, es[0]), es[1..], x))
  }

  lemma {:induction false} WindowRun(s: State, es: seq<Event>, t: Tid, m: nat)
    requires KernelInv(s) && Valid(s, es) && FamilyOf(Co(s, t)) == MutexFamily && Unfinished(s, es, t) && t !in Waiters(s, m)
    ensures var s' := After(s, es);
      && KernelInv(s') && Co(s', t) == Co(s, t) && t !in Waiters(s', m)
      && ((t, m) in s'.mx.holds <==> (t, m) in s.mx.holds && !UnlockedIn(s, es, m))
    decreases |es|
  {
    hide KernelInv, Enabled, Step, Sorts, GoesOn, Unlocks, FamilyOf, Waiters;
    if es != [] {
      StepKeeps(s, es[0]);
      StaysInCall(s, es[0], t);
      WindowStep(s, es[0], t, m);
      WindowRun(Step(s, es[0]), es[1..], t, m);
    }
  }

  lemma {:induction false} CancellerRun(s: State, es: seq<Event>, t: Tid, x: nat)
    requires KernelInv(s) && Valid(s, es) && Co(s, t) == CancelCheck(x) && Unfinished(s, es, t)
    ensures var s' := After(s, es);
      x in s.mc && x in s'.mc && s'.mc[x] == s.mc[x].(cancelled := s.mc[x].cancelled || CancelledIn(s, es, x))
    decreases |es|
  {
    hide KernelInv, Enabled, Step, Sorts, GoesOn, Cancels;
    OwnCanceller(s, t, x);
    if es != [] {
      StepKeeps(s, es[0]);
      StaysInCall(s, es[0], t);
      CancellerStep(s, es[0], t, x);
      CancellerRun(Step(s, es[0]), es[1..], t, x);
    }
  }

  lemma ReturnStep(s: State, a: Tid)
    requires Calling(s, a) && (Co(s, a).Locking? || Co(s, a).CancelCheck?)
    ensures Step(s, Continue) == LockReturn(s, a) && LockReturn(s, a).mx == s.mx && Co(LockReturn(s, a), a) == User
    ensures Co(s, a).Locking? ==> LockReturn(s, a).ret == Ret.Int(1)
    ensures Co(s, a).CancelCheck? ==>
      var x := Co(s, a).mc; LockReturn(s, a).ret == if x in s.mc && s.mc[x].cancelled then Ret.Cancelled else Ret.Int(0)
  {
  }

  /**
    `mutex_lock`, and so `cond_wait`, returns holding the mutex if and only if nobody unlocked
    it between the hand-off and the return.
  */
  lemma LockExact(s: State, es: seq<Event>, t: Tid, m: nat)
    requires KernelInv(s) && Co(s, t) == Locking(m) && t !in Waiters(s, m) && (t, m) in s.mx.holds
    requires Valid(s, es) && Unfinished(s, es, t) && Calling(After(s, es), t)
    ensures var s' := Step(After(s, es), Continue);
      Co(s', t) == User && s'.ret == Ret.Int(1) && ((t, m) in s'.mx.holds <==> !UnlockedIn(s, es, m))
  {
    hide KernelInv, Valid, After, Step, Unfinished, UnlockedIn, Waiters, Calling, LockReturn;
    WindowRun(s, es, t, m);
    ReturnStep(After(s, es), t);
  }

  /**
    `mutex_lock_cancelable` returns 0 if and only if it was not cancelled, and holding the mutex
    if and only if nobody unlocked it, between the hand-off and the return. So it returns 0
    exactly to holders if and only if either both or neither happened there.
  */
  lemma CancelableExact(s: State, es: seq<Event>, t: Tid, x: nat)
    requires KernelInv(s) && Co(s, t) == CancelCheck(x) && x in s.mc && !s.mc[x].cancelled
    requires t !in Waiters(s, s.mc[x].mutex) && (t, s.mc[x].mutex) in s.mx.holds
    requires Valid(s, es) && Unfinished(s, es, t) && Calling(After(s, es), t)
    ensures var m, s' := s.mc[x].mutex, Step(After(s, es), Continue);
      && Co(s', t) == User && (s'.ret == Ret.Int(0) || s'.ret == Ret.Cancelled)
      && (s'.ret == Ret.Int(0) <==> !CancelledIn(s, es, x))
      && ((t, m) in s'.mx.holds <==> !UnlockedIn(s, es, m))
  {
    hide KernelInv, Valid, After, Step, Unfinished, UnlockedIn, CancelledIn, Waiters, Calling, LockReturn;
    WindowRun(s, es, t, s.mc[x].mutex);
    CancellerRun(s, es, t, x);
    ReturnStep(After(s, es), t);
  }

  /** A cancelled waiter returns without the mutex, and says so, whatever happens until then. */
  lemma CancelledReturns(s: State, es: seq<Event>, t: Tid, x: nat)
    requires KernelInv(s) && Co(s, t) == CancelCheck(x) && x in s.mc && s.mc[x].cancelled
    requires t !in Waiters(s, s.mc[x].mutex) && (t, s.mc[x].mutex) !in s.mx.holds
    requires Valid(s, es) && Unfinished(s, es, t) && Calling(After(s, es), t)
    ensures var m, s' := s.mc[x].mutex, Step(After(s, es), Continue);
      s'.ret == Ret.Cancelled && (t, m) !in s'.mx.holds
  {
    hide KernelInv, Valid, After, Step, Unfinished, UnlockedIn, CancelledIn, Waiters, Calling, LockReturn;
    WindowRun(s, es, t, s.mc[x].mutex);
    CancellerRun(s, es, t, x);
    ReturnStep(After(s, es), t);
  }

  // ---- Runs in which only holders unlock ----

  /** A step that unlocks `m` is one of a thread that holds it. */
  predicate ProperUnlock(s: State, e: Event, m: nat) {
    Unlocks(s, e, m) ==> e.Thr? && (s.k.cpu.active.value, m) in s.mx.holds
  }

  predicate ProperUnlocks(s: State, es: seq<Event>, m: nat)
    decreases |es|
  {
    es == [] || (ProperUnlock(s, es[0], m) && ProperUnlocks(Step(s, es[0]), es[1..], m))
  }

  /** Whoever was handed `m` in `mutex_lock` still has it. */
  ghost predicate Safe(s: State, m: nat) {
    forall t :: Co(s, t) == Locking(m) && t !in Waiters(s, m) ==> (t, m) in s.mx.holds
  }

  lemma OneHolder(s: State, m: nat, t: Tid, u: Tid)
    requires KernelInv(s) && (t, m) in s.mx.holds && (u, m) in s.mx.holds
    ensures t == u
  {
    hide SchedOk, LockersOk, FlagSpec.FlagInv, MsgSpec.MsgInv, MboxSpec.MboxInv, MsgSteps.Tabled;
  }

  /** A proper unlock does not come from, or take the mutex from, a thread in a lock call. */
  lemma ProperKeeps(s: State, e: Event, t: Tid, m: nat)
    requires KernelInv(s) && Enabled(s, e) && ProperUnlock(s, e, m) && FamilyOf(Co(s, t)) == MutexFamily && (t, m) in s.mx.holds
    ensures !Unlocks(s, e, m)
  {
    hide KernelInv, CallOk, IsrOk;
    if Unlocks(s, e, m) {
      OneHolder(s, m, t, s.k.cpu.active.value);
    }
  }

  /** The waiter was not cancelled: only the thread of a canceller that it waits with can be. */
  lemma LockingNotCancelled(s: State, e: Event, t: Tid, m: nat)
    requires KernelInv(s) && Enabled(s, e) && t in Waiters(s, m) && Co(s, t).Locking?
    ensures !CancelsWaiter(s, e, t, m)
  {
    hide LinksOk, MatchOk, Act, HolderOk, LockersOk, FlagSpec.FlagInv, MsgSpec.MsgInv, MboxSpec.MboxInv, MsgSteps.Tabled;
    InQueue(s, t, m);
  }

  lemma InQueue(s: State, t: Tid, m: nat)
    requires KernelInv(s) && t in Waiters(s, m)
    ensures t in s.k.q.on && s.k.q.on[t] == MutexQ(m)
  {
    hide Act, MatchOk, BitsOk, SortedOk, NoDup, MutexOk, FlagSpec.FlagInv, MsgSpec.MsgInv, MboxSpec.MboxInv, MsgSteps.Tabled;
    OnQueue(s, t, m);
  }

  // ---- Starting to wait ----

  lemma BlockOnStarts(s: State, a: Tid, m: nat, c: Cont)
    requires SchedOk(s.k) && Calling(s, a)
    ensures var s' := BlockOn(s, a, m, c); Co(s', a) == c && a in Waiters(s', m) && s'.mx.holds == s.mx.holds && s'.mc == s.mc
  {
    hide Inv, Act, Block, CanBlock, IsHead, Only, InsertPos, InsertAt, Owes;
    CallerCanBlock(s.k, a);
    BlockStep(s.k, a, MutexBlocked, Some(MutexQ(m)), YieldHigher, MutexKinds, MutexStatuses);
    Listed(BlockOn(s, a, m, c).k, a, MutexQ(m));
  }

  lemma LockStarts(s: State, a: Tid, m: nat, block: bool)
    requires SchedOk(s.k) && Calling(s, a) && FamilyOf(Co(s, a)) != MutexFamily
    ensures var s' := Lock(s, a, m, block);
      FamilyOf(Co(s', a)) == MutexFamily ==> Co(s', a) == Locking(m) && a in Waiters(s', m)
  {
    hide SchedOk, BlockOn, Unlocked, Calling;
    BlockOnStarts(s, a, m, Locking(m));
  }

  lemma LockCancelableStarts(s: State, a: Tid, x: nat)
    requires SchedOk(s.k) && Calling(s, a) && FamilyOf(Co(s, a)) != MutexFamily && x in s.mc
    ensures var s' := LockCancelable(s, a, x);
      FamilyOf(Co(s', a)) == MutexFamily ==>
        && Co(s', a) == CancelCheck(x) && s'.mc == s.mc && !s.mc[x].cancelled
        && a in Waiters(s', s.mc[x].mutex) && s'.mx.holds == s.mx.holds
  {
    hide SchedOk, BlockOn, Unlocked, Calling;
    BlockOnStarts(s, a, s.mc[x].mutex, CancelCheck(x));
  }

  /** A thread that starts to wait for a mutex is in its queue. */
  predicate Started(s: State, s': State, e: Event, t: Tid) {
    match Co(s', t)
    case Locking(m) => t in Waiters(s', m)
    case CancelCheck(x) =>
      && e == Thr(MutexLockCancelable(x)) && x in s.mc && s'.mc == s.mc && !s.mc[x].cancelled
      && t in Waiters(s', s.mc[x].mutex) && s'.mx.holds == s.mx.holds
    case _ => true
  }

  lemma UnlockAndSleepEnds(s: State, a: Tid, m: nat, c: nat)
    ensures FamilyOf(Co(UnlockAndSleep(s, a, m), a)) == NoFamily && FamilyOf(Co(CondWait(s, a, c, m), a)) == NoFamily
  {
    hide ReleaseAndBlock, ReleaseWake, ReleaseMutex, ReleaseOwe;
  }

  lemma CallStarts(s: State, a: Tid, c: Call)
    requires KernelInv(s) && Calling(s, a) && Co(s, a) == User && MutexCall(c) && CallOk(s, a, c)
    ensures Started(s, MutexStep(s, a, c), Thr(c), a)
  {
    hide SchedOk, MutexOk, FlagSpec.FlagInv, MsgSpec.MsgInv, MboxSpec.MboxInv, MsgSteps.Tabled, Calling;
    hide Lock, LockCancelable, Unlock, UnlockAndSleep, Cancel, CondWait, Signal, CancelInit, Waiters, CancelAllowed;
    if c.MutexLock? {
      LockStarts(s, a, c.m, c.block);
    } else if c.MutexLockCancelable? {
      LockCancelableStarts(s, a, c.x);
    } else if c.MutexUnlockAndSleep? {
      UnlockAndSleepEnds(s, a, c.m, 0);
    } else if c.CondWaiting? {
      UnlockAndSleepEnds(s, a, c.m, c.c);
    } else {
      MutexStill(s, a, c);
    }
  }

  lemma ResumeStarts(s: State, a: Tid)
    requires KernelInv(s) && Calling(s, a) && LockCont(Co(s, a))
    ensures Started(s, Resume(s, a), Continue, a)
  {
    hide SchedOk, MutexOk, FlagSpec.FlagInv, MsgSpec.MsgInv, MboxSpec.MboxInv, MsgSteps.Tabled, Calling, Lock, LockReturn, Waiters;
    if Co(s, a).Relock? {
      NothingOwed(s, a);
      LockStarts(s, a, Co(s, a).mutex, true);
    } else {
      NothingOwed(s, a);
      ReturnStep(s, a);
      assert Resume(s, a) == LockReturn(s, a);
    }
  }

  lemma NothingOwed(s: State, a: Tid)
    requires Calling(s, a)
    ensures Ow(s.k, a).Nothing?
  {
  }

  /** The step is one that `t` makes on its own account, not the reschedule that it owes. */
  predicate OwnStep(s: State, e: Event, t: Tid) {
    Acts(s, e, t) && Ow(s.k, t).Nothing?
  }

  lemma StepStarts(s: State, e: Event, t: Tid)
    requires KernelInv(s) && Enabled(s, e) && OwnStep(s, e, t)
    ensures Started(s, Step(s, e), e, t)
  {
    hide KernelInv, CallOk, MutexStep, MsgStep, ThreadStep, FlagMboxStep, Lock, LockReturn, MboxSpec.PutReturn, FlagSpec.FlagReturn;
    if InMutex(s, e) {
      if e.Thr? {
        CallStarts(s, t, e.call);
      } else {
        ResumeStarts(s, t);
      }
    } else {
      OnlyMutexWaits(s, e, t);
    }
  }

  lemma SameCall(s: State, e: Event, t: Tid)
    requires Enabled(s, e) && !OwnStep(s, e, t)
    ensures Co(Step(s, e), t) == Co(s, t)
  {
    hide ThreadCall, IsrCall, IsrEnter, IsrExit, SchedRun, Pay, CallOk, IsrOk;
    hide Lock, LockReturn, MboxSpec.PutReturn, FlagSpec.FlagReturn;
    if !Acts(s, e, t) {
      OthersRemain(s, e, t);
    }
  }

  lemma NotGoingOn(s: State, e: Event, t: Tid)
    requires !OwnStep(s, e, t)
    ensures !GoesOn(s, e, t)
  {
  }

  // ---- mutex_lock and cond_wait ----

  lemma SafeAt(s: State, e: Event, m: nat, t: Tid)
    requires KernelInv(s) && Enabled(s, e) && Safe(s, m) && ProperUnlock(s, e, m)
    requires Co(Step(s, e), t) == Locking(m) && t !in Waiters(Step(s, e), m)
    ensures (t, m) in Step(s, e).mx.holds
  {
    hide KernelInv, Enabled, Step, OwnStep, GoesOn, ProperUnlock, Unlocks, Waiters, CancelsWaiter;
    if OwnStep(s, e, t) {
      StepStarts(s, e, t);
    } else {
      SameCall(s, e, t);
      NotGoingOn(s, e, t);
      if t in Waiters(s, m) {
        QueueStep(s, e, t, m);
        LockingNotCancelled(s, e, t, m);
      } else {
        ProperKeeps(s, e, t, m);
        WindowStep(s, e, t, m);
      }
    }
  }

  lemma SafeStep(s: State, e: Event, m: nat)
    requires KernelInv(s) && Enabled(s, e) && Safe(s, m) && ProperUnlock(s, e, m)
    ensures Safe(Step(s, e), m)
  {
    hide KernelInv, Enabled, Step, ProperUnlock, Waiters;
    forall t | Co(Step(s, e), t) == Locking(m) && t !in Waiters(Step(s, e), m) ensures (t, m) in Step(s, e).mx.holds {
      SafeAt(s, e, m, t);
    }
  }

  lemma {:induction false} SafeRun(s: State, es: seq<Event>, m: nat)
    requires KernelInv(s) && Valid(s, es) && Safe(s, m) && ProperUnlocks(s, es, m)
    ensures KernelInv(After(s, es)) && Safe(After(s, es), m)
    decreases |es|
  {
    hide KernelInv, Enabled, Step, Sorts, ProperUnlock, Safe;
    if es != [] {
      StepKeeps(s, es[0]);
      SafeStep(s, es[0], m);
      SafeRun(Step(s, es[0]), es[1..], m);
    }
  }

  lemma CallerNotWaiting(s: State, a: Tid, m: nat)
    requires KernelInv(s) && Calling(s, a)
    ensures a !in Waiters(s, m)
  {
    hide Inv, Act, MutexOk, FlagSpec.FlagInv, MsgSpec.MsgInv, MboxSpec.MboxInv, MsgSteps.Tabled;
    NotWaiting(s, a, m);
  }

  /**
    In every run in which `m` is unlocked only by threads that hold it, and never by an
    interrupt handler, `mutex_lock` returns holding the mutex; and so does `cond_wait`, which
    after its wake-up gets the mutex or waits for it like `mutex_lock`.
  */
  lemma LockReturnsHolder(t: Tid, prio: nat, es: seq<Event>, m: nat, a: Tid)
    requires prio < PRIO_LEVELS && Valid(Init(t, prio), es) && ProperUnlocks(Init(t, prio), es, m)
    requires Calling(After(Init(t, prio), es), a)
    ensures var s := After(Init(t, prio), es);
      var s' := Step(s, Continue);
      && (Co(s, a) == Locking(m) ==> Co(s', a) == User && s'.ret == Ret.Int(1) && (a, m) in s'.mx.holds)
      && (Co(s, a) == Relock(m) ==>
            if Co(s', a) == User then (a, m) in s'.mx.holds else Co(s', a) == Locking(m) && a in Waiters(s', m))
  {
    hide KernelInv, Valid, After, ProperUnlocks, Step, Waiters, Calling, LockReturn, Lock;
    InitOk(t, prio);
    assert Safe(Init(t, prio), m);
    SafeRun(Init(t, prio), es, m);
    var s := After(Init(t, prio), es);
    CallerNotWaiting(s, a, m);
    if Co(s, a) == Locking(m) {
      ReturnStep(s, a);
    } else if Co(s, a) == Relock(m) {
      RelockStep(s, a, m);
    }
  }

  lemma RelockStep(s: State, a: Tid, m: nat)
    requires KernelInv(s) && Calling(s, a) && Co(s, a) == Relock(m)
    ensures var s' := Step(s, Continue);
      if Co(s', a) == User then (a, m) in s'.mx.holds else Co(s', a) == Locking(m) && a in Waiters(s', m)
  {
    hide SchedOk, MutexOk, FlagSpec.FlagInv, MsgSpec.MsgInv, MboxSpec.MboxInv, MsgSteps.Tabled, Lock, Waiters;
    RelockEffect(s, a, m);
  }

  // ---- mutex_lock_cancelable ----

  /** No cancellation hits between hand-off and return, and nobody waits for a mutex it holds. */
  predicate ProperCancel(s: State, e: Event, m: nat) {
    && ((e.Thr? || e.Intr?) && e.call.MutexCancel? && Cancels(s, e, e.call.x) ==> !CutsOff(s, e.call.x, m))
    && (e.Thr? && e.call.MutexLockCancelable? && s.k.cpu.active.Some? && e.call.x in s.mc && s.mc[e.call.x].mutex == m ==>
          (s.k.cpu.active.value, m) !in s.mx.holds)
  }

  /** The thread of canceller `x` was handed `m`, has not returned yet, and is not cancelled yet. */
  predicate CutsOff(s: State, x: nat, m: nat) {
    && x in s.mc && s.mc[x].mutex == m && !s.mc[x].cancelled
    && Co(s, s.mc[x].thread) == CancelCheck(x) && s.mc[x].thread !in Waiters(s, m)
  }

  predicate ProperCancels(s: State, es: seq<Event>, m: nat)
    decreases |es|
  {
    es == [] || (ProperCancel(s, es[0], m) && ProperCancels(Step(s, es[0]), es[1..], m))
  }

  /** A thread in `mutex_lock_cancelable` has the mutex exactly if it left the queue without being cancelled. */
  predicate CleanAt(s: State, m: nat, t: Tid) {
    Co(s, t).CancelCheck? && Co(s, t).mc in s.mc && s.mc[Co(s, t).mc].mutex == m ==>
      ((t, m) in s.mx.holds <==> t !in Waiters(s, m) && !s.mc[Co(s, t).mc].cancelled)
  }

  ghost predicate Clean(s: State, m: nat) {
    forall t :: CleanAt(s, m, t)
  }

  lemma OwnCancel(s: State, e: Event, t: Tid, m: nat, x: nat)
    requires KernelInv(s) && Enabled(s, e) && t in Waiters(s, m) && Co(s, t) == CancelCheck(x) && CancelsWaiter(s, e, t, m)
    ensures Cancels(s, e, x)
  {
    hide LinksOk, MatchOk, Act, HolderOk, LockersOk, FlagSpec.FlagInv, MsgSpec.MsgInv, MboxSpec.MboxInv, MsgSteps.Tabled;
    InQueue(s, t, m);
  }

  lemma UnlockIsNoCancel(s: State, e: Event, m: nat, x: nat)
    requires Unlocks(s, e, m)
    ensures !Cancels(s, e, x)
  {
  }

  /** The cases of a thread that is in `mutex_lock_cancelable` before and after the step. */
  lemma CleanStays(s: State, e: Event, m: nat, t: Tid, x: nat)
    requires KernelInv(s) && Enabled(s, e) && CleanAt(s, m, t) && ProperUnlock(s, e, m) && ProperCancel(s, e, m)
    requires Co(s, t) == CancelCheck(x) && x in s.mc && s.mc[x].mutex == m && !OwnStep(s, e, t)
    ensures CleanAt(Step(s, e), m, t)
  {
    hide KernelInv, Enabled, Step, OwnStep, GoesOn, ProperUnlock, ProperCancel, Unlocks, Cancels, Waiters, CancelsWaiter;
    SameCall(s, e, t);
    NotGoingOn(s, e, t);
    OwnCanceller(s, t, x);
    CancellerStep(s, e, t, x);
    if t in Waiters(s, m) {
      QueueStep(s, e, t, m);
      if Unlocks(s, e, m) {
        UnlockIsNoCancel(s, e, m, x);
      }
      if CancelsWaiter(s, e, t, m) {
        OwnCancel(s, e, t, m, x);
      }
    } else {
      WindowStep(s, e, t, m);
      if (t, m) in s.mx.holds {
        ProperKeeps(s, e, t, m);
        NotCutOff(s, e, t, m, x);
      }
    }
  }

  lemma NotCutOff(s: State, e: Event, t: Tid, m: nat, x: nat)
    requires ProperCancel(s, e, m) && x in s.mc && s.mc[x].mutex == m && s.mc[x].thread == t && !s.mc[x].cancelled
    requires Co(s, t) == CancelCheck(x) && t !in Waiters(s, m)
    ensures !Cancels(s, e, x)
  {
  }

  lemma CleanStarts(s: State, e: Event, m: nat, t: Tid)
    requires KernelInv(s) && Enabled(s, e) && ProperCancel(s, e, m) && OwnStep(s, e, t)
    ensures CleanAt(Step(s, e), m, t)
  {
    hide KernelInv, Enabled, Step, Waiters;
    StepStarts(s, e, t);
  }

  lemma CleanStep(s: State, e: Event, m: nat)
    requires KernelInv(s) && Enabled(s, e) && Clean(s, m) && ProperUnlock(s, e, m) && ProperCancel(s, e, m)
    ensures Clean(Step(s, e), m)
  {
    hide KernelInv, Enabled, Step, ProperUnlock, ProperCancel, CleanAt, OwnStep;
    forall t ensures CleanAt(Step(s, e), m, t) {
      assert CleanAt(s, m, t);
      if OwnStep(s, e, t) {
        CleanStarts(s, e, m, t);
      } else {
        CleanOther(s, e, m, t);
      }
    }
  }

  lemma CleanOther(s: State, e: Event, m: nat, t: Tid)
    requires KernelInv(s) && Enabled(s, e) && CleanAt(s, m, t) && ProperUnlock(s, e, m) && ProperCancel(s, e, m) && !OwnStep(s, e, t)
    ensures CleanAt(Step(s, e), m, t)
  {
    hide KernelInv, Enabled, Step, ProperUnlock, ProperCancel, OwnStep, Waiters;
    SameCall(s, e, t);
    if Co(s, t).CancelCheck? {
      var x := Co(s, t).mc;
      OwnCanceller(s, t, x);
      CancellerStep(s, e, t, x);
      if s.mc[x].mutex == m {
        CleanStays(s, e, m, t, x);
      }
    }
  }

  lemma {:induction false} CleanRun(s: State, es: seq<Event>, m: nat)
    requires KernelInv(s) && Valid(s, es) && Clean(s, m) && ProperUnlocks(s, es, m) && ProperCancels(s, es, m)
    ensures KernelInv(After(s, es)) && Clean(After(s, es), m)
    decreases |es|
  {
    hide KernelInv, Enabled, Step, Sorts, ProperUnlock, ProperCancel, Clean;
    if es != [] {
      StepKeeps(s, es[0]);
      CleanStep(s, es[0], m);
      CleanRun(Step(s, es[0]), es[1..], m);
    }
  }

  /**
    In every run in which `m` is unlocked only by threads that hold it, no cancellation falls
    between a hand-off and the return, and nobody waits for a mutex it already holds,
    `mutex_lock_cancelable` returns 0 exactly to holders.
  */
  lemma CancelableReturnsHolder(t: Tid, prio: nat, es: seq<Event>, m: nat, a: Tid, x: nat)
    requires prio < PRIO_LEVELS && Valid(Init(t, prio), es)
    requires ProperUnlocks(Init(t, prio), es, m) && ProperCancels(Init(t, prio), es, m)
    requires var s := After(Init(t, prio), es);
      Calling(s, a) && Co(s, a) == CancelCheck(x) && x in s.mc && s.mc[x].mutex == m
    ensures var s' := Step(After(Init(t, prio), es), Continue);
      && Co(s', a) == User && (s'.ret == Ret.Int(0) || s'.ret == Ret.Cancelled)
      && (s'.ret == Ret.Int(0) <==> (a, m) in s'.mx.holds)
  {
    hide KernelInv, Valid, After, ProperUnlocks, ProperCancels, Step, Waiters, Calling, LockReturn;
    InitOk(t, prio);
    assert Clean(Init(t, prio), m);
    CleanRun(Init(t, prio), es, m);
    var s := After(Init(t, prio), es);
    assert CleanAt(s, m, a);
    CallerNotWaiting(s, a, m);
    ReturnStep(s, a);
  }

  /** So does a call that returns at once. */
  lemma CancelableAtOnce(s: State, a: Tid, x: nat)
    requires x in s.mc && Co(s, a) == User && (a, s.mc[x].mutex) !in s.mx.holds
    ensures var s' := LockCancelable(s, a, x);
      Co(s', a) == User ==> (s'.ret == Ret.Int(0) <==> (a, s.mc[x].mutex) in s'.mx.holds)
  {
    hide Owes, Block;
  }
}
