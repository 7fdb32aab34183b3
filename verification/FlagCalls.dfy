/** What the calls of `thread_flags.c` have achieved when they return or block. */
module FlagCalls {
  import opened Wrappers
  import opened Sched
  import opened Reschedule
  import opened KernelState
  import opened MutexSpec
  import opened FlagSpec
  import opened FlagSets
  import opened FlagRuns
  import opened Kernel
  import opened KernelSteps
  import opened LockCalls

  /** The flags that `t` waits for. */
  function Awaited(s: State, t: Tid): set<nat> {
    if WaitOf(s.wait, t).Mask? then SetOf(WaitOf(s.wait, t).bits) else {}
  }

  /** With the flags `fs` the wait of `t` is over. */
  predicate Satisfied(s: State, t: Tid, fs: set<nat>) {
    || (St(s.k, t).FlagBlockedAny? && fs * Awaited(s, t) != {})
    || (St(s.k, t).FlagBlockedAll? && Awaited(s, t) <= fs)
  }

  lemma WakesIs(s: State, t: Tid, f: bv16)
    requires WaitOf(s.wait, t).Mask?
    ensures Wakes(St(s.k, t), f, WaitOf(s.wait, t)) <==> Satisfied(s, t, SetOf(f))
  {
    hide SetOf, Any, All;
    WaitOps(f, WaitOf(s.wait, t).bits);
  }

  lemma WaitIsMask(s: State, t: Tid)
    requires KernelInv(s) && (St(s.k, t).FlagBlockedAny? || St(s.k, t).FlagBlockedAll?)
    ensures WaitOf(s.wait, t).Mask?
  {
    hide SchedOk, MutexOk, MsgSpec.MsgInv, MboxSpec.MboxInv, MsgSteps.Tabled, Any, All;
    assert FlagOk(StatusOf(s.k.status, t), FlagsOf(s.fl, t), WaitOf(s.wait, t), s.cont[t]);
  }

  lemma WakesExactly(s: State, t: Tid, f: bv16)
    requires KernelInv(s)
    ensures Wakes(St(s.k, t), f, WaitOf(s.wait, t)) <==> Satisfied(s, t, SetOf(f))
  {
    hide KernelInv, Any, All, SetOf;
    if St(s.k, t).FlagBlockedAny? || St(s.k, t).FlagBlockedAll? {
      WaitIsMask(s, t);
      WakesIs(s, t, f);
    }
  }

  lemma FlagWakeStatus(k: Sched, t: Tid, f: bv16, w: Wait)
    ensures FlagWake(k, t, f, w).status == if Wakes(St(k, t), f, w) then k.status[t := Pending] else k.status
  {
    hide Wakes, RunqueuePush, RunqueuePop;
  }

  /**
    `thread_flags_set`, by a thread or an interrupt handler: the flags of the mask are added to
    those of the thread, which is PENDING if that ends its wait; no other flags or statuses
    change.
  */
  lemma SetResult(s: State, e: Event, t: Tid, mask: bv16)
    requires KernelInv(s) && Enabled(s, e) && (e == Thr(FlagSet(t, mask)) || e == Intr(FlagSet(t, mask)))
    ensures var s' := Step(s, e);
      && FlagsIn(s', t) == FlagsIn(s, t) + SetOf(mask)
      && (forall u :: u != t ==> FlagsIn(s', u) == FlagsIn(s, u))
      && (forall u :: St(s'.k, u) == if u == t && Satisfied(s, t, FlagsIn(s, t) + SetOf(mask)) then Pending else St(s.k, u))
      && s'.wait == s.wait && s'.cont == s.cont
  {
    hide KernelInv, Ready, SetOf, With, Wakes, FlagWake, Owes, Satisfied;
    assert Step(s, e) == FlagsSet(s, t, mask);
    hide Step;
    var f, w := With(FlagsOf(s.fl, t), mask), WaitOf(s.wait, t);
    SetOps(FlagsOf(s.fl, t), mask);
    WakesExactly(s, t, f);
    FlagWakeStatus(s.k, t, f, w);
    OwesStatus(FlagWake(s.k, t, f, w), if Wakes(St(s.k, t), f, w) then YieldHigher else Nothing);
  }

  /** `thread_flags_clear` returns the masked flags of its caller and clears them, and only them. */
  lemma ClearResult(s: State, mask: bv16)
    requires Enabled(s, Thr(FlagClear(mask)))
    ensures var a, s' := s.k.cpu.active.value, Step(s, Thr(FlagClear(mask)));
      && s'.ret.Flags? && SetOf(s'.ret.bits) == FlagsIn(s, a) * SetOf(mask)
      && FlagsIn(s', a) == FlagsIn(s, a) - SetOf(mask)
      && (forall u :: u != a ==> FlagsIn(s', u) == FlagsIn(s, u))
      && s'.k == s.k
  {
    hide Ready, SetOf, Masked, Without;
    var a := s.k.cpu.active.value;
    var f := FlagsOf(s.fl, a);
    SetOps(f, mask);
    SetOps(f, Masked(f, mask));
    assert SetOf(f) - SetOf(f) * SetOf(mask) == SetOf(f) - SetOf(mask);
  }

  /**
    The wait calls block exactly as long as there is something to wait for: without a masked
    flag, or without all of them, the caller is blocked with the mask stored; otherwise it goes
    straight on to clear its flags. None are cleared yet.
  */
  lemma WaitAnyResult(s: State, mask: bv16, one: bool)
    requires Enabled(s, Thr(FlagWaitAny(mask, one)))
    ensures var a, s' := s.k.cpu.active.value, Step(s, Thr(FlagWaitAny(mask, one)));
      && Co(s', a) == (if one then ReadOne(mask) else ClearAny(mask)) && s'.fl == s.fl
      && if FlagsIn(s, a) * SetOf(mask) != {} then s'.k == s.k
         else St(s'.k, a).FlagBlockedAny? && WaitOf(s'.wait, a) == Mask(mask)
  {
    hide Ready, SetOf, Any, FlagWait;
    var a := s.k.cpu.active.value;
    assert Step(s, Thr(FlagWaitAny(mask, one))) == WaitAny(s, a, mask, one);
    WaitOps(FlagsOf(s.fl, a), mask);
    Blocks(s, a, mask, FlagBlockedAny, if one then ReadOne(mask) else ClearAny(mask));
  }

  lemma Blocks(s: State, a: Tid, mask: bv16, st: Status, c: Cont)
    ensures var s' := FlagWait(s, a, mask, st, c);
      St(s'.k, a) == st && WaitOf(s'.wait, a) == Mask(mask) && Co(s', a) == c && s'.fl == s.fl
  {
    hide Owes, Block;
    BlockStatus(s.k, a, st, None);
    OwesStatus(Block(s.k, a, st, None), YieldHigher);
  }

  lemma WaitAllResult(s: State, mask: bv16)
    requires Enabled(s, Thr(FlagWaitAll(mask)))
    ensures var a, s' := s.k.cpu.active.value, Step(s, Thr(FlagWaitAll(mask)));
      && Co(s', a) == ClearAll(mask) && s'.fl == s.fl
      && if SetOf(mask) <= FlagsIn(s, a) then s'.k == s.k
         else St(s'.k, a).FlagBlockedAll? && WaitOf(s'.wait, a) == Mask(mask)
  {
    hide Ready, SetOf, All, FlagWait;
    var a := s.k.cpu.active.value;
    assert Step(s, Thr(FlagWaitAll(mask))) == WaitAll(s, a, mask);
    WaitOps(FlagsOf(s.fl, a), mask);
    Blocks(s, a, mask, FlagBlockedAll, ClearAll(mask));
  }
}
