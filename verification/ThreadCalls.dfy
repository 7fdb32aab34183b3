/** What the calls that create, end, suspend and re-prioritise threads have achieved when they return. */
module ThreadCalls {
  import opened Wrappers
  import opened Queues
  import opened Sched
  import opened Reschedule
  import opened KernelState
  import opened MsgSpec
  import opened MsgSteps
  import opened ThreadSpec
  import opened Kernel
  import opened KernelSteps
  import opened LockCalls
  import opened MsgCalls

  /** Nobody's status but that of `t` changed. */
  predicate Alone(s: State, s': State, t: Tid, st: Status) {
    s'.k.status == s.k.status[t := st]
  }

  /** `thread_sleep` and `thread_zombify`: the caller is SLEEPING or ZOMBIE, and off its run queue. */
  lemma SleepResult(s: State, c: Call)
    requires KernelInv(s) && Enabled(s, Thr(c)) && (c.ThreadSleep? || c.ThreadZombify?)
    ensures var a, s' := s.k.cpu.active.value, Step(s, Thr(c));
      Alone(s, s', a, if c.ThreadSleep? then Sleeping else Zombie) && a !in s'.k.q.on && s'.cont == s.cont
  {
    hide KernelInv, Ready, Owes, Block;
    var a, st := s.k.cpu.active.value, if c.ThreadSleep? then Sleeping else Zombie;
    assert Step(s, Thr(c)) == Sleep(s, a, st);
    SleepStatus(s.k, a, st);
    Scheduled(s);
    Leaves(s, a, st);
  }

  lemma SleepStatus(k: Sched, a: Tid, st: Status)
    ensures Owes(Block(k, a, st, None), YieldHigher).status == k.status[a := st]
  {
    hide Owes, Block;
    BlockStatus(k, a, st, None);
    OwesStatus(Block(k, a, st, None), YieldHigher);
  }

  lemma Leaves(s: State, a: Tid, st: Status)
    requires SchedOk(s.k) && Calling(s, a) && (st.Sleeping? || st.Zombie?)
    ensures a !in Sleep(s, a, st).k.q.on
  {
    hide LinksOk, MatchOk, Act, Block, CanBlock, IsHead;
    CallerCanBlock(s.k, a);
    BlockStep(s.k, a, st, None, YieldHigher, ThreadKinds, ThreadStatuses);
  }

  /**
    `thread_wakeup`: a sleeping thread of that pid is runnable again, last in the run queue of
    its priority, and the call returns 1; otherwise it returns -1 and nothing happens.
  */
  lemma WakeupResult(s: State, e: Event, pid: nat)
    requires KernelInv(s) && Enabled(s, e) && (e == Thr(ThreadWakeup(pid)) || e == Intr(ThreadWakeup(pid)))
    ensures var s' := Step(s, e);
      if pid in s.pids && St(s.k, s.pids[pid]).Sleeping? then
        var t := s.pids[pid];
        && s'.ret == Ret.Int(1) && Alone(s, s', t, Running) && s' == s.(k := s'.k, ret := s'.ret)
        && L(s'.k.q, Run(Pr(s.k, t))) == L(s.k.q, Run(Pr(s.k, t))) + [t]
      else s' == s.(ret := Ret.Int(-1))
  {
    hide KernelInv, Ready, Wakeup;
    assert Step(s, e) == Wakeup(s, pid);
    hide Step;
    Scheduled(s);
    WakeupCases(s, pid);
  }

  lemma WakeupCases(s: State, pid: nat)
    requires SchedOk(s.k)
    ensures var s' := Wakeup(s, pid);
      if pid in s.pids && St(s.k, s.pids[pid]).Sleeping? then
        var t := s.pids[pid];
        && s'.ret == Ret.Int(1) && Alone(s, s', t, Running) && s' == s.(k := s'.k, ret := s'.ret)
        && L(s'.k.q, Run(Pr(s.k, t))) == L(s.k.q, Run(Pr(s.k, t))) + [t]
      else s' == s.(ret := Ret.Int(-1))
  {
    hide SchedOk, SetStatus, Owes;
    if pid in s.pids && St(s.k, s.pids[pid]).Sleeping? {
      WokenUp(s.k, s.pids[pid]);
    }
  }

  lemma WokenUp(k: Sched, t: Tid)
    requires SchedOk(k) && St(k, t).Sleeping?
    ensures var k' := Owes(SetStatus(k, t, Running), Switch(Pr(k, t)));
      k'.status == k.status[t := Running] && L(k'.q, Run(Pr(k, t))) == L(k.q, Run(Pr(k, t))) + [t]
  {
    hide LinksOk, MatchOk, Act, SetStatus, Owes;
    UnlistedStatus(k, t);
    WakeOk(k, t, Running);
    OwesStatus(SetStatus(k, t, Running), Switch(Pr(k, t)));
  }

  /**
    `thread_kill_zombie`: a zombie of that pid is STOPPED and its pid free again, and the call
    returns 1; otherwise it returns -1 and nothing happens.
  */
  lemma KillZombieResult(s: State, e: Event, pid: nat)
    requires Enabled(s, e) && (e == Thr(ThreadKillZombie(pid)) || e == Intr(ThreadKillZombie(pid)))
    ensures var s' := Step(s, e);
      if pid in s.pids && St(s.k, s.pids[pid]).Zombie? then
        && s'.ret == Ret.Int(1) && Alone(s, s', s.pids[pid], Stopped) && s' == s.(k := s'.k, pids := s'.pids, ret := s'.ret)
        && s'.pids.Keys == s.pids.Keys - {pid} && (forall p :: p in s'.pids ==> s'.pids[p] == s.pids[p])
      else s' == s.(ret := Ret.Int(-1))
  {
    hide Ready, KillZombie;
    assert Step(s, e) == KillZombie(s, pid);
    hide Step;
    KillCases(s, pid);
  }

  lemma KillCases(s: State, pid: nat)
    ensures var s' := KillZombie(s, pid);
      if pid in s.pids && St(s.k, s.pids[pid]).Zombie? then
        && s'.ret == Ret.Int(1) && Alone(s, s', s.pids[pid], Stopped) && s' == s.(k := s'.k, pids := s'.pids, ret := s'.ret)
        && s'.pids.Keys == s.pids.Keys - {pid} && (forall p :: p in s'.pids ==> s'.pids[p] == s.pids[p])
      else s' == s.(ret := Ret.Int(-1))
  {
    hide SetStatus;
    if pid in s.pids {
      StatusSet(s.k, s.pids[pid], Stopped);
    }
  }

  lemma StatusSet(k: Sched, t: Tid, st: Status)
    ensures SetStatus(k, t, st).status == k.status[t := st]
  {
    hide RunqueuePush, RunqueuePop;
  }

  /** `sched_task_exit`: the caller is STOPPED for good, its pid is free again, and another thread runs or none. */
  lemma ExitResult(s: State)
    requires KernelInv(s) && Enabled(s, Thr(ThreadExit))
    ensures var a, s' := s.k.cpu.active.value, Step(s, Thr(ThreadExit));
      && St(s'.k, a).Stopped? && a !in s'.k.q.on && s'.k.cpu.active != Some(a)
      && (forall t :: t != a ==> St(s'.k, t) == St(s.k, t) || (OnRunqueue(St(s.k, t)) && OnRunqueue(St(s'.k, t))))
      && Get(s.pid, a) in s.pids && s.pids[Get(s.pid, a)] == a
      && s'.pids.Keys == s.pids.Keys - {Get(s.pid, a)} && (forall p :: p in s'.pids ==> s'.pids[p] == s.pids[p])
  {
    hide KernelInv, Ready, SetStatus, SchedRun;
    var a := s.k.cpu.active.value;
    assert Step(s, Thr(ThreadExit)) == Exit(s, a);
    Scheduled(s);
    CallerListed(s, a);
    ExitOk(s, a);
    Exits(s, a);
  }

  lemma Exits(s: State, a: Tid)
    requires SchedOk(s.k) && Calling(s, a)
    ensures var k' := Exit(s, a).k;
      && a !in k'.q.on
      && (forall t :: t != a ==> St(k', t) == St(s.k, t) || (OnRunqueue(St(s.k, t)) && OnRunqueue(St(k', t))))
  {
    hide LinksOk, MatchOk, Act, SetStatus, CanBlock, IsHead, SchedRun;
    CallerCanBlock(s.k, a);
    var k1 := SetStatus(s.k, a, Stopped);
    BlockOk(s.k, a, Stopped, None);
    assert Block(s.k, a, Stopped, None) == k1;
    RunOk(k1.(cpu := k1.cpu.(active := None)));
  }

  /**
    `thread_create`: a bad priority or a full table fail, and nothing happens. Otherwise the new
    thread has the lowest free pid, which the call returns, the priority asked for, an empty
    inbox, and sleeps if so asked or else is last in its run queue; nobody else changes.
  */
  lemma CreateResult(s: State, t: Tid, prio: nat, how: Start, flags: bv16)
    requires KernelInv(s) && Enabled(s, Thr(ThreadCreate(t, prio, how, flags)))
    ensures var s' := Step(s, Thr(ThreadCreate(t, prio, how, flags)));
      if prio >= PRIO_LEVELS then s' == s.(ret := Ret.Int(-22))
      else if forall p :: 1 <= p <= 32 ==> p in s.pids then s' == s.(ret := Ret.Int(-75))
      else Created(s, s', t, prio, how, flags)
  {
    hide KernelInv, Ready, Create, Created;
    assert Step(s, Thr(ThreadCreate(t, prio, how, flags))) == Create(s, t, prio, how, flags);
    hide Step;
    CreateCases(s, t, prio, how, flags);
  }

  lemma CreateCases(s: State, t: Tid, prio: nat, how: Start, flags: bv16)
    requires t !in s.k.status
    ensures var s' := Create(s, t, prio, how, flags);
      if prio >= PRIO_LEVELS then s' == s.(ret := Ret.Int(-22))
      else if forall p :: 1 <= p <= 32 ==> p in s.pids then s' == s.(ret := Ret.Int(-75))
      else Created(s, s', t, prio, how, flags)
  {
    hide Started, Registered, FreePid, Created;
    FreePids(s.pids);
    if prio < PRIO_LEVELS && FreePid(s.pids, PID_FIRST).Some? {
      Creates(s, t, prio, how, flags);
    }
  }

  ghost predicate Created(s: State, s': State, t: Tid, prio: nat, how: Start, flags: bv16) {
    && s'.ret.Int? && 1 <= s'.ret.v <= 32 && s'.ret.v !in s.pids && (forall p :: 1 <= p < s'.ret.v ==> p in s.pids)
    && s'.pids == s.pids[s'.ret.v := t] && Get(s'.pid, t) == s'.ret.v
    && ChanOf(s'.ms, t) == Chan(0, [], [], []) && FlagsOf(s'.fl, t) == flags
    && Alone(s, s', t, if how.Asleep? then Sleeping else Pending)
    && Pr(s'.k, t) == prio && (forall u :: u != t ==> Pr(s'.k, u) == Pr(s.k, u) && Get(s'.pid, u) == Get(s.pid, u))
    && L(s'.k.q, Run(prio)) == L(s.k.q, Run(prio)) + (if how.Asleep? then [] else [t])
    && (forall u :: u != t ==> WaitOf(s'.wait, u) == WaitOf(s.wait, u))
  }

  lemma Creates(s: State, t: Tid, prio: nat, how: Start, flags: bv16)
    requires t !in s.k.status && prio < PRIO_LEVELS && FreePid(s.pids, PID_FIRST).Some?
    ensures Created(s, Create(s, t, prio, how, flags), t, prio, how, flags)
  {
    hide Started, Registered, FreePid;
    FreePids(s.pids);
    StartedEffect(s.k, t, prio, how);
  }

  lemma FreePids(pids: map<nat, Tid>)
    ensures var r := FreePid(pids, PID_FIRST);
      if r.None? then forall p :: 1 <= p <= 32 ==> p in pids
      else 1 <= r.value <= 32 && r.value !in pids && forall p :: 1 <= p < r.value ==> p in pids
  {
    hide FreePid;
    var r := FreePid(pids, PID_FIRST);
    if r.Some? {
      forall p | 1 <= p < r.value ensures p in pids {
      }
    }
  }

  lemma StartedEffect(k: Sched, t: Tid, prio: nat, how: Start)
    requires t !in k.status
    ensures var k' := Started(Registered(k, t, prio), t, how);
      && k'.status == k.status[t := if how.Asleep? then Sleeping else Pending]
      && k'.prio == k.prio[t := prio]
      && L(k'.q, Run(prio)) == L(k.q, Run(prio)) + (if how.Asleep? then [] else [t])
  {
    hide Owes;
    var k0 := Registered(k, t, prio);
    if how.Normally? {
      OwesStatus(SetStatus(k0, t, Pending), Switch(prio));
    }
  }

  /** `sched_change_priority`: the thread has the new priority, and no other priority or status changes. */
  lemma PriorityResult(s: State, t: Tid, prio: nat)
    requires Enabled(s, Thr(ThreadPriority(t, prio)))
    ensures var s' := Step(s, Thr(ThreadPriority(t, prio)));
      && (forall u :: Pr(s'.k, u) == if u == t then prio else Pr(s.k, u))
      && s'.k.status == s.k.status && s' == s.(k := s'.k, ret := s'.ret)
      && (OnRunqueue(St(s.k, t)) && prio != Pr(s.k, t) ==> L(s'.k.q, Run(prio)) == L(s.k.q, Run(prio)) + [t])
  {
    hide Ready, ChangePriority, Movable;
    assert Step(s, Thr(ThreadPriority(t, prio))) == ChangePriority(s, t, prio);
    hide Step;
    Changes(s, t, prio);
  }

  lemma Changes(s: State, t: Tid, prio: nat)
    requires t in s.k.status
    ensures var s' := ChangePriority(s, t, prio);
      && (forall u :: Pr(s'.k, u) == if u == t then prio else Pr(s.k, u))
      && s'.k.status == s.k.status && s' == s.(k := s'.k, ret := s'.ret)
      && (OnRunqueue(St(s.k, t)) && prio != Pr(s.k, t) ==> L(s'.k.q, Run(prio)) == L(s.k.q, Run(prio)) + [t])
  {
    hide Owes, Reprioritised;
    OwesStatus(Reprioritised(s.k, t, prio), PrioYield(t, prio));
    Moves(s.k, t, prio);
  }

  lemma Moves(k: Sched, t: Tid, prio: nat)
    ensures var k' := Reprioritised(k, t, prio);
      && k'.prio == k.prio[t := prio] && k'.status == k.status
      && (OnRunqueue(St(k, t)) && prio != Pr(k, t) ==> L(k'.q, Run(prio)) == L(k.q, Run(prio)) + [t])
  {
  }

  // ---- Scheduling ----

  /** `thread_yield`, once it is through: its caller is last in its run queue, and the next in line runs. */
  lemma YieldResult(s: State)
    requires KernelInv(s) && Enabled(s, Thr(ThreadYield(true))) && !s.k.cpu.lazy
    ensures var a, s1 := s.k.cpu.active.value, Step(s, Thr(ThreadYield(true)));
      var s2, q := Step(Step(s1, Continue), Continue), L(s.k.q, Run(Pr(s.k, s.k.cpu.active.value)));
      && s2 == s.(k := s2.k) && Ow(s2.k, a).Nothing?
      && s2.k.cpu.active == Some(if |q| > 1 then q[1] else a)
      && L(s2.k.q, Run(Pr(s.k, a))) == q[1..] + [a]
  {
    hide KernelInv, SchedRun, Rotate;
    var a := s.k.cpu.active.value;
    Scheduled(s);
    TwoSteps(s, a);
    YieldRoundRobin(s.k, a);
  }

  lemma TwoSteps(s: State, a: Tid)
    requires Calling(s, a)
    ensures var s1 := Step(s, Thr(ThreadYield(true)));
      Step(Step(s1, Continue), Continue) == s.(k := Pay(Pay(Owes(s.k, YieldRotate), a), a))
  {
    hide SchedRun, Rotate, MutexSpec.Lock, MutexSpec.LockReturn, MboxSpec.PutReturn, FlagSpec.FlagReturn;
    var k1 := Owes(s.k, YieldRotate);
    assert Step(s, Thr(ThreadYield(true))) == s.(k := k1);
    assert Ow(k1, a) == YieldRotate && Ow(Pay(k1, a), a) == YieldHigher;
  }

  /**
    An interrupt: while its handler runs nothing is switched; at its end a pending request is
    served, so that the head of the best run queue runs, except inside the idle loop.
  */
  lemma InterruptResult(s: State, e: Event)
    requires KernelInv(s) && Enabled(s, e) && (e.Enter? || e.Leave?)
    ensures var k, k' := s.k, Step(s, e).k;
      && k'.cpu.isr == e.Enter? && Step(s, e) == s.(k := k') && k'.q == k.q
      && if e.Leave? && k.cpu.request && !k.cpu.idle then k.q.bits != {} ==> Dispatched(k')
         else k'.status == k.status && k'.cpu == k.cpu.(isr := e.Enter?)
  {
    hide KernelInv, SchedRun, Dispatched, LinksOk, MatchOk;
    Scheduled(s);
    if e.Leave? {
      RunOk(s.k.(cpu := s.k.cpu.(isr := false)));
    }
  }
}
