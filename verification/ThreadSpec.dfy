/** Creating, ending, suspending and re-prioritising threads. */
module ThreadSpec {
  import opened Wrappers
  import opened Queues
  import opened Sched
  import opened Reschedule
  import opened KernelState

  const PID_FIRST: nat := 1
  const PID_LAST: nat := 32
  const EINVAL: int := 22
  const EOVERFLOW: int := 75
  const NOT_FOUND: int := -1

  // ---- The operations ----

  function Sleep(s: State, a: Tid, st: Status): State {
    s.(k := Owes(Block(s.k, a, st, None), YieldHigher), ret := NoRet)
  }

  function Wakeup(s: State, pid: nat): State {
    if pid in s.pids && St(s.k, s.pids[pid]).Sleeping? then
      var t := s.pids[pid];
      s.(k := Owes(SetStatus(s.k, t, Running), Switch(Pr(s.k, t))), ret := Int(1))
    else
      s.(ret := Int(NOT_FOUND))
  }

  function KillZombie(s: State, pid: nat): State {
    if pid in s.pids && St(s.k, s.pids[pid]).Zombie? then
      s.(k := SetStatus(s.k, s.pids[pid], Stopped), pids := s.pids - {pid}, ret := Int(1))
    else
      s.(ret := Int(NOT_FOUND))
  }

  /** `sched_task_exit` */
  function Exit(s: State, a: Tid): State {
    var k1 := SetStatus(s.k, a, Stopped);
    s.(k := SchedRun(k1.(cpu := k1.cpu.(active := None))), pids := s.pids - {Get(s.pid, a)})
  }

  /** The lowest pid without a thread. */
  function FreePid(pids: map<nat, Tid>, p: nat): (r: Option<nat>)
    ensures r.Some? ==> p <= r.value <= PID_LAST && r.value !in pids
    ensures forall q :: p <= q <= PID_LAST && q !in pids ==> r.Some? && r.value <= q
    decreases PID_LAST + 1 - p
  {
    if p > PID_LAST then None else if p !in pids then Some(p) else FreePid(pids, p + 1)
  }

  datatype Start = Asleep | Quietly | Normally

  /** The new thread block: status STOPPED, on no list. */
  function Registered(k: Sched, t: Tid, prio: nat): Sched {
    k.(status := k.status[t := Stopped], prio := k.prio[t := prio])
  }

  function Started(k: Sched, t: Tid, how: Start): Sched {
    match how
    case Asleep => SetStatus(k, t, Sleeping)
    case Quietly => Lazily(SetStatus(k, t, Pending))
    case Normally => Owes(SetStatus(k, t, Pending), Switch(Pr(k, t)))
  }

  function Lazily(k: Sched): Sched {
    k.(cpu := k.cpu.(lazy := true))
  }

  /** `thread_create`, with the block at address `t`; `flags` is what that memory held. */
  function Create(s: State, t: Tid, prio: nat, how: Start, flags: bv16): State {
    var pid := FreePid(s.pids, PID_FIRST);
    if prio >= PRIO_LEVELS then s.(ret := Int(-EINVAL))
    else if pid.None? then s.(ret := Int(-EOVERFLOW))
    else
      s.(k := Started(Registered(s.k, t, prio), t, how),
         pids := s.pids[pid.value := t],
         pid := s.pid[t := pid.value],
         ms := s.ms.(ch := s.ms.ch[t := Chan(0, [], [], [])]),
         fl := s.fl[t := flags],
         wait := s.wait[t := Null],
         ret := Int(pid.value))
  }

  function Reprioritised(k: Sched, t: Tid, p: nat): Sched {
    k.(q := if OnRunqueue(St(k, t)) then RunqueuePush(RunqueuePop(k.q, Pr(k, t)), t, p) else k.q,
       prio := k.prio[t := p])
  }

  /** `sched_change_priority` */
  function ChangePriority(s: State, t: Tid, p: nat): State {
    if Pr(s.k, t) == p then s else s.(k := Owes(Reprioritised(s.k, t, p), PrioYield(t, p)), ret := NoRet)
  }

  // ---- They keep the scheduler invariant ----

  const ThreadKinds: set<Kind> := {RunKind}
  const ThreadStatuses: set<Status> := {Running, Pending, Sleeping, Zombie, Stopped}

  lemma SleepOk(s: State, a: Tid, st: Status)
    requires SchedOk(s.k) && Calling(s, a) && (st.Sleeping? || st.Zombie?)
    ensures var k' := Sleep(s, a, st).k; SchedOk(k') && Only(s.k, k', ThreadKinds, ThreadStatuses)
  {
    hide LinksOk, MatchOk, Act, Block, CanBlock, IsHead;
    CallerCanBlock(s.k, a);
    BlockStep(s.k, a, st, None, YieldHigher, ThreadKinds, ThreadStatuses);
  }

  lemma UnlistedStatus(k: Sched, t: Tid)
    requires MatchOk(k.q.on, k.status, k.prio) && St(k, t) in {Sleeping, Zombie, Stopped}
    ensures t !in k.q.on
  {
    if t in k.status {
      assert Matches(k.status[t], OnOf(k.q.on, t), Get(k.prio, t));
    }
  }

  lemma WokenOnly(k: Sched, k': Sched, t: Tid, st: Status)
    requires t in k.status && St(k, t) in ThreadStatuses && st in ThreadStatuses
    requires k'.prio == k.prio && k'.status == k.status[t := st] && k'.q.on == k.q.on[t := Run(Pr(k, t))]
    requires SameLists(k.q, k'.q, {Run(Pr(k, t))})
    ensures Only(k, k', ThreadKinds, ThreadStatuses)
  {
  }

  lemma WakeupOk(s: State, pid: nat)
    requires SchedOk(s.k) && InContext(s.k)
    ensures var k' := Wakeup(s, pid).k; SchedOk(k') && Only(s.k, k', ThreadKinds, ThreadStatuses)
  {
    hide LinksOk, MatchOk, Act, SetStatus, Grown, Only, Owes;
    if pid in s.pids && St(s.k, s.pids[pid]).Sleeping? {
      var t := s.pids[pid];
      var k1 := SetStatus(s.k, t, Running);
      UnlistedStatus(s.k, t);
      WakeOk(s.k, t, Running);
      WokenOnly(s.k, k1, t, Running);
      WakeGrows(s.k, t, Running);
      GrownOwes(s.k, k1, Pr(s.k, t));
      OnlyOwes(s.k, k1, Switch(Pr(s.k, t)), ThreadKinds, ThreadStatuses);
    } else {
      ThreadSame(s.k);
    }
  }

  lemma ThreadSame(k: Sched)
    ensures Only(k, k, ThreadKinds, ThreadStatuses)
  {
  }

  lemma KillZombieOk(s: State, pid: nat)
    requires SchedOk(s.k) && InContext(s.k)
    ensures var k' := KillZombie(s, pid).k; SchedOk(k') && Only(s.k, k', ThreadKinds, ThreadStatuses)
  {
    hide SchedOk, SetStatus, Only;
    ThreadSame(s.k);
    if pid in s.pids && St(s.k, s.pids[pid]).Zombie? {
      StoppedOk(s.k, s.pids[pid]);
    }
  }

  lemma StoppedOk(k: Sched, t: Tid)
    requires SchedOk(k) && St(k, t).Zombie?
    ensures var k' := SetStatus(k, t, Stopped); SchedOk(k') && Only(k, k', ThreadKinds, ThreadStatuses)
  {
    hide LinksOk, MatchOk, Act, RunqueuePush, RunqueuePop;
    UnlistedStatus(k, t);
    MatchUpdate(k, SetStatus(k, t, Stopped), t);
    StoppedAct(k, t);
  }

  lemma StoppedAct(k: Sched, t: Tid)
    requires Act(k) && St(k, t).Zombie?
    ensures Act(SetStatus(k, t, Stopped))
  {
    hide RunqueuePush, RunqueuePop;
  }

  lemma ExitOk(s: State, a: Tid)
    requires SchedOk(s.k) && Calling(s, a)
    ensures var k' := Exit(s, a).k;
      && SchedOk(k') && Framed(s.k, k', ThreadKinds, ThreadStatuses) && k'.prio == s.k.prio
      && St(k', a).Stopped? && k'.cpu.active != Some(a)
  {
    hide LinksOk, MatchOk, Act, SetStatus, CanBlock, IsHead, SchedRun;
    CallerCanBlock(s.k, a);
    var k1 := SetStatus(s.k, a, Stopped);
    BlockOk(s.k, a, Stopped, None);
    assert Block(s.k, a, Stopped, None) == k1;
    var k2 := k1.(cpu := k1.cpu.(active := None));
    RunAct(k2);
    ExitRun(k2, a);
  }

  lemma ExitRun(k: Sched, a: Tid)
    requires Inv(k) && k.cpu.active.None? && St(k, a).Stopped?
    ensures SchedRun(k).cpu.active != Some(a)
  {
    hide LinksOk, MatchOk;
    RunOk(k);
    if HasRunnable(k) {
      HeadRuns(k, LowestBit(k.q.bits, 0));
    }
  }

  lemma RegisteredOk(k: Sched, t: Tid, prio: nat)
    requires SchedOk(k) && Ready(k) && t !in k.status && k.cpu.active != Some(t) && prio < PRIO_LEVELS
    ensures var k0 := Registered(k, t, prio);
      && SchedOk(k0) && Ready(k0) && t !in k0.q.on && k0.q == k.q && k0.cpu == k.cpu
      && k0.status == k.status[t := Stopped] && Framed(k, k0, ThreadKinds, ThreadStatuses)
  {
    hide LinksOk, MatchOk, Act;
    RegisteredMatch(k, t, prio);
    RegisteredSorted(k.q, k.prio, t, prio);
    RegisteredAct(k, t, prio);
  }

  lemma RegisteredMatch(k: Sched, t: Tid, prio: nat)
    requires MatchOk(k.q.on, k.status, k.prio) && t !in k.status
    ensures t !in k.q.on && MatchOk(k.q.on, k.status[t := Stopped], k.prio[t := prio])
  {
  }

  lemma RegisteredAct(k: Sched, t: Tid, prio: nat)
    requires Act(k) && Ready(k) && k.cpu.active != Some(t)
    ensures Act(Registered(k, t, prio))
  {
  }

  lemma RegisteredSorted(n: Links, prio: map<Tid, nat>, t: Tid, p: nat)
    requires LinksOk(n, prio) && t !in n.on
    ensures LinksOk(n, prio[t := p])
  {
    hide NoDup;
    forall id: ListId | id in n.lists && !id.Run? ensures Sorted(prio[t := p], n.ticket, n.lists[id]) {
      forall i, j | 0 <= i < j < |n.lists[id]|
        ensures Ahead(prio[t := p], n.ticket, n.lists[id][i], n.lists[id][j])
      {
        assert Ahead(prio, n.ticket, n.lists[id][i], n.lists[id][j]);
        assert n.lists[id][i] in n.lists[id] && n.lists[id][j] in n.lists[id];
      }
    }
  }

  lemma StartedOk(k: Sched, t: Tid, how: Start)
    requires SchedOk(k) && Ready(k) && t in k.status && t !in k.q.on && k.status[t].Stopped?
    ensures var k' := Started(k, t, how); SchedOk(k') && Only(k, k', ThreadKinds, ThreadStatuses)
  {
    hide LinksOk, MatchOk, SetStatus, Grown, Act, Only, Owes;
    match how
    case Asleep =>
      StartedAsleep(k, t);
    case Quietly =>
      WakeOk(k, t, Pending);
      WokenOnly(k, SetStatus(k, t, Pending), t, Pending);
      WakeGrows(k, t, Pending);
      LazyAct(k, SetStatus(k, t, Pending), Pr(k, t));
      OnlyLazy(k, SetStatus(k, t, Pending));
    case Normally =>
      WakeOk(k, t, Pending);
      WokenOnly(k, SetStatus(k, t, Pending), t, Pending);
      WakeGrows(k, t, Pending);
      GrownOwes(k, SetStatus(k, t, Pending), Pr(k, t));
      OnlyOwes(k, SetStatus(k, t, Pending), Switch(Pr(k, t)), ThreadKinds, ThreadStatuses);
  }

  lemma StartedAsleep(k: Sched, t: Tid)
    requires SchedOk(k) && Ready(k) && t in k.status && t !in k.q.on && k.status[t].Stopped?
    ensures var k' := SetStatus(k, t, Sleeping); SchedOk(k') && Only(k, k', ThreadKinds, ThreadStatuses)
  {
    hide LinksOk, MatchOk;
    MatchUpdate(k, SetStatus(k, t, Sleeping), t);
  }

  lemma LazyAct(k: Sched, k': Sched, m: nat)
    requires Act(k) && Ready(k) && Grown(k, k', m) && Inv(k')
    ensures SchedOk(Lazily(k'))
  {
    hide LinksOk, MatchOk;
  }

  lemma OnlyLazy(k: Sched, k': Sched)
    requires Only(k, k', ThreadKinds, ThreadStatuses)
    ensures Only(k, Lazily(k'), ThreadKinds, ThreadStatuses)
  {
  }

  lemma CreateOk(s: State, t: Tid, prio: nat, how: Start, flags: bv16)
    requires SchedOk(s.k) && Ready(s.k) && t !in s.k.status && s.k.cpu.active != Some(t)
    ensures var k' := Create(s, t, prio, how, flags).k; SchedOk(k') && Framed(s.k, k', ThreadKinds, ThreadStatuses)
  {
    hide SchedOk, Started, Registered, OnlyLists, OnlyStatus;
    ThreadSame(s.k);
    if prio < PRIO_LEVELS && FreePid(s.pids, PID_FIRST).Some? {
      var k0 := Registered(s.k, t, prio);
      RegisteredOk(s.k, t, prio);
      StartedOk(k0, t, how);
      FramedTrans(s.k, k0, Started(k0, t, how), ThreadKinds, ThreadStatuses);
    }
  }

  lemma FramedTrans(k: Sched, k1: Sched, k2: Sched, kinds: set<Kind>, sts: set<Status>)
    requires Framed(k, k1, kinds, sts) && Framed(k1, k2, kinds, sts)
    ensures Framed(k, k2, kinds, sts)
  {
  }

  // ---- Changing a priority ----

  /** On no list, or the head of its run queue. */
  predicate Movable(k: Sched, t: Tid) {
    if OnRunqueue(St(k, t)) then IsHead(k, t) else t !in k.q.on
  }

  lemma MovedLinks(k: Sched, t: Tid, p: nat)
    requires Inv(k) && IsHead(k, t)
    ensures var q := RunqueuePush(RunqueuePop(k.q, Pr(k, t)), t, p);
      && LinksOk(q, k.prio[t := p]) && q.on == k.q.on[t := Run(p)]
      && SameLists(k.q, q, {Run(Pr(k, t)), Run(p)})
  {
    hide LinksOk, MatchOk;
    var n := RunqueuePop(k.q, Pr(k, t));
    PopOk(k.q, k.prio, Pr(k, t));
    RegisteredSorted(n, k.prio, t, p);
    PushOk(n, k.prio[t := p], t, p);
  }

  lemma MovedMatch(k: Sched, k': Sched, t: Tid, p: nat)
    requires MatchOk(k.q.on, k.status, k.prio) && t in k.status && k'.prio == k.prio[t := p] && k'.status == k.status
    requires forall u :: u != t ==> OnOf(k'.q.on, u) == OnOf(k.q.on, u)
    requires Matches(k.status[t], OnOf(k'.q.on, t), p)
    ensures MatchOk(k'.q.on, k'.status, k'.prio)
  {
    hide Matches;
    forall u | u in k'.q.on ensures u in k'.status {
      assert u != t ==> OnOf(k'.q.on, u) == OnOf(k.q.on, u);
    }
  }

  lemma ReprioritisedInv(k: Sched, t: Tid, p: nat)
    requires Inv(k) && t in k.status && p < PRIO_LEVELS && Movable(k, t)
    ensures var k' := Reprioritised(k, t, p); Inv(k') && Framed(k, k', ThreadKinds, ThreadStatuses)
  {
    hide LinksOk, MatchOk, RunqueuePush, RunqueuePop;
    StatusMatches(k, t);
    if OnRunqueue(St(k, t)) {
      MovedLinks(k, t, p);
    } else {
      RegisteredSorted(k.q, k.prio, t, p);
      OffList(k, t);
    }
    MovedMatch(k, Reprioritised(k, t, p), t, p);
  }

  lemma OffList(k: Sched, t: Tid)
    requires MatchOk(k.q.on, k.status, k.prio) && t in k.status && t !in k.q.on
    ensures forall p :: Matches(k.status[t], None, p)
  {
    assert Matches(k.status[t], OnOf(k.q.on, t), Get(k.prio, t));
  }

  lemma ReprioritisedAct(k: Sched, t: Tid, p: nat)
    requires Inv(k) && Act(k) && Ready(k) && Movable(k, t)
    ensures Act(Owes(Reprioritised(k, t, p), PrioYield(t, p)))
  {
    hide LinksOk, MatchOk;
  }

  lemma ChangePriorityOk(s: State, t: Tid, p: nat)
    requires SchedOk(s.k) && Ready(s.k) && t in s.k.status && p < PRIO_LEVELS && Movable(s.k, t)
    ensures var k' := ChangePriority(s, t, p).k; SchedOk(k') && Framed(s.k, k', ThreadKinds, ThreadStatuses)
  {
    hide LinksOk, MatchOk, Act, Reprioritised, IsHead;
    ThreadSame(s.k);
    if Pr(s.k, t) != p {
      ReprioritisedInv(s.k, t, p);
      ReprioritisedAct(s.k, t, p);
    }
  }

  /**
    `_runqueue_pop` removes the head of the queue, whichever thread that is: changing the
    priority of a runnable thread leaves every node on one list exactly if it was the head.
  */
  lemma ChangePriorityExact(k: Sched, t: Tid, p: nat)
    requires Inv(k) && OnRunqueue(St(k, t)) && p < PRIO_LEVELS && p != Pr(k, t)
    ensures var q := Reprioritised(k, t, p).q; ListsOk(q.lists, q.on) <==> IsHead(k, t)
  {
    if IsHead(k, t) {
      MovedLinks(k, t, p);
    } else {
      NotHead(k, t, p);
    }
  }

  lemma NotHead(k: Sched, t: Tid, p: nat)
    requires Inv(k) && OnRunqueue(St(k, t)) && p != Pr(k, t) && !IsHead(k, t)
    ensures var q := Reprioritised(k, t, p).q; !ListsOk(q.lists, q.on)
  {
    hide SortedOk, Matches, BitsOk;
    StatusMatches(k, t);
    var r := Run(Pr(k, t));
    assert t in k.q.lists[r];
    var i :| 0 <= i < |k.q.lists[r]| && k.q.lists[r][i] == t;
    var q := Reprioritised(k, t, p).q;
    assert q.lists[r][i - 1] == t;
    assert t in q.lists[r] && q.on[t] == Run(p);
  }

  // ---- Changing the priority of a waiting thread ----

  /** The entry at `i` is behind the one before it and ahead of the one after it. */
  predicate Fits(prio: map<Tid, nat>, ticket: map<Tid, nat>, q: seq<Tid>, i: nat)
    requires i < |q|
  {
    (i > 0 ==> Ahead(prio, ticket, q[i - 1], q[i])) && (i + 1 < |q| ==> Ahead(prio, ticket, q[i], q[i + 1]))
  }

  lemma FitsSorted(prio: map<Tid, nat>, ticket: map<Tid, nat>, q: seq<Tid>, i: nat, p: nat)
    requires Sorted(prio, ticket, q) && NoDup(q) && i < |q|
    ensures Sorted(prio[q[i] := p], ticket, q) <==> Fits(prio[q[i] := p], ticket, q, i)
  {
    var prio' := prio[q[i] := p];
    if Fits(prio', ticket, q, i) {
      forall j, l | 0 <= j < l < |q| ensures Ahead(prio', ticket, q[j], q[l]) {
        assert Ahead(prio, ticket, q[j], q[l]);
        if j == i && l > i + 1 {
          assert Ahead(prio, ticket, q[i + 1], q[l]);
        } else if l == i && j < i - 1 {
          assert Ahead(prio, ticket, q[j], q[i - 1]);
        }
      }
    }
  }

  lemma OthersSorted(n: Links, prio: map<Tid, nat>, id: ListId, t: Tid, p: nat)
    requires LinksOk(n, prio) && t in n.on && n.on[t] != id && !id.Run? && id in n.lists
    ensures Sorted(prio[t := p], n.ticket, n.lists[id])
  {
    hide NoDup;
    forall i, j | 0 <= i < j < |n.lists[id]| ensures Ahead(prio[t := p], n.ticket, n.lists[id][i], n.lists[id][j]) {
      assert Ahead(prio, n.ticket, n.lists[id][i], n.lists[id][j]);
      assert n.lists[id][i] in n.lists[id] && n.lists[id][j] in n.lists[id];
    }
  }

  lemma WaiterSorted(n: Links, prio: map<Tid, nat>, id: ListId, i: nat, p: nat)
    requires LinksOk(n, prio) && !id.Run? && i < |L(n, id)|
    ensures LinksOk(n, prio[L(n, id)[i] := p]) <==> Fits(prio[L(n, id)[i] := p], n.ticket, L(n, id), i)
  {
    hide NoDup, Sorted, Fits;
    var q := L(n, id);
    var t := q[i];
    assert t in q && n.on[t] == id;
    FitsSorted(prio, n.ticket, q, i, p);
    forall d: ListId | d in n.lists && !d.Run? && d != id ensures Sorted(prio[t := p], n.ticket, n.lists[d]) {
      OthersSorted(n, prio, d, t, p);
    }
  }

  lemma WaiterMatches(k: Sched, t: Tid, p: nat)
    requires MatchOk(k.q.on, k.status, k.prio) && !OnRunqueue(St(k, t))
    ensures MatchOk(k.q.on, k.status, k.prio[t := p])
  {
    hide Matches;
    forall u | u in k.status ensures Matches(k.status[u], OnOf(k.q.on, u), Get(k.prio[t := p], u)) {
      assert Matches(k.status[u], OnOf(k.q.on, u), Get(k.prio, u));
      MatchesBlocked(St(k, t), OnOf(k.q.on, t), Get(k.prio, t), p);
    }
  }

  lemma MatchesBlocked(st: Status, o: Option<ListId>, p: nat, q: nat)
    requires !OnRunqueue(st)
    ensures Matches(st, o, p) <==> Matches(st, o, q)
  {
  }

  /**
    A waiting thread keeps its place when its priority changes: the wait list stays in order
    exactly if the thread still belongs between its neighbours.
  */
  lemma ChangeWaiterExact(k: Sched, id: ListId, i: nat, p: nat)
    requires Inv(k) && !id.Run? && i < |L(k.q, id)| && p < PRIO_LEVELS
    ensures var t := L(k.q, id)[i];
      Inv(Reprioritised(k, t, p)) <==> Fits(k.prio[t := p], k.q.ticket, L(k.q, id), i)
  {
    hide LinksOk, MatchOk, Fits, RunqueuePush, RunqueuePop, NoDup;
    var t := L(k.q, id)[i];
    DropOk(k, id, i);
    WaiterSorted(k.q, k.prio, id, i, p);
    WaiterMatches(k, t, p);
  }
}
