/** Mutexes, cancellable locking and condition variables. */
module MutexSpec {
  import opened Wrappers
  import opened Queues
  import opened Sched
  import opened Reschedule
  import opened KernelState

  /** `mutex->queue.next == NULL` */
  predicate Unlocked(n: Links, mx: Mutexes, m: nat) {
    m !in mx.mark && L(n, MutexQ(m)) == []
  }

  /** The mutex that a thread's unfinished lock call is about. */
  function WaitsFor(mc: map<nat, Canceller>, c: Cont): Option<nat> {
    match c
    case Locking(m) => Some(m)
    case CancelCheck(x) => if x in mc then Some(mc[x].mutex) else None
    case _ => None
  }

  // ---- The operations ----

  /** `_block` */
  function BlockOn(s: State, a: Tid, m: nat, c: Cont): State {
    s.(k := Owes(Block(s.k, a, MutexBlocked, Some(MutexQ(m))), YieldHigher),
       mx := s.mx.(mark := s.mx.mark - {m}),
       cont := s.cont[a := c])
  }

  function Take(s: State, a: Tid, m: nat): State {
    s.(mx := s.mx.(mark := s.mx.mark + {m}, holds := s.mx.holds + {(a, m)}))
  }

  /** `mutex_lock_internal` */
  function Lock(s: State, a: Tid, m: nat, block: bool): State {
    if Unlocked(s.k.q, s.mx, m) then Take(s, a, m).(cont := s.cont[a := User], ret := Int(1))
    else if !block then s.(ret := Int(0))
    else BlockOn(s, a, m, Locking(m))
  }

  /** `mutex_lock_cancelable` */
  function LockCancelable(s: State, a: Tid, x: nat): State
    requires x in s.mc
  {
    if s.mc[x].cancelled then s.(ret := Cancelled)
    else if Unlocked(s.k.q, s.mx, s.mc[x].mutex) then Take(s, a, s.mc[x].mutex).(ret := Int(0))
    else BlockOn(s, a, s.mc[x].mutex, CancelCheck(x))
  }

  /** What both lock calls do after `_block`. */
  function LockReturn(s: State, a: Tid): State {
    match Co(s, a)
    case Locking(m) => s.(cont := s.cont[a := User], ret := Int(1))
    case CancelCheck(x) =>
      s.(cont := s.cont[a := User], ret := if x in s.mc && s.mc[x].cancelled then Cancelled else Int(0))
    case _ => s
  }

  function Drop(holds: set<(Tid, nat)>, m: nat): set<(Tid, nat)> {
    set p | p in holds && p.1 != m
  }

  /** The critical section of `mutex_unlock` without its `sched_switch`. */
  function Release(s: State, m: nat): State {
    s.(k := ReleaseWake(s.k, m), mx := ReleaseMutex(s, m))
  }

  function ReleaseWake(k: Sched, m: nat): Sched {
    if L(k.q, MutexQ(m)) == [] then k else WakeAt(k, MutexQ(m), 0)
  }

  function ReleaseMutex(s: State, m: nat): Mutexes {
    var q := L(s.k.q, MutexQ(m));
    if Unlocked(s.k.q, s.mx, m) then s.mx
    else if q == [] then
      Mutexes(s.mx.mark - {m}, Drop(s.mx.holds, m))
    else
      Mutexes(if |q| == 1 then s.mx.mark + {m} else s.mx.mark, Drop(s.mx.holds, m) + {(q[0], m)})
  }

  /** The `sched_switch` that follows it, if any. */
  function ReleaseOwe(s: State, m: nat): Owe {
    var q := L(s.k.q, MutexQ(m));
    if q == [] then Nothing else Switch(Pr(s.k, q[0]))
  }

  function Unlock(s: State, m: nat): State {
    var s1 := Release(s, m);
    s1.(k := Owes(s1.k, ReleaseOwe(s, m)), ret := NoRet)
  }

  function UnlockAndSleep(s: State, a: Tid, m: nat): State {
    Release(s, m).(k := ReleaseAndBlock(s.k, a, m, false, Sleeping, None), cont := s.cont[a := User], ret := NoRet)
  }

  /**
    `cond_wait` up to its yield. Interrupts stay disabled throughout, so the `sched_switch` of
    the nested `mutex_unlock` can only leave a request behind.
  */
  function CondWait(s: State, a: Tid, c: nat, m: nat): State {
    var request := ReleaseOwe(s, m).Switch? && Pr(s.k, a) > ReleaseOwe(s, m).prio;
    Release(s, m).(k := ReleaseAndBlock(s.k, a, m, request, CondBlocked, Some(CondQ(c))),
                   cont := s.cont[a := Relock(m)],
                   ret := NoRet)
  }

  /** Wakes the first `n` waiters, or all of them if there are fewer. */
  function WakeFirst(k: Sched, id: ListId, n: nat): Sched
    decreases n
  {
    if n == 0 || L(k.q, id) == [] then k else WakeFirst(WakeAt(k, id, 0), id, n - 1)
  }

  /** The smallest priority value among `q`, starting from `least`. */
  function MinPrio(prio: map<Tid, nat>, q: seq<Tid>, least: nat): nat {
    if q == [] then least
    else MinPrio(prio, q[1..], if Get(prio, q[0]) < least then Get(prio, q[0]) else least)
  }

  /** `_cond_signal` wakes one waiter, or all of them. */
  function SignalCount(k: Sched, c: nat, broadcast: bool): nat {
    var q := L(k.q, CondQ(c));
    if broadcast || q == [] then |q| else 1
  }

  function SignalSched(k: Sched, c: nat, broadcast: bool): Sched {
    var n := SignalCount(k, c, broadcast);
    var least := MinPrio(k.prio, L(k.q, CondQ(c))[..n], PRIO_LEVELS);
    Owes(WakeFirst(k, CondQ(c), n), if least < PRIO_LEVELS then Switch(least) else Nothing)
  }

  function Signal(s: State, c: nat, broadcast: bool): State {
    s.(k := SignalSched(s.k, c, broadcast), ret := NoRet)
  }

  function IndexOf(q: seq<Tid>, t: Tid): (i: nat)
    requires t in q
    ensures i < |q| && q[i] == t
  {
    if q[0] == t then 0 else 1 + IndexOf(q[1..], t)
  }

  /** The thread is queued and not on a run queue, so that `mutex_cancel` takes it off the mutex queue. */
  predicate Cancellable(s: State, x: nat)
    requires x in s.mc
  {
    !OnRunqueue(St(s.k, s.mc[x].thread)) && s.mc[x].thread in L(s.k.q, MutexQ(s.mc[x].mutex))
  }

  function CancelWake(k: Sched, m: nat, t: Tid): Sched
    requires t in L(k.q, MutexQ(m))
  {
    Owes(WakeAt(k, MutexQ(m), IndexOf(L(k.q, MutexQ(m)), t)), Switch(Pr(k, t)))
  }

  function CancelMutex(s: State, x: nat): Mutexes
    requires x in s.mc
  {
    var m := s.mc[x].mutex;
    if Cancellable(s, x) && |L(s.k.q, MutexQ(m))| == 1 then s.mx.(mark := s.mx.mark + {m}) else s.mx
  }

  /** `mutex_cancel` */
  function Cancel(s: State, x: nat): State
    requires x in s.mc
  {
    s.(k := if Cancellable(s, x) then CancelWake(s.k, s.mc[x].mutex, s.mc[x].thread) else Owes(s.k, Nothing),
       mx := CancelMutex(s, x),
       mc := s.mc[x := s.mc[x].(cancelled := true)],
       ret := NoRet)
  }

  // ---- Invariant ----

  ghost predicate HasHolder(holds: set<(Tid, nat)>, m: nat) {
    exists t :: (t, m) in holds
  }

  /** At most one holder, and a mutex is locked exactly if it has one. */
  ghost predicate HolderOk(n: Links, mx: Mutexes) {
    && (forall m :: m in mx.mark ==> L(n, MutexQ(m)) == [])
    && (forall t, u, m :: (t, m) in mx.holds && (u, m) in mx.holds ==> t == u)
    && (forall t, m :: (t, m) in mx.holds ==> !Unlocked(n, mx, m))
    && (forall m :: Unlocked(n, mx, m) || HasHolder(mx.holds, m))
  }

  /** What a thread in the middle of `mutex_lock_cancelable`, now on list `o`, can rely on. */
  predicate LockerOk(mc: map<nat, Canceller>, o: Option<ListId>, c: Cont, t: Tid) {
    c.CancelCheck? ==>
      && c.mc in mc && mc[c.mc].thread == t
      && (o == Some(MutexQ(mc[c.mc].mutex)) ==> !mc[c.mc].cancelled)
  }

  ghost predicate LockersOk(on: map<Tid, ListId>, mc: map<nat, Canceller>, cont: map<Tid, Cont>) {
    && (forall t :: t in cont ==> LockerOk(mc, OnOf(on, t), cont[t], t))
    && (forall t :: t in on && on[t].MutexQ? ==> t in cont && WaitsFor(mc, cont[t]) == Some(on[t].mutex))
  }

  ghost predicate MutexOk(s: State) {
    HolderOk(s.k.q, s.mx) && LockersOk(s.k.q.on, s.mc, s.cont)
  }

  const MutexKinds: set<Kind> := {RunKind, MutexKind, CondKind}

  const MutexStatuses: set<Status> := {Running, Pending, MutexBlocked, Sleeping, CondBlocked}

  // ---- mutex_lock ----

  lemma BlockOnOk(s: State, a: Tid, m: nat, c: Cont)
    requires SchedOk(s.k) && MutexOk(s) && Calling(s, a) && WaitsFor(s.mc, c) == Some(m)
    requires !Unlocked(s.k.q, s.mx, m)
    requires c.CancelCheck? ==> s.mc[c.mc].thread == a && !s.mc[c.mc].cancelled
    ensures var s' := BlockOn(s, a, m, c);
      SchedOk(s'.k) && MutexOk(s') && Only(s.k, s'.k, MutexKinds, MutexStatuses)
  {
    hide Inv, Act, Block, InsertPos, CanBlock, IsHead, HolderOk, LockersOk, Only, WaitsFor;
    CallerCanBlock(s.k, a);
    BlockStep(s.k, a, MutexBlocked, Some(MutexQ(m)), YieldHigher, MutexKinds, MutexStatuses);
    var s' := BlockOn(s, a, m, c);
    BlockOnHolder(s.k.q, s'.k.q, s.mx, s'.mx, m);
    BlockOnLockers(s.k.q.on, s.mc, s.cont, a, m, c);
  }

  lemma BlockOnHolder(n: Links, n': Links, mx: Mutexes, mx': Mutexes, m: nat)
    requires HolderOk(n, mx) && mx'.holds == mx.holds && mx'.mark == mx.mark - {m}
    requires forall d :: d != m ==> L(n', MutexQ(d)) == L(n, MutexQ(d))
    requires L(n', MutexQ(m)) != [] && !Unlocked(n, mx, m)
    ensures HolderOk(n', mx')
  {
  }

  lemma BlockOnLockers(on: map<Tid, ListId>, mc: map<nat, Canceller>, cont: map<Tid, Cont>, a: Tid, m: nat, c: Cont)
    requires LockersOk(on, mc, cont) && WaitsFor(mc, c) == Some(m)
    requires c.CancelCheck? ==> mc[c.mc].thread == a && !mc[c.mc].cancelled
    ensures LockersOk(on[a := MutexQ(m)], mc, cont[a := c])
  {
  }

  lemma HolderFrame(n: Links, n': Links, mx: Mutexes)
    requires HolderOk(n, mx)
    requires forall m :: L(n', MutexQ(m)) == L(n, MutexQ(m))
    ensures HolderOk(n', mx)
  {
  }

  /** A thread that is not waiting for a mutex changed list or continuation. */
  lemma LockersFrame(on: map<Tid, ListId>, on': map<Tid, ListId>, mc: map<nat, Canceller>,
                     cont: map<Tid, Cont>, a: Tid, c: Cont)
    requires LockersOk(on, mc, cont) && !c.Locking? && !c.CancelCheck?
    requires forall t :: t != a && t in on && on[t].MutexQ? ==> t in on' && on'[t] == on[t]
    requires forall t :: t in on' && on'[t].MutexQ? ==> t != a && t in on && on[t] == on'[t]
    ensures LockersOk(on', mc, cont[a := c])
  {
  }

  lemma TakeOk(s: State, a: Tid, m: nat, c: Cont)
    requires MutexOk(s) && Unlocked(s.k.q, s.mx, m) && !c.Locking? && !c.CancelCheck?
    requires a !in s.k.q.on || !s.k.q.on[a].MutexQ?
    ensures MutexOk(Take(s, a, m).(cont := s.cont[a := c]))
  {
    var mx' := Take(s, a, m).mx;
    forall d ensures Unlocked(s.k.q, mx', d) || HasHolder(mx'.holds, d) {
      if d == m {
        assert (a, d) in mx'.holds;
      } else if HasHolder(s.mx.holds, d) {
        var t :| (t, d) in s.mx.holds;
        assert (t, d) in mx'.holds;
      }
    }
  }

  /** `mutex_lock` and `mutex_trylock`: the critical section keeps every invariant. */
  lemma LockOk(s: State, a: Tid, m: nat, block: bool)
    requires SchedOk(s.k) && MutexOk(s) && Calling(s, a)
    ensures var s' := Lock(s, a, m, block);
      SchedOk(s'.k) && MutexOk(s') && Only(s.k, s'.k, MutexKinds, MutexStatuses)
  {
    hide Inv, Act, HolderOk, LockersOk, BlockOn;
    CallerNotQueued(s, a);
    if Unlocked(s.k.q, s.mx, m) {
      TakeOk(s, a, m, User);
    } else if block {
      BlockOnOk(s, a, m, Locking(m));
    }
  }

  lemma CallerNotQueued(s: State, a: Tid)
    requires SchedOk(s.k) && Calling(s, a)
    ensures a in s.k.q.on && s.k.q.on[a].Run?
  {
    hide LinksOk, MatchOk;
    CallerCanBlock(s.k, a);
    StatusMatches(s.k, a);
  }

  lemma LockCancelableOk(s: State, a: Tid, x: nat)
    requires SchedOk(s.k) && MutexOk(s) && Calling(s, a) && Co(s, a) == User
    requires x in s.mc && s.mc[x].thread == a
    ensures var s' := LockCancelable(s, a, x);
      SchedOk(s'.k) && MutexOk(s') && Only(s.k, s'.k, MutexKinds, MutexStatuses)
  {
    hide Inv, Act, HolderOk, BlockOn;
    CallerNotQueued(s, a);
    if !s.mc[x].cancelled {
      if Unlocked(s.k.q, s.mx, s.mc[x].mutex) {
        TakeOk(s, a, s.mc[x].mutex, User);
      } else {
        BlockOnOk(s, a, s.mc[x].mutex, CancelCheck(x));
      }
    }
  }

  // ---- mutex_unlock ----

  lemma ReleaseHolder(n: Links, n': Links, mx: Mutexes, mx': Mutexes, m: nat, h: Option<Tid>)
    requires HolderOk(n, mx)
    requires forall d :: d != m ==> L(n', MutexQ(d)) == L(n, MutexQ(d)) && (d in mx'.mark <==> d in mx.mark)
    requires mx'.holds == Drop(mx.holds, m) + (if h.Some? then {(h.value, m)} else {})
    requires m in mx'.mark ==> L(n', MutexQ(m)) == []
    requires h.Some? <==> !Unlocked(n', mx', m)
    ensures HolderOk(n', mx')
  {
    forall d ensures Unlocked(n', mx', d) || HasHolder(mx'.holds, d) {
      if d == m && h.Some? {
        assert (h.value, d) in mx'.holds;
      } else if d != m {
        assert Unlocked(n', mx', d) <==> Unlocked(n, mx, d);
        if HasHolder(mx.holds, d) {
          var t :| (t, d) in mx.holds;
          assert (t, d) in mx'.holds;
        }
      }
    }
  }

  lemma ReleaseLockers(on: map<Tid, ListId>, on': map<Tid, ListId>, mc: map<nat, Canceller>, cont: map<Tid, Cont>,
                       m: nat, h: Tid)
    requires LockersOk(on, mc, cont)
    requires forall t: Tid :: t != h ==> OnOf(on', t) == OnOf(on, t)
    requires OnOf(on, h) == Some(MutexQ(m)) && h in on' && on'[h].Run?
    ensures LockersOk(on', mc, cont)
  {
    forall t | t in cont ensures LockerOk(mc, OnOf(on', t), cont[t], t) {
      assert LockerOk(mc, OnOf(on, t), cont[t], t);
    }
    forall t | t in on' && on'[t].MutexQ? ensures t in cont && WaitsFor(mc, cont[t]) == Some(on'[t].mutex) {
      assert OnOf(on', t) == OnOf(on, t);
    }
  }

  lemma ReleaseMutexOk(s: State, m: nat)
    requires Inv(s.k) && MutexOk(s)
    ensures MutexOk(Release(s, m))
  {
    hide LinksOk, MatchOk, HolderOk, LockersOk, WakeAt, SetStatus;
    var q := L(s.k.q, MutexQ(m));
    var s' := Release(s, m);
    MarkEmpty(s.k.q, s.mx, m);
    if q != [] {
      WakeAtOk(s.k, MutexQ(m), 0);
      ReleaseHolder(s.k.q, s'.k.q, s.mx, s'.mx, m, Some(q[0]));
      ReleaseLockers(s.k.q.on, s'.k.q.on, s.mc, s.cont, m, q[0]);
    } else if m in s.mx.mark {
      ReleaseHolder(s.k.q, s'.k.q, s.mx, s'.mx, m, None);
    }
  }

  lemma MarkEmpty(n: Links, mx: Mutexes, m: nat)
    requires HolderOk(n, mx)
    ensures m in mx.mark ==> L(n, MutexQ(m)) == []
  {
  }

  lemma WaiterStatus(k: Sched, m: nat, i: nat)
    requires Inv(k) && i < |L(k.q, MutexQ(m))|
    ensures St(k, L(k.q, MutexQ(m))[i]) == MutexBlocked
  {
    hide SortedOk, BitsOk;
    WaiterLinked(k.q, MutexQ(m), i);
  }

  /** The scheduler's part of `Release`. */
  lemma ReleaseSched(s: State, m: nat)
    requires Inv(s.k)
    ensures var k' := Release(s, m).k;
      && Inv(k') && Grown(s.k, k', 0)
      && Only(s.k, k', MutexKinds, MutexStatuses)
      && (forall t :: t in k'.q.on && k'.q.on[t].MutexQ? ==> t in s.k.q.on && s.k.q.on[t] == k'.q.on[t])
  {
    hide LinksOk, MatchOk, WakeAt;
    if L(s.k.q, MutexQ(m)) != [] {
      WaiterStatus(s.k, m, 0);
      WakeAtOk(s.k, MutexQ(m), 0);
      WakeAtGrows(s.k, MutexQ(m), 0);
    }
  }

  lemma UnlockOk(s: State, m: nat)
    requires SchedOk(s.k) && MutexOk(s) && InContext(s.k)
    ensures var s' := Unlock(s, m);
      SchedOk(s'.k) && MutexOk(s') && Only(s.k, s'.k, MutexKinds, MutexStatuses)
  {
    hide LinksOk, MatchOk, Act, HolderOk, LockersOk, WakeAt;
    ReleaseMutexOk(s, m);
    MarkEmpty(s.k.q, s.mx, m);
    if L(s.k.q, MutexQ(m)) == [] {
      OwesNothing(s.k, MutexKinds, MutexStatuses);
    } else {
      WaiterStatus(s.k, m, 0);
      WakeStep(s.k, MutexQ(m), 0, MutexKinds, MutexStatuses);
      WakeAtOk(s.k, MutexQ(m), 0);
    }
  }

  /** The scheduler after a mutex was released and the caller blocked, in one critical section. */
  function ReleaseAndBlock(k: Sched, a: Tid, m: nat, request: bool, st: Status, wl: Option<ListId>): Sched {
    var k1 := ReleaseWake(k, m);
    Owes(Block(if request then Request(k1) else k1, a, st, wl), YieldHigher)
  }

  lemma ReleaseAndBlockSched(s: State, a: Tid, m: nat, request: bool, st: Status, wl: Option<ListId>)
    requires SchedOk(s.k) && Calling(s, a) && !OnRunqueue(st) && Matches(st, wl, Pr(s.k, a))
    requires st in MutexStatuses && (wl.Some? ==> wl.value.CondQ?)
    ensures var k1, k' := ReleaseWake(s.k, m), ReleaseAndBlock(s.k, a, m, request, st, wl);
      && SchedOk(k') && Only(s.k, k', MutexKinds, MutexStatuses)
      && k'.q.on == (if wl.Some? then k1.q.on[a := wl.value] else k1.q.on - {a})
      && (forall d :: L(k'.q, MutexQ(d)) == L(k1.q, MutexQ(d)))
      && a in k1.q.on && k1.q.on[a].Run?
  {
    hide Inv, Act, ReleaseWake, Block, Only, Matches, Grown, CanBlock, IsHead, InsertPos, SameLists;
    var k1 := ReleaseWake(s.k, m);
    var k2 := if request then Request(k1) else k1;
    ReleaseSched(s, m);
    CallerCanBlock(s.k, a);
    GrownCaller(s.k, k1, k2, a);
    BlockStep(k2, a, st, wl, YieldHigher, MutexKinds, MutexStatuses);
    OnlyRequest(s.k, k1, k2);
    var k' := ReleaseAndBlock(s.k, a, m, request, st, wl);
    OnlyTrans(s.k, k2, k', MutexKinds, MutexStatuses);
    SameMutexLists(k2.q, k'.q, Pr(k2, a), wl);
  }

  lemma SameMutexLists(n: Links, n': Links, p: nat, wl: Option<ListId>)
    requires SameLists(n, n', {Run(p)} + (if wl.Some? then {wl.value} else {})) && (wl.Some? ==> wl.value.CondQ?)
    ensures forall m :: L(n', MutexQ(m)) == L(n, MutexQ(m))
  {
  }

  lemma ReleaseAndBlockOk(s: State, a: Tid, m: nat, request: bool, st: Status, wl: Option<ListId>, c: Cont)
    requires SchedOk(s.k) && MutexOk(s) && Calling(s, a) && !OnRunqueue(st) && Matches(st, wl, Pr(s.k, a))
    requires st in MutexStatuses && (wl.Some? ==> wl.value.CondQ?)
    requires !c.Locking? && !c.CancelCheck?
    ensures var s' := Release(s, m).(k := ReleaseAndBlock(s.k, a, m, request, st, wl), cont := s.cont[a := c]);
      SchedOk(s'.k) && MutexOk(s') && Only(s.k, s'.k, MutexKinds, MutexStatuses)
  {
    hide Inv, Act, HolderOk, LockersOk, ReleaseWake, ReleaseMutex, ReleaseAndBlock, Only, Matches;
    var s1 := Release(s, m);
    var k' := ReleaseAndBlock(s.k, a, m, request, st, wl);
    ReleaseMutexOk(s, m);
    ReleaseAndBlockSched(s, a, m, request, st, wl);
    HolderFrame(s1.k.q, k'.q, s1.mx);
    LockersFrame(s1.k.q.on, k'.q.on, s.mc, s.cont, a, c);
  }

  lemma GrownCaller(k: Sched, k': Sched, k1: Sched, a: Tid)
    requires Grown(k, k', 0) && IsHead(k, a) && (k1 == k' || k1 == Request(k')) && Inv(k')
    ensures Inv(k1) && CanBlock(k1, a) && St(k1, a) == St(k, a) && k1.cpu.active == k.cpu.active && k1.cpu.isr == k.cpu.isr
    ensures Pr(k1, a) == Pr(k, a)
    ensures a in k1.q.on && k1.q.on[a].Run?
  {
    hide LinksOk, MatchOk;
    StatusMatches(k', a);
  }

  lemma OnlyRequest(k: Sched, k': Sched, k1: Sched)
    requires Only(k, k', MutexKinds, MutexStatuses) && (k1 == k' || k1 == Request(k'))
    ensures Only(k, k1, MutexKinds, MutexStatuses)
  {
  }

  lemma UnlockAndSleepOk(s: State, a: Tid, m: nat)
    requires SchedOk(s.k) && MutexOk(s) && Calling(s, a)
    ensures var s' := UnlockAndSleep(s, a, m);
      SchedOk(s'.k) && MutexOk(s') && Only(s.k, s'.k, MutexKinds, MutexStatuses)
  {
    hide Inv, Act, HolderOk, LockersOk, ReleaseWake, ReleaseMutex, ReleaseAndBlock, Only;
    ReleaseAndBlockOk(s, a, m, false, Sleeping, None, User);
  }

  // ---- Condition variables ----

  lemma CondWaitOk(s: State, a: Tid, c: nat, m: nat)
    requires SchedOk(s.k) && MutexOk(s) && Calling(s, a)
    ensures var s' := CondWait(s, a, c, m);
      SchedOk(s'.k) && MutexOk(s') && Only(s.k, s'.k, MutexKinds, MutexStatuses)
  {
    hide Inv, Act, HolderOk, LockersOk, ReleaseWake, ReleaseMutex, ReleaseAndBlock, Only;
    var request := ReleaseOwe(s, m).Switch? && Pr(s.k, a) > ReleaseOwe(s, m).prio;
    ReleaseAndBlockOk(s, a, m, request, CondBlocked, Some(CondQ(c)), Relock(m));
  }

  lemma CondStatus(k: Sched, c: nat, i: nat)
    requires Inv(k) && i < |L(k.q, CondQ(c))|
    ensures St(k, L(k.q, CondQ(c))[i]) == CondBlocked
  {
    hide SortedOk, BitsOk;
    WaiterLinked(k.q, CondQ(c), i);
  }

  lemma GrownTrans(k: Sched, k1: Sched, k2: Sched, m: nat, m1: nat)
    requires Grown(k, k1, m) && Grown(k1, k2, m1) && m <= m1
    ensures Grown(k, k2, m)
  {
  }

  lemma SameGrown(k: Sched, m: nat)
    ensures Grown(k, k, m) && Only(k, k, MutexKinds, MutexStatuses)
  {
  }

  /** What waking one waiter of a condition variable does. */
  ghost predicate CondWoken(k: Sched, k': Sched, c: nat, n: nat)
    requires n <= |L(k.q, CondQ(c))|
  {
    && Inv(k') && k'.prio == k.prio && k'.q.ticket == k.q.ticket
    && L(k'.q, CondQ(c)) == L(k.q, CondQ(c))[n..]
    && Only(k, k', MutexKinds, MutexStatuses)
    && Grown(k, k', if n == 0 then PRIO_LEVELS else Pr(k, L(k.q, CondQ(c))[0]))
    && SameMutexQueues(k.q, k'.q)
  }

  ghost predicate SameMutexQueues(n: Links, n': Links) {
    && (forall m :: L(n', MutexQ(m)) == L(n, MutexQ(m)))
    && (forall t :: t in n.on && n.on[t].MutexQ? ==> t in n'.on && n'.on[t] == n.on[t])
    && (forall t :: t in n'.on && n'.on[t].MutexQ? ==> t in n.on && n'.on[t] == n.on[t])
  }

  lemma CondWakeOne(k: Sched, c: nat)
    requires Inv(k) && L(k.q, CondQ(c)) != []
    ensures CondWoken(k, WakeAt(k, CondQ(c), 0), c, 1)
  {
    hide LinksOk, MatchOk, Grown;
    WakeAtOk(k, CondQ(c), 0);
    WakeAtGrows(k, CondQ(c), 0);
    CondStatus(k, c, 0);
    assert RemoveAt(L(k.q, CondQ(c)), 0) == L(k.q, CondQ(c))[1..];
  }

  lemma FirstIsLeast(k: Sched, c: nat, i: nat)
    requires Inv(k) && i < |L(k.q, CondQ(c))|
    ensures Pr(k, L(k.q, CondQ(c))[0]) <= Pr(k, L(k.q, CondQ(c))[i])
  {
    hide ListsOk, BitsOk, MatchOk;
    assert i > 0 ==> Ahead(k.prio, k.q.ticket, L(k.q, CondQ(c))[0], L(k.q, CondQ(c))[i]);
  }

  /** The first `n` waiters are made runnable, and the first has the smallest priority value. */
  lemma {:induction false} WakeFirstOk(k: Sched, c: nat, n: nat)
    requires Inv(k) && n <= |L(k.q, CondQ(c))|
    ensures CondWoken(k, WakeFirst(k, CondQ(c), n), c, n)
    decreases n
  {
    hide LinksOk, MatchOk, Only, Grown, WakeAt, SameMutexQueues;
    var q := L(k.q, CondQ(c));
    if n == 0 {
      SameGrown(k, PRIO_LEVELS);
      SameQueues(k.q);
    } else {
      var k1 := WakeAt(k, CondQ(c), 0);
      var k2 := WakeFirst(k1, CondQ(c), n - 1);
      CondWakeOne(k, c);
      WakeFirstOk(k1, c, n - 1);
      OnlyTrans(k, k1, k2, MutexKinds, MutexStatuses);
      SameQueuesTrans(k.q, k1.q, k2.q);
      if n == 1 {
        PrioBound(k, q[0]);
      } else {
        FirstIsLeast(k, c, 1);
        assert L(k1.q, CondQ(c))[0] == q[1];
      }
      GrownTrans(k, k1, k2, Pr(k, q[0]), if n == 1 then PRIO_LEVELS else Pr(k1, q[1]));
    }
  }

  lemma PrioBound(k: Sched, t: Tid)
    requires Inv(k)
    ensures Pr(k, t) < PRIO_LEVELS
  {
    hide LinksOk, MatchOk;
  }

  lemma SameQueues(n: Links)
    ensures SameMutexQueues(n, n)
  {
  }

  lemma SameQueuesTrans(n: Links, n1: Links, n2: Links)
    requires SameMutexQueues(n, n1) && SameMutexQueues(n1, n2)
    ensures SameMutexQueues(n, n2)
  {
  }

  lemma {:induction false} MinPrioIs(prio: map<Tid, nat>, q: seq<Tid>, least: nat)
    ensures var r := MinPrio(prio, q, least);
      && r <= least && (r == least || exists i :: 0 <= i < |q| && r == Get(prio, q[i]))
      && (forall i :: 0 <= i < |q| ==> r <= Get(prio, q[i]))
  {
    if q != [] {
      MinPrioIs(prio, q[1..], if Get(prio, q[0]) < least then Get(prio, q[0]) else least);
      assert forall i :: 0 < i < |q| ==> q[i] == q[1..][i - 1];
    }
  }

  /** `min_prio` in `_cond_signal` is the priority of the first thread woken. */
  lemma SignalPrio(k: Sched, c: nat, n: nat)
    requires Inv(k) && n <= |L(k.q, CondQ(c))|
    ensures var q := L(k.q, CondQ(c)); MinPrio(k.prio, q[..n], PRIO_LEVELS) == if n == 0 then PRIO_LEVELS else Pr(k, q[0])
  {
    hide Inv;
    var q := L(k.q, CondQ(c));
    MinPrioIs(k.prio, q[..n], PRIO_LEVELS);
    if n > 0 {
      assert q[..n][0] == q[0];
      PrioBound(k, q[0]);
      forall i | 0 <= i < n ensures Get(k.prio, q[0]) <= Get(k.prio, q[..n][i]) {
        FirstIsLeast(k, c, i);
      }
    }
  }

  lemma SignalSchedOk(k: Sched, c: nat, broadcast: bool)
    requires SchedOk(k) && InContext(k)
    ensures var k' := SignalSched(k, c, broadcast);
      && SchedOk(k') && Only(k, k', MutexKinds, MutexStatuses) && SameMutexQueues(k.q, k'.q)
      && L(k'.q, CondQ(c)) == L(k.q, CondQ(c))[SignalCount(k, c, broadcast)..]
  {
    hide LinksOk, MatchOk, Act, Only, Grown, WakeFirst, MinPrio, SameMutexQueues;
    var n := SignalCount(k, c, broadcast);
    var k1 := WakeFirst(k, CondQ(c), n);
    SignalPrio(k, c, n);
    WakeFirstOk(k, c, n);
    if n == 0 {
      OwesNothing(k, MutexKinds, MutexStatuses);
      WakeNone(k, CondQ(c));
    } else {
      var p := Pr(k, L(k.q, CondQ(c))[0]);
      PrioBound(k, L(k.q, CondQ(c))[0]);
      if k.cpu.active.Some? {
        StillReply(k, k1, MutexKinds, MutexStatuses, k.cpu.active.value);
      }
      GrownOwes(k, k1, p);
      OnlyOwes(k, k1, Switch(p), MutexKinds, MutexStatuses);
    }
  }

  lemma WakeNone(k: Sched, id: ListId)
    ensures WakeFirst(k, id, 0) == k
  {
  }

  /** `cond_signal` and `cond_broadcast` keep every invariant. */
  lemma SignalOk(s: State, c: nat, broadcast: bool)
    requires SchedOk(s.k) && MutexOk(s) && InContext(s.k)
    ensures var s' := Signal(s, c, broadcast);
      SchedOk(s'.k) && MutexOk(s') && Only(s.k, s'.k, MutexKinds, MutexStatuses)
  {
    hide Inv, Act, HolderOk, LockersOk, SignalSched, Only;
    SignalSchedOk(s.k, c, broadcast);
    MutexFrame(s, s.(k := SignalSched(s.k, c, broadcast)));
  }

  lemma MutexFrame(s: State, s': State)
    requires MutexOk(s) && SameMutexQueues(s.k.q, s'.k.q)
    requires s'.mx == s.mx && s'.mc == s.mc && s'.cont == s.cont
    ensures MutexOk(s')
  {
    HolderFrame(s.k.q, s'.k.q, s.mx);
    forall t | t in s.cont ensures LockerOk(s.mc, OnOf(s'.k.q.on, t), s.cont[t], t) {
      assert LockerOk(s.mc, OnOf(s.k.q.on, t), s.cont[t], t);
    }
  }

  // ---- Returning from a lock call ----

  /** The caller's continuation after `_block` and after `cond_wait` woke up. */
  lemma LockReturnOk(s: State, a: Tid)
    requires SchedOk(s.k) && MutexOk(s) && Calling(s, a)
    ensures MutexOk(LockReturn(s, a))
  {
    hide Inv, Act, HolderOk;
    CallerNotQueued(s, a);
    LockersFrame(s.k.q.on, s.k.q.on, s.mc, s.cont, a, User);
  }

  // ---- mutex_cancel ----

  /** A cancellation structure may only be used against the lock call it was made for. */
  predicate CancelAllowed(s: State, x: nat) {
    && x in s.mc
    && (s.mc[x].thread in s.k.q.on && s.k.q.on[s.mc[x].thread] == MutexQ(s.mc[x].mutex) ==>
          Co(s, s.mc[x].thread) == CancelCheck(x))
  }

  lemma CancelSchedOk(s: State, x: nat)
    requires SchedOk(s.k) && InContext(s.k) && x in s.mc && Cancellable(s, x)
    ensures var t, m := s.mc[x].thread, s.mc[x].mutex;
      var k', i := CancelWake(s.k, m, t), IndexOf(L(s.k.q, MutexQ(m)), t);
      && SchedOk(k') && Only(s.k, k', MutexKinds, MutexStatuses)
      && OnOf(s.k.q.on, t) == Some(MutexQ(m))
      && k'.q.on == s.k.q.on[t := Run(Pr(s.k, t))]
      && (forall d :: d != m ==> L(k'.q, MutexQ(d)) == L(s.k.q, MutexQ(d)))
      && L(k'.q, MutexQ(m)) == RemoveAt(L(s.k.q, MutexQ(m)), i)
  {
    hide LinksOk, MatchOk, Act, Only, IndexOf, WakeAt;
    var t, m := s.mc[x].thread, s.mc[x].mutex;
    var i := IndexOf(L(s.k.q, MutexQ(m)), t);
    WaiterStatus(s.k, m, i);
    WakeStep(s.k, MutexQ(m), i, MutexKinds, MutexStatuses);
    WakeAtOk(s.k, MutexQ(m), i);
  }

  /** Cancelling keeps the holder, the order of the other waiters and the locked state. */
  lemma CancelOk(s: State, x: nat)
    requires SchedOk(s.k) && MutexOk(s) && InContext(s.k) && CancelAllowed(s, x)
    ensures var s' := Cancel(s, x);
      && SchedOk(s'.k) && MutexOk(s') && Only(s.k, s'.k, MutexKinds, MutexStatuses)
      && s'.mx.holds == s.mx.holds
      && (forall m :: Unlocked(s'.k.q, s'.mx, m) <==> Unlocked(s.k.q, s.mx, m))
      && var q := L(s.k.q, MutexQ(s.mc[x].mutex));
      L(s'.k.q, MutexQ(s.mc[x].mutex)) == if Cancellable(s, x) then RemoveAt(q, IndexOf(q, s.mc[x].thread)) else q
  {
    hide Inv, Act, HolderOk, LockersOk, CancelWake, Only, IndexOf;
    var t, m := s.mc[x].thread, s.mc[x].mutex;
    var s' := Cancel(s, x);
    MarkEmpty(s.k.q, s.mx, m);
    if Cancellable(s, x) {
      CancelSchedOk(s, x);
      CancelHolder(s.k.q, s'.k.q, s.mx, s'.mx, m);
      CancelLockers(s.k.q.on, s'.k.q.on, s.mc, s.cont, x);
    } else {
      OwesNothing(s.k, MutexKinds, MutexStatuses);
      if OnOf(s.k.q.on, t) == Some(MutexQ(m)) {
        QueuedCancellable(s, x);
      }
      CancelLockers(s.k.q.on, s'.k.q.on, s.mc, s.cont, x);
    }
  }

  lemma QueuedCancellable(s: State, x: nat)
    requires Inv(s.k) && x in s.mc && OnOf(s.k.q.on, s.mc[x].thread) == Some(MutexQ(s.mc[x].mutex))
    ensures Cancellable(s, x)
  {
    hide SortedOk, BitsOk, MatchOk;
    StatusMatches(s.k, s.mc[x].thread);
  }

  lemma CancelHolder(n: Links, n': Links, mx: Mutexes, mx': Mutexes, m: nat)
    requires HolderOk(n, mx) && mx'.holds == mx.holds && L(n, MutexQ(m)) != []
    requires forall d :: d != m ==> L(n', MutexQ(d)) == L(n, MutexQ(d))
    requires |L(n', MutexQ(m))| == |L(n, MutexQ(m))| - 1
    requires mx'.mark == if |L(n, MutexQ(m))| == 1 then mx.mark + {m} else mx.mark
    ensures HolderOk(n', mx')
    ensures forall d :: Unlocked(n', mx', d) <==> Unlocked(n, mx, d)
  {
  }

  /** The cancelled thread is on no mutex queue any more. */
  lemma CancelLockers(on: map<Tid, ListId>, on': map<Tid, ListId>, mc: map<nat, Canceller>, cont: map<Tid, Cont>, x: nat)
    requires LockersOk(on, mc, cont) && x in mc
    requires forall t: Tid :: t != mc[x].thread ==> OnOf(on', t) == OnOf(on, t)
    requires OnOf(on', mc[x].thread) == OnOf(on, mc[x].thread) || (mc[x].thread in on' && on'[mc[x].thread].Run?)
    requires OnOf(on', mc[x].thread) != Some(MutexQ(mc[x].mutex))
    ensures LockersOk(on', mc[x := mc[x].(cancelled := true)], cont)
  {
    var mc' := mc[x := mc[x].(cancelled := true)];
    forall t | t in cont ensures LockerOk(mc', OnOf(on', t), cont[t], t) {
      assert LockerOk(mc, OnOf(on, t), cont[t], t);
    }
    forall t | t in on' && on'[t].MutexQ? ensures t in cont && WaitsFor(mc', cont[t]) == Some(on'[t].mutex) {
      assert OnOf(on', t) == OnOf(on, t);
    }
  }
}
