/** Every step keeps the kernel invariant. */
module KernelSteps {
  import opened Wrappers
  import opened Sched
  import opened Reschedule
  import opened KernelState
  import opened MutexSpec
  import opened FlagSpec
  import opened MsgSpec
  import opened MsgSteps
  import opened MboxSpec
  import opened ThreadSpec
  import opened Frames
  import opened Kernel

  // ---- Bookkeeping ----

  ghost predicate SameTable(s: State, s': State) {
    s'.pids == s.pids && s'.pid == s.pid
  }

  lemma TableKept(s: State, s': State, kinds: set<Kind>, sts: set<Status>, f: Family)
    requires Tabled(s) && SameTable(s, s') && Framed(s.k, s'.k, kinds, sts) && ContFramed(s, s', sts, f)
    requires Stopped !in sts && (forall t :: t in s.ms.ch ==> t in s'.ms.ch)
    ensures Tabled(s')
  {
    hide OnlyLists;
    forall t | t in s'.cont ensures t in s'.ms.ch {
      assert ContOf(s'.cont, t) == ContOf(s.cont, t) || St(s.k, t) in sts;
    }
  }

  lemma ContSame(s: State, s': State, sts: set<Status>, f: Family)
    requires s'.cont == s.cont
    ensures ContFramed(s, s', sts, f)
  {
  }

  lemma ContAt(s: State, s': State, a: Tid, kinds: set<Kind>, sts: set<Status>, f: Family)
    requires Framed(s.k, s'.k, kinds, sts) && St(s.k, a) in sts
    requires a in s'.cont && s'.cont == s.cont[a := s'.cont[a]] && FamilyOf(s'.cont[a]) in {NoFamily, f}
    ensures ContFramed(s, s', sts, f)
  {
    hide OnlyLists;
  }

  lemma WaitSame(s: State, s': State, sts: set<Status>)
    requires s'.wait == s.wait
    ensures WaitFramed(s, s', sts)
  {
  }

  lemma WaitAt(s: State, s': State, kinds: set<Kind>, sts: set<Status>)
    requires Framed(s.k, s'.k, kinds, sts)
    requires forall t :: WaitOf(s'.wait, t) == WaitOf(s.wait, t) || St(s.k, t) in sts
    ensures WaitFramed(s, s', sts)
  {
    hide OnlyLists;
  }

  lemma CallerRuns(s: State, a: Tid)
    requires SchedOk(s.k) && Calling(s, a)
    ensures St(s.k, a) == Running || St(s.k, a) == Pending
    ensures Inv(s.k)
  {
    hide Inv, Act, IsHead, CanBlock;
    CallerCanBlock(s.k, a);
  }

  // ---- What the steps of each subsystem leave alone ----

  /** Threads are not forgotten and keep their pids. */
  ghost predicate TableGrows(s: State, s': State) {
    forall t :: t in s.ms.ch ==> t in s'.ms.ch && Get(s'.pid, t) == Get(s.pid, t)
  }

  ghost predicate MutexOnly(s: State, s': State) {
    && TableGrows(s, s')
    && Framed(s.k, s'.k, MutexKinds, MutexStatuses)
    && s'.fl == s.fl && s'.wait == s.wait && s'.ms == s.ms && s'.mb == s.mb
  }

  ghost predicate FlagOnly(s: State, s': State) {
    && TableGrows(s, s')
    && Framed(s.k, s'.k, FlagKinds, FlagStatuses) && WaitFramed(s, s', FlagStatuses)
    && s'.mx == s.mx && s'.mc == s.mc && s'.ms == s.ms && s'.mb == s.mb
  }

  ghost predicate MsgOnly(s: State, s': State) {
    && TableGrows(s, s')
    && Framed(s.k, s'.k, MsgKinds, MsgStatuses)
    && s'.mx == s.mx && s'.mc == s.mc && s'.mb == s.mb
  }

  ghost predicate MboxOnly(s: State, s': State) {
    && TableGrows(s, s')
    && Framed(s.k, s'.k, MboxKinds, MboxStatuses) && WaitFramed(s, s', MboxStatuses)
    && s'.mx == s.mx && s'.mc == s.mc && s'.ms == s.ms && s'.fl == s.fl
  }

  /** A new thread gets an empty message queue. */
  ghost predicate ThreadOnly(s: State, s': State) {
    && TableGrows(s, s')
    && Framed(s.k, s'.k, ThreadKinds, ThreadStatuses) && WaitFramed(s, s', ThreadStatuses)
    && s'.mx == s.mx && s'.mc == s.mc && s'.mb == s.mb && s'.ms.uid == s.ms.uid
    && (forall r :: ChanOf(s'.ms, r) == ChanOf(s.ms, r))
  }

  // ---- Mutexes and condition variables ----

  lemma MutexKeeps(s: State, s': State)
    requires KernelInv(s) && SchedOk(s'.k) && MutexOk(s')
    requires Framed(s.k, s'.k, MutexKinds, MutexStatuses) && ContFramed(s, s', MutexStatuses, MutexFamily)
    requires s'.fl == s.fl && s'.wait == s.wait && s'.ms == s.ms && s'.mb == s.mb && SameTable(s, s')
    ensures KernelInv(s')
    ensures MutexOnly(s, s')
  {
    hide Inv, Act, MutexOk, FlagInv, MsgInv, MboxInv, Tabled, Framed, ContFramed;
    WaitSame(s, s', MutexStatuses);
    FlagKept(s, s', MutexKinds, MutexStatuses, MutexFamily);
    MsgKeptBy(s, s', MutexKinds, MutexStatuses);
    MboxKeptBy(s, s', MutexKinds, MutexStatuses, MutexFamily);
    TableKept(s, s', MutexKinds, MutexStatuses, MutexFamily);
  }

  /** Only `a`'s continuation changed, if any. */
  predicate ContMove(cont: map<Tid, Cont>, cont': map<Tid, Cont>, a: Tid, f: Family) {
    cont' == cont || (a in cont' && cont' == cont[a := cont'[a]] && FamilyOf(cont'[a]) in {NoFamily, f})
  }

  lemma ContMoved(s: State, s': State, a: Tid, kinds: set<Kind>, sts: set<Status>, f: Family)
    requires Framed(s.k, s'.k, kinds, sts) && St(s.k, a) in sts && ContMove(s.cont, s'.cont, a, f)
    ensures ContFramed(s, s', sts, f)
  {
    hide Framed, ContFramed;
    if s'.cont == s.cont {
      ContSame(s, s', sts, f);
    } else {
      ContAt(s, s', a, kinds, sts, f);
    }
  }

  predicate MutexShape(s: State, s': State, a: Tid) {
    && s'.fl == s.fl && s'.wait == s.wait && s'.ms == s.ms && s'.mb == s.mb && s'.pids == s.pids && s'.pid == s.pid
    && ContMove(s.cont, s'.cont, a, MutexFamily)
  }

  lemma MutexFinish(s: State, s': State, a: Tid)
    requires KernelInv(s) && SchedOk(s'.k) && MutexOk(s') && Only(s.k, s'.k, MutexKinds, MutexStatuses)
    requires MutexShape(s, s', a) && OnRunqueue(St(s.k, a))
    ensures KernelInv(s')
    ensures MutexOnly(s, s')
  {
    hide KernelInv, SchedOk, MutexOk, ContMove, Framed;
    ContMoved(s, s', a, MutexKinds, MutexStatuses, MutexFamily);
    MutexKeeps(s, s');
  }

  lemma TakeShape(s: State, a: Tid, m: nat, r: Ret)
    ensures MutexShape(s, Take(s, a, m).(cont := s.cont[a := User], ret := r), a)
    ensures MutexShape(s, Take(s, a, m).(ret := r), a)
    ensures MutexShape(s, s.(ret := r), a)
  {
  }

  lemma BlockOnShape(s: State, a: Tid, m: nat, c: Cont)
    requires FamilyOf(c) == MutexFamily
    ensures MutexShape(s, BlockOn(s, a, m, c), a)
  {
    hide Block, Owes;
  }

  lemma LockKeeps(s: State, a: Tid, m: nat, block: bool)
    requires KernelInv(s) && Calling(s, a)
    ensures KernelInv(Lock(s, a, m, block))
    ensures MutexOnly(s, Lock(s, a, m, block))
  {
    hide SchedOk, MutexOk, FlagInv, MsgInv, MboxInv, Tabled, Only, MutexShape, BlockOn, Take, Unlocked;
    LockOk(s, a, m, block);
    CallerRuns(s, a);
    TakeShape(s, a, m, Ret.Int(1));
    TakeShape(s, a, m, Ret.Int(0));
    BlockOnShape(s, a, m, Locking(m));
    MutexFinish(s, Lock(s, a, m, block), a);
  }

  lemma LockCancelableKeeps(s: State, a: Tid, x: nat)
    requires KernelInv(s) && Calling(s, a) && Co(s, a) == User && x in s.mc && s.mc[x].thread == a
    ensures KernelInv(LockCancelable(s, a, x))
    ensures MutexOnly(s, LockCancelable(s, a, x))
  {
    hide SchedOk, MutexOk, FlagInv, MsgInv, MboxInv, Tabled, Only, MutexShape, BlockOn, Take, Unlocked;
    LockCancelableOk(s, a, x);
    CallerRuns(s, a);
    TakeShape(s, a, s.mc[x].mutex, Cancelled);
    TakeShape(s, a, s.mc[x].mutex, Ret.Int(0));
    BlockOnShape(s, a, s.mc[x].mutex, CancelCheck(x));
    MutexFinish(s, LockCancelable(s, a, x), a);
  }

  lemma UnlockKeeps(s: State, m: nat)
    requires KernelInv(s) && InContext(s.k)
    ensures KernelInv(Unlock(s, m))
    ensures MutexOnly(s, Unlock(s, m))
  {
    hide SchedOk, MutexOk, FlagInv, MsgInv, MboxInv, Tabled, Framed, ReleaseWake, ReleaseMutex, ReleaseOwe, Owes;
    UnlockOk(s, m);
    ContSame(s, Unlock(s, m), MutexStatuses, MutexFamily);
    MutexKeeps(s, Unlock(s, m));
  }

  lemma UnlockAndSleepKeeps(s: State, a: Tid, m: nat)
    requires KernelInv(s) && Calling(s, a)
    ensures KernelInv(UnlockAndSleep(s, a, m))
    ensures MutexOnly(s, UnlockAndSleep(s, a, m))
  {
    hide SchedOk, MutexOk, FlagInv, MsgInv, MboxInv, Tabled, Framed, ReleaseWake, ReleaseMutex, ReleaseAndBlock;
    var s' := UnlockAndSleep(s, a, m);
    UnlockAndSleepOk(s, a, m);
    CallerRuns(s, a);
    ContAt(s, s', a, MutexKinds, MutexStatuses, MutexFamily);
    MutexKeeps(s, s');
  }

  lemma CondWaitKeeps(s: State, a: Tid, c: nat, m: nat)
    requires KernelInv(s) && Calling(s, a)
    ensures KernelInv(CondWait(s, a, c, m))
    ensures MutexOnly(s, CondWait(s, a, c, m))
  {
    hide SchedOk, MutexOk, FlagInv, MsgInv, MboxInv, Tabled, Framed, ReleaseWake, ReleaseMutex, ReleaseAndBlock, ReleaseOwe;
    var s' := CondWait(s, a, c, m);
    CondWaitOk(s, a, c, m);
    CallerRuns(s, a);
    ContAt(s, s', a, MutexKinds, MutexStatuses, MutexFamily);
    MutexKeeps(s, s');
  }

  lemma SignalKeeps(s: State, c: nat, broadcast: bool)
    requires KernelInv(s) && InContext(s.k)
    ensures KernelInv(Signal(s, c, broadcast))
    ensures MutexOnly(s, Signal(s, c, broadcast))
  {
    hide SchedOk, MutexOk, FlagInv, MsgInv, MboxInv, Tabled, Framed, SignalSched;
    SignalOk(s, c, broadcast);
    ContSame(s, Signal(s, c, broadcast), MutexStatuses, MutexFamily);
    MutexKeeps(s, Signal(s, c, broadcast));
  }

  lemma CancelKeeps(s: State, x: nat)
    requires KernelInv(s) && InContext(s.k) && CancelAllowed(s, x)
    ensures KernelInv(Cancel(s, x))
    ensures MutexOnly(s, Cancel(s, x))
  {
    hide SchedOk, MutexOk, FlagInv, MsgInv, MboxInv, Tabled, Framed, CancelWake, CancelMutex, Cancellable, Owes;
    CancelOk(s, x);
    ContSame(s, Cancel(s, x), MutexStatuses, MutexFamily);
    MutexKeeps(s, Cancel(s, x));
  }

  lemma MutexUnmoved(s: State)
    ensures Framed(s.k, s.k, MutexKinds, MutexStatuses)
  {
  }

  lemma LockReturnKeeps(s: State, a: Tid)
    requires KernelInv(s) && Calling(s, a) && (Co(s, a).Locking? || Co(s, a).CancelCheck?)
    ensures KernelInv(LockReturn(s, a))
    ensures MutexOnly(s, LockReturn(s, a))
  {
    hide SchedOk, MutexOk, FlagInv, MsgInv, MboxInv, Tabled, Framed;
    LockReturnOk(s, a);
    MutexUnmoved(s);
    CallerRuns(s, a);
    ContAt(s, LockReturn(s, a), a, MutexKinds, MutexStatuses, MutexFamily);
    MutexKeeps(s, LockReturn(s, a));
  }

  lemma CancelInitMutex(s: State, x: nat, m: nat, a: Tid)
    requires MutexOk(s) && (x in s.mc ==> Co(s, s.mc[x].thread) != CancelCheck(x))
    ensures MutexOk(CancelInit(s, x, m, a))
  {
    hide HolderOk;
    var mc := s.mc[x := Canceller(m, a, false)];
    forall t | t in s.cont
      ensures LockerOk(mc, OnOf(s.k.q.on, t), s.cont[t], t) && WaitsFor(mc, s.cont[t]) == WaitsFor(s.mc, s.cont[t])
    {
      assert LockerOk(s.mc, OnOf(s.k.q.on, t), s.cont[t], t);
      assert s.cont[t] != CancelCheck(x);
    }
  }

  lemma CancelInitKeeps(s: State, x: nat, m: nat, a: Tid)
    requires KernelInv(s) && (x in s.mc ==> Co(s, s.mc[x].thread) != CancelCheck(x))
    ensures KernelInv(CancelInit(s, x, m, a))
    ensures MutexOnly(s, CancelInit(s, x, m, a))
  {
    hide SchedOk, MutexOk, FlagInv, MsgInv, MboxInv, Tabled, Framed;
    CancelInitMutex(s, x, m, a);
    MutexUnmoved(s);
    ContSame(s, CancelInit(s, x, m, a), MutexStatuses, MutexFamily);
    MutexKeeps(s, CancelInit(s, x, m, a));
  }

  // ---- Thread flags ----

  lemma FlagKeeps(s: State, s': State)
    requires KernelInv(s) && SchedOk(s'.k) && FlagInv(s')
    requires Framed(s.k, s'.k, FlagKinds, FlagStatuses)
    requires WaitFramed(s, s', FlagStatuses) && ContFramed(s, s', FlagStatuses, FlagFamily)
    requires s'.mx == s.mx && s'.mc == s.mc && s'.ms == s.ms && s'.mb == s.mb && SameTable(s, s')
    ensures KernelInv(s')
    ensures FlagOnly(s, s')
  {
    hide Inv, Act, MutexOk, FlagInv, MsgInv, MboxInv, Tabled, Framed, ContFramed, WaitFramed;
    MutexKept(s, s', FlagKinds, FlagStatuses, FlagFamily);
    MsgKeptBy(s, s', FlagKinds, FlagStatuses);
    MboxKeptBy(s, s', FlagKinds, FlagStatuses, FlagFamily);
    TableKept(s, s', FlagKinds, FlagStatuses, FlagFamily);
  }

  lemma FlagsSetKeeps(s: State, t: Tid, mask: bv16)
    requires KernelInv(s) && InContext(s.k)
    ensures KernelInv(FlagsSet(s, t, mask))
    ensures FlagOnly(s, FlagsSet(s, t, mask))
  {
    hide SchedOk, MutexOk, FlagInv, MsgInv, MboxInv, Tabled, Framed, Wakes, With, FlagWake, Owes;
    var s' := FlagsSet(s, t, mask);
    FlagsSetOk(s, t, mask);
    ContSame(s, s', FlagStatuses, FlagFamily);
    WaitSame(s, s', FlagStatuses);
    FlagKeeps(s, s');
  }

  lemma FlagUnmoved(s: State)
    ensures Framed(s.k, s.k, FlagKinds, FlagStatuses)
  {
  }

  lemma FlagsClearKeeps(s: State, a: Tid, mask: bv16)
    requires KernelInv(s) && Calling(s, a)
    ensures KernelInv(FlagsClear(s, a, mask))
    ensures FlagOnly(s, FlagsClear(s, a, mask))
  {
    hide SchedOk, MutexOk, FlagInv, MsgInv, MboxInv, Tabled, Framed, Without, Masked;
    var s' := FlagsClear(s, a, mask);
    CallerRuns(s, a);
    FlagsClearOk(s, a, mask);
    FlagUnmoved(s);
    ContAt(s, s', a, FlagKinds, FlagStatuses, FlagFamily);
    WaitSame(s, s', FlagStatuses);
    FlagKeeps(s, s');
  }

  predicate FlagShape(s: State, s': State, a: Tid) {
    && s'.mx == s.mx && s'.mc == s.mc && s'.ms == s.ms && s'.mb == s.mb && s'.pids == s.pids && s'.pid == s.pid
    && ContMove(s.cont, s'.cont, a, FlagFamily)
    && (s'.wait == s.wait || (a in s'.wait && s'.wait == s.wait[a := s'.wait[a]]))
  }

  lemma FlagFinish(s: State, s': State, a: Tid)
    requires KernelInv(s) && SchedOk(s'.k) && FlagInv(s') && Only(s.k, s'.k, FlagKinds, FlagStatuses)
    requires FlagShape(s, s', a) && OnRunqueue(St(s.k, a))
    ensures KernelInv(s')
    ensures FlagOnly(s, s')
  {
    hide KernelInv, SchedOk, FlagInv, ContMove, Framed;
    ContMoved(s, s', a, FlagKinds, FlagStatuses, FlagFamily);
    WaitAt(s, s', FlagKinds, FlagStatuses);
    FlagKeeps(s, s');
  }

  lemma FlagWaitShape(s: State, a: Tid, mask: bv16, st: Status, c: Cont)
    requires FamilyOf(c) == FlagFamily
    ensures FlagShape(s, FlagWait(s, a, mask, st, c), a)
    ensures FlagShape(s, s.(cont := s.cont[a := c]), a)
  {
    hide Block, Owes;
  }

  lemma WaitAnyKeeps(s: State, a: Tid, mask: bv16, one: bool)
    requires KernelInv(s) && Calling(s, a)
    ensures KernelInv(WaitAny(s, a, mask, one))
    ensures FlagOnly(s, WaitAny(s, a, mask, one))
  {
    hide SchedOk, MutexOk, FlagInv, MsgInv, MboxInv, Tabled, Only, Any, FlagWait, FlagShape;
    WaitAnyOk(s, a, mask, one);
    CallerRuns(s, a);
    FlagWaitShape(s, a, mask, FlagBlockedAny, if one then ReadOne(mask) else ClearAny(mask));
    FlagFinish(s, WaitAny(s, a, mask, one), a);
  }

  lemma WaitAllKeeps(s: State, a: Tid, mask: bv16)
    requires KernelInv(s) && Calling(s, a)
    ensures KernelInv(WaitAll(s, a, mask))
    ensures FlagOnly(s, WaitAll(s, a, mask))
  {
    hide SchedOk, MutexOk, FlagInv, MsgInv, MboxInv, Tabled, Only, All, FlagWait, FlagShape;
    WaitAllOk(s, a, mask);
    CallerRuns(s, a);
    FlagWaitShape(s, a, mask, FlagBlockedAll, ClearAll(mask));
    FlagFinish(s, WaitAll(s, a, mask), a);
  }

  lemma ClearShape(s: State, a: Tid, mask: bv16)
    ensures FlagShape(s, FlagsClear(s, a, mask), a) && FlagShape(s, s, a)
  {
    hide Without, Masked;
  }

  lemma FlagReturnShape(s: State, a: Tid)
    ensures FlagShape(s, FlagReturn(s, a), a)
  {
    hide FlagsClear, Masked, LowestFlag, FlagShape, FlagWait;
    match Co(s, a)
    case ClearAny(mask) => ClearShape(s, a, mask);
    case ReadOne(mask) =>
      FlagWaitShape(s, a, mask, FlagBlockedAny, ClearOne(mask, LowestFlag(Masked(FlagsOf(s.fl, a), mask))));
    case ClearOne(mask, bit) => ClearShape(s, a, bit);
    case ClearAll(mask) => ClearShape(s, a, mask);
    case _ => ClearShape(s, a, 0);
  }

  lemma FlagReturnSame(s: State, a: Tid)
    ensures FlagReturn(s, a).k == s.k
  {
    hide FlagsClear, Masked, LowestFlag;
    match Co(s, a)
    case ClearAny(mask) => ClearSame(s, a, mask);
    case ClearOne(mask, bit) => ClearSame(s, a, bit);
    case ClearAll(mask) => ClearSame(s, a, mask);
    case _ =>
  }

  lemma ClearSame(s: State, a: Tid, mask: bv16)
    ensures FlagsClear(s, a, mask).k == s.k
  {
    hide Without, Masked;
  }

  lemma FlagReturnKeeps(s: State, a: Tid)
    requires KernelInv(s) && Calling(s, a)
    ensures KernelInv(FlagReturn(s, a))
    ensures FlagOnly(s, FlagReturn(s, a))
  {
    hide SchedOk, MutexOk, FlagInv, MsgInv, MboxInv, Tabled, Framed, FlagReturn, FlagShape;
    FlagReturnOk(s, a);
    FlagReturnSame(s, a);
    FlagReturnShape(s, a);
    CallerRuns(s, a);
    FlagUnmoved(s);
    FlagFinish(s, FlagReturn(s, a), a);
  }

  // ---- Messages ----

  lemma MsgKeeps(s: State, s': State)
    requires KernelInv(s) && Kept(s, s') && WaitFramed(s, s', MsgStatuses) && s'.cont == s.cont
    requires s'.mx == s.mx && s'.mc == s.mc && s'.mb == s.mb && SameTable(s, s')
    requires forall t :: t in s.ms.ch ==> t in s'.ms.ch
    ensures KernelInv(s')
    ensures MsgOnly(s, s')
  {
    hide Inv, Act, MutexOk, FlagInv, MsgInv, MboxInv, Tabled, Framed, ContFramed, WaitFramed;
    ContSame(s, s', MsgStatuses, NoFamily);
    MutexKept(s, s', MsgKinds, MsgStatuses, NoFamily);
    MboxKeptBy(s, s', MsgKinds, MsgStatuses, NoFamily);
    TableKept(s, s', MsgKinds, MsgStatuses, NoFamily);
  }

  /** The buffers that a message operation may write: those of the caller and of `u`. */
  predicate MsgShape(s: State, s': State, a: Tid, u: Tid) {
    && s'.mx == s.mx && s'.mc == s.mc && s'.mb == s.mb && s'.pids == s.pids && s'.pid == s.pid && s'.cont == s.cont
    && s.ms.ch.Keys <= s'.ms.ch.Keys
    && s'.wait - {a, u} == s.wait - {a, u}
  }

  lemma WaitOutside(wait: map<Tid, Wait>, wait': map<Tid, Wait>, a: Tid, u: Tid, t: Tid)
    requires wait' - {a, u} == wait - {a, u} && t != a && t != u
    ensures WaitOf(wait', t) == WaitOf(wait, t)
  {
    assert t in wait' - {a, u} <==> t in wait';
    assert t in wait - {a, u} <==> t in wait;
  }

  lemma MsgFinish(s: State, s': State, a: Tid, u: Tid)
    requires KernelInv(s) && Kept(s, s') && MsgShape(s, s', a, u)
    requires (St(s.k, a) in MsgStatuses || s'.wait == s.wait) && (St(s.k, u) in MsgStatuses || s'.wait == s.wait)
    ensures KernelInv(s')
    ensures MsgOnly(s, s')
  {
    hide KernelInv, SchedOk, FlagInv, MsgInv, Framed;
    forall t ensures WaitOf(s'.wait, t) == WaitOf(s.wait, t) || St(s.k, t) in MsgStatuses {
      if t != a && t != u {
        WaitOutside(s.wait, s'.wait, a, u, t);
      }
    }
    WaitAt(s, s', MsgKinds, MsgStatuses);
    MsgKeeps(s, s');
  }

  lemma DirectShape(s: State, a: Tid, r: Tid, m: Msg)
    ensures MsgShape(s, SendDirect(s, r, m), a, r)
  {
    hide SetStatus, Owes;
    var s' := SendDirect(s, r, m);
    assert s'.wait - {a, r} == s.wait - {a, r};
  }

  lemma QueueShape(s: State, a: Tid, r: Tid, u: Tid, m: Msg, o: Owe)
    ensures MsgShape(s, SendQueue(s, r, m, o), a, u)
    ensures SendQueue(s, r, m, o).wait == s.wait
  {
    hide NotifyWake, Notified, Owes;
  }

  lemma BlockShape(s: State, a: Tid, r: Tid, m: Msg)
    ensures MsgShape(s, SendBlock(s, a, r, m), a, a)
  {
    hide NotifyWake, Notified, Owes, Block;
    var s' := SendBlock(s, a, r, m);
    assert s'.wait - {a, a} == s.wait - {a, a};
  }

  lemma SameShape(s: State, a: Tid, u: Tid, r: Ret)
    ensures MsgShape(s, s.(ret := r), a, u)
  {
  }

  /** The thread beside the caller whose buffer a send may write. */
  function SendPeer(s: State, a: Tid, r: Tid): Tid {
    if St(s.k, r).ReceiveBlocked? then r else a
  }

  lemma CoreShape(s: State, a: Tid, r: Tid, m: Msg, block: bool)
    ensures MsgShape(s, SendCore(s, a, r, m, block), a, SendPeer(s, a, r))
  {
    hide MsgShape, SendDirect, SendQueue, SendBlock, Room;
    DirectShape(s, a, r, m);
    QueueShape(s, a, r, a, m, IfRequested);
    BlockShape(s, a, r, m);
    SameShape(s, a, a, Ret.Int(0));
  }

  lemma SendKeeps(s: State, a: Tid, pid: nat, body: int, block: bool)
    requires KernelInv(s) && Calling(s, a)
    ensures KernelInv(Send(s, a, pid, body, block))
    ensures MsgOnly(s, Send(s, a, pid, body, block))
  {
    hide SchedOk, MutexOk, FlagInv, MsgInv, MboxInv, Tabled, Kept, MsgShape, SendQueue, SendCore, Room;
    CallerRuns(s, a);
    SendOk(s, a, pid, body, block);
    var s' := Send(s, a, pid, body, block);
    if PidOf(s, a) == pid {
      QueueShape(s, a, a, a, NewMsg(s, a, a, body), Nothing);
      SameShape(s, a, a, Ret.Int(0));
      MsgFinish(s, s', a, a);
    } else if pid !in s.pids {
      SameShape(s, a, a, Ret.Int(-1));
      MsgFinish(s, s', a, a);
    } else {
      var r := s.pids[pid];
      CoreShape(s, a, r, NewMsg(s, a, r, body), block);
      MsgFinish(s, s', a, SendPeer(s, a, r));
    }
  }

  lemma SendIsrKeeps(s: State, pid: nat, body: int)
    requires KernelInv(s) && s.k.cpu.isr
    ensures KernelInv(SendIsr(s, pid, body))
    ensures MsgOnly(s, SendIsr(s, pid, body))
  {
    hide SchedOk, MutexOk, FlagInv, MsgInv, MboxInv, Tabled, Kept, MsgShape, SendQueue, SendDirect, Room;
    SendIsrOk(s, pid, body);
    var s' := SendIsr(s, pid, body);
    if pid !in s.pids {
      SameShape(s, 0, 0, Ret.Int(-1));
      MsgFinish(s, s', 0, 0);
    } else {
      var r := s.pids[pid];
      var m := Msg(PID_ISR, Isr, r, s.ms.uid, body);
      DirectShape(s, r, r, m);
      QueueShape(s, r, r, r, m, Nothing);
      SameShape(s, r, r, Ret.Int(0));
      MsgFinish(s, s', r, r);
    }
  }

  lemma AwaitShape(s: State, a: Tid, m: Msg, s': State, u: Tid)
    requires MsgShape(AwaitReply(s, a, m), s', a, u)
    ensures MsgShape(s, s', a, u)
  {
    hide SetStatus;
    assert s.wait[a := Buffer(m)] - {a, u} == s.wait - {a, u};
  }

  lemma SendReceiveKeeps(s: State, a: Tid, pid: nat, body: int)
    requires KernelInv(s) && Calling(s, a) && pid in s.pids && pid != PidOf(s, a)
    ensures KernelInv(SendReceive(s, a, pid, body))
    ensures MsgOnly(s, SendReceive(s, a, pid, body))
  {
    hide SchedOk, MutexOk, FlagInv, MsgInv, MboxInv, Tabled, Kept, MsgShape, SetStatus, SendCore;
    CallerRuns(s, a);
    SendReceiveOk(s, a, pid, body);
    var r := s.pids[pid];
    var m := NewMsg(s, a, r, body);
    var s1 := AwaitReply(s, a, m);
    CoreShape(s1, a, r, m, true);
    AwaitShape(s, a, m, SendReceive(s, a, pid, body), SendPeer(s1, a, r));
    AwaitingSame(s.k, a, r);
    MsgFinish(s, SendReceive(s, a, pid, body), a, SendPeer(s1, a, r));
  }

  lemma AwaitingSame(k: Sched, a: Tid, r: Tid)
    ensures St(SetStatus(k, a, ReplyBlocked), r).ReceiveBlocked? ==> St(k, r).ReceiveBlocked?
  {
  }

  lemma ReplyShape(s: State, t: Tid, reply: Msg)
    ensures MsgShape(s, Reply(s, t, reply), t, t)
    ensures !St(s.k, t).ReplyBlocked? ==> Reply(s, t, reply).wait == s.wait
  {
    hide SetStatus, Owes;
    if St(s.k, t).ReplyBlocked? {
      assert s.wait[t := Buffer(reply)] - {t, t} == s.wait - {t, t};
    }
  }

  lemma ReplyKeeps(s: State, pid: nat, reply: Msg)
    requires KernelInv(s) && InContext(s.k) && ReplyAllowed(s, pid)
    ensures KernelInv(Reply(s, s.pids[pid], reply))
    ensures MsgOnly(s, Reply(s, s.pids[pid], reply))
  {
    hide SchedOk, MutexOk, FlagInv, MsgInv, MboxInv, Tabled, Kept, MsgShape, Reply;
    var t := s.pids[pid];
    ReplyOk(s, t, reply);
    ReplyShape(s, t, reply);
    MsgFinish(s, Reply(s, t, reply), t, t);
  }

  lemma SenderOutside(s: State, a: Tid, w: Tid, b: Wait)
    ensures SenderWait(s, w) - {a, w} == s.wait - {a, w}
    ensures SenderWait(s, w)[a := b] - {a, w} == s.wait - {a, w}
    ensures s.wait[a := b] - {a, w} == s.wait - {a, w}
  {
  }

  lemma TakeQueuedShape(s: State, a: Tid)
    requires ChanOf(s.ms, a).queue != []
    ensures MsgShape(s, TakeQueued(s, a), a, a)
  {
  }

  lemma TakeFromSenderShape(s: State, a: Tid)
    requires L(s.k.q, SendQ(a)) != []
    ensures MsgShape(s, TakeFromSender(s, a), a, L(s.k.q, SendQ(a))[0])
  {
    hide ReleaseSender, Owes, SenderOwe, SenderMsg, SenderWait;
    var w := L(s.k.q, SendQ(a))[0];
    SenderOutside(s, a, w, Buffer(SenderMsg(s, w)));
  }

  lemma TakeAndRefillShape(s: State, a: Tid)
    requires L(s.k.q, SendQ(a)) != [] && ChanOf(s.ms, a).queue != []
    ensures MsgShape(s, TakeAndRefill(s, a), a, L(s.k.q, SendQ(a))[0])
  {
    hide ReleaseSender, Owes, SenderOwe, SenderMsg, SenderWait;
    SenderOutside(s, a, L(s.k.q, SendQ(a))[0], Null);
  }

  lemma AwaitMsgShape(s: State, a: Tid)
    ensures MsgShape(s, AwaitMsg(s, a), a, a)
  {
    hide Block, Owes;
    SenderOutside(s, a, a, Buffer(BLANK));
  }

  lemma FirstSender(k: Sched, a: Tid)
    requires Inv(k) && L(k.q, SendQ(a)) != []
    ensures St(k, L(k.q, SendQ(a))[0]) in MsgStatuses
  {
    hide LinksOk, MatchOk;
    DropOk(k, SendQ(a), 0);
    OnSendQ(k, L(k.q, SendQ(a))[0]);
  }

  lemma ReceiveKeeps(s: State, a: Tid, block: bool)
    requires KernelInv(s) && Calling(s, a)
    ensures KernelInv(Receive(s, a, block))
    ensures MsgOnly(s, Receive(s, a, block))
  {
    hide SchedOk, MutexOk, FlagInv, MsgInv, MboxInv, Tabled, Kept, MsgShape, TakeQueued, TakeFromSender, TakeAndRefill, AwaitMsg;
    var s' := Receive(s, a, block);
    CallerRuns(s, a);
    ReceiveOk(s, a, block);
    if L(s.k.q, SendQ(a)) != [] {
      FirstSender(s.k, a);
      TakeFromSenderShape(s, a);
      if ChanOf(s.ms, a).queue != [] {
        TakeAndRefillShape(s, a);
      }
      MsgFinish(s, s', a, L(s.k.q, SendQ(a))[0]);
    } else {
      if ChanOf(s.ms, a).queue != [] {
        TakeQueuedShape(s, a);
      }
      AwaitMsgShape(s, a);
      SameShape(s, a, a, Ret.Int(-1));
      MsgFinish(s, s', a, a);
    }
  }

  lemma InitQueueShape(s: State, a: Tid, n: nat)
    ensures MsgShape(s, InitQueue(s, a, n), a, a)
    ensures InitQueue(s, a, n).k == s.k && InitQueue(s, a, n).fl == s.fl && InitQueue(s, a, n).wait == s.wait
  {
  }

  lemma KnownCaller(s: State, a: Tid)
    requires Tabled(s) && OnRunqueue(St(s.k, a))
    ensures a in s.ms.ch
  {
  }

  lemma InitQueueKeeps(s: State, a: Tid, n: nat)
    requires KernelInv(s) && Calling(s, a)
    requires ChanOf(s.ms, a).queue == [] && (L(s.k.q, SendQ(a)) != [] ==> n == 0)
    ensures KernelInv(InitQueue(s, a, n))
    ensures MsgOnly(s, InitQueue(s, a, n))
  {
    hide SchedOk, MutexOk, FlagsOk, MsgOk, MboxInv, Tabled, Only, MsgShape, InitQueue;
    CallerRuns(s, a);
    KnownCaller(s, a);
    InitQueueExact(s, a, n);
    InitQueueShape(s, a, n);
    OnlySame(s.k);
    MsgFinish(s, InitQueue(s, a, n), a, a);
  }

  // ---- Mailboxes ----

  lemma MboxKeeps(s: State, s': State)
    requires KernelInv(s) && MboxKept(s, s')
    requires forall t :: WaitOf(s'.wait, t) == WaitOf(s.wait, t) || St(s.k, t) in MboxStatuses
    requires ContFramed(s, s', MboxStatuses, MboxFamily)
    requires s'.mx == s.mx && s'.mc == s.mc && s'.ms == s.ms && s'.fl == s.fl && SameTable(s, s')
    ensures KernelInv(s')
    ensures MboxOnly(s, s')
  {
    hide Inv, Act, MutexOk, FlagInv, MsgInv, MboxInv, Tabled, Framed, ContFramed;
    WaitAt(s, s', MboxKinds, MboxStatuses);
    MutexKept(s, s', MboxKinds, MboxStatuses, MboxFamily);
    FlagKept(s, s', MboxKinds, MboxStatuses, MboxFamily);
    MsgKeptBy(s, s', MboxKinds, MboxStatuses);
    TableKept(s, s', MboxKinds, MboxStatuses, MboxFamily);
  }

  predicate MboxShape(s: State, s': State, a: Tid, u: Tid) {
    && s'.mx == s.mx && s'.mc == s.mc && s'.ms == s.ms && s'.fl == s.fl && s'.pids == s.pids && s'.pid == s.pid
    && ContMove(s.cont, s'.cont, a, MboxFamily)
    && s'.wait - {u} == s.wait - {u}
  }

  lemma MboxFinish(s: State, s': State, a: Tid, u: Tid)
    requires KernelInv(s) && MboxKept(s, s') && MboxShape(s, s', a, u)
    requires (St(s.k, a) in MboxStatuses || s'.cont == s.cont) && (St(s.k, u) in MboxStatuses || s'.wait == s.wait)
    ensures KernelInv(s')
    ensures MboxOnly(s, s')
  {
    hide KernelInv, SchedOk, MboxInv, Framed, ContMove, ContFramed;
    forall t ensures WaitOf(s'.wait, t) == WaitOf(s.wait, t) || St(s.k, t) in MboxStatuses {
      if t != u {
        assert s'.wait - {u, u} == s'.wait - {u} && s.wait - {u, u} == s.wait - {u};
        WaitOutside(s.wait, s'.wait, u, u, t);
      }
    }
    if s'.cont == s.cont {
      ContSame(s, s', MboxStatuses, MboxFamily);
    } else {
      ContMoved(s, s', a, MboxKinds, MboxStatuses, MboxFamily);
    }
    MboxKeeps(s, s');
  }

  lemma PutDirectShape(s: State, a: Tid, b: nat, m: Msg)
    requires L(s.k.q, Readers(b)) != []
    ensures MboxShape(s, PutDirect(s, b, m), a, L(s.k.q, Readers(b))[0])
    ensures PutDirect(s, b, m).cont == s.cont
  {
    hide WakeAt, Owes;
    var u := L(s.k.q, Readers(b))[0];
    assert PutDirect(s, b, m).wait - {u} == s.wait - {u};
  }

  lemma PutShapes(s: State, a: Tid, b: nat, m: Msg, mb: map<nat, Mbox>, r: Ret)
    ensures MboxShape(s, PutWait(s, a, b, m), a, a) && PutWait(s, a, b, m).wait == s.wait
    ensures MboxShape(s, s.(mb := mb, ret := r), a, a)
    ensures MboxShape(s, s.(mb := mb, cont := s.cont[a := User], ret := r), a, a)
    ensures MboxShape(s, s.(ret := r), a, a)
  {
    hide Block, Owes;
  }

  /** The running thread, or any thread when there is none. */
  function Caller(k: Sched): Tid {
    if k.cpu.active.Some? then k.cpu.active.value else 0
  }

  lemma CallerOf(s: State)
    requires SchedOk(s.k) && Ready(s.k)
    ensures OnRunqueue(St(s.k, Caller(s.k)))
  {
    hide SchedOk;
    CallerRuns(s, s.k.cpu.active.value);
  }

  lemma PutKeeps(s: State, b: nat, m: Msg, block: bool)
    requires KernelInv(s) && InContext(s.k) && b in s.mb && (block ==> Ready(s.k))
    ensures KernelInv(Put(s, b, m, block))
    ensures MboxOnly(s, Put(s, b, m, block))
  {
    hide Inv, Act, MutexOk, FlagInv, MsgInv, MboxInv, Tabled, Only, PutDirect, PutWait, Enqueued, Stamped, Full, MboxShape;
    var a, s' := Caller(s.k), Put(s, b, m, block);
    PutOk(s, b, m, block);
    if L(s.k.q, Readers(b)) != [] {
      PutDirectShape(s, a, b, m);
      MboxWaiter(s.k, Readers(b));
      MboxFinish(s, s', a, L(s.k.q, Readers(b))[0]);
    } else {
      PutShapes(s, a, b, m, Enqueued(s.mb, b, Stamped(s, m), false), Ret.Int(1));
      PutShapes(s, a, b, m, s.mb, Ret.Int(0));
      if block {
        CallerOf(s);
      }
      MboxFinish(s, s', a, a);
    }
  }

  lemma PutReturnKeeps(s: State, a: Tid)
    requires KernelInv(s) && Calling(s, a) && Co(s, a).PutRetry?
    ensures KernelInv(PutReturn(s, a))
    ensures MboxOnly(s, PutReturn(s, a))
  {
    hide SchedOk, MutexOk, FlagInv, MsgInv, MboxInv, Tabled, MboxKept, PutWait, Enqueued, Stamped, Full, MboxShape;
    var b, m := Co(s, a).mbox, Co(s, a).m;
    CallerRuns(s, a);
    PutReturnOk(s, a);
    PutShapes(s, a, b, m, Enqueued(s.mb, b, Stamped(s, m), L(s.k.q, Readers(b)) != []), Ret.Int(1));
    MboxFinish(s, PutReturn(s, a), a, a);
  }

  lemma FetchShapes(s: State, a: Tid, b: nat, k: Sched, mb: map<nat, Mbox>, r: Ret)
    ensures MboxShape(s, GetWait(s, a, b), a, a) && GetWait(s, a, b).cont == s.cont
    ensures MboxShape(s, s.(k := k, mb := mb, ret := r), a, a)
    ensures MboxShape(s, s.(ret := r), a, a)
  {
    hide Block, Owes;
    assert GetWait(s, a, b).wait - {a} == s.wait - {a};
  }

  lemma FetchKeeps(s: State, b: nat, block: bool)
    requires KernelInv(s) && InContext(s.k) && b in s.mb && (block ==> Ready(s.k))
    ensures KernelInv(Fetch(s, b, block))
    ensures MboxOnly(s, Fetch(s, b, block))
  {
    hide Inv, Act, MutexOk, FlagInv, MsgInv, MboxInv, Tabled, Only, WriterWake, GetWait, Dequeued, MboxShape;
    var a, s' := Caller(s.k), Fetch(s, b, block);
    FetchOk(s, b, block);
    if BoxOf(s.mb, b).queue != [] {
      FetchShapes(s, a, b, WriterWake(s.k, b), Dequeued(s.mb, b), Ret.Int(1));
    }
    FetchShapes(s, a, b, s.k, s.mb, Ret.Int(0));
    if block {
      CallerOf(s);
    }
    MboxFinish(s, s', a, a);
  }

  lemma InitBoxKeeps(s: State, b: nat, cap: nat)
    requires KernelInv(s) && b !in s.mb
    ensures KernelInv(InitBox(s, b, cap))
    ensures MboxOnly(s, InitBox(s, b, cap))
  {
    hide SchedOk, MutexOk, FlagInv, MsgInv, Tabled, Framed;
    SameMbox(s.k);
    ContSame(s, InitBox(s, b, cap), MboxStatuses, MboxFamily);
    MboxKeeps(s, InitBox(s, b, cap));
  }

  // ---- Threads ----

  lemma ThreadKeeps(s: State, s': State)
    requires KernelInv(s) && SchedOk(s'.k) && Framed(s.k, s'.k, ThreadKinds, ThreadStatuses)
    requires s'.mx == s.mx && s'.mc == s.mc && s'.ms == s.ms && s'.mb == s.mb && s'.fl == s.fl
    requires s'.wait == s.wait && s'.cont == s.cont && s'.pid == s.pid && Tabled(s')
    ensures KernelInv(s')
    ensures ThreadOnly(s, s')
  {
    hide Inv, Act, MutexOk, FlagInv, MsgInv, MboxInv, Tabled, Framed, ContFramed, WaitFramed;
    WaitSame(s, s', ThreadStatuses);
    ContSame(s, s', ThreadStatuses, NoFamily);
    MutexKept(s, s', ThreadKinds, ThreadStatuses, NoFamily);
    FlagKept(s, s', ThreadKinds, ThreadStatuses, NoFamily);
    MsgKeptBy(s, s', ThreadKinds, ThreadStatuses);
    MboxKeptBy(s, s', ThreadKinds, ThreadStatuses, NoFamily);
  }

  lemma KnownAt(k: Sched, k': Sched, ch: map<Tid, Chan>, pids: map<nat, Tid>, pid: map<Tid, nat>, t: Tid)
    requires Known(k, ch, pids, pid) && t in ch && InTable(pids, pid, t)
    requires forall u :: u != t ==> St(k', u) == St(k, u) || !St(k, u).Stopped?
    ensures Known(k', ch, pids, pid)
  {
  }

  lemma SleepKeeps(s: State, a: Tid, st: Status)
    requires KernelInv(s) && Calling(s, a) && (st.Sleeping? || st.Zombie?)
    ensures KernelInv(Sleep(s, a, st))
    ensures ThreadOnly(s, Sleep(s, a, st))
  {
    hide SchedOk, MutexOk, FlagInv, MsgInv, MboxInv, Framed, Block, Owes, Known;
    CallerRuns(s, a);
    SleepOk(s, a, st);
    assert Known(Sleep(s, a, st).k, s.ms.ch, s.pids, s.pid) by {
      CallerKnown(s, a);
      SleepStatus(s.k, a, st);
      KnownAt(s.k, Sleep(s, a, st).k, s.ms.ch, s.pids, s.pid, a);
    }
    ThreadKeeps(s, Sleep(s, a, st));
  }

  lemma CallerKnown(s: State, a: Tid)
    requires Known(s.k, s.ms.ch, s.pids, s.pid) && OnRunqueue(St(s.k, a))
    ensures a in s.ms.ch && InTable(s.pids, s.pid, a)
  {
  }

  lemma SleepStatus(k: Sched, a: Tid, st: Status)
    ensures forall u :: u != a ==> St(Owes(Block(k, a, st, None), YieldHigher), u) == St(k, u)
  {
    hide RunqueuePush, RunqueuePop;
  }

  lemma SetStatusOthers(k: Sched, t: Tid, st: Status, o: Owe)
    ensures forall u :: u != t ==> St(SetStatus(k, t, st), u) == St(k, u) && St(Owes(SetStatus(k, t, st), o), u) == St(k, u)
    ensures St(SetStatus(k, t, st), t) == st
  {
    hide RunqueuePush, RunqueuePop;
  }

  /** The return value is not part of the invariant. */
  lemma RetKeeps(s: State, r: Ret)
    requires KernelInv(s)
    ensures KernelInv(s.(ret := r))
    ensures ThreadOnly(s, s.(ret := r)) && ThreadOnly(s, s)
  {
    hide SchedOk, HolderOk, LockersOk, FlagsOk, MsgOk, BoxesOk, WaitersOk, RetriesOk, TableOk, Known;
  }

  lemma WakeupKeeps(s: State, pid: nat)
    requires KernelInv(s) && InContext(s.k)
    ensures KernelInv(Wakeup(s, pid))
    ensures ThreadOnly(s, Wakeup(s, pid))
  {
    hide SchedOk, MutexOk, FlagInv, MsgInv, MboxInv, Framed, SetStatus, Owes, Known, TableOk;
    if pid in s.pids && St(s.k, s.pids[pid]).Sleeping? {
      var t := s.pids[pid];
      var s' := s.(k := Owes(SetStatus(s.k, t, Running), Switch(Pr(s.k, t))), ret := Ret.Int(1));
      assert Wakeup(s, pid) == s';
      WakeupOk(s, pid);
      AwakeKnown(s, t);
      SetStatusOthers(s.k, t, Running, Switch(Pr(s.k, t)));
      KnownAt(s.k, s'.k, s.ms.ch, s.pids, s.pid, t);
      ThreadKeeps(s, s');
    } else {
      RetKeeps(s, Ret.Int(NOT_FOUND));
    }
  }

  lemma AwakeKnown(s: State, t: Tid)
    requires Known(s.k, s.ms.ch, s.pids, s.pid) && !St(s.k, t).Stopped?
    ensures t in s.ms.ch && InTable(s.pids, s.pid, t)
  {
  }

  lemma Unregistered(ch: map<Tid, Chan>, pids: map<nat, Tid>, pid: map<Tid, nat>, p: nat)
    requires TableOk(ch, pids, pid)
    ensures TableOk(ch, pids - {p}, pid)
  {
  }

  lemma KillZombieKeeps(s: State, pid: nat)
    requires KernelInv(s) && InContext(s.k)
    ensures KernelInv(KillZombie(s, pid))
    ensures ThreadOnly(s, KillZombie(s, pid))
  {
    hide SchedOk, MutexOk, FlagInv, MsgInv, MboxInv, Framed, SetStatus, Known, TableOk;
    if pid in s.pids && St(s.k, s.pids[pid]).Zombie? {
      var t := s.pids[pid];
      var s' := s.(k := SetStatus(s.k, t, Stopped), pids := s.pids - {pid}, ret := Ret.Int(1));
      assert KillZombie(s, pid) == s';
      KillZombieOk(s, pid);
      Unregistered(s.ms.ch, s.pids, s.pid, pid);
      SetStatusOthers(s.k, t, Stopped, Nothing);
      KnownFramed(s.k, s'.k, s.ms.ch, s.pids, s.pid, t, pid);
      ThreadKeeps(s, s');
    } else {
      RetKeeps(s, Ret.Int(NOT_FOUND));
    }
  }

  /** A thread that stops is taken out of the table. */
  lemma KnownFramed(k: Sched, k': Sched, ch: map<Tid, Chan>, pids: map<nat, Tid>, pid: map<Tid, nat>, a: Tid, p: nat)
    requires Known(k, ch, pids, pid) && (p in pids ==> pids[p] == a)
    requires St(k', a).Stopped? && forall t :: t != a && St(k, t).Stopped? ==> St(k', t).Stopped?
    ensures Known(k', ch, pids - {p}, pid)
  {
  }

  lemma ExitStatus(s: State, a: Tid)
    requires SchedOk(s.k) && Calling(s, a)
    ensures forall t :: t != a && St(s.k, t).Stopped? ==> St(Exit(s, a).k, t).Stopped?
  {
    hide LinksOk, MatchOk, Act, SetStatus, CanBlock, IsHead, SchedRun;
    CallerCanBlock(s.k, a);
    var k1 := SetStatus(s.k, a, Stopped);
    BlockOk(s.k, a, Stopped, None);
    assert Block(s.k, a, Stopped, None) == k1;
    SetStatusOthers(s.k, a, Stopped, Nothing);
    RunOk(k1.(cpu := k1.cpu.(active := None)));
  }

  lemma ExitKeeps(s: State, a: Tid)
    requires KernelInv(s) && Calling(s, a)
    ensures KernelInv(Exit(s, a))
    ensures ThreadOnly(s, Exit(s, a))
  {
    hide SchedOk, MutexOk, FlagInv, MsgInv, MboxInv, Framed, SetStatus, SchedRun, Known, TableOk;
    CallerRuns(s, a);
    ExitOk(s, a);
    ExitStatus(s, a);
    CallerKnown(s, a);
    Unregistered(s.ms.ch, s.pids, s.pid, Get(s.pid, a));
    KnownFramed(s.k, Exit(s, a).k, s.ms.ch, s.pids, s.pid, a, Get(s.pid, a));
    ThreadKeeps(s, Exit(s, a));
  }

  lemma SameStatusKnown(k: Sched, k': Sched, ch: map<Tid, Chan>, pids: map<nat, Tid>, pid: map<Tid, nat>)
    requires Known(k, ch, pids, pid) && k'.status == k.status
    ensures Known(k', ch, pids, pid)
  {
  }

  lemma PriorityKeeps(s: State, t: Tid, p: nat)
    requires KernelInv(s) && Ready(s.k) && t in s.k.status && p < PRIO_LEVELS && Movable(s.k, t)
    ensures KernelInv(ChangePriority(s, t, p))
    ensures ThreadOnly(s, ChangePriority(s, t, p))
  {
    hide SchedOk, MutexOk, FlagInv, MsgInv, MboxInv, Framed, Known, TableOk, Reprioritised, Owes, Movable;
    if Pr(s.k, t) != p {
      var s' := s.(k := Owes(Reprioritised(s.k, t, p), PrioYield(t, p)), ret := NoRet);
      assert ChangePriority(s, t, p) == s';
      ChangePriorityOk(s, t, p);
      MovedStatus(s.k, t, p);
      SameStatusKnown(s.k, s'.k, s.ms.ch, s.pids, s.pid);
      ThreadKeeps(s, s');
    } else {
      RetKeeps(s, s.ret);
    }
  }

  lemma MovedStatus(k: Sched, t: Tid, p: nat)
    ensures Owes(Reprioritised(k, t, p), PrioYield(t, p)).status == k.status
  {
    hide RunqueuePush, RunqueuePop;
  }

  // ---- Creating a thread ----

  lemma CreateMsg(q: Links, status: map<Tid, Status>, wait: map<Tid, Wait>, ms: Messages, t: Tid)
    requires MsgOk(q, status, wait, ms) && t !in ms.ch && ListsOk(q.lists, q.on) && t !in status
    ensures MsgOk(q, status, wait, ms.(ch := ms.ch[t := EMPTY_CHAN]))
  {
    hide Ordered, ListsOk;
    assert L(q, SendQ(t)) == [];
    NobodyWaits(q, t);
    FreshOrdered(q.on, wait, t);
  }

  lemma FreshOrdered(on: map<Tid, ListId>, wait: map<Tid, Wait>, t: Tid)
    requires forall u :: OnOf(on, u) != Some(SendQ(t))
    ensures Ordered(on, wait, EMPTY_CHAN, t)
  {
  }

  /** The state after the bookkeeping of `thread_create`, before the scheduler part. */
  function Tabulated(s: State, t: Tid, p: nat, flags: bv16): State {
    s.(pids := s.pids[p := t], pid := s.pid[t := p], ms := s.ms.(ch := s.ms.ch[t := EMPTY_CHAN]), fl := s.fl[t := flags])
  }

  lemma TabulatedMsg(s: State, t: Tid, p: nat, flags: bv16)
    requires Inv(s.k) && MsgInv(s) && t !in s.ms.ch && t !in s.k.status
    ensures MsgInv(Tabulated(s, t, p, flags))
  {
    hide MsgOk, MatchOk, SortedOk, BitsOk;
    CreateMsg(s.k.q, s.k.status, s.wait, s.ms, t);
  }

  lemma TabulatedFlags(s: State, t: Tid, p: nat, flags: bv16)
    requires FlagInv(s) && t !in s.cont
    ensures FlagInv(Tabulated(s, t, p, flags))
  {
    hide FlagOk;
  }

  lemma TabulatedTable(s: State, t: Tid, p: nat, flags: bv16)
    requires Tabled(s) && t !in s.ms.ch && p !in s.pids
    ensures Tabled(Tabulated(s, t, p, flags))
  {
  }

  lemma TabulatedKeeps(s: State, t: Tid, p: nat, flags: bv16)
    requires KernelInv(s) && t !in s.ms.ch && t !in s.k.status && p !in s.pids
    ensures KernelInv(Tabulated(s, t, p, flags))
  {
    hide Inv, Act, HolderOk, LockersOk, FlagInv, MsgInv, BoxesOk, WaitersOk, RetriesOk;
    TabulatedMsg(s, t, p, flags);
    TabulatedFlags(s, t, p, flags);
    TabulatedTable(s, t, p, flags);
  }

  lemma StartedStatus(k: Sched, t: Tid, prio: nat, how: Start)
    ensures forall u :: u != t ==> St(Started(Registered(k, t, prio), t, how), u) == St(k, u)
  {
    hide SetStatus, Owes;
    var k0 := Registered(k, t, prio);
    match how
    case Asleep => SetStatusOthers(k0, t, Sleeping, Nothing);
    case Quietly =>
      SetStatusOthers(k0, t, Pending, Nothing);
      assert forall u :: St(Lazily(SetStatus(k0, t, Pending)), u) == St(SetStatus(k0, t, Pending), u);
    case Normally => SetStatusOthers(k0, t, Pending, Switch(Pr(k0, t)));
  }

  lemma StoppedWait(s: State, s': State, t: Tid)
    requires Framed(s.k, s'.k, ThreadKinds, ThreadStatuses) && St(s.k, t).Stopped? && s'.wait == s.wait[t := Null]
    ensures WaitFramed(s, s', ThreadStatuses)
  {
    hide OnlyLists;
  }

  lemma CreatedKeeps(s: State, s': State, t: Tid)
    requires KernelInv(s) && SchedOk(s'.k) && Framed(s.k, s'.k, ThreadKinds, ThreadStatuses)
    requires s'.mx == s.mx && s'.mc == s.mc && s'.ms == s.ms && s'.mb == s.mb && s'.fl == s.fl && SameTable(s, s')
    requires s'.wait == s.wait[t := Null] && St(s.k, t).Stopped? && t in s.ms.ch && InTable(s.pids, s.pid, t) && s'.cont == s.cont
    requires forall u :: u != t ==> St(s'.k, u) == St(s.k, u)
    ensures KernelInv(s')
    ensures ThreadOnly(s, s')
  {
    hide Inv, Act, MutexOk, FlagInv, MsgInv, MboxInv, Known, TableOk, Framed, ContFramed, WaitFramed;
    StoppedWait(s, s', t);
    ContSame(s, s', ThreadStatuses, NoFamily);
    MutexKept(s, s', ThreadKinds, ThreadStatuses, NoFamily);
    FlagKept(s, s', ThreadKinds, ThreadStatuses, NoFamily);
    MsgKeptBy(s, s', ThreadKinds, ThreadStatuses);
    MboxKeptBy(s, s', ThreadKinds, ThreadStatuses, NoFamily);
    KnownAt(s.k, s'.k, s.ms.ch, s.pids, s.pid, t);
  }

  lemma CreateKeeps(s: State, t: Tid, prio: nat, how: Start, flags: bv16)
    requires KernelInv(s) && Ready(s.k) && t !in s.k.status && t !in s.ms.ch
    ensures KernelInv(Create(s, t, prio, how, flags))
    ensures ThreadOnly(s, Create(s, t, prio, how, flags))
  {
    hide SchedOk, MutexOk, FlagInv, MsgInv, MboxInv, Tabled, Framed, Started, Registered, ThreadOnly;
    var pid := FreePid(s.pids, PID_FIRST);
    if prio >= PRIO_LEVELS {
      RetKeeps(s, Ret.Int(-EINVAL));
    } else if pid.None? {
      RetKeeps(s, Ret.Int(-EOVERFLOW));
    } else {
      var s1 := Tabulated(s, t, pid.value, flags);
      var s' := s1.(k := Started(Registered(s.k, t, prio), t, how), wait := s.wait[t := Null], ret := Ret.Int(pid.value));
      assert Create(s, t, prio, how, flags) == s';
      CallerIsNot(s, t);
      CreateOk(s, t, prio, how, flags);
      TabulatedKeeps(s, t, pid.value, flags);
      StartedStatus(s.k, t, prio, how);
      CreatedKeeps(s1, s', t);
      TabulatedOnly(s, s', t, pid.value, flags);
    }
  }

  lemma TabulatedOnly(s: State, s': State, t: Tid, p: nat, flags: bv16)
    requires t !in s.ms.ch && ThreadOnly(Tabulated(s, t, p, flags), s')
    ensures ThreadOnly(s, s')
  {
    hide Framed, WaitFramed;
    var s1 := Tabulated(s, t, p, flags);
    SameFrame(s, s1, s');
    forall r ensures ChanOf(s'.ms, r) == ChanOf(s.ms, r) {
      assert ChanOf(s1.ms, r) == ChanOf(s.ms, r);
    }
    forall u | u in s.ms.ch ensures u in s'.ms.ch && Get(s'.pid, u) == Get(s.pid, u) {
      assert u in s1.ms.ch;
    }
  }

  lemma SameFrame(s: State, s1: State, s': State)
    requires s1.k == s.k && s1.wait == s.wait && WaitFramed(s1, s', ThreadStatuses)
    ensures WaitFramed(s, s', ThreadStatuses)
  {
  }

  lemma CallerIsNot(s: State, t: Tid)
    requires SchedOk(s.k) && Ready(s.k) && t !in s.k.status
    ensures s.k.cpu.active != Some(t)
  {
    hide SchedOk;
    CallerRuns(s, s.k.cpu.active.value);
  }

  // ---- Rescheduling and interrupts ----

  lemma SchedulingFramed(k: Sched, k': Sched)
    requires OnlyScheduling(k, k')
    ensures Framed(k, k', ThreadKinds, ThreadStatuses)
  {
  }

  lemma SchedulingKnown(k: Sched, k': Sched, ch: map<Tid, Chan>, pids: map<nat, Tid>, pid: map<Tid, nat>)
    requires Known(k, ch, pids, pid) && OnlyScheduling(k, k')
    ensures Known(k', ch, pids, pid)
  {
  }

  lemma SchedulingKeeps(s: State, k': Sched)
    requires KernelInv(s) && SchedOk(k') && OnlyScheduling(s.k, k')
    ensures KernelInv(s.(k := k'))
    ensures ThreadOnly(s, s.(k := k'))
  {
    hide SchedOk, MutexOk, FlagInv, MsgInv, MboxInv, Framed, Known, TableOk, OnlyScheduling;
    SchedulingFramed(s.k, k');
    SchedulingKnown(s.k, k', s.ms.ch, s.pids, s.pid);
    ThreadKeeps(s, s.(k := k'));
  }

  lemma EnterOk(k: Sched)
    requires SchedOk(k)
    ensures SchedOk(IsrEnter(k)) && OnlyScheduling(k, IsrEnter(k))
  {
    hide LinksOk, MatchOk;
  }

  lemma YieldOk(k: Sched, o: Owe)
    requires SchedOk(k) && Ready(k) && Yielding(o)
    ensures SchedOk(Owes(k, o)) && OnlyScheduling(k, Owes(k, o))
  {
    hide LinksOk, MatchOk, Act;
    YieldAct(Owes(k, o));
  }

  lemma PayKeeps(s: State, a: Tid)
    requires KernelInv(s) && !s.k.cpu.isr && !s.k.cpu.idle && s.k.cpu.active == Some(a)
    ensures KernelInv(s.(k := Pay(s.k, a)))
    ensures ThreadOnly(s, s.(k := Pay(s.k, a)))
  {
    hide Inv, Act, MutexOk, FlagInv, MsgInv, MboxInv, Tabled, Pay, OnlyScheduling;
    PayOk(s.k, a);
    SchedulingKeeps(s, Pay(s.k, a));
  }

  lemma SystemKeeps(s: State, e: Event)
    requires KernelInv(s) && Enabled(s, e) && (e.Enter? || e.Leave? || e.Wake?)
    ensures KernelInv(Step(s, e))
    ensures ThreadOnly(s, Step(s, e))
  {
    hide Inv, Act, MutexOk, FlagInv, MsgInv, MboxInv, Tabled, OnlyScheduling, IsrEnter, IsrExit, SchedRun, ThreadCall, IsrCall, Resume;
    match e
    case Enter =>
      EnterOk(s.k);
      SchedulingKeeps(s, IsrEnter(s.k));
    case Leave =>
      IsrExitOk(s.k);
      SchedulingKeeps(s, IsrExit(s.k));
    case Wake =>
      RunAct(s.k);
      SchedulingKeeps(s, SchedRun(s.k));
  }

  lemma YieldKeeps(s: State, rotate: bool)
    requires KernelInv(s) && Ready(s.k)
    ensures KernelInv(s.(k := Owes(s.k, if rotate then YieldRotate else YieldHigher)))
    ensures ThreadOnly(s, s.(k := Owes(s.k, if rotate then YieldRotate else YieldHigher)))
  {
    hide SchedOk, MutexOk, FlagInv, MsgInv, MboxInv, Tabled, OnlyScheduling, Owes;
    var o := if rotate then YieldRotate else YieldHigher;
    YieldOk(s.k, o);
    SchedulingKeeps(s, Owes(s.k, o));
  }

  // ---- All steps ----

  ghost predicate MutexQuiet(s: State, s': State) {
    && s'.mx == s.mx && s'.mc == s.mc && (forall m :: L(s'.k.q, MutexQ(m)) == L(s.k.q, MutexQ(m)))
    && (forall t :: St(s.k, t).CondBlocked? ==> St(s'.k, t).CondBlocked?)
  }

  ghost predicate MsgQuiet(s: State, s': State) {
    && (forall r :: ChanOf(s'.ms, r) == ChanOf(s.ms, r) && L(s'.k.q, SendQ(r)) == L(s.k.q, SendQ(r)))
    && (forall t :: MsgBlocked(St(s.k, t)) || MsgBlocked(St(s'.k, t)) ==>
          St(s'.k, t) == St(s.k, t) && OnOf(s'.k.q.on, t) == OnOf(s.k.q.on, t) && WaitOf(s'.wait, t) == WaitOf(s.wait, t))
  }

  ghost predicate Quiet(s: State, s': State) {
    MutexQuiet(s, s') && MsgQuiet(s, s') && TableGrows(s, s')
  }

  lemma ReplyFramed(s: State, s': State, kinds: set<Kind>, sts: set<Status>)
    requires Framed(s.k, s'.k, kinds, sts) && WaitFramed(s, s', sts) && SendKind !in kinds
    requires forall st :: st in sts ==> !MsgBlocked(st)
    requires forall r :: ChanOf(s'.ms, r) == ChanOf(s.ms, r)
    ensures MsgQuiet(s, s')
  {
  }

  lemma FlagIsQuiet(s: State, s': State)
    requires FlagOnly(s, s')
    ensures Quiet(s, s')
  {
    hide WaitFramed, MsgQuiet;
    ReplyFramed(s, s', FlagKinds, FlagStatuses);
  }

  lemma MboxIsQuiet(s: State, s': State)
    requires MboxOnly(s, s')
    ensures Quiet(s, s')
  {
    hide WaitFramed, MsgQuiet;
    ReplyFramed(s, s', MboxKinds, MboxStatuses);
  }

  lemma ThreadIsQuiet(s: State, s': State)
    requires ThreadOnly(s, s')
    ensures Quiet(s, s')
  {
    hide WaitFramed, MsgQuiet;
    ReplyFramed(s, s', ThreadKinds, ThreadStatuses);
  }

  lemma MutexIsQuiet(s: State, s': State)
    requires MutexOnly(s, s')
    ensures MsgQuiet(s, s')
  {
    hide Framed, MsgQuiet;
    WaitSame(s, s', MutexStatuses);
    ReplyFramed(s, s', MutexKinds, MutexStatuses);
  }

  lemma MsgIsQuiet(s: State, s': State)
    requires MsgOnly(s, s')
    ensures MutexQuiet(s, s')
  {
  }

  /** Steps of mutexes and condition variables, steps of messages, and all others. */
  ghost predicate Sorts(s: State, s': State, mutex: bool, msg: bool) {
    && (mutex ==> MutexOnly(s, s'))
    && (msg ==> MsgOnly(s, s'))
    && (!mutex && !msg ==> Quiet(s, s'))
  }

  lemma MutexCallKeeps(s: State, a: Tid, c: Call)
    requires KernelInv(s) && Calling(s, a) && Co(s, a) == User && CallOk(s, a, c) && MutexCall(c)
    ensures KernelInv(MutexStep(s, a, c))
    ensures MutexOnly(s, MutexStep(s, a, c))
  {
    hide KernelInv, MutexOnly;
    hide Lock, LockCancelable, Unlock, UnlockAndSleep, CancelInit, Cancel, CondWait, Signal, CancelAllowed;
    match c
    case MutexLock(m, block) => LockKeeps(s, a, m, block);
    case MutexLockCancelable(x) => LockCancelableKeeps(s, a, x);
    case MutexUnlock(m) => UnlockKeeps(s, m);
    case MutexUnlockAndSleep(m) => UnlockAndSleepKeeps(s, a, m);
    case MutexCancelInit(x, m) => CancelInitKeeps(s, x, m, a);
    case MutexCancel(x) => CancelOrNot(s, x);
    case CondWaiting(d, m) => CondWaitKeeps(s, a, d, m);
    case CondSignal(d, broadcast) => SignalKeeps(s, d, broadcast);
  }

  lemma ThreadCallKeeps(s: State, a: Tid, c: Call)
    requires KernelInv(s) && Calling(s, a) && Co(s, a) == User && CallOk(s, a, c)
    ensures KernelInv(ThreadCall(s, a, c))
    ensures Sorts(s, ThreadCall(s, a, c), MutexCall(c), MsgCall(c))
  {
    hide KernelInv, MutexStep, MsgStep, ThreadStep, FlagMboxStep, CallOk, MutexOnly, MsgOnly, Quiet;
    if MutexCall(c) {
      MutexCallKeeps(s, a, c);
    } else if MsgCall(c) {
      MsgCallKeeps(s, a, c);
    } else if ThreadOp(c) {
      ThreadOpKeeps(s, a, c);
    } else {
      MboxCallKeeps(s, a, c);
    }
  }

  lemma MsgCallKeeps(s: State, a: Tid, c: Call)
    requires KernelInv(s) && Calling(s, a) && CallOk(s, a, c) && MsgCall(c)
    ensures KernelInv(MsgStep(s, a, c))
    ensures MsgOnly(s, MsgStep(s, a, c))
  {
    hide KernelInv, MsgOnly;
    hide Send, SendReceive, Reply, Receive, InitQueue;
    match c
    case MsgSend(pid, body, block) => SendKeeps(s, a, pid, body, block);
    case MsgSendReceive(pid, body) => SendReceiveKeeps(s, a, pid, body);
    case MsgReply(pid, reply) => ReplyKeeps(s, pid, reply);
    case MsgReceive(block) => ReceiveKeeps(s, a, block);
    case MsgInitQueue(n) => InitQueueKeeps(s, a, n);
  }

  lemma MboxCallKeeps(s: State, a: Tid, c: Call)
    requires KernelInv(s) && Calling(s, a) && CallOk(s, a, c) && !MutexCall(c) && !MsgCall(c) && !ThreadOp(c)
    ensures KernelInv(FlagMboxStep(s, a, c))
    ensures Quiet(s, FlagMboxStep(s, a, c))
  {
    hide KernelInv, MboxOnly, FlagOnly, Quiet;
    hide InitBox, Put, Fetch, FlagsSet, FlagsClear, WaitAny, WaitAll;
    var s' := FlagMboxStep(s, a, c);
    match c
    case MboxInit(b, cap) => InitBoxKeeps(s, b, cap); MboxIsQuiet(s, s');
    case MboxPut(b, msg, block) => PutKeeps(s, b, msg, block); MboxIsQuiet(s, s');
    case MboxGet(b, block) => FetchKeeps(s, b, block); MboxIsQuiet(s, s');
    case FlagSet(t, mask) => FlagsSetKeeps(s, t, mask); FlagIsQuiet(s, s');
    case FlagClear(mask) => FlagsClearKeeps(s, a, mask); FlagIsQuiet(s, s');
    case FlagWaitAny(mask, one) => WaitAnyKeeps(s, a, mask, one); FlagIsQuiet(s, s');
    case FlagWaitAll(mask) => WaitAllKeeps(s, a, mask); FlagIsQuiet(s, s');
  }

  lemma ThreadOpKeeps(s: State, a: Tid, c: Call)
    requires KernelInv(s) && Calling(s, a) && CallOk(s, a, c) && ThreadOp(c)
    ensures KernelInv(ThreadStep(s, a, c))
    ensures Quiet(s, ThreadStep(s, a, c))
  {
    hide KernelInv, ThreadOnly, Quiet;
    hide Sleep, Wakeup, KillZombie, Exit, Create, ChangePriority, Movable, Owes;
    match c {
      case ThreadYield(rotate) => YieldKeeps(s, rotate);
      case ThreadSleep => SleepKeeps(s, a, Sleeping);
      case ThreadWakeup(pid) => WakeupKeeps(s, pid);
      case ThreadZombify => SleepKeeps(s, a, Zombie);
      case ThreadKillZombie(pid) => KillZombieKeeps(s, pid);
      case ThreadExit => ExitKeeps(s, a);
      case ThreadCreate(t, prio, how, flags) => CreateKeeps(s, t, prio, how, flags);
      case ThreadPriority(t, prio) => PriorityKeeps(s, t, prio);
    }
    ThreadIsQuiet(s, ThreadStep(s, a, c));
  }

  lemma CancelOrNot(s: State, x: nat)
    requires KernelInv(s) && InContext(s.k) && CancelAllowed(s, x)
    ensures x in s.mc && KernelInv(Cancel(s, x))
    ensures MutexOnly(s, Cancel(s, x))
  {
    hide KernelInv, MutexOnly, Cancel;
    CancelKeeps(s, x);
  }

  lemma IsrMutexKeeps(s: State, c: Call)
    requires KernelInv(s) && s.k.cpu.isr && IsrOk(s, c) && MutexCall(c)
    ensures KernelInv(IsrMutexStep(s, c))
    ensures MutexOnly(s, IsrMutexStep(s, c))
  {
    hide KernelInv, MutexOnly, MsgOnly, Quiet;
    hide Unlock, Cancel, Signal, FlagsSet, SendIsr, Reply, Put, Fetch, Wakeup, KillZombie, CancelAllowed;
    match c
    case MutexUnlock(m) => UnlockKeeps(s, m);
    case MutexCancel(x) => CancelOrNot(s, x);
    case CondSignal(d, broadcast) => SignalKeeps(s, d, broadcast);
    case _ =>
  }

  lemma IsrMsgKeeps(s: State, c: Call)
    requires KernelInv(s) && s.k.cpu.isr && IsrOk(s, c) && MsgCall(c)
    ensures KernelInv(IsrMsgStep(s, c))
    ensures MsgOnly(s, IsrMsgStep(s, c))
  {
    hide KernelInv, MutexOnly, MsgOnly, Quiet;
    hide Unlock, Cancel, Signal, FlagsSet, SendIsr, Reply, Put, Fetch, Wakeup, KillZombie, CancelAllowed;
    match c
    case MsgSend(pid, body, block) => SendIsrKeeps(s, pid, body);
    case MsgReply(pid, reply) => ReplyKeeps(s, pid, reply);
    case _ =>
  }

  lemma IsrOtherKeeps(s: State, c: Call)
    requires KernelInv(s) && s.k.cpu.isr && IsrOk(s, c) && !MutexCall(c) && !MsgCall(c)
    ensures KernelInv(IsrOtherStep(s, c))
    ensures Quiet(s, IsrOtherStep(s, c))
  {
    hide KernelInv, MutexOnly, MsgOnly, FlagOnly, MboxOnly, ThreadOnly, Quiet;
    hide Unlock, Cancel, Signal, FlagsSet, SendIsr, Reply, Put, Fetch, Wakeup, KillZombie, CancelAllowed;
    var s' := IsrOtherStep(s, c);
    match c
    case FlagSet(t, mask) => FlagsSetKeeps(s, t, mask); FlagIsQuiet(s, s');
    case MboxPut(b, msg, block) => PutKeeps(s, b, msg, false); MboxIsQuiet(s, s');
    case MboxGet(b, block) => FetchKeeps(s, b, false); MboxIsQuiet(s, s');
    case ThreadWakeup(pid) => WakeupKeeps(s, pid); ThreadIsQuiet(s, s');
    case ThreadKillZombie(pid) => KillZombieKeeps(s, pid); ThreadIsQuiet(s, s');
    case _ =>
  }

  lemma IsrCallKeeps(s: State, c: Call)
    requires KernelInv(s) && s.k.cpu.isr && IsrOk(s, c)
    ensures KernelInv(IsrCall(s, c))
    ensures Sorts(s, IsrCall(s, c), MutexCall(c), MsgCall(c))
  {
    hide KernelInv, IsrMutexStep, IsrMsgStep, IsrOtherStep, IsrOk, MutexOnly, MsgOnly, Quiet;
    if MutexCall(c) {
      IsrMutexKeeps(s, c);
    } else if MsgCall(c) {
      IsrMsgKeeps(s, c);
    } else {
      IsrOtherKeeps(s, c);
    }
  }

  predicate LockCont(c: Cont) {
    c.Locking? || c.CancelCheck? || c.Relock?
  }

  lemma ResumeKeeps(s: State, a: Tid)
    requires KernelInv(s) && !s.k.cpu.isr && !s.k.cpu.idle && s.k.cpu.active == Some(a)
    ensures KernelInv(Resume(s, a))
    ensures Sorts(s, Resume(s, a), Ow(s.k, a).Nothing? && LockCont(Co(s, a)), false)
  {
    hide KernelInv, MutexOnly, MsgOnly, FlagOnly, MboxOnly, ThreadOnly, Quiet, Lock, LockReturn, PutReturn, FlagReturn, Pay;
    var s' := Resume(s, a);
    if !Ow(s.k, a).Nothing? {
      PayKeeps(s, a);
      ThreadIsQuiet(s, s');
    } else {
      match Co(s, a)
      case Locking(_) => LockReturnKeeps(s, a);
      case CancelCheck(_) => LockReturnKeeps(s, a);
      case Relock(m) => LockKeeps(s, a, m, true);
      case PutRetry(_, _) => PutReturnKeeps(s, a); MboxIsQuiet(s, s');
      case _ => FlagReturnKeeps(s, a); FlagIsQuiet(s, s');
    }
  }

  /** A step of `mutex.c` or `cond.c`. */
  predicate InMutex(s: State, e: Event) {
    match e
    case Thr(c) => MutexCall(c)
    case Intr(c) => MutexCall(c)
    case Continue => s.k.cpu.active.Some? && Ow(s.k, s.k.cpu.active.value).Nothing? && LockCont(Co(s, s.k.cpu.active.value))
    case _ => false
  }

  /** A step of `msg.c`. */
  predicate InMsg(e: Event) {
    match e
    case Thr(c) => MsgCall(c)
    case Intr(c) => MsgCall(c)
    case _ => false
  }

  /** Every step of the kernel keeps every invariant, and touches only its own subsystem. */
  lemma StepKeeps(s: State, e: Event)
    requires KernelInv(s) && Enabled(s, e)
    ensures KernelInv(Step(s, e))
    ensures Sorts(s, Step(s, e), InMutex(s, e), InMsg(e))
  {
    hide KernelInv, MutexOnly, MsgOnly, ThreadOnly, Quiet, ThreadCall, IsrCall, Resume, CallOk, IsrOk, IsrEnter, IsrExit, SchedRun;
    match e
    case Thr(c) => ThreadCallKeeps(s, s.k.cpu.active.value, c);
    case Continue => ResumeKeeps(s, s.k.cpu.active.value);
    case Intr(c) => IsrCallKeeps(s, c);
    case _ =>
      SystemKeeps(s, e);
      ThreadIsQuiet(s, Step(s, e));
  }
}
