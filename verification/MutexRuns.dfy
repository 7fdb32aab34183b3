/** What one kernel step can do to one mutex, and what that means for the order of its waiters. */
module MutexRuns {
  import opened Wrappers
  import opened Queues
  import opened Sched
  import opened Reschedule
  import opened KernelState
  import opened MutexSpec
  import opened Kernel
  import opened KernelSteps
  import opened Remainders
  import opened Runs

  function Holders(holds: set<(Tid, nat)>, m: nat): set<Tid> {
    set p | p in holds && p.1 == m :: p.0
  }

  function Waiters(s: State, m: nat): seq<Tid> {
    L(s.k.q, MutexQ(m))
  }

  datatype Move =
    | Stays              // nothing happens to this mutex
    | Taken(a: Tid)      // locked while it was unlocked
    | Dropped            // unlocked without waiters
    | Handed             // given to the first waiter
    | Joined(a: Tid)     // a thread queues by priority, after its equals
    | Left(i: nat)       // a waiter was cancelled

  /** The effect of a move on the waiters `q` and the holders `h`. */
  predicate IsMove(mv: Move, prio: map<Tid, nat>, q: seq<Tid>, h: set<Tid>, q': seq<Tid>, h': set<Tid>) {
    match mv
    case Stays => q' == q && h' == h
    case Taken(a) => q == [] && q' == [] && h == {} && h' == {a}
    case Dropped => q == [] && q' == [] && h' == {}
    case Handed => q != [] && q' == q[1..] && h' == {q[0]}
    case Joined(a) => a !in q && q' == InsertAt(q, InsertPos(prio, q, Get(prio, a)), a) && h' == h
    case Left(i) => i < |q| && q' == RemoveAt(q, i) && h' == h
  }

  predicate Moved(mv: Move, s: State, s': State, m: nat) {
    IsMove(mv, s.k.prio, Waiters(s, m), Holders(s.mx.holds, m), Waiters(s', m), Holders(s'.mx.holds, m))
  }

  /** The call unlocks `m`, if it is locked. */
  predicate UnlockCall(c: Call, m: nat) {
    (c.MutexUnlock? || c.MutexUnlockAndSleep? || c.CondWaiting?) && c.m == m
  }

  predicate Unlocks(s: State, e: Event, m: nat) {
    (e.Thr? && s.k.cpu.active.Some? && UnlockCall(e.call, m)) || (e.Intr? && e.call.MutexUnlock? && e.call.m == m)
  }

  predicate Cancels(s: State, e: Event, x: nat) {
    ((e.Thr? && s.k.cpu.active.Some?) || e.Intr?) && e.call == MutexCancel(x)
  }

  /** Which calls make which moves. */
  predicate CallCause(mv: Move, s: State, a: Tid, c: Call, m: nat) {
    match mv
    case Stays => UnlockCall(c, m) ==> Unlocked(s.k.q, s.mx, m)
    case Taken(b) => b == a && !UnlockCall(c, m)
    case Dropped => UnlockCall(c, m)
    case Handed => UnlockCall(c, m)
    case Joined(b) => b == a && !UnlockCall(c, m)
    case Left(i) => c.MutexCancel? && WaitsAt(s, c.x, m, i)
  }

  /** The `i`-th waiter for `m` is the thread of canceller `x`. */
  predicate WaitsAt(s: State, x: nat, m: nat, i: nat) {
    x in s.mc && s.mc[x].mutex == m && i < |Waiters(s, m)| && Waiters(s, m)[i] == s.mc[x].thread
  }

  predicate Cause(mv: Move, s: State, e: Event, m: nat) {
    match mv
    case Stays => Unlocks(s, e, m) ==> Unlocked(s.k.q, s.mx, m)
    case Taken(a) => Acts(s, e, a) && Ow(s.k, a).Nothing? && !Unlocks(s, e, m)
    case Dropped => Unlocks(s, e, m)
    case Handed => Unlocks(s, e, m)
    case Joined(a) => Acts(s, e, a) && Ow(s.k, a).Nothing? && !Unlocks(s, e, m)
    case Left(i) => (e.Thr? || e.Intr?) && e.call.MutexCancel? && Cancels(s, e, e.call.x) && WaitsAt(s, e.call.x, m, i)
  }

  // ---- The steps ----

  lemma NotWaiting(s: State, a: Tid, m: nat)
    requires SchedOk(s.k) && Calling(s, a)
    ensures a !in Waiters(s, m)
  {
    hide MatchOk, Act, SortedOk, BitsOk, NoDup;
    CallerNotQueued(s, a);
  }

  lemma BlockOnLists(s: State, a: Tid, m0: nat, c: Cont, m: nat)
    requires SchedOk(s.k) && Calling(s, a)
    ensures var s', q := BlockOn(s, a, m0, c), Waiters(s, m);
      && s'.mx.holds == s.mx.holds
      && Waiters(s', m) == if m == m0 then InsertAt(q, InsertPos(s.k.prio, q, Pr(s.k, a)), a) else q
  {
    hide Inv, Act, Block, CanBlock, IsHead, Only, InsertPos, InsertAt, Owes;
    CallerCanBlock(s.k, a);
    BlockStep(s.k, a, MutexBlocked, Some(MutexQ(m0)), YieldHigher, MutexKinds, MutexStatuses);
  }

  lemma BlockOnMoves(s: State, a: Tid, m0: nat, c: Cont, m: nat) returns (mv: Move)
    requires SchedOk(s.k) && Calling(s, a)
    ensures Moved(mv, s, BlockOn(s, a, m0, c), m) && (mv == Joined(a) || mv == Stays)
  {
    hide SchedOk, BlockOn, InsertPos, InsertAt, Holders, Waiters;
    NotWaiting(s, a, m);
    BlockOnLists(s, a, m0, c, m);
    mv := if m == m0 then Joined(a) else Stays;
  }

  lemma FreeHolders(s: State, m: nat)
    requires HolderOk(s.k.q, s.mx) && Unlocked(s.k.q, s.mx, m)
    ensures Holders(s.mx.holds, m) == {}
  {
    forall t ensures t !in Holders(s.mx.holds, m) {
      assert (t, m) !in s.mx.holds;
    }
  }

  lemma TakeMoves(s: State, a: Tid, m0: nat, m: nat) returns (mv: Move)
    requires HolderOk(s.k.q, s.mx) && Unlocked(s.k.q, s.mx, m0)
    ensures Moved(mv, s, Take(s, a, m0), m) && (mv == Taken(a) || mv == Stays)
  {
    hide Holders;
    FreeHolders(s, m0);
    AddHolder(s.mx.holds, a, m0, m);
    mv := if m == m0 then Taken(a) else Stays;
  }

  lemma AddHolder(holds: set<(Tid, nat)>, a: Tid, m0: nat, m: nat)
    ensures Holders(holds + {(a, m0)}, m) == if m == m0 then Holders(holds, m) + {a} else Holders(holds, m)
  {
    var h := Holders(holds + {(a, m0)}, m);
    forall t ensures t in h <==> (t, m) in holds + {(a, m0)} {
      assert (t, m) in holds + {(a, m0)} ==> (t, m).0 in h;
    }
    forall t ensures t in Holders(holds, m) <==> (t, m) in holds {
      assert (t, m) in holds ==> (t, m).0 in Holders(holds, m);
    }
  }

  lemma DropHolders(holds: set<(Tid, nat)>, m0: nat, m: nat)
    ensures Holders(Drop(holds, m0), m) == if m == m0 then {} else Holders(holds, m)
  {
    forall t ensures t in Holders(holds, m) <==> (t, m) in holds {
      assert (t, m) in holds ==> (t, m).0 in Holders(holds, m);
    }
    forall t ensures t in Holders(Drop(holds, m0), m) <==> (t, m) in Drop(holds, m0) {
      assert (t, m) in Drop(holds, m0) ==> (t, m).0 in Holders(Drop(holds, m0), m);
    }
  }

  lemma ReleaseLists(k: Sched, m0: nat, m: nat)
    requires Inv(k)
    ensures var q := L(k.q, MutexQ(m0));
      L(ReleaseWake(k, m0).q, MutexQ(m)) == if q != [] && m == m0 then q[1..] else L(k.q, MutexQ(m))
  {
    hide LinksOk, MatchOk, WakeAt;
    var q := L(k.q, MutexQ(m0));
    if q != [] {
      WakeAtOk(k, MutexQ(m0), 0);
      assert RemoveAt(q, 0) == q[1..];
    }
  }

  lemma ReleaseHolds(s: State, m0: nat, m: nat)
    ensures var q, h := L(s.k.q, MutexQ(m0)), Holders(s.mx.holds, m);
      Holders(ReleaseMutex(s, m0).holds, m) ==
        if Unlocked(s.k.q, s.mx, m0) || m != m0 then h else if q == [] then {} else {q[0]}
  {
    hide Holders, Drop;
    DropHolders(s.mx.holds, m0, m);
    var q := L(s.k.q, MutexQ(m0));
    if q != [] {
      AddHolder(Drop(s.mx.holds, m0), q[0], m0, m);
    }
  }

  predicate Releases(mv: Move, s: State, m0: nat, m: nat) {
    if m == m0 && !Unlocked(s.k.q, s.mx, m) then mv.Dropped? || mv.Handed? else mv.Stays?
  }

  lemma ReleaseMoves(s: State, m0: nat, m: nat) returns (mv: Move)
    requires Inv(s.k) && HolderOk(s.k.q, s.mx)
    ensures Moved(mv, s, Release(s, m0), m) && Releases(mv, s, m0, m)
  {
    hide Inv, HolderOk, ReleaseWake, ReleaseMutex, Holders;
    ReleaseLists(s.k, m0, m);
    ReleaseHolds(s, m0, m);
    if Unlocked(s.k.q, s.mx, m0) || m != m0 {
      mv := Stays;
    } else {
      mv := if Waiters(s, m0) == [] then Dropped else Handed;
    }
  }

  lemma LockMoves(s: State, a: Tid, m0: nat, block: bool, m: nat) returns (mv: Move)
    requires SchedOk(s.k) && HolderOk(s.k.q, s.mx) && Calling(s, a)
    ensures Moved(mv, s, Lock(s, a, m0, block), m) && (mv == Taken(a) || mv == Joined(a) || mv == Stays)
  {
    hide SchedOk, HolderOk, BlockOn, IsMove;
    if Unlocked(s.k.q, s.mx, m0) {
      mv := TakeMoves(s, a, m0, m);
    } else if block {
      mv := BlockOnMoves(s, a, m0, Locking(m0), m);
    } else {
      mv := SameMove(s, s.(ret := Ret.Int(0)), m);
    }
  }

  lemma SameMove(s: State, s': State, m: nat) returns (mv: Move)
    requires Waiters(s', m) == Waiters(s, m) && s'.mx.holds == s.mx.holds
    ensures Moved(mv, s, s', m) && mv == Stays
  {
    mv := Stays;
  }

  lemma LockCancelableMoves(s: State, a: Tid, x: nat, m: nat) returns (mv: Move)
    requires SchedOk(s.k) && HolderOk(s.k.q, s.mx) && Calling(s, a) && x in s.mc
    ensures Moved(mv, s, LockCancelable(s, a, x), m) && (mv == Taken(a) || mv == Joined(a) || mv == Stays)
  {
    hide SchedOk, HolderOk, BlockOn, IsMove;
    var m0 := s.mc[x].mutex;
    if s.mc[x].cancelled {
      mv := SameMove(s, s.(ret := Cancelled), m);
    } else if Unlocked(s.k.q, s.mx, m0) {
      mv := TakeMoves(s, a, m0, m);
    } else {
      mv := BlockOnMoves(s, a, m0, CancelCheck(x), m);
    }
  }

  lemma SameLinks(k: Sched, o: Owe)
    ensures Owes(k, o).q == k.q
  {
  }

  lemma UnlockMoves(s: State, m0: nat, m: nat) returns (mv: Move)
    requires SchedOk(s.k) && HolderOk(s.k.q, s.mx)
    ensures Moved(mv, s, Unlock(s, m0), m) && Releases(mv, s, m0, m)
  {
    hide Inv, Act, HolderOk, ReleaseWake, ReleaseMutex, ReleaseOwe, Owes, IsMove;
    mv := ReleaseMoves(s, m0, m);
    SameLinks(ReleaseWake(s.k, m0), ReleaseOwe(s, m0));
  }

  lemma ReleaseAndBlockMoves(s: State, a: Tid, m0: nat, request: bool, st: Status, wl: Option<ListId>, s': State, m: nat)
    returns (mv: Move)
    requires SchedOk(s.k) && HolderOk(s.k.q, s.mx) && Calling(s, a) && !OnRunqueue(st) && Matches(st, wl, Pr(s.k, a))
    requires st in MutexStatuses && (wl.Some? ==> wl.value.CondQ?)
    requires s'.k == ReleaseAndBlock(s.k, a, m0, request, st, wl) && s'.mx == ReleaseMutex(s, m0)
    ensures Moved(mv, s, s', m) && Releases(mv, s, m0, m)
  {
    hide Inv, Act, HolderOk, ReleaseWake, ReleaseMutex, ReleaseAndBlock, IsMove, Matches;
    mv := ReleaseMoves(s, m0, m);
    ReleaseAndBlockSched(s, a, m0, request, st, wl);
  }

  lemma UnlockAndSleepMoves(s: State, a: Tid, m0: nat, m: nat) returns (mv: Move)
    requires SchedOk(s.k) && HolderOk(s.k.q, s.mx) && Calling(s, a)
    ensures Moved(mv, s, UnlockAndSleep(s, a, m0), m) && Releases(mv, s, m0, m)
  {
    hide SchedOk, HolderOk, ReleaseWake, ReleaseMutex, ReleaseAndBlock, IsMove;
    mv := ReleaseAndBlockMoves(s, a, m0, false, Sleeping, None, UnlockAndSleep(s, a, m0), m);
  }

  lemma CondWaitMoves(s: State, a: Tid, c: nat, m0: nat, m: nat) returns (mv: Move)
    requires SchedOk(s.k) && HolderOk(s.k.q, s.mx) && Calling(s, a)
    ensures Moved(mv, s, CondWait(s, a, c, m0), m) && Releases(mv, s, m0, m)
  {
    hide SchedOk, HolderOk, ReleaseWake, ReleaseMutex, ReleaseAndBlock, ReleaseOwe, IsMove;
    var request := ReleaseOwe(s, m0).Switch? && Pr(s.k, a) > ReleaseOwe(s, m0).prio;
    mv := ReleaseAndBlockMoves(s, a, m0, request, CondBlocked, Some(CondQ(c)), CondWait(s, a, c, m0), m);
  }

  lemma SignalMoves(s: State, c: nat, broadcast: bool, m: nat) returns (mv: Move)
    requires SchedOk(s.k) && InContext(s.k)
    ensures Moved(mv, s, Signal(s, c, broadcast), m) && mv == Stays
  {
    hide Inv, Act, SignalSched, Only;
    SignalSchedOk(s.k, c, broadcast);
    mv := SameMove(s, Signal(s, c, broadcast), m);
  }

  lemma CancelMoves(s: State, x: nat, m: nat) returns (mv: Move)
    requires SchedOk(s.k) && InContext(s.k) && x in s.mc
    ensures Moved(mv, s, Cancel(s, x), m) && (mv.Stays? || (mv.Left? && WaitsAt(s, x, m, mv.i)))
  {
    hide Inv, Act, Only, CancelWake, CancelMutex, IndexOf, Owes, Holders, RemoveAt;
    CancelHolds(s, x);
    var m0, t := s.mc[x].mutex, s.mc[x].thread;
    if Cancellable(s, x) {
      CancelSchedOk(s, x);
      mv := if m == m0 then Left(IndexOf(L(s.k.q, MutexQ(m0)), t)) else Stays;
    } else {
      SameLinks(s.k, Nothing);
      mv := Stays;
    }
  }

  lemma CancelHolds(s: State, x: nat)
    requires x in s.mc
    ensures CancelMutex(s, x).holds == s.mx.holds
  {
  }

  lemma MutexCallMoves(s: State, a: Tid, c: Call, m: nat) returns (mv: Move)
    requires KernelInv(s) && Calling(s, a) && MutexCall(c) && CallOk(s, a, c)
    ensures Moved(mv, s, MutexStep(s, a, c), m) && CallCause(mv, s, a, c, m)
  {
    hide SchedOk, HolderOk, LockersOk, Moved, Lock, LockCancelable, Unlock, UnlockAndSleep, CancelInit, Cancel, CondWait, Signal;
    match c
    case MutexLock(m0, block) => mv := LockMoves(s, a, m0, block, m);
    case MutexLockCancelable(x) => mv := LockCancelableMoves(s, a, x, m);
    case MutexUnlock(m0) => mv := UnlockMoves(s, m0, m);
    case MutexUnlockAndSleep(m0) => mv := UnlockAndSleepMoves(s, a, m0, m);
    case MutexCancelInit(x, m0) => mv := CancelInitMoves(s, x, m0, a, m);
    case MutexCancel(x) => mv := CancelMoves(s, x, m);
    case CondWaiting(d, m0) => mv := CondWaitMoves(s, a, d, m0, m);
    case CondSignal(d, broadcast) => mv := SignalMoves(s, d, broadcast, m);
  }

  lemma CancelInitMoves(s: State, x: nat, m0: nat, a: Tid, m: nat) returns (mv: Move)
    ensures Moved(mv, s, CancelInit(s, x, m0, a), m) && mv == Stays
  {
    mv := SameMove(s, CancelInit(s, x, m0, a), m);
  }

  lemma LockReturnMoves(s: State, a: Tid, m: nat) returns (mv: Move)
    ensures Moved(mv, s, LockReturn(s, a), m) && mv == Stays
  {
    mv := SameMove(s, LockReturn(s, a), m);
  }

  lemma IsrMutexMoves(s: State, c: Call, m: nat) returns (mv: Move)
    requires KernelInv(s) && s.k.cpu.isr && MutexCall(c) && IsrOk(s, c)
    ensures Moved(mv, s, IsrMutexStep(s, c), m)
    ensures Cause(mv, s, Intr(c), m)
  {
    hide SchedOk, HolderOk, LockersOk, Moved, Unlock, Cancel, Signal;
    match c
    case MutexUnlock(m0) => mv := UnlockMoves(s, m0, m);
    case MutexCancel(x) => mv := CancelMoves(s, x, m);
    case CondSignal(d, broadcast) => mv := SignalMoves(s, d, broadcast, m);
    case _ => mv := Stays;
  }

  lemma ResumeMoves(s: State, a: Tid, m: nat) returns (mv: Move)
    requires KernelInv(s) && Calling(s, a) && LockCont(Co(s, a))
    ensures Moved(mv, s, Resume(s, a), m) && (mv == Taken(a) || mv == Joined(a) || mv == Stays)
  {
    hide SchedOk, HolderOk, LockersOk, Moved, Lock, LockReturn;
    match Co(s, a)
    case Relock(m0) => mv := LockMoves(s, a, m0, true, m);
    case _ => mv := LockReturnMoves(s, a, m);
  }

  /**
    Every kernel step does one of six things to a mutex. It is taken only while unlocked and
    without waiters, an unlock with waiters hands it to the first of them in the same step,
    and a thread that has to wait queues by priority behind those of equal priority. `Cause`
    says which steps do which.
  */
  lemma MutexTransition(s: State, e: Event, m: nat) returns (mv: Move)
    requires KernelInv(s) && Enabled(s, e)
    ensures Moved(mv, s, Step(s, e), m) && Cause(mv, s, e, m)
  {
    hide KernelInv, MutexOnly, MsgOnly, MsgQuiet, Moved, CallOk, IsrOk, MutexStep, IsrMutexStep, Resume, MsgStep, IsrMsgStep;
    hide ThreadStep, FlagMboxStep, IsrOtherStep, IsrEnter, IsrExit, SchedRun;
    if InMutex(s, e) {
      match e
      case Thr(c) => mv := MutexCallMoves(s, s.k.cpu.active.value, c, m);
      case Intr(c) => mv := IsrMutexMoves(s, c, m);
      case Continue => mv := ResumeMoves(s, s.k.cpu.active.value, m);
      case _ => mv := Stays;
    } else {
      StepKeeps(s, e);
      if InMsg(e) {
        MsgIsQuiet(s, Step(s, e));
      }
      mv := SameMove(s, Step(s, e), m);
    }
  }

  // ---- Overtaking ----

  /** `t` is in the queue, and `u` is not ahead of it. */
  predicate Before(q: seq<Tid>, t: Tid, u: Tid) {
    exists i :: 0 <= i < |q| && q[i] == t && u !in q[..i]
  }

  predicate ByPriority(prio: map<Tid, nat>, q: seq<Tid>) {
    forall i, j :: 0 <= i < j < |q| ==> Get(prio, q[i]) <= Get(prio, q[j])
  }

  lemma InsertKeepsBefore(q: seq<Tid>, p: nat, a: Tid, t: Tid, u: Tid, i: nat)
    requires p <= |q| && i < |q| && q[i] == t && u !in q[..i] && (p <= i ==> a != u)
    ensures Before(InsertAt(q, p, a), t, u)
  {
    var q' := InsertAt(q, p, a);
    if p <= i {
      assert q'[i + 1] == t;
      forall j | 0 <= j < i + 1 ensures q'[j] != u {
        assert j < p ==> q'[j] == q[..i][j];
        assert j > p ==> q'[j] == q[..i][j - 1];
      }
    } else {
      assert q'[i] == t;
      assert q'[..i] == q[..i];
    }
  }

  lemma JoinKeepsBefore(prio: map<Tid, nat>, q: seq<Tid>, a: Tid, t: Tid, u: Tid)
    requires Before(q, t, u) && ByPriority(prio, q) && a !in q && Get(prio, t) <= Get(prio, u)
    ensures Before(InsertAt(q, InsertPos(prio, q, Get(prio, a)), a), t, u)
  {
    hide InsertAt;
    var p := InsertPos(prio, q, Get(prio, a));
    var i :| 0 <= i < |q| && q[i] == t && u !in q[..i];
    if p <= i {
      assert Get(prio, a) < Get(prio, q[p]) <= Get(prio, q[i]);
    }
    InsertKeepsBefore(q, p, a, t, u, i);
  }

  lemma RemoveKeepsBefore(q: seq<Tid>, j: nat, t: Tid, u: Tid)
    requires Before(q, t, u) && j < |q| && t in RemoveAt(q, j) && NoDup(q)
    ensures Before(RemoveAt(q, j), t, u)
  {
    var i :| 0 <= i < |q| && q[i] == t && u !in q[..i];
    var q' := RemoveAt(q, j);
    RemoveAtElements(q, j);
    if j < i {
      assert q'[i - 1] == t;
      assert q'[..i - 1] == q[..j] + q[j + 1..i];
      assert u !in q[..j] && u !in q[j + 1..i];
    } else {
      assert j != i;
      assert q'[i] == t;
      assert q'[..i] == q[..i];
    }
  }

  /** No move lets `u` pass `t` while `t` waits and has at least the priority of `u`. */
  lemma MoveKeepsBefore(mv: Move, prio: map<Tid, nat>, q: seq<Tid>, h: set<Tid>, q': seq<Tid>, h': set<Tid>, t: Tid, u: Tid)
    requires IsMove(mv, prio, q, h, q', h') && t != u && u !in h && Before(q, t, u) && t in q'
    requires NoDup(q) && ByPriority(prio, q) && Get(prio, t) <= Get(prio, u)
    ensures u !in h' && Before(q', t, u)
  {
    hide NoDup, ByPriority;
    match mv
    case Stays =>
    case Taken(_) =>
    case Dropped =>
    case Handed =>
      assert q' == RemoveAt(q, 0);
      RemoveKeepsBefore(q, 0, t, u);
      FirstIsNot(q, t, u);
    case Joined(a) => JoinKeepsBefore(prio, q, a, t, u);
    case Left(i) => RemoveKeepsBefore(q, i, t, u);
  }

  lemma FirstIsNot(q: seq<Tid>, t: Tid, u: Tid)
    requires Before(q, t, u) && t != u
    ensures q != [] && q[0] != u
  {
    var i :| 0 <= i < |q| && q[i] == t && u !in q[..i];
    assert i > 0 ==> q[0] in q[..i];
  }

  /** Throughout the run `t` waits for `m`, and `u` never has a higher priority than `t`. */
  predicate WaitsThroughout(s: State, es: seq<Event>, t: Tid, u: Tid, m: nat)
    decreases |es|
  {
    && t in Waiters(s, m) && Pr(s.k, t) <= Pr(s.k, u)
    && (es == [] || WaitsThroughout(Step(s, es[0]), es[1..], t, u, m))
  }

  lemma WaitListShape(s: State, id: ListId)
    requires KernelInv(s) && !id.Run?
    ensures NoDup(L(s.k.q, id)) && ByPriority(s.k.prio, L(s.k.q, id))
  {
    hide MutexOk, FlagSpec.FlagInv, MsgSpec.MsgInv, MboxSpec.MboxInv, MsgSteps.Tabled, Act, MatchOk, BitsOk;
    var q := L(s.k.q, id);
    assert id in s.k.q.lists ==> Sorted(s.k.prio, s.k.q.ticket, q);
    forall i, j | 0 <= i < j < |q| ensures Get(s.k.prio, q[i]) <= Get(s.k.prio, q[j]) {
      assert Ahead(s.k.prio, s.k.q.ticket, q[i], q[j]);
    }
  }

  /**
    A waiter is overtaken only by threads of strictly higher priority: as long as `t` waits,
    no thread that was not ahead of it and has the same or a lower priority gets the mutex.
  */
  lemma {:induction false} NeverOvertaken(s: State, es: seq<Event>, t: Tid, u: Tid, m: nat)
    requires KernelInv(s) && Valid(s, es) && WaitsThroughout(s, es, t, u, m) && t != u
    requires (u, m) !in s.mx.holds && Before(Waiters(s, m), t, u)
    ensures (u, m) !in After(s, es).mx.holds && Before(Waiters(After(s, es), m), t, u)
    decreases |es|
  {
    hide KernelInv, Enabled, Step, Sorts, Before, IsMove, Holders, NoDup, ByPriority;
    if es != [] {
      var s1 := Step(s, es[0]);
      StepKeeps(s, es[0]);
      var mv := MutexTransition(s, es[0], m);
      WaitListShape(s, MutexQ(m));
      IsHolder(s.mx.holds, u, m);
      IsHolder(s1.mx.holds, u, m);
      MoveKeepsBefore(mv, s.k.prio, Waiters(s, m), Holders(s.mx.holds, m), Waiters(s1, m), Holders(s1.mx.holds, m), t, u);
      NeverOvertaken(s1, es[1..], t, u, m);
    }
  }

  lemma IsHolder(holds: set<(Tid, nat)>, u: Tid, m: nat)
    ensures u in Holders(holds, m) <==> (u, m) in holds
  {
    assert (u, m) in holds ==> (u, m).0 in Holders(holds, m);
  }
}
