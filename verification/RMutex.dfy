/**
  Recursive mutexes, one memory access at a time. The inner mutex is used only through what
  `MutexRuns` proves about it: it is taken only while free, and an unlock with waiters hands
  it to one of them. Which one is left open here.
*/
module RMutex {
  import opened Wrappers

  /** Where a thread is in `_lock` or `rmutex_unlock`; `try` tells `rmutex_trylock` apart. */
  datatype Pc =
    | Outside
    | TryInner(try: bool)
    | ReadOwner(try: bool)
    | LockInner
    | Waiting
    | WriteOwner
    | LoadCount
    | StoreCount(v: nat)
    | DropLoad
    | DropStore(v: nat)
    | TestCount
    | ClearOwner
    | UnlockInner

  const UNDEF: nat := 0
  const COUNT_RANGE: nat := 0x1_0000

  /**
    `owner` and `refcount` are the fields of the rmutex and `holder` is who has the inner
    mutex. `depth` counts the lock calls of a thread that have not been undone and `ret` is
    what its last call of `_lock` returned; they only record history.
  */
  datatype RState = RState(
    holder: Option<nat>,
    owner: nat,
    refcount: nat,
    pc: map<nat, Pc>,
    depth: map<nat, nat>,
    ret: map<nat, nat>)

  function PcOf(s: RState, t: nat): Pc {
    if t in s.pc then s.pc[t] else Outside
  }

  function DepthOf(s: RState, t: nat): nat {
    if t in s.depth then s.depth[t] else 0
  }

  function RetOf(s: RState, t: nat): Option<nat> {
    if t in s.ret then Some(s.ret[t]) else None
  }

  function Goto(s: RState, t: nat, pc: Pc): RState {
    s.(pc := s.pc[t := pc])
  }

  /** What a thread outside calls next, or the waiter an unlock hands the inner mutex to. */
  datatype Choice = CallLock | CallTryLock | CallUnlock | HandTo(w: nat) | NoChoice

  predicate AnyWaiting(s: RState) {
    exists w :: w in s.pc && s.pc[w].Waiting?
  }

  /** The next memory access or inner call of `t`. */
  function Step(s: RState, t: nat, c: Choice): RState {
    match PcOf(s, t)
    case Outside =>
      (match c
       case CallLock => Goto(s, t, TryInner(false))
       case CallTryLock => Goto(s, t, TryInner(true))
       case CallUnlock => Goto(s, t, DropLoad)
       case _ => s)
    case TryInner(try) =>
      if s.holder.None? then Goto(s, t, WriteOwner).(holder := Some(t)) else Goto(s, t, ReadOwner(try))
    case ReadOwner(try) =>
      if s.owner == t then Goto(s, t, WriteOwner)
      else if try then Goto(s, t, Outside).(ret := s.ret[t := 0])
      else Goto(s, t, LockInner)
    case LockInner => if s.holder.None? then Goto(s, t, WriteOwner).(holder := Some(t)) else Goto(s, t, Waiting)
    case Waiting => s
    case WriteOwner => Goto(s, t, LoadCount).(owner := t)
    case LoadCount => Goto(s, t, StoreCount(s.refcount))
    case StoreCount(v) =>
      Goto(s, t, Outside).(refcount := (v + 1) % COUNT_RANGE,
                           depth := s.depth[t := DepthOf(s, t) + 1],
                           ret := s.ret[t := 1])
    case DropLoad => Goto(s, t, DropStore(s.refcount))
    case DropStore(v) =>
      Goto(s, t, TestCount).(refcount := (v + COUNT_RANGE - 1) % COUNT_RANGE,
                             depth := s.depth[t := if DepthOf(s, t) > 0 then DepthOf(s, t) - 1 else 0])
    case TestCount => Goto(s, t, if s.refcount == 0 then ClearOwner else Outside)
    case ClearOwner => Goto(s, t, UnlockInner).(owner := UNDEF)
    case UnlockInner =>
      if c.HandTo? && PcOf(s, c.w).Waiting? then Goto(Goto(s, t, Outside), c.w, WriteOwner).(holder := Some(c.w))
      else Goto(s, t, Outside).(holder := None)
  }

  /**
    Threads have pids; `rmutex_unlock` asserts that its caller owns the mutex; and the inner
    unlock hands the mutex over whenever somebody waits.
  */
  predicate Enabled(s: RState, t: nat, c: Choice) {
    && t != UNDEF && !PcOf(s, t).Waiting?
    && (PcOf(s, t).Outside? && c.CallUnlock? ==> s.owner == t && s.refcount > 0)
    && (PcOf(s, t).UnlockInner? ==> (AnyWaiting(s) <==> c.HandTo? && c.w in s.pc && s.pc[c.w].Waiting?))
  }

  /** The step would count past the range of `refcount`. */
  predicate Wraps(s: RState, t: nat) {
    PcOf(s, t).StoreCount? && PcOf(s, t).v + 1 == COUNT_RANGE
  }

  // ---- Invariant ----

  /** What the holder of the inner mutex can rely on, wherever it is. */
  predicate HolderOk(owner: nat, refcount: nat, t: nat, pc: Pc, depth: nat) {
    && refcount < COUNT_RANGE
    && match pc
       case Outside => owner == t && refcount == depth > 0
       case TryInner(_) => owner == t && refcount == depth > 0
       case ReadOwner(_) => owner == t && refcount == depth > 0
       case LockInner => false
       case Waiting => false
       case WriteOwner => refcount == depth && owner == (if depth > 0 then t else UNDEF)
       case LoadCount => owner == t && refcount == depth
       case StoreCount(v) => owner == t && refcount == depth == v
       case DropLoad => owner == t && refcount == depth > 0
       case DropStore(v) => owner == t && refcount == depth == v && v > 0
       case TestCount => owner == t && refcount == depth
       case ClearOwner => owner == t && refcount == depth == 0
       case UnlockInner => owner == UNDEF && refcount == depth == 0
  }

  /** A thread without the inner mutex is on its way to it or outside, and holds nothing. */
  predicate OtherOk(pc: Pc, depth: nat) {
    depth == 0 && (pc.Outside? || pc.TryInner? || pc.ReadOwner? || pc.LockInner? || pc.Waiting?)
  }

  ghost predicate RInv(s: RState) {
    && PcOf(s, UNDEF).Outside?
    && (forall t: nat :: s.holder != Some(t) ==> OtherOk(PcOf(s, t), DepthOf(s, t)))
    && (s.holder.Some? ==> HolderKnows(s, s.holder.value))
    && (s.holder.None? ==> s.owner == UNDEF && s.refcount == 0 && !AnyWaiting(s))
  }

  predicate HolderKnows(s: RState, t: nat) {
    t != UNDEF && HolderOk(s.owner, s.refcount, t, PcOf(s, t), DepthOf(s, t))
  }

  lemma StepOthers(s: RState, t: nat, c: Choice, u: nat)
    requires u != t && !(PcOf(s, t).UnlockInner? && c == HandTo(u) && PcOf(s, u).Waiting?)
    ensures PcOf(Step(s, t, c), u) == PcOf(s, u) && DepthOf(Step(s, t, c), u) == DepthOf(s, u)
  {
  }

  /** The step of a thread that has the inner mutex and keeps it. */
  lemma HolderStep(s: RState, t: nat, c: Choice)
    requires RInv(s) && Enabled(s, t, c) && s.holder == Some(t) && !Wraps(s, t) && !PcOf(s, t).UnlockInner?
    ensures RInv(Step(s, t, c))
  {
    hide OtherOk;
    var s' := Step(s, t, c);
    HolderNext(s, t, c);
    forall u: nat | u != t ensures OtherOk(PcOf(s', u), DepthOf(s', u)) {
      StepOthers(s, t, c, u);
    }
    StepOthers(s, t, c, UNDEF);
  }

  lemma HolderNext(s: RState, t: nat, c: Choice)
    requires HolderKnows(s, t) && Enabled(s, t, c) && s.holder == Some(t) && !Wraps(s, t) && !PcOf(s, t).UnlockInner?
    ensures Step(s, t, c).holder == Some(t) && HolderKnows(Step(s, t, c), t)
  {
  }

  /** The holder lets go: the mutex is free, or the chosen waiter has it. */
  lemma UnlockStep(s: RState, t: nat, c: Choice)
    requires RInv(s) && Enabled(s, t, c) && s.holder == Some(t) && PcOf(s, t).UnlockInner?
    ensures RInv(Step(s, t, c))
  {
    var s' := Step(s, t, c);
    forall u: nat | s'.holder != Some(u) ensures OtherOk(PcOf(s', u), DepthOf(s', u)) {
      if u != t {
        StepOthers(s, t, c, u);
        assert OtherOk(PcOf(s, u), DepthOf(s, u));
      }
    }
    if c.HandTo? && PcOf(s, c.w).Waiting? {
      assert OtherOk(PcOf(s, c.w), DepthOf(s, c.w));
    }
    NoNewWaiter(s, t, c);
  }

  lemma NoNewWaiter(s: RState, t: nat, c: Choice)
    requires !PcOf(s, t).LockInner? || s.holder.None?
    ensures AnyWaiting(Step(s, t, c)) ==> AnyWaiting(s)
  {
    hide Step;
    var s' := Step(s, t, c);
    if AnyWaiting(s') {
      var w :| w in s'.pc && s'.pc[w].Waiting?;
      WaiterWaited(s, t, c, w);
      assert w in s.pc && s.pc[w].Waiting?;
    }
  }

  lemma WaiterWaited(s: RState, t: nat, c: Choice, w: nat)
    requires !PcOf(s, t).LockInner? || s.holder.None?
    ensures PcOf(Step(s, t, c), w).Waiting? ==> PcOf(s, w).Waiting?
  {
  }

  /** The step of a thread that has not. */
  lemma OtherStep(s: RState, t: nat, c: Choice)
    requires RInv(s) && Enabled(s, t, c) && s.holder != Some(t)
    ensures RInv(Step(s, t, c))
  {
    var s' := Step(s, t, c);
    assert OtherOk(PcOf(s, t), DepthOf(s, t));
    forall u: nat | u != t ensures PcOf(s', u) == PcOf(s, u) && DepthOf(s', u) == DepthOf(s, u) {
      StepOthers(s, t, c, u);
    }
    if s.holder.None? {
      NoNewWaiter(s, t, c);
    }
  }

  /** Every step keeps the invariant, except the increment that wraps `refcount` around: exactly that one breaks it. */
  lemma StepExact(s: RState, t: nat, c: Choice)
    requires RInv(s) && Enabled(s, t, c)
    ensures RInv(Step(s, t, c)) <==> !Wraps(s, t)
  {
    if Wraps(s, t) {
      assert OtherOk(PcOf(s, t), DepthOf(s, t)) || s.holder == Some(t);
      var s' := Step(s, t, c);
      assert s'.holder == Some(t) && s'.refcount == 0 && DepthOf(s', t) == COUNT_RANGE;
    } else if s.holder == Some(t) {
      if PcOf(s, t).UnlockInner? {
        UnlockStep(s, t, c);
      } else {
        HolderStep(s, t, c);
      }
    } else {
      OtherStep(s, t, c);
    }
  }

  // ---- Runs ----

  datatype Event = Event(t: nat, c: Choice)

  const INIT: RState := RState(None, UNDEF, 0, map[], map[], map[])

  /** No thread nests its lock calls 65536 deep. */
  predicate Valid(s: RState, es: seq<Event>)
    decreases |es|
  {
    es == [] || (Enabled(s, es[0].t, es[0].c) && !Wraps(s, es[0].t) && Valid(Step(s, es[0].t, es[0].c), es[1..]))
  }

  function After(s: RState, es: seq<Event>): RState
    decreases |es|
  {
    if es == [] then s else After(Step(s, es[0].t, es[0].c), es[1..])
  }

  lemma {:induction false} RunKeeps(s: RState, es: seq<Event>)
    requires RInv(s) && Valid(s, es)
    ensures RInv(After(s, es))
    decreases |es|
  {
    hide RInv, Enabled, Step, Wraps;
    if es != [] {
      StepExact(s, es[0].t, es[0].c);
      RunKeeps(Step(s, es[0].t, es[0].c), es[1..]);
    }
  }

  /** A thread between the return of a lock call and the matching unlock, or past the inner lock. */
  predicate Inside(s: RState, t: nat) {
    DepthOf(s, t) > 0 || !OtherOk(PcOf(s, t), 0)
  }

  /**
    For every interleaving: at most one thread is inside; `owner` is a thread's pid only if
    that thread has the inner mutex; between calls `refcount` is the number of lock calls the
    owner has not undone, and both fields are zero when the mutex is free; and a thread that
    holds the mutex never waits for it.
  */
  lemma RecursiveMutex(es: seq<Event>)
    requires Valid(INIT, es)
    ensures var s := After(INIT, es);
      && (forall t: nat, u: nat :: Inside(s, t) && Inside(s, u) ==> t == u)
      && (s.owner != UNDEF ==> s.holder == Some(s.owner))
      && (s.owner != UNDEF && PcOf(s, s.owner).Outside? ==> s.refcount == DepthOf(s, s.owner) > 0)
      && (s.holder.None? ==> s.owner == UNDEF && s.refcount == 0)
      && (forall t: nat :: DepthOf(s, t) > 0 ==> !PcOf(s, t).LockInner? && !PcOf(s, t).Waiting?)
  {
    assert RInv(INIT);
    RunKeeps(INIT, es);
    var s := After(INIT, es);
    forall t: nat | s.holder != Some(t) ensures !Inside(s, t) {
      assert OtherOk(PcOf(s, t), DepthOf(s, t));
    }
    forall t: nat | DepthOf(s, t) > 0 ensures !PcOf(s, t).LockInner? && !PcOf(s, t).Waiting? {
      assert Inside(s, t);
    }
  }

  // ---- What a call has achieved when it returns ----

  /** `t` is inside a call before every step of the run. */
  predicate Busy(s: RState, es: seq<Event>, t: nat)
    decreases |es|
  {
    es == [] || (!PcOf(s, t).Outside? && Busy(Step(s, es[0].t, es[0].c), es[1..], t))
  }

  /** Where a thread in `_lock` can be; only `rmutex_lock` waits. */
  predicate InLock(pc: Pc, try: bool) {
    match pc
    case TryInner(b) => b == try
    case ReadOwner(b) => b == try
    case LockInner => !try
    case Waiting => !try
    case WriteOwner => true
    case LoadCount => true
    case StoreCount(_) => true
    case _ => false
  }

  /** The inner trylock of `t` found the mutex with another thread. */
  predicate Refuses(s: RState, e: Event, t: nat) {
    e.t == t && PcOf(s, t).TryInner? && s.holder.Some? && s.holder.value != t
  }

  predicate RefusedIn(s: RState, es: seq<Event>, t: nat)
    decreases |es|
  {
    es != [] && (Refuses(s, es[0], t) || RefusedIn(Step(s, es[0].t, es[0].c), es[1..], t))
  }

  /** `t` was refused, and is about to look at the owner. */
  predicate Refused(s: RState, t: nat) {
    PcOf(s, t).ReadOwner? && s.holder != Some(t)
  }

  /** A step as a thread in `_lock` sees it: the call goes on, or returns as promised. */
  predicate LockPromise(s: RState, s': RState, t: nat, try: bool, refuses: bool) {
    if !PcOf(s', t).Outside? then
      && InLock(PcOf(s', t), try) && DepthOf(s', t) == DepthOf(s, t)
      && (try ==> (Refused(s', t) <==> Refused(s, t) || refuses))
    else if try && Refused(s, t) then
      RetOf(s', t) == Some(0) && DepthOf(s', t) == DepthOf(s, t) && !refuses
    else
      RetOf(s', t) == Some(1) && DepthOf(s', t) == DepthOf(s, t) + 1 && s'.holder == Some(t) && !refuses
  }

  /** What the invariant says about a thread in `_lock`, and about one that unlocks. */
  lemma LockFacts(s: RState, t: nat)
    requires RInv(s)
    ensures s.owner == t && t != UNDEF ==> s.holder == Some(t)
    ensures PcOf(s, t).ReadOwner? && s.holder == Some(t) ==> s.owner == t
    ensures PcOf(s, t).StoreCount? || PcOf(s, t).UnlockInner? ==> s.holder == Some(t)
  {
    assert s.holder != Some(t) ==> OtherOk(PcOf(s, t), DepthOf(s, t));
  }

  lemma LockStep(s: RState, e: Event, t: nat, try: bool)
    requires RInv(s) && Enabled(s, e.t, e.c) && InLock(PcOf(s, t), try)
    ensures LockPromise(s, Step(s, e.t, e.c), t, try, Refuses(s, e, t))
  {
    hide RInv, Step, LockPromise;
    LockFacts(s, t);
    LockFacts(s, e.t);
    if e.t == t {
      OwnLockStep(s, e.c, t, try);
    } else {
      OtherLockStep(s, e, t, try);
    }
  }

  lemma OwnLockStep(s: RState, c: Choice, t: nat, try: bool)
    requires InLock(PcOf(s, t), try) && Enabled(s, t, c) && (s.owner == t ==> s.holder == Some(t))
    requires PcOf(s, t).ReadOwner? && s.holder == Some(t) ==> s.owner == t
    requires PcOf(s, t).StoreCount? ==> s.holder == Some(t)
    ensures LockPromise(s, Step(s, t, c), t, try, Refuses(s, Event(t, c), t))
  {
    hide AnyWaiting;
  }

  lemma OtherLockStep(s: RState, e: Event, t: nat, try: bool)
    requires InLock(PcOf(s, t), try) && e.t != t && (PcOf(s, e.t).UnlockInner? ==> s.holder == Some(e.t))
    ensures LockPromise(s, Step(s, e.t, e.c), t, try, Refuses(s, e, t))
  {
    hide Step;
    OtherSeen(s, e, t);
  }

  lemma OtherSeen(s: RState, e: Event, t: nat)
    requires e.t != t && (PcOf(s, e.t).UnlockInner? ==> s.holder == Some(e.t))
    ensures var s' := Step(s, e.t, e.c);
      && PcOf(s', t) == (if PcOf(s, e.t).UnlockInner? && e.c == HandTo(t) && PcOf(s, t).Waiting? then WriteOwner else PcOf(s, t))
      && DepthOf(s', t) == DepthOf(s, t)
      && (!PcOf(s, t).Waiting? ==> (s'.holder == Some(t) <==> s.holder == Some(t)))
  {
  }

  /** A call of `_lock` under way, followed to its return. */
  lemma {:induction false} LockRun(s: RState, es: seq<Event>, t: nat, try: bool)
    requires RInv(s) && Valid(s, es) && Busy(s, es, t) && InLock(PcOf(s, t), try) && PcOf(After(s, es), t).Outside?
    ensures var s' := After(s, es);
      if try && (Refused(s, t) || RefusedIn(s, es, t)) then RetOf(s', t) == Some(0) && DepthOf(s', t) == DepthOf(s, t)
      else RetOf(s', t) == Some(1) && DepthOf(s', t) == DepthOf(s, t) + 1 && s'.holder == Some(t)
    decreases |es|
  {
    hide RInv, Enabled, Step, Wraps, Refused, Refuses;
    var s1 := Step(s, es[0].t, es[0].c);
    StepExact(s, es[0].t, es[0].c);
    LockStep(s, es[0], t, try);
    if PcOf(s1, t).Outside? {
      assert es[1..] == [] && After(s, es) == s1 && !RefusedIn(s1, es[1..], t);
    } else {
      LockRun(s1, es[1..], t, try);
    }
  }

  /**
    Every call, over every interleaving: `rmutex_lock` comes back only with the mutex, one
    level deeper; `rmutex_trylock` returns 1 with the mutex, one level deeper, or 0 at the same
    level, and 0 exactly if another thread had the inner mutex when it tried.
  */
  lemma LockReturns(es0: seq<Event>, t: nat, try: bool, es: seq<Event>)
    requires Valid(INIT, es0) && PcOf(After(INIT, es0), t).Outside? && Enabled(After(INIT, es0), t, CallOf(try))
    requires var s := Step(After(INIT, es0), t, CallOf(try));
      Valid(s, es) && Busy(s, es, t) && PcOf(After(s, es), t).Outside?
    ensures var s0 := After(INIT, es0);
      var s := Step(s0, t, CallOf(try));
      var s' := After(s, es);
      && (RetOf(s', t) == Some(1) ==> DepthOf(s', t) == DepthOf(s0, t) + 1 && s'.holder == Some(t) && s'.owner == t)
      && (RetOf(s', t) == Some(0) ==> DepthOf(s', t) == DepthOf(s0, t))
      && (if try && RefusedIn(s, es, t) then RetOf(s', t) == Some(0) else RetOf(s', t) == Some(1))
  {
    hide RInv, Enabled, Valid, After, Wraps, Refuses, RefusedIn, Busy;
    assert RInv(INIT) by { InitInv(); }
    RunKeeps(INIT, es0);
    var s0 := After(INIT, es0);
    var s := Step(s0, t, CallOf(try));
    NoWrap(s0, t);
    StepExact(s0, t, CallOf(try));
    Called(s0, t, try);
    LockRun(s, es, t, try);
    RunKeeps(s, es);
    if RetOf(After(s, es), t) == Some(1) {
      BetweenCalls(After(s, es), t);
    }
  }

  lemma NoWrap(s: RState, t: nat)
    requires PcOf(s, t).Outside?
    ensures !Wraps(s, t)
  {
  }

  lemma Called(s: RState, t: nat, try: bool)
    requires PcOf(s, t).Outside?
    ensures var s' := Step(s, t, CallOf(try)); PcOf(s', t) == TryInner(try) && DepthOf(s', t) == DepthOf(s, t)
  {
  }

  function CallOf(try: bool): Choice {
    if try then CallTryLock else CallLock
  }

  lemma InitInv()
    ensures RInv(INIT)
  {
  }

  lemma BetweenCalls(s: RState, t: nat)
    requires RInv(s) && PcOf(s, t).Outside? && s.holder == Some(t)
    ensures s.owner == t
  {
  }

  /** Where a thread in `rmutex_unlock` can be, and how far its level is down already. */
  predicate InUnlock(pc: Pc, depth: nat, d: nat) {
    match pc
    case DropLoad => depth == d
    case DropStore(_) => depth == d
    case TestCount => depth + 1 == d
    case ClearOwner => depth + 1 == d == 1
    case UnlockInner => depth + 1 == d == 1
    case _ => false
  }

  lemma UnlockFacts(s: RState, t: nat, d: nat)
    requires RInv(s) && InUnlock(PcOf(s, t), DepthOf(s, t), d)
    ensures s.holder == Some(t) && (PcOf(s, t).DropStore? || PcOf(s, t).DropLoad? ==> d > 0)
    ensures PcOf(s, t).TestCount? ==> s.refcount == DepthOf(s, t)
  {
    assert s.holder != Some(t) ==> OtherOk(PcOf(s, t), DepthOf(s, t));
  }

  lemma UnlockCallStep(s: RState, e: Event, t: nat, d: nat)
    requires RInv(s) && Enabled(s, e.t, e.c) && InUnlock(PcOf(s, t), DepthOf(s, t), d)
    ensures var s' := Step(s, e.t, e.c);
      if PcOf(s', t).Outside? then DepthOf(s', t) + 1 == d && (s'.holder == Some(t) <==> d > 1)
      else InUnlock(PcOf(s', t), DepthOf(s', t), d)
  {
    hide RInv;
    UnlockFacts(s, t, d);
    LockFacts(s, e.t);
    HandsToAnother(s, t, e.c);
  }

  /** The waiter that gets the mutex is not the thread that unlocks it. */
  lemma HandsToAnother(s: RState, t: nat, c: Choice)
    ensures PcOf(s, t).UnlockInner? && c.HandTo? && PcOf(s, c.w).Waiting? ==> c.w != t
  {
  }

  lemma {:induction false} UnlockRun(s: RState, es: seq<Event>, t: nat, d: nat)
    requires RInv(s) && Valid(s, es) && Busy(s, es, t) && InUnlock(PcOf(s, t), DepthOf(s, t), d) && PcOf(After(s, es), t).Outside?
    ensures var s' := After(s, es); DepthOf(s', t) + 1 == d && (s'.holder == Some(t) <==> d > 1)
    decreases |es|
  {
    hide RInv, Enabled, Step, Wraps;
    var s1 := Step(s, es[0].t, es[0].c);
    StepExact(s, es[0].t, es[0].c);
    UnlockCallStep(s, es[0], t, d);
    if PcOf(s1, t).Outside? {
      assert es[1..] == [];
    } else {
      UnlockRun(s1, es[1..], t, d);
    }
  }

  lemma UnlockCalled(s: RState, t: nat)
    requires RInv(s) && PcOf(s, t).Outside? && Enabled(s, t, CallUnlock)
    ensures DepthOf(s, t) > 0 && InUnlock(PcOf(Step(s, t, CallUnlock), t), DepthOf(Step(s, t, CallUnlock), t), DepthOf(s, t))
  {
    assert s.holder != Some(t) ==> OtherOk(PcOf(s, t), DepthOf(s, t));
  }

  /** `rmutex_unlock` undoes one lock call; the mutex is let go exactly with the last one. */
  lemma UnlockReturns(es0: seq<Event>, t: nat, es: seq<Event>)
    requires Valid(INIT, es0) && PcOf(After(INIT, es0), t).Outside? && Enabled(After(INIT, es0), t, CallUnlock)
    requires var s := Step(After(INIT, es0), t, CallUnlock);
      Valid(s, es) && Busy(s, es, t) && PcOf(After(s, es), t).Outside?
    ensures var s0 := After(INIT, es0);
      var s' := After(Step(s0, t, CallUnlock), es);
      DepthOf(s0, t) > 0 && DepthOf(s', t) == DepthOf(s0, t) - 1 && (s'.holder == Some(t) <==> DepthOf(s', t) > 0)
  {
    hide RInv, Enabled, Valid, After, Wraps, Busy;
    assert RInv(INIT) by { InitInv(); }
    RunKeeps(INIT, es0);
    var s0 := After(INIT, es0);
    NoWrap(s0, t);
    StepExact(s0, t, CallUnlock);
    UnlockCalled(s0, t);
    UnlockRun(Step(s0, t, CallUnlock), es, t, DepthOf(s0, t));
  }

  // ---- Nested lock calls ----

  lemma {:induction false} Append(s: RState, es: seq<Event>, e: Event)
    requires Valid(s, es) && Enabled(After(s, es), e.t, e.c) && !Wraps(After(s, es), e.t)
    ensures Valid(s, es + [e]) && After(s, es + [e]) == Step(After(s, es), e.t, e.c)
    decreases |es|
  {
    hide Enabled, Step, Wraps;
    if es == [] {
      assert (es + [e])[0] == e && (es + [e])[1..] == [];
    } else {
      assert (es + [e])[0] == es[0] && (es + [e])[1..] == es[1..] + [e];
      Append(Step(s, es[0].t, es[0].c), es[1..], e);
    }
  }

  /** Only `t` has called anything, `n` lock calls are not undone, and it is at `pc`. */
  predicate Alone(s: RState, t: nat, n: nat, pc: Pc) {
    && t != UNDEF && s.refcount == DepthOf(s, t) == n && PcOf(s, t) == pc
    && (n > 0 ==> s.holder == Some(t) && s.owner == t)
    && (n == 0 && (pc.Outside? || pc.TryInner?) ==> s.holder.None?)
    && (pc.WriteOwner? || pc.LoadCount? || pc.StoreCount? ==> s.holder == Some(t))
    && (pc.LoadCount? || pc.StoreCount? ==> s.owner == t)
  }

  /** The remaining steps of a lock call up to its last. */
  function ToStore(n: nat, pc: Pc): nat {
    match pc
    case Outside => if n == 0 then 4 else 5
    case TryInner(_) => if n == 0 then 3 else 4
    case ReadOwner(_) => 3
    case WriteOwner => 2
    case LoadCount => 1
    case _ => 0
  }

  /** A lock call goes through until it is about to store the count. */
  lemma {:induction false} GoesThrough(es: seq<Event>, t: nat, n: nat, pc: Pc) returns (es': seq<Event>)
    requires Valid(INIT, es) && Alone(After(INIT, es), t, n, pc)
    requires pc.Outside? || pc == TryInner(false) || (pc == ReadOwner(false) && n > 0) || pc.WriteOwner? || pc.LoadCount? || pc == StoreCount(n)
    ensures Valid(INIT, es') && Alone(After(INIT, es'), t, n, StoreCount(n))
    decreases ToStore(n, pc)
  {
    hide Valid, After;
    if pc.StoreCount? {
      es' := es;
    } else {
      var e := Event(t, if pc.Outside? then CallLock else NoChoice);
      Append(INIT, es, e);
      es' := GoesThrough(es + [e], t, n, PcOf(After(INIT, es + [e]), t));
    }
  }

  /** Some run brings a thread to its call number `n + 1`, about to store the new count. */
  lemma {:induction false} Nested(t: nat, n: nat) returns (es: seq<Event>)
    requires t != UNDEF && n < COUNT_RANGE
    ensures Valid(INIT, es) && Alone(After(INIT, es), t, n, StoreCount(n))
    decreases n
  {
    hide Valid, After;
    if n == 0 {
      Begin();
      es := GoesThrough([], t, 0, Outside);
    } else {
      es := Nested(t, n - 1);
      Append(INIT, es, Event(t, NoChoice));
      es := GoesThrough(es + [Event(t, NoChoice)], t, n, Outside);
    }
  }

  lemma Begin()
    ensures Valid(INIT, []) && After(INIT, []) == INIT
  {
  }

  /** A thread can nest its calls 65535 deep; one more makes `refcount` zero while it owns the mutex. */
  lemma CountWraps(t: nat) returns (es: seq<Event>)
    requires t != UNDEF
    ensures Valid(INIT, es) && Enabled(After(INIT, es), t, NoChoice)
    ensures var s := Step(After(INIT, es), t, NoChoice); s.refcount == 0 && s.owner == t && DepthOf(s, t) == COUNT_RANGE
  {
    hide Valid, After;
    es := Nested(t, COUNT_RANGE - 1);
  }
}
