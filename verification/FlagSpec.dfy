/** Thread flags. */
module FlagSpec {
  import opened Wrappers
  import opened Queues
  import opened Sched
  import opened Reschedule
  import opened KernelState

  const MSG_WAITING: bv16 := 0x8000

  /** `flags & mask` has a bit, or all bits of `mask`. */
  predicate Any(f: bv16, mask: bv16) {
    f & mask != 0
  }

  predicate All(f: bv16, mask: bv16) {
    f & mask == mask
  }

  function With(f: bv16, mask: bv16): bv16 {
    f | mask
  }

  function Without(f: bv16, mask: bv16): bv16 {
    f & !mask
  }

  function Masked(f: bv16, mask: bv16): bv16 {
    f & mask
  }

  // ---- The operations ----

  predicate Wakes(st: Status, f: bv16, w: Wait) {
    var mask := if w.Mask? then w.bits else 0;
    match st
    case FlagBlockedAny => Any(f, mask)
    case FlagBlockedAll => All(f, mask)
    case _ => false
  }

  /** `_thread_flags_wake`, for a thread whose flags are now `f`. */
  function FlagWake(k: Sched, t: Tid, f: bv16, w: Wait): Sched {
    if Wakes(St(k, t), f, w) then Request(SetStatus(k, t, Pending)) else k
  }

  function FlagsSet(s: State, t: Tid, mask: bv16): State {
    var f, w := With(FlagsOf(s.fl, t), mask), WaitOf(s.wait, t);
    s.(fl := s.fl[t := f],
       k := Owes(FlagWake(s.k, t, f, w), if Wakes(St(s.k, t), f, w) then YieldHigher else Nothing),
       ret := NoRet)
  }

  /** `_thread_flags_clear_atomic` */
  function FlagsClear(s: State, a: Tid, mask: bv16): State {
    var f := FlagsOf(s.fl, a);
    s.(fl := s.fl[a := Without(f, Masked(f, mask))], cont := s.cont[a := User], ret := Flags(Masked(f, mask)))
  }

  /** `_thread_flags_wait` */
  function FlagWait(s: State, a: Tid, mask: bv16, st: Status, c: Cont): State {
    s.(wait := s.wait[a := Mask(mask)],
       k := Owes(Block(s.k, a, st, None), YieldHigher),
       cont := s.cont[a := c])
  }

  /** `thread_flags_wait_any` and `thread_flags_wait_one` up to the first yield. */
  function WaitAny(s: State, a: Tid, mask: bv16, one: bool): State {
    var c := if one then ReadOne(mask) else ClearAny(mask);
    if !Any(FlagsOf(s.fl, a), mask) then FlagWait(s, a, mask, FlagBlockedAny, c) else s.(cont := s.cont[a := c])
  }

  function WaitAll(s: State, a: Tid, mask: bv16): State {
    if !All(FlagsOf(s.fl, a), mask) then FlagWait(s, a, mask, FlagBlockedAll, ClearAll(mask))
    else s.(cont := s.cont[a := ClearAll(mask)])
  }

  /** What is left of `v` when all but its least significant set bit are cleared. */
  function LowestFlag(v: bv16): bv16 {
    v & (!v + 1)
  }

  /** The rest of a wait call, once the thread runs again. */
  function FlagReturn(s: State, a: Tid): State {
    match Co(s, a)
    case ClearAny(mask) => FlagsClear(s, a, mask)
    case ReadOne(mask) => s.(cont := s.cont[a := ClearOne(mask, LowestFlag(Masked(FlagsOf(s.fl, a), mask)))])
    case ClearOne(mask, bit) => FlagsClear(s, a, bit)
    case ClearAll(mask) => FlagsClear(s, a, mask)
    case _ => s
  }

  /** A single flag of `mask`. */
  predicate OneOf(bit: bv16, mask: bv16) {
    bit != 0 && bit & mask == bit && bit & (bit - 1) == 0
  }

  // ---- Invariant: no wake-up is missed, and a picked flag is there to be cleared ----

  predicate FlagOk(st: Status, f: bv16, w: Wait, c: Cont) {
    match st
    case FlagBlockedAny => w.Mask? && !Any(f, w.bits) && (c == ClearAny(w.bits) || c == ReadOne(w.bits))
    case FlagBlockedAll => w.Mask? && !All(f, w.bits) && c == ClearAll(w.bits)
    case _ =>
      match c
      case ClearAny(mask) => Any(f, mask)
      case ReadOne(mask) => Any(f, mask)
      case ClearOne(mask, bit) => All(f, bit) && OneOf(bit, mask)
      case ClearAll(mask) => All(f, mask)
      case _ => true
  }

  function StatusOf(status: map<Tid, Status>, t: Tid): Status {
    if t in status then status[t] else Stopped
  }

  ghost predicate FlagsOk(status: map<Tid, Status>, fl: map<Tid, bv16>, wait: map<Tid, Wait>, cont: map<Tid, Cont>) {
    && (forall t :: t in cont ==> FlagOk(StatusOf(status, t), FlagsOf(fl, t), WaitOf(wait, t), cont[t]))
    && (forall t :: t in status && (status[t].FlagBlockedAny? || status[t].FlagBlockedAll?) ==> t in cont)
  }

  const FlagStatuses: set<Status> := {Running, Pending, FlagBlockedAny, FlagBlockedAll}

  lemma MoreFlags(f: bv16, n: bv16, mask: bv16)
    ensures Any(f, mask) ==> Any(With(f, n), mask)
    ensures All(f, mask) ==> All(With(f, n), mask)
  {
  }

  /** Setting flags of `t`, with the wake-up that goes with it. */
  lemma SetFlagsOk(status: map<Tid, Status>, status': map<Tid, Status>, fl: map<Tid, bv16>, wait: map<Tid, Wait>,
                   cont: map<Tid, Cont>, t: Tid, mask: bv16)
    requires FlagsOk(status, fl, wait, cont)
    requires var f := With(FlagsOf(fl, t), mask);
      status' == if Wakes(StatusOf(status, t), f, WaitOf(wait, t)) then status[t := Pending] else status
    ensures FlagsOk(status', fl[t := With(FlagsOf(fl, t), mask)], wait, cont)
  {
    hide Wakes, FlagOk, With;
    var f := FlagsOf(fl, t);
    if t in cont {
      SetFlagOk(StatusOf(status, t), f, mask, WaitOf(wait, t), cont[t]);
    }
  }

  lemma SetFlagOk(st: Status, f: bv16, n: bv16, w: Wait, c: Cont)
    requires FlagOk(st, f, w, c)
    ensures FlagOk(if Wakes(st, With(f, n), w) then Pending else st, With(f, n), w, c)
  {
    hide Any, All, With, OneOf;
    match c
    case ClearAny(mask) => MoreFlags(f, n, mask);
    case ReadOne(mask) => MoreFlags(f, n, mask);
    case ClearOne(mask, bit) => MoreFlags(f, n, bit);
    case ClearAll(mask) => MoreFlags(f, n, mask);
    case _ =>
  }

  // ---- Every operation keeps it ----

  const FlagKinds: set<Kind> := {RunKind}

  /** The scheduler part of setting flags: at most `t` becomes runnable, and then a switch is requested. */
  ghost predicate FlagWoken(k: Sched, k': Sched, t: Tid, woken: bool) {
    && Inv(k') && Only(k, k', FlagKinds, FlagStatuses)
    && (!woken ==> k' == k)
    && (woken ==> k'.cpu == k.cpu.(request := true) && k'.status == k.status[t := Pending])
    && k'.owe == k.owe
    && Grown(k, k'.(cpu := k.cpu), Pr(k, t))
    && (forall u :: u in k.q.on ==> u in k'.q.on && k'.q.on[u] == k.q.on[u])
    && (forall u :: u in k'.q.on && !k'.q.on[u].Run? ==> u in k.q.on && k'.q.on[u] == k.q.on[u])
  }

  lemma WakesBlocked(k: Sched, t: Tid, f: bv16, w: Wait)
    requires Inv(k) && Wakes(St(k, t), f, w)
    ensures t in k.status && t !in k.q.on && St(k, t) in FlagStatuses && !OnRunqueue(St(k, t))
  {
    hide LinksOk, Any, All;
  }

  lemma FlagWakeOk(k: Sched, t: Tid, f: bv16, w: Wait)
    requires Inv(k)
    ensures FlagWoken(k, FlagWake(k, t, f, w), t, Wakes(St(k, t), f, w))
  {
    hide LinksOk, MatchOk, Wakes, SetStatus, Grown;
    if Wakes(St(k, t), f, w) {
      WakesBlocked(k, t, f, w);
      WakeOk(k, t, Pending);
      WakeGrows(k, t, Pending);
      assert SetStatus(k, t, Pending) == FlagWake(k, t, f, w).(cpu := k.cpu);
    } else {
      FlagSame(k, Pr(k, t));
    }
  }

  lemma FlagSame(k: Sched, m: nat)
    ensures Grown(k, k, m) && Only(k, k, FlagKinds, FlagStatuses) && k.(cpu := k.cpu) == k
  {
  }

  ghost predicate FlagInv(s: State) {
    FlagsOk(s.k.status, s.fl, s.wait, s.cont)
  }

  lemma FlagOwesOk(k: Sched, k1: Sched, t: Tid, woken: bool)
    requires SchedOk(k) && InContext(k) && FlagWoken(k, k1, t, woken)
    ensures var k' := Owes(k1, if woken then YieldHigher else Nothing);
      SchedOk(k') && Only(k, k', FlagKinds, FlagStatuses) && k'.status == k1.status
  {
    hide LinksOk, MatchOk, Act, Only, Grown;
    OnlyOwes(k, k1, if woken then YieldHigher else Nothing, FlagKinds, FlagStatuses);
    if !woken {
      OwesNothing(k, FlagKinds, FlagStatuses);
    } else if k.cpu.isr {
      RequestIsrAct(k, k1.(cpu := k.cpu), Pr(k, t));
      assert Owes(k1, YieldHigher) == Request(k1.(cpu := k.cpu));
    } else {
      YieldAct(Owes(k1, YieldHigher));
    }
  }

  lemma FlagWokenStatus(k: Sched, k': Sched, t: Tid, woken: bool)
    requires FlagWoken(k, k', t, woken)
    ensures k'.status == if woken then k.status[t := Pending] else k.status
  {
    hide Inv, Only, Grown;
  }

  lemma FlagsSetOk(s: State, t: Tid, mask: bv16)
    requires SchedOk(s.k) && FlagInv(s) && InContext(s.k)
    ensures var s' := FlagsSet(s, t, mask);
      SchedOk(s'.k) && FlagInv(s') && Only(s.k, s'.k, FlagKinds, FlagStatuses)
  {
    hide Inv, Act, Wakes, With, FlagWake, Only, FlagWoken, FlagsOk, Owes;
    var f, w := With(FlagsOf(s.fl, t), mask), WaitOf(s.wait, t);
    var woken := Wakes(St(s.k, t), f, w);
    var k1 := FlagWake(s.k, t, f, w);
    var k' := Owes(k1, if woken then YieldHigher else Nothing);
    var s' := s.(fl := s.fl[t := f], k := k', ret := NoRet);
    assert FlagsSet(s, t, mask) == s';
    FlagWakeOk(s.k, t, f, w);
    FlagOwesOk(s.k, k1, t, woken);
    FlagWokenStatus(s.k, k1, t, woken);
    SetFlagsOk(s.k.status, k1.status, s.fl, s.wait, s.cont, t, mask);
  }

  lemma FlagBlockOk(s: State, a: Tid, mask: bv16, st: Status, c: Cont)
    requires SchedOk(s.k) && FlagInv(s) && Calling(s, a)
    requires st == FlagBlockedAny || st == FlagBlockedAll
    requires FlagOk(st, FlagsOf(s.fl, a), Mask(mask), c)
    ensures var s' := FlagWait(s, a, mask, st, c);
      SchedOk(s'.k) && FlagInv(s') && Only(s.k, s'.k, FlagKinds, FlagStatuses)
  {
    hide Inv, Act, Block, Only, FlagOk, FlagsOk, CanBlock, IsHead, SameLists;
    CallerCanBlock(s.k, a);
    BlockStep(s.k, a, st, None, YieldHigher, FlagKinds, FlagStatuses);
    FlagThreadOk(s.k.status, s.fl, s.wait, s.cont, a, st, Mask(mask), c);
  }

  lemma FlagThreadOk(status: map<Tid, Status>, fl: map<Tid, bv16>, wait: map<Tid, Wait>, cont: map<Tid, Cont>,
                     a: Tid, st: Status, w: Wait, c: Cont)
    requires FlagsOk(status, fl, wait, cont) && FlagOk(st, FlagsOf(fl, a), w, c)
    ensures FlagsOk(status[a := st], fl, wait[a := w], cont[a := c])
  {
    hide FlagOk;
  }

  lemma FlagContOk(s: State, a: Tid, c: Cont)
    requires FlagInv(s) && OnRunqueue(St(s.k, a)) && FlagOk(St(s.k, a), FlagsOf(s.fl, a), WaitOf(s.wait, a), c)
    ensures FlagInv(s.(cont := s.cont[a := c]))
  {
    hide FlagOk;
  }

  lemma WaitAnyOk(s: State, a: Tid, mask: bv16, one: bool)
    requires SchedOk(s.k) && FlagInv(s) && Calling(s, a)
    ensures var s' := WaitAny(s, a, mask, one);
      SchedOk(s'.k) && FlagInv(s') && Only(s.k, s'.k, FlagKinds, FlagStatuses)
  {
    hide Inv, Act, FlagsOk, Any, All, FlagWait;
    var c := if one then ReadOne(mask) else ClearAny(mask);
    if !Any(FlagsOf(s.fl, a), mask) {
      FlagBlockOk(s, a, mask, FlagBlockedAny, c);
    } else {
      CallerCanBlock(s.k, a);
      FlagContOk(s, a, c);
    }
  }

  lemma WaitAllOk(s: State, a: Tid, mask: bv16)
    requires SchedOk(s.k) && FlagInv(s) && Calling(s, a)
    ensures var s' := WaitAll(s, a, mask);
      SchedOk(s'.k) && FlagInv(s') && Only(s.k, s'.k, FlagKinds, FlagStatuses)
  {
    hide Inv, Act, FlagsOk, Any, All, FlagWait;
    if !All(FlagsOf(s.fl, a), mask) {
      FlagBlockOk(s, a, mask, FlagBlockedAll, ClearAll(mask));
    } else {
      CallerCanBlock(s.k, a);
      FlagContOk(s, a, ClearAll(mask));
    }
  }

  /** Only the running thread clears flags, and only its own. */
  lemma FlagsClearOk(s: State, a: Tid, mask: bv16)
    requires FlagInv(s) && OnRunqueue(St(s.k, a))
    ensures FlagInv(FlagsClear(s, a, mask))
  {
    hide Any, All, Masked, Without, OneOf;
  }

  /** A single bit of `v`, and `v` has no lower one. */
  predicate IsLowestOf(b: bv16, v: bv16) {
    b != 0 && v & b == b && b & (b - 1) == 0 && v & (b - 1) == 0
  }

  lemma LowestFlagIsLowest(v: bv16)
    requires v != 0
    ensures IsLowestOf(LowestFlag(v), v)
  {
  }

  lemma LowestIsSet(v: bv16)
    ensures v != 0 ==> All(v, LowestFlag(v))
  {
  }

  lemma AllOfMasked(f: bv16, mask: bv16, b: bv16)
    ensures All(Masked(f, mask), b) ==> All(f, b)
  {
  }

  lemma LowestOneOf(b: bv16, f: bv16, mask: bv16)
    requires IsLowestOf(b, Masked(f, mask))
    ensures OneOf(b, mask)
  {
  }

  lemma LowestFlagOk(f: bv16, mask: bv16)
    requires Any(f, mask)
    ensures All(f, LowestFlag(Masked(f, mask))) && OneOf(LowestFlag(Masked(f, mask)), mask)
  {
    hide LowestFlag, Any, All, Masked, OneOf, IsLowestOf;
    AllMasked(f, mask);
    LowestFlagIsLowest(Masked(f, mask));
    LowestOneOf(LowestFlag(Masked(f, mask)), f, mask);
    LowestIsSet(Masked(f, mask));
    AllOfMasked(f, mask, LowestFlag(Masked(f, mask)));
  }

  lemma FlagReturnOk(s: State, a: Tid)
    requires SchedOk(s.k) && FlagInv(s) && Calling(s, a)
    ensures FlagInv(FlagReturn(s, a))
  {
    hide Inv, Act, Any, All, Masked, LowestFlag, FlagsClear, OneOf;
    CallerCanBlock(s.k, a);
    match Co(s, a)
    case ClearAny(mask) => FlagsClearOk(s, a, mask);
    case ReadOne(mask) =>
      LowestFlagOk(FlagsOf(s.fl, a), mask);
      FlagContOk(s, a, ClearOne(mask, LowestFlag(Masked(FlagsOf(s.fl, a), mask))));
    case ClearOne(mask, bit) => FlagsClearOk(s, a, bit);
    case ClearAll(mask) => FlagsClearOk(s, a, mask);
    case _ =>
  }

  lemma AllMasked(f: bv16, mask: bv16)
    ensures All(f, mask) ==> Masked(f, mask) == mask
    ensures Any(f, mask) <==> Masked(f, mask) != 0
  {
  }

  /**
    What the wait calls return: `thread_flags_wait_all` exactly its mask, `thread_flags_wait_any`
    the masked flags, of which there is at least one, and `thread_flags_wait_one` the single
    flag of its mask that it picked, the lowest masked one when it looked.
  */
  lemma FlagReturnValue(s: State, a: Tid)
    requires SchedOk(s.k) && FlagInv(s) && Calling(s, a)
    ensures var ret, f := FlagReturn(s, a).ret, FlagsOf(s.fl, a);
      && (Co(s, a).ClearAll? ==> ret == Flags(Co(s, a).mask))
      && (Co(s, a).ClearAny? ==> ret == Flags(Masked(f, Co(s, a).mask)) && Masked(f, Co(s, a).mask) != 0)
      && (Co(s, a).ClearOne? ==> ret == Flags(Co(s, a).bit) && OneOf(Co(s, a).bit, Co(s, a).mask))
      && (Co(s, a).ReadOne? ==>
            var c := Co(FlagReturn(s, a), a);
            c.ClearOne? && IsLowestOf(c.bit, Masked(f, Co(s, a).mask)))
  {
    hide Inv, Act, Any, All, Masked, LowestFlag, Without, IsLowestOf, OneOf;
    CallerCanBlock(s.k, a);
    match Co(s, a)
    case ClearAny(mask) => AllMasked(FlagsOf(s.fl, a), mask);
    case ReadOne(mask) =>
      AllMasked(FlagsOf(s.fl, a), mask);
      LowestFlagIsLowest(Masked(FlagsOf(s.fl, a), mask));
    case ClearOne(mask, bit) => AllMasked(FlagsOf(s.fl, a), bit);
    case ClearAll(mask) => AllMasked(FlagsOf(s.fl, a), mask);
    case _ =>
  }
}
