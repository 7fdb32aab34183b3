/**
  Which thread runs. Every critical section that makes a thread runnable, or takes the
  running thread off its run queue, leaves a reschedule owed: a `thread_yield_higher`, a
  `sched_switch`, or the context switch request served at the end of an interrupt. `Act`
  is the invariant behind that, and `Quiescent` what it means once nothing is owed.
*/
module Reschedule {
  import opened Wrappers
  import opened Queues
  import opened Sched

  predicate Yielding(o: Owe) {
    o.YieldHigher? || o.YieldRotate?
  }

  /** The head of its own run queue, so that popping that queue removes `a`. */
  predicate IsHead(k: Sched, a: Tid) {
    OnRunqueue(St(k, a)) && L(k.q, Run(Pr(k, a))) != [] && L(k.q, Run(Pr(k, a)))[0] == a
  }

  /** An active thread that left its run queue, or was already put back, is on its way into `sched_run`. */
  predicate LeavesIfBlocked(k: Sched, a: Tid) {
    || St(k, a).Running?
    || Yielding(Ow(k, a))
    || (Ow(k, a).IfRequested? && (St(k, a).ReplyBlocked? || k.cpu.request))
  }

  predicate HeadOrOwed(k: Sched, a: Tid) {
    || !OnRunqueue(St(k, a))
    || k.cpu.request
    || Yielding(Ow(k, a))
    || (Ow(k, a).PrioYield? && Ow(k, a).thread == a)
    || IsHead(k, a)
  }

  /** `sched_run` will be entered before `a` returns to its own code. */
  predicate Owed(k: Sched, a: Tid) {
    || k.cpu.request
    || match Ow(k, a)
       case YieldHigher => true
       case YieldRotate => true
       case Switch(p) => p < Pr(k, a)
       case IfRequested => St(k, a).ReplyBlocked?
       case PrioYield(t, p) => t == a || (p < Pr(k, a) && OnRunqueue(St(k, t)))
       case Nothing => false
  }

  ghost predicate Top(k: Sched, a: Tid) {
    forall p :: p in k.q.bits ==> Pr(k, a) <= p
  }

  predicate RequestOwed(k: Sched, a: Tid) {
    k.cpu.request && !k.cpu.isr ==> Yielding(Ow(k, a)) || Ow(k, a).IfRequested?
  }

  ghost predicate ActiveOk(k: Sched, a: Tid) {
    && LeavesIfBlocked(k, a)
    && HeadOrOwed(k, a)
    && (k.cpu.lazy || Owed(k, a) || Top(k, a))
    && RequestOwed(k, a)
  }

  ghost predicate Act(k: Sched) {
    && (k.cpu.active.None? ==> k.cpu.idle)
    && (k.cpu.active.Some? && !k.cpu.idle ==> ActiveOk(k, k.cpu.active.value))
  }

  /** A thread executes its own code: no interrupt handler, nothing owed. */
  predicate Ready(k: Sched) {
    !k.cpu.isr && !k.cpu.idle && k.cpu.active.Some? && Ow(k, k.cpu.active.value).Nothing?
  }

  /**
    At every point where nothing is owed, the running thread is the head of its run queue
    and no runnable thread has a strictly higher priority, unless a thread was created with
    THREAD_CREATE_WOUT_YIELD since the scheduler last ran.
  */
  lemma Quiescent(k: Sched)
    requires Inv(k) && Act(k) && Ready(k)
    ensures var a := k.cpu.active.value;
      && IsHead(k, a) && St(k, a).Running? && !k.cpu.request
      && (!k.cpu.lazy ==> forall t :: OnRunqueue(St(k, t)) ==> Pr(k, a) <= Pr(k, t))
  {
    var a := k.cpu.active.value;
    forall t | OnRunqueue(St(k, t)) && !k.cpu.lazy ensures Pr(k, a) <= Pr(k, t) {
      RunnableBit(k, t);
    }
  }

  lemma RunnableBit(k: Sched, t: Tid)
    requires Inv(k) && OnRunqueue(St(k, t))
    ensures Pr(k, t) in k.q.bits
  {
    hide Matches, SortedOk;
    StatusMatches(k, t);
  }

  // ---- What a critical section leaves owed ----

  /** In an interrupt handler `sched_switch` and `thread_yield_higher` only set the request. */
  predicate Triggers(k: Sched, o: Owe) {
    match o
    case YieldHigher => true
    case Switch(p) => k.cpu.active.Some? && (!OnRunqueue(St(k, k.cpu.active.value)) || Pr(k, k.cpu.active.value) > p)
    case _ => false
  }

  function Request(k: Sched): Sched {
    k.(cpu := k.cpu.(request := true))
  }

  function Owes(k: Sched, o: Owe): Sched {
    if k.cpu.isr then
      (if Triggers(k, o) then Request(k) else k)
    else if k.cpu.active.Some? then
      k.(owe := k.owe[k.cpu.active.value := o])
    else k
  }

  lemma YieldAct(k: Sched)
    requires k.cpu.active.Some? && Yielding(Ow(k, k.cpu.active.value))
    ensures Act(k)
  {
  }

  /** Threads were appended to run queues, those on queues that were empty at priority `m` or below. */
  ghost predicate Grown(k: Sched, k': Sched, m: nat) {
    && SameRest(k, k')
    && (forall t :: St(k', t) == St(k, t) || (!OnRunqueue(St(k, t)) && OnRunqueue(St(k', t))))
    && (forall p :: L(k.q, Run(p)) <= L(k'.q, Run(p)))
    && (forall p :: p in k'.q.bits && p !in k.q.bits ==> m <= p)
  }

  lemma GrownSwitchAct(k: Sched, k': Sched, m: nat)
    requires Inv(k) && Act(k) && Ready(k) && Grown(k, k', m)
    ensures Act(Owes(k', Switch(m)))
  {
    hide LinksOk, MatchOk;
  }

  /** The same in an interrupt handler. Only `msg_reply_int` wakes a REPLY_BLOCKED thread there, and it always requests. */
  lemma GrownIsrAct(k: Sched, k': Sched, m: nat)
    requires Act(k) && k.cpu.isr && Grown(k, k', m)
    requires k.cpu.active.Some? && St(k, k.cpu.active.value).ReplyBlocked? ==> St(k', k.cpu.active.value).ReplyBlocked?
    ensures Act(Owes(k', Switch(m)))
  {
  }

  lemma RequestIsrAct(k: Sched, k': Sched, m: nat)
    requires Act(k) && k.cpu.isr && Grown(k, k', m)
    ensures Act(Request(k'))
  {
  }

  // ---- The reschedule itself ----

  /** `clist_lpoprpush` */
  function Rotate(n: Links, p: nat): Links {
    var q := L(n, Run(p));
    if q == [] then n else n.(lists := n.lists[Run(p) := q[1..] + [q[0]]])
  }

  /** `thread_yield_higher` in thread context */
  function YieldNow(k: Sched, a: Tid): Sched {
    SchedRun(k.(owe := k.owe[a := Nothing], cpu := k.cpu.(request := true)))
  }

  function Settled(k: Sched, a: Tid): Sched {
    k.(owe := k.owe[a := Nothing])
  }

  /** The active thread carries out what it owes. */
  function Pay(k: Sched, a: Tid): Sched {
    match Ow(k, a)
    case Nothing => k
    case YieldHigher => YieldNow(k, a)
    case YieldRotate => k.(q := if OnRunqueue(St(k, a)) then Rotate(k.q, Pr(k, a)) else k.q, owe := k.owe[a := YieldHigher])
    case Switch(p) => if !OnRunqueue(St(k, a)) || Pr(k, a) > p then YieldNow(k, a) else Settled(k, a)
    case IfRequested => if St(k, a).ReplyBlocked? || k.cpu.request then YieldNow(k, a) else Settled(k, a)
    case PrioYield(t, p) =>
      if t == a || (Pr(k, a) > p && OnRunqueue(St(k, t))) then YieldNow(k, a) else Settled(k, a)
  }

  function IsrEnter(k: Sched): Sched {
    k.(cpu := k.cpu.(isr := true))
  }

  /** At the end of an interrupt a pending request is served, except inside the idle loop. */
  function IsrExit(k: Sched): Sched {
    var k1 := k.(cpu := k.cpu.(isr := false));
    if k.cpu.request && !k.cpu.idle then SchedRun(k1) else k1
  }

  lemma RelistOk(lists: map<ListId, seq<Tid>>, on: map<Tid, ListId>, id: ListId, r: seq<Tid>)
    requires ListsOk(lists, on) && id in lists && NoDup(r)
    requires forall t :: t in r <==> t in lists[id]
    ensures ListsOk(lists[id := r], on)
  {
    hide NoDup;
  }

  lemma RotateElements(q: seq<Tid>)
    requires q != [] && NoDup(q)
    ensures NoDup(q[1..] + [q[0]])
    ensures forall t :: t in q[1..] + [q[0]] <==> t in q
  {
    assert q == [q[0]] + q[1..];
  }

  lemma RotateOk(n: Links, prio: map<Tid, nat>, p: nat)
    requires LinksOk(n, prio)
    ensures LinksOk(Rotate(n, p), prio)
  {
    hide Sorted, NoDup;
    var q := L(n, Run(p));
    if q != [] {
      RotateElements(q);
      RelistOk(n.lists, n.on, Run(p), q[1..] + [q[0]]);
    }
  }

  /** Only the choice of the running thread, run queue order and what is owed may differ. */
  ghost predicate OnlyScheduling(k: Sched, k': Sched) {
    && k'.prio == k.prio && k'.q.on == k.q.on && k'.q.ticket == k.q.ticket
    && SameBlocked(k, k')
    && (forall id: ListId :: !id.Run? ==> L(k'.q, id) == L(k.q, id))
  }

  lemma RunAct(k: Sched)
    requires Inv(k)
    ensures var k' := SchedRun(k);
      Inv(k') && Act(k') && OnlyScheduling(k, k') && k'.owe == k.owe
  {
    hide LinksOk, MatchOk, SchedRun;
    RunOk(k);
  }

  lemma PayOk(k: Sched, a: Tid)
    requires Inv(k) && Act(k) && !k.cpu.isr && !k.cpu.idle && k.cpu.active == Some(a)
    ensures var k' := Pay(k, a);
      Inv(k') && Act(k') && OnlyScheduling(k, k')
  {
    hide LinksOk, MatchOk, SchedRun;
    RotateOk(k.q, k.prio, Pr(k, a));
    RunAct(k.(owe := k.owe[a := Nothing], cpu := k.cpu.(request := true)));
  }

  lemma IsrExitOk(k: Sched)
    requires Inv(k) && Act(k) && k.cpu.isr
    ensures var k' := IsrExit(k);
      Inv(k') && Act(k') && OnlyScheduling(k, k') && k'.owe == k.owe
  {
    hide LinksOk, MatchOk, SchedRun;
    RunAct(k.(cpu := k.cpu.(isr := false)));
  }

  lemma LeastRuns(k: Sched, p: nat)
    requires p in k.q.bits && p < PRIO_LEVELS && (forall q :: q in k.q.bits ==> p <= q) && L(k.q, Run(p)) != []
    ensures SchedRun(k).cpu.active == Some(L(k.q, Run(p))[0]) && SchedRun(k).q == k.q && SchedRun(k).owe == k.owe
  {
    assert HasRunnable(k);
    assert LowestBit(k.q.bits, 0) == p;
  }

  /**
    Threads of equal priority take turns: once `thread_yield` is through, its caller is the last
    of its run queue and the thread that was next in line runs.
  */
  lemma YieldRoundRobin(k: Sched, a: Tid)
    requires Inv(k) && Act(k) && Ready(k) && k.cpu.active == Some(a) && !k.cpu.lazy
    ensures var q, k' := L(k.q, Run(Pr(k, a))), Pay(Pay(Owes(k, YieldRotate), a), a);
      && k'.cpu.active == Some(if |q| > 1 then q[1] else a)
      && L(k'.q, Run(Pr(k, a))) == q[1..] + [a]
      && Ow(k', a).Nothing?
  {
    hide LinksOk, MatchOk, SchedRun;
    CallerCanBlock(k, a);
    RunnableBit(k, a);
    HeadRuns(k, Pr(k, a));
    var k1 := Owes(k, YieldRotate);
    var k2 := Pay(k1, a);
    assert Ow(k1, a) == YieldRotate && Ow(k2, a) == YieldHigher;
    LeastRuns(k2.(owe := k2.owe[a := Nothing], cpu := k2.cpu.(request := true)), Pr(k, a));
  }

  // ---- Blocking and waking as the subsystems use them ----

  /** Thread context with nothing owed, or an interrupt handler. */
  predicate InContext(k: Sched) {
    Ready(k) || k.cpu.isr
  }

  lemma CallerCanBlock(k: Sched, a: Tid)
    requires Act(k) && Ready(k) && k.cpu.active == Some(a)
    ensures IsHead(k, a) && CanBlock(k, a) && !k.cpu.request
    ensures St(k, a) == Running || St(k, a) == Pending
  {
  }

  /** The running thread gives up the CPU. */
  lemma BlockStep(k: Sched, a: Tid, st: Status, wl: Option<ListId>, o: Owe, kinds: set<Kind>, sts: set<Status>)
    requires Inv(k) && CanBlock(k, a) && k.cpu.active == Some(a) && !k.cpu.isr && Yielding(o)
    requires !OnRunqueue(st) && Matches(st, wl, Pr(k, a))
    requires St(k, a) in sts && st in sts && RunKind in kinds && (wl.Some? ==> KindOf(wl.value) in kinds)
    ensures var k' := Owes(Block(k, a, st, wl), o);
      && Inv(k') && Act(k')
      && k'.cpu == k.cpu && k'.owe == k.owe[a := o]
      && k'.status == k.status[a := st]
      && k'.q.on == (if wl.Some? then k.q.on[a := wl.value] else k.q.on - {a})
      && SameLists(k.q, k'.q, {Run(Pr(k, a))} + (if wl.Some? then {wl.value} else {}))
      && (wl.Some? ==>
            L(k'.q, wl.value) == InsertAt(L(k.q, wl.value), InsertPos(k.prio, L(k.q, wl.value), Pr(k, a)), a))
      && Only(k, k', kinds, sts)
  {
    hide LinksOk, MatchOk, Block, CanBlock, Matches;
    BlockOk(k, a, st, wl);
    var k1 := Block(k, a, st, wl);
    YieldAct(Owes(k1, o));
  }

  lemma WakeAtGrows(k: Sched, id: ListId, i: nat)
    requires Inv(k) && !id.Run? && i < |L(k.q, id)|
    ensures Grown(k, WakeAt(k, id, i), Pr(k, L(k.q, id)[i]))
  {
    hide LinksOk, MatchOk, WakeAt;
    WakeAtOk(k, id, i);
  }

  lemma WakeGrows(k: Sched, t: Tid, st: Status)
    requires Inv(k) && t in k.status && t !in k.q.on && OnRunqueue(st)
    ensures Grown(k, SetStatus(k, t, st), Pr(k, t))
  {
    hide LinksOk, MatchOk, SetStatus;
    WakeOk(k, t, st);
    StatusMatches(k, t);
  }

  /** A waiter is taken off its list and made runnable, in thread or interrupt context. */
  lemma WakeStep(k: Sched, id: ListId, i: nat, kinds: set<Kind>, sts: set<Status>)
    requires Inv(k) && Act(k) && InContext(k) && !id.Run? && i < |L(k.q, id)|
    requires Pending in sts && St(k, L(k.q, id)[i]) in sts && !St(k, L(k.q, id)[i]).ReplyBlocked?
    requires RunKind in kinds && KindOf(id) in kinds
    ensures var t, k' := L(k.q, id)[i], Owes(WakeAt(k, id, i), Switch(Pr(k, L(k.q, id)[i])));
      && Inv(k') && Act(k')
      && k'.q == WakeAt(k, id, i).q
      && Only(k, k', kinds, sts)
  {
    hide LinksOk, MatchOk, WakeAt, Act;
    var t, k1 := L(k.q, id)[i], WakeAt(k, id, i);
    WakeAtOk(k, id, i);
    WakeAtGrows(k, id, i);
    if k.cpu.isr {
      GrownIsrAct(k, k1, Pr(k, t));
    } else {
      GrownSwitchAct(k, k1, Pr(k, t));
    }
  }

  ghost predicate SchedOk(k: Sched) {
    Inv(k) && Act(k)
  }

  lemma OwesNothing(k: Sched, kinds: set<Kind>, sts: set<Status>)
    requires SchedOk(k) && InContext(k)
    ensures SchedOk(Owes(k, Nothing)) && Only(k, Owes(k, Nothing), kinds, sts)
  {
    hide LinksOk, MatchOk;
  }

  lemma GrownOwes(k: Sched, k': Sched, m: nat)
    requires SchedOk(k) && InContext(k) && Grown(k, k', m) && Inv(k')
    requires k.cpu.isr && k.cpu.active.Some? && St(k, k.cpu.active.value).ReplyBlocked? ==>
               St(k', k.cpu.active.value).ReplyBlocked?
    ensures var r := Owes(k', Switch(m));
      SchedOk(r) && r.q == k'.q && r.status == k'.status && r.prio == k'.prio
  {
    hide LinksOk, MatchOk, Act, Grown;
    if k.cpu.isr {
      GrownIsrAct(k, k', m);
    } else {
      GrownSwitchAct(k, k', m);
    }
  }

  lemma OnlyOwes(k: Sched, k': Sched, o: Owe, kinds: set<Kind>, sts: set<Status>)
    requires Only(k, k', kinds, sts)
    ensures Only(k, Owes(k', o), kinds, sts)
  {
  }

  lemma StillReply(k: Sched, k': Sched, kinds: set<Kind>, sts: set<Status>, t: Tid)
    requires Only(k, k', kinds, sts) && ReplyBlocked !in sts
    ensures St(k, t).ReplyBlocked? ==> St(k', t).ReplyBlocked?
  {
  }
}
