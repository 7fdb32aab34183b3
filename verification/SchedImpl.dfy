/**
  The scheduler's global state and the routines that update it in place. The lists exist only
  as pointers in `next`; `lists` says which threads they lead through. Each routine is proved
  to compute the step that the specification modules define.
*/
module SchedImpl {
  import opened Wrappers
  import opened Queues
  import opened Sched
  import opened Reschedule
  import opened ListMemory
  import ThreadSpec
  import Bits
  import S = Sched
  import R = Reschedule

  /** The lowest member is the one that the linear scan finds. */
  lemma LeastIsScan(bits: set<nat>, p: nat)
    requires Bits.IsLeast(bits, p) && p < PRIO_LEVELS
    ensures LowestBit(bits, 0) == p
  {
  }

  class Scheduler {
    // `lists` and `on` describe the pointers; `ticket`, `clock` and `lazy` only record history.
    // `clz` is whether the processor counts leading zeros, which reverses the bit cache.
    const clz: bool
    var next: Memory
    var bitcache: bv32
    var status: map<Tid, Status>
    var prio: map<Tid, nat>
    var owe: map<Tid, Owe>
    var active: Option<Tid>
    var request: bool
    var isr: bool
    var idle: bool
    ghost var lazy: bool
    ghost var lists: map<ListId, seq<Tid>>
    ghost var on: map<Tid, ListId>
    ghost var ticket: map<Tid, nat>
    ghost var clock: nat

    ghost function K(): Sched
      reads `lists, `on, `bitcache, `ticket, `clock, `status, `prio, `owe, `active, `request, `isr, `idle, `lazy
    {
      Sched(Links(lists, on, Bits.QueuesOf(bitcache, clz), ticket, clock), status, prio, owe, Cpu(active, request, isr, idle, lazy))
    }

    /** One thread, which has just been scheduled */
    constructor (t: Tid, p: nat, clz: bool)
      requires p < PRIO_LEVELS
      ensures this.clz == clz && Intact()
      ensures K() == Sched(Links(map[Run(p) := [t]], map[t := Run(p)], {p}, map[], 1),
                           map[t := Running], map[t := p], map[], Cpu(Some(t), false, false, false, false))
    {
      next := map[Root(Run(p)) := Node(t), Node(t) := Node(t)];
      lists, on, ticket, clock := map[Run(p) := [t]], map[t := Run(p)], map[], 1;
      this.clz := clz;
      bitcache := Bits.With(0, Bits.QueueBit(p, clz));
      status, prio, owe := map[t := Running], map[t := p], map[];
      active, request, isr, idle, lazy := Some(t), false, false, false, false;
      new;
      hide ListMemory.Intact;
      OneThread(t, p);
      Bits.NoQueues(0, clz);
      Bits.SetQueue(0, p, clz);
      assert Bits.QueuesOf(bitcache, clz) == {p};
    }

    /** Every node is on at most one list, and the pointers lead through the lists. */
    ghost predicate Intact()
      reads `next, `lists, `on
    {
      ListMemory.Intact(next, lists, on)
    }

    /** So it is, unless some node was linked twice. */
    ghost predicate Sound()
      reads `next, `lists, `on
    {
      ListMemory.Sound(next, lists, on)
    }

    lemma IntactSound()
      requires Intact()
      ensures Sound()
    {
    }

    /** Priorities are below the number of run queues. */
    ghost predicate PrioValid()
      reads `prio
    {
      PrioOk(prio)
    }

    ghost function List(id: ListId): seq<Tid>
      reads `lists
    {
      Listed(lists, id)
    }

    /** The pointer stored at `place`, behind which the `i`-th waiter of a list is linked. */
    function Follow(id: ListId, ghost i: nat, place: Ref): (r: Ref)
      requires Intact() && !id.Run? && i <= |List(id)| && place == Place(id, List(id), i)
      reads `next, `lists, `on
      ensures r == if i < |List(id)| then Node(List(id)[i]) else Nil
    {
      WaiterAt(next, lists, on, id, i);
      At(next, place)
    }

    /** The first waiter of a list */
    function First(id: ListId): (r: Ref)
      requires Intact() && !id.Run?
      reads `next, `lists, `on
      ensures r == if List(id) == [] then Nil else Node(List(id)[0])
    {
      Follow(id, 0, Root(id))
    }

    function StatusAt(t: Tid): Status
      reads `status
    {
      if t in status then status[t] else Stopped
    }

    function PrioAt(t: Tid): nat
      reads `prio
    {
      if t in prio then prio[t] else 0
    }

    // ---- sched.c ----

    method RunqueuePush(t: Tid, p: nat)
      requires p < 32 && Sound()
      modifies `next, `lists, `on, `bitcache
      ensures K() == old(K()).(q := S.RunqueuePush(old(K()).q, t, p))
      ensures Sound() && (old(Intact()) && t !in old(on) ==> Intact())
    {
      hide Bits.QueuesOf, Bits.With, Bits.QueueBit, PushMem, ListMemory.Intact, ListMemory.Sound;
      Bits.SetQueue(bitcache, p, clz);
      PushSound(next, K().q, t, p);
      next := PushMem(next, Run(p), t);
      lists := lists[Run(p) := List(Run(p)) + [t]];
      on := on[t := Run(p)];
      bitcache := Bits.With(bitcache, Bits.QueueBit(p, clz));
    }

    method RunqueuePop(t: Tid)
      requires PrioValid() && Intact()
      modifies `next, `lists, `on, `bitcache
      ensures K() == old(K()).(q := S.RunqueuePop(old(K()).q, Pr(old(K()), t))) && Intact()
    {
      hide Bits.QueuesOf, Bits.Without, Bits.With, Bits.QueueBit, ListMemory.Intact;
      var p := PrioAt(t);
      Bits.SetQueue(bitcache, p, clz);
      LeftPop(p);
      RunRoot(next, lists, on, p);
      if At(next, Root(Run(p))) == Nil {
        bitcache := Bits.Without(bitcache, Bits.QueueBit(p, clz));
      }
      PopIs(old(K()).q, p, lists, on, Bits.QueuesOf(bitcache, clz));
    }

    /** `clist_lpop` of a run queue */
    method LeftPop(p: nat)
      requires Intact()
      modifies `next, `lists, `on
      ensures var q := old(List(Run(p)));
        if q == [] then lists == old(lists) && on == old(on)
        else lists == old(lists)[Run(p) := q[1..]] && on == old(on) - {q[0]}
      ensures Intact()
    {
      hide Bits.QueuesOf, PopMem, ListMemory.Intact;
      PopIntact(next, K().q, p);
      ghost var n := S.RunqueuePop(K().q, p);
      next := PopMem(next, Run(p));
      lists, on := n.lists, n.on;
    }

    method SetStatus(t: Tid, st: Status)
      requires PrioValid() && if OnRunqueue(st) then Sound() else Intact()
      modifies `next, `lists, `on, `bitcache, `status
      ensures K() == S.SetStatus(old(K()), t, st)
      ensures Sound() && (old(Intact()) && (OnRunqueue(st) ==> t !in old(on)) ==> Intact())
    {
      hide Bits.QueuesOf, S.RunqueuePush, S.RunqueuePop, Intact, ListMemory.Sound;
      if Intact() {
        IntactSound();
      }
      if OnRunqueue(st) {
        if !OnRunqueue(StatusAt(t)) {
          RunqueuePush(t, PrioAt(t));
        }
      } else {
        if OnRunqueue(StatusAt(t)) {
          RunqueuePop(t);
          IntactSound();
        }
      }
      status := status[t := st];
    }

    /** `_unschedule` */
    method Unschedule()
      modifies `status
      ensures status == S.Unschedule(old(status), active)
    {
      if active.Some? && active.value in status && status[active.value].Running? {
        status := status[active.value := Pending];
      }
    }

    /** `sched_run`, entered once: in the idle loop it is entered again when a thread is runnable. */
    method SchedRun()
      requires Inv(K()) && Intact()
      modifies `status, `active, `request, `idle, `lazy
      ensures K() == S.SchedRun(old(K()))
    {
      hide Bits.QueuesOf, LinksOk, MatchOk, LowestBit, HasRunnable, ListMemory.Intact;
      Runnable(K());
      Bits.NoQueues(bitcache, clz);
      if bitcache == 0 {
        Unschedule();
        idle := true;
        return;
      }
      var nextrq := Bits.NextRunqueue(bitcache, clz);
      HeadRuns(K(), nextrq);
      LeastIsScan(Bits.QueuesOf(bitcache, clz), nextrq);
      RunRoot(next, lists, on, nextrq);
      Dispatch(At(next, At(next, Root(Run(nextrq)))).t);
    }

    method Dispatch(next: Tid)
      modifies `status, `active, `request, `idle, `lazy
      ensures K() == S.Dispatch(old(K()), next)
    {
      hide Bits.QueuesOf;
      request := false;
      status := status[next := Running];
      if active != Some(next) {
        if !idle {
          Unschedule();
        }
        active := Some(next);
      }
      idle := false;
      lazy := false;
    }

    /** `thread_add_to_list` */
    method AddToList(id: ListId, t: Tid)
      requires Intact() && !id.Run?
      modifies `next, `lists, `on, `ticket, `clock
      ensures K() == old(K()).(q := S.AddToList(old(K()).q, prio, id, t)) && Sound()
    {
      hide Bits.QueuesOf, InsertPos, InsertAt, InsertMem, ListMemory.Intact, ListMemory.Sound;
      ghost var q, i := List(id), 0;
      var place := Root(id);
      while Follow(id, i, place) != Nil && PrioAt(Follow(id, i, place).t) <= PrioAt(t)
        invariant i <= |q| && place == Place(id, q, i) && forall j :: 0 <= j < i ==> Get(prio, q[j]) <= Get(prio, t)
        decreases |q| - i
      {
        place := Follow(id, i, place);
        i := i + 1;
      }
      InsertPosIs(prio, q, Get(prio, t), i);
      Link(id, t, i, place);
    }

    /** The first waiter of a list is linked without a search. */
    method LinkFirst(id: ListId, t: Tid)
      requires Intact() && !id.Run? && List(id) == []
      modifies `next, `lists, `on, `ticket, `clock
      ensures K() == old(K()).(q := S.AddToList(old(K()).q, prio, id, t)) && Sound()
    {
      hide Bits.QueuesOf, ListMemory.Intact, ListMemory.Sound;
      Link(id, t, 0, Root(id));
    }

    method Link(id: ListId, t: Tid, ghost i: nat, place: Ref)
      requires Intact() && !id.Run? && i == InsertPos(prio, List(id), Get(prio, t)) && place == Place(id, List(id), i)
      modifies `next, `lists, `on, `ticket, `clock
      ensures K() == old(K()).(q := S.AddToList(old(K()).q, prio, id, t)) && Sound()
    {
      hide Bits.QueuesOf, InsertPos, InsertAt, InsertMem, ListMemory.Intact, ListMemory.Sound;
      AddSound(next, K().q, prio, id, t);
      next := InsertMem(next, place, t);
      lists := lists[id := InsertAt(List(id), i, t)];
      on := on[t := id];
      ticket := ticket[t := clock];
      clock := clock + 1;
    }

    /** `list_remove` up to the removal: the place behind which `t` is linked, if it is on the list. */
    method Find(id: ListId, t: Tid) returns (place: Ref, ghost i: nat)
      requires Intact() && !id.Run?
      ensures var q := List(id);
        && i <= |q| && place == Place(id, q, i)
        && (i < |q| <==> t in q)
        && (i < |q| ==> q[i] == t && t !in q[..i])
    {
      hide ListMemory.Intact;
      ghost var q := List(id);
      i := 0;
      place := Root(id);
      while Follow(id, i, place) != Nil && Follow(id, i, place) != Node(t)
        invariant i <= |q| && place == Place(id, q, i) && t !in q[..i]
        decreases |q| - i
      {
        place := Follow(id, i, place);
        i := i + 1;
      }
    }

    /** A waiter is unlinked: `list_remove_head` for the first, `list_remove` for any. */
    method Unlink(id: ListId, ghost i: nat, place: Ref)
      requires Intact() && !id.Run? && i < |List(id)| && place == Place(id, List(id), i)
      modifies `next, `lists, `on
      ensures K() == old(K()).(q := S.Unlink(old(K()).q, id, i)) && Intact() && old(List(id))[i] !in on
    {
      hide Bits.QueuesOf, RemoveAt, RemoveMem, ListMemory.Intact;
      UnlinkIntact(next, K().q, id, i);
      next := RemoveMem(next, place);
      on := on - {List(id)[i]};
      lists := lists[id := RemoveAt(List(id), i)];
    }

    method WakeAt(id: ListId, ghost i: nat, place: Ref) returns (t: Tid)
      requires Intact() && !id.Run? && i < |List(id)| && place == Place(id, List(id), i) && PrioValid()
      modifies `next, `lists, `on, `bitcache, `status
      ensures t == old(List(id))[i] && K() == S.WakeAt(old(K()), id, i) && Intact()
    {
      hide Bits.QueuesOf, S.Unlink, S.SetStatus, ListMemory.Intact, ListMemory.Sound;
      t := Follow(id, i, place).t;
      Unlink(id, i, place);
      IntactSound();
      SetStatus(t, Pending);
    }

    method Block(a: Tid, st: Status, wl: Option<ListId>)
      requires PrioValid() && Intact() && !OnRunqueue(st) && (wl.Some? ==> !wl.value.Run?)
      modifies `next, `lists, `on, `bitcache, `status, `ticket, `clock
      ensures K() == S.Block(old(K()), a, st, wl) && Sound() && (wl.None? ==> Intact())
    {
      hide Bits.QueuesOf, S.AddToList, S.SetStatus, ListMemory.Intact, ListMemory.Sound;
      SetStatus(a, st);
      if wl.Some? {
        AddToList(wl.value, a);
      }
    }

    // ---- Threads ----

    /** The thread block that `thread_create` fills in. */
    method Register(t: Tid, p: nat)
      modifies `status, `prio
      ensures K() == old(K()).(status := old(status)[t := Stopped], prio := old(prio)[t := p])
    {
      hide Bits.QueuesOf;
      prio := prio[t := p];
      status := status[t := Stopped];
    }

    /** A thread was created without the yield that usually follows. */
    method Unyielding()
      modifies `lazy
      ensures K() == old(K()).(cpu := old(K()).cpu.(lazy := true))
    {
      hide Bits.QueuesOf;
      lazy := true;
    }

    /** No thread is active: the last one exited. */
    method Vacate()
      modifies `active
      ensures K() == old(K()).(cpu := old(K()).cpu.(active := None))
    {
      hide Bits.QueuesOf;
      active := None;
    }

    /** `sched_change_priority` without the final yield */
    method SetPriority(t: Tid, p: nat)
      requires PrioValid() && p < PRIO_LEVELS && Intact()
      modifies `next, `lists, `on, `bitcache, `prio
      ensures K() == ThreadSpec.Reprioritised(old(K()), t, p) && Sound()
    {
      hide Bits.QueuesOf, S.RunqueuePush, S.RunqueuePop, Intact, ListMemory.Sound;
      IntactSound();
      if OnRunqueue(StatusAt(t)) {
        RunqueuePop(t);
        IntactSound();
        RunqueuePush(t, p);
      }
      prio := prio[t := p];
    }

    // ---- Rescheduling ----

    /** `sched_switch` and `thread_yield_higher`: at once in an interrupt handler, else when interrupts are enabled. */
    method Reschedule(o: Owe)
      modifies `request, `owe
      ensures K() == Owes(old(K()), o)
    {
      hide Bits.QueuesOf;
      if isr {
        match o
        case YieldHigher => request := true;
        case Switch(p) =>
          if active.Some? && (!OnRunqueue(StatusAt(active.value)) || PrioAt(active.value) > p) {
            request := true;
          }
        case _ =>
      } else if active.Some? {
        owe := owe[active.value := o];
      }
    }

    /** A context switch that has to wait until interrupts are enabled. */
    method RequestSwitch()
      modifies `request
      ensures K() == Request(old(K()))
    {
      hide Bits.QueuesOf;
      request := true;
    }

    method YieldNow()
      requires Inv(K()) && Intact() && active.Some?
      modifies `status, `active, `request, `idle, `lazy, `owe
      ensures K() == R.YieldNow(old(K()), old(active.value))
    {
      hide Bits.QueuesOf, LinksOk, MatchOk, Intact, S.SchedRun;
      owe := owe[active.value := Nothing];
      request := true;
      SchedRun();
    }

    /** `sched_runq_advance` */
    method Advance(p: nat)
      requires Intact()
      modifies `next, `lists
      ensures K() == old(K()).(q := Rotate(old(K()).q, p)) && Intact()
    {
      hide Bits.QueuesOf, RotateMem, ListMemory.Intact;
      RotateIntact(next, K().q, p);
      next := RotateMem(next, Run(p));
      lists := Rotate(K().q, p).lists;
    }

    method EnterIsr()
      modifies `isr
      ensures K() == IsrEnter(old(K()))
    {
      hide Bits.QueuesOf;
      isr := true;
    }

    /** At the end of an interrupt a pending request is served, except inside the idle loop. */
    method LeaveIsr()
      requires Inv(K()) && Intact()
      modifies `status, `active, `request, `isr, `idle, `lazy
      ensures K() == IsrExit(old(K()))
    {
      hide Bits.QueuesOf, LinksOk, MatchOk, Intact, S.SchedRun;
      isr := false;
      if request && !idle {
        SchedRun();
      }
    }

    /** The active thread carries out the reschedule it owes. */
    method Pay()
      requires Inv(K()) && Intact() && active.Some?
      modifies `next, `lists, `status, `active, `request, `idle, `lazy, `owe
      ensures K() == R.Pay(old(K()), old(active.value)) && Intact()
    {
      hide Bits.QueuesOf, LinksOk, MatchOk, Intact, R.YieldNow, Rotate;
      var a := active.value;
      match if a in owe then owe[a] else Nothing
      case Nothing =>
      case YieldHigher => YieldNow();
      case YieldRotate =>
        if OnRunqueue(StatusAt(a)) {
          Advance(PrioAt(a));
        }
        owe := owe[a := YieldHigher];
      case Switch(p) =>
        if !OnRunqueue(StatusAt(a)) || PrioAt(a) > p {
          YieldNow();
        } else {
          owe := owe[a := Nothing];
        }
      case IfRequested =>
        if StatusAt(a).ReplyBlocked? || request {
          YieldNow();
        } else {
          owe := owe[a := Nothing];
        }
      case PrioYield(t, p) =>
        if t == a || (PrioAt(a) > p && OnRunqueue(StatusAt(t))) {
          YieldNow();
        } else {
          owe := owe[a := Nothing];
        }
    }
  }

  lemma {:induction false} InsertPosIs(prio: map<Tid, nat>, q: seq<Tid>, p: nat, i: nat)
    requires i <= |q| && (forall j :: 0 <= j < i ==> Get(prio, q[j]) <= p) && (i < |q| ==> Get(prio, q[i]) > p)
    ensures InsertPos(prio, q, p) == i
  {
    if i > 0 {
      assert Get(prio, q[0]) <= p;
      InsertPosIs(prio, q[1..], p, i - 1);
    }
  }

  lemma PopIs(n: Links, p: nat, lists: map<ListId, seq<Tid>>, on: map<Tid, ListId>, bits: set<nat>)
    requires var q := L(n, Run(p));
      if q == [] then lists == n.lists && on == n.on && bits == n.bits - {p}
      else lists == n.lists[Run(p) := q[1..]] && on == n.on - {q[0]} && bits == if |q| == 1 then n.bits - {p} else n.bits
    ensures Links(lists, on, bits, n.ticket, n.clock) == S.RunqueuePop(n, p)
  {
  }

  /** With valid priorities there is a runnable thread exactly if a bit is set. */
  lemma Runnable(k: Sched)
    requires Inv(k)
    ensures HasRunnable(k) <==> k.q.bits != {}
  {
    hide LinksOk, MatchOk;
    if k.q.bits != {} {
      var p :| p in k.q.bits;
      HeadRuns(k, p);
    }
  }
}
