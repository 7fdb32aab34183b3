/**
  The scheduler state that every other part of the kernel shares: status and priority
  of each thread, the run queues with their bit cache, the wait lists, the active thread
  and the reschedule that a thread still owes after its critical section.

  A thread's list node (`rq_entry`) is on at most one list. `ListId` is the address of a
  list root, and `on` records the root a node is linked under.
*/
module Sched {
  import opened Wrappers
  import opened Queues

  /** The address of a `thread_t`. */
  type Tid = nat

  const PRIO_LEVELS: nat := 16

  datatype Status =
    | Stopped | Zombie | Sleeping | MutexBlocked | ReceiveBlocked | SendBlocked | ReplyBlocked
    | FlagBlockedAny | FlagBlockedAll | MboxBlocked | CondBlocked | Running | Pending

  /** `status >= STATUS_ON_RUNQUEUE` */
  predicate OnRunqueue(st: Status) {
    st.Running? || st.Pending?
  }

  datatype ListId =
    | Run(prio: nat)
    | MutexQ(mutex: nat)
    | CondQ(cond: nat)
    | Readers(mbox: nat)
    | Writers(mbox: nat)
    | SendQ(receiver: Tid)

  /**
    What a thread still has to do about rescheduling once interrupts are enabled again:
    `thread_yield_higher`, `thread_yield`, `sched_switch(prio)`, the test after a message
    was queued, or the test at the end of `sched_change_priority`.
  */
  datatype Owe =
    | Nothing
    | YieldHigher
    | YieldRotate
    | Switch(prio: nat)
    | IfRequested
    | PrioYield(thread: Tid, prio: nat)

  /**
    The run queues, their bit cache and the wait lists. `ticket` is the arrival number of
    a thread on its wait list and `clock` the next one; both only record history.
  */
  datatype Links = Links(
    lists: map<ListId, seq<Tid>>,
    on: map<Tid, ListId>,
    bits: set<nat>,
    ticket: map<Tid, nat>,
    clock: nat)

  /**
    `idle` is true inside the idle loop of `sched_run` and `isr` while an interrupt handler
    runs. `lazy` records that a thread was created with THREAD_CREATE_WOUT_YIELD since the
    last `sched_run`.
  */
  datatype Cpu = Cpu(active: Option<Tid>, request: bool, isr: bool, idle: bool, lazy: bool)

  datatype Sched = Sched(
    q: Links,
    status: map<Tid, Status>,
    prio: map<Tid, nat>,
    owe: map<Tid, Owe>,
    cpu: Cpu)

  function Get(m: map<Tid, nat>, t: Tid): nat {
    if t in m then m[t] else 0
  }

  function St(k: Sched, t: Tid): Status {
    if t in k.status then k.status[t] else Stopped
  }

  function Pr(k: Sched, t: Tid): nat {
    Get(k.prio, t)
  }

  function Ow(k: Sched, t: Tid): Owe {
    if t in k.owe then k.owe[t] else Nothing
  }

  function L(n: Links, id: ListId): seq<Tid> {
    if id in n.lists then n.lists[id] else []
  }

  function OnOf(on: map<Tid, ListId>, t: Tid): Option<ListId> {
    if t in on then Some(on[t]) else None
  }

  // ---- List operations ----

  function RunqueuePush(n: Links, t: Tid, p: nat): Links {
    n.(lists := n.lists[Run(p) := L(n, Run(p)) + [t]],
       on := n.on[t := Run(p)],
       bits := n.bits + {p})
  }

  /** Removes the head, whichever thread that is. */
  function RunqueuePop(n: Links, p: nat): Links {
    var q := L(n, Run(p));
    if q == [] then
      n.(bits := n.bits - {p})
    else
      n.(lists := n.lists[Run(p) := q[1..]],
         on := n.on - {q[0]},
         bits := if |q| == 1 then n.bits - {p} else n.bits)
  }

  /** The number of leading entries whose priority value is at most `p`. */
  function InsertPos(prio: map<Tid, nat>, q: seq<Tid>, p: nat): (i: nat)
    ensures i <= |q|
    ensures forall j :: 0 <= j < i ==> Get(prio, q[j]) <= p
    ensures i < |q| ==> Get(prio, q[i]) > p
  {
    if q == [] || Get(prio, q[0]) > p then 0 else 1 + InsertPos(prio, q[1..], p)
  }

  function AddToList(n: Links, prio: map<Tid, nat>, id: ListId, t: Tid): Links {
    var q := L(n, id);
    n.(lists := n.lists[id := InsertAt(q, InsertPos(prio, q, Get(prio, t)), t)],
       on := n.on[t := id],
       ticket := n.ticket[t := n.clock],
       clock := n.clock + 1)
  }

  function Unlink(n: Links, id: ListId, i: nat): Links
    requires i < |L(n, id)|
  {
    n.(lists := n.lists[id := RemoveAt(L(n, id), i)], on := n.on - {L(n, id)[i]})
  }

  // ---- Invariant of the lists ----

  /** `on` names exactly the list each linked node is on, and no list holds a node twice. */
  ghost predicate ListsOk(lists: map<ListId, seq<Tid>>, on: map<Tid, ListId>) {
    && (forall id, t :: id in lists && t in lists[id] ==> t in on && on[t] == id)
    && (forall t :: t in on ==> on[t] in lists && t in lists[on[t]])
    && (forall id :: id in lists ==> NoDup(lists[id]))
  }

  ghost predicate BitsOk(lists: map<ListId, seq<Tid>>, bits: set<nat>) {
    forall p :: p in bits <==> Run(p) in lists && lists[Run(p)] != []
  }

  /** The entry `t` is served before `u`: higher priority, or equal priority and earlier arrival. */
  predicate Ahead(prio: map<Tid, nat>, ticket: map<Tid, nat>, t: Tid, u: Tid) {
    var p, q := Get(prio, t), Get(prio, u);
    p < q || (p == q && Get(ticket, t) < Get(ticket, u))
  }

  ghost predicate Sorted(prio: map<Tid, nat>, ticket: map<Tid, nat>, q: seq<Tid>) {
    forall i, j :: 0 <= i < j < |q| ==> Ahead(prio, ticket, q[i], q[j])
  }

  ghost predicate TicketOk(ticket: map<Tid, nat>, clock: nat) {
    0 < clock && (forall t :: t in ticket ==> ticket[t] < clock)
  }

  ghost predicate SortedOk(n: Links, prio: map<Tid, nat>) {
    && TicketOk(n.ticket, n.clock)
    && (forall id: ListId :: id in n.lists && !id.Run? ==> Sorted(prio, n.ticket, n.lists[id]))
  }

  ghost predicate LinksOk(n: Links, prio: map<Tid, nat>) {
    ListsOk(n.lists, n.on) && BitsOk(n.lists, n.bits) && SortedOk(n, prio)
  }

  // ---- Each list operation keeps it ----

  lemma LinkOk(lists: map<ListId, seq<Tid>>, on: map<Tid, ListId>, id: ListId, q: seq<Tid>, i: nat, t: Tid)
    requires ListsOk(lists, on) && t !in on
    requires q == (if id in lists then lists[id] else []) && i <= |q|
    ensures ListsOk(lists[id := InsertAt(q, i, t)], on[t := id])
  {
    InsertAtElements(q, i, t);
  }

  lemma UnlinkOk(lists: map<ListId, seq<Tid>>, on: map<Tid, ListId>, id: ListId, i: nat)
    requires ListsOk(lists, on) && id in lists && i < |lists[id]|
    ensures ListsOk(lists[id := RemoveAt(lists[id], i)], on - {lists[id][i]})
  {
    var q := lists[id];
    RemoveAtElements(q, i);
    var lists', on' := lists[id := RemoveAt(q, i)], on - {q[i]};
    assert q[i] in lists[id];
    forall d, t | d in lists' && t in lists'[d] ensures t in on' && on'[t] == d {
      assert t in lists[d] && t in on;
      if d == id {
        assert t in RemoveAt(q, i) && t != q[i];
      } else {
        assert on[t] == d && on[q[i]] == id;
      }
    }
    forall t | t in on' ensures on'[t] in lists' && t in lists'[on'[t]] {
      assert t in lists[on[t]];
    }
  }

  lemma PushLists(n: Links, t: Tid, p: nat)
    requires ListsOk(n.lists, n.on) && t !in n.on
    ensures var n' := RunqueuePush(n, t, p); ListsOk(n'.lists, n'.on)
  {
    var q := L(n, Run(p));
    assert InsertAt(q, |q|, t) == q + [t];
    LinkOk(n.lists, n.on, Run(p), q, |q|, t);
  }

  lemma PushOk(n: Links, prio: map<Tid, nat>, t: Tid, p: nat)
    requires LinksOk(n, prio) && t !in n.on
    ensures LinksOk(RunqueuePush(n, t, p), prio)
  {
    hide ListsOk;
    PushLists(n, t, p);
  }

  lemma PopLists(n: Links, p: nat)
    requires ListsOk(n.lists, n.on)
    ensures var n' := RunqueuePop(n, p); ListsOk(n'.lists, n'.on)
  {
    var q := L(n, Run(p));
    if q != [] {
      assert RemoveAt(q, 0) == q[1..];
      UnlinkOk(n.lists, n.on, Run(p), 0);
    }
  }

  lemma PopOk(n: Links, prio: map<Tid, nat>, p: nat)
    requires LinksOk(n, prio)
    ensures LinksOk(RunqueuePop(n, p), prio)
  {
    hide ListsOk;
    PopLists(n, p);
  }

  lemma UnlinkWaiterOk(n: Links, prio: map<Tid, nat>, id: ListId, i: nat)
    requires LinksOk(n, prio) && !id.Run? && i < |L(n, id)|
    ensures LinksOk(Unlink(n, id, i), prio)
  {
    UnlinkOk(n.lists, n.on, id, i);
    SortedRemove(prio, n.ticket, L(n, id), i);
  }

  lemma SortedRemove(prio: map<Tid, nat>, ticket: map<Tid, nat>, q: seq<Tid>, i: nat)
    requires i < |q| && Sorted(prio, ticket, q)
    ensures Sorted(prio, ticket, RemoveAt(q, i))
  {
  }

  lemma AddOk(n: Links, prio: map<Tid, nat>, id: ListId, t: Tid)
    requires LinksOk(n, prio) && !id.Run? && t !in n.on
    ensures LinksOk(AddToList(n, prio, id, t), prio)
  {
    var q := L(n, id);
    LinkOk(n.lists, n.on, id, q, InsertPos(prio, q, Get(prio, t)), t);
    SortedInsert(prio, n.ticket, n.clock, q, t);
    forall d: ListId | d in n.lists && !d.Run?
      ensures Sorted(prio, n.ticket[t := n.clock], n.lists[d])
    {
      SortedFrame(prio, n.ticket, n.clock, n.lists[d], t);
    }
  }

  lemma SortedFrame(prio: map<Tid, nat>, ticket: map<Tid, nat>, clock: nat, q: seq<Tid>, t: Tid)
    requires Sorted(prio, ticket, q) && t !in q
    ensures Sorted(prio, ticket[t := clock], q)
  {
    forall i, j | 0 <= i < j < |q| ensures Ahead(prio, ticket[t := clock], q[i], q[j]) {
      assert Ahead(prio, ticket, q[i], q[j]);
      assert q[i] in q && q[j] in q;
    }
  }

  lemma SortedInsert(prio: map<Tid, nat>, ticket: map<Tid, nat>, clock: nat, q: seq<Tid>, t: Tid)
    requires Sorted(prio, ticket, q) && t !in q && TicketOk(ticket, clock)
    ensures Sorted(prio, ticket[t := clock], InsertAt(q, InsertPos(prio, q, Get(prio, t)), t))
  {
    SortedFrame(prio, ticket, clock, q, t);
    var m, tk := InsertPos(prio, q, Get(prio, t)), ticket[t := clock];
    forall i | 0 <= i < m ensures Ahead(prio, tk, q[i], t) {
      assert q[i] in q;
    }
    forall i | m <= i < |q| ensures Ahead(prio, tk, t, q[i]) {
      assert m < i ==> Ahead(prio, tk, q[m], q[i]);
    }
    SortedSplice(prio, tk, q, m, t);
  }

  lemma SortedSplice(prio: map<Tid, nat>, ticket: map<Tid, nat>, q: seq<Tid>, m: nat, t: Tid)
    requires Sorted(prio, ticket, q) && m <= |q|
    requires forall i :: 0 <= i < m ==> Ahead(prio, ticket, q[i], t)
    requires forall i :: m <= i < |q| ==> Ahead(prio, ticket, t, q[i])
    ensures Sorted(prio, ticket, InsertAt(q, m, t))
  {
    hide Ahead;
  }

  // ---- Thread status and the list it must be on ----

  /** `sched_set_status` */
  function SetStatus(k: Sched, t: Tid, st: Status): Sched {
    k.(q := if OnRunqueue(st) && !OnRunqueue(St(k, t)) then RunqueuePush(k.q, t, Pr(k, t))
            else if !OnRunqueue(st) && OnRunqueue(St(k, t)) then RunqueuePop(k.q, Pr(k, t))
            else k.q,
       status := k.status[t := st])
  }

  /** The list a thread of this status must be on. */
  predicate Matches(st: Status, o: Option<ListId>, p: nat) {
    match st
    case Running => o == Some(Run(p))
    case Pending => o == Some(Run(p))
    case MutexBlocked => o.Some? && o.value.MutexQ?
    case CondBlocked => o.Some? && o.value.CondQ?
    case MboxBlocked => o.Some? && (o.value.Readers? || o.value.Writers?)
    case SendBlocked => o.Some? && o.value.SendQ?
    case ReplyBlocked => o.Some? ==> o.value.SendQ?
    case _ => o == None
  }

  ghost predicate MatchOk(on: map<Tid, ListId>, status: map<Tid, Status>, prio: map<Tid, nat>) {
    && (forall t :: t in on ==> t in status)
    && (forall t :: t in status ==> Matches(status[t], OnOf(on, t), Get(prio, t)))
  }

  ghost predicate PrioOk(prio: map<Tid, nat>) {
    forall t :: t in prio ==> prio[t] < PRIO_LEVELS
  }

  ghost predicate Inv(k: Sched) {
    LinksOk(k.q, k.prio) && MatchOk(k.q.on, k.status, k.prio) && PrioOk(k.prio)
  }

  /** A thread gives up the CPU with status `st`, queueing itself on `wl` if there is one. */
  function Block(k: Sched, a: Tid, st: Status, wl: Option<ListId>): Sched {
    var k1 := SetStatus(k, a, st);
    match wl
    case None => k1
    case Some(id) => k1.(q := AddToList(k1.q, k1.prio, id, a))
  }

  /** The `i`-th waiter of `id` is taken off the list and made runnable. */
  function WakeAt(k: Sched, id: ListId, i: nat): Sched
    requires i < |L(k.q, id)|
  {
    SetStatus(k.(q := Unlink(k.q, id, i)), L(k.q, id)[i], Pending)
  }

  /** Popping the run queue of `a` removes `a` itself. */
  predicate CanBlock(k: Sched, a: Tid) {
    if OnRunqueue(St(k, a)) then
      L(k.q, Run(Pr(k, a))) != [] && L(k.q, Run(Pr(k, a)))[0] == a
    else
      a !in k.q.on
  }

  ghost predicate SameLists(n: Links, n': Links, except: set<ListId>) {
    forall id :: id !in except ==> L(n', id) == L(n, id)
  }

  ghost predicate SameRest(k: Sched, k': Sched) {
    k'.prio == k.prio && k'.owe == k.owe && k'.cpu == k.cpu
  }

  lemma LeaveOk(k: Sched, a: Tid, st: Status)
    requires Inv(k) && CanBlock(k, a) && !OnRunqueue(st)
    ensures var k' := SetStatus(k, a, st);
      && LinksOk(k'.q, k.prio)
      && SameRest(k, k')
      && k'.status == k.status[a := st]
      && k'.q.on == k.q.on - {a}
      && SameLists(k.q, k'.q, {Run(Pr(k, a))})
  {
    hide LinksOk;
    PopOk(k.q, k.prio, Pr(k, a));
  }

  lemma MatchUpdate(k: Sched, k': Sched, a: Tid)
    requires MatchOk(k.q.on, k.status, k.prio) && k'.prio == k.prio && a in k'.status
    requires k'.status == k.status[a := k'.status[a]]
    requires forall t :: t != a ==> OnOf(k'.q.on, t) == OnOf(k.q.on, t)
    requires Matches(k'.status[a], OnOf(k'.q.on, a), Pr(k, a))
    ensures MatchOk(k'.q.on, k'.status, k'.prio)
  {
    hide Matches;
    forall t | t in k'.q.on ensures t in k'.status {
      assert t != a ==> OnOf(k'.q.on, t) == OnOf(k.q.on, t);
    }
  }

  lemma MatchesWait(st: Status, o: Option<ListId>, p: nat)
    requires Matches(st, o, p)
    ensures OnRunqueue(st) <==> o.Some? && o.value.Run?
    ensures OnRunqueue(st) ==> o == Some(Run(p))
  {
  }

  lemma BlockOk(k: Sched, a: Tid, st: Status, wl: Option<ListId>)
    requires Inv(k) && CanBlock(k, a)
    requires !OnRunqueue(st) && Matches(st, wl, Pr(k, a))
    ensures var k' := Block(k, a, st, wl);
      && Inv(k')
      && SameRest(k, k')
      && k'.status == k.status[a := st]
      && k'.q.on == (if wl.Some? then k.q.on[a := wl.value] else k.q.on - {a})
      && SameLists(k.q, k'.q, {Run(Pr(k, a))} + (if wl.Some? then {wl.value} else {}))
      && (wl.Some? ==>
            L(k'.q, wl.value) == InsertAt(L(k.q, wl.value), InsertPos(k.prio, L(k.q, wl.value), Pr(k, a)), a))
  {
    hide LinksOk, CanBlock, MatchOk, SetStatus, OnRunqueue, Matches;
    MatchesWait(st, wl, Pr(k, a));
    var k1 := SetStatus(k, a, st);
    LeaveOk(k, a, st);
    if wl.Some? {
      AddOk(k1.q, k.prio, wl.value, a);
    }
    MatchUpdate(k, Block(k, a, st, wl), a);
  }

  lemma WakeOk(k: Sched, t: Tid, st: Status)
    requires Inv(k) && t !in k.q.on && OnRunqueue(st) && t in k.status
    ensures var k' := SetStatus(k, t, st);
      && Inv(k')
      && SameRest(k, k')
      && k'.status == k.status[t := st]
      && k'.q.on == k.q.on[t := Run(Pr(k, t))]
      && SameLists(k.q, k'.q, {Run(Pr(k, t))})
      && L(k'.q, Run(Pr(k, t))) == L(k.q, Run(Pr(k, t))) + [t]
      && k'.q.bits == k.q.bits + {Pr(k, t)}
  {
    hide LinksOk, MatchOk, RunqueuePop;
    StatusMatches(k, t);
    PushOk(k.q, k.prio, t, Pr(k, t));
    MatchUpdate(k, SetStatus(k, t, st), t);
  }

  lemma StatusMatches(k: Sched, t: Tid)
    requires MatchOk(k.q.on, k.status, k.prio)
    ensures t in k.q.on ==> t in k.status
    ensures OnRunqueue(St(k, t)) <==> OnOf(k.q.on, t).Some? && OnOf(k.q.on, t).value.Run?
    ensures OnRunqueue(St(k, t)) ==> OnOf(k.q.on, t) == Some(Run(Pr(k, t)))
  {
    hide Matches;
    if t in k.status {
      MatchesWait(k.status[t], OnOf(k.q.on, t), Pr(k, t));
    }
  }

  lemma WaiterLinked(n: Links, id: ListId, i: nat)
    requires ListsOk(n.lists, n.on) && i < |L(n, id)|
    ensures OnOf(n.on, L(n, id)[i]) == Some(id)
  {
    assert L(n, id)[i] in n.lists[id];
  }

  lemma DropOk(k: Sched, id: ListId, i: nat)
    requires Inv(k) && !id.Run? && i < |L(k.q, id)|
    ensures var t, k' := L(k.q, id)[i], k.(q := Unlink(k.q, id, i));
      && t in k.q.on && k.q.on[t] == id && t in k.status && !OnRunqueue(k.status[t])
      && LinksOk(k'.q, k.prio)
      && k'.q.on == k.q.on - {t}
      && SameLists(k.q, k'.q, {id})
      && L(k'.q, id) == RemoveAt(L(k.q, id), i)
      && k'.q.bits == k.q.bits
  {
    hide ListsOk, BitsOk, SortedOk, MatchOk;
    WaiterLinked(k.q, id, i);
    StatusMatches(k, L(k.q, id)[i]);
    UnlinkWaiterOk(k.q, k.prio, id, i);
  }

  lemma WakeAtOk(k: Sched, id: ListId, i: nat)
    requires Inv(k) && !id.Run? && i < |L(k.q, id)|
    ensures var t, k' := L(k.q, id)[i], WakeAt(k, id, i);
      && Inv(k')
      && SameRest(k, k')
      && t in k.q.on && k.q.on[t] == id && t in k.status && !OnRunqueue(k.status[t])
      && k'.status == k.status[t := Pending]
      && k'.q.on == k.q.on[t := Run(Pr(k, t))]
      && SameLists(k.q, k'.q, {id, Run(Pr(k, t))})
      && L(k'.q, id) == RemoveAt(L(k.q, id), i)
      && L(k'.q, Run(Pr(k, t))) == L(k.q, Run(Pr(k, t))) + [t]
      && k'.q.bits == k.q.bits + {Pr(k, t)}
  {
    hide LinksOk, MatchOk, RunqueuePop, Unlink;
    var t, k1 := L(k.q, id)[i], k.(q := Unlink(k.q, id, i));
    DropOk(k, id, i);
    PushOk(k1.q, k.prio, t, Pr(k, t));
    MatchUpdate(k, WakeAt(k, id, i), t);
  }

  // ---- sched_run ----

  /** The linear scan for the lowest-numbered non-empty run queue. */
  function LowestBit(bits: set<nat>, p: nat): (r: nat)
    requires exists q :: p <= q < PRIO_LEVELS && q in bits
    ensures p <= r < PRIO_LEVELS && r in bits
    ensures forall q :: p <= q < r ==> q !in bits
    decreases PRIO_LEVELS - p
  {
    if p in bits then p else LowestBit(bits, p + 1)
  }

  /** `_unschedule` */
  function Unschedule(status: map<Tid, Status>, active: Option<Tid>): map<Tid, Status> {
    if active.Some? && active.value in status && status[active.value].Running?
    then status[active.value := Pending]
    else status
  }

  /** The part of `sched_run` after the idle loop. */
  function Dispatch(k: Sched, next: Tid): Sched {
    var status := k.status[next := Running];
    k.(status := if k.cpu.active == Some(next) || k.cpu.idle then status else Unschedule(status, k.cpu.active),
       cpu := k.cpu.(active := Some(next), request := false, idle := false, lazy := false))
  }

  predicate HasRunnable(k: Sched) {
    exists p :: 0 <= p < PRIO_LEVELS && p in k.q.bits
  }

  /** `sched_run`: without a runnable thread it stays in the idle loop. */
  function SchedRun(k: Sched): Sched {
    if !HasRunnable(k) then
      k.(status := Unschedule(k.status, k.cpu.active), cpu := k.cpu.(idle := true))
    else
      var q := L(k.q, Run(LowestBit(k.q.bits, 0)));
      if q == [] then k else Dispatch(k, q[0])
  }

  ghost predicate SameBlocked(k: Sched, k': Sched) {
    forall t :: St(k', t) == St(k, t) || (OnRunqueue(St(k, t)) && OnRunqueue(St(k', t)))
  }

  lemma MatchSwap(k: Sched, status: map<Tid, Status>)
    requires MatchOk(k.q.on, k.status, k.prio) && status.Keys == k.status.Keys
    requires SameBlocked(k, k.(status := status))
    ensures MatchOk(k.q.on, status, k.prio)
  {
    forall t | t in status ensures Matches(status[t], OnOf(k.q.on, t), Pr(k, t)) {
      assert Matches(k.status[t], OnOf(k.q.on, t), Pr(k, t));
      assert St(k.(status := status), t) == status[t];
    }
  }

  lemma HeadRuns(k: Sched, p: nat)
    requires Inv(k) && p in k.q.bits
    ensures L(k.q, Run(p)) != []
    ensures var t := L(k.q, Run(p))[0]; t in k.status && OnRunqueue(St(k, t)) && Pr(k, t) == p && p < PRIO_LEVELS
  {
    hide Matches, SortedOk;
    var t := L(k.q, Run(p))[0];
    assert t in k.q.lists[Run(p)];
    MatchesWait(k.status[t], OnOf(k.q.on, t), Pr(k, t));
  }

  /** The thread that has to make way: it was running, and not in the idle loop. */
  predicate Preempted(k: Sched, t: Tid) {
    k.cpu.active == Some(t) && St(k, t).Running? && !k.cpu.idle
  }

  /**
    `sched_run` touches no list and no blocked thread. Without a runnable thread it idles. Else
    the head of the best run queue is active and RUNNING, the thread that ran before is PENDING
    unless it blocked, and nobody else changes.
  */
  lemma RunOk(k: Sched)
    requires Inv(k)
    ensures var k' := SchedRun(k);
      && Inv(k')
      && k'.q == k.q && k'.prio == k.prio && k'.owe == k.owe && k'.cpu.isr == k.cpu.isr
      && SameBlocked(k, k')
      && (k.q.bits == {} ==> k'.cpu == k.cpu.(idle := true))
      && (k.q.bits != {} ==> Dispatched(k'))
      && (forall t: Tid :: Some(t) != k'.cpu.active ==> St(k', t) == if Preempted(k, t) then Pending else St(k, t))
  {
    hide LinksOk, MatchOk, LowestBit;
    var k' := SchedRun(k);
    if k.q.bits != {} {
      var p :| p in k.q.bits;
      HeadRuns(k, p);
      HeadRuns(k, LowestBit(k.q.bits, 0));
    }
    MatchSwap(k, k'.status);
  }

  /** The active thread is the head of the lowest-numbered non-empty run queue. */
  ghost predicate Dispatched(k: Sched) {
    && k.cpu.active.Some? && !k.cpu.idle && !k.cpu.request && !k.cpu.lazy
    && var a := k.cpu.active.value;
    && St(k, a).Running?
    && L(k.q, Run(Pr(k, a))) != [] && L(k.q, Run(Pr(k, a)))[0] == a
    && forall p :: p in k.q.bits ==> Pr(k, a) <= p
  }

  // ---- Frames between the kernel's subsystems ----

  datatype Kind = RunKind | MutexKind | CondKind | MboxKind | SendKind

  function KindOf(id: ListId): Kind {
    match id
    case Run(_) => RunKind
    case MutexQ(_) => MutexKind
    case CondQ(_) => CondKind
    case Readers(_) => MboxKind
    case Writers(_) => MboxKind
    case SendQ(_) => SendKind
  }

  /** Only lists of these kinds changed. */
  ghost predicate OnlyLists(n: Links, n': Links, kinds: set<Kind>) {
    forall id :: KindOf(id) !in kinds ==> L(n', id) == L(n, id)
  }

  /** Only threads changed that were, and stay, among these statuses. */
  ghost predicate OnlyStatus(k: Sched, k': Sched, sts: set<Status>) {
    forall t ::
      || (St(k', t) == St(k, t) && OnOf(k'.q.on, t) == OnOf(k.q.on, t))
      || (St(k, t) in sts && St(k', t) in sts)
  }

  ghost predicate Framed(k: Sched, k': Sched, kinds: set<Kind>, sts: set<Status>) {
    OnlyLists(k.q, k'.q, kinds) && OnlyStatus(k, k', sts)
  }

  ghost predicate Only(k: Sched, k': Sched, kinds: set<Kind>, sts: set<Status>) {
    k'.prio == k.prio && Framed(k, k', kinds, sts)
  }

  lemma OnlyTrans(k: Sched, k1: Sched, k2: Sched, kinds: set<Kind>, sts: set<Status>)
    requires Only(k, k1, kinds, sts) && Only(k1, k2, kinds, sts)
    ensures Only(k, k2, kinds, sts)
  {
  }
}
