/** What holds after every run of the kernel, from the start with one thread. */
module Runs {
  import opened Wrappers
  import opened Queues
  import opened Sched
  import opened Reschedule
  import opened KernelState
  import opened MutexSpec
  import opened FlagSpec
  import opened MsgOrder
  import opened MsgSpec
  import opened MsgSteps
  import opened MboxSpec
  import opened Kernel
  import opened KernelSteps

  /** The first thread, with pid 1, has just been scheduled. */
  function Init(t: Tid, prio: nat): State {
    State(
      Sched(Links(map[Run(prio) := [t]], map[t := Run(prio)], {prio}, map[], 1),
            map[t := Running], map[t := prio], map[], Cpu(Some(t), false, false, false, false)),
      Mutexes({}, {}), map[],
      Messages(map[t := EMPTY_CHAN], 0), map[], map[], map[], map[],
      map[1 := t], map[t := 1], NoRet)
  }

  /** Each event is allowed when its turn comes. */
  predicate Valid(s: State, es: seq<Event>)
    decreases |es|
  {
    es == [] || (Enabled(s, es[0]) && Valid(Step(s, es[0]), es[1..]))
  }

  function After(s: State, es: seq<Event>): State
    decreases |es|
  {
    if es == [] then s else After(Step(s, es[0]), es[1..])
  }

  lemma InitSched(t: Tid, prio: nat)
    requires prio < PRIO_LEVELS
    ensures SchedOk(Init(t, prio).k)
  {
  }

  lemma InitRest(t: Tid, prio: nat)
    ensures var s := Init(t, prio); MutexOk(s) && FlagInv(s) && MboxInv(s) && Tabled(s)
  {
    hide Inv;
  }

  lemma InitMsg(t: Tid, prio: nat)
    ensures MsgInv(Init(t, prio))
  {
    hide Inv;
    assert Increasing([], 0);
    assert Ordered(Init(t, prio).k.q.on, map[], EMPTY_CHAN, t);
  }

  lemma InitOk(t: Tid, prio: nat)
    requires prio < PRIO_LEVELS
    ensures KernelInv(Init(t, prio))
  {
    hide SchedOk, MutexOk, FlagInv, MsgInv, MboxInv, Tabled, Init;
    InitSched(t, prio);
    InitRest(t, prio);
    InitMsg(t, prio);
  }

  lemma {:induction false} RunKeeps(s: State, es: seq<Event>)
    requires KernelInv(s) && Valid(s, es)
    ensures KernelInv(After(s, es))
    decreases |es|
  {
    hide KernelInv, Enabled, Step, Sorts;
    if es != [] {
      StepKeeps(s, es[0]);
      RunKeeps(Step(s, es[0]), es[1..]);
    }
  }

  /** A state that some run from the start reaches. */
  ghost predicate Reachable(s: State) {
    exists t: Tid, prio: nat, es: seq<Event> :: prio < PRIO_LEVELS && Valid(Init(t, prio), es) && s == After(Init(t, prio), es)
  }

  lemma ReachableInv(s: State)
    requires Reachable(s)
    ensures KernelInv(s)
  {
    hide KernelInv, Valid, After, Init;
    var t: Tid, prio: nat, es: seq<Event> :| prio < PRIO_LEVELS && Valid(Init(t, prio), es) && s == After(Init(t, prio), es);
    InitOk(t, prio);
    RunKeeps(Init(t, prio), es);
  }

  // ---- The lists ----

  /**
    In every reachable state: no node is on two lists or twice on one; a thread is on the run
    queue of its own priority exactly if its status says so, and otherwise on at most the kind
    of wait list its status names; the bit of a run queue is set exactly if it is not empty;
    and every wait list is ordered by priority, then by arrival.
  */
  lemma ListsInvariant(s: State)
    requires Reachable(s)
    ensures forall id, id', t: Tid :: t in L(s.k.q, id) && t in L(s.k.q, id') ==> id == id'
    ensures forall id :: NoDup(L(s.k.q, id))
    ensures forall t :: OnRunqueue(St(s.k, t)) <==> t in L(s.k.q, Run(Pr(s.k, t)))
    ensures forall id: ListId, t: Tid :: t in L(s.k.q, id) ==> Matches(St(s.k, t), Some(id), Pr(s.k, t))
    ensures forall p :: p in s.k.q.bits <==> L(s.k.q, Run(p)) != []
    ensures forall id: ListId :: !id.Run? ==> Sorted(s.k.prio, s.k.q.ticket, L(s.k.q, id))
  {
    hide KernelInv, Reachable, NoDup, Sorted, Matches, MatchOk, Act;
    ReachableInv(s);
    SchedPart(s);
    forall id, id', t: Tid | t in L(s.k.q, id) && t in L(s.k.q, id') ensures id == id' {
      OneList(s.k.q, id, t);
      OneList(s.k.q, id', t);
    }
    forall t ensures OnRunqueue(St(s.k, t)) <==> t in L(s.k.q, Run(Pr(s.k, t))) {
      ListedRuns(s.k, t);
    }
    forall id: ListId, t: Tid | t in L(s.k.q, id) ensures Matches(St(s.k, t), Some(id), Pr(s.k, t)) {
      ListedMatches(s.k, id, t);
    }
    EmptyOk(s.k.prio, s.k.q.ticket);
  }

  lemma OneList(n: Links, id: ListId, t: Tid)
    requires ListsOk(n.lists, n.on) && t in L(n, id)
    ensures OnOf(n.on, t) == Some(id)
  {
  }

  lemma EmptyOk(prio: map<Tid, nat>, ticket: map<Tid, nat>)
    ensures NoDup<Tid>([]) && Sorted(prio, ticket, [])
  {
  }

  lemma SchedPart(s: State)
    requires KernelInv(s)
    ensures Inv(s.k) && Act(s.k)
  {
  }

  lemma ListedRuns(k: Sched, t: Tid)
    requires Inv(k)
    ensures OnRunqueue(St(k, t)) <==> t in L(k.q, Run(Pr(k, t)))
  {
    hide Matches, NoDup, SortedOk;
    StatusMatches(k, t);
  }

  lemma ListedMatches(k: Sched, id: ListId, t: Tid)
    requires Inv(k) && t in L(k.q, id)
    ensures Matches(St(k, t), Some(id), Pr(k, t))
  {
    hide Matches, NoDup, SortedOk;
    assert OnOf(k.q.on, t) == Some(id);
  }

  /**
    The thread table names each thread at most once, under the pid that the thread carries, and
    every thread that is not stopped is in it.
  */
  lemma PidsUnique(s: State)
    requires Reachable(s)
    ensures forall t :: !St(s.k, t).Stopped? ==> Get(s.pid, t) in s.pids && s.pids[Get(s.pid, t)] == t
    ensures forall p :: p in s.pids ==> Get(s.pid, s.pids[p]) == p
    ensures forall p, q :: p in s.pids && q in s.pids && s.pids[p] == s.pids[q] ==> p == q
  {
    hide Reachable, SchedOk, MutexOk, FlagInv, MsgInv, MboxInv;
    ReachableInv(s);
  }

  // ---- The running thread ----

  /**
    At every reachable point where a thread executes its own code, its status is RUNNING, it is
    the head of its run queue and no runnable thread has a strictly higher priority, unless a thread was created
    with THREAD_CREATE_WOUT_YIELD since the scheduler last ran.
  */
  lemma RunningIsHighest(s: State)
    requires Reachable(s) && Ready(s.k)
    ensures var a := s.k.cpu.active.value;
      && IsHead(s.k, a) && St(s.k, a).Running?
      && (!s.k.cpu.lazy ==> forall t :: OnRunqueue(St(s.k, t)) ==> Pr(s.k, a) <= Pr(s.k, t))
  {
    hide KernelInv, Reachable, Inv, Act, IsHead;
    ReachableInv(s);
    SchedPart(s);
    Quiescent(s.k);
  }

  // ---- Messages ----

  /** The message that a blocked sender to `r` still holds, if `p` is one. */
  function HeldFor(s: State, r: Tid, p: Source): seq<Msg> {
    Held(s.k.q.on, s.wait, r, p)
  }

  /** Each receiver gets the messages of each sender in the order they were sent. */
  lemma SenderOrder(s: State, r: Tid, p: Source)
    requires Reachable(s) && r in s.ms.ch
    ensures var c := s.ms.ch[r];
      From(c.dlv, p) + From(c.queue, p) + HeldFor(s, r, p) == From(c.acc, p)
  {
    hide Reachable, SchedOk, MutexOk, FlagInv, MboxInv, Tabled;
    ReachableInv(s);
    assert Ordered(s.k.q.on, s.wait, s.ms.ch[r], r);
    assert InOrder(s.ms.ch[r], HeldFor(s, r, p), p);
  }

  lemma AcceptedDistinct(s: State, r: Tid)
    requires MsgInv(s) && r in s.ms.ch
    ensures var q := s.ms.ch[r].acc; forall i, j :: 0 <= i < j < |q| ==> q[i] != q[j]
  {
    hide OrderOk, ReceiversOk, FullOk, SendersOk, RequestsOk;
    assert Increasing(s.ms.ch[r].acc, s.ms.uid);
  }

  /** An accepted message is in exactly one place, exactly once; nothing else is anywhere. */
  lemma MessageInOnePlace(s: State, r: Tid, m: Msg)
    requires Reachable(s) && r in s.ms.ch
    ensures var c := s.ms.ch[r];
      multiset(c.dlv)[m] + multiset(c.queue)[m] + multiset(HeldFor(s, r, m.src))[m] == if m in c.acc then 1 else 0
  {
    hide Reachable, SchedOk, MutexOk, FlagInv, MsgInv, MboxInv, Tabled, Held, From;
    ReachableInv(s);
    SenderOrder(s, r, m.src);
    AcceptedDistinct(s, r);
    ExactlyOnePlace(s.ms.ch[r], HeldFor(s, r, m.src), m);
  }

  /**
    Senders wait only behind a full queue, and a thread blocked in receive has neither queued
    messages nor waiting senders; so the slot freed by a receive is free for a waiting sender.
  */
  lemma ReceiverStructure(s: State, r: Tid)
    requires Reachable(s)
    ensures |ChanOf(s.ms, r).queue| <= ChanOf(s.ms, r).cap
    ensures L(s.k.q, SendQ(r)) != [] ==> |ChanOf(s.ms, r).queue| == ChanOf(s.ms, r).cap
    ensures St(s.k, r).ReceiveBlocked? ==> ChanOf(s.ms, r).queue == [] && L(s.k.q, SendQ(r)) == []
  {
    hide Reachable, SchedOk, MutexOk, FlagInv, MboxInv, Tabled, OrderOk, SendersOk, RequestsOk, Increasing;
    ReachableInv(s);
  }

  // ---- Thread flags ----

  /** No wake-up is missed: a thread is blocked only while the flags it waits for are not there. */
  lemma NoMissedFlags(s: State, t: Tid)
    requires Reachable(s)
    ensures St(s.k, t).FlagBlockedAny? ==> WaitOf(s.wait, t).Mask? && FlagsOf(s.fl, t) & WaitOf(s.wait, t).bits == 0
    ensures St(s.k, t).FlagBlockedAll? ==>
      WaitOf(s.wait, t).Mask? && FlagsOf(s.fl, t) & WaitOf(s.wait, t).bits != WaitOf(s.wait, t).bits
  {
    hide Reachable, SchedOk, MutexOk, MsgInv, MboxInv, Tabled, Valid, After, Init;
    ReachableInv(s);
    assert t in s.cont ==> FlagOk(StatusOf(s.k.status, t), FlagsOf(s.fl, t), WaitOf(s.wait, t), s.cont[t]);
  }

  // ---- Mailboxes ----

  /** Nothing is lost; FIFO, and no reader blocked beside a message, unless a woken writer passed a reader. */
  lemma MailboxConserves(s: State, b: nat)
    requires Reachable(s) && b in s.mb
    ensures multiset(s.mb[b].acc) == multiset(s.mb[b].dlv) + multiset(s.mb[b].queue) && |s.mb[b].queue| <= s.mb[b].cap
    ensures !s.mb[b].passed ==> s.mb[b].acc == s.mb[b].dlv + s.mb[b].queue
    ensures !s.mb[b].passed && L(s.k.q, Readers(b)) != [] ==> s.mb[b].queue == []
  {
    hide Reachable, SchedOk, MutexOk, FlagInv, MsgInv, Tabled;
    ReachableInv(s);
  }

  // ---- Mutexes ----

  /** At most one holder, and a mutex is locked, with waiters or without, exactly if it has one. */
  lemma MutualExclusion(s: State, m: nat)
    requires Reachable(s)
    ensures forall t, u :: (t, m) in s.mx.holds && (u, m) in s.mx.holds ==> t == u
    ensures (exists t :: (t, m) in s.mx.holds) <==> m in s.mx.mark || L(s.k.q, MutexQ(m)) != []
    ensures m in s.mx.mark ==> L(s.k.q, MutexQ(m)) == []
  {
    hide Reachable, SchedOk, LockersOk, FlagInv, MsgInv, MboxInv, Tabled;
    ReachableInv(s);
    assert Unlocked(s.k.q, s.mx, m) || HasHolder(s.mx.holds, m);
  }
}
