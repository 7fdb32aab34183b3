/** Condition variables: waiting, signalling and returning. */
module CondRuns {
  import opened Wrappers
  import opened Queues
  import opened Sched
  import opened Reschedule
  import opened KernelState
  import opened MutexSpec
  import opened Kernel
  import opened KernelSteps
  import opened MutexRuns

  /** The first `n` of the waiters become runnable, and nobody else changes. */
  lemma {:induction false} WakeFirstStatus(k: Sched, c: nat, n: nat, t: Tid)
    requires Inv(k) && n <= |L(k.q, CondQ(c))|
    ensures St(WakeFirst(k, CondQ(c), n), t) == if t in L(k.q, CondQ(c))[..n] then Pending else St(k, t)
    decreases n
  {
    hide Inv, WakeAt;
    if n > 0 {
      var q, k1 := L(k.q, CondQ(c)), WakeAt(k, CondQ(c), 0);
      WokenStatus(k, c, t);
      WakeFirstStatus(k1, c, n - 1, t);
      assert q[..n] == [q[0]] + q[1..][..n - 1];
    }
  }

  lemma WokenStatus(k: Sched, c: nat, t: Tid)
    requires Inv(k) && L(k.q, CondQ(c)) != []
    ensures var q, k1 := L(k.q, CondQ(c)), WakeAt(k, CondQ(c), 0);
      && Inv(k1) && L(k1.q, CondQ(c)) == q[1..]
      && St(k1, t) == if t == q[0] then Pending else St(k, t)
  {
    hide Inv, WakeAt, SameLists, SameRest;
    WakeAtOk(k, CondQ(c), 0);
    assert RemoveAt(L(k.q, CondQ(c)), 0) == L(k.q, CondQ(c))[1..];
  }

  lemma SignalledStatus(k: Sched, c: nat, broadcast: bool, t: Tid)
    requires Inv(k)
    ensures St(SignalSched(k, c, broadcast), t)
         == if t in L(k.q, CondQ(c))[..SignalCount(k, c, broadcast)] then Pending else St(k, t)
  {
    hide Inv, WakeFirst, MinPrio;
    WakeFirstStatus(k, c, SignalCount(k, c, broadcast), t);
  }

  /**
    `cond_signal` wakes exactly the first waiter, `cond_broadcast` exactly all; the first
    waiter is ahead of every other one, by priority and then by arrival.
  */
  lemma SignalWakesFirst(s: State, c: nat, broadcast: bool)
    requires KernelInv(s) && InContext(s.k)
    ensures var q, s' := L(s.k.q, CondQ(c)), Signal(s, c, broadcast);
      var n := if broadcast then |q| else if q == [] then 0 else 1;
      && L(s'.k.q, CondQ(c)) == q[n..]
      && (forall t :: St(s'.k, t) == if t in q[..n] then Pending else St(s.k, t))
      && (forall i :: 0 < i < |q| ==> Ahead(s.k.prio, s.k.q.ticket, q[0], q[i]))
  {
    hide MutexOk, FlagSpec.FlagInv, MsgSpec.MsgInv, MboxSpec.MboxInv, MsgSteps.Tabled, Act, MatchOk, ListsOk, BitsOk;
    hide SignalSched, Ahead, Only;
    var q := L(s.k.q, CondQ(c));
    SignalSchedOk(s.k, c, broadcast);
    forall t ensures St(Signal(s, c, broadcast).k, t) == if t in q[..SignalCount(s.k, c, broadcast)] then Pending else St(s.k, t) {
      SignalledStatus(s.k, c, broadcast, t);
    }
    assert CondQ(c) in s.k.q.lists ==> Sorted(s.k.prio, s.k.q.ticket, q);
  }

  /** Releasing the mutex and queueing on the condition variable are one step: no signal falls between them. */
  lemma WaitIsAtomic(s: State, a: Tid, c: nat, m: nat) returns (mv: Move)
    requires KernelInv(s) && Calling(s, a)
    ensures var s' := CondWait(s, a, c, m);
      && a in L(s'.k.q, CondQ(c))
      && Moved(mv, s, s', m) && (mv.Stays? || mv.Dropped? || mv.Handed?)
      && (a, m) !in s'.mx.holds
  {
    hide Inv, Act, LockersOk, FlagSpec.FlagInv, MsgSpec.MsgInv, MboxSpec.MboxInv, MsgSteps.Tabled, HolderOk;
    hide ReleaseWake, ReleaseMutex, ReleaseAndBlock, ReleaseOwe, Holders;
    var request := ReleaseOwe(s, m).Switch? && Pr(s.k, a) > ReleaseOwe(s, m).prio;
    var s' := CondWait(s, a, c, m);
    ReleaseAndBlockSched(s, a, m, request, CondBlocked, Some(CondQ(c)));
    Listed(s'.k, a, CondQ(c));
    ReleaseHolds(s, m, m);
    ReleaseLists(s.k, m, m);
    IsHolder(s'.mx.holds, a, m);
    NotWaiting(s, a, m);
    if Unlocked(s.k.q, s.mx, m) {
      FreeHolders(s, m);
      mv := Stays;
    } else {
      mv := if Waiters(s, m) == [] then Dropped else Handed;
    }
  }

  lemma Listed(k: Sched, t: Tid, id: ListId)
    requires Inv(k) && OnOf(k.q.on, t) == Some(id)
    ensures t in L(k.q, id)
  {
    hide MatchOk, SortedOk, BitsOk, NoDup;
  }

  /** When `cond_wait` goes on after its wake-up, it gets the mutex or queues for it. */
  lemma RelockEffect(s: State, a: Tid, m: nat)
    requires SchedOk(s.k) && Calling(s, a)
    ensures var s' := Lock(s, a, m, true);
      if Co(s', a) == User then (a, m) in s'.mx.holds else Co(s', a) == Locking(m) && a in Waiters(s', m)
  {
    hide Inv, Act, Block, CanBlock, IsHead, Only, InsertPos, InsertAt;
    if !Unlocked(s.k.q, s.mx, m) {
      CallerCanBlock(s.k, a);
      BlockStep(s.k, a, MutexBlocked, Some(MutexQ(m)), YieldHigher, MutexKinds, MutexStatuses);
      Listed(BlockOn(s, a, m, Locking(m)).k, a, MutexQ(m));
    }
  }
}
