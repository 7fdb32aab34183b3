/** Steps of one subsystem keep the invariants of the others. */
module Frames {
  import opened Wrappers
  import opened Sched
  import opened Reschedule
  import opened KernelState
  import opened MutexSpec
  import opened FlagSpec
  import opened MsgSpec
  import opened MsgSteps
  import opened MboxSpec

  /** Which subsystem a continuation belongs to. */
  datatype Family = NoFamily | MutexFamily | FlagFamily | MboxFamily

  function FamilyOf(c: Cont): Family {
    match c
    case User => NoFamily
    case Locking(_) => MutexFamily
    case CancelCheck(_) => MutexFamily
    case Relock(_) => NoFamily
    case PutRetry(_, _) => MboxFamily
    case _ => FlagFamily
  }

  function ContOf(cont: map<Tid, Cont>, t: Tid): Option<Cont> {
    if t in cont then Some(cont[t]) else None
  }

  /** Buffers changed only at threads whose status is, and stays, in `sts`. */
  ghost predicate WaitFramed(s: State, s': State, sts: set<Status>) {
    forall t :: WaitOf(s'.wait, t) == WaitOf(s.wait, t) || (St(s.k, t) in sts && St(s'.k, t) in sts)
  }

  /** Likewise for continuations, and the new ones belong to family `f` or none. */
  ghost predicate ContFramed(s: State, s': State, sts: set<Status>, f: Family) {
    forall t ::
      || ContOf(s'.cont, t) == ContOf(s.cont, t)
      || (St(s.k, t) in sts && St(s'.k, t) in sts && t in s'.cont && FamilyOf(s'.cont[t]) in {NoFamily, f})
  }

  // ---- Thread flags ----

  lemma FlagKept(s: State, s': State, kinds: set<Kind>, sts: set<Status>, f: Family)
    requires FlagInv(s) && Framed(s.k, s'.k, kinds, sts) && WaitFramed(s, s', sts) && ContFramed(s, s', sts, f)
    requires (forall st :: st in sts ==> !FlagBlocked(st)) && f != FlagFamily
    requires forall t :: t in s'.cont ==> FlagsOf(s'.fl, t) == FlagsOf(s.fl, t)
    ensures FlagInv(s')
  {
    hide FlagOk;
    forall t | t in s'.cont
      ensures FlagOk(StatusOf(s'.k.status, t), FlagsOf(s'.fl, t), WaitOf(s'.wait, t), s'.cont[t])
    {
      assert St(s'.k, t) == StatusOf(s'.k.status, t) && St(s.k, t) == StatusOf(s.k.status, t);
      if ContOf(s'.cont, t) == ContOf(s.cont, t) {
        assert FlagOk(St(s.k, t), FlagsOf(s.fl, t), WaitOf(s.wait, t), s.cont[t]);
        if !FlagBlocked(St(s.k, t)) {
          FlagOkKeep(St(s.k, t), St(s'.k, t), FlagsOf(s.fl, t), WaitOf(s.wait, t), WaitOf(s'.wait, t), s.cont[t]);
        }
      } else {
        OtherFamily(St(s'.k, t), FlagsOf(s'.fl, t), WaitOf(s'.wait, t), s'.cont[t]);
      }
    }
    forall t | t in s'.k.status && FlagBlocked(s'.k.status[t]) ensures t in s'.cont {
      assert St(s'.k, t) == s'.k.status[t];
      assert ContOf(s'.cont, t) == ContOf(s.cont, t);
    }
  }

  lemma OtherFamily(st: Status, f: bv16, w: Wait, c: Cont)
    requires !FlagBlocked(st) && FamilyOf(c) != FlagFamily
    ensures FlagOk(st, f, w, c)
  {
    hide Any, All;
  }

  // ---- Mutexes ----

  lemma OnMutexQ(k: Sched, t: Tid)
    requires MatchOk(k.q.on, k.status, k.prio)
    ensures t in k.q.on && k.q.on[t].MutexQ? ==> St(k, t).MutexBlocked?
  {
    if t in k.q.on {
      assert Matches(k.status[t], OnOf(k.q.on, t), Get(k.prio, t));
    }
  }

  predicate OffMutex(o: Option<ListId>) {
    o.Some? ==> !o.value.MutexQ?
  }

  predicate SameLocker(o: Option<ListId>, o': Option<ListId>, c: Option<Cont>, c': Option<Cont>) {
    && (o' == o || (OffMutex(o) && OffMutex(o')))
    && (c' == c || (c'.Some? && FamilyOf(c'.value) != MutexFamily && OffMutex(o')))
  }

  lemma LockersKept(on: map<Tid, ListId>, on': map<Tid, ListId>, mc: map<nat, Canceller>,
                    cont: map<Tid, Cont>, cont': map<Tid, Cont>)
    requires LockersOk(on, mc, cont)
    requires forall t :: SameLocker(OnOf(on, t), OnOf(on', t), ContOf(cont, t), ContOf(cont', t))
    ensures LockersOk(on', mc, cont')
  {
    forall t | t in cont' ensures LockerOk(mc, OnOf(on', t), cont'[t], t) {
      assert SameLocker(OnOf(on, t), OnOf(on', t), ContOf(cont, t), ContOf(cont', t));
      if ContOf(cont', t) == ContOf(cont, t) {
        assert LockerOk(mc, OnOf(on, t), cont[t], t);
      }
    }
    forall t | t in on' && on'[t].MutexQ? ensures t in cont' && WaitsFor(mc, cont'[t]) == Some(on'[t].mutex) {
      assert SameLocker(OnOf(on, t), OnOf(on', t), ContOf(cont, t), ContOf(cont', t));
    }
  }

  lemma SameLockers(s: State, s': State, kinds: set<Kind>, sts: set<Status>, f: Family, t: Tid)
    requires Inv(s.k) && Inv(s'.k) && Framed(s.k, s'.k, kinds, sts) && ContFramed(s, s', sts, f)
    requires MutexBlocked !in sts && f != MutexFamily
    ensures SameLocker(OnOf(s.k.q.on, t), OnOf(s'.k.q.on, t), ContOf(s.cont, t), ContOf(s'.cont, t))
  {
    hide LinksOk, MatchOk;
    OnMutexQ(s.k, t);
    OnMutexQ(s'.k, t);
  }

  lemma MutexKept(s: State, s': State, kinds: set<Kind>, sts: set<Status>, f: Family)
    requires Inv(s.k) && Inv(s'.k) && MutexOk(s) && Framed(s.k, s'.k, kinds, sts) && ContFramed(s, s', sts, f)
    requires MutexKind !in kinds && MutexBlocked !in sts && f != MutexFamily
    requires s'.mx == s.mx && s'.mc == s.mc
    ensures MutexOk(s')
  {
    hide Inv, HolderOk, LockersOk, OnlyStatus, ContFramed, SameLocker;
    HolderFrame(s.k.q, s'.k.q, s.mx);
    forall t ensures SameLocker(OnOf(s.k.q.on, t), OnOf(s'.k.q.on, t), ContOf(s.cont, t), ContOf(s'.cont, t)) {
      SameLockers(s, s', kinds, sts, f, t);
    }
    LockersKept(s.k.q.on, s'.k.q.on, s.mc, s.cont, s'.cont);
  }

  // ---- Mailboxes ----

  lemma OnMboxQ(k: Sched, t: Tid)
    requires MatchOk(k.q.on, k.status, k.prio)
    ensures t in k.q.on && KindOf(k.q.on[t]) == MboxKind ==> St(k, t).MboxBlocked?
  {
    if t in k.q.on {
      assert Matches(k.status[t], OnOf(k.q.on, t), Get(k.prio, t));
    }
  }

  /** A thread on a mailbox list was on that list before, with the same buffer and continuation. */
  lemma SameWaiter(s: State, s': State, kinds: set<Kind>, sts: set<Status>, f: Family, t: Tid)
    requires Inv(s'.k) && Framed(s.k, s'.k, kinds, sts) && WaitFramed(s, s', sts) && ContFramed(s, s', sts, f)
    requires MboxBlocked !in sts && t in s'.k.q.on && KindOf(s'.k.q.on[t]) == MboxKind
    ensures OnOf(s'.k.q.on, t) == OnOf(s.k.q.on, t) && WaitOf(s'.wait, t) == WaitOf(s.wait, t)
    ensures ContOf(s'.cont, t) == ContOf(s.cont, t)
  {
    hide LinksOk, MatchOk;
    OnMboxQ(s'.k, t);
  }

  lemma WaitersKept(s: State, s': State, kinds: set<Kind>, sts: set<Status>, f: Family)
    requires Inv(s'.k) && Framed(s.k, s'.k, kinds, sts) && WaitFramed(s, s', sts) && ContFramed(s, s', sts, f)
    requires WaitersOk(s.k.q.on, s.wait, s.cont) && MboxBlocked !in sts
    ensures WaitersOk(s'.k.q.on, s'.wait, s'.cont)
  {
    hide Inv, Framed, WaitFramed, ContFramed;
    forall t | t in s'.k.q.on && KindOf(s'.k.q.on[t]) == MboxKind
      ensures s'.k.q.on[t].Readers? ==> WaitOf(s'.wait, t).Buffer?
      ensures s'.k.q.on[t].Writers? ==> t in s'.cont && s'.cont[t].PutRetry? && s'.cont[t].mbox == s'.k.q.on[t].mbox
    {
      SameWaiter(s, s', kinds, sts, f, t);
      assert t in s.k.q.on && s.k.q.on[t] == s'.k.q.on[t];
    }
  }

  lemma MboxKeptBy(s: State, s': State, kinds: set<Kind>, sts: set<Status>, f: Family)
    requires Inv(s'.k) && MboxInv(s) && Framed(s.k, s'.k, kinds, sts) && WaitFramed(s, s', sts) && ContFramed(s, s', sts, f)
    requires MboxKind !in kinds && MboxBlocked !in sts && f != MboxFamily && s'.mb == s.mb
    ensures MboxInv(s')
  {
    hide Inv, BoxOk, WaitersOk, OnlyStatus, WaitFramed;
    WaitersKept(s, s', kinds, sts, f);
    forall t | t in s'.cont && s'.cont[t].PutRetry? ensures s'.cont[t].mbox in s'.mb {
      assert ContOf(s'.cont, t) == ContOf(s.cont, t);
    }
  }

  // ---- Messages ----

  lemma MsgKeptBy(s: State, s': State, kinds: set<Kind>, sts: set<Status>)
    requires Inv(s.k) && Inv(s'.k) && MsgInv(s) && Framed(s.k, s'.k, kinds, sts) && WaitFramed(s, s', sts)
    requires SendKind !in kinds && (forall st :: st in sts ==> !MsgBlocked(st)) && s'.ms == s.ms
    ensures MsgInv(s')
  {
    hide Inv, MsgOk, Framed;
    forall t | MsgBlocked(St(s.k, t)) ensures WaitOf(s'.wait, t) == WaitOf(s.wait, t) {
    }
    MsgKept(s.k, s'.k, s.wait, s'.wait, s.ms, kinds, sts);
  }
}
