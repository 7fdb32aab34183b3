/**
  Following concrete runs. All threads of these runs have the same priority, so that the
  scheduler is one queue: its head runs, and a yield moves it to the end.
*/
module Traces {
  import opened Wrappers
  import opened Queues
  import opened Sched
  import opened Reschedule
  import opened KernelState
  import opened MutexSpec
  import opened FlagSpec
  import opened MsgSpec
  import opened MboxSpec
  import opened ThreadSpec
  import opened Kernel
  import opened Runs

  // ---- Runs, event by event ----

  lemma {:induction false} Append(s: State, es: seq<Event>, e: Event)
    requires Valid(s, es) && Enabled(After(s, es), e)
    ensures Valid(s, es + [e]) && After(s, es + [e]) == Step(After(s, es), e)
    decreases |es|
  {
    hide Enabled, Step;
    if es == [] {
      assert [e][1..] == [] && (es + [e])[0] == e && (es + [e])[1..] == [];
    } else {
      assert (es + [e])[0] == es[0] && (es + [e])[1..] == es[1..] + [e];
      Append(Step(s, es[0]), es[1..], e);
    }
  }

  /** One more event. */
  lemma Then(i: State, es: seq<Event>, s: State, e: Event) returns (es': seq<Event>, s': State)
    requires Valid(i, es) && s == After(i, es) && Enabled(s, e)
    ensures es' == es + [e] && s' == Step(s, e) && Valid(i, es') && s' == After(i, es')
  {
    Append(i, es, e);
    es', s' := es + [e], Step(s, e);
  }

  // ---- The scheduler as one queue ----

  const P: nat := 7

  /** Threads 0 to `n - 1` exist; `a` runs and owes `o`, everybody else owes nothing; `r` is the run queue. */
  ghost predicate Owing(k: Sched, n: nat, a: Tid, o: Owe, r: seq<Tid>) {
    && a < n && NoDup(r)
    && k.cpu.active == Some(a) && !k.cpu.isr && !k.cpu.idle
    && (forall t: Tid :: t in k.owe ==> k.owe[t] == if t == a then o else Nothing) && (a !in k.owe ==> o == Nothing)
    && L(k.q, Run(P)) == r && k.q.bits == (if r == [] then {} else {P})
    && (forall t: Tid :: t in k.status <==> t < n)
    && (forall t: Tid :: t in k.status ==> (OnRunqueue(k.status[t]) <==> t in r))
    && (forall t: Tid :: t in r ==> t in k.status)
    && (forall t: Tid :: t in k.status ==> t in k.prio && k.prio[t] == P)
  }

  /** The head of `r` executes its own code. */
  ghost predicate Turn(k: Sched, n: nat, r: seq<Tid>) {
    r != [] && Owing(k, n, r[0], Nothing, r)
  }

  ghost predicate SameWaits(k: Sched, k': Sched) {
    forall id: ListId :: !id.Run? ==> L(k'.q, id) == L(k.q, id)
  }

  lemma Woken(k: Sched, n: nat, a: Tid, o: Owe, r: seq<Tid>, t: Tid, st: Status)
    requires Owing(k, n, a, o, r) && t < n && t !in r && OnRunqueue(st)
    ensures var k' := SetStatus(k, t, st); Owing(k', n, a, o, r + [t]) && SameWaits(k, k')
  {
  }

  lemma WokenAt(k: Sched, n: nat, a: Tid, o: Owe, r: seq<Tid>, id: ListId, i: nat)
    requires Owing(k, n, a, o, r) && !id.Run? && i < |L(k.q, id)| && L(k.q, id)[i] < n && L(k.q, id)[i] !in r
    ensures var k' := WakeAt(k, id, i);
      && Owing(k', n, a, o, r + [L(k.q, id)[i]])
      && L(k'.q, id) == RemoveAt(L(k.q, id), i)
      && (forall d: ListId :: !d.Run? && d != id ==> L(k'.q, d) == L(k.q, d))
  {
    hide SetStatus, NoDup;
    var k1 := k.(q := Unlink(k.q, id, i));
    assert Owing(k1, n, a, o, r);
    Woken(k1, n, a, o, r, L(k.q, id)[i], Pending);
  }

  lemma Stops(k: Sched, n: nat, o: Owe, r: seq<Tid>, st: Status)
    requires r != [] && Owing(k, n, r[0], o, r) && !OnRunqueue(st)
    ensures var k' := SetStatus(k, r[0], st); Owing(k', n, r[0], o, r[1..]) && SameWaits(k, k') && St(k', r[0]) == st
  {
  }

  lemma Blocks(k: Sched, n: nat, o: Owe, r: seq<Tid>, st: Status, id: ListId)
    requires r != [] && Owing(k, n, r[0], o, r) && !OnRunqueue(st) && !id.Run? && L(k.q, id) == []
    ensures var k' := Block(k, r[0], st, Some(id));
      && Owing(k', n, r[0], o, r[1..]) && St(k', r[0]) == st
      && L(k'.q, id) == [r[0]] && r[0] in k'.q.on && k'.q.on[r[0]] == id
      && (forall d: ListId :: !d.Run? && d != id ==> L(k'.q, d) == L(k.q, d))
  {
    hide SetStatus, NoDup;
    Stops(k, n, o, r, st);
  }

  lemma NowOwes(k: Sched, n: nat, a: Tid, o: Owe, r: seq<Tid>, o': Owe)
    requires Owing(k, n, a, o, r)
    ensures Owing(Owes(k, o'), n, a, o', r) && Owes(k, o').q == k.q && Owes(k, o').status == k.status
  {
    hide NoDup;
  }

  lemma Switches(k: Sched, n: nat, a: Tid, r: seq<Tid>)
    requires Owing(k, n, a, YieldHigher, r) && r != [] && r[0] < n
    ensures var k' := Pay(k, a); Turn(k', n, r) && k'.q == k.q && SameBlocked(k, k')
  {
    hide NoDup;
    assert P in k.q.bits;
    var k1 := k.(owe := k.owe[a := Nothing], cpu := k.cpu.(request := true));
    assert HasRunnable(k1);
    assert LowestBit(k1.q.bits, 0) == P;
    assert r[0] in r;
  }

  lemma Rotates(k: Sched, n: nat, a: Tid, r: seq<Tid>)
    requires Owing(k, n, a, YieldRotate, r) && (a in r ==> r[0] == a)
    ensures var k' := Pay(k, a);
      Owing(k', n, a, YieldHigher, if a in r then r[1..] + [a] else r) && SameWaits(k, k') && k'.status == k.status && k'.q.on == k.q.on
  {
    if a in r {
      assert r == [r[0]] + r[1..];
    }
  }

  lemma Settles(k: Sched, n: nat, r: seq<Tid>)
    requires r != [] && Owing(k, n, r[0], Switch(P), r)
    ensures var k' := Pay(k, r[0]); Turn(k', n, r) && k'.q == k.q && k'.status == k.status
  {
    hide NoDup;
    assert r[0] in r;
  }

  // ---- Events ----

  /** The head of `r` executes its own code and is in no kernel call. */
  ghost predicate At(s: State, n: nat, r: seq<Tid>) {
    Turn(s.k, n, r) && Co(s, r[0]) == User
  }

  /** Only the scheduler changed. */
  predicate Rest(s: State, s': State) {
    s' == s.(k := s'.k)
  }

  lemma Runnable(k: Sched, n: nat, a: Tid, o: Owe, r: seq<Tid>)
    requires Owing(k, n, a, o, r) && r != []
    ensures r[0] < n
  {
    assert r[0] in r;
  }

  lemma Continues(s: State, n: nat, a: Tid, o: Owe, r: seq<Tid>)
    requires Owing(s.k, n, a, o, r) && o != Nothing
    ensures Enabled(s, Continue) && Step(s, Continue) == s.(k := Pay(s.k, a))
  {
    hide Pay, NoDup;
    assert Ow(s.k, a) == o;
  }

  lemma Switching(s: State, n: nat, a: Tid, r: seq<Tid>)
    requires Owing(s.k, n, a, YieldHigher, r) && r != []
    ensures Enabled(s, Continue)
    ensures var s' := Step(s, Continue);
      Turn(s'.k, n, r) && Rest(s, s') && s'.k.q == s.k.q && SameBlocked(s.k, s'.k)
  {
    hide Pay, Owing, Enabled, Step, SameBlocked, Turn;
    Continues(s, n, a, YieldHigher, r);
    Runnable(s.k, n, a, YieldHigher, r);
    Switches(s.k, n, a, r);
  }

  lemma Rotating(s: State, n: nat, a: Tid, r: seq<Tid>)
    requires Owing(s.k, n, a, YieldRotate, r) && (a in r ==> r[0] == a)
    ensures Enabled(s, Continue)
    ensures var s' := Step(s, Continue);
      && Owing(s'.k, n, a, YieldHigher, if a in r then r[1..] + [a] else r) && SameWaits(s.k, s'.k)
      && Rest(s, s') && s'.k.status == s.k.status && s'.k.q.on == s.k.q.on
  {
    hide Pay, Owing, Enabled, Step;
    Continues(s, n, a, YieldRotate, r);
    Rotates(s.k, n, a, r);
  }

  lemma Settling(s: State, n: nat, r: seq<Tid>)
    requires r != [] && Owing(s.k, n, r[0], Switch(P), r)
    ensures Enabled(s, Continue)
    ensures var s' := Step(s, Continue); Turn(s'.k, n, r) && Rest(s, s') && s'.k.q == s.k.q && s'.k.status == s.k.status
  {
    hide Pay, Owing, Enabled, Step;
    Continues(s, n, r[0], Switch(P), r);
    Settles(s.k, n, r);
  }

  lemma MayCall(s: State, n: nat, r: seq<Tid>, c: Call)
    requires At(s, n, r) && CallOk(s, r[0], c)
    ensures Calling(s, r[0]) && Enabled(s, Thr(c)) && Step(s, Thr(c)) == ThreadCall(s, r[0], c)
  {
    hide NoDup, CallOk, ThreadCall;
  }

  /** The caller gives way to the next thread, and goes to the end of the queue. */
  lemma Yields(s: State, n: nat, r: seq<Tid>)
    requires At(s, n, r)
    ensures Enabled(s, Thr(ThreadYield(true)))
    ensures var s' := Step(s, Thr(ThreadYield(true)));
      Owing(s'.k, n, r[0], YieldRotate, r) && Rest(s, s') && s'.k.q == s.k.q && s'.k.status == s.k.status
  {
    hide Owing, Enabled, Step, Owes;
    MayCall(s, n, r, ThreadYield(true));
    NowOwes(s.k, n, r[0], Nothing, r, YieldRotate);
  }

  /** A new thread joins the run queue. */
  lemma Creates(s: State, n: nat, r: seq<Tid>)
    requires At(s, n, r) && n !in s.ms.ch && PID_LAST !in s.pids && 0 < n
    ensures var c := ThreadCreate(n, P, Quietly, 0);
      && Enabled(s, Thr(c))
      && var s' := Step(s, Thr(c));
      && Turn(s'.k, n + 1, r + [n]) && SameWaits(s.k, s'.k)
      && s'.mx == s.mx && s'.mc == s.mc && s'.mb == s.mb && s'.cont == s.cont
      && s'.ms == s.ms.(ch := s.ms.ch[n := Chan(0, [], [], [])])
      && FreePid(s.pids, PID_FIRST).Some? && s'.pids == s.pids[FreePid(s.pids, PID_FIRST).value := n]
      && s'.pid == s.pid[n := FreePid(s.pids, PID_FIRST).value]
  {
    hide Owing, Enabled, Step, CallOk, ThreadStep, FreePid, Create;
    Unregistered(s, n, r);
    MayCall(s, n, r, ThreadCreate(n, P, Quietly, 0));
    CreatedFields(s, n);
    StartsQuietly(s.k, n, r);
  }

  lemma Unregistered(s: State, n: nat, r: seq<Tid>)
    requires Turn(s.k, n, r) && n !in s.ms.ch
    ensures CallOk(s, r[0], ThreadCreate(n, P, Quietly, 0))
    ensures ThreadStep(s, r[0], ThreadCreate(n, P, Quietly, 0)) == Create(s, n, P, Quietly, 0)
  {
    hide Create, NoDup;
  }

  lemma CreatedFields(s: State, t: Tid)
    requires PID_LAST !in s.pids
    ensures var s', pid := Create(s, t, P, Quietly, 0), FreePid(s.pids, PID_FIRST);
      && pid.Some? && s'.k == Started(Registered(s.k, t, P), t, Quietly)
      && s'.mx == s.mx && s'.mc == s.mc && s'.mb == s.mb && s'.cont == s.cont
      && s'.ms == s.ms.(ch := s.ms.ch[t := Chan(0, [], [], [])])
      && s'.pids == s.pids[pid.value := t] && s'.pid == s.pid[t := pid.value]
  {
    hide Started, Registered;
  }

  lemma StartsQuietly(k: Sched, n: nat, r: seq<Tid>)
    requires Turn(k, n, r)
    ensures var k' := Started(Registered(k, n, P), n, Quietly); Turn(k', n + 1, r + [n]) && SameWaits(k, k')
  {
    hide SetStatus, NoDup, FreePid;
    RegisteredAt(k, n, r);
    Woken(Registered(k, n, P), n + 1, r[0], Nothing, r, n, Pending);
    assert (r + [n])[0] == r[0];
  }

  lemma NextPid(pids: map<nat, Tid>, p: nat)
    requires PID_FIRST <= p <= PID_LAST && p !in pids && (forall q :: PID_FIRST <= q < p ==> q in pids)
    ensures FreePid(pids, PID_FIRST) == Some(p)
  {
  }

  lemma RegisteredAt(k: Sched, n: nat, r: seq<Tid>)
    requires Turn(k, n, r)
    ensures Owing(Registered(k, n, P), n + 1, r[0], Nothing, r) && n !in r
  {
  }

  // ---- Mutexes ----

  /** Nothing but the scheduler, the mutexes and the caller's remainder changed. */
  predicate MutexRest(s: State, s': State) {
    s'.mc == s.mc && s'.mb == s.mb && s'.ms == s.ms && s'.pids == s.pids && s'.pid == s.pid
  }

  lemma Locks(s: State, n: nat, r: seq<Tid>, m: nat)
    requires At(s, n, r) && Unlocked(s.k.q, s.mx, m)
    ensures Enabled(s, Thr(MutexLock(m, true)))
    ensures var s' := Step(s, Thr(MutexLock(m, true)));
      && s'.k == s.k && s'.mx == Mutexes(s.mx.mark + {m}, s.mx.holds + {(r[0], m)})
      && s'.cont == s.cont[r[0] := User] && MutexRest(s, s')
  {
    hide Turn, Enabled, Step, Unlocked;
    MayCall(s, n, r, MutexLock(m, true));
  }

  /** The mutex is taken and nobody waits yet. */
  predicate Taken(s: State, m: nat) {
    m in s.mx.mark && L(s.k.q, MutexQ(m)) == []
  }

  lemma WaitsForLock(s: State, n: nat, r: seq<Tid>, m: nat)
    requires At(s, n, r) && Taken(s, m)
    ensures Enabled(s, Thr(MutexLock(m, true)))
    ensures var s' := Step(s, Thr(MutexLock(m, true)));
      && Owing(s'.k, n, r[0], YieldHigher, r[1..]) && L(s'.k.q, MutexQ(m)) == [r[0]]
      && s'.mx.holds == s.mx.holds && s'.cont == s.cont[r[0] := Locking(m)] && MutexRest(s, s')
  {
    hide Owing, Enabled, Step, Block, Owes;
    MayCall(s, n, r, MutexLock(m, true));
    WaitsSched(s.k, n, r, m);
  }

  lemma WaitsSched(k: Sched, n: nat, r: seq<Tid>, m: nat)
    requires Turn(k, n, r) && L(k.q, MutexQ(m)) == []
    ensures var k' := Owes(Block(k, r[0], MutexBlocked, Some(MutexQ(m))), YieldHigher);
      Owing(k', n, r[0], YieldHigher, r[1..]) && L(k'.q, MutexQ(m)) == [r[0]]
  {
    hide Owing, Block, Owes;
    Blocks(k, n, Nothing, r, MutexBlocked, MutexQ(m));
    NowOwes(Block(k, r[0], MutexBlocked, Some(MutexQ(m))), n, r[0], Nothing, r[1..], YieldHigher);
  }

  /** `w` is the only waiter. */
  predicate WaitedFor(s: State, m: nat, w: Tid) {
    L(s.k.q, MutexQ(m)) == [w]
  }

  lemma HandedMutex(s: State, m: nat, w: Tid)
    requires WaitedFor(s, m, w)
    ensures ReleaseMutex(s, m) == Mutexes(s.mx.mark + {m}, Drop(s.mx.holds, m) + {(w, m)}) && ReleaseOwe(s, m) == Switch(Pr(s.k, w))
    ensures ReleaseWake(s.k, m) == WakeAt(s.k, MutexQ(m), 0)
  {
    hide WakeAt;
  }

  lemma HandedSched(k: Sched, n: nat, r: seq<Tid>, m: nat, w: Tid)
    requires Turn(k, n, r) && L(k.q, MutexQ(m)) == [w] && w < n && w !in r
    ensures var k' := WakeAt(k, MutexQ(m), 0);
      Owing(k', n, r[0], Nothing, r + [w]) && L(k'.q, MutexQ(m)) == [] && Pr(k, w) == P && (r + [w])[0] == r[0]
  {
    hide WakeAt, NoDup;
    WokenAt(k, n, r[0], Nothing, r, MutexQ(m), 0);
  }

  lemma HandsOver(s: State, n: nat, r: seq<Tid>, m: nat, w: Tid)
    requires At(s, n, r) && WaitedFor(s, m, w) && w < n && w !in r
    ensures Enabled(s, Thr(MutexUnlock(m)))
    ensures var s' := Step(s, Thr(MutexUnlock(m)));
      && Owing(s'.k, n, r[0], Switch(P), r + [w]) && Taken(s', m)
      && s'.mx == Mutexes(s.mx.mark + {m}, Drop(s.mx.holds, m) + {(w, m)}) && s'.cont == s.cont && MutexRest(s, s')
  {
    hide Owing, Enabled, Step, WakeAt, Owes, ReleaseWake, ReleaseMutex, ReleaseOwe;
    MayCall(s, n, r, MutexUnlock(m));
    HandedMutex(s, m, w);
    HandedSched(s.k, n, r, m, w);
    NowOwes(WakeAt(s.k, MutexQ(m), 0), n, r[0], Nothing, r + [w], Switch(P));
  }

  lemma HandsOverAndSleeps(s: State, n: nat, r: seq<Tid>, m: nat, w: Tid)
    requires At(s, n, r) && WaitedFor(s, m, w) && w < n && w !in r
    ensures Enabled(s, Thr(MutexUnlockAndSleep(m)))
    ensures var s' := Step(s, Thr(MutexUnlockAndSleep(m)));
      && Owing(s'.k, n, r[0], YieldHigher, r[1..] + [w]) && Taken(s', m)
      && s'.mx == Mutexes(s.mx.mark + {m}, Drop(s.mx.holds, m) + {(w, m)}) && s'.cont == s.cont[r[0] := User] && MutexRest(s, s')
  {
    hide Owing, Enabled, Step, WakeAt, Owes, ReleaseWake, ReleaseMutex, ReleaseOwe, SetStatus;
    MayCall(s, n, r, MutexUnlockAndSleep(m));
    HandedMutex(s, m, w);
    HandedSched(s.k, n, r, m, w);
    var k1 := WakeAt(s.k, MutexQ(m), 0);
    Stops(k1, n, Nothing, r + [w], Sleeping);
    assert (r + [w])[1..] == r[1..] + [w];
    NowOwes(Block(k1, r[0], Sleeping, None), n, r[0], Nothing, r[1..] + [w], YieldHigher);
  }

  lemma Frees(s: State, n: nat, r: seq<Tid>, m: nat)
    requires At(s, n, r) && Taken(s, m)
    ensures Enabled(s, Thr(MutexUnlock(m)))
    ensures var s' := Step(s, Thr(MutexUnlock(m)));
      && At(s', n, r) && s'.mx == Mutexes(s.mx.mark - {m}, Drop(s.mx.holds, m)) && s'.cont == s.cont && MutexRest(s, s')
  {
    hide Owing, Enabled, Step, Owes;
    MayCall(s, n, r, MutexUnlock(m));
    NowOwes(s.k, n, r[0], Nothing, r, Nothing);
  }

  lemma Sleeps(s: State, n: nat, r: seq<Tid>)
    requires At(s, n, r)
    ensures Enabled(s, Thr(ThreadSleep))
    ensures var s' := Step(s, Thr(ThreadSleep));
      && Owing(s'.k, n, r[0], YieldHigher, r[1..]) && s'.mx == s.mx && s'.cont == s.cont && MutexRest(s, s')
  {
    hide Owing, Enabled, Step, Owes, SetStatus;
    MayCall(s, n, r, ThreadSleep);
    Stops(s.k, n, Nothing, r, Sleeping);
    NowOwes(Block(s.k, r[0], Sleeping, None), n, r[0], Nothing, r[1..], YieldHigher);
  }

  lemma InitsCancel(s: State, n: nat, r: seq<Tid>, x: nat, m: nat)
    requires At(s, n, r) && x !in s.mc
    ensures Enabled(s, Thr(MutexCancelInit(x, m)))
    ensures Step(s, Thr(MutexCancelInit(x, m))) == s.(mc := s.mc[x := Canceller(m, r[0], false)])
  {
    hide Turn, Enabled, Step;
    MayCall(s, n, r, MutexCancelInit(x, m));
  }

  lemma WaitsCancelably(s: State, n: nat, r: seq<Tid>, x: nat, m: nat)
    requires At(s, n, r) && x in s.mc && s.mc[x] == Canceller(m, r[0], false) && Taken(s, m)
    ensures Enabled(s, Thr(MutexLockCancelable(x)))
    ensures var s' := Step(s, Thr(MutexLockCancelable(x)));
      && Owing(s'.k, n, r[0], YieldHigher, r[1..]) && WaitedFor(s', m, r[0])
      && s'.mx.holds == s.mx.holds && s'.cont == s.cont[r[0] := CancelCheck(x)] && MutexRest(s, s')
  {
    hide Owing, Enabled, Step, Block, Owes;
    MayCall(s, n, r, MutexLockCancelable(x));
    WaitsSched(s.k, n, r, m);
  }

  /** The thread of the canceller is on the run queue again. */
  lemma CancelsLate(s: State, n: nat, r: seq<Tid>, x: nat)
    requires At(s, n, r) && x in s.mc && s.mc[x].thread in r && L(s.k.q, MutexQ(s.mc[x].mutex)) == []
    requires Co(s, s.mc[x].thread) == CancelCheck(x)
    ensures Enabled(s, Thr(MutexCancel(x)))
    ensures var s' := Step(s, Thr(MutexCancel(x)));
      && At(s', n, r) && s'.mx == s.mx && s'.cont == s.cont && x in s'.mc && s'.mc[x] == s.mc[x].(cancelled := true)
  {
    hide Owing, Enabled, Step, Owes;
    MayCall(s, n, r, MutexCancel(x));
    NowOwes(s.k, n, r[0], Nothing, r, Nothing);
  }

  // ---- Mailboxes ----

  lemma InitsBox(s: State, n: nat, r: seq<Tid>, b: nat, cap: nat)
    requires At(s, n, r) && b !in s.mb
    ensures Enabled(s, Thr(MboxInit(b, cap)))
    ensures Step(s, Thr(MboxInit(b, cap))) == s.(mb := s.mb[b := Mbox(cap, [], [], [], false)])
  {
    hide Turn, Enabled, Step;
    MayCall(s, n, r, MboxInit(b, cap));
  }

  lemma Enqueues(s: State, n: nat, r: seq<Tid>, b: nat, m: Msg)
    requires At(s, n, r) && b in s.mb && L(s.k.q, Readers(b)) == [] && !Full(s.mb, b)
    ensures Enabled(s, Thr(MboxPut(b, m, false)))
    ensures Step(s, Thr(MboxPut(b, m, false))) == s.(mb := Enqueued(s.mb, b, Stamped(s, m), false), ret := Ret.Int(1))
  {
    hide Turn, Enabled, Step, Full, Enqueued, Stamped;
    MayCall(s, n, r, MboxPut(b, m, false));
  }

  lemma WaitsInBox(k: Sched, n: nat, r: seq<Tid>, id: ListId)
    requires Turn(k, n, r) && L(k.q, id) == [] && (id.Readers? || id.Writers?)
    ensures var k' := Owes(Block(k, r[0], MboxBlocked, Some(id)), YieldRotate);
      && Owing(k', n, r[0], YieldRotate, r[1..]) && L(k'.q, id) == [r[0]]
      && (forall d: ListId :: !d.Run? && d != id ==> L(k'.q, d) == L(k.q, d))
  {
    hide Owing, Block, Owes;
    Blocks(k, n, Nothing, r, MboxBlocked, id);
    NowOwes(Block(k, r[0], MboxBlocked, Some(id)), n, r[0], Nothing, r[1..], YieldRotate);
  }

  lemma WaitsToPut(s: State, n: nat, r: seq<Tid>, b: nat, m: Msg)
    requires At(s, n, r) && b in s.mb && L(s.k.q, Readers(b)) == [] && L(s.k.q, Writers(b)) == [] && Full(s.mb, b)
    ensures Enabled(s, Thr(MboxPut(b, m, true)))
    ensures var s' := Step(s, Thr(MboxPut(b, m, true)));
      && Owing(s'.k, n, r[0], YieldRotate, r[1..]) && L(s'.k.q, Writers(b)) == [r[0]] && L(s'.k.q, Readers(b)) == []
      && s'.mb == s.mb && s'.cont == s.cont[r[0] := PutRetry(b, m)]
  {
    hide Owing, Enabled, Step, Full, Block, Owes;
    MayCall(s, n, r, MboxPut(b, m, true));
    WaitsInBox(s.k, n, r, Writers(b));
  }

  lemma WaitsToGet(s: State, n: nat, r: seq<Tid>, b: nat)
    requires At(s, n, r) && b in s.mb && L(s.k.q, Readers(b)) == [] && s.mb[b].queue == []
    ensures Enabled(s, Thr(MboxGet(b, true)))
    ensures var s' := Step(s, Thr(MboxGet(b, true)));
      Owing(s'.k, n, r[0], YieldRotate, r[1..]) && L(s'.k.q, Readers(b)) == [r[0]] && s'.mb == s.mb && s'.cont == s.cont
  {
    hide Owing, Enabled, Step, Block, Owes;
    MayCall(s, n, r, MboxGet(b, true));
    WaitsInBox(s.k, n, r, Readers(b));
  }

  lemma Fetches(s: State, n: nat, r: seq<Tid>, b: nat, w: Tid)
    requires At(s, n, r) && b in s.mb && s.mb[b].queue != [] && L(s.k.q, Writers(b)) == [w] && w < n && w !in r
    ensures Enabled(s, Thr(MboxGet(b, true)))
    ensures var s' := Step(s, Thr(MboxGet(b, true)));
      && Owing(s'.k, n, r[0], Switch(P), r + [w]) && L(s'.k.q, Readers(b)) == L(s.k.q, Readers(b))
      && s'.mb == Dequeued(s.mb, b) && s'.cont == s.cont
  {
    hide Owing, Enabled, Step, WakeAt, Owes, Dequeued;
    MayCall(s, n, r, MboxGet(b, true));
    WriterWoken(s.k, n, r, b, w);
  }

  lemma WriterWoken(k: Sched, n: nat, r: seq<Tid>, b: nat, w: Tid)
    requires Turn(k, n, r) && L(k.q, Writers(b)) == [w] && w < n && w !in r
    ensures var k' := WriterWake(k, b); Owing(k', n, r[0], Switch(P), r + [w]) && L(k'.q, Readers(b)) == L(k.q, Readers(b))
  {
    hide WakeAt, Owes, NoDup;
    WokenAt(k, n, r[0], Nothing, r, Writers(b), 0);
    assert (r + [w])[0] == r[0];
    NowOwes(WakeAt(k, Writers(b), 0), n, r[0], Nothing, r + [w], Switch(P));
  }

  /** The writer that waited goes on; it does not look at the readers again. */
  lemma Retries(s: State, n: nat, r: seq<Tid>, b: nat, m: Msg)
    requires Turn(s.k, n, r) && Co(s, r[0]) == PutRetry(b, m) && !Full(s.mb, b) && L(s.k.q, Readers(b)) != []
    ensures Enabled(s, Continue)
    ensures Step(s, Continue) == s.(mb := Enqueued(s.mb, b, Stamped(s, m), true), cont := s.cont[r[0] := User], ret := Ret.Int(1))
  {
    hide Full, Enqueued, Stamped, NoDup;
  }

  lemma HandsToReader(s: State, n: nat, r: seq<Tid>, b: nat, m: Msg)
    requires At(s, n, r) && b in s.mb && L(s.k.q, Readers(b)) != []
    ensures Enabled(s, Thr(MboxPut(b, m, false)))
    ensures var s' := Step(s, Thr(MboxPut(b, m, false)));
      && b in s'.mb && s'.mb[b] == s.mb[b].(acc := s.mb[b].acc + [Numbered(s.mb[b], m)], dlv := s.mb[b].dlv + [Numbered(s.mb[b], m)])
  {
    hide Turn, Enabled, Step, Owes, WakeAt, Numbered;
    MayCall(s, n, r, MboxPut(b, m, false));
  }

  // ---- Messages ----

  /** Thread `t` is runnable and has no room for messages. */
  predicate Busy(s: State, t: Tid, r: seq<Tid>) {
    t in r && !Room(s.ms, t) && L(s.k.q, SendQ(t)) == []
  }

  lemma NotifiesNobody(k: Sched, n: nat, a: Tid, o: Owe, r: seq<Tid>, fl: map<Tid, bv16>, wait: map<Tid, Wait>, t: Tid)
    requires Owing(k, n, a, o, r) && t in r
    ensures NotifyWake(k, fl, wait, t) == k && !St(k, t).ReceiveBlocked?
  {
    hide NoDup, Any, All, With;
  }

  /** The scheduler part of a request that has to wait for its receiver. */
  lemma RequestWaits(k: Sched, n: nat, r: seq<Tid>, t: Tid)
    requires Turn(k, n, r) && L(k.q, SendQ(t)) == []
    ensures var k1 := SetStatus(k, r[0], ReplyBlocked);
      && Owing(k1, n, r[0], Nothing, r[1..]) && St(k1, r[0]).ReplyBlocked?
      && var k2 := Block(k1, r[0], ReplyBlocked, Some(SendQ(t)));
      && Owing(k2, n, r[0], Nothing, r[1..]) && St(k2, r[0]).ReplyBlocked? && r[0] in k2.q.on && k2.q.on[r[0]] == SendQ(t)
  {
    hide NoDup, RunqueuePop;
    Stops(k, n, Nothing, r, ReplyBlocked);
  }

  lemma Requests(s: State, n: nat, r: seq<Tid>, pid: nat, body: int)
    requires At(s, n, r) && pid in s.pids && pid != PidOf(s, r[0]) && Busy(s, s.pids[pid], r[1..])
    ensures Enabled(s, Thr(MsgSendReceive(pid, body)))
    ensures var s', t := Step(s, Thr(MsgSendReceive(pid, body))), s.pids[pid];
      && Owing(s'.k, n, r[0], YieldHigher, r[1..]) && St(s'.k, r[0]).ReplyBlocked?
      && r[0] in s'.k.q.on && s'.k.q.on[r[0]] == SendQ(t) && s'.pids == s.pids && s'.cont == s.cont
  {
    hide Owing, Enabled, Step, SetStatus, Owes, Block, NotifyWake, Room;
    var a, t := r[0], s.pids[pid];
    MayCall(s, n, r, MsgSendReceive(pid, body));
    RequestWaits(s.k, n, r, t);
    var k1 := SetStatus(s.k, a, ReplyBlocked);
    var k2 := Block(k1, a, ReplyBlocked, Some(SendQ(t)));
    var m := NewMsg(s, a, t, body);
    NotifiesNobody(k1, n, a, Nothing, r[1..], s.fl, s.wait, t);
    NotifiesNobody(k2, n, a, Nothing, r[1..], s.fl, s.wait[a := Buffer(m)][a := Buffer(m)], t);
    NowOwes(k2, n, a, Nothing, r[1..], YieldHigher);
  }

  lemma InitsQueue(s: State, n: nat, r: seq<Tid>, size: nat)
    requires At(s, n, r) && r[0] in s.ms.ch && s.ms.ch[r[0]] == EMPTY_CHAN && L(s.k.q, SendQ(r[0])) == []
    ensures Enabled(s, Thr(MsgInitQueue(size)))
    ensures var s' := Step(s, Thr(MsgInitQueue(size)));
      At(s', n, r) && s'.k == s.k && s'.pid == s.pid && s'.ms.ch == s.ms.ch[r[0] := Chan(size, [], [], [])]
  {
    hide Turn, Enabled, Step;
    MayCall(s, n, r, MsgInitQueue(size));
  }

  lemma SendsToItself(s: State, n: nat, r: seq<Tid>, body: int)
    requires At(s, n, r) && r[0] in s.ms.ch && Room(s.ms, r[0])
    ensures var e := Thr(MsgSend(PidOf(s, r[0]), body, true));
      && Enabled(s, e)
      && var s' := Step(s, e); Turn(s'.k, n, r) && r[0] in s'.ms.ch && s'.ms.ch[r[0]].queue != []
  {
    hide Owing, Enabled, Step, Owes, NotifyWake, Notified;
    MayCall(s, n, r, MsgSend(PidOf(s, r[0]), body, true));
    assert r[0] in r;
    NotifiesNobody(s.k, n, r[0], Nothing, r, s.fl, s.wait, r[0]);
    NowOwes(s.k, n, r[0], Nothing, r, Nothing);
  }

  // ---- Sequences of events ----

  lemma Begin(i: State)
    ensures Valid(i, []) && After(i, []) == i
  {
  }

  const YIELD: Event := Thr(ThreadYield(true))

  /** The caller lets the next thread run. */
  lemma Passes(i: State, es: seq<Event>, s: State, n: nat, a: Tid, r: seq<Tid>) returns (es': seq<Event>, s': State)
    requires Valid(i, es) && s == After(i, es) && At(s, n, [a] + r) && r != []
    ensures es' == es + [YIELD, Continue, Continue] && Valid(i, es') && s' == After(i, es')
    ensures Turn(s'.k, n, r + [a]) && SameWaits(s.k, s'.k) && Rest(s, s')
  {
    hide Owing, Enabled, Step, Valid, After;
    var q := [a] + r;
    assert q[0] == a && q[1..] == r && a in q;
    Yields(s, n, q);
    es', s' := Then(i, es, s, YIELD);
    Rotating(s', n, a, q);
    es', s' := Then(i, es', s', Continue);
    Switching(s', n, a, r + [a]);
    es', s' := Then(i, es', s', Continue);
    assert es' == es + [YIELD, Continue, Continue];
  }
}
