/** What the calls of `mbox.c` have achieved when they return, block or go on. */
module MboxCalls {
  import opened Wrappers
  import opened Queues
  import opened Sched
  import opened Reschedule
  import opened KernelState
  import opened MutexSpec
  import opened FlagSpec
  import opened MboxSpec
  import opened Frames
  import opened Kernel
  import opened KernelSteps
  import opened Remainders
  import opened LockRuns
  import opened LockCalls
  import opened MsgCalls

  /** The message `m`, with the number of the put and with `pid` as its sender. */
  function Arriving(box: Mbox, m: Msg, pid: nat): Msg {
    Msg(pid, m.src, m.dst, |box.acc|, m.body)
  }

  /** The pid of the running thread, if there is one. */
  function RunningPid(s: State): nat {
    if s.k.cpu.active.Some? then Get(s.pid, s.k.cpu.active.value) else 0
  }

  /** Only mailbox `b` changed, to `box`. */
  ghost predicate OnlyBox(s: State, s': State, b: nat, box: Mbox) {
    b in s'.mb && s'.mb[b] == box && (forall d :: d != b ==> (d in s'.mb <==> d in s.mb) && (d in s.mb ==> s'.mb[d] == s.mb[d]))
  }

  /** The first blocked reader has the message in its buffer and is PENDING; the queue is untouched. */
  ghost predicate Handed(s: State, s': State, b: nat, m: Msg)
    requires b in s.mb && L(s.k.q, Readers(b)) != []
  {
    var box, t := s.mb[b], L(s.k.q, Readers(b))[0];
    && s'.ret == Ret.Int(1) && s'.wait == s.wait[t := Buffer(m)] && St(s.k, t).MboxBlocked?
    && s'.k.status == s.k.status[t := Pending] && L(s'.k.q, Readers(b)) == L(s.k.q, Readers(b))[1..]
    && OnlyBox(s, s', b, box.(acc := box.acc + [m], dlv := box.dlv + [m]))
  }

  /** The message is the last in the queue, and nothing else happened but that the call is through. */
  ghost predicate Queued(s: State, s': State, b: nat, m: Msg)
    requires b in s.mb
  {
    && s'.ret == Ret.Int(1) && s'.k == s.k && s'.wait == s.wait && b in s'.mb
    && OnlyBox(s, s', b, s.mb[b].(acc := s.mb[b].acc + [m], queue := s.mb[b].queue + [m], passed := s'.mb[b].passed))
  }

  /** The caller waits at the mailbox, in the list `id`. */
  ghost predicate WaitsAt(s: State, s': State, a: Tid, id: ListId) {
    && s'.k.status == s.k.status[a := MboxBlocked] && a in L(s'.k.q, id) && s'.mb == s.mb
    && forall t :: t != a ==> WaitOf(s'.wait, t) == WaitOf(s.wait, t)
  }

  // ---- Putting ----

  lemma HandsOver(s: State, b: nat, m: Msg)
    requires SchedOk(s.k) && InContext(s.k) && b in s.mb && L(s.k.q, Readers(b)) != []
    ensures Handed(s, PutDirect(s, b, m), b, Arriving(s.mb[b], m, m.pid))
  {
    hide SchedOk, WakeAt, Owes;
    var t := L(s.k.q, Readers(b))[0];
    WakeWaiterOk(s.k, Readers(b));
    ReaderBlocked(s.k, b);
    WakeStatus(s.k, Readers(b), 0);
    OwesStatus(WakeAt(s.k, Readers(b), 0), Switch(Pr(s.k, t)));
  }

  lemma ReaderBlocked(k: Sched, b: nat)
    requires SchedOk(k) && L(k.q, Readers(b)) != []
    ensures St(k, L(k.q, Readers(b))[0]).MboxBlocked?
  {
    hide Inv, Act;
    MboxWaiter(k, Readers(b));
  }

  lemma PutWaits(s: State, a: Tid, b: nat, m: Msg)
    requires SchedOk(s.k) && Calling(s, a)
    ensures var s' := PutWait(s, a, b, m); WaitsAt(s, s', a, Writers(b)) && Co(s', a) == PutRetry(b, m)
  {
    hide SchedOk, Calling, Owes, Block;
    WaitsInList(s, a, Writers(b));
  }

  lemma WaitsInList(s: State, a: Tid, id: ListId)
    requires SchedOk(s.k) && Calling(s, a) && KindOf(id) == MboxKind
    ensures var k' := Owes(Block(s.k, a, MboxBlocked, Some(id)), YieldRotate);
      k'.status == s.k.status[a := MboxBlocked] && a in L(k'.q, id)
  {
    hide LinksOk, MatchOk, Act, Block, Owes, CanBlock, IsHead, InsertPos;
    CallerCanBlock(s.k, a);
    BlockOk(s.k, a, MboxBlocked, Some(id));
    OwesStatus(Block(s.k, a, MboxBlocked, Some(id)), YieldRotate);
    var q := L(s.k.q, id);
    assert InsertAt(q, InsertPos(s.k.prio, q, Pr(s.k, a)), a)[InsertPos(s.k.prio, q, Pr(s.k, a))] == a;
  }

  /**
    `mbox_put` and `mbox_try_put`, by a thread or an interrupt handler: the message goes to the
    first blocked reader or, stamped with the pid of the caller, to the end of the queue, and
    the call returns 1. With a full queue and no reader a blocking call waits; any other
    returns 0 and nothing happens.
  */
  lemma PutEffect(s: State, e: Event, b: nat, m: Msg, block: bool)
    requires KernelInv(s) && Enabled(s, e)
    requires e == Thr(MboxPut(b, m, block)) || (e.Intr? && e.call.MboxPut? && e.call.b == b && e.call.msg == m && !block)
    ensures b in s.mb && PutDone(s, Step(s, e), b, m, block)
  {
    hide KernelInv, Ready, Put, PutDone;
    assert Step(s, e) == Put(s, b, m, block);
    Scheduled(s);
    InCtx(s, e);
    PutCases(s, b, m, block);
  }

  ghost predicate PutDone(s: State, s': State, b: nat, m: Msg, block: bool)
    requires b in s.mb
  {
    if L(s.k.q, Readers(b)) != [] then
      Handed(s, s', b, Arriving(s.mb[b], m, m.pid)) && s'.cont == s.cont
    else if |s.mb[b].queue| < s.mb[b].cap then
      Queued(s, s', b, Arriving(s.mb[b], m, RunningPid(s))) && s'.cont == s.cont
    else if block then
      s.k.cpu.active.Some? && var a := s.k.cpu.active.value; WaitsAt(s, s', a, Writers(b)) && Co(s', a) == PutRetry(b, m)
    else
      s' == s.(ret := Ret.Int(0))
  }

  lemma PutCases(s: State, b: nat, m: Msg, block: bool)
    requires SchedOk(s.k) && InContext(s.k) && b in s.mb && (block ==> Ready(s.k))
    ensures PutDone(s, Put(s, b, m, block), b, m, block)
  {
    hide SchedOk, InContext, PutDirect, PutWait, Handed, Enqueued, WaitsAt;
    if L(s.k.q, Readers(b)) != [] {
      HandsOver(s, b, m);
      DirectCont(s, b, m);
    } else if !Full(s.mb, b) {
      Enters(s, b, m, false);
    } else if block {
      PutWaits(s, s.k.cpu.active.value, b, m);
    }
  }

  lemma DirectCont(s: State, b: nat, m: Msg)
    requires L(s.k.q, Readers(b)) != []
    ensures PutDirect(s, b, m).cont == s.cont
  {
    hide WakeAt, Owes;
  }

  lemma Enters(s: State, b: nat, m: Msg, passed: bool)
    requires b in s.mb
    ensures var mb, n := Enqueued(s.mb, b, Stamped(s, m), passed), Arriving(s.mb[b], m, RunningPid(s));
      && b in mb && OnlyBox(s, s.(mb := mb), b, s.mb[b].(acc := s.mb[b].acc + [n], queue := s.mb[b].queue + [n], passed := mb[b].passed))
  {
  }

  /**
    A put that had to wait goes on: its message, stamped with the pid of the caller, goes to the
    end of the queue as soon as there is room, and the call returns 1; until then it waits again.
  */
  lemma PutGoesOn(s: State, a: Tid, b: nat, m: Msg)
    requires KernelInv(s) && Calling(s, a) && Co(s, a) == PutRetry(b, m)
    ensures b in s.mb
    ensures var s' := Step(s, Continue);
      if |s.mb[b].queue| < s.mb[b].cap then
        Queued(s, s', b, Arriving(s.mb[b], m, Get(s.pid, a))) && Co(s', a) == User
      else
        WaitsAt(s, s', a, Writers(b)) && Co(s', a) == PutRetry(b, m)
  {
    hide KernelInv, Ready, PutWait, Enqueued, WaitsAt, Lock, LockReturn, FlagReturn, Pay;
    assert Ow(s.k, a).Nothing? by { Nothing(s.k); }
    assert Step(s, Continue) == PutReturn(s, a);
    Scheduled(s);
    RetryBox(s, a);
    hide Step;
    if Full(s.mb, b) {
      PutWaits(s, a, b, m);
    } else {
      Enters(s, b, m, L(s.k.q, Readers(b)) != []);
    }
  }

  lemma Nothing(k: Sched)
    requires Ready(k)
    ensures Ow(k, k.cpu.active.value).Nothing?
  {
  }

  lemma RetryBox(s: State, a: Tid)
    requires KernelInv(s) && Co(s, a).PutRetry?
    ensures Co(s, a).mbox in s.mb
  {
    hide SchedOk, MutexOk, FlagInv, MsgSpec.MsgInv, BoxesOk, WaitersOk, MsgSteps.Tabled;
  }

  /** Until it goes on, nobody can make it forget its message. */
  lemma PutStays(s: State, e: Event, t: Tid)
    requires Enabled(s, e) && Co(s, t).PutRetry? && !GoesOn(s, e, t)
    ensures Co(Step(s, e), t) == Co(s, t)
  {
    hide ThreadCall, IsrCall, IsrEnter, IsrExit, SchedRun, Pay, CallOk, IsrOk, Lock, LockReturn, PutReturn, FlagReturn;
    if !Acts(s, e, t) {
      OthersRemain(s, e, t);
    }
  }

  // ---- Getting ----

  /** The first blocked writer, if there is one, left the list and is PENDING. */
  ghost predicate WriterLeft(s: State, s': State, b: nat) {
    var q := L(s.k.q, Writers(b));
    if q == [] then s'.k.status == s.k.status
    else L(s'.k.q, Writers(b)) == q[1..] && s'.k.status == s.k.status[q[0] := Pending]
  }

  lemma WakesWriter(s: State, b: nat)
    requires SchedOk(s.k) && InContext(s.k)
    ensures var k', q := WriterWake(s.k, b), L(s.k.q, Writers(b));
      if q == [] then k'.status == s.k.status
      else L(k'.q, Writers(b)) == q[1..] && k'.status == s.k.status[q[0] := Pending]
  {
    hide SchedOk, WakeAt, Owes;
    OwesStatus(s.k, Owe.Nothing);
    if L(s.k.q, Writers(b)) != [] {
      WakeWaiterOk(s.k, Writers(b));
      WakeStatus(s.k, Writers(b), 0);
      OwesStatus(WakeAt(s.k, Writers(b), 0), Switch(Pr(s.k, L(s.k.q, Writers(b))[0])));
    }
  }

  /**
    `mbox_get` and `mbox_try_get`: the oldest message is delivered, the first blocked writer is
    woken, and the call returns 1. From an empty mailbox a blocking call waits as a reader; any
    other returns 0 and nothing happens.
  */
  lemma GetEffect(s: State, e: Event, b: nat, block: bool)
    requires KernelInv(s) && Enabled(s, e)
    requires e == Thr(MboxGet(b, block)) || (e.Intr? && e.call.MboxGet? && e.call.b == b && !block)
    ensures b in s.mb && GetDone(s, Step(s, e), b, block)
  {
    hide KernelInv, Ready, Fetch, GetDone;
    assert Step(s, e) == Fetch(s, b, block);
    Scheduled(s);
    InCtx(s, e);
    GetCases(s, b, block);
  }

  ghost predicate GetDone(s: State, s': State, b: nat, block: bool)
    requires b in s.mb
  {
    var box := s.mb[b];
    if box.queue != [] then
      && s'.ret == Ret.Int(1) && s'.cont == s.cont && s'.wait == s.wait && WriterLeft(s, s', b)
      && OnlyBox(s, s', b, box.(dlv := box.dlv + [box.queue[0]], queue := box.queue[1..]))
    else if block then
      s.k.cpu.active.Some? && s'.ret == Ret.Int(1) && WaitsAt(s, s', s.k.cpu.active.value, Readers(b))
    else
      s' == s.(ret := Ret.Int(0))
  }

  lemma GetCases(s: State, b: nat, block: bool)
    requires SchedOk(s.k) && InContext(s.k) && b in s.mb && (block ==> Ready(s.k))
    ensures GetDone(s, Fetch(s, b, block), b, block)
  {
    hide SchedOk, InContext, WriterWake, GetWait, WaitsAt;
    if s.mb[b].queue != [] {
      WakesWriter(s, b);
    } else if block {
      GetWaits(s, s.k.cpu.active.value, b);
    }
  }

  lemma GetWaits(s: State, a: Tid, b: nat)
    requires SchedOk(s.k) && Calling(s, a)
    ensures var s' := GetWait(s, a, b); s'.ret == Ret.Int(1) && WaitsAt(s, s', a, Readers(b))
  {
    hide SchedOk, Calling, Owes, Block;
    WaitsInList(s, a, Readers(b));
  }

  /** A mailbox is empty when it is initialised, of the size asked for. */
  lemma InitBoxEffect(s: State, b: nat, cap: nat)
    requires Enabled(s, Thr(MboxInit(b, cap)))
    ensures var s' := Step(s, Thr(MboxInit(b, cap)));
      OnlyBox(s, s', b, Mbox(cap, [], [], [], false)) && s' == s.(mb := s'.mb)
  {
    hide Ready;
  }
}
