/**
  Mailboxes over whole runs: exactly when messages leave in the order they came, and that
  without blocking puts they always do.
*/
module MboxRuns {
  import opened Wrappers
  import opened Sched
  import opened Reschedule
  import opened KernelState
  import opened MboxSpec
  import opened Frames
  import opened Kernel
  import opened KernelSteps
  import opened Remainders
  import opened Runs

  // ---- What one step can do to one mailbox ----

  datatype Change =
    | Same            // nothing
    | Queued(m: Msg)  // a message goes into the queue
    | Direct(m: Msg)  // a message goes straight to a blocked reader
    | Fetched         // the oldest queued message is taken

  predicate IsChange(c: Change, box: Mbox, box': Mbox) {
    match c
    case Same => box'.acc == box.acc && box'.dlv == box.dlv && box'.queue == box.queue
    case Queued(m) =>
      m.uid == |box.acc| && box'.acc == box.acc + [m] && box'.dlv == box.dlv && box'.queue == box.queue + [m]
    case Direct(m) =>
      m.uid == |box.acc| && box'.acc == box.acc + [m] && box'.dlv == box.dlv + [m] && box'.queue == box.queue
    case Fetched =>
      box.queue != [] && box'.acc == box.acc && box'.dlv == box.dlv + [box.queue[0]] && box'.queue == box.queue[1..]
  }

  /** The step puts a message into mailbox `b`. */
  predicate PutsInto(s: State, e: Event, b: nat) {
    ((e.Thr? && s.k.cpu.active.Some?) || e.Intr?) && e.call.MboxPut? && e.call.b == b
  }

  predicate DirectPut(s: State, e: Event, b: nat) {
    PutsInto(s, e, b) && L(s.k.q, Readers(b)) != []
  }

  ghost predicate BoxChange(c: Change, s: State, s': State, b: nat) {
    b in s.mb && b in s'.mb && IsChange(c, s.mb[b], s'.mb[b])
  }

  lemma SameBox(s: State, s': State, b: nat)
    requires b in s.mb && s'.mb == s.mb
    ensures BoxChange(Same, s, s', b)
  {
  }

  lemma PutDirectChange(s: State, b0: nat, m: Msg, b: nat) returns (c: Change)
    requires L(s.k.q, Readers(b0)) != [] && b0 in s.mb && b in s.mb
    ensures BoxChange(c, s, PutDirect(s, b0, m), b) && (c.Direct? <==> b == b0)
  {
    hide Owes, WakeAt;
    c := if b == b0 then Direct(Numbered(s.mb[b], m)) else Same;
  }

  lemma EnqueuedChange(s: State, s': State, b0: nat, m: Msg, passed: bool, b: nat) returns (c: Change)
    requires b0 in s.mb && b in s.mb && s'.mb == Enqueued(s.mb, b0, m, passed)
    ensures BoxChange(c, s, s', b) && !c.Direct?
  {
    c := if b == b0 then Queued(Numbered(s.mb[b], m)) else Same;
  }

  lemma PutChange(s: State, b0: nat, m: Msg, block: bool, b: nat) returns (c: Change)
    requires b0 in s.mb && b in s.mb
    ensures BoxChange(c, s, Put(s, b0, m, block), b) && (c.Direct? <==> b == b0 && L(s.k.q, Readers(b0)) != [])
  {
    hide PutDirect, PutWait, Enqueued, Stamped, Full, BoxChange;
    var s' := Put(s, b0, m, block);
    if L(s.k.q, Readers(b0)) != [] {
      c := PutDirectChange(s, b0, m, b);
    } else if !Full(s.mb, b0) {
      c := EnqueuedChange(s, s', b0, Stamped(s, m), false, b);
    } else {
      c := Same;
      if s.k.cpu.active.Some? {
        WaitBox(s, b0, m);
      }
      SameBox(s, s', b);
    }
  }

  lemma WaitBox(s: State, b: nat, m: Msg)
    requires s.k.cpu.active.Some?
    ensures PutWait(s, s.k.cpu.active.value, b, m).mb == s.mb
  {
    hide Owes, Block;
  }

  lemma PutReturnChange(s: State, a: Tid, b: nat) returns (c: Change)
    requires Co(s, a).PutRetry? && Co(s, a).mbox in s.mb && b in s.mb
    ensures BoxChange(c, s, PutReturn(s, a), b) && !c.Direct?
  {
    hide Enqueued, Stamped, Full, Owes, Block, BoxChange;
    var b0, s' := Co(s, a).mbox, PutReturn(s, a);
    if Full(s.mb, b0) {
      c := Same;
      SameBox(s, s', b);
    } else {
      c := EnqueuedChange(s, s', b0, Stamped(s, Co(s, a).m), L(s.k.q, Readers(b0)) != [], b);
    }
  }

  lemma FetchChange(s: State, b0: nat, block: bool, b: nat) returns (c: Change)
    requires b0 in s.mb && b in s.mb
    ensures BoxChange(c, s, Fetch(s, b0, block), b) && !c.Direct?
  {
    hide WriterWake, Owes, Block;
    c := if b == b0 && s.mb[b].queue != [] then Fetched else Same;
  }

  lemma InitChange(s: State, b0: nat, cap: nat, b: nat)
    requires b0 !in s.mb && b in s.mb
    ensures BoxChange(Same, s, InitBox(s, b0, cap), b)
  {
  }

  lemma CallChange(s: State, a: Tid, call: Call, b: nat) returns (c: Change)
    requires MboxCall(call) && CallOk(s, a, call) && b in s.mb
    ensures BoxChange(c, s, FlagMboxStep(s, a, call), b)
    ensures c.Direct? <==> call.MboxPut? && call.b == b && L(s.k.q, Readers(b)) != []
  {
    hide Put, Fetch, InitBox, BoxChange;
    if call.MboxPut? {
      c := PutChange(s, call.b, call.msg, call.block, b);
    } else if call.MboxGet? {
      c := FetchChange(s, call.b, call.block, b);
    } else {
      c := Same;
      InitChange(s, call.b, call.cap, b);
    }
  }

  lemma IsrChange(s: State, call: Call, b: nat) returns (c: Change)
    requires MboxCall(call) && IsrOk(s, call) && b in s.mb
    ensures BoxChange(c, s, IsrOtherStep(s, call), b)
    ensures c.Direct? <==> call.MboxPut? && call.b == b && L(s.k.q, Readers(b)) != []
  {
    hide Put, Fetch, BoxChange;
    if call.MboxPut? {
      c := PutChange(s, call.b, call.msg, false, b);
    } else {
      c := FetchChange(s, call.b, false, b);
    }
  }

  /**
    Every kernel step does one of four things to a mailbox: a message passes the queue exactly
    in a put that finds a blocked reader.
  */
  lemma MboxTransition(s: State, e: Event, b: nat) returns (c: Change)
    requires KernelInv(s) && Enabled(s, e) && b in s.mb
    ensures BoxChange(c, s, Step(s, e), b) && (c.Direct? <==> DirectPut(s, e, b))
  {
    hide SchedOk, MutexSpec.MutexOk, FlagSpec.FlagInv, MsgSpec.MsgInv, BoxesOk, WaitersOk, MsgSteps.Tabled;
    hide BoxChange, FlagMboxStep, IsrOtherStep, PutReturn, CallOk, IsrOk, Elsewhere;
    if !InMbox(s, e) {
      c := Same;
      Unboxed(s, e);
      SameBox(s, Step(s, e), b);
    } else {
      match e
      case Thr(call) => c := CallChange(s, s.k.cpu.active.value, call, b);
      case Intr(call) => c := IsrChange(s, call, b);
      case Continue => c := PutReturnChange(s, s.k.cpu.active.value, b);
      case _ => c := Same;
    }
  }

  lemma Unboxed(s: State, e: Event)
    requires !InMbox(s, e)
    ensures Step(s, e).mb == s.mb
  {
    hide Step, InMbox, FamilyIn, InFamily;
    StepElsewhere(s, e);
  }

  lemma PutKeys(s: State, b0: nat, m: Msg, block: bool, b: nat)
    requires b0 in s.mb && b !in s.mb
    ensures b !in Put(s, b0, m, block).mb
  {
    hide Owes, Block, WakeAt, Full, Stamped, Numbered;
  }

  lemma FetchKeys(s: State, b0: nat, block: bool, b: nat)
    requires b0 in s.mb && b !in s.mb
    ensures b !in Fetch(s, b0, block).mb
  {
    hide Owes, Block, WriterWake;
  }

  lemma PutReturnKeys(s: State, a: Tid, b: nat)
    requires Co(s, a).PutRetry? && Co(s, a).mbox in s.mb && b !in s.mb
    ensures b !in PutReturn(s, a).mb
  {
    hide Owes, Block, Full, Stamped, Numbered;
  }

  predicate Empty(box: Mbox) {
    box.acc == [] && box.dlv == [] && box.queue == []
  }

  lemma CallBox(s: State, a: Tid, call: Call, b: nat)
    requires MboxCall(call) && CallOk(s, a, call) && b !in s.mb
    ensures b in FlagMboxStep(s, a, call).mb ==> Empty(FlagMboxStep(s, a, call).mb[b])
  {
    hide Put, Fetch;
    if call.MboxPut? {
      PutKeys(s, call.b, call.msg, call.block, b);
    } else if call.MboxGet? {
      FetchKeys(s, call.b, call.block, b);
    }
  }

  lemma IsrBox(s: State, call: Call, b: nat)
    requires MboxCall(call) && IsrOk(s, call) && b !in s.mb
    ensures b !in IsrOtherStep(s, call).mb
  {
    hide Put, Fetch;
    if call.MboxPut? {
      PutKeys(s, call.b, call.msg, false, b);
    } else {
      FetchKeys(s, call.b, false, b);
    }
  }

  /** A mailbox that a step creates is empty. */
  lemma NewBox(s: State, e: Event, b: nat)
    requires KernelInv(s) && Enabled(s, e) && b !in s.mb
    ensures b in Step(s, e).mb ==> Empty(Step(s, e).mb[b])
  {
    hide SchedOk, MutexSpec.MutexOk, FlagSpec.FlagInv, MsgSpec.MsgInv, BoxesOk, WaitersOk, MsgSteps.Tabled;
    hide FlagMboxStep, IsrOtherStep, PutReturn, CallOk, IsrOk, Empty;
    if !InMbox(s, e) {
      Unboxed(s, e);
    } else {
      match e
      case Thr(call) => CallBox(s, s.k.cpu.active.value, call, b);
      case Intr(call) => IsrBox(s, call, b);
      case Continue => PutReturnKeys(s, s.k.cpu.active.value, b);
      case _ =>
    }
  }

  // ---- Order ----

  /** Messages leave in the order they came. */
  predicate Fifo(box: Mbox) {
    box.acc == box.dlv + box.queue
  }

  /** Puts are numbered from 0. */
  predicate Counted(box: Mbox) {
    forall i :: 0 <= i < |box.acc| ==> box.acc[i].uid == i
  }

  /** A delivered message is not the one that was due. */
  predicate Broken(box: Mbox) {
    exists i :: 0 <= i < |box.dlv| && box.dlv[i].uid != i
  }

  lemma BrokenNotFifo(box: Mbox)
    requires Counted(box) && Broken(box)
    ensures !Fifo(box)
  {
    var i :| 0 <= i < |box.dlv| && box.dlv[i].uid != i;
    assert (box.dlv + box.queue)[i] == box.dlv[i];
  }

  lemma ChangeOrder(c: Change, box: Mbox, box': Mbox)
    requires IsChange(c, box, box') && Counted(box) && (Fifo(box) || Broken(box))
    ensures Counted(box')
    ensures Broken(box) || (c.Direct? && box.queue != []) ==> Broken(box')
    ensures Fifo(box) && !(c.Direct? && box.queue != []) ==> Fifo(box')
  {
    if Broken(box) {
      var i :| 0 <= i < |box.dlv| && box.dlv[i].uid != i;
      assert box'.dlv[i] == box.dlv[i];
    } else {
      FifoChange(c, box, box');
    }
  }

  lemma FifoChange(c: Change, box: Mbox, box': Mbox)
    requires IsChange(c, box, box') && Fifo(box)
    ensures c.Direct? && box.queue != [] ==> Broken(box')
    ensures !(c.Direct? && box.queue != []) ==> Fifo(box')
  {
    match c
    case Same =>
    case Queued(m) => assert box.dlv + (box.queue + [m]) == box.acc + [m];
    case Direct(m) =>
      assert box'.dlv[|box.dlv|] == m;
      assert box.queue == [] ==> box.dlv + [m] + box.queue == box.acc + [m];
    case Fetched => assert box.dlv + [box.queue[0]] + box.queue[1..] == box.dlv + box.queue;
  }

  /** The step hands a message to a blocked reader although older ones are queued. */
  predicate Overtakes(s: State, e: Event, b: nat) {
    DirectPut(s, e, b) && BoxOf(s.mb, b).queue != []
  }

  /** Some step of the run does. */
  predicate Overtaken(s: State, es: seq<Event>, b: nat)
    decreases |es|
  {
    es != [] && (Overtakes(s, es[0], b) || Overtaken(Step(s, es[0]), es[1..], b))
  }

  ghost predicate Tracked(s: State, b: nat) {
    b in s.mb ==> Counted(s.mb[b]) && (Fifo(s.mb[b]) || Broken(s.mb[b]))
  }

  predicate FifoAt(s: State, b: nat) {
    b in s.mb ==> Fifo(s.mb[b])
  }

  lemma StepOrder(s: State, e: Event, b: nat)
    requires KernelInv(s) && Enabled(s, e) && Tracked(s, b)
    ensures Tracked(Step(s, e), b)
    ensures FifoAt(Step(s, e), b) <==> FifoAt(s, b) && !Overtakes(s, e, b)
  {
    hide KernelInv, Enabled, Step, DirectPut, IsChange, Counted, Broken, Fifo;
    if b in s.mb {
      var c := MboxTransition(s, e, b);
      var box, box' := s.mb[b], Step(s, e).mb[b];
      ChangeOrder(c, box, box');
      if Broken(box) {
        BrokenNotFifo(box);
      }
      if Broken(box') {
        BrokenNotFifo(box');
      }
    } else if b in Step(s, e).mb {
      NewBox(s, e, b);
      EmptyBox(Step(s, e).mb[b]);
    }
  }

  lemma EmptyBox(box: Mbox)
    requires Empty(box)
    ensures Counted(box) && Fifo(box)
  {
  }

  lemma {:induction false} RunOrder(s: State, es: seq<Event>, b: nat)
    requires KernelInv(s) && Valid(s, es) && Tracked(s, b)
    ensures FifoAt(After(s, es), b) <==> FifoAt(s, b) && !Overtaken(s, es, b)
    decreases |es|
  {
    hide KernelInv, Enabled, Step, Sorts, Overtakes, Tracked, FifoAt;
    if es != [] {
      StepKeeps(s, es[0]);
      StepOrder(s, es[0], b);
      RunOrder(Step(s, es[0]), es[1..], b);
    }
  }

  /**
    After every run: the messages of a mailbox have left, and will leave, in the order they
    came if and only if no put of the run handed its message to a blocked reader while older
    messages were queued.
  */
  lemma FifoExact(t: Tid, prio: nat, es: seq<Event>, b: nat)
    requires prio < PRIO_LEVELS && Valid(Init(t, prio), es) && b in After(Init(t, prio), es).mb
    ensures var box := After(Init(t, prio), es).mb[b];
      box.acc == box.dlv + box.queue <==> !Overtaken(Init(t, prio), es, b)
  {
    hide KernelInv, Valid, After, Overtaken;
    InitOk(t, prio);
    RunOrder(Init(t, prio), es, b);
  }

  // ---- Runs without blocking puts ----

  /** No thread waits to put a message, and none ever passed a blocked reader. */
  ghost predicate Orderly(s: State) {
    && (forall t :: t in s.cont ==> !s.cont[t].PutRetry?)
    && (forall b :: b in s.mb ==> !s.mb[b].passed)
  }

  predicate BlockingPut(e: Event) {
    e.Thr? && e.call.MboxPut? && e.call.block
  }

  lemma ElsewhereOrderly(s: State, s': State, a: Tid, f: Family)
    requires Orderly(s) && Elsewhere(s, s', a, f) && f != MboxFamily
    ensures Orderly(s')
  {
  }

  /** At most one mailbox changes, and not in whether a reader was passed. */
  predicate OneBox(s: State, s': State, b: nat) {
    s'.cont == s.cont && b in s'.mb && s'.mb == s.mb[b := s'.mb[b]] && s'.mb[b].passed == BoxOf(s.mb, b).passed
  }

  lemma OneBoxOrderly(s: State, s': State, b: nat)
    requires Orderly(s) && OneBox(s, s', b)
    ensures Orderly(s')
  {
  }

  lemma PutDirectBox(s: State, b: nat, m: Msg)
    requires L(s.k.q, Readers(b)) != []
    ensures OneBox(s, PutDirect(s, b, m), b)
  {
    hide Owes, WakeAt;
  }

  lemma EnqueuedOneBox(s: State, b: nat, m: Msg)
    ensures OneBox(s, s.(mb := Enqueued(s.mb, b, m, false), ret := Ret.Int(1)), b)
  {
  }

  lemma PutOrderly(s: State, b: nat, m: Msg)
    requires Orderly(s)
    ensures Orderly(Put(s, b, m, false))
  {
    hide Orderly, OneBox, PutDirect, Enqueued, Stamped, Full, Elsewhere, Still;
    if L(s.k.q, Readers(b)) != [] {
      PutDirectBox(s, b, m);
      OneBoxOrderly(s, PutDirect(s, b, m), b);
    } else if !Full(s.mb, b) {
      EnqueuedOneBox(s, b, Stamped(s, m));
      OneBoxOrderly(s, Put(s, b, m, false), b);
    } else {
      Returns(s, Ret.Int(0));
      StillOrderly(s, s.(ret := Ret.Int(0)));
    }
  }

  lemma StillOrderly(s: State, s': State)
    requires Orderly(s) && Still(s, s')
    ensures Orderly(s')
  {
  }

  lemma FetchOrderly(s: State, b: nat, block: bool)
    requires Orderly(s)
    ensures Orderly(Fetch(s, b, block))
  {
    hide WriterWake, Owes, Block;
  }

  lemma InitOrderly(s: State, b: nat, cap: nat)
    requires Orderly(s)
    ensures Orderly(InitBox(s, b, cap))
  {
  }

  lemma MboxOrderly(s: State, e: Event)
    requires Orderly(s) && !BlockingPut(e) && InMbox(s, e)
    ensures Orderly(Step(s, e))
  {
    hide Put, Fetch, Orderly, InitBox;
    match e
    case Thr(c) =>
      if c.MboxPut? {
        PutOrderly(s, c.b, c.msg);
      } else if c.MboxGet? {
        FetchOrderly(s, c.b, c.block);
      } else {
        InitOrderly(s, c.b, c.cap);
      }
    case Intr(c) =>
      if c.MboxPut? {
        PutOrderly(s, c.b, c.msg);
      } else if c.MboxGet? {
        FetchOrderly(s, c.b, false);
      }
    case Continue => NoRetry(s, s.k.cpu.active.value);
    case _ =>
  }

  lemma NoRetry(s: State, a: Tid)
    requires Orderly(s)
    ensures !Co(s, a).PutRetry?
  {
  }

  lemma StepOrderly(s: State, e: Event)
    requires Orderly(s) && !BlockingPut(e)
    ensures Orderly(Step(s, e))
  {
    hide Orderly, Elsewhere, Step, InMbox, BlockingPut, Still;
    if InMbox(s, e) {
      MboxOrderly(s, e);
    } else {
      StepElsewhere(s, e);
      if (e.Thr? || e.Continue?) && s.k.cpu.active.Some? {
        ElsewhereOrderly(s, Step(s, e), s.k.cpu.active.value, FamilyIn(s, e));
      } else {
        StillOrderly(s, Step(s, e));
      }
    }
  }

  /** Readers wait only at an empty box, so nothing is overtaken. */
  lemma OrderlyReaders(s: State, b: nat)
    requires KernelInv(s) && Orderly(s)
    ensures L(s.k.q, Readers(b)) != [] ==> BoxOf(s.mb, b).queue == []
  {
    hide SchedOk, MutexSpec.MutexOk, FlagSpec.FlagInv, MsgSpec.MsgInv, MsgSteps.Tabled, WaitersOk;
  }

  lemma {:induction false} RunOrderly(s: State, es: seq<Event>, b: nat)
    requires KernelInv(s) && Valid(s, es) && Orderly(s) && (forall e :: e in es ==> !BlockingPut(e))
    ensures KernelInv(After(s, es)) && Orderly(After(s, es)) && !Overtaken(s, es, b)
    decreases |es|
  {
    hide KernelInv, Enabled, Orderly, BlockingPut, Step, Sorts, DirectPut;
    if es != [] {
      assert es[0] in es;
      StepKeeps(s, es[0]);
      StepOrderly(s, es[0]);
      OrderlyReaders(s, b);
      DirectReaders(s, es[0], b);
      RunOrderly(Step(s, es[0]), es[1..], b);
    }
  }

  lemma DirectReaders(s: State, e: Event, b: nat)
    ensures DirectPut(s, e, b) ==> L(s.k.q, Readers(b)) != []
  {
  }

  /**
    Without blocking puts a mailbox is a FIFO queue over every run, and readers wait only at an
    empty box.
  */
  lemma FifoWithoutBlockingPuts(t: Tid, prio: nat, es: seq<Event>, b: nat)
    requires prio < PRIO_LEVELS && Valid(Init(t, prio), es) && (forall e :: e in es ==> !BlockingPut(e))
    ensures var s := After(Init(t, prio), es);
      b in s.mb ==> s.mb[b].acc == s.mb[b].dlv + s.mb[b].queue && (L(s.k.q, Readers(b)) != [] ==> s.mb[b].queue == [])
  {
    hide KernelInv, Valid, After, BlockingPut, Overtaken;
    InitOk(t, prio);
    assert Orderly(Init(t, prio));
    RunOrderly(Init(t, prio), es, b);
    OrderlyReaders(After(Init(t, prio), es), b);
    if b in After(Init(t, prio), es).mb {
      FifoExact(t, prio, es, b);
    }
  }
}
