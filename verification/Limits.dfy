/**
  Promises that the code does not keep on every input, each with a run from the start that
  ends in the failure. The exact conditions are `SendReceiveExact`, `ReplyExact`,
  `InitQueueExact`, `ChangePriorityExact`, `FifoExact`, `LockExact` and `CancelableExact`.
*/
module Limits {
  import opened Wrappers
  import opened Queues
  import opened Sched
  import opened Reschedule
  import opened KernelState
  import opened MutexSpec
  import opened FlagSpec
  import opened MsgOrder
  import opened MsgSpec
  import opened MsgSteps
  import opened MboxSpec
  import opened ThreadSpec
  import opened Kernel
  import opened Runs
  import opened Traces

  const START: State := Init(0, P)

  lemma Started()
    ensures At(START, 1, [0])
    ensures forall id: ListId :: !id.Run? ==> L(START.k.q, id) == []
    ensures START.mx == Mutexes({}, {}) && START.cont == map[] && START.mc == map[] && START.mb == map[]
    ensures START.ms.ch.Keys == {0} && START.pids == map[1 := 0]
  {
  }

  /** `msg_send_receive` to a pid that no thread has leaves the caller running off its run queue. */
  lemma MissingTarget(t: Tid, prio: nat, body: int)
    requires prio < PRIO_LEVELS
    ensures var s := Init(t, prio); KernelInv(s) && !SchedOk(SendReceive(s, t, 2, body).k)
  {
    hide SchedOk, MutexOk, FlagInv, MsgInv, MboxInv, Tabled, SendReceive;
    InitOk(t, prio);
    SendReceiveExact(Init(t, prio), t, 2, body);
  }

  // ---- Mutexes ----

  const CREATE_1 := Thr(ThreadCreate(1, P, Quietly, 0))
  const CREATE_2 := Thr(ThreadCreate(2, P, Quietly, 0))
  const LOCK := Thr(MutexLock(5, true))
  const UNLOCK := Thr(MutexUnlock(5))

  /** Thread 0 takes mutex 5, thread 1 queues for it, and thread 0 runs again. */
  const CONTENDED: seq<Event> := [LOCK, CREATE_1, YIELD, Continue, Continue, LOCK, Continue]

  lemma Contended() returns (es: seq<Event>, s: State)
    ensures es == CONTENDED && Valid(START, es) && s == After(START, es)
    ensures At(s, 2, [0]) && WaitedFor(s, 5, 1) && s.mx.holds == {(0, 5)} && Co(s, 1) == Locking(5)
    ensures s.mc == map[] && 2 !in s.cont && 2 !in s.ms.ch && s.pids == map[1 := 0, 2 := 1]
  {
    hide Turn, Enabled, Step, Valid, After, Owing, START;
    var es1, s1 := Shared();
    es, s := Passes(START, es1, s1, 2, 0, [1]);
    assert [1] + [0] == [1, 0];
    WaitsForLock(s, 2, [1, 0], 5);
    es, s := Then(START, es, s, LOCK);
    Switching(s, 2, 1, [0]);
    es, s := Then(START, es, s, Continue);
    assert es == CONTENDED;
  }

  /** Thread 0 has the mutex; thread 1 is runnable. */
  lemma Shared() returns (es: seq<Event>, s: State)
    ensures es == [LOCK, CREATE_1] && Valid(START, es) && s == After(START, es)
    ensures At(s, 2, [0] + [1]) && Taken(s, 5) && s.mx.holds == {(0, 5)} && Co(s, 1) == User
    ensures s.mc == map[] && 2 !in s.cont && 2 !in s.ms.ch && s.pids == map[1 := 0, 2 := 1]
  {
    hide Turn, Enabled, Step, Valid, After, Owing, START, FreePid;
    Started();
    Begin(START);
    assert Unlocked(START.k.q, START.mx, 5);
    Locks(START, 1, [0], 5);
    es, s := Then(START, [], START, LOCK);
    Creates(s, 1, [0]);
    NextPid(s.pids, 2);
    es, s := Then(START, es, s, CREATE_1);
  }

  /**
    Thread 0 unlocks the mutex for thread 1 and sleeps; before thread 1 gets to run, thread 2,
    which does not hold the mutex, unlocks it. Then `mutex_lock` returns to thread 1, which
    does not hold the mutex either.
  */
  const STOLEN: seq<Event> := CONTENDED + [CREATE_2, Thr(MutexUnlockAndSleep(5)), Continue, UNLOCK, Thr(ThreadSleep), Continue]

  /** The mutex was handed to thread 1, but thread 2 runs first. */
  lemma HandedOver() returns (es: seq<Event>, s: State)
    ensures es == CONTENDED + [CREATE_2, Thr(MutexUnlockAndSleep(5)), Continue] && Valid(START, es) && s == After(START, es)
    ensures At(s, 3, [2, 1]) && Taken(s, 5) && Co(s, 1) == Locking(5)
  {
    hide Turn, Enabled, Step, Valid, After, Owing, START, Calling, FreePid;
    es, s := Contended();
    Creates(s, 2, [0]);
    es, s := Then(START, es, s, CREATE_2);
    assert [0] + [2] == [0, 2];
    HandsOverAndSleeps(s, 3, [0, 2], 5, 1);
    es, s := Then(START, es, s, Thr(MutexUnlockAndSleep(5)));
    assert [2] + [1] == [2, 1];
    Switching(s, 3, 0, [2, 1]);
    es, s := Then(START, es, s, Continue);
  }

  lemma LockReturnsWithout()
    ensures Valid(START, STOLEN + [Continue])
    ensures var s, s' := After(START, STOLEN), After(START, STOLEN + [Continue]);
      Calling(s, 1) && Co(s, 1) == Locking(5) && Co(s', 1) == User && s'.ret == Ret.Int(1) && (1, 5) !in s'.mx.holds
  {
    hide Turn, Enabled, Step, Valid, After, Owing, START, Calling;
    var es, s := HandedOver();
    Frees(s, 3, [2, 1], 5);
    es, s := Then(START, es, s, UNLOCK);
    Sleeps(s, 3, [2, 1]);
    es, s := Then(START, es, s, Thr(ThreadSleep));
    Switching(s, 3, 2, [1]);
    es, s := Then(START, es, s, Continue);
    assert es == STOLEN;
    Returns(s, 3, [1]);
    es, s := Then(START, es, s, Continue);
  }

  lemma Returns(s: State, n: nat, r: seq<Tid>)
    requires Turn(s.k, n, r) && (Co(s, r[0]).Locking? || Co(s, r[0]).CancelCheck?)
    ensures Enabled(s, Continue) && Calling(s, r[0]) && Step(s, Continue) == LockReturn(s, r[0])
  {
    hide NoDup, LockReturn;
  }

  /**
    Thread 1 waits in `mutex_lock_cancelable` and is handed the mutex; thread 0 cancels before
    thread 1 gets to run. Then the call reports cancellation to a thread that holds the mutex.
  */
  const CANCELLED_LATE: seq<Event> :=
    [LOCK, CREATE_1, YIELD, Continue, Continue, Thr(MutexCancelInit(0, 5)), Thr(MutexLockCancelable(0)), Continue]
    + [UNLOCK, Continue, Thr(MutexCancel(0)), YIELD, Continue, Continue]

  lemma WaitingCancelably() returns (es: seq<Event>, s: State)
    ensures Valid(START, es) && s == After(START, es)
    ensures es == [LOCK, CREATE_1, YIELD, Continue, Continue, Thr(MutexCancelInit(0, 5)), Thr(MutexLockCancelable(0)), Continue]
    ensures At(s, 2, [0]) && WaitedFor(s, 5, 1) && Co(s, 1) == CancelCheck(0) && 0 in s.mc && s.mc[0] == Canceller(5, 1, false)
  {
    hide Turn, Enabled, Step, Valid, After, Owing, START;
    var es1, s1 := Shared();
    es, s := Passes(START, es1, s1, 2, 0, [1]);
    assert [1] + [0] == [1, 0];
    InitsCancel(s, 2, [1, 0], 0, 5);
    es, s := Then(START, es, s, Thr(MutexCancelInit(0, 5)));
    WaitsCancelably(s, 2, [1, 0], 0, 5);
    es, s := Then(START, es, s, Thr(MutexLockCancelable(0)));
    Switching(s, 2, 1, [0]);
    es, s := Then(START, es, s, Continue);
  }

  lemma CancelledHolder()
    ensures Valid(START, CANCELLED_LATE + [Continue])
    ensures var s, s' := After(START, CANCELLED_LATE), After(START, CANCELLED_LATE + [Continue]);
      Calling(s, 1) && Co(s, 1) == CancelCheck(0) && Co(s', 1) == User && s'.ret == Ret.Cancelled && (1, 5) in s'.mx.holds
  {
    hide Turn, Enabled, Step, Valid, After, Owing, START, Calling;
    var es, s := WaitingCancelably();
    HandsOver(s, 2, [0], 5, 1);
    es, s := Then(START, es, s, UNLOCK);
    Settling(s, 2, [0] + [1]);
    es, s := Then(START, es, s, Continue);
    CancelsLate(s, 2, [0] + [1], 0);
    es, s := Then(START, es, s, Thr(MutexCancel(0)));
    es, s := Passes(START, es, s, 2, 0, [1]);
    assert es == CANCELLED_LATE;
    Returns(s, 2, [1] + [0]);
    es, s := Then(START, es, s, Continue);
  }

  // ---- Mailboxes ----

  function Put(body: int, block: bool): Event {
    Thr(MboxPut(0, Msg(0, Isr, 0, 0, body), block))
  }

  const GET := Thr(MboxGet(0, true))

  /**
    Thread 0 fills a mailbox of one slot and has to wait to put another message; thread 1
    takes the first message, which wakes thread 0, and waits for the next. When thread 0 goes
    on, it puts its message into the queue, and thread 1 stays blocked.
  */
  const PASSED: seq<Event> :=
    [CREATE_1, Thr(MboxInit(0, 1)), Put(10, false), Put(11, true), Continue, Continue]
    + [GET, Continue, GET, Continue, Continue] + [Continue]

  lemma BoxFilled() returns (es: seq<Event>, s: State)
    ensures es == [CREATE_1, Thr(MboxInit(0, 1)), Put(10, false)] && Valid(START, es) && s == After(START, es)
    ensures At(s, 2, [0] + [1]) && L(s.k.q, Writers(0)) == [] && L(s.k.q, Readers(0)) == [] && Co(s, 1) == User
    ensures 0 in s.mb && s.mb[0].cap == 1 && |s.mb[0].queue| == 1 && |s.mb[0].acc| == 1 && s.mb[0].dlv == []
  {
    hide Turn, Enabled, Step, Valid, After, Owing, START, FreePid, Stamped;
    Started();
    Begin(START);
    Creates(START, 1, [0]);
    NextPid(START.pids, 2);
    es, s := Then(START, [], START, CREATE_1);
    InitsBox(s, 2, [0] + [1], 0, 1);
    es, s := Then(START, es, s, Thr(MboxInit(0, 1)));
    Enqueues(s, 2, [0] + [1], 0, Msg(0, Isr, 0, 0, 10));
    es, s := Then(START, es, s, Put(10, false));
  }

  lemma WriterWaits() returns (es: seq<Event>, s: State)
    ensures es == [CREATE_1, Thr(MboxInit(0, 1)), Put(10, false), Put(11, true), Continue, Continue]
    ensures Valid(START, es) && s == After(START, es)
    ensures At(s, 2, [1]) && L(s.k.q, Writers(0)) == [0] && L(s.k.q, Readers(0)) == []
    ensures Co(s, 0) == PutRetry(0, Msg(0, Isr, 0, 0, 11))
    ensures 0 in s.mb && s.mb[0].cap == 1 && |s.mb[0].queue| == 1 && |s.mb[0].acc| == 1 && s.mb[0].dlv == []
  {
    hide Turn, Enabled, Step, Valid, After, Owing, START;
    es, s := BoxFilled();
    WaitsToPut(s, 2, [0] + [1], 0, Msg(0, Isr, 0, 0, 11));
    es, s := Then(START, es, s, Put(11, true));
    assert ([0] + [1])[1..] == [1];
    Rotating(s, 2, 0, [1]);
    es, s := Then(START, es, s, Continue);
    Switching(s, 2, 0, [1]);
    es, s := Then(START, es, s, Continue);
  }

  lemma ReaderWaits() returns (es: seq<Event>, s: State)
    ensures es + [Continue] == PASSED && Valid(START, es) && s == After(START, es)
    ensures Turn(s.k, 2, [0]) && L(s.k.q, Readers(0)) == [1] && Co(s, 0) == PutRetry(0, Msg(0, Isr, 0, 0, 11))
    ensures 0 in s.mb && s.mb[0].cap == 1 && s.mb[0].queue == [] && |s.mb[0].acc| == |s.mb[0].dlv| == 1
  {
    hide Turn, Enabled, Step, Valid, After, Owing, START;
    es, s := WriterWaits();
    Fetches(s, 2, [1], 0, 0);
    es, s := Then(START, es, s, GET);
    assert [1] + [0] == [1, 0];
    Settling(s, 2, [1, 0]);
    es, s := Then(START, es, s, Continue);
    WaitsToGet(s, 2, [1, 0], 0);
    es, s := Then(START, es, s, GET);
    Rotating(s, 2, 1, [0]);
    es, s := Then(START, es, s, Continue);
    Switching(s, 2, 1, [0]);
    es, s := Then(START, es, s, Continue);
    assert es + [Continue] == PASSED;
  }

  /** Beside the blocked reader there is a message; the next put overtakes it. */
  lemma WriterPassesReader()
    ensures Valid(START, PASSED + [Put(12, false)])
    ensures var s, s' := After(START, PASSED), After(START, PASSED + [Put(12, false)]);
      && 0 in s.mb && s.mb[0].queue != [] && L(s.k.q, Readers(0)) == [1]
      && 0 in s'.mb && s'.mb[0].acc != s'.mb[0].dlv + s'.mb[0].queue
  {
    hide Turn, Enabled, Step, Valid, After, Owing, START, Stamped;
    var es, s := ReaderWaits();
    Retries(s, 2, [0], 0, Msg(0, Isr, 0, 0, 11));
    es, s := Then(START, es, s, Continue);
    HandsToReader(s, 2, [0], 0, Msg(0, Isr, 0, 0, 12));
    var box := s.mb[0];
    es, s := Then(START, es, s, Put(12, false));
    assert s.mb[0].acc[1].uid == 1 && (s.mb[0].dlv + s.mb[0].queue)[1].uid == 2;
  }

  // ---- Messages ----

  lemma StartKeeps(es: seq<Event>)
    requires Valid(START, es)
    ensures KernelInv(After(START, es))
  {
    hide KernelInv, Valid, After;
    InitOk(0, P);
    RunKeeps(START, es);
  }

  lemma InvParts(s: State)
    requires KernelInv(s)
    ensures SchedOk(s.k) && Inv(s.k) && MsgInv(s)
  {
  }

  /** Thread 1 is in `msg_send_receive` to thread 0, which has not received the request yet. */
  const UNRECEIVED: seq<Event> := [CREATE_1, YIELD, Continue, Continue, Thr(MsgSendReceive(1, 0)), Continue]

  lemma Created() returns (s: State)
    ensures Valid(START, [CREATE_1]) && s == After(START, [CREATE_1]) && At(s, 2, [0] + [1]) && Co(s, 1) == User
    ensures s.pids == map[1 := 0, 2 := 1] && s.pid == map[0 := 1, 1 := 2] && L(s.k.q, SendQ(0)) == [] && !Room(s.ms, 0)
  {
    hide Turn, Enabled, Step, Valid, After, Owing, START, FreePid;
    Started();
    StartPids();
    Begin(START);
    Creates(START, 1, [0]);
    NextPid(START.pids, 2);
    var es;
    es, s := Then(START, [], START, CREATE_1);
    assert [] + [CREATE_1] == [CREATE_1];
  }

  lemma StartPids()
    ensures START.pid == map[0 := 1] && START.ms.ch == map[0 := EMPTY_CHAN]
  {
  }

  lemma Unreceived() returns (s: State)
    ensures Valid(START, UNRECEIVED) && s == After(START, UNRECEIVED)
    ensures Turn(s.k, 2, [0]) && St(s.k, 1).ReplyBlocked? && 1 in s.k.q.on && 2 in s.pids && s.pids[2] == 1
  {
    hide Turn, Enabled, Step, Valid, After, Owing, START, Room;
    s := Created();
    var es;
    es, s := Passes(START, [CREATE_1], s, 2, 0, [1]);
    assert [1] + [0] == [1, 0] && [1, 0][1..] == [0];
    Requests(s, 2, [1, 0], 1, 0);
    es, s := Then(START, es, s, Thr(MsgSendReceive(1, 0)));
    Switching(s, 2, 1, [0]);
    es, s := Then(START, es, s, Continue);
    assert es == UNRECEIVED;
  }

  /** A reply to it now puts its node on two lists. */
  lemma EarlyReply(reply: Msg)
    ensures Valid(START, UNRECEIVED)
    ensures var q := Step(After(START, UNRECEIVED), Thr(MsgReply(2, reply))).k.q; !ListsOk(q.lists, q.on)
  {
    hide Turn, Step, Valid, After, Owing, START, KernelInv, ListsOk, SchedOk, Inv, MsgInv;
    var s := Unreceived();
    StartKeeps(UNRECEIVED);
    InvParts(s);
    OnTwoLists(s.k, 1);
    Active(s.k, 2, [0]);
    ReplyLists(s, 0, 2, reply);
  }

  lemma Active(k: Sched, n: nat, r: seq<Tid>)
    requires Turn(k, n, r)
    ensures k.cpu.active == Some(r[0]) && !k.cpu.isr
  {
  }

  lemma ReplyLists(s: State, a: Tid, pid: nat, reply: Msg)
    requires pid in s.pids && St(s.k, s.pids[pid]).ReplyBlocked? && s.k.cpu.active == Some(a) && !s.k.cpu.isr
    ensures Step(s, Thr(MsgReply(pid, reply))).k.q == SetStatus(s.k, s.pids[pid], Pending).q
  {
    hide SetStatus;
  }

  /** A second message queue drops what the first one held. */
  lemma QueueDropped(body: int)
    ensures var es := [Thr(MsgInitQueue(2)), Thr(MsgSend(1, body, true))];
      Valid(START, es) && !MsgInv(Step(After(START, es), Thr(MsgInitQueue(2))))
  {
    hide Turn, Enabled, Step, Valid, After, Owing, START, KernelInv, SchedOk, Inv, MsgInv;
    Started();
    StartPids();
    Begin(START);
    InitsQueue(START, 1, [0], 2);
    var es, s := Then(START, [], START, Thr(MsgInitQueue(2)));
    SendsToItself(s, 1, [0], body);
    es, s := Then(START, es, s, Thr(MsgSend(1, body, true)));
    assert es == [Thr(MsgInitQueue(2)), Thr(MsgSend(1, body, true))];
    StartKeeps(es);
    InvParts(s);
    InitQueueExact(s, 0, 2);
    Active(s.k, 1, [0]);
    QueueAgain(s, 0, 2);
  }

  lemma QueueAgain(s: State, a: Tid, n: nat)
    requires s.k.cpu.active == Some(a)
    ensures Step(s, Thr(MsgInitQueue(n))) == InitQueue(s, a, n)
  {
  }

  // ---- Priorities ----

  /** Threads 0 and 1 share a run queue; raising the priority of the second one unlinks the first. */
  lemma WrongThreadMoved()
    ensures Valid(START, [CREATE_1])
    ensures var q := Step(After(START, [CREATE_1]), Thr(ThreadPriority(1, 3))).k.q; !ListsOk(q.lists, q.on)
  {
    hide Turn, Enabled, Step, Valid, After, Owing, START, KernelInv, SchedOk, Inv, MsgInv, ListsOk, Room;
    var s := Created();
    StartKeeps([CREATE_1]);
    InvParts(s);
    SecondInQueue(s.k);
    ChangePriorityExact(s.k, 1, 3);
    Active(s.k, 2, [0] + [1]);
    PriorityLists(s, 0, 1, 3);
  }

  lemma SecondInQueue(k: Sched)
    requires Turn(k, 2, [0] + [1])
    ensures OnRunqueue(St(k, 1)) && Pr(k, 1) == P && !IsHead(k, 1)
  {
    assert ([0] + [1])[1] == 1;
  }

  lemma PriorityLists(s: State, a: Tid, t: Tid, p: nat)
    requires s.k.cpu.active == Some(a) && !s.k.cpu.isr && Pr(s.k, t) != p
    ensures Step(s, Thr(ThreadPriority(t, p))).k.q == Reprioritised(s.k, t, p).q
  {
    hide Reprioritised;
  }
}
