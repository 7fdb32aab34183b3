/**
  The state of the kernel: the scheduler, and what the mutexes, messages, thread flags and
  mailboxes keep beside it. A kernel call is one critical section, the reschedule it owes,
  and possibly more sections once the thread runs again; `Cont` is that remainder.
*/
module KernelState {
  import opened Wrappers
  import opened Sched
  import opened Reschedule

  /** Who sent a message. */
  datatype Source = Isr | Thread(tid: Tid)

  /** `dst` and `uid` only record history: the thread a send was for, and the number of the send or put. */
  datatype Msg = Msg(pid: nat, src: Source, dst: Tid, uid: nat, body: int)

  /** What `wait_data` points to or holds. */
  datatype Wait = Null | Buffer(m: Msg) | Mask(bits: bv16)

  datatype Cont =
    | User
    | Locking(mutex: nat)              // mutex_lock, after _block
    | CancelCheck(mc: nat)             // mutex_lock_cancelable, after _block
    | Relock(mutex: nat)               // cond_wait, before mutex_lock
    | ClearAny(mask: bv16)             // thread_flags_wait_any, before clearing
    | ReadOne(mask: bv16)              // thread_flags_wait_one, before reading
    | ClearOne(mask: bv16, bit: bv16)  // thread_flags_wait_one, before clearing
    | ClearAll(mask: bv16)             // thread_flags_wait_all, before clearing
    | PutRetry(mbox: nat, m: Msg)      // _mbox_put, after _wait

  /** The value the last completed call returned. */
  datatype Ret = NoRet | Int(v: int) | Cancelled | Flags(bits: bv16)

  /**
    `mark` holds the mutexes whose `queue.next` is MUTEX_LOCKED. `holds` only records history:
    it pairs a thread with a mutex it was given and that has not been unlocked since.
  */
  datatype Mutexes = Mutexes(mark: set<nat>, holds: set<(Tid, nat)>)

  /** `mutex_cancel_t` */
  datatype Canceller = Canceller(mutex: nat, thread: Tid, cancelled: bool)

  /**
    What a receiver has: `cap` is the size of its message queue (0 without one) and `queue`
    the contents. `acc` and `dlv` record the messages accepted for it and handed to it.
  */
  datatype Chan = Chan(cap: nat, queue: seq<Msg>, acc: seq<Msg>, dlv: seq<Msg>)

  datatype Messages = Messages(ch: map<Tid, Chan>, uid: nat)

  /**
    `acc` and `dlv` as above. `passed` records that a writer which had to wait put its message
    into the queue although a reader was blocked.
  */
  datatype Mbox = Mbox(cap: nat, queue: seq<Msg>, acc: seq<Msg>, dlv: seq<Msg>, passed: bool)

  datatype State = State(
    k: Sched,
    mx: Mutexes,
    mc: map<nat, Canceller>,
    ms: Messages,
    mb: map<nat, Mbox>,
    fl: map<Tid, bv16>,
    wait: map<Tid, Wait>,
    cont: map<Tid, Cont>,
    pids: map<nat, Tid>,
    pid: map<Tid, nat>,
    ret: Ret)

  function FlagsOf(fl: map<Tid, bv16>, t: Tid): bv16 {
    if t in fl then fl[t] else 0
  }

  function WaitOf(wait: map<Tid, Wait>, t: Tid): Wait {
    if t in wait then wait[t] else Null
  }

  function Co(s: State, t: Tid): Cont {
    if t in s.cont then s.cont[t] else User
  }

  /** The thread that may make a kernel call. */
  predicate Calling(s: State, a: Tid) {
    s.k.cpu.active == Some(a) && Ready(s.k)
  }
}
