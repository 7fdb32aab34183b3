# Verified model of the RIOT kernel core, the crt0 loader and their algorithms

The repository runs RIOT applications on Pip partitions. This project models the part that has
to be right for everything else: the RIOT kernel core (scheduler, threads, mutexes, condition
variables, messages, mailboxes, thread flags), the list, sort, bit and buffer algorithms below
it, the recursive mutex above it, the loader that relocates a linked image, and the Fletcher-32
checksum.

## How it is organised

- `Sched`, `Reschedule`: run queues, bit cache, wait lists, statuses, and which thread runs.
- `MutexSpec`, `FlagSpec`, `MsgSpec` with `MsgOrder` and `MsgSteps`, `MboxSpec`, `ThreadSpec`: each
  kernel call as a function on `KernelState.State`, its invariant, and that the calls keep it.
- `Kernel`: the kernel as a state machine. A step is one section of a call that runs with
  interrupts disabled, a reschedule that a thread still owes, the rest of a call that blocked, or
  entering and leaving an interrupt; a yield with interrupts disabled is only requested.
  `Frames`, `KernelSteps`: every step keeps every invariant. `Runs`, `MutexRuns`, `LockRuns` with
  `Remainders`, `MsgRuns`, `ReplyRuns`, `CondRuns`, `MboxRuns`, `FlagRuns`: what follows for whole
  runs.
- `LockCalls`, `FlagCalls`, `MsgCalls`, `MboxCalls`, `ThreadCalls`: for every call, what has happened
  when it returns, blocks or fails, in terms of the state before and after the step. `FlagSets`:
  words of flags as sets. `Requests`, `Buffers`: that a reply reaches the thread that made the
  request, and that a blocked call returns with what it was given, over whole runs.
- `ListMemory`: all lists in one memory of `next` pointers, one per thread, and that the pointer
  writes do to the lists what the specification says.
- `SchedImpl`, `KernelImpl`: the global state as objects and the C routines as methods that update
  them in place, on those pointers and on the bit cache as a machine word. `KernelRun`: the object
  refines the state machine, so that every theorem about reachable states holds of it.
- `Limits`: promises the code does not keep on every input, each with a run from the start-up
  state to the failure, built with `Traces`. The lemmas whose names end in `Exact` say exactly
  when it does keep them.
- `Bits`, `MergeSort` and `ClistSort`, `Cib`, `RingBuffer`, `RMutex`, `Fletcher32`, `Crt0` and
  `Crt0Start`: the algorithms around the kernel.

Fields named `ticket`, `clock`, `on`, `lazy`, `holds`, `acc`, `dlv`, `uid` and `passed` record
history for the statements; no decision depends on them. In the state machine a list is the
sequence of threads its root leads to; in the objects it exists only as pointers, and no step
of a run lets the two drift apart. The precondition of the lock methods, that a mutex marked
MUTEX_LOCKED has no waiters, says that one pointer cannot be both; `KernelRun` shows it always
holds.

What callers must respect (`CallOk`, `IsrOk` in `Kernel`) is what the exact conditions and the
documentation demand:

- `msg_send_receive` needs an existing other thread, and a reply a request that was received.
- `msg_init_queue` needs an empty queue, and no waiting sender unless the size is zero.
- `sched_change_priority` needs a thread on no wait list that is the head if it is runnable.
- `mutex_lock_cancelable` is called by the thread its canceller names; a canceller is not
  initialised again while its call is under way; and `mutex_cancel` is not called once that thread
  uses the mutex again (the warning at `RIOT/core/include/mutex.h:361-363`).
- A mailbox is initialised before its use, and once.
- A created thread has an address that no thread has had.
- `sched_switch` needs an active thread, also in an interrupt handler.

Where the code and its comments disagree, the model follows the code: the copy loop of the
loader's `memcpy` leaves up to 7 single bytes, not 3, and returns the end of the destination; the
nested `mutex_unlock` of `cond_wait` leaves a context switch request behind, which the following
yield serves; `thread_create` does not initialise the thread flags, which are a parameter here.

## Model

| member | source | states |
|---|---|---|
| `Runs.ListsInvariant` | RIOT/core/sched.c:230-279 | In every reachable state no list node is on two lists or twice on one; a thread is on the run queue of its own priority exactly if its status says so, otherwise on at most the kind of wait list its status names; a bit of the cache is set exactly if that queue is not empty; wait lists are ordered by priority, then arrival |
| `Runs.RunningIsHighest` | RIOT/core/sched.c:147-225 | Whenever a thread executes its own code with nothing owed, its status is RUNNING, it is the head of its run queue and no runnable thread has strictly higher priority, unless a thread was created with THREAD_CREATE_WOUT_YIELD since the last scheduler run |
| `Runs.SenderOrder` | RIOT/core/msg.c:86-181 | For every receiver and sender: delivered, then queued, then held by the blocked sender is exactly the accepted messages of that sender in order |
| `Runs.MessageInOnePlace` | RIOT/core/msg.c:350-437 | An accepted message is in exactly one of those places, exactly once; nothing else is in any of them |
| `Runs.ReceiverStructure` | RIOT/core/msg.c:112-173 | Senders wait only behind a full queue; a thread blocked in receive has no queued message and no waiting sender |
| `Runs.NoMissedFlags` | RIOT/core/thread_flags.c:28-159 | A thread is blocked on flags only while none (ANY) or not all (ALL) of its masked flags are set |
| `Runs.MailboxConserves` | RIOT/core/mbox.c:60-127 | Accepted is delivered plus queued as multisets, within capacity; FIFO, and no reader blocked beside a message, unless a woken writer passed a blocked reader |
| `Runs.MutualExclusion` | RIOT/core/mutex.c:50-230 | At most one holder per mutex; a mutex is locked, marked or with waiters, exactly if it has a holder; a marked one has no waiters |
| `Runs.PidsUnique` | RIOT/core/thread.c:265-284 | The thread table names each thread at most once, under the pid that the thread carries, and every thread that is not stopped is in it |
| `Runs.InitOk` | RIOT/core/thread.c:191-331 | The state after start-up with one thread meets every invariant |
| `Runs.RunKeeps` | RIOT/core/sched.c:147-225 | Every invariant holds after every run of allowed events, whatever the interleaving of threads and interrupts |
| `KernelSteps.StepKeeps` | RIOT/core/mutex.c:50-262 | Every single step keeps all invariants and touches only the state of its own subsystem |
| `MutexRuns.MutexTransition` | RIOT/core/mutex.c:154-200 | Every kernel step does one of six things to a mutex; it is taken only while free and without waiters, an unlock with waiters hands it to the first in the same step, a waiter queues by priority behind its equals, a cancelled waiter is removed in place |
| `MutexRuns.NeverOvertaken` | RIOT/core/thread.c:154-172 | Over every run, while a thread waits for a mutex, no thread of the same or lower priority that was not ahead of it gets the mutex or gets ahead |
| `LockRuns.WindowStep` | RIOT/core/mutex.c:154-200 | Between hand-off and return a thread keeps the mutex exactly until the next unlock, whoever it comes from, and a thread that was not handed it does not get it |
| `LockRuns.LockExact` | RIOT/core/mutex.c:85-113 | Whatever happens in between, mutex_lock returns holding the mutex if and only if nobody unlocked it between the hand-off and the return |
| `LockRuns.LockReturnsHolder` | RIOT/core/cond.c:35-51 | In every run from start-up in which the mutex is unlocked only by threads that hold it, mutex_lock and cond_wait return holding it |
| `LockRuns.CancelableExact` | RIOT/core/mutex.c:115-152 | mutex_lock_cancelable returns 0 if and only if it was not cancelled between hand-off and return, and holding the mutex if and only if nobody unlocked it there |
| `LockRuns.CancelableReturnsHolder` | RIOT/core/mutex.c:115-152 | In every run from start-up with proper unlocks and no cancel in that window, it returns 0 exactly to holders |
| `LockRuns.CancelledReturns` | RIOT/core/mutex.c:232-262 | A waiter that was cancelled returns the cancellation and without the mutex, whatever happens until it runs |
| `LockRuns.CancelableAtOnce` | RIOT/core/mutex.c:115-137 | A call that does not block returns 0 exactly if it got the mutex |
| `LockCalls.LockResult` | RIOT/core/mutex.c:85-113 | A lock call that is through returns 1 exactly if the caller now has the mutex and had not before, which is exactly if it was free; 0 comes only from trylock and changes nothing; any other call leaves the caller queued and blocked |
| `LockCalls.CancelableResult` | RIOT/core/mutex.c:115-152 | A call cancelled before returns that and changes nothing; else it returns 0 with the mutex exactly if that was free, and otherwise the caller is queued and blocked |
| `LockCalls.FreshCanceller` | RIOT/core/include/mutex.h:233-238 | A fresh canceller for a mutex makes the cancellable lock call take, or wait for, exactly that mutex |
| `LockCalls.UnlockResult` | RIOT/core/mutex.c:154-200 | Unlocking makes the first waiter PENDING and changes no other status |
| `LockCalls.UnlockAndSleepResult` | RIOT/core/mutex.c:202-230 | So does unlocking with falling asleep, whose caller is SLEEPING |
| `LockCalls.CancelResult` | RIOT/core/mutex.c:232-262 | The canceller is marked; its thread, if it was queued, is out of the queue and PENDING; no other canceller, holder or status changes |
| `MsgRuns.MsgTransition` | RIOT/core/msg.c:350-437 | Every kernel step does one of eight things to a receiver's inbox: nothing is queued or handed over past a waiting sender, and a receive takes the oldest message and moves the first sender up |
| `MsgRuns.SenderNotOvertaken` | RIOT/core/msg.c:145-154 | Over every run, while a sender waits, no message of a thread of the same or lower priority that was not ahead of it reaches the receiver or its queue |
| `MsgRuns.SendResult` | RIOT/core/msg.c:64-84 | A send returns 1 exactly if its message, with the pid of the caller and the given content, was accepted as the last one; -1 without a target, 0 without room, and then nothing changes; a blocking send fails only to the own full queue or without a target |
| `MsgRuns.SendIsrResult` | RIOT/core/msg.c:194-240 | The interrupt send returns 1 exactly if its message was accepted as the last one, and otherwise changes nothing |
| `MsgRuns.RequestAccepted` | RIOT/core/msg.c:274-288 | A request to an existing thread is always accepted as the last message, with the pid of the caller |
| `MsgRuns.OnlyReplyEnds` | RIOT/core/msg.c:290-338 | A thread leaves REPLY_BLOCKED only by a reply aimed at it, its buffer then holds that reply, and until then the buffer does not change |
| `ReplyRuns.OnlyRequestStarts` | RIOT/core/msg.c:274-288 | A thread gets into REPLY_BLOCKED only by its own msg_send_receive |
| `ReplyRuns.SecondReplyFails` | RIOT/core/msg.c:290-319 | After a reply, over every run without a new request of that thread, a further reply returns -1 and changes nothing |
| `MsgRuns.RequestCopiedOut` | RIOT/core/msg.c:417-427 | When a reply may overwrite the buffer, the request in it has been delivered or is in the receiver's queue |
| `MsgCalls.SendEffect` | RIOT/core/msg.c:64-192 | The message, signed with the pid of the caller, is accepted for its target and nobody else: a blocked receiver has it in its buffer and is PENDING, any other has its message flag set; or the call fails for want of a target or of room, and nothing happens |
| `MsgCalls.SendIsrEffect` | RIOT/core/msg.c:194-240 | The same from an interrupt handler, which never waits |
| `MsgCalls.RequestEffect` | RIOT/core/msg.c:274-288 | The request is sent likewise, and the caller is REPLY_BLOCKED with the request in its buffer |
| `MsgCalls.ReceiveEffect` | RIOT/core/msg.c:350-437 | The oldest message, queued or held by the first sender, is delivered; that sender leaves the list, goes on unless it waits for a reply, and its message moves up; without a message the call blocks or returns -1 |
| `MsgCalls.InitQueueEffect` | RIOT/core/msg.c:478-484 | The caller has an empty queue of the size asked for, and nothing else changes |
| `MsgCalls.AnswerEffect` | RIOT/core/msg.c:290-338 | A reply to a waiting thread returns 1, fills its buffer and makes it PENDING; to any other it returns -1 and nothing happens |
| `Requests.AcceptedSigned` | RIOT/core/msg.c:86-110 | Every kernel step accepts at most one message for a receiver, and it is signed by the thread, or the interrupt handler, that makes the step |
| `Requests.MessagesNameSender` | RIOT/core/msg.c:86-110 | After every run, every accepted message carries the pid of its sender, and the thread table leads from that pid to the sender as long as it is not stopped |
| `Requests.ReplyReaches` | RIOT/core/msg.c:274-319 | In every reachable state the pid in the request of a thread that waits for a reply leads back to it, and a reply to that pid returns 1, wakes it and fills its buffer |
| `Buffers.OnlySelfBlocks` | RIOT/core/sched.c:265-279 | A thread that can run is blocked, its buffer written and messages delivered to it only by its own steps |
| `Buffers.ReceiveStep` | RIOT/core/msg.c:165-178 | In every step a thread blocked in msg_receive stays there with nothing delivered, or gets exactly one message, in its buffer |
| `Buffers.ReceiveReturns` | RIOT/core/msg.c:376-395 | A msg_receive that blocks: until the thread makes its next call it still waits, or exactly one message was delivered and is in its buffer, whatever others do |
| `Buffers.RequestReturns` | RIOT/core/msg.c:274-288 | A msg_send_receive: until the thread makes its next call it still waits with the request in its buffer, or its buffer holds the first reply made to it |
| `CondRuns.SignalWakesFirst` | RIOT/core/cond.c:53-78 | Signal wakes exactly the first waiter, broadcast exactly all; the first is ahead of every other by priority, then arrival |
| `CondRuns.WaitIsAtomic` | RIOT/core/cond.c:35-51 | Releasing the mutex (freed or handed over) and queueing on the condition variable happen in one step |
| `CondRuns.RelockEffect` | RIOT/core/cond.c:48-51 | When cond_wait goes on after its wake-up it gets the mutex or waits in its queue, nothing else |
| `LockCalls.CondWaitResult` | RIOT/core/cond.c:35-51 | The caller is COND_BLOCKED with the mutex still to be locked again, the first waiter for the mutex is PENDING, and nobody else changes |
| `LockCalls.OnlySignalWakes` | RIOT/core/cond.c:53-78 | Over every step, a thread waits for a condition variable until exactly that one is signalled |
| `LockCalls.WaitRelocks` | RIOT/core/cond.c:44-51 | A thread in cond_wait gets back to its own code only with the mutex, or is queued for it |
| `LockCalls.SignalResult` | RIOT/core/cond.c:53-78 | By thread or interrupt handler: the first waiter, or all, are out of the list and PENDING, and nothing else changes |
| `MboxRuns.MboxTransition` | RIOT/core/mbox.c:60-127 | Every kernel step does one of four things to a mailbox: nothing, append to the queue, take its first message, or hand a message to a blocked reader, the last exactly in a put that finds one |
| `MboxRuns.FifoExact` | RIOT/core/mbox.c:60-127 | After every run from start-up the messages of a mailbox left, and will leave, in the order they came if and only if no put handed its message to a blocked reader while older ones were queued |
| `MboxRuns.FifoWithoutBlockingPuts` | RIOT/core/mbox.c:60-95 | Over every run without blocking puts a mailbox is FIFO and readers wait only at an empty box |
| `Sched.PushOk` | RIOT/core/sched.c:230-246 | Appending an unlinked thread to a run queue keeps each node on one list and the bit cache exact |
| `Sched.PopOk` | RIOT/core/sched.c:251-263 | Popping a run queue keeps each node on one list and the bit cache exact, also when the queue becomes empty |
| `Sched.AddOk` | RIOT/core/thread.c:154-172 | Inserting by priority keeps the list invariant |
| `Sched.SortedInsert` | RIOT/core/thread.c:154-172 | The insertion point found keeps the list ordered by priority, then arrival |
| `Sched.RunOk` | RIOT/core/sched.c:147-225 | The scheduler touches no list and no blocked thread, idles exactly if no queue has a thread, and otherwise makes the head of a queue of highest priority active and RUNNING; the thread that ran before is PENDING unless it blocked, and nobody else changes |
| `Reschedule.Quiescent` | RIOT/core/sched.c:281-305 | Every wake-up asks for a reschedule when it must: with nothing owed the running thread is a head of highest priority |
| `Reschedule.YieldRoundRobin` | RIOT/core/thread.c:141-152 | Threads of equal priority take turns: after thread_yield its caller is last in its run queue and the thread that was next in line runs |
| `Reschedule.PayOk` | RIOT/core/thread.c:141-152 | Carrying out an owed reschedule keeps the scheduler invariants |
| `Reschedule.IsrExitOk` | RIOT/cpu/cortexm_common/include/cpu.h:178-183 | Serving the pending request at the end of an interrupt keeps them |
| `MutexSpec.LockOk` | RIOT/core/mutex.c:85-113 | Locking keeps the scheduler and mutex invariants, whether it succeeds, fails or blocks |
| `MutexSpec.UnlockOk` | RIOT/core/mutex.c:154-200 | So does unlocking, with the reschedule for the woken waiter owed |
| `MutexSpec.CancelOk` | RIOT/core/mutex.c:232-262 | Cancelling keeps the holder, the locked state and the order of the other waiters |
| `MutexSpec.CondWaitOk` | RIOT/core/cond.c:35-51 | Waiting keeps the scheduler and mutex invariants |
| `FlagSpec.FlagsSetOk` | RIOT/core/thread_flags.c:145-159 | Setting flags keeps the invariants: a satisfied waiter is woken and a reschedule owed |
| `FlagSpec.FlagReturnValue` | RIOT/core/thread_flags.c:108-143 | In one step: wait_all returns its mask, wait_any the masked flags (not none), wait_one the single flag of its mask that it picked |
| `FlagRuns.OnlyOwnerClears` | RIOT/core/thread_flags.c:61-70 | A step that is not one of the thread itself clears none of its flags |
| `FlagRuns.WaitReturns` | RIOT/core/thread_flags.c:108-143 | Whatever others do meanwhile, wait_all returns exactly the flags of its mask and wait_any those of them that are set, at least one; exactly the masked flags are cleared |
| `FlagRuns.WaitOneReturns` | RIOT/core/thread_flags.c:116-125 | wait_one returns and clears the single flag that was the lowest masked one when it looked; until it clears it, only more flags can be set |
| `FlagSets.SetOps` | RIOT/core/thread_flags.c:61-70 | Setting, masking and clearing bits are union, intersection and difference of sets of flags |
| `FlagSets.WaitOps` | RIOT/core/thread_flags.c:28-54 | The two wait conditions are that some, or all, masked flags are in the set |
| `FlagSets.LowestSet` | RIOT/core/thread_flags.c:116-125 | The bit that wait_one picks is the least element of the set |
| `FlagCalls.SetResult` | RIOT/core/thread_flags.c:145-159 | By thread or interrupt handler: the flags of the mask are added, the thread is PENDING exactly if that ends its wait, and no other flags or statuses change |
| `FlagCalls.ClearResult` | RIOT/core/thread_flags.c:85-93 | The masked flags of the caller are returned and cleared, and only those |
| `FlagCalls.WaitAnyResult` | RIOT/core/thread_flags.c:95-125 | Blocks, with the mask stored, exactly if no masked flag is set; nothing is cleared yet |
| `FlagCalls.WaitAllResult` | RIOT/core/thread_flags.c:127-143 | Blocks, with the mask stored, exactly if some masked flag is missing |
| `MsgSteps.SendOk` | RIOT/core/msg.c:64-192 | Sending in all three ways keeps the scheduler, flag and message invariants |
| `MsgSteps.SendIsrOk` | RIOT/core/msg.c:194-240 | So does sending from an interrupt |
| `MsgSteps.ReceiveOk` | RIOT/core/msg.c:350-437 | So does receiving in all four ways; the refill finds a free slot |
| `MsgSteps.SendReceiveExact` | RIOT/core/msg.c:274-288 | msg_send_receive leaves the scheduler sound if and only if the target exists |
| `MsgSteps.ReplyExact` | RIOT/core/msg.c:290-338 | A reply to a waiting thread leaves the lists sound if and only if its request is no longer in a sender list |
| `MsgSteps.InitQueueExact` | RIOT/core/msg.c:478-484 | A new message queue keeps the message invariant if and only if the old one is empty and no sender waits for room |
| `MboxSpec.PutOk` | RIOT/core/mbox.c:60-95 | Putting keeps the scheduler and mailbox invariants |
| `MboxSpec.FetchOk` | RIOT/core/mbox.c:97-127 | So does getting, which wakes the first writer |
| `MboxSpec.PutReturnOk` | RIOT/core/mbox.c:77-94 | So does a writer that goes on after waiting |
| `MboxCalls.PutEffect` | RIOT/core/mbox.c:60-95 | By thread or interrupt handler: the message goes to the first blocked reader, which is PENDING with it in its buffer, or stamped with the caller to the end of the queue, and 1 is returned; with a full queue and no reader a blocking call waits, any other returns 0 and nothing happens |
| `MboxCalls.PutGoesOn` | RIOT/core/mbox.c:77-94 | A put that waited queues its message as soon as there is room and returns 1; until then it waits again |
| `MboxCalls.PutStays` | RIOT/core/mbox.c:77-94 | Until then nobody can change its mailbox or its message |
| `MboxCalls.GetEffect` | RIOT/core/mbox.c:97-127 | The oldest message is delivered, the first blocked writer is woken and 1 is returned; from an empty mailbox a blocking call waits as a reader, any other returns 0 and nothing happens |
| `MboxCalls.InitBoxEffect` | RIOT/core/include/mbox.h:62-68 | The mailbox is empty, of the size asked for, and no other changes |
| `ThreadSpec.ChangePriorityExact` | RIOT/core/sched.c:335-370 | Re-prioritising a runnable thread keeps every node on one list if and only if it is the head of its queue |
| `ThreadSpec.ChangeWaiterExact` | RIOT/core/sched.c:335-370 | Re-prioritising a waiting thread keeps the wait list ordered if and only if it still belongs between its neighbours |
| `ThreadSpec.ChangePriorityOk` | RIOT/core/sched.c:335-370 | Under those conditions the highest-priority rule is kept as well |
| `ThreadSpec.FreePid` | RIOT/core/thread.c:267-281 | The lowest free pid, and none only if all are taken |
| `ThreadSpec.ExitOk` | RIOT/core/sched.c:307-326 | An exiting thread is stopped and never active again, and the scheduler stays sound |
| `ThreadSpec.WakeupOk` | RIOT/core/thread.c:112-139 | Waking a sleeper keeps the scheduler sound although its status becomes RUNNING |
| `ThreadCalls.SleepResult` | RIOT/core/thread.c:56-110 | The caller is SLEEPING or ZOMBIE and on no list; nobody else changes |
| `ThreadCalls.WakeupResult` | RIOT/core/thread.c:112-139 | A sleeping thread is runnable again, last in its run queue, and 1 is returned; otherwise -1 and nothing happens |
| `ThreadCalls.KillZombieResult` | RIOT/core/thread.c:71-97 | A zombie is STOPPED and exactly its pid free again; otherwise -1 and nothing happens |
| `ThreadCalls.ExitResult` | RIOT/core/sched.c:307-326 | The caller is STOPPED, on no list and not active, exactly its pid is free again, and no other thread is blocked or woken |
| `ThreadCalls.CreateResult` | RIOT/core/thread.c:191-331 | Bad priority and full table fail and nothing happens; else the thread has the lowest free pid, the priority asked for, an empty inbox, and sleeps or is last in its run queue; nobody else changes |
| `ThreadCalls.PriorityResult` | RIOT/core/sched.c:335-370 | The thread has the new priority, last in that run queue if it is runnable; no other priority and no status changes |
| `ThreadCalls.YieldResult` | RIOT/core/thread.c:141-152 | Once the call of thread_yield and its reschedule are through, its caller is last in its run queue and the next in line runs |
| `ThreadCalls.InterruptResult` | RIOT/cpu/cortexm_common/include/cpu.h:178-183 | Nothing is switched inside a handler; at its end a pending request is served, so that the head of the best queue runs, except inside the idle loop |
| `Limits.MissingTarget` | RIOT/core/msg.c:274-288 | msg_send_receive to a pid without thread breaks the scheduler invariant |
| `Limits.EarlyReply` | RIOT/core/msg.c:290-319 | After a run in which a request still waits in the sender list, a reply to it puts a node on two lists |
| `Limits.WrongThreadMoved` | RIOT/core/sched.c:335-370 | After creating a second thread of the same priority, raising it unlinks the first |
| `Limits.LockReturnsWithout` | RIOT/core/mutex.c:85-113 | A run in which an unlock by a third thread makes mutex_lock return to a thread that does not hold the mutex |
| `Limits.WriterPassesReader` | RIOT/core/mbox.c:77-94 | A run in which a resumed writer leaves a reader blocked beside its message, and the next put overtakes it |
| `Limits.CancelledHolder` | RIOT/core/mutex.c:115-152 | A run in which a cancel between hand-off and return makes the call report cancellation to the holder |
| `Limits.QueueDropped` | RIOT/core/msg.c:478-484 | After a run that queued a message, a second msg_init_queue breaks the message invariant |
| `ListMemory.PushHolds` | RIOT/core/lib/include/clist.h:132-142 | Linking an unlinked thread at the end of a circular run queue appends to that list and leaves every other list in the same memory as it was |
| `ListMemory.PopHolds` | RIOT/core/lib/include/clist.h:173-188 | Unlinking the first node of a run queue drops the first thread of that list and changes no other |
| `ListMemory.RotateHolds` | RIOT/core/lib/include/clist.h:203-208 | Moving the root of a run queue on by one node moves its first thread to the end |
| `ListMemory.AddHolds` | RIOT/core/thread.c:154-172 | Linking an unlinked thread at the place of its priority inserts it there in that wait list and changes no other list |
| `ListMemory.UnlinkHolds` | RIOT/core/lib/include/list.h:67-96 | Redirecting the pointer to the i-th waiter removes exactly that waiter |
| `ListMemory.PushSound` | RIOT/core/sched.c:230-246 | Pushing a thread keeps each node on one list and the pointers in step exactly if the thread was not linked already; otherwise its node is on two lists or twice on one |
| `ListMemory.AddSound` | RIOT/core/thread.c:154-172 | The same for adding a thread to a wait list |
| `SchedImpl.Scheduler.RunqueuePush` | RIOT/core/sched.c:230-246 | The pointer writes and the bit set in the machine word, in either bit order, do what the specified push does to the lists and the set of queues |
| `SchedImpl.Scheduler.RunqueuePop` | RIOT/core/sched.c:251-263 | So do those of the pop, which clears the bit exactly if the root pointer became null |
| `SchedImpl.Scheduler.SetStatus` | RIOT/core/sched.c:265-279 | The status change moves the thread on or off its run queue as specified, and keeps the pointers in step unless it links a node twice |
| `SchedImpl.Scheduler.SchedRun` | RIOT/core/sched.c:147-225 | From the machine word, in either bit order, and two pointers it finds the head that the linear scan over all queues finds; it idles exactly if there is none |
| `SchedImpl.Scheduler.AddToList` | RIOT/core/thread.c:154-172 | The pointer walk terminates at the specified insertion point and links the thread there |
| `SchedImpl.Scheduler.Find` | RIOT/core/lib/include/list.h:86-96 | The pointer walk terminates at the first occurrence of the thread, or at the end exactly if it is absent |
| `SchedImpl.Scheduler.WakeAt` | RIOT/core/lib/include/list.h:67-96 | The waiter that a place points to is unlinked and made pending, and the pointers stay in step |
| `SchedImpl.Scheduler.Advance` | RIOT/core/lib/include/clist.h:203-208 | One write to the root rotates the run queue as specified |
| `KernelImpl.Kernel.BlockWaiter` | RIOT/core/mutex.c:50-83 | Both ways of linking a waiter (replacing MUTEX_LOCKED, or inserting) equal the ordered insert |
| `KernelImpl.Kernel.HandOver` | RIOT/core/mutex.c:154-184 | Frees the mutex or hands it to the first waiter, with the locked marker exact |
| `KernelImpl.Kernel.WakeWaiters` | RIOT/core/cond.c:60-72 | The loop terminates, wakes the specified prefix and returns the least priority value among it |
| `KernelImpl.Kernel.FindPid` | RIOT/core/thread.c:267-273 | The loop finds the lowest free pid |
| `KernelRun.Do` | RIOT/core/sched.c:147-225 | Every allowed event makes the kernel object take exactly the step of the state machine and keep all invariants; afterwards each thread is linked at most once and the pointers lead through exactly the lists of that state |
| `KernelRun.Execute` | RIOT/core/sched.c:147-225 | Every run of the object is a run of the state machine, with the pointers in step throughout |
| `KernelRun.Boot` | RIOT/core/thread.c:191-331 | A booted object reaches only reachable states, so all theorems about those hold of it |
| `Bits.SetQueue` | RIOT/core/sched.c:94-110 | In both bit orders, setting and clearing a bit of the cache adds and removes exactly that queue |
| `Bits.NoQueues` | RIOT/core/sched.c:152-161 | In both, the cache is zero exactly if no queue has a thread |
| `Bits.Msb` | RIOT/core/lib/bitarithm.c:26-40 | The index of the highest set bit, or 0 for 0 |
| `Bits.Lsb` | RIOT/core/lib/include/bitarithm.h:197-208 | The index of the lowest set bit |
| `Bits.NextRunqueue` | RIOT/core/sched.c:112-119 | In both bit orders the least queue number in the cache |
| `MergeSort.PassBlocks` | RIOT/core/lib/clist.c:67-152 | After the pass with run length k every aligned block of 2k nodes is sorted |
| `MergeSort.SortFromSorted` | RIOT/core/lib/clist.c:52-153 | The passes until one block is left sort the whole list |
| `MergeSort.SortsStably` | RIOT/core/lib/clist.c:52-153 | A permutation, sorted, equal keys in their old order, for every total preorder |
| `ClistSort.MergeRuns` | RIOT/core/lib/clist.c:93-135 | The pointer loop computes the merge of the two runs |
| `ClistSort.OnePass` | RIOT/core/lib/clist.c:68-143 | One pass over the nodes computes the specified pass; it counts at most one merge exactly if two runs cover the list |
| `ClistSort.Sort` | RIOT/core/lib/clist.c:52-153 | The nodes form a circular list again, sorted and stable, and the last one is returned |
| `RMutex.StepExact` | RIOT/core/lib/rmutex.c:35-152 | Every fine-grained step keeps the invariant, except exactly the increment that wraps the 16-bit count |
| `RMutex.RunKeeps` | RIOT/core/lib/rmutex.c:35-152 | The invariant holds after every interleaving |
| `RMutex.RecursiveMutex` | RIOT/core/lib/rmutex.c:35-152 | At most one thread inside; owner is a pid only of the inner mutex's holder; the count is the owner's outstanding calls; both are zero when free; a holder never waits for itself |
| `RMutex.LockReturns` | RIOT/core/lib/rmutex.c:35-126 | Every call over every interleaving: rmutex_lock comes back only as holder and owner, one level deeper; rmutex_trylock returns 1 so, or 0 at the same level, and 0 exactly if another thread had the inner mutex when it tried |
| `RMutex.UnlockReturns` | RIOT/core/lib/rmutex.c:128-152 | rmutex_unlock undoes one level, and the mutex is let go exactly with the last |
| `RMutex.Nested` | RIOT/core/lib/rmutex.c:35-152 | Some run from the start brings a thread to any depth of nested calls below 65536 |
| `RMutex.CountWraps` | RIOT/core/lib/rmutex.c:109-116 | A run from the start after which one more call makes the count zero while the thread owns the mutex 65536 deep |
| `Fletcher32.AddBlock` | 08-fletcher32/fletcher32.c:43-47 | A block of at most 359 words never overflows 32 bits and adds the running sums |
| `Fletcher32.Fletcher` | 08-fletcher32/fletcher32.c:35-55 | The checksum is the total and the running total modulo 65535, zero represented as 0xffff |
| `Fletcher32.DetectsChange` | 08-fletcher32/fletcher32.c:35-55 | Changing one word changes the checksum, except between 0x0000 and 0xffff |
| `Fletcher32.DetectsExchange` | 08-fletcher32/fletcher32.c:35-55 | Exchanging neighbouring words changes it, with the same exception |
| `RingBuffer.Ring.constructor` | RIOT/core/lib/include/ringbuffer.h:58-65 | An empty queue over the given memory |
| `RingBuffer.Ring.AddTail` | RIOT/core/lib/ringbuffer.c:30-38 | Appends one byte |
| `RingBuffer.Ring.GetHead` | RIOT/core/lib/ringbuffer.c:47-55 | Removes and returns the oldest byte |
| `RingBuffer.Ring.Add` | RIOT/core/lib/ringbuffer.c:57-68 | Appends the longest prefix that fits |
| `RingBuffer.Ring.AddOne` | RIOT/core/lib/ringbuffer.c:70-79 | Appends; when full exactly the oldest byte is dropped and returned |
| `RingBuffer.Ring.GetOne` | RIOT/core/lib/ringbuffer.c:81-89 | Removes the oldest byte, or -1 |
| `RingBuffer.Ring.Get` | RIOT/core/lib/ringbuffer.c:91-115 | The one or two block copies deliver and remove the same bytes as single reads |
| `RingBuffer.Ring.GetOneByOne` | RIOT/core/lib/ringbuffer.c:81-89 | What n single reads deliver and leave |
| `RingBuffer.Ring.Remove` | RIOT/core/lib/ringbuffer.c:117-134 | Drops exactly a prefix |
| `RingBuffer.Ring.PeekOne` | RIOT/core/lib/ringbuffer.c:136-141 | The oldest byte or -1, changing nothing |
| `RingBuffer.Ring.Peek` | RIOT/core/lib/ringbuffer.c:143-149 | The oldest bytes, changing nothing |
| `Crt0.MemCpy` | 06-rbpf-bench/crt0/crt0.c:67-115 | Copies exactly the given bytes and returns the end of the destination |
| `Crt0.RamTestExact` | 06-rbpf-bench/crt0/crt0.c:219-224 | Enough RAM passes the test; where it passes there is enough if and only if no sum wrapped |
| `Crt0.RamTestWraps` | 06-rbpf-bench/crt0/crt0.c:219-224 | A layout that passes the test without room |
| `Crt0.RelocIs` | 06-rbpf-bench/crt0/crt0.c:203-216 | The four section cases are one map from offsets to addresses, within ROM or RAM |
| `Crt0.RelocInjective` | 06-rbpf-bench/crt0/crt0.c:250-290 | Different offsets denote different cells |
| `Crt0Start.LoadSections` | 06-rbpf-bench/crt0/crt0.c:235-243 | Initialised data is copied, the rest cleared, nothing else changes |
| `Crt0Start.RelocateGot` | 06-rbpf-bench/crt0/crt0.c:250-290 | Fails exactly on an offset outside the image; otherwise every entry is relocated |
| `Crt0Start.PatchPointers` | 06-rbpf-bench/crt0/crt0.c:295-363 | For every table, in place, computes the entry-by-entry patching that PatchedOk and StrayEntry are about |
| `Crt0Start.PatchedOk` | 06-rbpf-bench/crt0/crt0.c:295-363 | With aligned entries in initialised data patching fails exactly on the first bad entry; otherwise every pointer is relocated and the rest is as before |
| `Crt0Start.Start` | 06-rbpf-bench/crt0/crt0.c:171-363 | The whole start: RAM, then GOT, then patch errors in this order; with aligned entries in initialised data and no error the image is relocated |
| `Crt0Start.GotMeaning` | 06-rbpf-bench/crt0/crt0.c:250-290 | A relocated GOT word addresses the cell with the content its link-time offset denoted |
| `Crt0Start.PointerMeaning` | 06-rbpf-bench/crt0/crt0.c:295-363 | So does a patched pointer, found where its own offset was relocated to |
| `Crt0Start.StartExact` | 06-rbpf-bench/crt0/crt0.c:219-363 | The start succeeds exactly if the RAM test passes, every GOT entry is an offset into the image, and every patch entry is in RAM and holds an offset into the image outside the GOT |
| `Crt0Start.ImageDecides` | 06-rbpf-bench/crt0/crt0.c:295-363 | The relocated sections depend only on the image, and not on the order of its patch entries |
| `Crt0Start.ImageVerdict` | 06-rbpf-bench/crt0/crt0.c:295-363 | Nor does it matter for whether the start succeeds |
| `Crt0Start.StrayEntry` | 06-rbpf-bench/crt0/crt0.c:295-363 | An entry in `.ram` is accepted and read past the end of the image: with the same image one start succeeds and another stops |
| `Cib.FullTestExact` | RIOT/core/lib/include/cib.h:158-168 | The signed comparison finds a full buffer, except one of 2^31 elements |
| `Cib.PowerTest` | RIOT/core/lib/include/cib.h:58-66 | The size test passes exactly for powers of two |
| `Cib.MaskIsRemainder` | RIOT/core/lib/include/cib.h:112-119 | Masking with one less than a power of two is the remainder |
| `Cib.MaskedSlot` | RIOT/core/lib/include/cib.h:158-168 | For every size that passes the test the masked counter is the slot, and the counter may wrap |
| `Cib.Queue.constructor` | RIOT/core/lib/include/cib.h:58-66 | An empty queue |
| `Cib.Queue.Put` | RIOT/core/lib/include/cib.h:158-168 | Appends, or -1 exactly if full, also when the counters wrap; at 2^31 elements a full buffer is not noticed and the oldest element is overwritten |
| `Cib.Queue.Get` | RIOT/core/lib/include/cib.h:112-119 | Removes the oldest, or -1 exactly if empty |
| `Cib.Queue.Refill` | RIOT/core/msg.c:357-437 | Taking the oldest element and storing another finds a slot every time, and it is the one just freed exactly if the buffer was full |

## Left out

- Priority inheritance (`RIOT/core/mutex.c:69-78,188-196`): off in the default configuration; unlocking with waiters does not reassign the owner there.
- Boards, clocks, vector tables, reset code and the assembly of context switches: a context switch is the step in which another thread becomes active.
- Pip system calls, the rBPF virtual machine and the standard-library shims: foreign code.
- Message bus, `core/lib/priority_queue.c`, atomics, `msg_avail`, `msg_queue_print`, stack measurement, thread-local storage, the MPU stack guard and riotboot: they would only add easy members.
- The De Bruijn table and compiler built-ins for the lowest and highest bit: the portable loop and the portable search are modelled.
- Nested interrupts, interrupt handlers that call `sched_switch` while no thread is active, and calls from handlers other than unlock, cancel, signal, setting flags, sending, replying, non-blocking mailbox calls, wake-up and killing a zombie.
- Reuse of a stopped thread's memory: a created thread gets a fresh address.
- Message contents beyond the sender pid are one integer; the buffer of a receive or mailbox get that finds a message at once is modelled by what is recorded as delivered.
- The kernel objects hold message queues and mailboxes as sequences; `Cib` shows separately that the counters over a buffer are such a sequence, and that the refill finds a slot.
- ClistSort.Sort: the run length is unbounded, where the source's `int` overflows on lists of more than 2^31 nodes.
- RMutex.RecursiveMutex: runs up to the wrap-around of the 16-bit count, which `StepExact` shows to be the exact limit.
- Crt0Start.Start: only layouts whose section sizes are word multiples, as the linker script makes them (`06-rbpf-bench/link.ld:25-79`), and without an address that wraps; the update of `unusedRomStart` and the final jump are not modelled.
- Crt0.RamTestExact: the second direction needs the sums not to wrap, which the source does not test.
- MsgSteps.SendReceiveExact: a request to the own pid is excluded by an assertion in the source.
- Tickets, clocks and message numbers are unbounded; they exist only in the model.
