/**
  The rest of the kernel's global state and the calls that update it in place. Each call is
  proved to compute the step that the specification modules define.
*/
module KernelImpl {
  import opened Wrappers
  import opened Queues
  import opened Sched
  import opened Reschedule
  import opened KernelState
  import opened MutexSpec
  import opened FlagSpec
  import opened MsgSpec
  import opened MboxSpec
  import opened ThreadSpec
  import opened Runs
  import opened SchedImpl
  import opened ListMemory
  import Bits
  import S = Sched

  class Kernel {
    const sched: Scheduler
    var mark: set<nat>
    ghost var holds: set<(Tid, nat)>
    var mc: map<nat, Canceller>
    var ms: Messages
    var mb: map<nat, Mbox>
    var fl: map<Tid, bv16>
    var wait: map<Tid, Wait>
    var cont: map<Tid, Cont>
    var pids: map<nat, Tid>
    var pid: map<Tid, nat>
    var ret: Ret

    constructor (t: Tid, prio: nat, clz: bool)
      requires prio < PRIO_LEVELS
      ensures fresh(sched) && View() == Init(t, prio) && sched.Intact()
    {
      sched := new Scheduler(t, prio, clz);
      mark, holds, mc := {}, {}, map[];
      ms, mb, fl, wait, cont := Messages(map[t := EMPTY_CHAN], 0), map[], map[], map[], map[];
      pids, pid, ret := map[1 := t], map[t := 1], NoRet;
    }

    ghost function View(): State
      reads this, sched
    {
      State(sched.K(), Mutexes(mark, holds), mc, ms, mb, fl, wait, cont, pids, pid, ret)
    }

    /** A thread becomes runnable, and the caller reschedules. */
    method Rouse(t: Tid, st: Status, o: Owe)
      requires sched.PrioValid() && sched.Intact() && OnRunqueue(st)
      modifies sched
      ensures sched.K() == Owes(S.SetStatus(old(sched.K()), t, st), o)
      ensures sched.Sound()
    {
      hide Bits.QueuesOf, ListMemory.Intact, Twice, S.SetStatus, Owes;
      sched.SetStatus(t, st);
      sched.Reschedule(o);
    }

    // ---- mutex.c ----

    /** `_block`: the first waiter replaces MUTEX_LOCKED. */
    method BlockWaiter(m: nat, a: Tid)
      requires sched.PrioValid() && sched.Intact() && (m in mark ==> sched.List(MutexQ(m)) == [])
      modifies `mark, sched
      ensures sched.K() == Owes(S.Block(old(sched.K()), a, MutexBlocked, Some(MutexQ(m))), YieldHigher)
      ensures mark == old(mark) - {m}
      ensures sched.Sound()
    {
      hide Bits.QueuesOf, ListMemory.Intact, Twice, S.SetStatus, S.AddToList, Owes;
      OtherList(sched.K(), a, MutexBlocked, MutexQ(m));
      sched.SetStatus(a, MutexBlocked);
      if m in mark {
        sched.LinkFirst(MutexQ(m), a);
        mark := mark - {m};
      } else {
        sched.AddToList(MutexQ(m), a);
      }
      sched.Reschedule(YieldHigher);
    }

    method BlockOn(m: nat, c: Cont)
      requires sched.PrioValid() && sched.Intact() && sched.active.Some? && (m in mark ==> sched.List(MutexQ(m)) == [])
      modifies this, sched
      ensures View() == MutexSpec.BlockOn(old(View()), old(sched.active.value), m, c)
      ensures sched.Sound()
    {
      hide Bits.QueuesOf, ListMemory.Intact, Twice, S.Block, Owes, Scheduler.K;
      var a := sched.active.value;
      cont := cont[a := c];
      BlockWaiter(m, a);
    }

    method Take(m: nat)
      requires sched.active.Some?
      modifies this
      ensures View() == MutexSpec.Take(old(View()), sched.active.value, m)
    {
      hide Bits.QueuesOf, ListMemory.Intact, Twice, Scheduler.K;
      holds := holds + {(sched.active.value, m)};
      mark := mark + {m};
    }

    /** `mutex_lock` and `mutex_trylock` */
    method MutexLock(m: nat, block: bool)
      requires sched.PrioValid() && sched.Intact() && sched.active.Some? && (m in mark ==> sched.List(MutexQ(m)) == [])
      modifies this, sched
      ensures View() == Lock(old(View()), old(sched.active.value), m, block)
      ensures sched.Sound()
    {
      hide Bits.QueuesOf, ListMemory.Intact, Twice, MutexSpec.BlockOn;
      var a := sched.active.value;
      if m !in mark && sched.First(MutexQ(m)) == Nil {
        Take(m);
        cont := cont[a := User];
        ret := Int(1);
      } else if !block {
        ret := Int(0);
      } else {
        BlockOn(m, Locking(m));
      }
    }

    method MutexLockCancelable(x: nat)
      requires sched.PrioValid() && sched.Intact() && sched.active.Some?
      requires x in mc && (mc[x].mutex in mark ==> sched.List(MutexQ(mc[x].mutex)) == [])
      modifies this, sched
      ensures View() == LockCancelable(old(View()), old(sched.active.value), x)
      ensures sched.Sound()
    {
      hide Bits.QueuesOf, ListMemory.Intact, Twice, MutexSpec.BlockOn;
      var m := mc[x].mutex;
      if mc[x].cancelled {
        ret := Cancelled;
      } else if m !in mark && sched.First(MutexQ(m)) == Nil {
        Take(m);
        ret := Int(0);
      } else {
        BlockOn(m, CancelCheck(x));
      }
    }

    /** What both lock calls do when the thread that was handed the mutex runs again. */
    method MutexLockReturn()
      requires sched.active.Some?
      modifies this
      ensures View() == LockReturn(old(View()), sched.active.value)
    {
      hide Bits.QueuesOf, ListMemory.Intact, Twice, Scheduler.K;
      var a := sched.active.value;
      match if a in cont then cont[a] else User
      case Locking(m) =>
        cont := cont[a := User];
        ret := Int(1);
      case CancelCheck(x) =>
        cont := cont[a := User];
        if x in mc && mc[x].cancelled {
          ret := Cancelled;
        } else {
          ret := Int(0);
        }
      case _ =>
    }

    /** What both unlock calls do to the mutex: it is freed, or handed to the first waiter. */
    method HandOver(m: nat)
      requires sched.PrioValid() && sched.Intact() && (m in mark ==> sched.List(MutexQ(m)) == [])
      modifies `mark, sched
      ensures sched.K() == ReleaseWake(old(sched.K()), m)
      ensures sched.prio == old(sched.prio) && sched.active == old(sched.active)
      ensures var q := old(sched.List(MutexQ(m)));
        mark == if q == [] then old(mark) - {m} else if |q| == 1 then old(mark) + {m} else old(mark)
      ensures sched.Intact()
    {
      hide Bits.QueuesOf, ListMemory.Intact, Twice, S.WakeAt;
      if m in mark {
        mark := mark - {m};
      } else if sched.First(MutexQ(m)) != Nil {
        WokenList(sched.K(), MutexQ(m));
        var _ := sched.WakeAt(MutexQ(m), 0, Root(MutexQ(m)));
        if sched.First(MutexQ(m)) == Nil {
          mark := mark + {m};
        }
      }
    }

    method Release(m: nat)
      requires sched.PrioValid() && sched.Intact() && (m in mark ==> sched.List(MutexQ(m)) == [])
      modifies `mark, `holds, sched
      ensures View() == MutexSpec.Release(old(View()), m)
      ensures sched.prio == old(sched.prio) && sched.active == old(sched.active)
      ensures sched.Intact()
    {
      hide Bits.QueuesOf, ListMemory.Intact, Twice, ReleaseWake, ReleaseMutex;
      MarkAfter(View(), m);
      holds := ReleaseMutex(View(), m).holds;
      HandOver(m);
    }

    method MutexUnlock(m: nat)
      requires sched.PrioValid() && sched.Intact() && (m in mark ==> sched.List(MutexQ(m)) == [])
      modifies this, sched
      ensures View() == Unlock(old(View()), m)
      ensures sched.Sound()
    {
      hide Bits.QueuesOf, ListMemory.Intact, Twice, ReleaseWake, ReleaseMutex, Owes;
      var first := sched.First(MutexQ(m));
      Release(m);
      sched.Reschedule(if first == Nil then Nothing else Switch(sched.PrioAt(first.t)));
      ret := NoRet;
    }

    method MutexUnlockAndSleep(m: nat)
      requires sched.PrioValid() && sched.Intact() && sched.active.Some? && (m in mark ==> sched.List(MutexQ(m)) == [])
      modifies this, sched
      ensures View() == UnlockAndSleep(old(View()), old(sched.active.value), m)
      ensures sched.Sound()
    {
      hide Bits.QueuesOf, ListMemory.Intact, Twice, ReleaseWake, ReleaseMutex, Owes, S.Block;
      var a := sched.active.value;
      Release(m);
      sched.Block(a, Sleeping, None);
      sched.Reschedule(YieldHigher);
      cont := cont[a := User];
      ret := NoRet;
    }

    /** The thread is taken off the mutex's queue if it is there and not runnable again. */
    method WakeCancelled(m: nat, t: Tid)
      requires sched.PrioValid() && sched.Intact()
      modifies `mark, sched
      ensures var k, q := old(sched.K()), old(sched.List(MutexQ(m)));
        if !OnRunqueue(St(k, t)) && t in q then
          sched.K() == CancelWake(k, m, t) && mark == if |q| == 1 then old(mark) + {m} else old(mark)
        else
          sched.K() == Owes(k, Nothing) && mark == old(mark)
      ensures sched.Sound()
    {
      hide Bits.QueuesOf, ListMemory.Intact, Twice, S.WakeAt, Owes;
      ghost var i;
      var place;
      place, i := sched.Find(MutexQ(m), t);
      if !OnRunqueue(sched.StatusAt(t)) && sched.Follow(MutexQ(m), i, place) != Nil {
        FirstIndex(sched.List(MutexQ(m)), t, i);
        WokenLength(sched.K(), MutexQ(m), i);
        var _ := sched.WakeAt(MutexQ(m), i, place);
        if sched.First(MutexQ(m)) == Nil {
          mark := mark + {m};
        }
        sched.Reschedule(Switch(sched.PrioAt(t)));
      } else {
        sched.Reschedule(Nothing);
      }
    }

    method MutexCancelInit(x: nat, m: nat)
      requires sched.active.Some?
      modifies `mc
      ensures mc == old(mc)[x := Canceller(m, sched.active.value, false)]
    {
      mc := mc[x := Canceller(m, sched.active.value, false)];
    }

    method MutexCancel(x: nat)
      requires sched.PrioValid() && sched.Intact() && x in mc
      modifies this, sched
      ensures View() == Cancel(old(View()), x)
      ensures sched.Sound()
    {
      hide Bits.QueuesOf, ListMemory.Intact, Twice, CancelWake, Owes;
      var t, m := mc[x].thread, mc[x].mutex;
      mc := mc[x := mc[x].(cancelled := true)];
      WakeCancelled(m, t);
      ret := NoRet;
    }

    // ---- cond.c ----

    method AwaitSignal(a: Tid, c: nat, request: bool)
      requires sched.PrioValid() && sched.Intact()
      modifies sched
      ensures var k := old(sched.K());
        sched.K() == Owes(S.Block(if request then Request(k) else k, a, CondBlocked, Some(CondQ(c))), YieldHigher)
      ensures sched.Sound()
    {
      hide Bits.QueuesOf, Scheduler.Intact, Scheduler.Sound, Owes, S.Block;
      if request {
        sched.RequestSwitch();
      }
      sched.Block(a, CondBlocked, Some(CondQ(c)));
      sched.Reschedule(YieldHigher);
    }

    method CondWait(c: nat, m: nat)
      requires sched.PrioValid() && sched.Intact() && sched.active.Some? && (m in mark ==> sched.List(MutexQ(m)) == [])
      modifies this, sched
      ensures View() == MutexSpec.CondWait(old(View()), old(sched.active.value), c, m)
      ensures sched.Sound()
    {
      hide Bits.QueuesOf, Scheduler.Intact, Scheduler.Sound, ReleaseWake, ReleaseMutex, Owes, S.Block;
      var a, first := sched.active.value, sched.First(MutexQ(m));
      Release(m);
      AwaitSignal(a, c, first != Nil && sched.PrioAt(a) > sched.PrioAt(first.t));
      cont := cont[a := Relock(m)];
      ret := NoRet;
    }

    /** The loop of `_cond_signal` */
    method WakeWaiters(c: nat, broadcast: bool) returns (least: nat)
      requires sched.PrioValid() && sched.Intact()
      modifies sched
      ensures var n := SignalCount(old(sched.K()), c, broadcast);
        && sched.K() == WakeFirst(old(sched.K()), CondQ(c), n)
        && least == MinPrio(sched.prio, old(sched.List(CondQ(c)))[..n], PRIO_LEVELS)
      ensures sched.prio == old(sched.prio)
      ensures sched.Intact()
    {
      hide Bits.QueuesOf, ListMemory.Intact, Twice, S.WakeAt;
      least := PRIO_LEVELS;
      ghost var n, i, q := SignalCount(sched.K(), c, broadcast), 0, sched.List(CondQ(c));
      var more := true;
      while more && sched.First(CondQ(c)) != Nil
        invariant sched.Intact()
        invariant i <= n <= |q| && sched.List(CondQ(c)) == q[i..] && sched.prio == old(sched.prio)
        invariant more <==> broadcast || i == 0
        invariant WakeFirst(old(sched.K()), CondQ(c), n) == WakeFirst(sched.K(), CondQ(c), n - i)
        invariant MinPrio(sched.prio, q[..n], PRIO_LEVELS) == MinPrio(sched.prio, q[i..n], least)
        decreases n - i
      {
        WokenList(sched.K(), CondQ(c));
        assert q[i..n][0] == q[i] && q[i..n][1..] == q[i + 1..n];
        var t := sched.WakeAt(CondQ(c), 0, Root(CondQ(c)));
        if sched.PrioAt(t) < least {
          least := sched.PrioAt(t);
        }
        more := broadcast;
        i := i + 1;
      }
    }

    method CondSignal(c: nat, broadcast: bool)
      requires sched.PrioValid() && sched.Intact()
      modifies this, sched
      ensures View() == Signal(old(View()), c, broadcast)
      ensures sched.Sound()
    {
      hide Bits.QueuesOf, ListMemory.Intact, Twice, Owes, WakeFirst, MinPrio, SignalCount;
      var least := WakeWaiters(c, broadcast);
      sched.Reschedule(if least < PRIO_LEVELS then Switch(least) else Nothing);
      ret := NoRet;
    }

    // ---- thread_flags.c ----

    /** `_thread_flags_wake` */
    method FlagsWake(t: Tid) returns (wakeup: bool)
      requires sched.PrioValid() && sched.Sound()
      modifies sched
      ensures wakeup <==> Wakes(St(old(sched.K()), t), FlagsOf(fl, t), WaitOf(wait, t))
      ensures sched.K() == FlagWake(old(sched.K()), t, FlagsOf(fl, t), WaitOf(wait, t))
      ensures sched.Sound()
    {
      hide Bits.QueuesOf, ListMemory.Intact, Twice, S.SetStatus, Any, All;
      var f, w := FlagsOf(fl, t), WaitOf(wait, t);
      var mask := if w.Mask? then w.bits else 0;
      match sched.StatusAt(t) {
        case FlagBlockedAny => wakeup := Any(f, mask);
        case FlagBlockedAll => wakeup := All(f, mask);
        case _ => wakeup := false;
      }
      if wakeup {
        sched.SetStatus(t, Pending);
        sched.RequestSwitch();
      }
    }

    method FlagsSet(t: Tid, mask: bv16)
      requires sched.PrioValid() && sched.Intact()
      modifies this, sched
      ensures View() == FlagSpec.FlagsSet(old(View()), t, mask)
      ensures sched.Sound()
    {
      hide Bits.QueuesOf, ListMemory.Intact, Twice, Wakes, FlagWake, Owes, With;
      fl := fl[t := With(FlagsOf(fl, t), mask)];
      var wakeup := FlagsWake(t);
      sched.Reschedule(if wakeup then YieldHigher else Nothing);
      ret := NoRet;
    }

    /** `_thread_flags_clear_atomic` for the active thread, at the end of a wait call too. */
    method FlagsClear(mask: bv16)
      requires sched.active.Some?
      modifies this
      ensures View() == FlagSpec.FlagsClear(old(View()), sched.active.value, mask)
    {
      hide Bits.QueuesOf, ListMemory.Intact, Twice, Scheduler.K, Without, Masked;
      var a := sched.active.value;
      var f := FlagsOf(fl, a);
      var cleared := Masked(f, mask);
      fl := fl[a := Without(f, cleared)];
      cont := cont[a := User];
      ret := Flags(cleared);
    }

    method FlagsWait(mask: bv16, st: Status, c: Cont)
      requires sched.PrioValid() && sched.Intact() && sched.active.Some? && !OnRunqueue(st)
      modifies this, sched
      ensures View() == FlagWait(old(View()), old(sched.active.value), mask, st, c)
      ensures sched.Sound()
    {
      hide Bits.QueuesOf, Scheduler.Intact, Scheduler.Sound, S.Block, Owes;
      var a := sched.active.value;
      wait := wait[a := Mask(mask)];
      sched.Block(a, st, None);
      sched.Reschedule(YieldHigher);
      cont := cont[a := c];
    }

    method FlagsWaitAny(mask: bv16, one: bool)
      requires sched.PrioValid() && sched.Intact() && sched.active.Some?
      modifies this, sched
      ensures View() == WaitAny(old(View()), old(sched.active.value), mask, one)
      ensures sched.Sound()
    {
      hide Bits.QueuesOf, ListMemory.Intact, Twice, Any, FlagWait;
      var a := sched.active.value;
      var c := if one then ReadOne(mask) else ClearAny(mask);
      if !Any(FlagsOf(fl, a), mask) {
        FlagsWait(mask, FlagBlockedAny, c);
      } else {
        cont := cont[a := c];
      }
    }

    method FlagsWaitAll(mask: bv16)
      requires sched.PrioValid() && sched.Intact() && sched.active.Some?
      modifies this, sched
      ensures View() == WaitAll(old(View()), old(sched.active.value), mask)
      ensures sched.Sound()
    {
      hide Bits.QueuesOf, ListMemory.Intact, Twice, All, FlagWait;
      var a := sched.active.value;
      if !All(FlagsOf(fl, a), mask) {
        FlagsWait(mask, FlagBlockedAll, ClearAll(mask));
      } else {
        cont := cont[a := ClearAll(mask)];
      }
    }

    /** The rest of a wait call */
    method FlagsReturn()
      requires sched.active.Some?
      modifies this
      ensures View() == FlagReturn(old(View()), sched.active.value)
    {
      hide Bits.QueuesOf, ListMemory.Intact, Twice, Scheduler.K, FlagSpec.FlagsClear, LowestFlag, Masked;
      var a := sched.active.value;
      match if a in cont then cont[a] else User
      case ClearAny(mask) => FlagsClear(mask);
      case ReadOne(mask) => cont := cont[a := ClearOne(mask, LowestFlag(Masked(FlagsOf(fl, a), mask)))];
      case ClearOne(mask, bit) => FlagsClear(bit);
      case ClearAll(mask) => FlagsClear(mask);
      case _ =>
    }

    // ---- msg.c ----

    /** Sets the flag that a message is waiting, and wakes the receiver if it waits for that. */
    method Notify(r: Tid)
      requires sched.PrioValid() && sched.Sound()
      modifies `fl, sched
      ensures fl == Notified(old(fl), r) && sched.K() == NotifyWake(old(sched.K()), old(fl), wait, r)
      ensures sched.prio == old(sched.prio)
      ensures sched.Sound()
    {
      hide Bits.QueuesOf, ListMemory.Intact, Twice, Wakes, FlagWake, With;
      NotifyPrio(sched.K(), fl, wait, r);
      fl := fl[r := With(FlagsOf(fl, r), MSG_WAITING)];
      var _ := FlagsWake(r);
    }

    method SendDirect(r: Tid, m: Msg)
      requires sched.PrioValid() && sched.Intact()
      modifies this, sched
      ensures View() == MsgSpec.SendDirect(old(View()), r, m)
      ensures sched.Sound()
    {
      hide Bits.QueuesOf, ListMemory.Intact, Twice, S.SetStatus, Owes;
      var c := ChanOf(ms, r);
      wait := wait[r := Buffer(m)];
      ms := Messages(ms.ch[r := c.(dlv := c.dlv + [m], acc := c.acc + [m])], ms.uid + 1);
      Rouse(r, Pending, YieldHigher);
      ret := Int(1);
    }

    /** `queue_msg` with room in the queue */
    method SendQueue(r: Tid, m: Msg, o: Owe)
      requires sched.PrioValid() && sched.Intact()
      modifies this, sched
      ensures View() == MsgSpec.SendQueue(old(View()), r, m, o)
      ensures sched.Sound()
    {
      hide Bits.QueuesOf, ListMemory.Intact, Twice, NotifyWake, Notified, Owes;
      var c := ChanOf(ms, r);
      ms := Messages(ms.ch[r := c.(queue := c.queue + [m], acc := c.acc + [m])], ms.uid + 1);
      Notify(r);
      sched.Reschedule(o);
      ret := Int(1);
    }

    /** The sender goes on the receiver's list, and the receiver is notified. */
    method BlockSender(a: Tid, r: Tid)
      requires sched.PrioValid() && sched.Intact()
      modifies `fl, sched
      ensures fl == Notified(old(fl), r)
      ensures var k := old(sched.K());
        sched.K() == Owes(NotifyWake(S.Block(k, a, SenderStatus(k, a), Some(SendQ(r))), old(fl), wait, r), YieldHigher)
      ensures sched.Sound()
    {
      hide Bits.QueuesOf, ListMemory.Intact, Twice, NotifyWake, Notified, S.Block, Owes;
      var newstatus := SendBlocked;
      if sched.StatusAt(a).ReplyBlocked? {
        newstatus := ReplyBlocked;
      }
      sched.Block(a, newstatus, Some(SendQ(r)));
      Notify(r);
      sched.Reschedule(YieldHigher);
    }

    method SendBlock(r: Tid, m: Msg)
      requires sched.PrioValid() && sched.Intact() && sched.active.Some?
      modifies this, sched
      ensures View() == MsgSpec.SendBlock(old(View()), old(sched.active.value), r, m)
      ensures sched.Sound()
    {
      hide Bits.QueuesOf, ListMemory.Intact, Twice, NotifyWake, Notified, S.Block, Owes, SenderStatus, Scheduler.K;
      var a, c := sched.active.value, ChanOf(ms, r);
      wait := wait[a := Buffer(m)];
      ms := Messages(ms.ch[r := c.(acc := c.acc + [m])], ms.uid + 1);
      BlockSender(a, r);
      ret := Int(1);
    }

    /** `_msg_send`, once the target was found */
    method SendTo(r: Tid, m: Msg, block: bool)
      requires sched.PrioValid() && sched.Intact() && sched.active.Some?
      modifies this, sched
      ensures View() == SendCore(old(View()), old(sched.active.value), r, m, block)
      ensures sched.Sound()
    {
      hide Bits.QueuesOf, ListMemory.Intact, Twice, MsgSpec.SendDirect, MsgSpec.SendQueue, MsgSpec.SendBlock;
      var c := ChanOf(ms, r);
      if !sched.StatusAt(r).ReceiveBlocked? {
        if |c.queue| < c.cap {
          SendQueue(r, m, IfRequested);
        } else if !block {
          ret := Int(0);
        } else {
          SendBlock(r, m);
        }
      } else {
        SendDirect(r, m);
      }
    }

    method MsgSend(target: nat, body: int, block: bool)
      requires sched.PrioValid() && sched.Intact() && sched.active.Some?
      modifies this, sched
      ensures View() == Send(old(View()), old(sched.active.value), target, body, block)
      ensures sched.Sound()
    {
      hide Bits.QueuesOf, ListMemory.Intact, Twice, MsgSpec.SendQueue, SendCore;
      var a := sched.active.value;
      var me := if a in pid then pid[a] else 0;
      if me == target {
        if |ChanOf(ms, a).queue| < ChanOf(ms, a).cap {
          SendQueue(a, Msg(me, Thread(a), a, ms.uid, body), Nothing);
        } else {
          ret := Int(0);
        }
      } else if target !in pids {
        ret := Int(-1);
      } else {
        SendTo(pids[target], Msg(me, Thread(a), pids[target], ms.uid, body), block);
      }
    }

    /** `msg_send_int` */
    method MsgSendInt(target: nat, body: int)
      requires sched.PrioValid() && sched.Intact()
      modifies this, sched
      ensures View() == SendIsr(old(View()), target, body)
      ensures sched.Sound()
    {
      hide Bits.QueuesOf, ListMemory.Intact, Twice, MsgSpec.SendDirect, MsgSpec.SendQueue;
      if target !in pids {
        ret := Int(-1);
        return;
      }
      var r := pids[target];
      var m := Msg(PID_ISR, Isr, r, ms.uid, body);
      if sched.StatusAt(r).ReceiveBlocked? {
        SendDirect(r, m);
      } else if |ChanOf(ms, r).queue| < ChanOf(ms, r).cap {
        SendQueue(r, m, Nothing);
      } else {
        ret := Int(0);
      }
    }

    method MsgSendReceive(target: nat, body: int)
      requires sched.PrioValid() && sched.Intact() && sched.active.Some?
      modifies this, sched
      ensures View() == SendReceive(old(View()), old(sched.active.value), target, body)
      ensures sched.Sound()
    {
      hide Bits.QueuesOf, ListMemory.Intact, Twice, S.SetStatus, SendCore;
      var a := sched.active.value;
      var r := if target in pids then pids[target] else 0;
      var m := Msg(if a in pid then pid[a] else 0, Thread(a), r, ms.uid, body);
      StatusCpu(sched.K(), a, ReplyBlocked);
      sched.SetStatus(a, ReplyBlocked);
      wait := wait[a := Buffer(m)];
      if target in pids {
        SendTo(r, m, true);
      } else {
        ret := Int(-1);
      }
    }

    /** `msg_reply` and `msg_reply_int` once the target was found */
    method MsgReply(t: Tid, reply: Msg)
      requires sched.PrioValid() && sched.Intact()
      modifies this, sched
      ensures View() == Reply(old(View()), t, reply)
      ensures sched.Sound()
    {
      hide Bits.QueuesOf, ListMemory.Intact, Twice, S.SetStatus, Owes;
      if !sched.StatusAt(t).ReplyBlocked? {
        ret := Int(-1);
        return;
      }
      wait := wait[t := Buffer(reply)];
      Rouse(t, Pending, if sched.isr then YieldHigher else Switch(sched.PrioAt(t)));
      ret := Int(1);
    }

    /** The first waiting sender leaves the list; it is woken unless it waits for a reply. */
    method ReleaseFirstSender(a: Tid) returns (o: Owe)
      requires sched.PrioValid() && sched.Intact() && sched.List(SendQ(a)) != []
      modifies `wait, sched
      ensures var k, w := old(sched.K()), old(sched.List(SendQ(a)))[0];
        && sched.K() == ReleaseSender(k, a)
        && o == SenderOwe(k, w)
        && wait == if St(k, w).ReplyBlocked? then old(wait) else old(wait)[w := Null]
      ensures sched.Sound()
    {
      hide Bits.QueuesOf, ListMemory.Intact, Twice, S.SetStatus, S.Unlink;
      o := Nothing;
      var w := sched.First(SendQ(a)).t;
      ReleaseIs(sched.K(), a);
      sched.Unlink(SendQ(a), 0, Root(SendQ(a)));
      if !sched.StatusAt(w).ReplyBlocked? {
        wait := wait[w := Null];
        sched.SetStatus(w, Pending);
        if sched.PrioAt(w) < PRIO_LEVELS - 1 {
          o := Switch(sched.PrioAt(w));
        }
      }
    }

    method TakeAndRefill()
      requires sched.PrioValid() && sched.Intact() && sched.active.Some?
      requires ChanOf(ms, sched.active.value).queue != [] && sched.List(SendQ(sched.active.value)) != []
      modifies this, sched
      ensures View() == MsgSpec.TakeAndRefill(old(View()), old(sched.active.value))
      ensures sched.Sound()
    {
      hide Bits.QueuesOf, ListMemory.Intact, Twice, ReleaseSender, SenderOwe, Owes;
      var a := sched.active.value;
      var c, w := ChanOf(ms, a), sched.First(SendQ(a)).t;
      var m := if WaitOf(wait, w).Buffer? then WaitOf(wait, w).m else BLANK;
      ms := ms.(ch := ms.ch[a := c.(dlv := c.dlv + [c.queue[0]], queue := c.queue[1..] + [m])]);
      var o := ReleaseFirstSender(a);
      sched.Reschedule(o);
      ret := Int(1);
    }

    method TakeFromSender()
      requires sched.PrioValid() && sched.Intact() && sched.active.Some? && sched.List(SendQ(sched.active.value)) != []
      modifies this, sched
      ensures View() == MsgSpec.TakeFromSender(old(View()), old(sched.active.value))
      ensures sched.Sound()
    {
      hide Bits.QueuesOf, ListMemory.Intact, Twice, ReleaseSender, SenderOwe, Owes;
      var a := sched.active.value;
      var c, w := ChanOf(ms, a), sched.First(SendQ(a)).t;
      var m := if WaitOf(wait, w).Buffer? then WaitOf(wait, w).m else BLANK;
      ms := ms.(ch := ms.ch[a := c.(dlv := c.dlv + [m])]);
      var o := ReleaseFirstSender(a);
      wait := wait[a := Buffer(m)];
      sched.Reschedule(o);
      ret := Int(1);
    }

    method AwaitMsg()
      requires sched.PrioValid() && sched.Intact() && sched.active.Some?
      modifies this, sched
      ensures View() == MsgSpec.AwaitMsg(old(View()), old(sched.active.value))
      ensures sched.Sound()
    {
      hide Bits.QueuesOf, Scheduler.Intact, Scheduler.Sound, S.Block, Owes;
      var a := sched.active.value;
      wait := wait[a := Buffer(BLANK)];
      sched.Block(a, ReceiveBlocked, None);
      sched.Reschedule(YieldHigher);
      ret := Int(1);
    }

    /** `_msg_receive` */
    method MsgReceive(block: bool)
      requires sched.PrioValid() && sched.Intact() && sched.active.Some?
      modifies this, sched
      ensures View() == Receive(old(View()), old(sched.active.value), block)
      ensures sched.Sound()
    {
      hide Bits.QueuesOf, ListMemory.Intact, Twice, MsgSpec.TakeFromSender, MsgSpec.TakeAndRefill, MsgSpec.AwaitMsg;
      var a := sched.active.value;
      var c, waiting := ChanOf(ms, a), sched.First(SendQ(a)) != Nil;
      if !block && !waiting && c.queue == [] {
        ret := Int(-1);
      } else if !waiting {
        if c.queue == [] {
          AwaitMsg();
        } else {
          ms := ms.(ch := ms.ch[a := c.(dlv := c.dlv + [c.queue[0]], queue := c.queue[1..])]);
          ret := Int(1);
        }
      } else if c.queue == [] {
        TakeFromSender();
      } else {
        TakeAndRefill();
      }
    }

    method MsgInitQueue(n: nat)
      requires sched.active.Some?
      modifies this
      ensures View() == InitQueue(old(View()), sched.active.value, n)
    {
      hide Bits.QueuesOf, ListMemory.Intact, Twice, Scheduler.K;
      var a := sched.active.value;
      ms := ms.(ch := ms.ch[a := ChanOf(ms, a).(cap := n, queue := [])]);
      ret := NoRet;
    }

    // ---- mbox.c ----

    /** The first waiter of a mailbox list is woken, with the `sched_switch` that follows. */
    method WakeWaiter(id: ListId)
      requires sched.PrioValid() && sched.Intact() && !id.Run? && sched.List(id) != []
      modifies sched
      ensures var k := old(sched.K());
        sched.K() == Owes(S.WakeAt(k, id, 0), Switch(Pr(k, old(sched.List(id))[0])))
      ensures sched.Sound()
    {
      hide Bits.QueuesOf, ListMemory.Intact, Twice, S.WakeAt, Owes;
      var t := sched.WakeAt(id, 0, Root(id));
      sched.Reschedule(Switch(sched.PrioAt(t)));
    }

    /** `_wait` up to its yield */
    method AwaitMbox(a: Tid, id: ListId)
      requires sched.PrioValid() && sched.Intact() && !id.Run?
      modifies sched
      ensures sched.K() == Owes(S.Block(old(sched.K()), a, MboxBlocked, Some(id)), YieldRotate)
      ensures sched.Sound()
    {
      hide Bits.QueuesOf, ListMemory.Intact, Twice, S.Block, Owes;
      sched.Block(a, MboxBlocked, Some(id));
      sched.Reschedule(YieldRotate);
    }

    /** The message goes into the queue, stamped with the sender. */
    method Enqueue(b: nat, m: Msg, passed: bool)
      modifies `mb
      ensures mb == Enqueued(old(mb), b, Stamped(old(View()), m), passed)
    {
      hide Bits.QueuesOf, ListMemory.Intact, Twice;
      var box, a := BoxOf(mb, b), sched.active;
      var stamped := m.(pid := if a.Some? && a.value in pid then pid[a.value] else 0, uid := |box.acc|);
      mb := mb[b := box.(acc := box.acc + [stamped], queue := box.queue + [stamped], passed := box.passed || passed)];
    }

    method MboxInit(b: nat, cap: nat)
      modifies `mb
      ensures mb == old(mb)[b := Mbox(cap, [], [], [], false)]
    {
      mb := mb[b := Mbox(cap, [], [], [], false)];
    }

    method MboxPut(b: nat, m: Msg, block: bool)
      requires sched.PrioValid() && sched.Intact()
      modifies this, sched
      ensures View() == Put(old(View()), b, m, block)
      ensures sched.Sound()
    {
      hide Bits.QueuesOf, ListMemory.Intact, Twice, S.WakeAt, S.Block, Owes, Enqueued, Stamped;
      var box := BoxOf(mb, b);
      var reader := sched.First(Readers(b));
      if reader != Nil {
        var n := m.(uid := |box.acc|);
        wait := wait[reader.t := Buffer(n)];
        mb := mb[b := box.(acc := box.acc + [n], dlv := box.dlv + [n])];
        WakeWaiter(Readers(b));
        ret := Int(1);
      } else if |box.queue| < box.cap {
        Enqueue(b, m, false);
        ret := Int(1);
      } else if block && sched.active.Some? {
        cont := cont[sched.active.value := PutRetry(b, m)];
        AwaitMbox(sched.active.value, Writers(b));
      } else {
        ret := Int(0);
      }
    }

    /** One more round of the loop in `_mbox_put` */
    method MboxPutReturn()
      requires sched.PrioValid() && sched.Intact() && sched.active.Some?
      modifies this, sched
      ensures View() == PutReturn(old(View()), old(sched.active.value))
      ensures sched.Sound()
    {
      hide Bits.QueuesOf, ListMemory.Intact, Twice, S.Block, Owes, Enqueued, Stamped;
      var a := sched.active.value;
      match if a in cont then cont[a] else User
      case PutRetry(b, m) =>
        if |BoxOf(mb, b).queue| >= BoxOf(mb, b).cap {
          cont := cont[a := PutRetry(b, m)];
          AwaitMbox(a, Writers(b));
        } else {
          Enqueue(b, m, sched.First(Readers(b)) != Nil);
          cont := cont[a := User];
          ret := Int(1);
        }
      case _ =>
    }

    method MboxGet(b: nat, block: bool)
      requires sched.PrioValid() && sched.Intact()
      modifies this, sched
      ensures View() == Fetch(old(View()), b, block)
      ensures sched.Sound()
    {
      hide Bits.QueuesOf, ListMemory.Intact, Twice, S.WakeAt, S.Block, Owes;
      var box := BoxOf(mb, b);
      if box.queue != [] {
        mb := mb[b := box.(dlv := box.dlv + [box.queue[0]], queue := box.queue[1..])];
        if sched.First(Writers(b)) != Nil {
          WakeWaiter(Writers(b));
        } else {
          sched.Reschedule(Nothing);
        }
        ret := Int(1);
      } else if block && sched.active.Some? {
        wait := wait[sched.active.value := Buffer(BLANK)];
        AwaitMbox(sched.active.value, Readers(b));
        ret := Int(1);
      } else {
        ret := Int(0);
      }
    }

    // ---- thread.c ----

    /** `thread_yield` and `thread_yield_higher` */
    method ThreadYield(rotate: bool)
      requires sched.Intact()
      modifies sched
      ensures sched.Sound()
      ensures var s := old(View()); View() == s.(k := Owes(s.k, if rotate then YieldRotate else YieldHigher))
    {
      hide Bits.QueuesOf, ListMemory.Intact, Twice, Scheduler.K, Owes;
      sched.Reschedule(if rotate then YieldRotate else YieldHigher);
    }

    /** `thread_sleep` and `thread_zombify` */
    method ThreadSleep(st: Status)
      requires sched.PrioValid() && sched.Intact() && sched.active.Some? && !OnRunqueue(st)
      modifies this, sched
      ensures View() == Sleep(old(View()), old(sched.active.value), st)
      ensures sched.Sound()
    {
      hide Bits.QueuesOf, Scheduler.Intact, Scheduler.Sound, S.Block, Owes;
      sched.Block(sched.active.value, st, None);
      sched.Reschedule(YieldHigher);
      ret := NoRet;
    }

    method ThreadWakeup(target: nat)
      requires sched.PrioValid() && sched.Intact()
      modifies this, sched
      ensures View() == Wakeup(old(View()), target)
      ensures sched.Sound()
    {
      hide Bits.QueuesOf, ListMemory.Intact, Twice, S.SetStatus, Owes;
      if target in pids && sched.StatusAt(pids[target]).Sleeping? {
        var t := pids[target];
        Rouse(t, Running, Switch(sched.PrioAt(t)));
        ret := Int(1);
      } else {
        ret := Int(NOT_FOUND);
      }
    }

    method ThreadKillZombie(target: nat)
      requires sched.PrioValid() && sched.Intact()
      modifies this, sched
      ensures View() == KillZombie(old(View()), target)
      ensures sched.Sound()
    {
      hide Bits.QueuesOf, ListMemory.Intact, Twice, S.SetStatus;
      if target in pids && sched.StatusAt(pids[target]).Zombie? {
        var t := pids[target];
        pids := pids - {target};
        sched.SetStatus(t, Stopped);
        ret := Int(1);
      } else {
        ret := Int(NOT_FOUND);
      }
    }

    /** The search for a free pid in `thread_create` */
    method FindPid() returns (r: Option<nat>)
      ensures r == FreePid(pids, PID_FIRST)
    {
      var p := PID_FIRST;
      while p <= PID_LAST && p in pids
        invariant PID_FIRST <= p <= PID_LAST + 1 && FreePid(pids, PID_FIRST) == FreePid(pids, p)
      {
        p := p + 1;
      }
      r := if p <= PID_LAST then Some(p) else None;
    }

    method ThreadCreate(t: Tid, prio: nat, how: Start, flags: bv16)
      requires sched.PrioValid() && sched.Intact()
      modifies this, sched
      ensures View() == Create(old(View()), t, prio, how, flags)
      ensures sched.Sound()
    {
      hide Bits.QueuesOf, ListMemory.Intact, Twice, Scheduler.K, Started, Registered, FreePid;
      if prio >= PRIO_LEVELS {
        ret := Int(-EINVAL);
        return;
      }
      var p := FindPid();
      if p.None? {
        ret := Int(-EOVERFLOW);
        return;
      }
      FillBlock(p.value, t, flags);
      Launch(t, prio, how);
      ret := Int(p.value);
    }

    /** What `thread_create` stores outside the scheduler. */
    method FillBlock(p: nat, t: Tid, flags: bv16)
      modifies this
      ensures var s := old(View());
        View() == s.(pids := s.pids[p := t],
                     pid := s.pid[t := p],
                     ms := s.ms.(ch := s.ms.ch[t := Chan(0, [], [], [])]),
                     fl := s.fl[t := flags],
                     wait := s.wait[t := Null])
    {
      hide Bits.QueuesOf, ListMemory.Intact, Twice, Scheduler.K;
      pids := pids[p := t];
      pid := pid[t := p];
      ms := ms.(ch := ms.ch[t := Chan(0, [], [], [])]);
      fl := fl[t := flags];
      wait := wait[t := Null];
    }

    method Launch(t: Tid, prio: nat, how: Start)
      requires sched.PrioValid() && sched.Intact() && prio < PRIO_LEVELS
      modifies sched
      ensures sched.K() == Started(Registered(old(sched.K()), t, prio), t, how)
      ensures sched.Sound()
    {
      hide Bits.QueuesOf, ListMemory.Intact, Twice, S.SetStatus, Owes;
      sched.Register(t, prio);
      match how {
        case Asleep => sched.SetStatus(t, Sleeping);
        case Quietly =>
          sched.SetStatus(t, Pending);
          sched.Unyielding();
        case Normally =>
          sched.SetStatus(t, Pending);
          sched.Reschedule(Switch(prio));
      }
    }

    /** `sched_change_priority` */
    method ChangePriority(t: Tid, prio: nat)
      requires sched.PrioValid() && sched.Intact() && prio < PRIO_LEVELS
      modifies this, sched
      ensures View() == ThreadSpec.ChangePriority(old(View()), t, prio)
      ensures sched.Sound()
    {
      hide Bits.QueuesOf, ListMemory.Intact, Twice, Reprioritised, Owes;
      if sched.PrioAt(t) == prio {
        return;
      }
      sched.SetPriority(t, prio);
      sched.Reschedule(PrioYield(t, prio));
      ret := NoRet;
    }

    /** `sched_task_exit` */
    method Exit()
      requires Inv(sched.K()) && sched.Intact() && sched.active.Some? && IsHead(sched.K(), sched.active.value)
      modifies this, sched
      ensures View() == ThreadSpec.Exit(old(View()), old(sched.active.value))
      ensures sched.Sound()
    {
      hide Bits.QueuesOf, ListMemory.Intact, Twice, Inv, IsHead, S.SetStatus, S.SchedRun;
      var a := sched.active.value;
      pids := pids - {if a in pid then pid[a] else 0};
      Retire(a);
    }

    /** The active thread stops, and another one is scheduled. */
    method Retire(a: Tid)
      requires Inv(sched.K()) && sched.Intact() && IsHead(sched.K(), a)
      modifies sched
      ensures var k1 := S.SetStatus(old(sched.K()), a, Stopped);
        sched.K() == S.SchedRun(k1.(cpu := k1.cpu.(active := None)))
      ensures sched.Sound()
    {
      hide Bits.QueuesOf, ListMemory.Intact, Twice, LinksOk, MatchOk, S.SetStatus, S.SchedRun, IsHead;
      ExitInv(sched.K(), a);
      sched.SetStatus(a, Stopped);
      sched.Vacate();
      sched.SchedRun();
    }
  }

  /** Changing a status does not touch the wait lists. */
  lemma OtherList(k: Sched, t: Tid, st: Status, id: ListId)
    requires !id.Run?
    ensures L(S.SetStatus(k, t, st).q, id) == L(k.q, id)
  {
  }

  /** The woken thread leaves its list, and nothing else does. */
  lemma WokenList(k: Sched, id: ListId)
    requires !id.Run? && L(k.q, id) != []
    ensures L(S.WakeAt(k, id, 0).q, id) == L(k.q, id)[1..]
  {
    OtherList(k.(q := Unlink(k.q, id, 0)), L(k.q, id)[0], Pending, id);
  }

  lemma WokenLength(k: Sched, id: ListId, i: nat)
    requires !id.Run? && i < |L(k.q, id)|
    ensures |L(S.WakeAt(k, id, i).q, id)| == |L(k.q, id)| - 1
  {
    OtherList(k.(q := Unlink(k.q, id, i)), L(k.q, id)[i], Pending, id);
  }

  lemma {:induction false} FirstIndex(q: seq<Tid>, t: Tid, i: nat)
    requires i < |q| && q[i] == t && t !in q[..i]
    ensures IndexOf(q, t) == i
  {
    if i > 0 {
      assert q[0] in q[..i];
      assert q[1..][..i - 1] == q[..i][1..];
      FirstIndex(q[1..], t, i - 1);
    }
  }

  lemma MarkAfter(s: State, m: nat)
    requires m in s.mx.mark ==> L(s.k.q, MutexQ(m)) == []
    ensures var q := L(s.k.q, MutexQ(m));
      ReleaseMutex(s, m).mark == if q == [] then s.mx.mark - {m} else if |q| == 1 then s.mx.mark + {m} else s.mx.mark
  {
    hide Drop;
  }

  lemma NotifyPrio(k: Sched, fl: map<Tid, bv16>, wait: map<Tid, Wait>, r: Tid)
    ensures NotifyWake(k, fl, wait, r).prio == k.prio
  {
    hide Wakes, With;
  }

  lemma StatusCpu(k: Sched, t: Tid, st: Status)
    ensures S.SetStatus(k, t, st).cpu == k.cpu
  {
  }

  lemma ReleaseIs(k: Sched, a: Tid)
    requires L(k.q, SendQ(a)) != []
    ensures var w, k1 := L(k.q, SendQ(a))[0], k.(q := Unlink(k.q, SendQ(a), 0));
      ReleaseSender(k, a) == if St(k, w).ReplyBlocked? then k1 else S.SetStatus(k1, w, Pending)
  {
    hide S.RunqueuePush, S.RunqueuePop, S.Unlink;
  }

  /** A thread that exits leaves the scheduler consistent. */
  lemma ExitInv(k: Sched, a: Tid)
    requires Inv(k) && IsHead(k, a)
    ensures var k1 := S.SetStatus(k, a, Stopped); Inv(k1.(cpu := k1.cpu.(active := None)))
  {
    hide LinksOk, MatchOk, S.SetStatus;
    BlockOk(k, a, Stopped, None);
    assert S.Block(k, a, Stopped, None) == S.SetStatus(k, a, Stopped);
  }
}
