/** Every message operation keeps the scheduler, message and flag invariants. */
module MsgSteps {
  import opened Wrappers
  import opened Queues
  import opened Sched
  import opened Reschedule
  import opened KernelState
  import opened FlagSpec
  import opened MsgOrder
  import opened MsgSpec

  ghost predicate Kept(s: State, s': State) {
    SchedOk(s'.k) && MsgInv(s') && FlagInv(s') && Only(s.k, s'.k, MsgKinds, MsgStatuses)
  }

  /** `a` is about to send: in its own code, or after the first steps of `msg_send_receive`. */
  ghost predicate CanSend(k: Sched, a: Tid) {
    && Inv(k) && k.cpu.active == Some(a) && !k.cpu.isr && !k.cpu.idle && CanBlock(k, a)
    && ((St(k, a).ReplyBlocked? && a !in k.q.on) || (Act(k) && Ready(k)))
  }

  function Requesting(k: Sched, a: Tid): set<Tid> {
    if St(k, a).ReplyBlocked? then {a} else {}
  }

  predicate FlagBlocked(st: Status) {
    st.FlagBlockedAny? || st.FlagBlockedAll?
  }

  lemma FlagsKeep(status: map<Tid, Status>, fl: map<Tid, bv16>, wait: map<Tid, Wait>, cont: map<Tid, Cont>,
                  t: Tid, st: Status, w: Wait)
    requires FlagsOk(status, fl, wait, cont) && !FlagBlocked(StatusOf(status, t)) && !FlagBlocked(st)
    ensures FlagsOk(status[t := st], fl, wait[t := w], cont)
  {
    hide FlagOk;
    if t in cont {
      FlagOkKeep(StatusOf(status, t), st, FlagsOf(fl, t), WaitOf(wait, t), w, cont[t]);
    }
  }

  lemma FlagOkKeep(st: Status, st': Status, f: bv16, w: Wait, w': Wait, c: Cont)
    requires FlagOk(st, f, w, c) && !FlagBlocked(st) && !FlagBlocked(st')
    ensures FlagOk(st', f, w', c)
  {
    hide Any, All;
  }

  // ---- Handing a message to a blocked receiver ----

  /** A blocked thread that is on no list becomes runnable, and the caller yields. */
  lemma WakeYieldOk(k: Sched, t: Tid)
    requires Inv(k) && t in k.status && t !in k.q.on && MsgBlocked(k.status[t])
    requires if k.cpu.isr then Act(k) else k.cpu.active.Some?
    ensures var k' := Owes(SetStatus(k, t, Pending), YieldHigher);
      && SchedOk(k') && k'.status == k.status[t := Pending] && k'.q.on == k.q.on[t := Run(Pr(k, t))]
      && SameSendLists(k.q, k'.q) && Only(k, k', MsgKinds, MsgStatuses)
  {
    hide LinksOk, MatchOk, SetStatus, Act, Grown;
    WakeOk(k, t, Pending);
    var k1 := SetStatus(k, t, Pending);
    assert Only(k, k1, MsgKinds, MsgStatuses);
    if k.cpu.isr {
      WakeGrows(k, t, Pending);
      RequestIsrAct(k, k1, Pr(k, t));
    } else {
      YieldAct(Owes(k1, YieldHigher));
    }
  }

  lemma DirectOk(s: State, r: Tid, m: Msg, o: set<Tid>)
    requires Inv(s.k) && FlagInv(s) && MsgOkBut(s.k.q, s.k.status, s.wait, s.ms, o)
    requires Sending(s.k.status, s.wait, s.ms, r, m, o) && St(s.k, r).ReceiveBlocked?
    requires if s.k.cpu.isr then Act(s.k) else s.k.cpu.active.Some?
    ensures Kept(s, SendDirect(s, r, m))
  {
    hide LinksOk, MatchOk, SetStatus, Act, Only, FlagsOk, MsgOkBut, MsgOk, Sending, Handed, ListsOk;
    OnSendQ(s.k, r);
    WakeYieldOk(s.k, r);
    FlagsKeep(s.k.status, s.fl, s.wait, s.cont, r, Pending, Buffer(m));
    LinkedLists(s.k);
    HandedOk(s.k.q, s.k.status, s.wait, s.ms, SendDirect(s, r, m).k.q, r, m, Pr(s.k, r), o);
  }

  lemma LinkedLists(k: Sched)
    requires Inv(k)
    ensures ListsOk(k.q.lists, k.q.on)
  {
  }

  // ---- Waking a receiver that waits for the flag ----

  lemma NotifyAct(k: Sched, k1: Sched, r: Tid, woken: bool, o: Owe)
    requires FlagWoken(k, k1, r, woken) && (woken ==> FlagBlocked(St(k, r)))
    requires k.cpu.isr ==> Act(k) && (o.Nothing? || o.IfRequested?)
    requires !k.cpu.isr ==> k.cpu.active.Some? && !k.cpu.idle
    requires !k.cpu.isr ==>
      || o.YieldHigher?
      || (o.IfRequested? && (St(k, k.cpu.active.value).ReplyBlocked? || (Act(k) && Ready(k))))
      || (o.Nothing? && !woken && Act(k) && Ready(k))
    ensures Act(Owes(k1, o))
  {
    hide LinksOk, MatchOk, Only;
    if k.cpu.isr && woken {
      RequestIsrAct(k, k1.(cpu := k.cpu), Pr(k, r));
      assert k1 == Request(k1.(cpu := k.cpu));
    }
  }

  lemma NotifyMsg(k: Sched, k1: Sched, r: Tid, woken: bool, o: Owe, wait: map<Tid, Wait>, ms: Messages)
    requires Inv(k) && FlagWoken(k, k1, r, woken) && MsgOk(k.q, k.status, wait, ms)
    ensures MsgOk(Owes(k1, o).q, Owes(k1, o).status, wait, ms)
  {
    hide LinksOk, MatchOk, Framed, MsgOk, Grown;
    MsgKept(k, k1, wait, wait, ms, FlagKinds, FlagStatuses);
  }

  lemma NotifyFlags(k: Sched, fl: map<Tid, bv16>, wait: map<Tid, Wait>, cont: map<Tid, Cont>, r: Tid)
    requires Inv(k) && FlagsOk(k.status, fl, wait, cont)
    ensures FlagsOk(NotifyWake(k, fl, wait, r).status, Notified(fl, r), wait, cont)
  {
    hide Inv, Only, Wakes, With, FlagWake, FlagWoken, FlagsOk;
    var f := With(FlagsOf(fl, r), MSG_WAITING);
    FlagWakeOk(k, r, f, WaitOf(wait, r));
    FlagWokenStatus(k, FlagWake(k, r, f, WaitOf(wait, r)), r, Wakes(St(k, r), f, WaitOf(wait, r)));
    SetFlagsOk(k.status, NotifyWake(k, fl, wait, r).status, fl, wait, cont, r, MSG_WAITING);
  }

  /** The notification that ends a queueing or blocking send. */
  lemma NotifyOk(k0: Sched, k: Sched, fl: map<Tid, bv16>, wait: map<Tid, Wait>, cont: map<Tid, Cont>, ms: Messages, r: Tid, o: Owe)
    requires Inv(k) && MsgOk(k.q, k.status, wait, ms) && FlagsOk(k.status, fl, wait, cont)
    requires Only(k0, k, MsgKinds, MsgStatuses)
    requires k.cpu.isr ==> Act(k) && (o.Nothing? || o.IfRequested?)
    requires !k.cpu.isr ==> k.cpu.active.Some? && !k.cpu.idle
    requires !k.cpu.isr ==>
      || o.YieldHigher?
      || (o.IfRequested? && (St(k, k.cpu.active.value).ReplyBlocked? || (Act(k) && Ready(k))))
      || (o.Nothing? && !FlagBlocked(St(k, r)) && Act(k) && Ready(k))
    ensures var k' := Owes(NotifyWake(k, fl, wait, r), o);
      && SchedOk(k') && MsgOk(k'.q, k'.status, wait, ms) && FlagsOk(k'.status, Notified(fl, r), wait, cont)
      && Only(k0, k', MsgKinds, MsgStatuses)
  {
    hide LinksOk, MatchOk, Only, MsgOk, FlagsOk, With, FlagWake, FlagWoken, Act, Wakes;
    var f, w := With(FlagsOf(fl, r), MSG_WAITING), WaitOf(wait, r);
    var k1, woken := FlagWake(k, r, f, w), Wakes(St(k, r), f, w);
    FlagWakeOk(k, r, f, w);
    WakesMeansBlocked(St(k, r), f, w);
    NotifyAct(k, k1, r, woken, o);
    NotifyMsg(k, k1, r, woken, o, wait, ms);
    NotifyFlags(k, fl, wait, cont, r);
    NotifyOnly(k0, k, k1, r, woken, o);
  }

  lemma WakesMeansBlocked(st: Status, f: bv16, w: Wait)
    ensures Wakes(st, f, w) ==> FlagBlocked(st)
  {
    hide Any, All;
  }

  lemma NotifyOnly(k0: Sched, k: Sched, k1: Sched, r: Tid, woken: bool, o: Owe)
    requires Only(k0, k, MsgKinds, MsgStatuses) && FlagWoken(k, k1, r, woken)
    ensures Only(k0, Owes(k1, o), MsgKinds, MsgStatuses) && Inv(Owes(k1, o))
  {
    hide LinksOk, MatchOk, Grown;
    OnlyWider(k, k1);
    OnlyTrans(k0, k, k1, MsgKinds, MsgStatuses);
  }

  lemma OnlyWider(k: Sched, k': Sched)
    requires Only(k, k', FlagKinds, FlagStatuses)
    ensures Only(k, k', MsgKinds, MsgStatuses)
  {
  }

  lemma QueueOk(s: State, r: Tid, m: Msg, o: set<Tid>, owe: Owe)
    requires Inv(s.k) && FlagInv(s) && MsgOkBut(s.k.q, s.k.status, s.wait, s.ms, o)
    requires Sending(s.k.status, s.wait, s.ms, r, m, o) && !St(s.k, r).ReceiveBlocked? && Room(s.ms, r)
    requires s.k.cpu.isr ==> Act(s.k) && owe.Nothing?
    requires !s.k.cpu.isr ==> s.k.cpu.active.Some? && !s.k.cpu.idle
    requires !s.k.cpu.isr ==>
      || (owe.IfRequested? && (St(s.k, s.k.cpu.active.value).ReplyBlocked? || (Act(s.k) && Ready(s.k))))
      || (owe.Nothing? && !FlagBlocked(St(s.k, r)) && Act(s.k) && Ready(s.k))
    ensures Kept(s, SendQueue(s, r, m, owe))
  {
    hide LinksOk, MatchOk, Act, Only, FlagsOk, MsgOkBut, MsgOk, Sending, Queued, ListsOk, NotifyWake, Notified, Room, Owes;
    LinkedLists(s.k);
    QueuedOk(s.k.q, s.k.status, s.wait, s.ms, r, m, o);
    OnlySame(s.k);
    NotifyOk(s.k, s.k, s.fl, s.wait, s.cont, Queued(s.ms, r, m), r, owe);
  }

  lemma OnlySame(k: Sched)
    ensures Only(k, k, MsgKinds, MsgStatuses)
  {
  }

  lemma BlockSendOk(s: State, a: Tid, r: Tid, m: Msg)
    requires CanSend(s.k, a) && FlagInv(s) && MsgOkBut(s.k.q, s.k.status, s.wait, s.ms, Requesting(s.k, a))
    requires Sending(s.k.status, s.wait, s.ms, r, m, Requesting(s.k, a)) && m.src == Thread(a)
    requires r != a && !St(s.k, r).ReceiveBlocked? && !Room(s.ms, r)
    ensures Kept(s, SendBlock(s, a, r, m))
  {
    hide LinksOk, MatchOk, Act, Only, FlagsOk, MsgOkBut, MsgOk, Sending, Accepted, Notified, NotifyWake, Room, Block, CanBlock;
    hide IsHead, InsertPos;
    var st, k1 := SenderStatus(s.k, a), Block(s.k, a, SenderStatus(s.k, a), Some(SendQ(r)));
    CanSendStatus(s.k, a);
    BlockOk(s.k, a, st, Some(SendQ(r)));
    BlockOnly(s.k, k1, a, r, st);
    AcceptedOk(s.k.q, s.k.status, s.wait, s.ms, k1.q, a, st, r, m, Requesting(s.k, a));
    FlagsKeep(s.k.status, s.fl, s.wait, s.cont, a, st, Buffer(m));
    NotifyOk(s.k, k1, s.fl, s.wait[a := Buffer(m)], s.cont, Accepted(s.ms, r, m), r, YieldHigher);
  }

  lemma CanSendStatus(k: Sched, a: Tid)
    requires CanSend(k, a)
    ensures St(k, a) in MsgStatuses && !FlagBlocked(St(k, a)) && (a in k.q.on ==> !k.q.on[a].SendQ?)
    ensures a in k.status
  {
    hide LinksOk, Matches;
    if Act(k) && Ready(k) {
      CallerCanBlock(k, a);
      StatusMatches(k, a);
    }
  }

  lemma BlockOnly(k: Sched, k1: Sched, a: Tid, r: Tid, st: Status)
    requires SameRest(k, k1) && k1.status == k.status[a := st] && k1.q.on == k.q.on[a := SendQ(r)]
    requires SameLists(k.q, k1.q, {Run(Pr(k, a))} + {SendQ(r)}) && St(k, a) in MsgStatuses && st in MsgStatuses
    ensures Only(k, k1, MsgKinds, MsgStatuses)
  {
  }

  lemma SendCoreOk(s: State, a: Tid, r: Tid, m: Msg, block: bool)
    requires CanSend(s.k, a) && FlagInv(s) && MsgOkBut(s.k.q, s.k.status, s.wait, s.ms, Requesting(s.k, a))
    requires Sending(s.k.status, s.wait, s.ms, r, m, Requesting(s.k, a)) && m.src == Thread(a)
    requires r != a && (block || Ready(s.k)) && (!block ==> MsgInv(s) && SchedOk(s.k))
    ensures Kept(s, SendCore(s, a, r, m, block))
  {
    hide LinksOk, MatchOk, Act, Only, FlagsOk, MsgOkBut, MsgOk, Sending, Room, CanBlock, SendDirect, SendQueue, SendBlock;
    if St(s.k, r).ReceiveBlocked? {
      DirectOk(s, r, m, Requesting(s.k, a));
    } else if Room(s.ms, r) {
      QueueOk(s, r, m, Requesting(s.k, a), IfRequested);
    } else if block {
      BlockSendOk(s, a, r, m);
    } else {
      OnlySame(s.k);
    }
  }

  // ---- The calls ----

  /** `sched_threads`: every entry is a known thread that carries that pid. */
  ghost predicate TableOk(ch: map<Tid, Chan>, pids: map<nat, Tid>, pid: map<Tid, nat>) {
    forall p :: p in pids ==> pids[p] in ch && Get(pid, pids[p]) == p
  }

  predicate InTable(pids: map<nat, Tid>, pid: map<Tid, nat>, t: Tid) {
    Get(pid, t) in pids && pids[Get(pid, t)] == t
  }

  /** Every thread that is not stopped is known, and found in the table under its own pid. */
  ghost predicate Known(k: Sched, ch: map<Tid, Chan>, pids: map<nat, Tid>, pid: map<Tid, nat>) {
    forall t :: !St(k, t).Stopped? ==> t in ch && InTable(pids, pid, t)
  }

  ghost predicate Tabled(s: State) {
    TableOk(s.ms.ch, s.pids, s.pid) && Known(s.k, s.ms.ch, s.pids, s.pid) && (forall t :: t in s.cont ==> t in s.ms.ch)
  }

  lemma CallerCanSend(s: State, a: Tid)
    requires SchedOk(s.k) && Calling(s, a) && MsgInv(s)
    ensures CanSend(s.k, a) && Requesting(s.k, a) == {} && a in s.k.status && !FlagBlocked(St(s.k, a))
    ensures MsgOkBut(s.k.q, s.k.status, s.wait, s.ms, {})
  {
    hide LinksOk, MatchOk, Act, ChansOk, OrderOk, ReceiversOk, FullOk, SendersOk, RequestsOk, CanBlock, IsHead;
    CallerCanBlock(s.k, a);
    assert s.k.status - {} == s.k.status;
  }

  lemma SendOk(s: State, a: Tid, pid: nat, body: int, block: bool)
    requires SchedOk(s.k) && MsgInv(s) && FlagInv(s) && Tabled(s) && Calling(s, a)
    ensures Kept(s, Send(s, a, pid, body, block))
  {
    hide SchedOk, Only, FlagsOk, MsgOkBut, MsgOk, Room, SendCore, SendQueue, CanSend;
    CallerCanSend(s, a);
    OnlySame(s.k);
    if PidOf(s, a) == pid {
      SendSelfOk(s, a, body);
    } else if pid in s.pids {
      SendCoreOk(s, a, s.pids[pid], NewMsg(s, a, s.pids[pid], body), block);
    }
  }

  lemma SendSelfOk(s: State, a: Tid, body: int)
    requires SchedOk(s.k) && MsgInv(s) && FlagInv(s) && Tabled(s) && Calling(s, a)
    ensures Kept(s, SendSelf(s, a, body))
  {
    hide LinksOk, MatchOk, Act, Only, FlagsOk, MsgOkBut, MsgOk, Room, SendQueue, CanBlock, IsHead;
    CallerCanSend(s, a);
    CallerCanBlock(s.k, a);
    OnlySame(s.k);
    if Room(s.ms, a) {
      QueueOk(s, a, NewMsg(s, a, a, body), {}, Nothing);
    }
  }

  lemma SendIsrOk(s: State, pid: nat, body: int)
    requires SchedOk(s.k) && MsgInv(s) && FlagInv(s) && Tabled(s) && s.k.cpu.isr
    ensures Kept(s, SendIsr(s, pid, body))
  {
    hide LinksOk, MatchOk, Act, Only, FlagsOk, ChansOk, OrderOk, ReceiversOk, FullOk, SendersOk, RequestsOk;
    hide Room, SendQueue, SendDirect;
    OnlySame(s.k);
    assert s.k.status - {} == s.k.status;
    if pid in s.pids {
      var r := s.pids[pid];
      var m := Msg(PID_ISR, Isr, r, s.ms.uid, body);
      if St(s.k, r).ReceiveBlocked? {
        DirectOk(s, r, m, {});
      } else if Room(s.ms, r) {
        QueueOk(s, r, m, {}, Nothing);
      }
    }
  }

  // ---- Request and reply ----

  lemma AwaitReplyMsg(s: State, q': Links, a: Tid, w: Wait)
    requires MsgInv(s) && Elsewhere(StatusOf(s.k.status, a), OnOf(s.k.q.on, a))
    requires SameSendLists(s.k.q, q') && q'.on == s.k.q.on - {a}
    ensures MsgOkBut(q', s.k.status[a := ReplyBlocked], s.wait[a := w], s.ms, {a})
  {
    hide ChansOk, OrderOk, Elsewhere;
    var status := s.k.status[a := Sleeping];
    assert SameMsgThreads(s.k.q, s.k.status, s.wait, q', status, s.wait[a := w]) by {
      assert Elsewhere(Sleeping, None) by {
        SleepsElsewhere();
      }
      assert OnOf(q'.on, a) == None;
    }
    MsgFrame(s.k.q, s.k.status, s.wait, q', status, s.wait[a := w], s.ms);
    assert s.k.status[a := ReplyBlocked] - {a} == status - {a};
  }

  lemma SleepsElsewhere()
    ensures Elsewhere(Sleeping, None)
  {
  }

  lemma AwaitReplySched(k: Sched, a: Tid)
    requires SchedOk(k) && Ready(k) && k.cpu.active == Some(a)
    ensures var k1 := SetStatus(k, a, ReplyBlocked);
      && CanSend(k1, a) && Only(k, k1, MsgKinds, MsgStatuses) && St(k1, a).ReplyBlocked?
      && k1.status == k.status[a := ReplyBlocked] && k1.q.on == k.q.on - {a} && SameSendLists(k.q, k1.q)
      && Elsewhere(StatusOf(k.status, a), OnOf(k.q.on, a)) && !FlagBlocked(StatusOf(k.status, a))
  {
    hide LinksOk, MatchOk, Act, CanBlock, IsHead, SetStatus;
    CallerCanBlock(k, a);
    StatusMatches(k, a);
    BlockOk(k, a, ReplyBlocked, None);
    assert Block(k, a, ReplyBlocked, None) == SetStatus(k, a, ReplyBlocked);
    LeftCanBlock(SetStatus(k, a, ReplyBlocked), a);
  }

  lemma AwaitReplyOk(s: State, a: Tid, r: Tid, m: Msg)
    requires SchedOk(s.k) && MsgInv(s) && FlagInv(s) && Calling(s, a)
    requires m == NewMsg(s, a, r, m.body) && r in s.ms.ch
    ensures var s1 := AwaitReply(s, a, m);
      && CanSend(s1.k, a) && FlagInv(s1) && MsgOkBut(s1.k.q, s1.k.status, s1.wait, s1.ms, {a})
      && Sending(s1.k.status, s1.wait, s1.ms, r, m, {a})
      && Only(s.k, s1.k, MsgKinds, MsgStatuses) && St(s1.k, a).ReplyBlocked?
  {
    hide SchedOk, CanSend, Only, FlagsOk, MsgOkBut, MsgOk, SetStatus, Elsewhere, SameSendLists;
    AwaitReplySched(s.k, a);
    AwaitReplyMsg(s, SetStatus(s.k, a, ReplyBlocked).q, a, Buffer(m));
    FlagsKeep(s.k.status, s.fl, s.wait, s.cont, a, ReplyBlocked, Buffer(m));
  }

  lemma LeftCanBlock(k: Sched, a: Tid)
    requires St(k, a).ReplyBlocked? && a !in k.q.on
    ensures CanBlock(k, a)
  {
  }

  lemma KeptTrans(s: State, s1: State, s': State)
    requires Only(s.k, s1.k, MsgKinds, MsgStatuses) && Kept(s1, s')
    ensures Kept(s, s')
  {
    hide SchedOk, MsgOk, FlagsOk;
    OnlyTrans(s.k, s1.k, s'.k, MsgKinds, MsgStatuses);
  }

  lemma SendReceiveOk(s: State, a: Tid, pid: nat, body: int)
    requires SchedOk(s.k) && MsgInv(s) && FlagInv(s) && Tabled(s) && Calling(s, a)
    requires pid in s.pids && pid != PidOf(s, a)
    ensures Kept(s, SendReceive(s, a, pid, body))
  {
    hide SchedOk, Only, FlagsOk, MsgOkBut, MsgOk, CanSend, Sending, SendCore, Kept;
    var r := s.pids[pid];
    var m := NewMsg(s, a, r, body);
    var s1 := AwaitReply(s, a, m);
    AwaitReplyOk(s, a, r, m);
    SendCoreOk(s1, a, r, m, true);
    KeptTrans(s, s1, SendReceive(s, a, pid, body));
  }

  /**
    `msg_send_receive` to a pid without a thread leaves the caller REPLY_BLOCKED, off its run
    queue and running, with no reschedule owed. To an existing other thread it is sound.
  */
  lemma SendReceiveExact(s: State, a: Tid, pid: nat, body: int)
    requires SchedOk(s.k) && MsgInv(s) && FlagInv(s) && Tabled(s) && Calling(s, a) && pid != PidOf(s, a)
    ensures SchedOk(SendReceive(s, a, pid, body).k) <==> pid in s.pids
  {
    if pid in s.pids {
      SendReceiveOk(s, a, pid, body);
    } else {
      NotRescheduled(s, a, pid, body);
    }
  }

  lemma NotRescheduled(s: State, a: Tid, pid: nat, body: int)
    requires Calling(s, a) && pid !in s.pids
    ensures !Act(SendReceive(s, a, pid, body).k)
  {
    hide SetStatus, SendCore;
    var k' := SendReceive(s, a, pid, body).k;
    assert k' == SetStatus(s.k, a, ReplyBlocked);
    SetStatusSame(s.k, a);
  }

  lemma SetStatusSame(k: Sched, a: Tid)
    ensures var k' := SetStatus(k, a, ReplyBlocked); k'.cpu == k.cpu && k'.owe == k.owe && St(k', a).ReplyBlocked?
  {
  }

  lemma RepliedMsg(q: Links, status: map<Tid, Status>, wait: map<Tid, Wait>, ms: Messages, q': Links, t: Tid, w: Wait, p: nat)
    requires MsgOk(q, status, wait, ms) && t !in q.on && q'.on == q.on[t := Run(p)] && SameSendLists(q, q')
    ensures MsgOk(q', status[t := Pending], wait[t := w], ms)
  {
    hide ChansOk, OrderOk;
    RepliedOrder(q.on, wait, ms.ch, q'.on, t, w, p);
  }

  lemma RepliedOrder(on: map<Tid, ListId>, wait: map<Tid, Wait>, ch: map<Tid, Chan>, on': map<Tid, ListId>, t: Tid, w: Wait, p: nat)
    requires OrderOk(on, wait, ch) && t !in on && on' == on[t := Run(p)]
    ensures OrderOk(on', wait[t := w], ch)
  {
    hide InOrder;
    var wait' := wait[t := w];
    forall r | r in ch ensures Ordered(on', wait', ch[r], r) {
      forall x ensures InOrder(ch[r], Held(on', wait', r, x), x) {
        assert InOrder(ch[r], Held(on, wait, r, x), x);
      }
    }
  }

  lemma WakeSwitchOk(k: Sched, t: Tid)
    requires SchedOk(k) && Ready(k) && t in k.status && t !in k.q.on && MsgBlocked(k.status[t])
    ensures var k' := Owes(SetStatus(k, t, Pending), Switch(Pr(k, t)));
      && SchedOk(k') && k'.status == k.status[t := Pending] && k'.q.on == k.q.on[t := Run(Pr(k, t))]
      && SameSendLists(k.q, k'.q) && Only(k, k', MsgKinds, MsgStatuses)
  {
    hide LinksOk, MatchOk, SetStatus, Act, Grown;
    WakeOk(k, t, Pending);
    WakeGrows(k, t, Pending);
    GrownOwes(k, SetStatus(k, t, Pending), Pr(k, t));
  }

  lemma Unfold(k: Sched)
    requires SchedOk(k)
    ensures Inv(k) && Act(k)
  {
  }

  lemma ReplyOk(s: State, t: Tid, reply: Msg)
    requires SchedOk(s.k) && MsgInv(s) && FlagInv(s) && InContext(s.k)
    requires St(s.k, t).ReplyBlocked? ==> t !in s.k.q.on
    ensures Kept(s, Reply(s, t, reply))
  {
    hide SchedOk, SetStatus, Only, FlagsOk, MsgOk, SameSendLists;
    OnlySame(s.k);
    Unfold(s.k);
    if St(s.k, t).ReplyBlocked? {
      if s.k.cpu.isr {
        WakeYieldOk(s.k, t);
      } else {
        WakeSwitchOk(s.k, t);
      }
      FlagsKeep(s.k.status, s.fl, s.wait, s.cont, t, Pending, Buffer(reply));
      RepliedMsg(s.k.q, s.k.status, s.wait, s.ms, Reply(s, t, reply).k.q, t, Buffer(reply), Pr(s.k, t));
    }
  }

  /**
    A reply to a thread whose request is still waiting in the sender list puts the thread's
    node on two lists; in every other case the reply is sound.
  */
  lemma ReplyExact(s: State, t: Tid, reply: Msg)
    requires SchedOk(s.k) && MsgInv(s) && FlagInv(s) && InContext(s.k) && St(s.k, t).ReplyBlocked?
    ensures SchedOk(Reply(s, t, reply).k) <==> t !in s.k.q.on
  {
    hide LinksOk, MatchOk, Act, SetStatus, Only, MsgOk, FlagsOk;
    if t !in s.k.q.on {
      ReplyOk(s, t, reply);
    } else {
      OnTwoLists(s.k, t);
      NotLinked(Reply(s, t, reply).k);
    }
  }

  lemma NotLinked(k: Sched)
    requires !ListsOk(k.q.lists, k.q.on)
    ensures !Inv(k)
  {
    hide ListsOk, SortedOk, BitsOk, MatchOk;
  }

  lemma OnTwoLists(k: Sched, t: Tid)
    requires Inv(k) && St(k, t).ReplyBlocked? && t in k.q.on
    ensures var k' := SetStatus(k, t, Pending); !ListsOk(k'.q.lists, k'.q.on)
  {
    hide BitsOk, SortedOk, NoDup;
    var id := k.q.on[t];
    assert Matches(k.status[t], OnOf(k.q.on, t), Pr(k, t));
    assert t in k.q.lists[id];
    PushedTwice(k.q, t, id, Pr(k, t));
  }

  lemma PushedTwice(n: Links, t: Tid, id: ListId, p: nat)
    requires id in n.lists && t in n.lists[id] && !id.Run?
    ensures var n' := RunqueuePush(n, t, p); !ListsOk(n'.lists, n'.on)
  {
    var n' := RunqueuePush(n, t, p);
    assert t in n'.lists[id] && n'.on[t] == Run(p);
  }

  // ---- Receiving ----

  /** Nothing became runnable that `a` would have to make way for. */
  lemma GrownQuietAct(k: Sched, k': Sched, m: nat)
    requires Inv(k) && Act(k) && Ready(k) && Grown(k, k', m) && m >= PRIO_LEVELS - 1
    ensures Act(Owes(k', Nothing))
  {
    hide LinksOk, MatchOk;
  }

  /** What taking the first waiting sender off the list does. */
  ghost predicate Released(k: Sched, k1: Sched, a: Tid, w: Tid) {
    && Inv(k1) && SameRest(k, k1)
    && w in k.status && w in k.q.on && k.q.on[w] == SendQ(a)
    && (forall x :: x != a ==> L(k1.q, SendQ(x)) == L(k.q, SendQ(x)))
    && (St(k, w).ReplyBlocked? ==> k1.status == k.status && k1.q.on == k.q.on - {w})
    && (!St(k, w).ReplyBlocked? ==> k1.status == k.status[w := Pending] && k1.q.on == k.q.on[w := Run(Pr(k, w))])
    && Only(k, k1, MsgKinds, MsgStatuses)
  }

  lemma ReleaseReplyOk(k: Sched, a: Tid)
    requires Inv(k) && L(k.q, SendQ(a)) != [] && St(k, L(k.q, SendQ(a))[0]).ReplyBlocked?
    ensures Released(k, ReleaseSender(k, a), a, L(k.q, SendQ(a))[0])
    ensures Grown(k, ReleaseSender(k, a), PRIO_LEVELS - 1)
  {
    hide LinksOk, MatchOk, WakeAt, Unlink;
    var w, k1 := L(k.q, SendQ(a))[0], ReleaseSender(k, a);
    DropOk(k, SendQ(a), 0);
    MatchUpdate(k, k1, w);
  }

  lemma SendWaiter(k: Sched, a: Tid)
    requires Inv(k) && L(k.q, SendQ(a)) != [] && !St(k, L(k.q, SendQ(a))[0]).ReplyBlocked?
    ensures St(k, L(k.q, SendQ(a))[0]).SendBlocked?
  {
    hide LinksOk, MatchOk;
    DropOk(k, SendQ(a), 0);
    OnSendQ(k, L(k.q, SendQ(a))[0]);
  }

  lemma ReleaseSendOk(k: Sched, a: Tid)
    requires Inv(k) && L(k.q, SendQ(a)) != [] && !St(k, L(k.q, SendQ(a))[0]).ReplyBlocked?
    ensures Released(k, ReleaseSender(k, a), a, L(k.q, SendQ(a))[0])
    ensures Grown(k, ReleaseSender(k, a), Pr(k, L(k.q, SendQ(a))[0]))
  {
    hide LinksOk, MatchOk, WakeAt, Unlink, Grown;
    WakeAtOk(k, SendQ(a), 0);
    WakeAtGrows(k, SendQ(a), 0);
    SendWaiter(k, a);
    assert ReleaseSender(k, a) == WakeAt(k, SendQ(a), 0);
  }

  lemma ReleaseOk(k: Sched, a: Tid)
    requires SchedOk(k) && Ready(k) && L(k.q, SendQ(a)) != []
    ensures var w := L(k.q, SendQ(a))[0]; var k1 := ReleaseSender(k, a);
      Released(k, k1, a, w) && SchedOk(Owes(k1, SenderOwe(k, w))) && Only(k, Owes(k1, SenderOwe(k, w)), MsgKinds, MsgStatuses)
  {
    hide LinksOk, MatchOk, ReleaseSender, Act, Grown, Only;
    var w, k1 := L(k.q, SendQ(a))[0], ReleaseSender(k, a);
    if St(k, w).ReplyBlocked? {
      ReleaseReplyOk(k, a);
      GrownQuietAct(k, k1, PRIO_LEVELS - 1);
    } else {
      ReleaseSendOk(k, a);
      if Pr(k, w) < PRIO_LEVELS - 1 {
        GrownSwitchAct(k, k1, Pr(k, w));
      } else {
        GrownQuietAct(k, k1, Pr(k, w));
      }
    }
    OnlyOwes(k, k1, SenderOwe(k, w), MsgKinds, MsgStatuses);
  }

  /** The threads involved when `a` takes the message of `w`. */
  lemma TakerOk(s: State, k1: Sched, a: Tid, w: Tid, b: Wait, wait: map<Tid, Wait>)
    requires Inv(s.k) && Released(s.k, k1, a, w) && OnRunqueue(St(s.k, a))
    requires wait == SenderWait(s, w) || wait == SenderWait(s, w)[a := b]
    ensures a != w && a in s.k.status
    ensures LetGo(s.k.q.on, s.wait, k1.q.on, wait, w)
    ensures forall t :: t != a && (t != w || St(s.k, w).ReplyBlocked?) ==> WaitOf(wait, t) == WaitOf(s.wait, t)
  {
    hide LinksOk, MatchOk, Only;
    StatusMatches(s.k, a);
  }

  lemma ReleaseFlags(s: State, k1: Sched, a: Tid, w: Tid)
    requires Released(s.k, k1, a, w) && FlagInv(s) && Inv(s.k)
    ensures FlagsOk(k1.status, s.fl, SenderWait(s, w), s.cont)
  {
    hide LinksOk, MatchOk, Only, FlagsOk;
    if !St(s.k, w).ReplyBlocked? {
      OnSendQ(s.k, w);
      FlagsKeep(s.k.status, s.fl, s.wait, s.cont, w, Pending, Null);
    }
  }

  lemma TakerFlags(s: State, k1: Sched, a: Tid, w: Tid, b: Wait)
    requires Released(s.k, k1, a, w) && FlagInv(s) && Inv(s.k) && OnRunqueue(St(s.k, a)) && a != w
    ensures FlagsOk(k1.status, s.fl, SenderWait(s, w)[a := b], s.cont)
  {
    hide LinksOk, MatchOk, Only, FlagsOk;
    ReleaseFlags(s, k1, a, w);
    FlagsKeep(k1.status, s.fl, SenderWait(s, w), s.cont, a, k1.status[a], b);
    assert k1.status[a := k1.status[a]] == k1.status;
  }

  /** What the receiver has after taking `w`'s message, directly or into its queue. */
  function TakerChans(s: State, a: Tid, w: Tid): map<Tid, Chan> {
    var c := ChanOf(s.ms, a);
    s.ms.ch[a :=
      if c.queue == [] then c.(dlv := c.dlv + [SenderMsg(s, w)])
      else c.(dlv := c.dlv + [c.queue[0]], queue := c.queue[1..] + [SenderMsg(s, w)])]
  }

  lemma TakerOrder(on: map<Tid, ListId>, wait: map<Tid, Wait>, ms: Messages, on': map<Tid, ListId>, wait': map<Tid, Wait>,
                   a: Tid, w: Tid)
    requires OrderOk(on, wait, ms.ch) && SendersOk(on, wait) && a in ms.ch && w in on && on[w] == SendQ(a)
    requires LetGo(on, wait, on', wait', w)
    ensures var c, b := ms.ch[a], wait[w].m;
      OrderOk(on', wait', ms.ch[a :=
        if c.queue == [] then c.(dlv := c.dlv + [b]) else c.(dlv := c.dlv + [c.queue[0]], queue := c.queue[1..] + [b])])
  {
    hide OrderOk, LetGo;
    var c, b := ms.ch[a], wait[w].m;
    if c.queue == [] {
      RefillOrder(on, wait, ms.ch, on', wait', a, w, true);
    } else {
      var c1 := c.(dlv := c.dlv + [c.queue[0]], queue := c.queue[1..]);
      TakeOrder(on, wait, ms, a);
      RefillOrder(on, wait, ms.ch[a := c1], on', wait', a, w, false);
      assert ms.ch[a := c1][a := c1.(queue := c1.queue + [b])] == ms.ch[a := c1.(queue := c1.queue + [b])];
    }
  }

  lemma TakerMsg(s: State, k1: Sched, a: Tid, w: Tid, b: Wait, wait: map<Tid, Wait>)
    requires Inv(s.k) && MsgInv(s) && Tabled(s) && Released(s.k, k1, a, w) && OnRunqueue(St(s.k, a))
    requires L(s.k.q, SendQ(a)) != []
    requires wait == SenderWait(s, w) || wait == SenderWait(s, w)[a := b]
    ensures MsgOk(k1.q, k1.status, wait, s.ms.(ch := TakerChans(s, a, w)))
  {
    hide LinksOk, MatchOk, Only, ChansOk, OrderOk, ReceiversOk, FullOk, RequestsOk, LetGo;
    TakerOk(s, k1, a, w, b, wait);
    TakerOrder(s.k.q.on, s.wait, s.ms, k1.q.on, wait, a, w);
    TookOk(s.k.q, s.k.status, s.wait, s.ms, k1.q, k1.status, wait, a, w, TakerChans(s, a, w));
  }

  lemma TakeFromSenderOk(s: State, a: Tid)
    requires SchedOk(s.k) && MsgInv(s) && FlagInv(s) && Tabled(s) && Calling(s, a)
    requires L(s.k.q, SendQ(a)) != [] && ChanOf(s.ms, a).queue == []
    ensures Kept(s, TakeFromSender(s, a))
  {
    hide LinksOk, MatchOk, ReleaseSender, Act, Only, MsgOk, FlagsOk, IsHead, CanBlock, Released, SenderWait, SenderOwe, LetGo, TableOk;
    var w, k1 := L(s.k.q, SendQ(a))[0], ReleaseSender(s.k, a);
    var b := Buffer(SenderMsg(s, w));
    CallerCanBlock(s.k, a);
    ReleaseOk(s.k, a);
    TakerOk(s, k1, a, w, b, SenderWait(s, w)[a := b]);
    TakerFlags(s, k1, a, w, b);
    TakerMsg(s, k1, a, w, b, SenderWait(s, w)[a := b]);
  }

  lemma TakeAndRefillOk(s: State, a: Tid)
    requires SchedOk(s.k) && MsgInv(s) && FlagInv(s) && Tabled(s) && Calling(s, a)
    requires L(s.k.q, SendQ(a)) != [] && ChanOf(s.ms, a).queue != []
    ensures Kept(s, TakeAndRefill(s, a))
  {
    hide LinksOk, MatchOk, ReleaseSender, Act, Only, MsgOk, FlagsOk, IsHead, CanBlock, Released, SenderWait, SenderOwe, LetGo, TableOk;
    var w, k1 := L(s.k.q, SendQ(a))[0], ReleaseSender(s.k, a);
    CallerCanBlock(s.k, a);
    ReleaseOk(s.k, a);
    ReleaseFlags(s, k1, a, w);
    TakerMsg(s, k1, a, w, Null, SenderWait(s, w));
  }

  lemma AwaitMsgSched(k: Sched, a: Tid)
    requires SchedOk(k) && Ready(k) && k.cpu.active == Some(a)
    ensures var k' := Owes(Block(k, a, ReceiveBlocked, None), YieldHigher);
      && SchedOk(k') && Only(k, k', MsgKinds, MsgStatuses)
      && k'.status == k.status[a := ReceiveBlocked] && k'.q.on == k.q.on - {a} && SameSendLists(k.q, k'.q)
      && Elsewhere(StatusOf(k.status, a), OnOf(k.q.on, a)) && !FlagBlocked(StatusOf(k.status, a))
  {
    hide LinksOk, MatchOk, Block, Act, Only, CanBlock, IsHead;
    CallerCanBlock(k, a);
    StatusMatches(k, a);
    BlockStep(k, a, ReceiveBlocked, None, YieldHigher, MsgKinds, MsgStatuses);
  }

  lemma AwaitMsgOk(s: State, a: Tid)
    requires SchedOk(s.k) && MsgInv(s) && FlagInv(s) && Calling(s, a)
    requires L(s.k.q, SendQ(a)) == [] && ChanOf(s.ms, a).queue == []
    ensures Kept(s, AwaitMsg(s, a))
  {
    hide SchedOk, Block, Owes, Only, MsgOk, FlagsOk, SameSendLists, Elsewhere;
    AwaitMsgSched(s.k, a);
    FlagsKeep(s.k.status, s.fl, s.wait, s.cont, a, ReceiveBlocked, Buffer(BLANK));
    AwaitMsgMsg(s, AwaitMsg(s, a).k.q, a);
  }

  lemma AwaitMsgMsg(s: State, q': Links, a: Tid)
    requires MsgInv(s) && Elsewhere(StatusOf(s.k.status, a), OnOf(s.k.q.on, a))
    requires SameSendLists(s.k.q, q') && q'.on == s.k.q.on - {a}
    requires L(s.k.q, SendQ(a)) == [] && ChanOf(s.ms, a).queue == []
    ensures MsgOk(q', s.k.status[a := ReceiveBlocked], s.wait[a := Buffer(BLANK)], s.ms)
  {
    hide ChansOk, OrderOk, SendersOk, FullOk;
    AwaitReplyMsg(s, q', a, Buffer(BLANK));
    assert s.k.status[a := ReplyBlocked] - {a} == s.k.status[a := ReceiveBlocked] - {a};
  }

  lemma ReceiveOk(s: State, a: Tid, block: bool)
    requires SchedOk(s.k) && MsgInv(s) && FlagInv(s) && Tabled(s) && Calling(s, a)
    ensures Kept(s, Receive(s, a, block))
  {
    hide LinksOk, MatchOk, Act, Only, MsgOk, FlagsOk, CanBlock, IsHead, TakeFromSender, AwaitMsg, TakeAndRefill;
    OnlySame(s.k);
    CallerCanBlock(s.k, a);
    if ChanOf(s.ms, a).queue == [] {
      if L(s.k.q, SendQ(a)) != [] {
        TakeFromSenderOk(s, a);
      } else if block {
        AwaitMsgOk(s, a);
      }
    } else if L(s.k.q, SendQ(a)) == [] {
      TakeQueuedOk(s, a);
    } else {
      TakeAndRefillOk(s, a);
    }
  }

  /** A new message queue loses nothing exactly if the old one was empty and no sender waits for room. */
  lemma InitQueueExact(s: State, a: Tid, n: nat)
    requires MsgInv(s) && a in s.ms.ch
    ensures MsgInv(InitQueue(s, a, n)) <==> s.ms.ch[a].queue == [] && (L(s.k.q, SendQ(a)) != [] ==> n == 0)
  {
    hide ChansOk, ReceiversOk, RequestsOk, SendersOk, OrderOk, FullOk;
    var ch := InitQueue(s, a, n).ms.ch;
    InitChans(s.ms, a, n);
    InitOthers(s, a, n);
    InitAllOrder(s.k.q.on, s.wait, s.ms.ch, a, n);
    if s.ms.ch[a].queue == [] {
      InitFull(s, a, n);
    }
  }

  lemma InitChans(ms: Messages, a: Tid, n: nat)
    requires ChansOk(ms.ch, ms.uid) && a in ms.ch
    ensures ChansOk(ms.ch[a := ms.ch[a].(cap := n, queue := [])], ms.uid)
  {
    hide Increasing;
  }

  lemma InitOthers(s: State, a: Tid, n: nat)
    requires MsgInv(s) && a in s.ms.ch
    ensures ReceiversOk(s.k.q, s.k.status, s.wait, InitQueue(s, a, n).ms)
    ensures RequestsOk(s.k.status, s.wait, InitQueue(s, a, n).ms)
  {
    hide ChansOk, OrderOk, SendersOk;
  }

  lemma InitFull(s: State, a: Tid, n: nat)
    requires MsgInv(s) && a in s.ms.ch && s.ms.ch[a].queue == []
    ensures FullOk(s.k.q, InitQueue(s, a, n).ms) <==> (L(s.k.q, SendQ(a)) != [] ==> n == 0)
  {
    hide ChansOk, OrderOk, SendersOk, ReceiversOk, RequestsOk;
    var ms' := InitQueue(s, a, n).ms;
    assert ms'.ch[a].queue == [] && ms'.ch[a].cap == n;
  }

  lemma InitAllOrder(on: map<Tid, ListId>, wait: map<Tid, Wait>, ch: map<Tid, Chan>, a: Tid, n: nat)
    requires OrderOk(on, wait, ch) && a in ch
    ensures OrderOk(on, wait, ch[a := ch[a].(cap := n, queue := [])]) <==> ch[a].queue == []
  {
    hide Ordered;
    var ch' := ch[a := ch[a].(cap := n, queue := [])];
    InitOrder(on, wait, ch[a], a, n);
    assert a in ch' && ch'[a] == ch[a].(cap := n, queue := []);
  }

  lemma InitOrder(on: map<Tid, ListId>, wait: map<Tid, Wait>, c: Chan, a: Tid, n: nat)
    requires Ordered(on, wait, c, a)
    ensures Ordered(on, wait, c.(cap := n, queue := []), a) <==> c.queue == []
  {
    hide Held, From;
    if c.queue == [] {
      forall p ensures InOrder(c.(cap := n, queue := []), Held(on, wait, a, p), p) {
        assert InOrder(c, Held(on, wait, a, p), p);
      }
    } else {
      InitLoses(on, wait, c, a, n);
    }
  }

  lemma InitLoses(on: map<Tid, ListId>, wait: map<Tid, Wait>, c: Chan, a: Tid, n: nat)
    requires Ordered(on, wait, c, a) && c.queue != []
    ensures !Ordered(on, wait, c.(cap := n, queue := []), a)
  {
    hide Held;
    var p := c.queue[|c.queue| - 1].src;
    assert InOrder(c, Held(on, wait, a, p), p);
    assert From(c.queue, p) != [];
    assert !InOrder(c.(cap := n, queue := []), Held(on, wait, a, p), p);
  }
}
