/** Synchronous messages: send, receive, request and reply. */
module MsgSpec {
  import opened Wrappers
  import opened Queues
  import opened Sched
  import opened Reschedule
  import opened KernelState
  import opened FlagSpec
  import opened MsgOrder

  const EMPTY_CHAN := Chan(0, [], [], [])

  function ChanOf(ms: Messages, r: Tid): Chan {
    if r in ms.ch then ms.ch[r] else EMPTY_CHAN
  }

  function PidOf(s: State, t: Tid): nat {
    Get(s.pid, t)
  }

  // ---- The operations ----

  function Handed(ms: Messages, r: Tid, m: Msg): Messages {
    var c := ChanOf(ms, r);
    Messages(ms.ch[r := c.(dlv := c.dlv + [m], acc := c.acc + [m])], ms.uid + 1)
  }

  function Queued(ms: Messages, r: Tid, m: Msg): Messages {
    var c := ChanOf(ms, r);
    Messages(ms.ch[r := c.(queue := c.queue + [m], acc := c.acc + [m])], ms.uid + 1)
  }

  function Accepted(ms: Messages, r: Tid, m: Msg): Messages {
    var c := ChanOf(ms, r);
    Messages(ms.ch[r := c.(acc := c.acc + [m])], ms.uid + 1)
  }

  /** `queue_msg` and the blocking send set this flag of the receiver. */
  function Notified(fl: map<Tid, bv16>, r: Tid): map<Tid, bv16> {
    fl[r := With(FlagsOf(fl, r), MSG_WAITING)]
  }

  function NotifyWake(k: Sched, fl: map<Tid, bv16>, wait: map<Tid, Wait>, r: Tid): Sched {
    FlagWake(k, r, With(FlagsOf(fl, r), MSG_WAITING), WaitOf(wait, r))
  }

  /** The receiver is RECEIVE_BLOCKED: the message goes straight into its buffer. */
  function SendDirect(s: State, r: Tid, m: Msg): State {
    s.(k := Owes(SetStatus(s.k, r, Pending), YieldHigher),
       wait := s.wait[r := Buffer(m)],
       ms := Handed(s.ms, r, m),
       ret := Int(1))
  }

  function SendQueue(s: State, r: Tid, m: Msg, o: Owe): State {
    s.(k := Owes(NotifyWake(s.k, s.fl, s.wait, r), o),
       fl := Notified(s.fl, r),
       ms := Queued(s.ms, r, m),
       ret := Int(1))
  }

  /** A sender that was already REPLY_BLOCKED stays so. */
  function SenderStatus(k: Sched, a: Tid): Status {
    if St(k, a).ReplyBlocked? then ReplyBlocked else SendBlocked
  }

  function SendBlock(s: State, a: Tid, r: Tid, m: Msg): State {
    var wait := s.wait[a := Buffer(m)];
    s.(k := Owes(NotifyWake(Block(s.k, a, SenderStatus(s.k, a), Some(SendQ(r))), s.fl, wait, r), YieldHigher),
       wait := wait,
       fl := Notified(s.fl, r),
       ms := Accepted(s.ms, r, m),
       ret := Int(1))
  }

  predicate Room(ms: Messages, r: Tid) {
    |ChanOf(ms, r).queue| < ChanOf(ms, r).cap
  }

  /** `_msg_send`, once the target was found. */
  function SendCore(s: State, a: Tid, r: Tid, m: Msg, block: bool): State {
    if St(s.k, r).ReceiveBlocked? then SendDirect(s, r, m)
    else if Room(s.ms, r) then SendQueue(s, r, m, IfRequested)
    else if !block then s.(ret := Int(0))
    else SendBlock(s, a, r, m)
  }

  function NewMsg(s: State, a: Tid, r: Tid, body: int): Msg {
    Msg(PidOf(s, a), Thread(a), r, s.ms.uid, body)
  }

  /** `msg_send` and `msg_try_send` in thread context. */
  function Send(s: State, a: Tid, pid: nat, body: int, block: bool): State {
    if PidOf(s, a) == pid then SendSelf(s, a, body)
    else if pid !in s.pids then s.(ret := Int(-1))
    else SendCore(s, a, s.pids[pid], NewMsg(s, a, s.pids[pid], body), block)
  }

  function SendSelf(s: State, a: Tid, body: int): State {
    if Room(s.ms, a) then SendQueue(s, a, NewMsg(s, a, a, body), Nothing) else s.(ret := Int(0))
  }

  const PID_ISR: nat := 33

  /** `msg_send_int` */
  function SendIsr(s: State, pid: nat, body: int): State {
    if pid !in s.pids then s.(ret := Int(-1))
    else
      var r := s.pids[pid];
      var m := Msg(PID_ISR, Isr, r, s.ms.uid, body);
      if St(s.k, r).ReceiveBlocked? then SendDirect(s, r, m)
      else if Room(s.ms, r) then SendQueue(s, r, m, Nothing)
      else s.(ret := Int(0))
  }

  /** The first steps of `msg_send_receive`; the reply buffer doubles as the message to send. */
  function AwaitReply(s: State, a: Tid, m: Msg): State {
    s.(k := SetStatus(s.k, a, ReplyBlocked), wait := s.wait[a := Buffer(m)])
  }

  function SendReceive(s: State, a: Tid, pid: nat, body: int): State {
    var r := if pid in s.pids then s.pids[pid] else 0;
    var m := NewMsg(s, a, r, body);
    var s1 := AwaitReply(s, a, m);
    if pid !in s.pids then s1.(ret := Int(-1)) else SendCore(s1, a, r, m, true)
  }

  /** `msg_reply` and `msg_reply_int` once the target was found. */
  function Reply(s: State, t: Tid, reply: Msg): State {
    if !St(s.k, t).ReplyBlocked? then s.(ret := Int(-1))
    else
      s.(k := Owes(SetStatus(s.k, t, Pending), if s.k.cpu.isr then YieldHigher else Switch(Pr(s.k, t))),
         wait := s.wait[t := Buffer(reply)],
         ret := Int(1))
  }

  // ---- msg_receive ----

  /** The first waiting sender, taken off the list; a REPLY_BLOCKED one is not woken. */
  function ReleaseSender(k: Sched, a: Tid): Sched
    requires L(k.q, SendQ(a)) != []
  {
    var w := L(k.q, SendQ(a))[0];
    k.(q := if St(k, w).ReplyBlocked? then Unlink(k.q, SendQ(a), 0) else WakeAt(k, SendQ(a), 0).q,
       status := if St(k, w).ReplyBlocked? then k.status else WakeAt(k, SendQ(a), 0).status)
  }

  function SenderOwe(k: Sched, w: Tid): Owe {
    if !St(k, w).ReplyBlocked? && Pr(k, w) < PRIO_LEVELS - 1 then Switch(Pr(k, w)) else Nothing
  }

  function SenderWait(s: State, w: Tid): map<Tid, Wait> {
    if St(s.k, w).ReplyBlocked? then s.wait else s.wait[w := Null]
  }

  function SenderMsg(s: State, w: Tid): Msg {
    if WaitOf(s.wait, w).Buffer? then WaitOf(s.wait, w).m else BLANK
  }

  /** The contents of a buffer that nothing was copied to yet. */
  const BLANK := Msg(0, Isr, 0, 0, 0)

  /** A queued message, with nobody waiting to send. */
  function TakeQueued(s: State, a: Tid): State
    requires ChanOf(s.ms, a).queue != []
  {
    var c := ChanOf(s.ms, a);
    s.(ms := s.ms.(ch := s.ms.ch[a := c.(dlv := c.dlv + [c.queue[0]], queue := c.queue[1..])]), ret := Int(1))
  }

  /** A queued message; the waiting sender's message moves into the freed slot. */
  function TakeAndRefill(s: State, a: Tid): State
    requires ChanOf(s.ms, a).queue != [] && L(s.k.q, SendQ(a)) != []
  {
    var c, w := ChanOf(s.ms, a), L(s.k.q, SendQ(a))[0];
    s.(k := Owes(ReleaseSender(s.k, a), SenderOwe(s.k, w)),
       wait := SenderWait(s, w),
       ms := s.ms.(ch := s.ms.ch[a := c.(dlv := c.dlv + [c.queue[0]], queue := c.queue[1..] + [SenderMsg(s, w)])]),
       ret := Int(1))
  }

  /** No queued message: the waiting sender's message is taken directly. */
  function TakeFromSender(s: State, a: Tid): State
    requires L(s.k.q, SendQ(a)) != []
  {
    var c, w := ChanOf(s.ms, a), L(s.k.q, SendQ(a))[0];
    s.(k := Owes(ReleaseSender(s.k, a), SenderOwe(s.k, w)),
       wait := SenderWait(s, w)[a := Buffer(SenderMsg(s, w))],
       ms := s.ms.(ch := s.ms.ch[a := c.(dlv := c.dlv + [SenderMsg(s, w)])]),
       ret := Int(1))
  }

  function AwaitMsg(s: State, a: Tid): State {
    s.(k := Owes(Block(s.k, a, ReceiveBlocked, None), YieldHigher),
       wait := s.wait[a := Buffer(BLANK)],
       ret := Int(1))
  }

  function Receive(s: State, a: Tid, block: bool): State {
    if ChanOf(s.ms, a).queue == [] then
      if L(s.k.q, SendQ(a)) != [] then TakeFromSender(s, a)
      else if block then AwaitMsg(s, a)
      else s.(ret := Int(-1))
    else
      if L(s.k.q, SendQ(a)) == [] then TakeQueued(s, a) else TakeAndRefill(s, a)
  }

  /** `msg_init_queue` */
  function InitQueue(s: State, a: Tid, n: nat): State {
    s.(ms := s.ms.(ch := s.ms.ch[a := ChanOf(s.ms, a).(cap := n, queue := [])]), ret := NoRet)
  }

  // ---- Invariant ----

  ghost predicate Increasing(q: seq<Msg>, uid: nat) {
    && (forall i :: 0 <= i < |q| ==> q[i].uid < uid)
    && (forall i, j :: 0 <= i < j < |q| ==> q[i].uid < q[j].uid)
  }

  /** No queue is over-full, and messages are numbered in the order they were accepted. */
  ghost predicate ChansOk(ch: map<Tid, Chan>, uid: nat) {
    forall r :: r in ch ==> |ch[r].queue| <= ch[r].cap && Increasing(ch[r].acc, uid)
  }

  ghost predicate Ordered(on: map<Tid, ListId>, wait: map<Tid, Wait>, c: Chan, r: Tid) {
    forall p :: InOrder(c, Held(on, wait, r, p), p)
  }

  /** For every receiver and sender: accepted = delivered, then queued, then held by the blocked sender. */
  ghost predicate OrderOk(on: map<Tid, ListId>, wait: map<Tid, Wait>, ch: map<Tid, Chan>) {
    forall r :: r in ch ==> Ordered(on, wait, ch[r], r)
  }

  /** A thread blocked in receive has an empty queue and nobody waiting to send to it. */
  ghost predicate ReceiversOk(q: Links, status: map<Tid, Status>, wait: map<Tid, Wait>, ms: Messages) {
    forall r :: r in status && status[r].ReceiveBlocked? ==>
      ChanOf(ms, r).queue == [] && L(q, SendQ(r)) == [] && WaitOf(wait, r).Buffer?
  }

  /** Senders wait only behind a full queue. */
  ghost predicate FullOk(q: Links, ms: Messages) {
    forall r :: L(q, SendQ(r)) != [] ==> r in ms.ch && |ms.ch[r].queue| == ms.ch[r].cap
  }

  ghost predicate SendersOk(on: map<Tid, ListId>, wait: map<Tid, Wait>) {
    forall t :: t in on && on[t].SendQ? ==>
      t in wait && wait[t].Buffer? && wait[t].m.src == Thread(t) && wait[t].m.dst == on[t].receiver
  }

  /** The buffer of a thread that waits for a reply still holds its request, which was accepted. */
  ghost predicate RequestsOk(status: map<Tid, Status>, wait: map<Tid, Wait>, ms: Messages) {
    forall t :: t in status && status[t].ReplyBlocked? ==>
      && t in wait && wait[t].Buffer? && wait[t].m.src == Thread(t)
      && wait[t].m in ChanOf(ms, wait[t].m.dst).acc
  }

  ghost predicate MsgOk(q: Links, status: map<Tid, Status>, wait: map<Tid, Wait>, ms: Messages) {
    && ChansOk(ms.ch, ms.uid)
    && OrderOk(q.on, wait, ms.ch)
    && ReceiversOk(q, status, wait, ms)
    && FullOk(q, ms)
    && SendersOk(q.on, wait)
    && RequestsOk(status, wait, ms)
  }

  ghost predicate MsgInv(s: State) {
    MsgOk(s.k.q, s.k.status, s.wait, s.ms)
  }

  const MsgKinds: set<Kind> := {RunKind, SendKind}
  const MsgStatuses: set<Status> := {Running, Pending, ReceiveBlocked, SendBlocked, ReplyBlocked, FlagBlockedAny, FlagBlockedAll}

  // ---- Frames ----

  /** Not blocked in a message call. */
  predicate Elsewhere(st: Status, o: Option<ListId>) {
    !st.ReceiveBlocked? && !st.ReplyBlocked? && (o.Some? ==> !o.value.SendQ?)
  }

  ghost predicate SameMsgThreads(q: Links, status: map<Tid, Status>, wait: map<Tid, Wait>,
                                 q': Links, status': map<Tid, Status>, wait': map<Tid, Wait>) {
    forall t ::
      || (StatusOf(status', t) == StatusOf(status, t) && OnOf(q'.on, t) == OnOf(q.on, t) && WaitOf(wait', t) == WaitOf(wait, t))
      || (Elsewhere(StatusOf(status, t), OnOf(q.on, t)) && Elsewhere(StatusOf(status', t), OnOf(q'.on, t)))
  }

  ghost predicate SameSendLists(q: Links, q': Links) {
    forall r :: L(q', SendQ(r)) == L(q, SendQ(r))
  }

  lemma HeldFrame(q: Links, status: map<Tid, Status>, wait: map<Tid, Wait>,
                  q': Links, status': map<Tid, Status>, wait': map<Tid, Wait>, r: Tid, p: Source)
    requires SameMsgThreads(q, status, wait, q', status', wait')
    ensures Held(q'.on, wait', r, p) == Held(q.on, wait, r, p)
  {
    if p.Thread? {
      assert StatusOf(status', p.tid) == StatusOf(status', p.tid);
    }
  }

  lemma MsgFrame(q: Links, status: map<Tid, Status>, wait: map<Tid, Wait>,
                 q': Links, status': map<Tid, Status>, wait': map<Tid, Wait>, ms: Messages)
    requires MsgOk(q, status, wait, ms) && SameSendLists(q, q') && SameMsgThreads(q, status, wait, q', status', wait')
    ensures MsgOk(q', status', wait', ms)
  {
    hide ChansOk, InOrder, Held;
    forall r | r in ms.ch ensures Ordered(q'.on, wait', ms.ch[r], r) {
      forall p ensures InOrder(ms.ch[r], Held(q'.on, wait', r, p), p) {
        assert InOrder(ms.ch[r], Held(q.on, wait, r, p), p);
        HeldFrame(q, status, wait, q', status', wait', r, p);
      }
    }
    forall t | t in status' && (status'[t].ReceiveBlocked? || status'[t].ReplyBlocked?)
      ensures t in status && status[t] == status'[t] && WaitOf(wait', t) == WaitOf(wait, t)
    {
      assert StatusOf(status', t) == status'[t];
    }
    forall t | t in q'.on && q'.on[t].SendQ? ensures OnOf(q'.on, t) == OnOf(q.on, t) && WaitOf(wait', t) == WaitOf(wait, t) {
      assert StatusOf(status', t) == StatusOf(status', t);
    }
  }

  // ---- What one channel update keeps ----

  lemma OrderStep(on: map<Tid, ListId>, wait: map<Tid, Wait>, ch: map<Tid, Chan>,
                  on': map<Tid, ListId>, wait': map<Tid, Wait>, r: Tid, c: Chan)
    requires OrderOk(on, wait, ch) && Ordered(on', wait', c, r)
    requires forall x, p :: x != r ==> Held(on', wait', x, p) == Held(on, wait, x, p)
    ensures OrderOk(on', wait', ch[r := c])
  {
    hide InOrder, Held;
    forall x | x in ch && x != r ensures Ordered(on', wait', ch[x], x) {
      forall p ensures InOrder(ch[x], Held(on', wait', x, p), p) {
        assert Ordered(on, wait, ch[x], x);
        assert Held(on', wait', x, p) == Held(on, wait, x, p);
      }
    }
  }

  lemma AppendIncreasing(ch: map<Tid, Chan>, uid: nat, r: Tid, c: Chan, m: Msg)
    requires ChansOk(ch, uid) && r in ch && m.uid == uid
    requires c.acc == ch[r].acc + [m] && c.cap == ch[r].cap
    requires |c.queue| <= c.cap || |c.queue| <= |ch[r].queue|
    ensures ChansOk(ch[r := c], uid + 1)
  {
    assert Increasing(ch[r].acc, uid);
  }

  /** `MsgOk`, except that the requests of `o` may not have been accepted yet. */
  ghost predicate MsgOkBut(q: Links, status: map<Tid, Status>, wait: map<Tid, Wait>, ms: Messages, o: set<Tid>) {
    && ChansOk(ms.ch, ms.uid)
    && OrderOk(q.on, wait, ms.ch)
    && ReceiversOk(q, status, wait, ms)
    && FullOk(q, ms)
    && SendersOk(q.on, wait)
    && RequestsOk(status - o, wait, ms)
  }

  /** `m` is the next message to `r`, and the one that the threads of `o` are sending. */
  ghost predicate Sending(status: map<Tid, Status>, wait: map<Tid, Wait>, ms: Messages, r: Tid, m: Msg, o: set<Tid>) {
    && r in ms.ch && m.uid == ms.uid && m.dst == r
    && (forall t :: t in o ==> t in status && status[t].ReplyBlocked? && WaitOf(wait, t) == Buffer(m) && m.src == Thread(t))
  }

  lemma RequestsStep(status: map<Tid, Status>, wait: map<Tid, Wait>, ms: Messages, o: set<Tid>, m: Msg,
                     status': map<Tid, Status>, wait': map<Tid, Wait>, ms': Messages)
    requires RequestsOk(status - o, wait, ms)
    requires forall r :: ChanOf(ms, r).acc <= ChanOf(ms', r).acc
    requires forall t :: t in status' && status'[t].ReplyBlocked? ==>
      WaitOf(wait', t) == WaitOf(wait, t) || WaitOf(wait', t) == Buffer(m)
    requires forall t :: t in status' && status'[t].ReplyBlocked? ==>
      (t in status && t !in o && status[t].ReplyBlocked? && WaitOf(wait', t) == WaitOf(wait, t))
      || (WaitOf(wait', t) == Buffer(m) && m.src == Thread(t) && m in ChanOf(ms', m.dst).acc)
    ensures RequestsOk(status', wait', ms')
  {
    forall t | t in status' && status'[t].ReplyBlocked?
      ensures t in wait' && wait'[t].Buffer? && wait'[t].m.src == Thread(t) && wait'[t].m in ChanOf(ms', wait'[t].m.dst).acc
    {
      if t in status && t !in o && status[t].ReplyBlocked? && WaitOf(wait', t) == WaitOf(wait, t) {
        assert t in status - o;
        assert ChanOf(ms, wait[t].m.dst).acc <= ChanOf(ms', wait[t].m.dst).acc;
      }
    }
  }

  lemma NobodyWaits(q: Links, r: Tid)
    requires ListsOk(q.lists, q.on) && L(q, SendQ(r)) == []
    ensures forall t :: OnOf(q.on, t) != Some(SendQ(r))
  {
  }

  /** The requests after `t` got status `st` and buffer `w` in the course of sending `m`. */
  lemma RequestsSent(status: map<Tid, Status>, wait: map<Tid, Wait>, ms: Messages, r: Tid, m: Msg, o: set<Tid>,
                     t: Tid, st: Status, w: Wait, ms': Messages)
    requires RequestsOk(status - o, wait, ms) && Sending(status, wait, ms, r, m, o)
    requires (forall x :: ChanOf(ms, x).acc <= ChanOf(ms', x).acc) && m in ChanOf(ms', r).acc
    requires if st.ReplyBlocked? then w == Buffer(m) && m.src == Thread(t) else t !in o || o <= {t}
    ensures RequestsOk(status[t := st], wait[t := w], ms')
  {
    var status', wait' := status[t := st], wait[t := w];
    RequestsStep(status, wait, ms, o, m, status', wait', ms');
  }

  // ---- Sending ----

  lemma HandedOrder(q: Links, wait: map<Tid, Wait>, ms: Messages, on': map<Tid, ListId>, wait': map<Tid, Wait>, r: Tid, m: Msg)
    requires OrderOk(q.on, wait, ms.ch) && r in ms.ch && ms.ch[r].queue == []
    requires forall t :: OnOf(q.on, t) != Some(SendQ(r))
    requires forall x, p :: Held(on', wait', x, p) == Held(q.on, wait, x, p)
    ensures OrderOk(on', wait', Handed(ms, r, m).ch)
  {
    hide InOrder;
    var c := ms.ch[r].(dlv := ms.ch[r].dlv + [m], acc := ms.ch[r].acc + [m]);
    forall p ensures InOrder(c, Held(on', wait', r, p), p) {
      assert Held(q.on, wait, r, p) == [];
      assert InOrder(ms.ch[r], Held(q.on, wait, r, p), p);
      SentDirect(ms.ch[r], m, p);
    }
    OrderStep(q.on, wait, ms.ch, on', wait', r, c);
  }

  lemma HandedOk(q: Links, status: map<Tid, Status>, wait: map<Tid, Wait>, ms: Messages,
                 q': Links, r: Tid, m: Msg, p: nat, o: set<Tid>)
    requires ListsOk(q.lists, q.on) && MsgOkBut(q, status, wait, ms, o) && Sending(status, wait, ms, r, m, o)
    requires r in status && status[r].ReceiveBlocked? && r !in q.on
    requires q'.on == q.on[r := Run(p)] && SameSendLists(q, q')
    ensures MsgOk(q', status[r := Pending], wait[r := Buffer(m)], Handed(ms, r, m))
  {
    hide ListsOk, ChansOk, OrderOk, RequestsOk;
    var ms' := Handed(ms, r, m);
    NobodyWaits(q, r);
    AppendIncreasing(ms.ch, ms.uid, r, ms'.ch[r], m);
    HandedOrder(q, wait, ms, q'.on, wait[r := Buffer(m)], r, m);
    RequestsSent(status, wait, ms, r, m, o, r, Pending, Buffer(m), ms');
  }

  lemma QueuedOrder(on: map<Tid, ListId>, wait: map<Tid, Wait>, ms: Messages, r: Tid, m: Msg)
    requires OrderOk(on, wait, ms.ch) && r in ms.ch && Held(on, wait, r, m.src) == []
    ensures OrderOk(on, wait, Queued(ms, r, m).ch)
  {
    hide InOrder, Held;
    var c := ms.ch[r].(queue := ms.ch[r].queue + [m], acc := ms.ch[r].acc + [m]);
    forall p ensures InOrder(c, Held(on, wait, r, p), p) {
      assert InOrder(ms.ch[r], Held(on, wait, r, p), p);
      SentToQueue(ms.ch[r], m, Held(on, wait, r, p), p);
    }
    OrderStep(on, wait, ms.ch, on, wait, r, c);
  }

  lemma QueuedOk(q: Links, status: map<Tid, Status>, wait: map<Tid, Wait>, ms: Messages, r: Tid, m: Msg, o: set<Tid>)
    requires ListsOk(q.lists, q.on) && MsgOkBut(q, status, wait, ms, o) && Sending(status, wait, ms, r, m, o)
    requires !StatusOf(status, r).ReceiveBlocked? && Room(ms, r)
    ensures MsgOk(q, status, wait, Queued(ms, r, m))
  {
    hide InOrder, ListsOk, Increasing, Ordered, OrderOk;
    var ms' := Queued(ms, r, m);
    assert L(q, SendQ(r)) == [];
    NobodyWaits(q, r);
    AppendIncreasing(ms.ch, ms.uid, r, ms'.ch[r], m);
    QueuedOrder(q.on, wait, ms, r, m);
    RequestsStep(status, wait, ms, o, m, status, wait, ms');
  }

  lemma AcceptedOrder(on: map<Tid, ListId>, wait: map<Tid, Wait>, ms: Messages, a: Tid, r: Tid, m: Msg)
    requires OrderOk(on, wait, ms.ch) && r in ms.ch && m.src == Thread(a)
    requires a in on ==> !on[a].SendQ?
    ensures OrderOk(on[a := SendQ(r)], wait[a := Buffer(m)], Accepted(ms, r, m).ch)
  {
    hide InOrder;
    var c := ms.ch[r].(acc := ms.ch[r].acc + [m]);
    var on', wait' := on[a := SendQ(r)], wait[a := Buffer(m)];
    forall p ensures InOrder(c, Held(on', wait', r, p), p) {
      assert InOrder(ms.ch[r], Held(on, wait, r, p), p);
      SentBlocked(ms.ch[r], m, Held(on, wait, r, p), Held(on', wait', r, p), p);
    }
    OrderStep(on, wait, ms.ch, on', wait', r, c);
  }

  lemma ExactlyFull(ms: Messages, r: Tid)
    requires ChansOk(ms.ch, ms.uid) && r in ms.ch && !Room(ms, r)
    ensures |ms.ch[r].queue| == ms.ch[r].cap
  {
    hide Increasing;
  }

  lemma AcceptedOk(q: Links, status: map<Tid, Status>, wait: map<Tid, Wait>, ms: Messages,
                   q': Links, a: Tid, st: Status, r: Tid, m: Msg, o: set<Tid>)
    requires MsgOkBut(q, status, wait, ms, o) && Sending(status, wait, ms, r, m, o) && o <= {a}
    requires !StatusOf(status, r).ReceiveBlocked? && !Room(ms, r) && r != a
    requires m.src == Thread(a) && (a in q.on ==> !q.on[a].SendQ?)
    requires st.SendBlocked? || st.ReplyBlocked?
    requires q'.on == q.on[a := SendQ(r)] && (forall x :: x != r ==> L(q', SendQ(x)) == L(q, SendQ(x)))
    ensures MsgOk(q', status[a := st], wait[a := Buffer(m)], Accepted(ms, r, m))
  {
    hide ChansOk, OrderOk, RequestsOk;
    var ms' := Accepted(ms, r, m);
    AppendIncreasing(ms.ch, ms.uid, r, ms'.ch[r], m);
    AcceptedOrder(q.on, wait, ms, a, r, m);
    ExactlyFull(ms, r);
    RequestsSent(status, wait, ms, r, m, o, a, st, Buffer(m), ms');
  }

  // ---- Receiving ----

  lemma TakeOrder(on: map<Tid, ListId>, wait: map<Tid, Wait>, ms: Messages, r: Tid)
    requires OrderOk(on, wait, ms.ch) && r in ms.ch && ms.ch[r].queue != []
    ensures var c := ms.ch[r];
      OrderOk(on, wait, ms.ch[r := c.(dlv := c.dlv + [c.queue[0]], queue := c.queue[1..])])
  {
    hide InOrder, Held;
    var c := ms.ch[r];
    var c' := c.(dlv := c.dlv + [c.queue[0]], queue := c.queue[1..]);
    forall p ensures InOrder(c', Held(on, wait, r, p), p) {
      assert InOrder(c, Held(on, wait, r, p), p);
      TakenFromQueue(c, Held(on, wait, r, p), p);
    }
    OrderStep(on, wait, ms.ch, on, wait, r, c');
  }

  /** `w` no longer holds its message to `r`, and nothing else changed for the senders. */
  ghost predicate LetGo(on: map<Tid, ListId>, wait: map<Tid, Wait>, on': map<Tid, ListId>, wait': map<Tid, Wait>, w: Tid) {
    && (w in on' ==> !on'[w].SendQ?)
    && (forall t :: t != w ==> OnOf(on', t) == OnOf(on, t))
    && (forall t :: t != w && t in on && on[t].SendQ? ==> WaitOf(wait', t) == WaitOf(wait, t))
  }

  lemma RefillOrder(on: map<Tid, ListId>, wait: map<Tid, Wait>, ch: map<Tid, Chan>,
                    on': map<Tid, ListId>, wait': map<Tid, Wait>, r: Tid, w: Tid, direct: bool)
    requires OrderOk(on, wait, ch) && SendersOk(on, wait) && r in ch && w in on && on[w] == SendQ(r)
    requires LetGo(on, wait, on', wait', w) && (direct ==> ch[r].queue == [])
    ensures var c, b := ch[r], wait[w].m;
      OrderOk(on', wait', ch[r := if direct then c.(dlv := c.dlv + [b]) else c.(queue := c.queue + [b])])
  {
    hide InOrder;
    var c, b := ch[r], wait[w].m;
    var c' := if direct then c.(dlv := c.dlv + [b]) else c.(queue := c.queue + [b]);
    forall p ensures InOrder(c', Held(on', wait', r, p), p) {
      assert InOrder(c, Held(on, wait, r, p), p);
      if direct {
        WaiterDirect(c, b, Held(on, wait, r, p), Held(on', wait', r, p), p);
      } else {
        WaiterToQueue(c, b, Held(on, wait, r, p), Held(on', wait', r, p), p);
      }
    }
    OrderStep(on, wait, ch, on', wait', r, c');
  }

  lemma TakeQueuedOk(s: State, a: Tid)
    requires MsgInv(s) && OnRunqueue(St(s.k, a)) && a in s.ms.ch
    requires L(s.k.q, SendQ(a)) == [] && s.ms.ch[a].queue != []
    ensures MsgInv(TakeQueued(s, a))
  {
    hide Increasing, OrderOk;
    TakeOrder(s.k.q.on, s.wait, s.ms, a);
  }

  /** Only what `a` has delivered and queued differs, and the queue has the same length. */
  predicate SameButTaken(ch: map<Tid, Chan>, ch': map<Tid, Chan>, a: Tid) {
    && a in ch && a in ch' && ch' == ch[a := ch'[a]]
    && ch'[a].acc == ch[a].acc && ch'[a].cap == ch[a].cap && |ch'[a].queue| == |ch[a].queue|
  }

  lemma TookOk(q: Links, status: map<Tid, Status>, wait: map<Tid, Wait>, ms: Messages,
               q': Links, status': map<Tid, Status>, wait': map<Tid, Wait>, a: Tid, w: Tid, ch: map<Tid, Chan>)
    requires MsgOk(q, status, wait, ms) && SameButTaken(ms.ch, ch, a) && OrderOk(q'.on, wait', ch)
    requires w in q.on && q.on[w] == SendQ(a) && LetGo(q.on, wait, q'.on, wait', w)
    requires forall x :: x != a ==> L(q', SendQ(x)) == L(q, SendQ(x))
    requires a in status && OnRunqueue(status[a]) && w in status
    requires (status' == status && status[w].ReplyBlocked?) || (status' == status[w := Pending] && !status[w].ReplyBlocked?)
    requires forall t :: t != a && (t != w || status[w].ReplyBlocked?) ==> WaitOf(wait', t) == WaitOf(wait, t)
    requires L(q, SendQ(a)) != []
    ensures MsgOk(q', status', wait', Messages(ch, ms.uid))
  {
    hide ChansOk, OrderOk, LetGo, SendersOk, RequestsOk;
    TookChans(ms, ch, a);
    TookThreads(q.on, status, wait, ms, q'.on, status', wait', a, w, ch);
    forall t | t in status' && status'[t].ReceiveBlocked?
      ensures status[t] == status'[t] && WaitOf(wait', t) == WaitOf(wait, t)
    {
    }
  }

  lemma TookChans(ms: Messages, ch: map<Tid, Chan>, a: Tid)
    requires ChansOk(ms.ch, ms.uid) && SameButTaken(ms.ch, ch, a)
    ensures ChansOk(ch, ms.uid)
  {
  }

  lemma TookThreads(on: map<Tid, ListId>, status: map<Tid, Status>, wait: map<Tid, Wait>, ms: Messages,
                    on': map<Tid, ListId>, status': map<Tid, Status>, wait': map<Tid, Wait>,
                    a: Tid, w: Tid, ch: map<Tid, Chan>)
    requires SendersOk(on, wait) && RequestsOk(status, wait, ms) && SameButTaken(ms.ch, ch, a)
    requires LetGo(on, wait, on', wait', w)
    requires a in status && OnRunqueue(status[a]) && w in status
    requires (status' == status && status[w].ReplyBlocked?) || (status' == status[w := Pending] && !status[w].ReplyBlocked?)
    requires forall t :: t != a && (t != w || status[w].ReplyBlocked?) ==> WaitOf(wait', t) == WaitOf(wait, t)
    ensures SendersOk(on', wait') && RequestsOk(status', wait', Messages(ch, ms.uid))
  {
    forall t | t in on' && on'[t].SendQ? ensures t in on && on[t] == on'[t] && WaitOf(wait', t) == WaitOf(wait, t) {
      assert OnOf(on', t) == OnOf(on, t);
    }
    forall t | t in status' && status'[t].ReplyBlocked?
      ensures status[t] == status'[t] && WaitOf(wait', t) == WaitOf(wait, t)
    {
    }
  }

  // ---- Frame for the other parts of the kernel ----

  predicate MsgBlocked(st: Status) {
    st.ReceiveBlocked? || st.SendBlocked? || st.ReplyBlocked?
  }

  lemma MsgKept(k: Sched, k': Sched, wait: map<Tid, Wait>, wait': map<Tid, Wait>, ms: Messages, kinds: set<Kind>, sts: set<Status>)
    requires Inv(k) && Inv(k') && MsgOk(k.q, k.status, wait, ms)
    requires Framed(k, k', kinds, sts) && SendKind !in kinds && (forall st :: st in sts ==> !MsgBlocked(st))
    requires forall t :: MsgBlocked(St(k, t)) ==> WaitOf(wait', t) == WaitOf(wait, t)
    ensures MsgOk(k'.q, k'.status, wait', ms)
  {
    hide MsgOk, LinksOk, MatchOk;
    forall t ensures
      || (StatusOf(k'.status, t) == StatusOf(k.status, t) && OnOf(k'.q.on, t) == OnOf(k.q.on, t) && WaitOf(wait', t) == WaitOf(wait, t))
      || (Elsewhere(StatusOf(k.status, t), OnOf(k.q.on, t)) && Elsewhere(StatusOf(k'.status, t), OnOf(k'.q.on, t)))
    {
      OnSendQ(k, t);
      OnSendQ(k', t);
      assert St(k', t) == StatusOf(k'.status, t) && St(k, t) == StatusOf(k.status, t);
    }
    MsgFrame(k.q, k.status, wait, k'.q, k'.status, wait', ms);
  }

  lemma OnSendQ(k: Sched, t: Tid)
    requires MatchOk(k.q.on, k.status, k.prio)
    ensures t in k.q.on && k.q.on[t].SendQ? ==> St(k, t).SendBlocked? || St(k, t).ReplyBlocked?
    ensures St(k, t).ReceiveBlocked? ==> t !in k.q.on
  {
    if t in k.q.on {
      assert Matches(k.status[t], OnOf(k.q.on, t), Get(k.prio, t));
    }
  }
}
