/** Mailboxes. */
module MboxSpec {
  import opened Wrappers
  import opened Queues
  import opened Sched
  import opened Reschedule
  import opened KernelState

  function BoxOf(mb: map<nat, Mbox>, b: nat): Mbox {
    if b in mb then mb[b] else Mbox(0, [], [], [], false)
  }

  predicate Full(mb: map<nat, Mbox>, b: nat) {
    |BoxOf(mb, b).queue| >= BoxOf(mb, b).cap
  }

  // ---- The operations ----

  /** The message with the number of its put into the mailbox. */
  function Numbered(box: Mbox, m: Msg): Msg {
    m.(uid := |box.acc|)
  }

  /** The first blocked reader gets the message directly. */
  function PutDirect(s: State, b: nat, m: Msg): State
    requires L(s.k.q, Readers(b)) != []
  {
    var box, t := BoxOf(s.mb, b), L(s.k.q, Readers(b))[0];
    s.(k := Owes(WakeAt(s.k, Readers(b), 0), Switch(Pr(s.k, t))),
       wait := s.wait[t := Buffer(Numbered(box, m))],
       mb := s.mb[b := box.(acc := box.acc + [Numbered(box, m)], dlv := box.dlv + [Numbered(box, m)])],
       ret := Int(1))
  }

  function Enqueued(mb: map<nat, Mbox>, b: nat, m: Msg, passed: bool): map<nat, Mbox> {
    var box := BoxOf(mb, b);
    mb[b := box.(acc := box.acc + [Numbered(box, m)],
                 queue := box.queue + [Numbered(box, m)],
                 passed := box.passed || passed)]
  }

  /** `_wait` on the writers; `_mbox_put` looks at the queue again afterwards, not at the readers. */
  function PutWait(s: State, a: Tid, b: nat, m: Msg): State {
    s.(k := Owes(Block(s.k, a, MboxBlocked, Some(Writers(b))), YieldRotate),
       cont := s.cont[a := PutRetry(b, m)])
  }

  /** The sender is set only on the way into the queue. */
  function Stamped(s: State, m: Msg): Msg {
    m.(pid := if s.k.cpu.active.Some? then Get(s.pid, s.k.cpu.active.value) else 0)
  }

  function Put(s: State, b: nat, m: Msg, block: bool): State {
    if L(s.k.q, Readers(b)) != [] then PutDirect(s, b, m)
    else if !Full(s.mb, b) then s.(mb := Enqueued(s.mb, b, Stamped(s, m), false), ret := Int(1))
    else if block && s.k.cpu.active.Some? then PutWait(s, s.k.cpu.active.value, b, m)
    else s.(ret := Int(0))
  }

  /** The loop of `_mbox_put` after `_wait`. */
  function PutReturn(s: State, a: Tid): State {
    match Co(s, a)
    case PutRetry(b, m) =>
      if Full(s.mb, b) then PutWait(s, a, b, m)
      else s.(mb := Enqueued(s.mb, b, Stamped(s, m), L(s.k.q, Readers(b)) != []), cont := s.cont[a := User], ret := Int(1))
    case _ => s
  }

  function Dequeued(mb: map<nat, Mbox>, b: nat): map<nat, Mbox>
    requires BoxOf(mb, b).queue != []
  {
    var box := BoxOf(mb, b);
    mb[b := box.(dlv := box.dlv + [box.queue[0]], queue := box.queue[1..])]
  }

  /** Taking a message wakes the first blocked writer. */
  function WriterWake(k: Sched, b: nat): Sched {
    var q := L(k.q, Writers(b));
    if q == [] then Owes(k, Nothing) else Owes(WakeAt(k, Writers(b), 0), Switch(Pr(k, q[0])))
  }

  function GetWait(s: State, a: Tid, b: nat): State {
    s.(k := Owes(Block(s.k, a, MboxBlocked, Some(Readers(b))), YieldRotate),
       wait := s.wait[a := Buffer(Msg(0, Isr, 0, 0, 0))],
       ret := Int(1))
  }

  function Fetch(s: State, b: nat, block: bool): State {
    if BoxOf(s.mb, b).queue != [] then s.(k := WriterWake(s.k, b), mb := Dequeued(s.mb, b), ret := Int(1))
    else if block && s.k.cpu.active.Some? then GetWait(s, s.k.cpu.active.value, b)
    else s.(ret := Int(0))
  }

  // ---- Invariant ----

  /**
    No message is lost or duplicated. Unless a woken writer passed a blocked reader, messages
    leave in the order they came, and no reader is blocked while there is a message.
  */
  predicate BoxOk(box: Mbox, readers: seq<Tid>) {
    && |box.queue| <= box.cap
    && multiset(box.acc) == multiset(box.dlv) + multiset(box.queue)
    && (!box.passed ==> box.acc == box.dlv + box.queue && (readers != [] ==> box.queue == []))
  }

  ghost predicate BoxesOk(q: Links, mb: map<nat, Mbox>) {
    forall b :: b in mb ==> BoxOk(mb[b], L(q, Readers(b)))
  }

  ghost predicate WaitersOk(on: map<Tid, ListId>, wait: map<Tid, Wait>, cont: map<Tid, Cont>) {
    && (forall t :: t in on && on[t].Readers? ==> WaitOf(wait, t).Buffer?)
    && (forall t :: t in on && on[t].Writers? ==> t in cont && cont[t].PutRetry? && cont[t].mbox == on[t].mbox)
  }

  ghost predicate RetriesOk(mb: map<nat, Mbox>, cont: map<Tid, Cont>) {
    forall t :: t in cont && cont[t].PutRetry? ==> cont[t].mbox in mb
  }

  ghost predicate MboxInv(s: State) {
    BoxesOk(s.k.q, s.mb) && WaitersOk(s.k.q.on, s.wait, s.cont) && RetriesOk(s.mb, s.cont)
  }

  const MboxKinds: set<Kind> := {RunKind, MboxKind}
  const MboxStatuses: set<Status> := {Running, Pending, MboxBlocked}

  ghost predicate MboxKept(s: State, s': State) {
    SchedOk(s'.k) && MboxInv(s') && Only(s.k, s'.k, MboxKinds, MboxStatuses)
  }

  // ---- Every operation keeps it ----

  lemma MboxWaiter(k: Sched, id: ListId)
    requires Inv(k) && KindOf(id) == MboxKind && L(k.q, id) != []
    ensures var t := L(k.q, id)[0]; t in k.q.on && k.q.on[t] == id && St(k, t).MboxBlocked?
  {
    hide LinksOk;
    DropOk(k, id, 0);
  }

  lemma WakeWaiterOk(k: Sched, id: ListId)
    requires SchedOk(k) && InContext(k) && KindOf(id) == MboxKind && L(k.q, id) != []
    ensures var t := L(k.q, id)[0]; var k' := Owes(WakeAt(k, id, 0), Switch(Pr(k, t)));
      && SchedOk(k') && Only(k, k', MboxKinds, MboxStatuses)
      && t in k.q.on && k.q.on[t] == id && k'.q.on == k.q.on[t := Run(Pr(k, t))]
      && L(k'.q, id) == L(k.q, id)[1..]
      && (forall d: ListId :: KindOf(d) == MboxKind && d != id ==> L(k'.q, d) == L(k.q, d))
  {
    hide LinksOk, MatchOk, WakeAt, Act, Only, Owes;
    MboxWaiter(k, id);
    WakeStep(k, id, 0, MboxKinds, MboxStatuses);
    WakeAtOk(k, id, 0);
    assert RemoveAt(L(k.q, id), 0) == L(k.q, id)[1..];
  }

  lemma PutDirectOk(s: State, b: nat, m: Msg)
    requires SchedOk(s.k) && MboxInv(s) && InContext(s.k) && L(s.k.q, Readers(b)) != [] && b in s.mb
    ensures MboxKept(s, PutDirect(s, b, m))
  {
    hide SchedOk, WakeAt, Only, Owes, BoxOk;
    WakeWaiterOk(s.k, Readers(b));
    DirectBox(s.mb[b], L(s.k.q, Readers(b)), Numbered(s.mb[b], m));
  }

  lemma DirectBox(box: Mbox, readers: seq<Tid>, m: Msg)
    requires BoxOk(box, readers) && readers != []
    ensures BoxOk(box.(acc := box.acc + [m], dlv := box.dlv + [m]), readers[1..])
  {
    assert !box.passed ==> box.dlv + [m] + box.queue == box.acc + [m];
  }

  lemma EnqueuedBox(box: Mbox, readers: seq<Tid>, m: Msg)
    requires BoxOk(box, readers) && |box.queue| < box.cap
    ensures BoxOk(box.(acc := box.acc + [m], queue := box.queue + [m], passed := box.passed || readers != []), readers)
  {
    assert !box.passed ==> box.dlv + (box.queue + [m]) == box.acc + [m];
  }

  lemma DequeuedBox(box: Mbox, readers: seq<Tid>)
    requires BoxOk(box, readers) && box.queue != []
    ensures BoxOk(box.(dlv := box.dlv + [box.queue[0]], queue := box.queue[1..]), readers)
  {
    assert box.queue == [box.queue[0]] + box.queue[1..];
    assert box.dlv + [box.queue[0]] + box.queue[1..] == box.dlv + box.queue;
    assert multiset(box.queue) == multiset{box.queue[0]} + multiset(box.queue[1..]);
  }

  lemma EnqueuedOk(s: State, b: nat, m: Msg, passed: bool)
    requires BoxesOk(s.k.q, s.mb) && b in s.mb && !Full(s.mb, b) && passed == (L(s.k.q, Readers(b)) != [])
    ensures BoxesOk(s.k.q, Enqueued(s.mb, b, m, passed))
    ensures RetriesOk(s.mb, s.cont) ==> RetriesOk(Enqueued(s.mb, b, m, passed), s.cont)
  {
    hide BoxOk;
    EnqueuedBox(s.mb[b], L(s.k.q, Readers(b)), Numbered(s.mb[b], m));
  }

  lemma BoxWaitOk(k: Sched, a: Tid, id: ListId)
    requires SchedOk(k) && Ready(k) && k.cpu.active == Some(a) && KindOf(id) == MboxKind
    ensures var k' := Owes(Block(k, a, MboxBlocked, Some(id)), YieldRotate);
      && SchedOk(k') && Only(k, k', MboxKinds, MboxStatuses) && k'.q.on == k.q.on[a := id]
      && (forall d: ListId :: KindOf(d) == MboxKind && d != id ==> L(k'.q, d) == L(k.q, d))
  {
    hide Inv, Act, Block, CanBlock, IsHead, Only, InsertPos, InsertAt, Owes;
    CallerCanBlock(k, a);
    BlockStep(k, a, MboxBlocked, Some(id), YieldRotate, MboxKinds, MboxStatuses);
  }

  lemma PutWaitOk(s: State, a: Tid, b: nat, m: Msg)
    requires SchedOk(s.k) && MboxInv(s) && Calling(s, a) && b in s.mb
    ensures MboxKept(s, PutWait(s, a, b, m))
  {
    hide SchedOk, Block, Only, Owes, BoxOk;
    BoxWaitOk(s.k, a, Writers(b));
  }

  /** A reader blocks only on an empty mailbox. */
  lemma GetWaitOk(s: State, a: Tid, b: nat)
    requires SchedOk(s.k) && MboxInv(s) && Calling(s, a) && BoxOf(s.mb, b).queue == []
    ensures MboxKept(s, GetWait(s, a, b))
  {
    hide SchedOk, Block, Only, Owes;
    BoxWaitOk(s.k, a, Readers(b));
  }

  lemma SameMbox(k: Sched)
    ensures Only(k, k, MboxKinds, MboxStatuses)
  {
  }

  lemma PutOk(s: State, b: nat, m: Msg, block: bool)
    requires SchedOk(s.k) && MboxInv(s) && InContext(s.k) && b in s.mb && (block ==> Ready(s.k))
    ensures MboxKept(s, Put(s, b, m, block))
  {
    hide Inv, Act, Only, PutDirect, PutWait, BoxesOk, WaitersOk, Enqueued;
    SameMbox(s.k);
    if L(s.k.q, Readers(b)) != [] {
      PutDirectOk(s, b, m);
    } else if !Full(s.mb, b) {
      EnqueuedOk(s, b, Stamped(s, m), false);
    } else if block {
      PutWaitOk(s, s.k.cpu.active.value, b, m);
    }
  }

  lemma PutReturnOk(s: State, a: Tid)
    requires SchedOk(s.k) && MboxInv(s) && Calling(s, a) && Co(s, a).PutRetry?
    ensures MboxKept(s, PutReturn(s, a))
  {
    hide LinksOk, MatchOk, Act, Only, PutWait, BoxesOk, IsHead, CanBlock;
    SameMbox(s.k);
    var b, m := Co(s, a).mbox, Co(s, a).m;
    if Full(s.mb, b) {
      PutWaitOk(s, a, b, m);
    } else {
      EnqueuedOk(s, b, Stamped(s, m), L(s.k.q, Readers(b)) != []);
      CallerCanBlock(s.k, a);
      StatusMatches(s.k, a);
    }
  }

  lemma WriterWakeOk(k: Sched, b: nat)
    requires SchedOk(k) && InContext(k)
    ensures var k' := WriterWake(k, b);
      && SchedOk(k') && Only(k, k', MboxKinds, MboxStatuses)
      && (forall d :: L(k'.q, Readers(d)) == L(k.q, Readers(d)))
      && (k'.q.on == k.q.on || exists t, p :: t in k.q.on && k.q.on[t] == Writers(b) && k'.q.on == k.q.on[t := Run(p)])
  {
    hide LinksOk, MatchOk, Act, Only, WakeAt;
    if L(k.q, Writers(b)) == [] {
      OwesNothing(k, MboxKinds, MboxStatuses);
    } else {
      WakeWaiterOk(k, Writers(b));
    }
  }

  lemma FetchOk(s: State, b: nat, block: bool)
    requires SchedOk(s.k) && MboxInv(s) && InContext(s.k) && b in s.mb && (block ==> Ready(s.k))
    ensures MboxKept(s, Fetch(s, b, block))
  {
    hide Inv, Act, Only, GetWait, WriterWake, BoxOk;
    SameMbox(s.k);
    if BoxOf(s.mb, b).queue != [] {
      WriterWakeOk(s.k, b);
      DequeuedBox(s.mb[b], L(s.k.q, Readers(b)));
    } else if block {
      GetWaitOk(s, s.k.cpu.active.value, b);
    }
  }
}
