/**
  All lists of the kernel in one memory. A thread has a single `next` pointer (`rq_entry`),
  whichever list it is on. Run queues are circular and their root points to the last node;
  wait lists are linear and their root points to the first. Each routine writes a few
  pointers, and that does to every list what `Sched` does to its sequence of threads: to one
  list its operation, and to all others nothing.
*/
module ListMemory {
  import opened Wrappers
  import opened Queues
  import opened Sched
  import opened Reschedule

  /** What a pointer can point to; a root is also the place of a pointer. */
  datatype Ref = Nil | Root(id: ListId) | Node(t: Tid)

  type Memory = map<Ref, Ref>

  function At(next: Memory, r: Ref): Ref {
    if r in next then next[r] else Nil
  }

  /** The pointer of the `i`-th of the threads `q`, or of the root if `i` is -1, on a wait list. */
  function LinearNext(q: seq<Tid>, i: int): Ref
    requires -1 <= i < |q|
  {
    if i + 1 < |q| then Node(q[i + 1]) else Nil
  }

  function CircularNext(q: seq<Tid>, i: int): Ref
    requires -1 <= i < |q|
  {
    if q == [] then Nil else if i == -1 then Node(q[|q| - 1]) else if i + 1 < |q| then Node(q[i + 1]) else Node(q[0])
  }

  function NextOf(id: ListId, q: seq<Tid>, i: int): Ref
    requires -1 <= i < |q|
  {
    if id.Run? then CircularNext(q, i) else LinearNext(q, i)
  }

  /** The pointers from the root of `id` on lead through exactly `q`. */
  ghost predicate Chain(next: Memory, id: ListId, q: seq<Tid>) {
    At(next, Root(id)) == NextOf(id, q, -1) && forall i :: 0 <= i < |q| ==> At(next, Node(q[i])) == NextOf(id, q, i)
  }

  function Listed(lists: map<ListId, seq<Tid>>, id: ListId): seq<Tid> {
    if id in lists then lists[id] else []
  }

  ghost predicate Holds(next: Memory, lists: map<ListId, seq<Tid>>) {
    forall id: ListId :: Chain(next, id, Listed(lists, id))
  }

  // ---- Writes to one list leave the others alone ----

  /** The places that belong to list `id`, or are not on any list. */
  ghost predicate Local(n: Links, id: ListId, r: Ref) {
    match r
    case Nil => false
    case Root(d) => d == id
    case Node(t) => OnOf(n.on, t) == None || OnOf(n.on, t) == Some(id)
  }

  ghost predicate OnlyLocal(next: Memory, next': Memory, n: Links, id: ListId) {
    forall r :: At(next', r) == At(next, r) || Local(n, id, r)
  }

  lemma OtherChain(next: Memory, next': Memory, n: Links, id: ListId, d: ListId)
    requires ListsOk(n.lists, n.on) && Chain(next, d, L(n, d)) && OnlyLocal(next, next', n, id) && d != id
    ensures Chain(next', d, L(n, d))
  {
    var q := L(n, d);
    assert At(next', Root(d)) == At(next, Root(d));
    forall i | 0 <= i < |q| ensures At(next', Node(q[i])) == At(next, Node(q[i])) {
      assert q[i] in q;
      assert !Local(n, id, Node(q[i]));
    }
  }

  lemma OneListChanged(next: Memory, next': Memory, n: Links, n': Links, id: ListId)
    requires ListsOk(n.lists, n.on) && Holds(next, n.lists) && OnlyLocal(next, next', n, id)
    requires forall d: ListId :: d != id ==> L(n', d) == L(n, d)
    requires Chain(next', id, L(n', id))
    ensures Holds(next', n'.lists)
  {
    hide Chain, OnlyLocal, ListsOk;
    forall d: ListId ensures Chain(next', d, Listed(n'.lists, d)) {
      if d != id {
        HoldsAt(next, n, d);
        OtherChain(next, next', n, id, d);
      }
    }
  }

  lemma NoDupOf(n: Links, id: ListId)
    requires ListsOk(n.lists, n.on)
    ensures NoDup(L(n, id)) && forall t :: t in L(n, id) ==> OnOf(n.on, t) == Some(id)
  {
  }

  // ---- Wait lists ----

  /** The place whose pointer leads to the `i`-th thread. */
  function Place(id: ListId, q: seq<Tid>, i: nat): Ref
    requires i <= |q|
  {
    if i == 0 then Root(id) else Node(q[i - 1])
  }

  lemma Inserted(next: Memory, id: ListId, q: seq<Tid>, i: nat, t: Tid)
    requires !id.Run? && Chain(next, id, q) && NoDup(q) && t !in q && i <= |q|
    ensures var next' := next[Node(t) := At(next, Place(id, q, i))][Place(id, q, i) := Node(t)];
      Chain(next', id, InsertAt(q, i, t))
  {
    var next' := next[Node(t) := At(next, Place(id, q, i))][Place(id, q, i) := Node(t)];
    var r := InsertAt(q, i, t);
    InsertedAt(q, i, t);
    hide InsertAt, NoDup;
    forall j | 0 <= j < |r| ensures At(next', Node(r[j])) == NextOf(id, r, j) {
      InsertedNext(next, id, q, i, t, r, j);
    }
  }

  lemma InsertedNext(next: Memory, id: ListId, q: seq<Tid>, i: nat, t: Tid, r: seq<Tid>, j: nat)
    requires !id.Run? && Chain(next, id, q) && t !in q && i <= |q| && j <= |q| && |r| == |q| + 1
    requires forall k :: 0 <= k < |r| ==> r[k] == if k < i then q[k] else if k == i then t else q[k - 1]
    requires i > 0 ==> forall k :: 0 <= k < |q| && k != i - 1 ==> q[k] != q[i - 1]
    ensures At(next[Node(t) := At(next, Place(id, q, i))][Place(id, q, i) := Node(t)], Node(r[j])) == NextOf(id, r, j)
  {
    if j < i {
      assert q[j] in q && At(next, Node(q[j])) == NextOf(id, q, j);
    } else if j > i {
      assert q[j - 1] in q && At(next, Node(q[j - 1])) == NextOf(id, q, j - 1);
    } else if i > 0 {
      assert At(next, Node(q[i - 1])) == NextOf(id, q, i - 1);
    }
  }

  /** Which elements are where after an insertion, and that they are different from those next to it. */
  lemma InsertedAt(q: seq<Tid>, i: nat, t: Tid)
    requires NoDup(q) && t !in q && i <= |q|
    ensures var r := InsertAt(q, i, t); forall j :: 0 <= j < |r| ==> r[j] == if j < i then q[j] else if j == i then t else q[j - 1]
    ensures i > 0 ==> forall j :: 0 <= j < |q| && j != i - 1 ==> q[j] != q[i - 1]
  {
  }

  lemma Removed(next: Memory, id: ListId, q: seq<Tid>, i: nat)
    requires !id.Run? && Chain(next, id, q) && NoDup(q) && i < |q|
    ensures var next' := next[Place(id, q, i) := At(next, Node(q[i]))];
      Chain(next', id, RemoveAt(q, i))
  {
    var next' := next[Place(id, q, i) := At(next, Node(q[i]))];
    var r := RemoveAt(q, i);
    RemovedAt(q, i);
    forall j | 0 <= j < |r| ensures At(next', Node(r[j])) == NextOf(id, r, j) {
      hide RemoveAt, NoDup;
      if j < i {
        assert r[j] == q[j];
      } else {
        assert r[j] == q[j + 1] && (i > 0 ==> q[j + 1] != q[i - 1]);
      }
    }
  }

  lemma RemovedAt(q: seq<Tid>, i: nat)
    requires NoDup(q) && i < |q|
    ensures var r := RemoveAt(q, i); forall j :: 0 <= j < |r| ==> r[j] == q[if j < i then j else j + 1]
    ensures i > 0 ==> forall j :: 0 <= j < |q| && j != i - 1 ==> q[j] != q[i - 1]
  {
  }

  // ---- Run queues ----

  lemma Pushed(next: Memory, id: ListId, q: seq<Tid>, t: Tid)
    requires id.Run? && Chain(next, id, q) && NoDup(q) && t !in q
    ensures var last := At(next, Root(id));
      var next' := (if last == Nil then next[Node(t) := Node(t)] else next[Node(t) := At(next, last)][last := Node(t)])[Root(id) := Node(t)];
      Chain(next', id, q + [t])
  {
    var last := At(next, Root(id));
    var next' := (if last == Nil then next[Node(t) := Node(t)] else next[Node(t) := At(next, last)][last := Node(t)])[Root(id) := Node(t)];
    var r := q + [t];
    forall j | 0 <= j < |r| ensures At(next', Node(r[j])) == NextOf(id, r, j) {
      if j < |q| {
        assert r[j] == q[j];
      }
    }
  }

  lemma Popped(next: Memory, id: ListId, q: seq<Tid>)
    requires id.Run? && Chain(next, id, q) && NoDup(q) && q != []
    ensures var last := At(next, Root(id));
      var first := At(next, last);
      && first == Node(q[0])
      && var next' := if last == first then next[Root(id) := Nil] else next[last := At(next, first)];
      Chain(next', id, q[1..])
  {
    var last := At(next, Root(id));
    assert last == Node(q[|q| - 1]) && At(next, last) == Node(q[0]);
    var next' := if last == Node(q[0]) then next[Root(id) := Nil] else next[last := At(next, Node(q[0]))];
    var r := q[1..];
    forall j | 0 <= j < |r| ensures At(next', Node(r[j])) == NextOf(id, r, j) {
      assert r[j] == q[j + 1];
    }
  }

  lemma Rotated(next: Memory, id: ListId, q: seq<Tid>)
    requires id.Run? && Chain(next, id, q) && NoDup(q) && q != []
    ensures Chain(next[Root(id) := At(next, At(next, Root(id)))], id, q[1..] + [q[0]])
  {
    var next' := next[Root(id) := At(next, At(next, Root(id)))];
    assert At(next, Root(id)) == Node(q[|q| - 1]) && At(next, Node(q[|q| - 1])) == Node(q[0]);
    var r := q[1..] + [q[0]];
    forall j | 0 <= j < |r| ensures At(next', Node(r[j])) == NextOf(id, r, j) {
      if j < |q| - 1 {
        assert r[j] == q[j + 1];
      }
    }
  }

  // ---- The routines on memory ----

  /** `clist_rpush` */
  function PushMem(next: Memory, id: ListId, t: Tid): Memory {
    var last := At(next, Root(id));
    (if last == Nil then next[Node(t) := Node(t)] else next[Node(t) := At(next, last)][last := Node(t)])[Root(id) := Node(t)]
  }

  /** `clist_lpop` */
  function PopMem(next: Memory, id: ListId): Memory {
    var last := At(next, Root(id));
    if last == Nil then next
    else if last == At(next, last) then next[Root(id) := Nil]
    else next[last := At(next, At(next, last))]
  }

  /** `clist_lpoprpush` */
  function RotateMem(next: Memory, id: ListId): Memory {
    if At(next, Root(id)) == Nil then next else next[Root(id) := At(next, At(next, Root(id)))]
  }

  /** `t` is linked behind `place`. */
  function InsertMem(next: Memory, place: Ref, t: Tid): Memory {
    next[Node(t) := At(next, place)][place := Node(t)]
  }

  /** The node that `place` points to is unlinked. */
  function RemoveMem(next: Memory, place: Ref): Memory {
    next[place := At(next, At(next, place))]
  }

  // ---- They do to all lists together what the specification does ----

  lemma PushHolds(next: Memory, n: Links, t: Tid, p: nat)
    requires ListsOk(n.lists, n.on) && Holds(next, n.lists) && t !in n.on
    ensures Holds(PushMem(next, Run(p), t), RunqueuePush(n, t, p).lists)
  {
    hide Holds, Chain, ListsOk, NoDup;
    var id, next', n' := Run(p), PushMem(next, Run(p), t), RunqueuePush(n, t, p);
    NoDupOf(n, id);
    HoldsAt(next, n, id);
    Pushed(next, id, L(n, id), t);
    PushLocal(next, n, t, p);
    OneListChanged(next, next', n, n', id);
  }

  lemma HoldsAt(next: Memory, n: Links, id: ListId)
    requires Holds(next, n.lists)
    ensures Chain(next, id, L(n, id))
  {
    assert Chain(next, id, Listed(n.lists, id));
  }

  lemma PushLocal(next: Memory, n: Links, t: Tid, p: nat)
    requires ListsOk(n.lists, n.on) && Chain(next, Run(p), L(n, Run(p))) && t !in n.on
    ensures OnlyLocal(next, PushMem(next, Run(p), t), n, Run(p))
  {
    var q := L(n, Run(p));
    assert q != [] ==> q[|q| - 1] in q;
  }

  lemma PopHolds(next: Memory, n: Links, p: nat)
    requires ListsOk(n.lists, n.on) && Holds(next, n.lists)
    ensures Holds(PopMem(next, Run(p)), RunqueuePop(n, p).lists)
    ensures L(n, Run(p)) == [] <==> At(next, Root(Run(p))) == Nil
    ensures L(n, Run(p)) != [] ==> At(next, At(next, Root(Run(p)))) == Node(L(n, Run(p))[0])
  {
    hide Holds, Chain, ListsOk, NoDup;
    var id, next', n' := Run(p), PopMem(next, Run(p)), RunqueuePop(n, p);
    NoDupOf(n, id);
    HoldsAt(next, n, id);
    RootOf(next, id, L(n, id));
    if L(n, id) == [] {
      SameHolds(next, n, n');
    } else {
      Popped(next, id, L(n, id));
      PopLocal(next, n, p);
      OneListChanged(next, next', n, n', id);
    }
  }

  lemma RootOf(next: Memory, id: ListId, q: seq<Tid>)
    requires Chain(next, id, q)
    ensures q == [] <==> At(next, Root(id)) == Nil
    ensures q != [] && !id.Run? ==> At(next, Root(id)) == Node(q[0])
    ensures q != [] && id.Run? ==> At(next, At(next, Root(id))) == Node(q[0])
  {
    if q != [] && id.Run? {
      assert At(next, Node(q[|q| - 1])) == NextOf(id, q, |q| - 1);
    }
  }

  lemma SameHolds(next: Memory, n: Links, n': Links)
    requires Holds(next, n.lists) && n'.lists == n.lists
    ensures Holds(next, n'.lists)
  {
    hide Chain;
  }

  lemma PopLocal(next: Memory, n: Links, p: nat)
    requires ListsOk(n.lists, n.on) && Chain(next, Run(p), L(n, Run(p))) && L(n, Run(p)) != []
    ensures OnlyLocal(next, PopMem(next, Run(p)), n, Run(p))
  {
    var q := L(n, Run(p));
    assert q[|q| - 1] in q;
  }

  lemma RotateHolds(next: Memory, n: Links, p: nat)
    requires ListsOk(n.lists, n.on) && Holds(next, n.lists)
    ensures Holds(RotateMem(next, Run(p)), Rotate(n, p).lists)
  {
    hide Holds, Chain, ListsOk, NoDup;
    var id := Run(p);
    NoDupOf(n, id);
    HoldsAt(next, n, id);
    RootOf(next, id, L(n, id));
    if L(n, id) != [] {
      Rotated(next, id, L(n, id));
      OneListChanged(next, RotateMem(next, id), n, Rotate(n, p), id);
    }
  }

  lemma PlaceLocal(n: Links, id: ListId, i: nat)
    requires ListsOk(n.lists, n.on) && i <= |L(n, id)|
    ensures Local(n, id, Place(id, L(n, id), i))
  {
    if i > 0 {
      assert L(n, id)[i - 1] in L(n, id);
    }
  }

  lemma AddHolds(next: Memory, n: Links, prio: map<Tid, nat>, id: ListId, t: Tid)
    requires ListsOk(n.lists, n.on) && Holds(next, n.lists) && t !in n.on && !id.Run?
    ensures var q := L(n, id);
      Holds(InsertMem(next, Place(id, q, InsertPos(prio, q, Get(prio, t))), t), AddToList(n, prio, id, t).lists)
  {
    hide Holds, Chain, ListsOk, NoDup, InsertPos, InsertAt;
    var q := L(n, id);
    var i := InsertPos(prio, q, Get(prio, t));
    NoDupOf(n, id);
    HoldsAt(next, n, id);
    Inserted(next, id, q, i, t);
    PlaceLocal(n, id, i);
    OneListChanged(next, InsertMem(next, Place(id, q, i), t), n, AddToList(n, prio, id, t), id);
  }

  lemma UnlinkHolds(next: Memory, n: Links, id: ListId, i: nat)
    requires ListsOk(n.lists, n.on) && Holds(next, n.lists) && !id.Run? && i < |L(n, id)|
    ensures Holds(RemoveMem(next, Place(id, L(n, id), i)), Unlink(n, id, i).lists)
  {
    hide Holds, Chain, ListsOk, NoDup, RemoveAt;
    var q := L(n, id);
    NoDupOf(n, id);
    HoldsAt(next, n, id);
    PlaceLeads(next, id, q, i);
    Removed(next, id, q, i);
    PlaceLocal(n, id, i);
    OneListChanged(next, RemoveMem(next, Place(id, q, i)), n, Unlink(n, id, i), id);
  }

  lemma PlaceLeads(next: Memory, id: ListId, q: seq<Tid>, i: nat)
    requires !id.Run? && Chain(next, id, q) && i <= |q|
    ensures At(next, Place(id, q, i)) == if i < |q| then Node(q[i]) else Nil
  {
  }

  // ---- A node on two lists ----

  /** Some node is on two lists, or twice on one. */
  ghost predicate Twice(lists: map<ListId, seq<Tid>>) {
    || (exists d, e, t :: d in lists && e in lists && d != e && t in lists[d] && t in lists[e])
    || (exists d :: d in lists && !NoDup(lists[d]))
  }

  lemma OkNotTwice(lists: map<ListId, seq<Tid>>, on: map<Tid, ListId>)
    requires ListsOk(lists, on)
    ensures !Twice(lists)
  {
    hide NoDup;
    forall d, e, t | d in lists && e in lists && t in lists[d] && t in lists[e] ensures d == e {
      assert on[t] == d;
    }
  }

  /** Lists only grew. */
  ghost predicate Grew(q: seq<Tid>, q': seq<Tid>) {
    exists i :: 0 <= i < |q'| && |q'| == |q| + 1 && q == RemoveAt(q', i)
  }

  lemma GrewElements(q: seq<Tid>, q': seq<Tid>)
    requires Grew(q, q')
    ensures forall t :: t in q ==> t in q'
    ensures NoDup(q') ==> NoDup(q)
  {
    var i :| 0 <= i < |q'| && |q'| == |q| + 1 && q == RemoveAt(q', i);
    forall j | 0 <= j < |q| ensures q[j] == q'[if j < i then j else j + 1] {
    }
  }

  /** Adding nodes to a list does not mend a node that is on two. */
  lemma StillTwice(lists: map<ListId, seq<Tid>>, id: ListId, q': seq<Tid>)
    requires Twice(lists) && Grew(if id in lists then lists[id] else [], q')
    ensures Twice(lists[id := q'])
  {
    hide NoDup, Grew;
    var q := if id in lists then lists[id] else [];
    var lists' := lists[id := q'];
    GrewElements(q, q');
    if d :| d in lists && !NoDup(lists[d]) {
      assert d in lists' && !NoDup(lists'[d]);
    } else {
      var d, e, t :| d in lists && e in lists && d != e && t in lists[d] && t in lists[e];
      assert d in lists' && e in lists' && t in lists'[d] && t in lists'[e];
    }
  }

  /** Linking a node that is already linked puts it on two lists, or twice on one. */
  lemma LinkedTwice(n: Links, id: ListId, q': seq<Tid>, i: nat, t: Tid)
    requires ListsOk(n.lists, n.on) && t in n.on && i <= |L(n, id)| && q' == InsertAt(L(n, id), i, t)
    ensures Twice(n.lists[id := q'])
  {
    var d, lists' := n.on[t], n.lists[id := q'];
    assert t in n.lists[d] && q'[i] == t;
    if d == id {
      var j :| 0 <= j < |L(n, id)| && L(n, id)[j] == t;
      assert q'[if j < i then j else j + 1] == t;
      assert !NoDup(q');
      assert id in lists' && !NoDup(lists'[id]);
    } else {
      assert d in lists' && id in lists' && t in lists'[d] && t in lists'[id];
    }
  }

  // ---- The lists as a whole ----

  /** Every node is on at most one list, and the memory holds the lists. */
  ghost predicate Intact(next: Memory, lists: map<ListId, seq<Tid>>, on: map<Tid, ListId>) {
    ListsOk(lists, on) && Holds(next, lists)
  }

  /** The memory holds the lists, unless some node was linked twice. */
  ghost predicate Sound(next: Memory, lists: map<ListId, seq<Tid>>, on: map<Tid, ListId>) {
    Intact(next, lists, on) || Twice(lists)
  }

  lemma NotIntact(next: Memory, n: Links)
    requires Twice(n.lists)
    ensures !Intact(next, n.lists, n.on)
  {
    hide Twice, Holds;
    if ListsOk(n.lists, n.on) {
      OkNotTwice(n.lists, n.on);
    }
  }

  /** Pushing a thread keeps the lists intact exactly if it was not linked already. */
  lemma PushSound(next: Memory, n: Links, t: Tid, p: nat)
    requires Sound(next, n.lists, n.on)
    ensures var next', n' := PushMem(next, Run(p), t), RunqueuePush(n, t, p);
      && Sound(next', n'.lists, n'.on)
      && (Intact(next, n.lists, n.on) ==> (Intact(next', n'.lists, n'.on) <==> t !in n.on))
  {
    hide Twice, ListsOk, Holds, PushMem;
    var id, q := Run(p), L(n, Run(p));
    assert InsertAt(q, |q|, t) == q + [t];
    if Twice(n.lists) {
      assert RemoveAt(q + [t], |q|) == q;
      StillTwice(n.lists, id, q + [t]);
    }
    if Intact(next, n.lists, n.on) {
      if t in n.on {
        LinkedTwice(n, id, q + [t], |q|, t);
        NotIntact(PushMem(next, id, t), RunqueuePush(n, t, p));
      } else {
        PushLists(n, t, p);
        PushHolds(next, n, t, p);
      }
    }
  }

  lemma PopIntact(next: Memory, n: Links, p: nat)
    requires Intact(next, n.lists, n.on)
    ensures var n' := RunqueuePop(n, p); Intact(PopMem(next, Run(p)), n'.lists, n'.on)
  {
    hide ListsOk, Holds, PopMem;
    PopLists(n, p);
    PopHolds(next, n, p);
  }

  lemma RotateIntact(next: Memory, n: Links, p: nat)
    requires Intact(next, n.lists, n.on)
    ensures var n' := Rotate(n, p); Intact(RotateMem(next, Run(p)), n'.lists, n'.on)
  {
    hide ListsOk, Holds, RotateMem, NoDup;
    RotateHolds(next, n, p);
    var q := L(n, Run(p));
    if q != [] {
      NoDupOf(n, Run(p));
      RotateElements(q);
      RelistOk(n.lists, n.on, Run(p), q[1..] + [q[0]]);
    }
  }

  lemma AddSound(next: Memory, n: Links, prio: map<Tid, nat>, id: ListId, t: Tid)
    requires Intact(next, n.lists, n.on) && !id.Run?
    ensures var q, n' := L(n, id), AddToList(n, prio, id, t);
      var next' := InsertMem(next, Place(id, q, InsertPos(prio, q, Get(prio, t))), t);
      Sound(next', n'.lists, n'.on) && (Intact(next', n'.lists, n'.on) <==> t !in n.on)
  {
    hide Twice, ListsOk, Holds, InsertMem, InsertAt, InsertPos;
    var q := L(n, id);
    var i := InsertPos(prio, q, Get(prio, t));
    if t in n.on {
      LinkedTwice(n, id, InsertAt(q, i, t), i, t);
      NotIntact(InsertMem(next, Place(id, q, i), t), AddToList(n, prio, id, t));
    } else {
      LinkOk(n.lists, n.on, id, q, i, t);
      AddHolds(next, n, prio, id, t);
    }
  }

  lemma UnlinkIntact(next: Memory, n: Links, id: ListId, i: nat)
    requires Intact(next, n.lists, n.on) && !id.Run? && i < |L(n, id)|
    ensures var n' := Unlink(n, id, i);
      && Intact(RemoveMem(next, Place(id, L(n, id), i)), n'.lists, n'.on)
      && L(n, id)[i] !in n'.on
  {
    hide ListsOk, Holds, RemoveMem, RemoveAt;
    UnlinkOk(n.lists, n.on, id, i);
    UnlinkHolds(next, n, id, i);
  }

  /** Lists that meet the invariant are held by the memory. */
  lemma SoundIntact(next: Memory, lists: map<ListId, seq<Tid>>, on: map<Tid, ListId>)
    requires Sound(next, lists, on) && ListsOk(lists, on)
    ensures Intact(next, lists, on)
  {
    hide Twice, ListsOk, Holds;
    OkNotTwice(lists, on);
  }

  /** What the root of a run queue says about it. */
  lemma RunRoot(next: Memory, lists: map<ListId, seq<Tid>>, on: map<Tid, ListId>, p: nat)
    requires Intact(next, lists, on)
    ensures var q, last := Listed(lists, Run(p)), At(next, Root(Run(p)));
      && (q == [] <==> last == Nil)
      && (q != [] ==> At(next, last) == Node(q[0]))
  {
    hide Chain;
    RootOf(next, Run(p), Listed(lists, Run(p)));
  }

  /** The pointer that leads to the `i`-th waiter. */
  lemma WaiterAt(next: Memory, lists: map<ListId, seq<Tid>>, on: map<Tid, ListId>, id: ListId, i: nat)
    requires Intact(next, lists, on) && !id.Run? && i <= |Listed(lists, id)|
    ensures var q := Listed(lists, id);
      At(next, Place(id, q, i)) == if i < |q| then Node(q[i]) else Nil
  {
    hide Chain;
    PlaceLeads(next, id, Listed(lists, id), i);
  }

  /** One thread on its run queue. */
  lemma OneThread(t: Tid, p: nat)
    ensures Intact(map[Root(Run(p)) := Node(t), Node(t) := Node(t)], map[Run(p) := [t]], map[t := Run(p)])
  {
  }
}
