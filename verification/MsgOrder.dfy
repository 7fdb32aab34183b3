/**
  Where the messages of one receiver are, sender by sender: those handed over, those in its
  queue, and the one a blocked sender still holds, in the order they were sent.
*/
module MsgOrder {
  import opened Wrappers
  import opened Sched
  import opened KernelState

  /** The messages of `q` that came from `p`, in order. */
  function From(q: seq<Msg>, p: Source): seq<Msg> {
    if q == [] then []
    else From(q[..|q| - 1], p) + (if q[|q| - 1].src == p then [q[|q| - 1]] else [])
  }

  lemma FromOne(m: Msg, p: Source)
    ensures From([m], p) == if m.src == p then [m] else []
  {
    assert [m][..0] == [];
  }

  lemma {:induction false} FromConcat(x: seq<Msg>, y: seq<Msg>, p: Source)
    ensures From(x + y, p) == From(x, p) + From(y, p)
  {
    if y == [] {
      assert x + y == x;
    } else {
      var n := |y| - 1;
      assert (x + y)[..|x + y| - 1] == x + y[..n];
      FromConcat(x, y[..n], p);
    }
  }

  /** The message that `p` holds while it is blocked on a send to `r`. */
  function Held(on: map<Tid, ListId>, wait: map<Tid, Wait>, r: Tid, p: Source): seq<Msg> {
    if p.Thread? && OnOf(on, p.tid) == Some(SendQ(r)) && WaitOf(wait, p.tid).Buffer? then [WaitOf(wait, p.tid).m] else []
  }

  /** Sent equals delivered, then queued, then still held. */
  predicate InOrder(c: Chan, held: seq<Msg>, p: Source) {
    From(c.dlv, p) + From(c.queue, p) + held == From(c.acc, p)
  }

  lemma SentDirect(c: Chan, m: Msg, p: Source)
    requires InOrder(c, [], p) && c.queue == []
    ensures InOrder(c.(dlv := c.dlv + [m], acc := c.acc + [m]), [], p)
  {
    FromConcat(c.dlv, [m], p);
    FromConcat(c.acc, [m], p);
  }

  lemma SentToQueue(c: Chan, m: Msg, held: seq<Msg>, p: Source)
    requires InOrder(c, held, p) && (m.src == p ==> held == [])
    ensures InOrder(c.(queue := c.queue + [m], acc := c.acc + [m]), held, p)
  {
    hide From;
    FromConcat(c.queue, [m], p);
    FromConcat(c.acc, [m], p);
    FromOne(m, p);
    var d, q := From(c.dlv, p), From(c.queue, p);
    if m.src == p {
      assert d + (q + [m]) + [] == d + q + [] + [m];
    } else {
      assert q + [] == q && From(c.acc, p) + [] == From(c.acc, p);
    }
  }

  lemma SentBlocked(c: Chan, m: Msg, held: seq<Msg>, held': seq<Msg>, p: Source)
    requires InOrder(c, held, p)
    requires if m.src == p then held == [] && held' == [m] else held' == held
    ensures InOrder(c.(acc := c.acc + [m]), held', p)
  {
    FromConcat(c.acc, [m], p);
    FromOne(m, p);
  }

  lemma TakenFromQueue(c: Chan, held: seq<Msg>, p: Source)
    requires InOrder(c, held, p) && c.queue != []
    ensures InOrder(c.(dlv := c.dlv + [c.queue[0]], queue := c.queue[1..]), held, p)
  {
    hide From;
    assert c.queue == [c.queue[0]] + c.queue[1..];
    FromConcat([c.queue[0]], c.queue[1..], p);
    FromConcat(c.dlv, [c.queue[0]], p);
    var d, h, t := From(c.dlv, p), From([c.queue[0]], p), From(c.queue[1..], p);
    assert d + h + t == d + (h + t);
  }

  lemma WaiterToQueue(c: Chan, b: Msg, held: seq<Msg>, held': seq<Msg>, p: Source)
    requires InOrder(c, held, p)
    requires if b.src == p then held == [b] && held' == [] else held' == held
    ensures InOrder(c.(queue := c.queue + [b]), held', p)
  {
    hide From;
    FromConcat(c.queue, [b], p);
    FromOne(b, p);
  }

  lemma WaiterDirect(c: Chan, b: Msg, held: seq<Msg>, held': seq<Msg>, p: Source)
    requires InOrder(c, held, p) && c.queue == []
    requires if b.src == p then held == [b] && held' == [] else held' == held
    ensures InOrder(c.(dlv := c.dlv + [b]), held', p)
  {
    FromConcat(c.dlv, [b], p);
    FromOne(b, p);
  }

  // ---- Each accepted message is in exactly one place ----

  lemma {:induction false} FromCounts(q: seq<Msg>, m: Msg)
    ensures multiset(From(q, m.src))[m] == multiset(q)[m]
  {
    if q != [] {
      var n := |q| - 1;
      FromCounts(q[..n], m);
      assert q == q[..n] + [q[n]];
    }
  }

  lemma CountOnce(q: seq<Msg>, m: Msg)
    requires forall i, j :: 0 <= i < j < |q| ==> q[i] != q[j]
    ensures multiset(q)[m] == if m in q then 1 else 0
  {
    if m in q {
      var i :| 0 <= i < |q| && q[i] == m;
      assert q == q[..i] + [m] + q[i + 1..];
      assert m !in q[..i] && m !in q[i + 1..];
    }
  }

  /** Delivered, queued and held together contain every accepted message once and nothing else. */
  lemma ExactlyOnePlace(c: Chan, held: seq<Msg>, m: Msg)
    requires InOrder(c, held, m.src)
    requires forall i, j :: 0 <= i < j < |c.acc| ==> c.acc[i] != c.acc[j]
    ensures multiset(c.dlv)[m] + multiset(c.queue)[m] + multiset(held)[m] == if m in c.acc then 1 else 0
  {
    FromCounts(c.dlv, m);
    FromCounts(c.queue, m);
    FromCounts(c.acc, m);
    CountOnce(c.acc, m);
    assert multiset(From(c.dlv, m.src) + From(c.queue, m.src) + held)
        == multiset(From(c.dlv, m.src)) + multiset(From(c.queue, m.src)) + multiset(held);
  }
}
