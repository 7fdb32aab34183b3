/** `_clist_sort`: the merge sort of `MergeSort`, done by relinking the nodes in place. */
module ClistSort {
  import opened MergeSort

  class Node<K> {
    const key: K
    var next: Node?<K>

    constructor (key: K)
      ensures this.key == key && next == null
    {
      this.key := key;
      next := null;
    }
  }

  // ---- The list in the heap ----

  ghost predicate Distinct<K>(nodes: seq<Node<K>>) {
    forall i, j :: 0 <= i < j < |nodes| ==> nodes[i] != nodes[j]
  }

  /** `xs` numbers all of the `nodes`, each once. */
  ghost predicate Order<K>(nodes: seq<Node<K>>, xs: seq<nat>) {
    && |xs| == |nodes| && (forall i :: 0 <= i < |xs| ==> xs[i] < |nodes|)
    && (forall i, j :: 0 <= i < j < |xs| ==> xs[i] != xs[j])
  }

  ghost function Keys<K>(nodes: seq<Node<K>>): (keys: seq<K>)
    ensures |keys| == |nodes| && forall i :: 0 <= i < |nodes| ==> keys[i] == nodes[i].key
  {
    seq(|nodes|, i requires 0 <= i < |nodes| => nodes[i].key)
  }

  /** The node at place `i`; past the end there is none. */
  ghost function At<K>(nodes: seq<Node<K>>, xs: seq<nat>, i: nat): Node?<K>
    requires Order(nodes, xs)
  {
    if i < |xs| then nodes[xs[i]] else null
  }

  /** The node at place `i` still points to its successor, and the last one to the first. */
  ghost predicate Intact<K>(nodes: seq<Node<K>>, xs: seq<nat>, i: nat)
    requires Order(nodes, xs) && i < |xs|
    reads nodes
  {
    nodes[xs[i]].next == nodes[xs[if i + 1 < |xs| then i + 1 else 0]]
  }

  /** The circular list whose nodes are in the order `xs`. */
  ghost predicate Ring<K>(nodes: seq<Node<K>>, xs: seq<nat>)
    requires Order(nodes, xs)
    reads nodes
  {
    forall i :: 0 <= i < |xs| ==> Intact(nodes, xs, i)
  }

  /** The nodes taken so far are linked in the order `out`; `list` and `tail` are its ends. */
  ghost predicate Taken<K>(nodes: seq<Node<K>>, out: seq<nat>, list: Node?<K>, tail: Node?<K>)
    reads nodes
  {
    && (forall i :: 0 <= i < |out| ==> out[i] < |nodes|)
    && (forall i :: 0 <= i < |out| - 1 ==> nodes[out[i]].next == nodes[out[i + 1]])
    && (if out == [] then list == null && tail == null else list == nodes[out[0]] && tail == nodes[out[|out| - 1]])
  }

  /** The places from `lo` to `hi` are untouched: not taken, and linked as before. */
  ghost predicate Untouched<K>(nodes: seq<Node<K>>, xs: seq<nat>, out: seq<nat>, lo: nat, hi: nat)
    requires Order(nodes, xs) && hi <= |xs|
    reads nodes
  {
    forall i :: lo <= i < hi ==> xs[i] !in out && Intact(nodes, xs, i)
  }

  // ---- One element ----

  ghost predicate NoRepeats(out: seq<nat>) {
    forall i, j :: 0 <= i < j < |out| ==> out[i] != out[j]
  }

  /** `tail->next = e`, or `list = e` for the first one; the places still untouched stay so. */
  method Append<K>(e: Node<K>, list0: Node?<K>, tail0: Node?<K>, ghost nodes: seq<Node<K>>, ghost xs: seq<nat>,
                   ghost out: seq<nat>, ghost x: nat, ghost pi: nat, ghost mid: nat, ghost qi: nat)
    returns (list: Node?<K>, tail: Node?<K>)
    requires Distinct(nodes) && Order(nodes, xs) && Taken(nodes, out, list0, tail0) && NoRepeats(out)
    requires x < |nodes| && nodes[x] == e && x !in out && mid <= |xs|
    requires Untouched(nodes, xs, out, pi, mid) && Untouched(nodes, xs, out, qi, |xs|)
    requires forall i :: (pi <= i < mid || qi <= i < |xs|) ==> xs[i] != x
    modifies nodes
    ensures Taken(nodes, out + [x], list, tail) && NoRepeats(out + [x])
    ensures Untouched(nodes, xs, out + [x], pi, mid) && Untouched(nodes, xs, out + [x], qi, |xs|)
  {
    hide Distinct, Order;
    TailApart(nodes, xs, out, list0, tail0, pi, mid);
    TailApart(nodes, xs, out, list0, tail0, qi, |xs|);
    list := list0;
    if tail0 != null {
      tail0.next := e;
    } else {
      list := e;
    }
    tail := e;
  }

  /** The last node taken is none of the others, taken or not. */
  lemma TailApart<K>(nodes: seq<Node<K>>, xs: seq<nat>, out: seq<nat>, list: Node?<K>, tail: Node?<K>, lo: nat, hi: nat)
    requires Distinct(nodes) && Order(nodes, xs) && Taken(nodes, out, list, tail) && NoRepeats(out)
    requires hi <= |xs| && Untouched(nodes, xs, out, lo, hi)
    ensures forall i :: lo <= i < hi ==> nodes[xs[i]] != tail
    ensures forall i :: 0 <= i < |out| - 1 ==> nodes[out[i]] != tail
  {
    hide Distinct;
    if out != [] {
      var t := out[|out| - 1];
      assert t in out;
      forall i | lo <= i < hi ensures nodes[xs[i]] != tail {
        Differ(nodes, xs[i], t);
      }
      forall i | 0 <= i < |out| - 1 ensures nodes[out[i]] != tail {
        Differ(nodes, out[i], t);
      }
    }
  }

  lemma Differ<K>(nodes: seq<Node<K>>, i: nat, j: nat)
    requires Distinct(nodes) && i < |nodes| && j < |nodes| && i != j
    ensures nodes[i] != nodes[j]
  {
  }

  /** The successor in the old order, or none at its end. */
  method Next<K>(n: Node<K>, oldhead: Node<K>, ghost nodes: seq<Node<K>>, ghost xs: seq<nat>, ghost i: nat)
    returns (m: Node?<K>)
    requires Distinct(nodes) && Order(nodes, xs) && i < |xs| && Intact(nodes, xs, i)
    requires n == nodes[xs[i]] && oldhead == nodes[xs[0]]
    ensures m == At(nodes, xs, i + 1)
  {
    m := if n.next == oldhead then null else n.next;
  }

  // ---- Merging two runs ----

  /** Taken is `out`; still to be merged are the places from `pi` to `mid` and from `qi` on. */
  ghost predicate Merging<K>(nodes: seq<Node<K>>, xs: seq<nat>, out: seq<nat>, pi: nat, mid: nat, qi: nat,
                             p: Node?<K>, q: Node?<K>, list: Node?<K>, tail: Node?<K>)
    reads nodes
  {
    && Distinct(nodes) && Order(nodes, xs) && pi <= mid <= qi <= |xs|
    && p == At(nodes, xs, pi) && q == At(nodes, xs, qi)
    && Taken(nodes, out, list, tail) && NoRepeats(out)
    && Untouched(nodes, xs, out, pi, mid) && Untouched(nodes, xs, out, qi, |xs|)
  }

  /** Moves the first node of one of the runs behind `tail`. */
  method TakeOne<K>(p0: Node?<K>, q0: Node?<K>, fromP: bool, oldhead: Node<K>, list0: Node?<K>, tail0: Node?<K>,
                    ghost nodes: seq<Node<K>>, ghost xs: seq<nat>, ghost out: seq<nat>, ghost pi: nat, ghost mid: nat, ghost qi: nat)
    returns (p: Node?<K>, q: Node?<K>, list: Node?<K>, tail: Node?<K>)
    requires Merging(nodes, xs, out, pi, mid, qi, p0, q0, list0, tail0)
    requires |xs| > 0 && oldhead == nodes[xs[0]] && (if fromP then pi < mid else qi < |xs|)
    modifies nodes
    ensures Merging(nodes, xs, out + [xs[if fromP then pi else qi]], if fromP then pi + 1 else pi, mid,
                    if fromP then qi else qi + 1, p, q, list, tail)
  {
    p, q := p0, q0;
    if fromP {
      p := Next(p0, oldhead, nodes, xs, pi);
      list, tail := Append(p0, list0, tail0, nodes, xs, out, xs[pi], pi + 1, mid, qi);
    } else {
      q := Next(q0, oldhead, nodes, xs, qi);
      list, tail := Append(q0, list0, tail0, nodes, xs, out, xs[qi], pi, mid, qi + 1);
    }
  }

  /**
    The inner loop: merges the `psize` nodes from `p` and up to `insize` nodes from `q` behind
    `tail`, and returns the node after them.
  */
  method MergeRuns<K>(p0: Node<K>, q0: Node?<K>, psize0: nat, insize: nat, oldhead: Node<K>,
                      list0: Node?<K>, tail0: Node?<K>, le: (K, K) -> bool,
                      ghost nodes: seq<Node<K>>, ghost xs: seq<nat>, ghost out: seq<nat>, ghost start: nat)
    returns (q: Node?<K>, list: Node?<K>, tail: Node?<K>, ghost done: seq<nat>)
    requires Merging(nodes, xs, out, start, start + psize0, start + psize0, p0, q0, list0, tail0)
    requires Order(nodes, xs) && |xs| > 0 && oldhead == nodes[xs[0]] && 0 < psize0
    modifies nodes
    ensures var mid, end := start + psize0, Min(start + psize0 + insize, |xs|);
      && done == Merge(Keys(nodes), le, xs[start..mid], xs[mid..end])
      && Merging(nodes, xs, out + done, mid, mid, end, At(nodes, xs, mid), q, list, tail)
  {
    hide Merging, Order, Rest;
    var p: Node?<K>, psize, qsize := p0, psize0, insize;
    q, list, tail := q0, list0, tail0;
    ghost var keys := Keys(nodes);
    ghost var mid, end := start + psize0, Min(start + psize0 + insize, |xs|);
    ghost var pi, qi := start, mid;
    done := [];
    MergingFacts(nodes, xs, out, pi, mid, qi, p, q, list, tail);
    assert out + done == out && done + Rest(keys, le, xs, pi, mid, qi, end) == Rest(keys, le, xs, pi, mid, qi, end);
    while psize > 0 || (qsize > 0 && q != null)
      invariant start <= pi <= mid <= qi <= end && psize == mid - pi && qsize == mid + insize - qi
      invariant Merging(nodes, xs, out + done, pi, mid, qi, p, q, list, tail)
      invariant done + Rest(keys, le, xs, pi, mid, qi, end) == Rest(keys, le, xs, start, mid, mid, end)
      decreases psize + qsize
    {
      MergingFacts(nodes, xs, out + done, pi, mid, qi, p, q, list, tail);
      var fromP := psize > 0 && (qsize == 0 || q == null || le(p.key, q.key));
      MergeStep(keys, le, xs, pi, mid, qi, end, fromP);
      ghost var x := xs[if fromP then pi else qi];
      ghost var rest := if fromP then Rest(keys, le, xs, pi + 1, mid, qi, end) else Rest(keys, le, xs, pi, mid, qi + 1, end);
      assert out + (done + [x]) == out + done + [x] && done + ([x] + rest) == done + [x] + rest;
      p, q, list, tail := TakeOne(p, q, fromP, oldhead, list, tail, nodes, xs, out + done, pi, mid, qi);
      done := done + [x];
      if fromP {
        psize := psize - 1;
        pi := pi + 1;
      } else {
        qsize := qsize - 1;
        qi := qi + 1;
      }
    }
    MergingFacts(nodes, xs, out + done, pi, mid, qi, p, q, list, tail);
    MergeNone(keys, le, xs, mid, end);
    WholeMerge(keys, le, xs, start, mid, end);
    assert done + [] == done;
  }

  ghost function Rest<K>(keys: seq<K>, le: (K, K) -> bool, xs: seq<nat>, pi: nat, mid: nat, qi: nat, end: nat): seq<nat>
    requires Indices(keys, xs) && pi <= mid <= qi <= end <= |xs|
  {
    Merge(keys, le, xs[pi..mid], xs[qi..end])
  }

  lemma WholeMerge<K>(keys: seq<K>, le: (K, K) -> bool, xs: seq<nat>, pi: nat, mid: nat, end: nat)
    requires Indices(keys, xs) && pi <= mid <= end <= |xs|
    ensures Rest(keys, le, xs, pi, mid, mid, end) == Merge(keys, le, xs[pi..mid], xs[mid..end])
  {
  }

  lemma MergeNone<K>(keys: seq<K>, le: (K, K) -> bool, xs: seq<nat>, mid: nat, end: nat)
    requires Indices(keys, xs) && mid <= end <= |xs|
    ensures Rest(keys, le, xs, mid, mid, end, end) == []
  {
  }

  lemma MergingFacts<K>(nodes: seq<Node<K>>, xs: seq<nat>, out: seq<nat>, pi: nat, mid: nat, qi: nat,
                        p: Node?<K>, q: Node?<K>, list: Node?<K>, tail: Node?<K>)
    requires Merging(nodes, xs, out, pi, mid, qi, p, q, list, tail)
    ensures Order(nodes, xs) && Indices(Keys(nodes), xs) && pi <= mid <= qi <= |xs|
    ensures pi < mid ==> p != null && p.key == Keys(nodes)[xs[pi]]
    ensures q == null <==> qi == |xs|
    ensures q != null ==> q.key == Keys(nodes)[xs[qi]]
    ensures pi == mid ==> p == At(nodes, xs, mid)
  {
  }

  /** The next element of a merge, and what is left to merge. */
  lemma MergeStep<K>(keys: seq<K>, le: (K, K) -> bool, xs: seq<nat>, pi: nat, mid: nat, qi: nat, end: nat, fromP: bool)
    requires Indices(keys, xs) && pi <= mid <= qi <= end <= |xs| && (pi < mid || qi < end)
    requires fromP == (pi < mid && (qi == end || le(keys[xs[pi]], keys[xs[qi]])))
    ensures Rest(keys, le, xs, pi, mid, qi, end) ==
      if fromP then [xs[pi]] + Rest(keys, le, xs, pi + 1, mid, qi, end)
      else [xs[qi]] + Rest(keys, le, xs, pi, mid, qi + 1, end)
  {
    var a, b := xs[pi..mid], xs[qi..end];
    if a != [] {
      assert a[0] == xs[pi] && a[1..] == xs[pi + 1..mid] && a == [a[0]] + a[1..];
    }
    if b != [] {
      assert b[0] == xs[qi] && b[1..] == xs[qi + 1..end] && b == [b[0]] + b[1..];
    }
  }

  // ---- One pass ----

  /** Steps `insize` places along, or to the end. */
  method StepAlong<K>(p: Node<K>, insize: nat, oldhead: Node<K>, ghost nodes: seq<Node<K>>, ghost xs: seq<nat>,
                      ghost out: seq<nat>, ghost start: nat)
    returns (q: Node?<K>, psize: nat)
    requires Distinct(nodes) && Order(nodes, xs) && start < |xs| && insize > 0
    requires p == nodes[xs[start]] && oldhead == nodes[xs[0]] && Untouched(nodes, xs, out, start, |xs|)
    ensures psize == Min(insize, |xs| - start) && q == At(nodes, xs, start + psize)
  {
    hide Distinct, Untouched;
    q, psize := p, 0;
    var i := 0;
    while i < insize
      invariant i <= insize && psize == i && start + i <= |xs| && q == At(nodes, xs, start + i)
      invariant i < insize ==> start + i < |xs|
    {
      psize := psize + 1;
      UntouchedAt(nodes, xs, out, start, start + i);
      q := Next(q, oldhead, nodes, xs, start + i);
      if q == null {
        break;
      }
      i := i + 1;
    }
  }

  lemma UntouchedAt<K>(nodes: seq<Node<K>>, xs: seq<nat>, out: seq<nat>, lo: nat, i: nat)
    requires Order(nodes, xs) && lo <= i < |xs| && Untouched(nodes, xs, out, lo, |xs|)
    ensures Intact(nodes, xs, i) && At(nodes, xs, i) == nodes[xs[i]] && At(nodes, xs, |xs|) == null
  {
  }

  lemma Resplit<K>(nodes: seq<Node<K>>, xs: seq<nat>, out: seq<nat>, a: nat, start: nat, mid: nat,
                   p0: Node?<K>, p: Node?<K>, list: Node?<K>, tail: Node?<K>)
    requires Order(nodes, xs) && Merging(nodes, xs, out, a, a, start, p0, p, list, tail) && start <= mid <= |xs|
    ensures Merging(nodes, xs, out, start, mid, mid, p, At(nodes, xs, mid), list, tail)
    ensures Distinct(nodes) && Untouched(nodes, xs, out, start, |xs|) && p == At(nodes, xs, start)
  {
  }

  lemma PassStep<K>(keys: seq<K>, le: (K, K) -> bool, xs: seq<nat>, start: nat, k: nat)
    requires Indices(keys, xs) && k > 0 && start < |xs|
    ensures var mid, end := start + Min(k, |xs| - start), Min(start + 2 * k, |xs|);
      Pass(keys, le, xs[start..], k) == Merge(keys, le, xs[start..mid], xs[mid..end]) + Pass(keys, le, xs[end..], k)
  {
    var ys := xs[start..];
    var mid, end := start + Min(k, |xs| - start), Min(start + 2 * k, |xs|);
    assert ys[..Min(k, |ys|)] == xs[start..mid] && ys[Min(k, |ys|)..Min(2 * k, |ys|)] == xs[mid..end];
    assert ys[Min(2 * k, |ys|)..] == xs[end..];
  }

  /** The places before `start` are merged into `out`; the rest of the pass is still to be done. */
  ghost predicate Passing<K>(nodes: seq<Node<K>>, xs: seq<nat>, out: seq<nat>, start: nat, le: (K, K) -> bool, k: nat,
                             p: Node?<K>, list: Node?<K>, tail: Node?<K>)
    reads nodes
  {
    && k > 0 && Merging(nodes, xs, out, start, start, start, p, p, list, tail)
    && out + Pass(Keys(nodes), le, xs[start..], k) == Pass(Keys(nodes), le, xs, k)
  }

  lemma PassingFacts<K>(nodes: seq<Node<K>>, xs: seq<nat>, out: seq<nat>, start: nat, le: (K, K) -> bool, k: nat,
                        p: Node?<K>, list: Node?<K>, tail: Node?<K>)
    requires Passing(nodes, xs, out, start, le, k, p, list, tail)
    ensures Order(nodes, xs) && Distinct(nodes) && Indices(Keys(nodes), xs) && start <= |xs| && p == At(nodes, xs, start)
    ensures Untouched(nodes, xs, out, start, |xs|)
    ensures p == null <==> start == |xs|
  {
  }

  /** One round of the pass: the next two runs. */
  method MergeNext<K>(p: Node<K>, insize: nat, oldhead: Node<K>, list0: Node?<K>, tail0: Node?<K>, le: (K, K) -> bool,
                      ghost nodes: seq<Node<K>>, ghost xs: seq<nat>, ghost out: seq<nat>, ghost start: nat)
    returns (q: Node?<K>, list: Node?<K>, tail: Node?<K>, ghost done: seq<nat>)
    requires Passing(nodes, xs, out, start, le, insize, p, list0, tail0)
    requires Order(nodes, xs) && |xs| > 0 && oldhead == nodes[xs[0]]
    modifies nodes
    ensures Passing(nodes, xs, out + done, Min(start + 2 * insize, |xs|), le, insize, q, list, tail)
  {
    hide Merging, Pass, Merge, Untouched, Distinct, Order;
    ghost var keys := Keys(nodes);
    PassingFacts(nodes, xs, out, start, le, insize, p, list0, tail0);
    var psize;
    q, psize := StepAlong(p, insize, oldhead, nodes, xs, out, start);
    ghost var mid, end := start + psize, Min(start + 2 * insize, |xs|);
    assert Min(start + psize + insize, |xs|) == end;
    Resplit(nodes, xs, out, start, start, mid, p, p, list0, tail0);
    PassStep(keys, le, xs, start, insize);
    q, list, tail, done := MergeRuns(p, q, psize, insize, oldhead, list0, tail0, le, nodes, xs, out, start);
    Resplit(nodes, xs, out + done, mid, end, end, At(nodes, xs, mid), q, list, tail);
    assert out + (done + Pass(keys, le, xs[end..], insize)) == out + done + Pass(keys, le, xs[end..], insize);
  }

  /** Merges neighbouring runs of `insize` nodes once through the list, and counts the merges. */
  method OnePass<K>(list0: Node<K>, insize: nat, le: (K, K) -> bool, ghost nodes: seq<Node<K>>, ghost xs: seq<nat>)
    returns (list: Node<K>, tail: Node<K>, nmerges: nat, ghost out: seq<nat>)
    requires Distinct(nodes) && Order(nodes, xs) && |xs| > 0 && Ring(nodes, xs) && list0 == nodes[xs[0]] && insize > 0
    modifies nodes
    ensures Order(nodes, xs) && out == Pass(Keys(nodes), le, xs, insize)
    ensures Order(nodes, out) && Ring(nodes, out) && list == nodes[out[0]] && tail == nodes[out[|out| - 1]]
    ensures nmerges <= 1 <==> |xs| <= 2 * insize
  {
    hide Passing, Pass, Distinct, Order, Ring;
    var l: Node?<K>, t: Node?<K>, p: Node?<K> := null, null, list0;
    nmerges := 0;
    out := [];
    ghost var start := 0;
    Begin(nodes, xs, le, insize, list0);
    while p != null
      invariant start <= |xs| && (p == null <==> start == |xs|)
      invariant Passing(nodes, xs, out, start, le, insize, p, l, t)
      invariant start == 0 <==> nmerges == 0
      invariant nmerges == 1 ==> start == Min(2 * insize, |xs|)
      invariant nmerges > 1 ==> |xs| > 2 * insize
      decreases |xs| - start
    {
      nmerges := nmerges + 1;
      ghost var done;
      p, l, t, done := MergeNext(p, insize, list0, l, t, le, nodes, xs, out, start);
      out, start := out + done, Min(start + 2 * insize, |xs|);
      PassingFacts(nodes, xs, out, start, le, insize, p, l, t);
    }
    PassDone(nodes, xs, out, le, insize, l, t);
    list, tail := Close(l, t, nodes, xs, out);
  }

  lemma PassDone<K>(nodes: seq<Node<K>>, xs: seq<nat>, out: seq<nat>, le: (K, K) -> bool, k: nat, list: Node?<K>, tail: Node?<K>)
    requires Passing(nodes, xs, out, |xs|, le, k, null, list, tail)
    ensures out == Pass(Keys(nodes), le, xs, k)
    ensures |out| == |nodes| == |xs| && Merging(nodes, xs, out, |xs|, |xs|, |xs|, null, null, list, tail)
  {
    assert xs[|xs|..] == [];
    assert out + [] == out;
  }

  lemma Begin<K>(nodes: seq<Node<K>>, xs: seq<nat>, le: (K, K) -> bool, k: nat, p: Node<K>)
    requires Distinct(nodes) && Order(nodes, xs) && |xs| > 0 && Ring(nodes, xs) && p == nodes[xs[0]] && k > 0
    ensures Passing(nodes, xs, [], 0, le, k, p, null, null)
  {
    hide Pass;
    assert xs[0..] == xs && [] + Pass(Keys(nodes), le, xs, k) == Pass(Keys(nodes), le, xs, k);
  }

  /** `tail->next = list` */
  method Close<K>(l: Node?<K>, t: Node?<K>, ghost nodes: seq<Node<K>>, ghost xs: seq<nat>, ghost out: seq<nat>)
    returns (list: Node<K>, tail: Node<K>)
    requires |out| == |nodes| > 0 && Merging(nodes, xs, out, |xs|, |xs|, |xs|, null, null, l, t)
    modifies nodes
    ensures Order(nodes, out) && Ring(nodes, out) && list == nodes[out[0]] && tail == nodes[out[|out| - 1]]
  {
    list, tail := l, t;
    tail.next := list;
  }

  // ---- The sort ----

  /**
    Sorts a circular list given by its first node and returns the last one. The nodes are the
    same, sorted by key, and nodes with equal keys keep their order.
  */
  method Sort<K(!new)>(list0: Node?<K>, le: (K, K) -> bool, ghost nodes: seq<Node<K>>) returns (tail: Node?<K>, ghost out: seq<nat>)
    requires Distinct(nodes) && Preorder(le)
    requires if list0 == null then nodes == [] else nodes != [] && list0 == nodes[0] && Ring(nodes, Identity(|nodes|))
    modifies nodes
    ensures Order(nodes, out) && Ring(nodes, out)
    ensures tail == if nodes == [] then null else nodes[out[|out| - 1]]
    ensures forall i, j :: 0 <= i < j < |out| ==> le(nodes[out[i]].key, nodes[out[j]].key)
    ensures forall i, j :: 0 <= i < j < |out| && le(nodes[out[j]].key, nodes[out[i]].key) ==> out[i] < out[j]
  {
    if list0 == null {
      return null, [];
    }
    ghost var keys := Keys(nodes);
    ghost var xs := Identity(|nodes|);
    var list, insize := list0, 1;
    while true
      invariant insize > 0 && Order(nodes, xs) && Ring(nodes, xs) && list == nodes[xs[0]]
      invariant SortFrom(keys, le, xs, insize) == SortFrom(keys, le, Identity(|nodes|), 1)
      decreases |nodes| - insize
    {
      var t: Node<K>, nmerges;
      list, t, nmerges, xs := OnePass(list, insize, le, nodes, xs);
      if nmerges <= 1 {
        SortsStably(keys, le);
        return t, xs;
      }
      insize := insize * 2;
    }
  }
}
