/**
  Bottom-up merge sort on a circular list. The order of the list is a sequence of numbers:
  `i` stands for the node that was the `i`-th when sorting began.
*/
module MergeSort {
  /** `cmp(a, b) <= 0` of a comparison that is a total preorder. */
  ghost predicate Preorder<K(!new)>(le: (K, K) -> bool) {
    && (forall a, b :: le(a, b) || le(b, a))
    && (forall a, b, c :: le(a, b) && le(b, c) ==> le(a, c))
  }

  // ---- What the passes compute ----

  function Min(a: nat, b: nat): nat {
    if a < b then a else b
  }

  predicate Indices<K>(keys: seq<K>, xs: seq<nat>) {
    forall i :: 0 <= i < |xs| ==> xs[i] < |keys|
  }

  /** Takes from `a` unless the head of `b` is strictly smaller. */
  function Merge<K>(keys: seq<K>, le: (K, K) -> bool, a: seq<nat>, b: seq<nat>): (r: seq<nat>)
    requires Indices(keys, a) && Indices(keys, b)
    ensures |r| == |a| + |b| && Indices(keys, r)
    decreases |a| + |b|
  {
    if a == [] then b
    else if b == [] then a
    else if le(keys[a[0]], keys[b[0]]) then [a[0]] + Merge(keys, le, a[1..], b)
    else [b[0]] + Merge(keys, le, a, b[1..])
  }

  /** One pass: neighbouring runs of length `k` are merged. */
  function Pass<K>(keys: seq<K>, le: (K, K) -> bool, xs: seq<nat>, k: nat): (r: seq<nat>)
    requires Indices(keys, xs) && k > 0
    ensures |r| == |xs| && Indices(keys, r)
    decreases |xs|
  {
    if xs == [] then []
    else
      var i := Min(k, |xs|);
      var j := Min(2 * k, |xs|);
      Merge(keys, le, xs[..i], xs[i..j]) + Pass(keys, le, xs[j..], k)
  }

  /** Passes with doubling run length, until one merge is enough. */
  function SortFrom<K>(keys: seq<K>, le: (K, K) -> bool, xs: seq<nat>, k: nat): (r: seq<nat>)
    requires Indices(keys, xs) && k > 0
    ensures |r| == |xs| && Indices(keys, r)
    decreases |xs| - k
  {
    var ys := Pass(keys, le, xs, k);
    if |xs| <= 2 * k then ys else SortFrom(keys, le, ys, 2 * k)
  }

  // ---- No node is lost or doubled ----

  lemma {:induction false} MergePermutes<K>(keys: seq<K>, le: (K, K) -> bool, a: seq<nat>, b: seq<nat>)
    requires Indices(keys, a) && Indices(keys, b)
    ensures multiset(Merge(keys, le, a, b)) == multiset(a) + multiset(b)
    decreases |a| + |b|
  {
    if a != [] && b != [] {
      if le(keys[a[0]], keys[b[0]]) {
        MergePermutes(keys, le, a[1..], b);
        assert a == [a[0]] + a[1..];
      } else {
        MergePermutes(keys, le, a, b[1..]);
        assert b == [b[0]] + b[1..];
      }
    }
  }

  lemma {:induction false} PassPermutes<K>(keys: seq<K>, le: (K, K) -> bool, xs: seq<nat>, k: nat)
    requires Indices(keys, xs) && k > 0
    ensures multiset(Pass(keys, le, xs, k)) == multiset(xs)
    decreases |xs|
  {
    hide Merge;
    if xs != [] {
      var i, j := Min(k, |xs|), Min(2 * k, |xs|);
      var a, b, rest := xs[..i], xs[i..j], xs[j..];
      MergePermutes(keys, le, a, b);
      PassPermutes(keys, le, rest, k);
      assert xs == a + b + rest;
      assert multiset(xs) == multiset(a) + multiset(b) + multiset(rest);
    }
  }

  lemma {:induction false} SortPermutes<K>(keys: seq<K>, le: (K, K) -> bool, xs: seq<nat>, k: nat)
    requires Indices(keys, xs) && k > 0
    ensures multiset(SortFrom(keys, le, xs, k)) == multiset(xs)
    decreases |xs| - k
  {
    PassPermutes(keys, le, xs, k);
    if |xs| > 2 * k {
      SortPermutes(keys, le, Pass(keys, le, xs, k), 2 * k);
    }
  }

  // ---- Sorted and stable ----

  /** `x` comes before `y`: a smaller key, or an equal key and an earlier place at the start. */
  predicate Before<K>(keys: seq<K>, le: (K, K) -> bool, x: nat, y: nat)
    requires x < |keys| && y < |keys|
  {
    le(keys[x], keys[y]) && (le(keys[y], keys[x]) ==> x < y)
  }

  predicate Sorted<K>(keys: seq<K>, le: (K, K) -> bool, xs: seq<nat>)
    requires Indices(keys, xs)
  {
    forall i, j :: 0 <= i < j < |xs| ==> Before(keys, le, xs[i], xs[j])
  }

  lemma BeforeTrans<K(!new)>(keys: seq<K>, le: (K, K) -> bool, x: nat, y: nat, z: nat)
    requires Preorder(le) && x < |keys| && y < |keys| && z < |keys|
    requires Before(keys, le, x, y) && Before(keys, le, y, z)
    ensures Before(keys, le, x, z)
  {
    var a, b, c := keys[x], keys[y], keys[z];
    assert le(a, b) && le(b, c) ==> le(a, c);
    if le(c, a) {
      assert le(c, a) && le(a, b) ==> le(c, b);
      assert le(b, c) && le(c, a) ==> le(b, a);
    }
  }

  /** `x` comes before all of `xs`. */
  predicate Leads<K>(keys: seq<K>, le: (K, K) -> bool, x: nat, xs: seq<nat>)
    requires x < |keys| && Indices(keys, xs)
  {
    forall i :: 0 <= i < |xs| ==> Before(keys, le, x, xs[i])
  }

  lemma ConsSorted<K>(keys: seq<K>, le: (K, K) -> bool, x: nat, xs: seq<nat>)
    requires x < |keys| && Indices(keys, xs) && Sorted(keys, le, xs)
    requires Leads(keys, le, x, xs)
    ensures Indices(keys, [x] + xs) && Sorted(keys, le, [x] + xs)
  {
  }

  /** Merging two sorted runs, the first of which holds earlier nodes, is sorted and stable. */
  lemma {:induction false} MergeSorted<K(!new)>(keys: seq<K>, le: (K, K) -> bool, a: seq<nat>, b: seq<nat>)
    requires Preorder(le) && Indices(keys, a) && Indices(keys, b) && Sorted(keys, le, a) && Sorted(keys, le, b)
    requires forall i, j :: 0 <= i < |a| && 0 <= j < |b| ==> a[i] < b[j]
    ensures Sorted(keys, le, Merge(keys, le, a, b))
    decreases |a| + |b|
  {
    if a != [] && b != [] {
      if le(keys[a[0]], keys[b[0]]) {
        MergeSorted(keys, le, a[1..], b);
        assert a == [a[0]] + a[1..];
        HeadBefore(keys, le, a[0], a[1..], b);
        MergedAll(keys, le, a[1..], b, a[0]);
        ConsSorted(keys, le, a[0], Merge(keys, le, a[1..], b));
      } else {
        assert le(keys[b[0]], keys[a[0]]);
        MergeSorted(keys, le, a, b[1..]);
        assert b == [b[0]] + b[1..];
        HeadBefore(keys, le, b[0], b[1..], a);
        MergedAll(keys, le, a, b[1..], b[0]);
        ConsSorted(keys, le, b[0], Merge(keys, le, a, b[1..]));
      }
    }
  }

  /** What holds of both runs holds of the merged run. */
  lemma {:induction false} MergedAll<K>(keys: seq<K>, le: (K, K) -> bool, a: seq<nat>, b: seq<nat>, x: nat)
    requires Indices(keys, a) && Indices(keys, b) && x < |keys|
    requires Leads(keys, le, x, a) && Leads(keys, le, x, b)
    ensures Leads(keys, le, x, Merge(keys, le, a, b))
    decreases |a| + |b|
  {
    if a != [] && b != [] {
      if le(keys[a[0]], keys[b[0]]) {
        MergedAll(keys, le, a[1..], b, x);
        assert Merge(keys, le, a, b) == [a[0]] + Merge(keys, le, a[1..], b);
      } else {
        MergedAll(keys, le, a, b[1..], x);
        assert Merge(keys, le, a, b) == [b[0]] + Merge(keys, le, a, b[1..]);
      }
    }
  }

  /** The head of one run comes before its own tail and before the whole other run. */
  lemma HeadBefore<K(!new)>(keys: seq<K>, le: (K, K) -> bool, x: nat, rest: seq<nat>, other: seq<nat>)
    requires Preorder(le) && x < |keys| && Indices(keys, rest) && Indices(keys, other) && other != []
    requires Sorted(keys, le, [x] + rest) && Sorted(keys, le, other) && Before(keys, le, x, other[0])
    ensures Leads(keys, le, x, rest) && Leads(keys, le, x, other)
  {
    forall i | 0 <= i < |rest| ensures Before(keys, le, x, rest[i]) {
      assert ([x] + rest)[0] == x && ([x] + rest)[i + 1] == rest[i];
    }
    forall i | 0 < i < |other| ensures Before(keys, le, x, other[i]) {
      BeforeTrans(keys, le, x, other[0], other[i]);
    }
  }

  // ---- Blocks ----

  /** `b` is sorted and consists of nodes numbered from `base` on, without a gap. */
  predicate Block<K>(keys: seq<K>, le: (K, K) -> bool, b: seq<nat>, base: nat) {
    && Indices(keys, b) && Sorted(keys, le, b)
    && (forall i :: 0 <= i < |b| ==> base <= b[i] < base + |b|)
  }

  /** `xs` is a row of blocks of length `k`; the last one may be shorter. */
  predicate Blocks<K>(keys: seq<K>, le: (K, K) -> bool, xs: seq<nat>, base: nat, k: nat)
    requires k > 0
    decreases |xs|
  {
    xs == [] || (Block(keys, le, xs[..Min(k, |xs|)], base) && Blocks(keys, le, xs[Min(k, |xs|)..], base + k, k))
  }

  lemma MergeBlock<K(!new)>(keys: seq<K>, le: (K, K) -> bool, a: seq<nat>, b: seq<nat>, base: nat)
    requires Preorder(le) && Block(keys, le, a, base) && Block(keys, le, b, base + |a|)
    ensures Block(keys, le, Merge(keys, le, a, b), base)
  {
    MergeSorted(keys, le, a, b);
    var r := Merge(keys, le, a, b);
    MergedRange(keys, le, a, b, base, base + |r|);
  }

  lemma {:induction false} MergedRange<K>(keys: seq<K>, le: (K, K) -> bool, a: seq<nat>, b: seq<nat>, lo: nat, hi: nat)
    requires Indices(keys, a) && Indices(keys, b)
    requires (forall i :: 0 <= i < |a| ==> lo <= a[i] < hi) && (forall i :: 0 <= i < |b| ==> lo <= b[i] < hi)
    ensures var r := Merge(keys, le, a, b); forall i :: 0 <= i < |r| ==> lo <= r[i] < hi
    decreases |a| + |b|
  {
    if a != [] && b != [] {
      if le(keys[a[0]], keys[b[0]]) {
        MergedRange(keys, le, a[1..], b, lo, hi);
        assert Merge(keys, le, a, b) == [a[0]] + Merge(keys, le, a[1..], b);
      } else {
        MergedRange(keys, le, a, b[1..], lo, hi);
        assert Merge(keys, le, a, b) == [b[0]] + Merge(keys, le, a, b[1..]);
      }
    }
  }

  /** After the pass with run length `k`, every aligned block of `2 * k` nodes is sorted. */
  lemma {:induction false} PassBlocks<K(!new)>(keys: seq<K>, le: (K, K) -> bool, xs: seq<nat>, base: nat, k: nat)
    requires Preorder(le) && Indices(keys, xs) && k > 0 && Blocks(keys, le, xs, base, k)
    ensures Blocks(keys, le, Pass(keys, le, xs, k), base, 2 * k)
    decreases |xs|
  {
    hide Merge, Block;
    if xs != [] {
      var i, j := Min(k, |xs|), Min(2 * k, |xs|);
      var a, b, rest := xs[..i], xs[i..j], xs[j..];
      assert Block(keys, le, a, base);
      TwoBlocks(keys, le, xs, base, k);
      MergeBlock(keys, le, a, b, base);
      PassBlocks(keys, le, rest, base + 2 * k, k);
      var m, r := Merge(keys, le, a, b), Pass(keys, le, rest, k);
      assert (m + r)[..Min(2 * k, |m + r|)] == m && (m + r)[Min(2 * k, |m + r|)..] == r;
    }
  }

  lemma TwoBlocks<K>(keys: seq<K>, le: (K, K) -> bool, xs: seq<nat>, base: nat, k: nat)
    requires k > 0 && xs != [] && Blocks(keys, le, xs, base, k)
    ensures var i, j := Min(k, |xs|), Min(2 * k, |xs|);
      && Block(keys, le, xs[i..j], base + i)
      && Blocks(keys, le, xs[j..], base + 2 * k, k)
  {
    var i, j := Min(k, |xs|), Min(2 * k, |xs|);
    var tail := xs[i..];
    if tail != [] {
      assert tail[..Min(k, |tail|)] == xs[i..j] && tail[Min(k, |tail|)..] == xs[j..];
    }
  }

  lemma {:induction false} SortFromSorted<K(!new)>(keys: seq<K>, le: (K, K) -> bool, xs: seq<nat>, k: nat)
    requires Preorder(le) && Indices(keys, xs) && k > 0 && Blocks(keys, le, xs, 0, k)
    ensures Sorted(keys, le, SortFrom(keys, le, xs, k))
    decreases |xs| - k
  {
    PassBlocks(keys, le, xs, 0, k);
    var ys := Pass(keys, le, xs, k);
    if |xs| <= 2 * k {
      assert ys[..Min(2 * k, |ys|)] == ys;
    } else {
      SortFromSorted(keys, le, ys, 2 * k);
    }
  }

  /** The nodes in the order they came. */
  function Identity(n: nat): (r: seq<nat>)
    ensures |r| == n && forall i :: 0 <= i < n ==> r[i] == i
  {
    seq(n, i => i)
  }

  lemma {:induction false} SingleBlocks<K>(keys: seq<K>, le: (K, K) -> bool, xs: seq<nat>, base: nat)
    requires Indices(keys, xs) && forall i :: 0 <= i < |xs| ==> xs[i] == base + i
    ensures Blocks(keys, le, xs, base, 1)
    decreases |xs|
  {
    if xs != [] {
      SingleBlocks(keys, le, xs[1..], base + 1);
    }
  }

  /** The whole sort: a permutation, sorted by key, and equal keys keep their order. */
  lemma SortsStably<K(!new)>(keys: seq<K>, le: (K, K) -> bool)
    requires Preorder(le)
    ensures var r := SortFrom(keys, le, Identity(|keys|), 1);
      && multiset(r) == multiset(Identity(|keys|))
      && (forall i, j :: 0 <= i < j < |r| ==> le(keys[r[i]], keys[r[j]]) && (le(keys[r[j]], keys[r[i]]) ==> r[i] < r[j]))
  {
    var xs := Identity(|keys|);
    SingleBlocks(keys, le, xs, 0);
    SortFromSorted(keys, le, xs, 1);
    SortPermutes(keys, le, xs, 1);
    var r := SortFrom(keys, le, xs, 1);
    forall i, j | 0 <= i < j < |r| ensures Before(keys, le, r[i], r[j]) {
    }
  }
}
