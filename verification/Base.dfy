/** Types and sequence facts shared by the modules of the project. */
module Wrappers {
  datatype Option<+T> = None | Some(value: T)
}

/** Sequences used as queues: no element twice, removal and insertion at an index. */
module Queues {

  ghost predicate NoDup<T>(q: seq<T>) {
    forall i, j :: 0 <= i < j < |q| ==> q[i] != q[j]
  }

  function RemoveAt<T>(q: seq<T>, i: nat): (r: seq<T>)
    requires i < |q|
    ensures |r| == |q| - 1
  {
    q[..i] + q[i + 1..]
  }

  function InsertAt<T>(q: seq<T>, i: nat, x: T): (r: seq<T>)
    requires i <= |q|
    ensures |r| == |q| + 1
  {
    q[..i] + [x] + q[i..]
  }

  lemma RemoveAtElements<T>(q: seq<T>, i: nat)
    requires i < |q| && NoDup(q)
    ensures NoDup(RemoveAt(q, i))
    ensures forall x :: x in RemoveAt(q, i) <==> x in q && x != q[i]
  {
    var r := RemoveAt(q, i);
    forall x | x in q && x != q[i]
      ensures x in r
    {
      var j :| 0 <= j < |q| && q[j] == x;
      assert r[if j < i then j else j - 1] == x;
    }
  }

  lemma InsertAtElements<T>(q: seq<T>, i: nat, x: T)
    requires i <= |q| && NoDup(q) && x !in q
    ensures NoDup(InsertAt(q, i, x))
    ensures forall y :: y in InsertAt(q, i, x) <==> y in q || y == x
  {
    var r := InsertAt(q, i, x);
    assert r[i] == x;
    forall y | y in q
      ensures y in r
    {
      var j :| 0 <= j < |q| && q[j] == y;
      assert r[if j < i then j else j + 1] == y;
    }
  }
}
