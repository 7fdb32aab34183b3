/** Single bits of a word. */
module FlagBits {
  predicate Overlap(v: bv16, b: bv16) {
    v & b != 0
  }

  lemma Or(f: bv16, m: bv16, b: bv16)
    ensures Overlap(f | m, b) <==> Overlap(f, b) || Overlap(m, b)
  {
    OrIs(f, m, b);
    OrZero(f & b, m & b);
  }

  lemma OrIs(f: bv16, m: bv16, b: bv16)
    ensures (f | m) & b == (f & b) | (m & b)
  {
  }

  lemma OrZero(x: bv16, y: bv16)
    ensures x | y == 0 <==> x == 0 && y == 0
  {
  }

  lemma And(f: bv16, m: bv16, b: bv16)
    requires b & (b - 1) == 0
    ensures Overlap(f & m, b) <==> Overlap(f, b) && Overlap(m, b)
  {
    AndIs(f, m, b);
    NoneOrAll(f, b);
    NoneOrAll(m, b);
    AndCases(b);
  }

  lemma AndIs(f: bv16, m: bv16, b: bv16)
    ensures (f & m) & b == (f & b) & (m & b)
  {
  }

  lemma AndCases(b: bv16)
    ensures 0 & b == b & 0 == 0 & 0 == 0 && b & b == b
  {
  }

  lemma NoneOrAll(v: bv16, b: bv16)
    requires b & (b - 1) == 0
    ensures v & b == 0 || v & b == b
  {
  }

  lemma Minus(f: bv16, m: bv16, b: bv16)
    requires b & (b - 1) == 0
    ensures Overlap(f & !m, b) <==> Overlap(f, b) && !Overlap(m, b)
  {
    MinusIs(f, m, b);
    NoneOrAll(f, b);
    NoneOrAll(m, b);
    MinusCases(b);
  }

  lemma MinusIs(f: bv16, m: bv16, b: bv16)
    ensures (f & !m) & b == (f & b) & !(m & b)
  {
  }

  lemma MinusCases(b: bv16)
    ensures 0 & !b == 0 & !0 == b & !b == 0 && b & !0 == b
  {
  }
}

/** A word of thread flags as the set of its flags, and what the bit operations do to that set. */
module FlagSets {
  import opened FlagSpec
  import opened FlagBits

  /** A single flag. */
  function Bit(i: nat): bv16
    requires i < 16
  {
    1 << i
  }

  predicate Has(v: bv16, i: nat)
    requires i < 16
  {
    Overlap(v, Bit(i))
  }

  function SetOf(v: bv16): set<nat> {
    set i | 0 <= i < 16 && Has(v, i)
  }

  lemma Single(i: nat)
    requires i < 16
    ensures Bit(i) != 0 && Bit(i) & (Bit(i) - 1) == 0
  {
  }

  lemma OrOp(f: bv16, m: bv16, b: bv16)
    ensures Overlap(With(f, m), b) <==> Overlap(f, b) || Overlap(m, b)
  {
    hide Overlap;
    Or(f, m, b);
  }

  lemma AndOp(f: bv16, m: bv16, b: bv16)
    requires b & (b - 1) == 0
    ensures Overlap(Masked(f, m), b) <==> Overlap(f, b) && Overlap(m, b)
  {
    hide Overlap;
    And(f, m, b);
  }

  lemma MinusOp(f: bv16, m: bv16, b: bv16)
    requires b & (b - 1) == 0
    ensures Overlap(Without(f, m), b) <==> Overlap(f, b) && !Overlap(m, b)
  {
    hide Overlap;
    Minus(f, m, b);
  }

  lemma HasOps(f: bv16, m: bv16, i: nat)
    requires i < 16
    ensures Has(With(f, m), i) <==> Has(f, i) || Has(m, i)
    ensures Has(Masked(f, m), i) <==> Has(f, i) && Has(m, i)
    ensures Has(Without(f, m), i) <==> Has(f, i) && !Has(m, i)
  {
    hide Bit, With, Masked, Without, Overlap;
    Single(i);
    OrOp(f, m, Bit(i));
    AndOp(f, m, Bit(i));
    MinusOp(f, m, Bit(i));
  }

  /** Setting, masking and clearing flags are union, intersection and difference. */
  lemma SetOps(f: bv16, m: bv16)
    ensures SetOf(With(f, m)) == SetOf(f) + SetOf(m)
    ensures SetOf(Masked(f, m)) == SetOf(f) * SetOf(m)
    ensures SetOf(Without(f, m)) == SetOf(f) - SetOf(m)
  {
    hide Has, With, Masked, Without;
    forall i | 0 <= i < 16
      ensures Has(With(f, m), i) <==> Has(f, i) || Has(m, i)
      ensures Has(Masked(f, m), i) <==> Has(f, i) && Has(m, i)
      ensures Has(Without(f, m), i) <==> Has(f, i) && !Has(m, i)
    {
      HasOps(f, m, i);
    }
  }

  lemma NoFlags(v: bv16)
    ensures v == 0 <==> SetOf(v) == {}
  {
    hide Has;
    if v == 0 {
      forall i | 0 <= i < 16 ensures !Has(v, i) {
        ZeroHas(i);
      }
    } else if forall i :: 0 <= i < 16 ==> !Has(v, i) {
      AllClear(v);
    } else {
      var i :| 0 <= i < 16 && Has(v, i);
      assert i in SetOf(v);
    }
  }

  lemma ZeroHas(i: nat)
    requires i < 16
    ensures !Has(0, i)
  {
  }

  lemma AllClear(v: bv16)
    requires forall i :: 0 <= i < 16 ==> !Has(v, i)
    ensures v == 0
  {
    assert !Has(v, 0) && !Has(v, 1) && !Has(v, 2) && !Has(v, 3) && !Has(v, 4) && !Has(v, 5) && !Has(v, 6) && !Has(v, 7);
    assert v & 0xFF == 0;
    assert !Has(v, 8) && !Has(v, 9) && !Has(v, 10) && !Has(v, 11) && !Has(v, 12) && !Has(v, 13) && !Has(v, 14) && !Has(v, 15);
  }

  lemma SameFlags(v: bv16, w: bv16)
    requires SetOf(v) == SetOf(w)
    ensures v == w
  {
    hide SetOf, Without;
    SetOps(v, w);
    SetOps(w, v);
    NoFlags(Without(v, w));
    NoFlags(Without(w, v));
    NothingLeft(v, w);
  }

  lemma NothingLeft(v: bv16, w: bv16)
    requires Without(v, w) == 0 && Without(w, v) == 0
    ensures v == w
  {
  }

  /** The wait conditions: some masked flag is set, or all of them are. */
  lemma WaitOps(f: bv16, m: bv16)
    ensures Any(f, m) <==> SetOf(f) * SetOf(m) != {}
    ensures All(f, m) <==> SetOf(m) <= SetOf(f)
  {
    hide SetOf, Any, All, Masked;
    AnyMasked(f, m);
    AllIsMasked(f, m);
    SetOps(f, m);
    NoFlags(Masked(f, m));
    MaskedSet(f, m);
  }

  lemma AnyMasked(f: bv16, m: bv16)
    ensures Any(f, m) <==> Masked(f, m) != 0
  {
  }

  lemma AllIsMasked(f: bv16, m: bv16)
    ensures All(f, m) <==> Masked(f, m) == m
  {
  }

  lemma MaskedSet(f: bv16, m: bv16)
    ensures Masked(f, m) == m <==> SetOf(m) <= SetOf(f)
  {
    hide SetOf, Masked;
    SetOps(f, m);
    if SetOf(m) <= SetOf(f) {
      assert SetOf(f) * SetOf(m) == SetOf(m);
      SameFlags(Masked(f, m), m);
    }
  }

  /** The least element of a set of flags. */
  predicate IsLeast(i: nat, fs: set<nat>) {
    i in fs && forall j :: j in fs ==> i <= j
  }

  lemma BelowBit(i: nat, j: nat, v: bv16)
    requires j < i < 16 && v & (Bit(i) - 1) == 0
    ensures !Has(v, j)
  {
    BitBelow(i, j);
    Inside(v, Bit(i) - 1, Bit(j));
  }

  lemma BitBelow(i: nat, j: nat)
    requires j < i < 16
    ensures (Bit(i) - 1) & Bit(j) == Bit(j)
  {
  }

  lemma Inside(v: bv16, w: bv16, b: bv16)
    requires v & w == 0 && w & b == b
    ensures v & b == 0
  {
    assert v & b == v & (w & b) == (v & w) & b;
  }

  lemma OneBit(b: bv16, i: nat)
    requires i < 16 && b & (b - 1) == 0 && Has(b, i)
    ensures b == Bit(i)
  {
    Single(i);
    SameBit(b, Bit(i));
  }

  lemma SameBit(b: bv16, c: bv16)
    requires b & (b - 1) == 0 && c & (c - 1) == 0 && b & c != 0
    ensures b == c
  {
  }

  lemma BitSet(i: nat)
    requires i < 16
    ensures SetOf(Bit(i)) == {i}
  {
    forall j | 0 <= j < 16 ensures Has(Bit(i), j) <==> i == j {
      if Has(Bit(i), j) {
        Single(i);
        Single(j);
        SameBit(Bit(i), Bit(j));
        BitsApart(i, j);
      } else {
        Single(i);
      }
    }
  }

  lemma BitsApart(i: nat, j: nat)
    requires i < 16 && j < 16 && Bit(i) == Bit(j)
    ensures i == j
  {
  }

  /** The flag that `thread_flags_wait_one` picks is the lowest. */
  lemma LowestSet(b: bv16, v: bv16) returns (i: nat)
    requires IsLowestOf(b, v)
    ensures SetOf(b) == {i} && IsLeast(i, SetOf(v))
  {
    hide SetOf, Has, Bit;
    NoFlags(b);
    i :| i in SetOf(b);
    InSet(b, i);
    OneBit(b, i);
    BitSet(i);
    LeastBit(i, v);
  }

  lemma InSet(v: bv16, i: nat)
    ensures i in SetOf(v) <==> i < 16 && Has(v, i)
  {
    hide Has;
  }

  lemma LeastBit(i: nat, v: bv16)
    requires i < 16 && IsLowestOf(Bit(i), v)
    ensures IsLeast(i, SetOf(v))
  {
    hide Bit, SetOf;
    InSet(v, i);
    forall j | j in SetOf(v) ensures i <= j {
      InSet(v, j);
      if j < i {
        BelowBit(i, j, v);
      }
    }
  }
}
