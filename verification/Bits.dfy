/**
  The bit cache of the run queues, and the searches for its highest and lowest bit. A cache
  word stands for the set of non-empty run queues, with queue `p` at bit `p` or, where the
  CPU counts leading zeros, at bit `31 - p`.
*/
module Bits {
  function Bit(p: nat): bv32
    requires p < 32
  {
    1 << p
  }

  predicate Overlap(v: bv32, b: bv32) {
    v & b != 0
  }

  predicate Has(v: bv32, p: nat)
    requires p < 32
  {
    Overlap(v, Bit(p))
  }

  function BitsOf(v: bv32): set<nat> {
    set p | 0 <= p < 32 && Has(v, p)
  }

  /** The run queue of priority `p` is at bit `31 - p`. */
  predicate ClzHas(v: bv32, p: nat)
    requires p < 32
  {
    Has(v, 31 - p)
  }

  function ClzBitsOf(v: bv32): set<nat> {
    set p | 0 <= p < 32 && ClzHas(v, p)
  }

  // ---- Single bits ----

  lemma BitsApart(p: nat, q: nat)
    requires p < 32 && q < 32 && p != q
    ensures !Overlap(Bit(p), Bit(q))
  {
  }

  lemma FromTop(p: nat)
    requires p < 32
    ensures 0x8000_0000 >> p == Bit(31 - p)
  {
  }

  function With(v: bv32, b: bv32): bv32 {
    v | b
  }

  function Without(v: bv32, b: bv32): bv32 {
    v & !b
  }

  lemma OwnSet(v: bv32, p: nat)
    requires p < 32
    ensures Has(With(v, Bit(p)), p)
  {
  }

  lemma OwnCleared(v: bv32, p: nat)
    requires p < 32
    ensures !Has(Without(v, Bit(p)), p)
  {
  }

  lemma WithApart(v: bv32, b: bv32, c: bv32)
    requires !Overlap(b, c)
    ensures Overlap(With(v, b), c) <==> Overlap(v, c)
  {
  }

  lemma WithoutApart(v: bv32, b: bv32, c: bv32)
    requires !Overlap(b, c)
    ensures Overlap(Without(v, b), c) <==> Overlap(v, c)
  {
  }

  lemma Other(v: bv32, p: nat, q: nat)
    requires p < 32 && q < 32 && p != q
    ensures Has(With(v, Bit(p)), q) <==> Has(v, q)
    ensures Has(Without(v, Bit(p)), q) <==> Has(v, q)
  {
    hide Bit, With, Without, Overlap;
    BitsApart(p, q);
    WithApart(v, Bit(p), Bit(q));
    WithoutApart(v, Bit(p), Bit(q));
  }

  lemma SetOther(v: bv32, p: nat, q: nat)
    requires p < 32 && q < 32
    ensures Has(With(v, Bit(p)), q) <==> p == q || Has(v, q)
    ensures Has(Without(v, Bit(p)), q) <==> p != q && Has(v, q)
  {
    hide Bit, Has, With, Without;
    if p == q {
      OwnSet(v, p);
      OwnCleared(v, p);
    } else {
      Other(v, p, q);
    }
  }

  /** Setting and clearing a bit adds and removes the queue. */
  lemma SetBit(v: bv32, p: nat)
    requires p < 32
    ensures BitsOf(With(v, Bit(p))) == BitsOf(v) + {p}
    ensures BitsOf(Without(v, Bit(p))) == BitsOf(v) - {p}
  {
    hide Has, Bit, With, Without;
    forall q | 0 <= q < 32
      ensures Has(With(v, Bit(p)), q) <==> p == q || Has(v, q)
      ensures Has(Without(v, Bit(p)), q) <==> p != q && Has(v, q)
    {
      SetOther(v, p, q);
    }
  }

  lemma SetClzBit(v: bv32, p: nat)
    requires p < 32
    ensures ClzBitsOf(With(v, 0x8000_0000 >> p)) == ClzBitsOf(v) + {p}
    ensures ClzBitsOf(Without(v, 0x8000_0000 >> p)) == ClzBitsOf(v) - {p}
  {
    hide Has, Bit, With, Without;
    FromTop(p);
    forall q | 0 <= q < 32
      ensures ClzHas(With(v, Bit(31 - p)), q) <==> p == q || ClzHas(v, q)
      ensures ClzHas(Without(v, Bit(31 - p)), q) <==> p != q && ClzHas(v, q)
    {
      SetOther(v, 31 - p, 31 - q);
    }
  }

  // ---- Zero ----

  lemma AllClear(v: bv32)
    requires forall q :: 0 <= q < 32 ==> !Has(v, q)
    ensures v == 0
  {
    assert !Has(v, 0) && !Has(v, 1) && !Has(v, 2) && !Has(v, 3) && !Has(v, 4) && !Has(v, 5) && !Has(v, 6) && !Has(v, 7);
    assert v & 0xFF == 0;
    assert !Has(v, 8) && !Has(v, 9) && !Has(v, 10) && !Has(v, 11) && !Has(v, 12) && !Has(v, 13) && !Has(v, 14) && !Has(v, 15);
    assert v & 0xFFFF == 0;
    assert !Has(v, 16) && !Has(v, 17) && !Has(v, 18) && !Has(v, 19) && !Has(v, 20) && !Has(v, 21) && !Has(v, 22) && !Has(v, 23);
    assert v & 0xFF_FFFF == 0;
    assert !Has(v, 24) && !Has(v, 25) && !Has(v, 26) && !Has(v, 27) && !Has(v, 28) && !Has(v, 29) && !Has(v, 30) && !Has(v, 31);
  }

  lemma ZeroHas(p: nat)
    requires p < 32
    ensures !Has(0, p)
  {
  }

  /** `runqueue_bitcache` is zero exactly if no queue has a thread. */
  lemma NoBits(v: bv32)
    ensures v == 0 <==> BitsOf(v) == {}
    ensures v == 0 <==> ClzBitsOf(v) == {}
  {
    hide Has, Bit;
    if v == 0 {
      forall p | 0 <= p < 32 ensures !Has(v, p) {
        ZeroHas(p);
      }
    } else {
      if forall p :: 0 <= p < 32 ==> !Has(v, p) {
        AllClear(v);
      }
      var p :| 0 <= p < 32 && Has(v, p);
      assert p in BitsOf(v);
      assert ClzHas(v, 31 - p) && 31 - p in ClzBitsOf(v);
    }
  }

  // ---- Both orders ----

  /** The run queues a cache word stands for. */
  function QueuesOf(v: bv32, clz: bool): set<nat> {
    if clz then ClzBitsOf(v) else BitsOf(v)
  }

  function QueueBit(p: nat, clz: bool): bv32
    requires p < 32
  {
    if clz then 0x8000_0000 >> p else Bit(p)
  }

  /** `_set_runqueue_bit` and `_clear_runqueue_bit` add and remove one queue. */
  lemma SetQueue(v: bv32, p: nat, clz: bool)
    requires p < 32
    ensures QueuesOf(With(v, QueueBit(p, clz)), clz) == QueuesOf(v, clz) + {p}
    ensures QueuesOf(Without(v, QueueBit(p, clz)), clz) == QueuesOf(v, clz) - {p}
  {
    hide ClzBitsOf, BitsOf, Bit, With, Without;
    if clz {
      SetClzBit(v, p);
    } else {
      SetBit(v, p);
    }
  }

  lemma NoQueues(v: bv32, clz: bool)
    ensures v == 0 <==> QueuesOf(v, clz) == {}
  {
    hide ClzBitsOf, BitsOf;
    NoBits(v);
  }

  // ---- Shifting ----

  lemma DoubleBit(p: nat)
    requires p < 31
    ensures Bit(p) << 1 == Bit(p + 1)
  {
  }

  /** Shifting right by `k` moves every bit down by `k`. */
  lemma Shift1(v: bv32, p: nat)
    requires p < 31
    ensures Has(v >> 1, p) <==> Has(v, p + 1)
  {
    DoubleBit(p);
  }

  lemma Halves(v: bv32)
    ensures (v >> 1) >> 1 == v >> 2 && (v >> 2) >> 2 == v >> 4 && (v >> 4) >> 4 == v >> 8 && (v >> 8) >> 8 == v >> 16
  {
  }

  lemma Shift2(v: bv32, p: nat)
    requires p < 30
    ensures Has(v >> 2, p) <==> Has(v, p + 2)
  {
    hide Has;
    Halves(v);
    Shift1(v >> 1, p);
    Shift1(v, p + 1);
  }

  lemma Shift4(v: bv32, p: nat)
    requires p < 28
    ensures Has(v >> 4, p) <==> Has(v, p + 4)
  {
    hide Has;
    Halves(v);
    Shift2(v >> 2, p);
    Shift2(v, p + 2);
  }

  lemma Shift8(v: bv32, p: nat)
    requires p < 24
    ensures Has(v >> 8, p) <==> Has(v, p + 8)
  {
    hide Has;
    Halves(v);
    Shift4(v >> 4, p);
    Shift4(v, p + 4);
  }

  lemma Shift16(v: bv32, p: nat)
    requires p < 16
    ensures Has(v >> 16, p) <==> Has(v, p + 16)
  {
    hide Has;
    Halves(v);
    Shift8(v >> 8, p);
    Shift8(v, p + 8);
  }

  // ---- bitarithm_msb without a leading-zero instruction ----

  /** `r` is the highest bit of `v`. */
  predicate IsTop(v: bv32, r: nat) {
    r < 32 && Has(v, r) && forall q :: r < q < 32 ==> !Has(v, q)
  }

  /** The highest bit of `v` is `k` above that of `v >> k`. */
  lemma ShiftTop(v: bv32, w: bv32, k: nat, r: nat)
    requires k < 32 && IsTop(w, r) && r + k < 32
    requires forall q :: 0 <= q < 32 - k ==> (Has(w, q) <==> Has(v, q + k))
    ensures IsTop(v, r + k)
  {
    hide Has;
    forall q | r + k < q < 32 ensures !Has(v, q) {
      assert Has(w, q - k) <==> Has(v, (q - k) + k);
    }
  }

  lemma ShiftsTop(v: bv32, r: nat)
    ensures r + 2 < 32 && IsTop(v >> 2, r) ==> IsTop(v, r + 2)
    ensures r + 4 < 32 && IsTop(v >> 4, r) ==> IsTop(v, r + 4)
    ensures r + 8 < 32 && IsTop(v >> 8, r) ==> IsTop(v, r + 8)
    ensures r + 16 < 32 && IsTop(v >> 16, r) ==> IsTop(v, r + 16)
  {
    hide Has;
    var w2 := v >> 2;
    forall q | 0 <= q < 30 ensures Has(w2, q) <==> Has(v, q + 2) {
      Shift2(v, q);
    }
    var w4 := v >> 4;
    forall q | 0 <= q < 28 ensures Has(w4, q) <==> Has(v, q + 4) {
      Shift4(v, q);
    }
    var w8 := v >> 8;
    forall q | 0 <= q < 24 ensures Has(w8, q) <==> Has(v, q + 8) {
      Shift8(v, q);
    }
    var w16 := v >> 16;
    forall q | 0 <= q < 16 ensures Has(w16, q) <==> Has(v, q + 16) {
      Shift16(v, q);
    }
    if r + 2 < 32 && IsTop(v >> 2, r) {
      ShiftTop(v, w2, 2, r);
    }
    if r + 4 < 32 && IsTop(v >> 4, r) {
      ShiftTop(v, w4, 4, r);
    }
    if r + 8 < 32 && IsTop(v >> 8, r) {
      ShiftTop(v, w8, 8, r);
    }
    if r + 16 < 32 && IsTop(v >> 16, r) {
      ShiftTop(v, w16, 16, r);
    }
  }

  lemma LastTwo(q: nat)
    requires 2 <= q < 32
    ensures !Has(1, q) && !Has(2, q) && !Has(3, q)
  {
  }

  lemma FirstTwo()
    ensures Has(1, 0) && !Has(1, 1) && Has(2, 1) && Has(3, 1)
  {
  }

  lemma EndTop(v: bv32)
    requires 0 < v < 4
    ensures IsTop(v, if v < 2 then 0 else 1)
  {
    hide Has;
    FirstTwo();
    Values(v);
    forall q | 2 <= q < 32 ensures !Has(v, q) {
      LastTwo(q);
    }
  }

  lemma Values(v: bv32)
    requires 0 < v < 4
    ensures v == 1 || v == 2 || v == 3
    ensures v < 2 <==> v == 1
  {
  }

  lemma Narrow(v: bv32)
    ensures v > 0xFFFF ==> v >> 16 != 0
    ensures v >> 16 <= 0xFFFF
    ensures 0xFF < v <= 0xFFFF ==> 0 < v >> 8 <= 0xFF
    ensures 0xF < v <= 0xFF ==> 0 < v >> 4 <= 0xF
    ensures 3 < v <= 0xF ==> 0 < v >> 2 <= 3
  {
  }

  /**
    `bitarith_msb_32bit_no_native_clz`: the index of the highest set bit. The shift amounts
    are single bits, so that combining them with `|` adds them.
  */
  method Msb(v0: bv32) returns (r: nat)
    ensures v0 != 0 ==> IsTop(v0, r)
    ensures v0 == 0 ==> r == 0
  {
    hide IsTop;
    var v1, r1 := v0, 0;
    if v0 > 0xFFFF { v1 := v0 >> 16; r1 := 16; }
    var v2, r2 := v1, 0;
    if v1 > 0xFF { v2 := v1 >> 8; r2 := 8; }
    var v3, r3 := v2, 0;
    if v2 > 0xF { v3 := v2 >> 4; r3 := 4; }
    var v4, r4 := v3, 0;
    if v3 > 0x3 { v4 := v3 >> 2; r4 := 2; }
    var r5 := if v4 < 2 then 0 else 1;
    r := r1 + r2 + r3 + r4 + r5;
    Narrow(v0);
    Narrow(v1);
    Narrow(v2);
    Narrow(v3);
    if v0 != 0 {
      EndTop(v4);
      ShiftsTop(v3, r5);
      ShiftsTop(v2, r4 + r5);
      ShiftsTop(v1, r3 + r4 + r5);
      ShiftsTop(v0, r2 + r3 + r4 + r5);
    }
  }

  // ---- bitarithm_lsb ----

  predicate IsLowest(v: bv32, r: nat) {
    r < 32 && Has(v, r) && forall q :: 0 <= q < r ==> !Has(v, q)
  }

  lemma OddHas(v: bv32)
    ensures v & 1 != 0 <==> Has(v, 0)
  {
  }

  /** Every non-zero word has a lowest bit. */
  lemma {:induction false} LowestExists(v: bv32, p: nat) returns (r: nat)
    requires v != 0 && p <= 32 && forall q :: 0 <= q < p ==> !Has(v, q)
    ensures IsLowest(v, r)
    decreases 32 - p
  {
    hide Has;
    if p == 32 {
      AllClear(v);
      assert false;
    } else if Has(v, p) {
      r := p;
    } else {
      r := LowestExists(v, p + 1);
    }
  }

  lemma NextShift(v: bv32, w: bv32, v0: bv32, r: nat)
    requires r < 31 && w == v >> 1 && forall q :: 0 <= q < 32 - r ==> (Has(v, q) <==> Has(v0, q + r))
    ensures forall q :: 0 <= q < 32 - (r + 1) ==> (Has(w, q) <==> Has(v0, q + (r + 1)))
  {
    hide Has;
    forall q | 0 <= q < 32 - (r + 1) ensures Has(w, q) <==> Has(v0, q + (r + 1)) {
      Shift1(v, q);
      assert Has(v, q + 1) <==> Has(v0, (q + 1) + r);
    }
  }

  /** The loop for processors without a builtin. */
  method Lsb(v0: bv32) returns (r: nat)
    requires v0 != 0
    ensures IsLowest(v0, r)
  {
    hide Has;
    ghost var low := LowestExists(v0, 0);
    var v := v0;
    r := 0;
    while v & 1 == 0
      invariant r <= low
      invariant forall q :: 0 <= q < 32 - r ==> (Has(v, q) <==> Has(v0, q + r))
      decreases low - r
    {
      OddHas(v);
      assert Has(v, 0) <==> Has(v0, 0 + r);
      NextShift(v, v >> 1, v0, r);
      v := v >> 1;
      r := r + 1;
    }
    OddHas(v);
    assert Has(v, 0) <==> Has(v0, 0 + r);
  }

  // ---- Choosing the run queue ----

  /** The lowest-numbered member. */
  predicate IsLeast(s: set<nat>, p: nat) {
    p in s && forall q :: q in s ==> p <= q
  }

  /** `_get_prio_queue_from_runqueue` in both bit orders. */
  method NextRunqueue(cache: bv32, clz: bool) returns (p: nat)
    requires cache != 0
    ensures IsLeast(QueuesOf(cache, clz), p)
  {
    hide Has;
    if clz {
      var r := Msb(cache);
      p := 31 - r;
      assert ClzHas(cache, p);
      forall q | q in ClzBitsOf(cache) ensures p <= q {
        assert Has(cache, 31 - q);
      }
    } else {
      p := Lsb(cache);
    }
  }
}
