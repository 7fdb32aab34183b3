/**
  The index arithmetic of message queues and mailboxes: free-running 32-bit counters over a
  buffer whose size is zero or a power of two, so that a bit mask gives the place in the
  buffer and the size divides the range of the counters.
*/
module Cib {
  const RANGE: nat := 0x1_0000_0000
  const SIGN: nat := 0x8000_0000

  /** An `unsigned int` read as an `int`. */
  function Signed(x: nat): int
    requires x < RANGE
  {
    if x < SIGN then x else x - RANGE
  }

  /** `size - 1`, which is the largest value for an empty buffer. */
  function MaskOf(size: nat): (m: nat)
    requires size <= SIGN
    ensures m < RANGE
  {
    if size == 0 then RANGE - 1 else size - 1
  }

  predicate FullTest(avail: nat, size: nat)
    requires avail <= size <= SIGN
  {
    Signed(avail) > Signed(MaskOf(size))
  }

  /** The signed comparison finds a full buffer, except one of 2^31 elements. */
  lemma FullTestExact(avail: nat, size: nat)
    requires avail <= size <= SIGN
    ensures (FullTest(avail, size) <==> avail == size) <==> !(avail == size == SIGN)
  {
  }

  // ---- Masks ----

  /** Bitwise and. */
  function And(x: nat, y: nat): nat {
    if x == 0 || y == 0 then 0 else (if x % 2 == 1 && y % 2 == 1 then 1 else 0) + 2 * And(x / 2, y / 2)
  }

  function Pow2(k: nat): (p: nat)
    ensures p > 0
  {
    if k == 0 then 1 else 2 * Pow2(k - 1)
  }

  /** The test of `cib_init`, in `unsigned int` arithmetic. */
  predicate SizeTest(size: nat) {
    And(size, (size + RANGE - 1) % RANGE) == 0
  }

  /** It passes exactly for zero and the powers of two. */
  lemma {:induction false} PowerTest(size: nat)
    requires size > 0
    ensures And(size, size - 1) == 0 <==> exists k :: size == Pow2(k)
  {
    if size == 1 {
      assert Pow2(0) == 1;
    } else if size % 2 == 0 {
      PowerTest(size / 2);
      assert (size - 1) / 2 == size / 2 - 1;
      HalfPower(size);
    } else {
      assert (size - 1) / 2 == size / 2;
      AndSame(size / 2);
      forall k ensures size != Pow2(k) {
      }
    }
  }

  lemma HalfPower(size: nat)
    requires size % 2 == 0 && size > 0
    ensures (exists k :: size == Pow2(k)) <==> exists k :: size / 2 == Pow2(k)
  {
    if k: nat :| size == Pow2(k) {
      assert k > 0 && size / 2 == Pow2(k - 1);
    }
    if k: nat :| size / 2 == Pow2(k) {
      assert size == Pow2(k + 1);
    }
  }

  lemma {:induction false} AndSame(x: nat)
    ensures And(x, x) == x
  {
    if x > 0 {
      AndSame(x / 2);
    }
  }

  /** Masking with one less than a power of two is the remainder. */
  lemma {:induction false} MaskIsRemainder(x: nat, k: nat)
    ensures And(x, Pow2(k) - 1) == x % Pow2(k)
  {
    hide And;
    if k > 0 {
      var p := Pow2(k - 1);
      MaskIsRemainder(x / 2, k - 1);
      OddMask(x, p);
      HalfRemainder(x, p);
    } else {
      NoMask(x);
    }
  }

  lemma NoMask(x: nat)
    ensures And(x, 0) == 0
  {
  }

  lemma OddMask(x: nat, p: nat)
    requires p > 0
    ensures And(x, 2 * p - 1) == x % 2 + 2 * And(x / 2, p - 1)
  {
    assert (2 * p - 1) / 2 == p - 1 && (2 * p - 1) % 2 == 1;
  }

  lemma HalfRemainder(x: nat, p: nat)
    requires p > 0
    ensures x % (2 * p) == x % 2 + 2 * (x / 2 % p)
  {
    var q, m := x / 2 / p, x / 2 % p;
    assert x / 2 == q * p + m;
    assert x == q * (2 * p) + (x % 2 + 2 * m);
    ModUnique(x, q, x % 2 + 2 * m, 2 * p);
  }

  lemma {:induction false} PowDivides(k: nat, n: nat)
    requires k <= n
    ensures Pow2(n) % Pow2(k) == 0
    decreases n - k
  {
    var p := Pow2(k);
    if k < n {
      PowDivides(k, n - 1);
      var d := Pow2(n - 1) / p;
      assert Pow2(n - 1) == d * p;
      assert Pow2(n) == (2 * d) * p;
      ModUnique(Pow2(n), 2 * d, 0, p);
    } else {
      ModUnique(p, 1, 0, p);
    }
  }

  lemma {:induction false} PowGrows(k: nat, n: nat)
    requires k < n
    ensures Pow2(k) < Pow2(n)
  {
    if k < n - 1 {
      PowGrows(k, n - 1);
    }
  }

  lemma RangeIsPower()
    ensures RANGE == Pow2(32)
  {
    assert Pow2(8) == 0x100;
    assert Pow2(16) == 0x1_0000;
    assert Pow2(24) == 0x100_0000;
  }

  /** What the size test gives for a size in range: the mask is a remainder, and the size divides the range. */
  lemma MaskedSlot(x: nat, size: nat)
    requires 0 < size <= SIGN && SizeTest(size)
    ensures And(x, MaskOf(size)) == x % size && RANGE % size == 0
  {
    PowerTest(size);
    assert (size + RANGE - 1) % RANGE == size - 1;
    var k :| size == Pow2(k);
    MaskIsRemainder(x, k);
    RangeIsPower();
    if k > 32 {
      PowGrows(32, k);
      assert false;
    }
    PowDivides(k, 32);
  }

  // ---- Slots ----

  /** The place of the `i`-th element after counter value `r`. */
  function Slot(r: nat, i: nat, size: nat): (s: nat)
    requires size > 0
    ensures s < size
  {
    (r + i) % size
  }

  lemma SmallMultiple(d: int, size: nat)
    requires size > 0 && 0 - size < d * size < size
    ensures d == 0
  {
    if d >= 1 {
      MulAtLeast(d, size);
    } else if d <= -1 {
      assert (0 - d) * size == 0 - d * size;
      MulAtLeast(0 - d, size);
    }
  }

  lemma {:induction false} MulAtLeast(d: nat, size: nat)
    requires d >= 1
    ensures d * size >= size
  {
    if d > 1 {
      MulAtLeast(d - 1, size);
      assert d * size == (d - 1) * size + size;
    }
  }

  lemma ModUnique(x: nat, q: int, m: nat, size: nat)
    requires size > 0 && x == q * size + m && m < size
    ensures x % size == m
  {
    var p, n := x / size, x % size;
    assert x == p * size + n;
    assert (q - p) * size == q * size - p * size;
    SmallMultiple(q - p, size);
  }

  lemma SlotsDiffer(r: nat, i: nat, j: nat, size: nat)
    requires i < j < size
    ensures Slot(r, i, size) != Slot(r, j, size)
  {
    var m, q := (r + i) % size, (r + i) / size;
    assert r + i == q * size + m;
    var n := m + (j - i);
    if n < size {
      ModUnique(r + j, q, n, size);
    } else {
      assert (q + 1) * size == q * size + size;
      ModUnique(r + j, q + 1, n - size, size);
    }
  }

  /** Wrapping the counter does not move the slots. */
  lemma SlotWraps(x: nat, size: nat)
    requires size > 0 && RANGE % size == 0
    ensures (x % RANGE) % size == x % size
  {
    var k, d := x / RANGE, RANGE / size;
    assert x == k * RANGE + x % RANGE && RANGE == d * size;
    assert x == (k * d) * size + x % RANGE;
    AddMultiple(x % RANGE, k * d, size);
  }

  lemma AddMultiple(a: nat, k: nat, size: nat)
    requires size > 0
    ensures (a + k * size) % size == a % size
  {
    var q, m := a / size, a % size;
    assert a == q * size + m;
    assert (q + k) * size == q * size + k * size;
    ModUnique(a + k * size, q + k, m, size);
  }

  lemma SlotNext(r: nat, i: nat, size: nat)
    requires size > 0 && RANGE % size == 0
    ensures Slot((r + 1) % RANGE, i, size) == Slot(r, i + 1, size)
  {
    var k := (r + 1) / RANGE;
    var d := RANGE / size;
    assert r + 1 == k * RANGE + (r + 1) % RANGE && RANGE == d * size;
    assert r + i + 1 == ((r + 1) % RANGE + i) + (k * d) * size;
    AddMultiple((r + 1) % RANGE + i, k * d, size);
  }

  class Queue<T> {
    const buf: array<T>
    var readCount: nat
    var writeCount: nat

    ghost predicate Valid()
      reads this
    {
      readCount < RANGE && writeCount < RANGE && Avail() <= buf.Length <= SIGN && SizeTest(buf.Length)
    }

    /** `write_count - read_count`, modulo the range of the counters. */
    function Avail(): nat
      reads this
    {
      (writeCount + RANGE - readCount % RANGE) % RANGE
    }

    ghost function Contents(): (q: seq<T>)
      requires Valid()
      reads this, buf
      ensures |q| == Avail()
    {
      if buf.Length == 0 then []
      else seq(Avail(), i requires 0 <= i < Avail() reads this, buf => buf[Slot(readCount, i, buf.Length)])
    }

    /** `cib_init`, which asserts the size test. */
    constructor (buf: array<T>)
      requires buf.Length <= SIGN && SizeTest(buf.Length)
      ensures Valid() && this.buf == buf && Contents() == []
    {
      this.buf := buf;
      readCount := 0;
      writeCount := 0;
    }

    /**
      `cib_put` and the store into the slot it returns. A buffer of 2^31 elements, which is
      still allowed, is not found full: the newest element then overwrites the oldest, and one
      more element than the buffer holds is counted.
    */
    method Put(x: T) returns (n: int)
      requires Valid()
      modifies this`writeCount, buf
      ensures |old(Contents())| < buf.Length ==>
        Valid() && n == Slot(readCount, |old(Contents())|, buf.Length) && Contents() == old(Contents()) + [x]
      ensures |old(Contents())| == buf.Length < SIGN ==> Valid() && n == -1 && Contents() == old(Contents())
      ensures |old(Contents())| == buf.Length == SIGN ==>
        !Valid() && Avail() == SIGN + 1 && n == Slot(readCount, 0, SIGN) && buf[n] == x
    {
      hide And, Slot;
      ghost var q := Contents();
      var avail := Avail();
      FullTestExact(avail, buf.Length);
      if Signed(avail) <= Signed(MaskOf(buf.Length)) {
        MaskedSlot(writeCount, buf.Length);
        WriteSlot(readCount, writeCount, avail, buf.Length);
        n := And(writeCount, MaskOf(buf.Length));
        writeCount := (writeCount + 1) % RANGE;
        buf[n] := x;
        if avail < buf.Length {
          Appended(q, x, avail);
        }
      } else {
        n := -1;
      }
    }

    /**
      A receiver takes the oldest element and stores another in its place, as `_msg_receive`
      does for a waiting sender: there always is a slot, and it is the one just freed exactly
      if the buffer was full.
    */
    method Refill(x: T) returns (first: T, n: int)
      requires Valid() && Contents() != []
      modifies this, buf
      ensures Valid() && first == old(Contents())[0] && Contents() == old(Contents())[1..] + [x]
      ensures 0 <= n < buf.Length && (n == Slot(old(readCount), 0, buf.Length) <==> |old(Contents())| == buf.Length)
    {
      hide And, SizeTest, Slot;
      ghost var r, q := readCount, Contents();
      var i := Get();
      first := buf[i];
      n := Put(x);
      SameSlot(r, |q|, buf.Length);
    }

    lemma Appended(q: seq<T>, x: T, avail: nat)
      requires Valid() && |q| == avail && Avail() == avail + 1 && avail < buf.Length
      requires buf[Slot(readCount, avail, buf.Length)] == x
      requires forall i :: 0 <= i < avail && Slot(readCount, i, buf.Length) != Slot(readCount, avail, buf.Length) ==>
        buf[Slot(readCount, i, buf.Length)] == q[i]
      ensures Contents() == q + [x]
    {
      forall i | 0 <= i < avail ensures Contents()[i] == q[i] {
        SlotsDiffer(readCount, i, avail, buf.Length);
      }
    }

    /** `cib_get`: the slot of the oldest element. */
    method Get() returns (n: int)
      requires Valid()
      modifies this`readCount
      ensures Valid()
      ensures if old(Contents()) == [] then n == -1 && Contents() == []
        else
          && buf.Length > 0 && n == Slot(old(readCount), 0, buf.Length) && readCount == (old(readCount) + 1) % RANGE
          && buf[n] == old(Contents())[0] && Contents() == old(Contents())[1..]
    {
      hide And;
      ghost var q := Contents();
      var avail := Avail();
      if avail > 0 {
        MaskedSlot(readCount, buf.Length);
        n := And(readCount, MaskOf(buf.Length));
        ReadNext(readCount, writeCount, avail);
        ghost var r := readCount;
        readCount := (readCount + 1) % RANGE;
        forall i | 0 <= i < avail - 1 ensures Slot(readCount, i, buf.Length) == Slot(r, i + 1, buf.Length) {
          SlotNext(r, i, buf.Length);
        }
        assert Contents() == q[1..];
      } else {
        n := -1;
      }
    }
  }

  /** The slot after `avail` elements is the first one again exactly if they fill the buffer. */
  lemma SameSlot(r: nat, avail: nat, size: nat)
    requires 0 < avail <= size <= SIGN && SizeTest(size)
    ensures Slot((r + 1) % RANGE, avail - 1, size) == Slot(r, 0, size) <==> avail == size
  {
    hide And, SizeTest;
    MaskedSlot(r, size);
    SlotNext(r, avail - 1, size);
    if avail < size {
      SlotsDiffer(r, 0, avail, size);
    } else {
      AddMultiple(r, 1, size);
    }
  }

  lemma WriteSlot(r: nat, w: nat, avail: nat, size: nat)
    requires r < RANGE && w < RANGE && avail == (w + RANGE - r % RANGE) % RANGE && avail <= size <= SIGN && 0 < size && RANGE % size == 0
    ensures w % size == Slot(r, avail, size)
    ensures avail == size ==> Slot(r, avail, size) == Slot(r, 0, size)
    ensures ((w + 1) % RANGE + RANGE - r % RANGE) % RANGE == avail + 1
  {
    hide Slot;
    WriteCount(r, w, avail);
    SlotWraps(r + avail, size);
    SlotIs(r, avail, size);
    SlotIs(r, 0, size);
    AddMultiple(r, 1, size);
  }

  lemma SlotIs(r: nat, i: nat, size: nat)
    requires size > 0
    ensures Slot(r, i, size) == (r + i) % size
  {
  }

  lemma WriteCount(r: nat, w: nat, avail: nat)
    requires r < RANGE && w < RANGE && avail == (w + RANGE - r % RANGE) % RANGE && avail <= SIGN
    ensures w == (r + avail) % RANGE
    ensures ((w + 1) % RANGE + RANGE - r % RANGE) % RANGE == avail + 1
  {
  }

  lemma ReadNext(r: nat, w: nat, avail: nat)
    requires r < RANGE && w < RANGE && avail == (w + RANGE - r % RANGE) % RANGE && 0 < avail <= SIGN
    ensures var r' := (r + 1) % RANGE; (w + RANGE - r' % RANGE) % RANGE == avail - 1
  {
  }
}
