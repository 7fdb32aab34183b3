/** The byte ring buffer refines a bounded queue. */
module RingBuffer {
  type Byte = b: nat | b < 256

  function Least(a: nat, b: nat): nat {
    if a < b then a else b
  }

  predicate InRange(size: nat, start: nat, avail: nat) {
    avail <= size && (start < size || start == 0)
  }

  /** The bytes of a ring in the order they will be read. */
  ghost function Window(mem: seq<Byte>, start: nat, avail: nat): (q: seq<Byte>)
    requires InRange(|mem|, start, avail)
    ensures |q| == avail
  {
    if start + avail <= |mem| then mem[start..start + avail] else mem[start..] + mem[..start + avail - |mem|]
  }

  function Wrapped(size: nat, pos: nat): nat {
    if pos >= size then pos - size else pos
  }

  lemma WindowDrop(mem: seq<Byte>, start: nat, avail: nat, n: nat)
    requires InRange(|mem|, start, avail) && n <= avail
    ensures InRange(|mem|, Wrapped(|mem|, start + n), avail - n)
    ensures Window(mem, Wrapped(|mem|, start + n), avail - n) == Window(mem, start, avail)[n..]
  {
  }

  lemma WindowAt(mem: seq<Byte>, start: nat, avail: nat, i: nat)
    requires InRange(|mem|, start, avail) && i < avail
    ensures Window(mem, start, avail)[i] == mem[Wrapped(|mem|, start + i)]
  {
  }

  class Ring {
    var buf: array<Byte>
    var start: nat
    var avail: nat

    predicate Valid()
      reads this
    {
      InRange(buf.Length, start, avail)
    }

    /** The bytes in the order they will be read. */
    ghost function Contents(): (q: seq<Byte>)
      requires Valid()
      reads this, buf
      ensures |q| == avail
    {
      Window(buf[..], start, avail)
    }

    constructor (buf: array<Byte>)
      ensures Valid() && this.buf == buf && Contents() == []
    {
      this.buf := buf;
      start := 0;
      avail := 0;
    }

    /** A second structure over the same memory. */
    constructor Copy(rb: Ring)
      requires rb.Valid()
      ensures Valid() && buf == rb.buf && start == rb.start && avail == rb.avail
    {
      buf := rb.buf;
      start := rb.start;
      avail := rb.avail;
    }

    method AddTail(c: Byte)
      requires Valid() && avail < buf.Length
      modifies this`avail, buf
      ensures Valid() && Contents() == old(Contents()) + [c]
    {
      var pos := start + avail;
      avail := avail + 1;
      if pos >= buf.Length {
        pos := pos - buf.Length;
      }
      buf[pos] := c;
    }

    method GetHead() returns (c: Byte)
      requires Valid() && avail > 0
      modifies this`start, this`avail
      ensures Valid() && c == old(Contents())[0] && Contents() == old(Contents())[1..]
    {
      c := buf[start];
      avail := avail - 1;
      if avail == 0 {
        start := 0;
      } else {
        start := start + 1;
        if start == buf.Length {
          start := 0;
        }
      }
    }

    /** Stores as much of `data` as fits. */
    method Add(data: seq<Byte>) returns (n: nat)
      requires Valid()
      modifies this`avail, buf
      ensures Valid() && n == Least(|data|, buf.Length - old(avail))
      ensures Contents() == old(Contents()) + data[..n]
    {
      n := 0;
      while n < |data|
        invariant Valid() && n <= |data| && avail == old(avail) + n
        invariant Contents() == old(Contents()) + data[..n]
      {
        if avail == buf.Length {
          break;
        }
        AddTail(data[n]);
        assert data[..n + 1] == data[..n] + [data[n]];
        n := n + 1;
      }
    }

    /** Stores one byte; if there is no room, exactly the oldest byte is dropped and returned. */
    method AddOne(c: Byte) returns (result: int)
      requires Valid() && buf.Length > 0
      modifies this`start, this`avail, buf
      ensures Valid()
      ensures if old(avail) == buf.Length
        then result == old(Contents())[0] && Contents() == old(Contents())[1..] + [c]
        else result == -1 && Contents() == old(Contents()) + [c]
    {
      result := -1;
      if avail == buf.Length {
        result := GetHead();
      }
      AddTail(c);
    }

    method GetOne() returns (result: int)
      requires Valid()
      modifies this`start, this`avail
      ensures Valid()
      ensures if old(avail) == 0 then result == -1 && Contents() == []
        else result == old(Contents())[0] && Contents() == old(Contents())[1..]
    {
      if avail > 0 {
        result := GetHead();
      } else {
        result := -1;
      }
    }

    /** `memcpy` from the ring's memory */
    method CopyOut(dst: array<Byte>, at: nat, from: nat, n: nat)
      requires at + n <= dst.Length && from + n <= buf.Length && dst != buf
      modifies dst
      ensures forall i :: 0 <= i < dst.Length ==> dst[i] == if at <= i < at + n then buf[from + (i - at)] else old(dst[i])
    {
      var k := 0;
      while k < n
        invariant k <= n
        invariant forall i :: 0 <= i < dst.Length ==> dst[i] == if at <= i < at + k then buf[from + (i - at)] else old(dst[i])
      {
        dst[at + k] := buf[from + k];
        k := k + 1;
      }
    }

    /** The one or two block copies; `next` is the place after them. */
    method CopyWindow(dst: array<Byte>, n: nat) returns (next: nat)
      requires Valid() && 0 < n <= avail && n <= dst.Length && dst != buf
      modifies dst
      ensures next == Wrapped(buf.Length, start + n)
      ensures forall i :: 0 <= i < dst.Length ==> dst[i] == if i < n then buf[Wrapped(buf.Length, start + i)] else old(dst[i])
    {
      var tillEnd := buf.Length - start;
      if tillEnd >= n {
        CopyOut(dst, 0, start, n);
        next := if tillEnd == n then 0 else start + n;
      } else {
        CopyOut(dst, 0, start, tillEnd);
        next := n - tillEnd;
        CopyOut(dst, tillEnd, 0, next);
      }
    }

    /** Two block copies read the same bytes as `n` single reads. */
    method Get(dst: array<Byte>, n0: nat) returns (n: nat)
      requires Valid() && n0 <= dst.Length && dst != buf
      modifies this`start, this`avail, dst
      ensures Valid() && n == Least(n0, old(avail))
      ensures dst[..n] == old(Contents())[..n] && dst[n..] == old(dst[n..]) && Contents() == old(Contents())[n..]
    {
      hide Window;
      n := Least(n0, avail);
      WindowDrop(buf[..], start, avail, n);
      forall i | 0 <= i < n ensures Contents()[i] == buf[Wrapped(buf.Length, start + i)] {
        WindowAt(buf[..], start, avail, i);
      }
      if n > 0 {
        start := CopyWindow(dst, n);
        avail := avail - n;
      }
    }

    /** `n` calls of `GetOne`. */
    method GetOneByOne(n: nat) returns (out: seq<Byte>)
      requires Valid() && n <= avail
      modifies this`start, this`avail
      ensures Valid() && out == old(Contents())[..n] && Contents() == old(Contents())[n..]
    {
      hide Window;
      out := [];
      ghost var q := Contents();
      var i := 0;
      while i < n
        invariant Valid() && i <= n && avail == |q| - i && out == q[..i] && Contents() == q[i..]
      {
        var c := GetOne();
        assert q[..i + 1] == q[..i] + [q[i]] && q[i..][1..] == q[i + 1..];
        out := out + [c];
        i := i + 1;
      }
    }

    method Remove(n0: nat) returns (n: nat)
      requires Valid()
      modifies this`start, this`avail
      ensures Valid() && n == Least(n0, old(avail)) && Contents() == old(Contents())[n..]
    {
      n := n0;
      WindowDrop(buf[..], start, avail, Least(n, avail));
      if n > avail {
        n := avail;
        start := 0;
        avail := 0;
      } else {
        start := start + n;
        avail := avail - n;
        if start >= buf.Length {
          start := start - buf.Length;
        }
      }
    }

    method PeekOne() returns (result: int)
      requires Valid()
      ensures result == if avail == 0 then -1 else Contents()[0]
    {
      var rb := new Ring.Copy(this);
      assert rb.Contents() == Contents();
      result := rb.GetOne();
    }

    method Peek(dst: array<Byte>, n0: nat) returns (n: nat)
      requires Valid() && n0 <= dst.Length && dst != buf
      modifies dst
      ensures Valid() && n == Least(n0, avail) && Contents() == old(Contents())
      ensures dst[..n] == Contents()[..n] && dst[n..] == old(dst[n..])
    {
      var rb := new Ring.Copy(this);
      assert rb.Contents() == Contents();
      n := rb.Get(dst, n0);
    }
  }
}
