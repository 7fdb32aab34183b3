/**
  The start-up code of a position-independent partition: it copies `.rom.ram`, clears `.ram`,
  and relocates the global offset table and the patched pointers. Memory is the whole 32-bit
  address space, byte by byte; words are little-endian.
*/
module Crt0 {
  import opened Wrappers

  type Byte = b: nat | b < 256

  const SPACE: nat := 0x1_0000_0000

  // ---- Words in memory ----

  function Word(b0: nat, b1: nat, b2: nat, b3: nat): nat {
    b0 + 0x100 * b1 + 0x1_0000 * b2 + 0x100_0000 * b3
  }

  function Load(m: seq<Byte>, a: nat): (w: nat)
    requires a + 4 <= |m|
    ensures w < SPACE
  {
    Word(m[a], m[a + 1], m[a + 2], m[a + 3])
  }

  function ByteOf(w: nat, i: nat): Byte
    requires w < SPACE && i < 4
  {
    if i == 0 then w % 0x100
    else if i == 1 then w / 0x100 % 0x100
    else if i == 2 then w / 0x1_0000 % 0x100
    else w / 0x100_0000
  }

  lemma BytesOfWord(w: nat)
    requires w < SPACE
    ensures Word(ByteOf(w, 0), ByteOf(w, 1), ByteOf(w, 2), ByteOf(w, 3)) == w
  {
    var w1, w2, w3 := w / 0x100, w / 0x1_0000, w / 0x100_0000;
    assert w1 / 0x100 == w2 && w2 / 0x100 == w3;
    assert w == 0x100 * w1 + w % 0x100 && w1 == 0x100 * w2 + w1 % 0x100 && w2 == 0x100 * w3 + w2 % 0x100;
  }

  /** `m` with the word `w` stored at `a`. */
  ghost predicate Stored(m: seq<Byte>, m': seq<Byte>, a: nat, w: nat)
    requires a + 4 <= |m| && w < SPACE
  {
    |m'| == |m| && forall i :: 0 <= i < |m| ==> m'[i] == if a <= i < a + 4 then ByteOf(w, i - a) else m[i]
  }

  lemma LoadStored(m: seq<Byte>, m': seq<Byte>, a: nat, w: nat)
    requires a + 4 <= |m| && w < SPACE && Stored(m, m', a, w)
    ensures Load(m', a) == w
  {
    BytesOfWord(w);
    assert m'[a] == ByteOf(w, 0) && m'[a + 1] == ByteOf(w, 1) && m'[a + 2] == ByteOf(w, 2) && m'[a + 3] == ByteOf(w, 3);
  }

  lemma LoadSame(m: seq<Byte>, m': seq<Byte>, a: nat)
    requires a + 4 <= |m| == |m'| && forall i :: a <= i < a + 4 ==> m'[i] == m[i]
    ensures Load(m', a) == Load(m, a)
  {
  }

  method LoadWord(mem: array<Byte>, a: nat) returns (w: nat)
    requires a + 4 <= mem.Length
    ensures w == Load(mem[..], a)
  {
    w := Word(mem[a], mem[a + 1], mem[a + 2], mem[a + 3]);
  }

  method StoreWord(mem: array<Byte>, a: nat, w: nat)
    requires a + 4 <= mem.Length && w < SPACE
    modifies mem
    ensures Stored(old(mem[..]), mem[..], a, w)
  {
    mem[a], mem[a + 1], mem[a + 2], mem[a + 3] := ByteOf(w, 0), ByteOf(w, 1), ByteOf(w, 2), ByteOf(w, 3);
  }

  // ---- memcpy ----

  /** After `c` bytes of a copy from `src` to `dest`. */
  ghost predicate Copied(m: seq<Byte>, m': seq<Byte>, dest: nat, src: nat, c: nat)
    requires dest + c <= |m| && src + c <= |m|
  {
    |m'| == |m| && forall i :: 0 <= i < |m| ==> m'[i] == if dest <= i < dest + c then m[src + (i - dest)] else m[i]
  }

  /** Loads `k` bytes into registers and stores them. */
  method CopyRegisters(mem: array<Byte>, dest: nat, src: nat, k: nat)
    requires dest + k <= mem.Length && src + k <= mem.Length
    modifies mem
    ensures Copied(old(mem[..]), mem[..], dest, src, k)
  {
    var regs := mem[src..src + k];
    var i := 0;
    while i < k
      invariant i <= k
      invariant forall j :: 0 <= j < mem.Length ==> mem[j] == if dest <= j < dest + i then regs[j - dest] else old(mem[j])
    {
      mem[dest + i] := regs[i];
      i := i + 1;
    }
  }

  lemma CopiedAt(m: seq<Byte>, m': seq<Byte>, dest: nat, src: nat, c: nat, i: nat)
    requires dest + c <= |m| && src + c <= |m| && Copied(m, m', dest, src, c) && i < |m|
    ensures m'[i] == if dest <= i < dest + c then m[src + (i - dest)] else m[i]
  {
  }

  lemma CopiedMore(m: seq<Byte>, m1: seq<Byte>, m2: seq<Byte>, dest: nat, src: nat, c: nat, k: nat)
    requires dest + c + k <= |m| && src + c + k <= |m| && (dest + c + k <= src || src + c + k <= dest)
    requires Copied(m, m1, dest, src, c) && Copied(m1, m2, dest + c, src + c, k)
    ensures Copied(m, m2, dest, src, c + k)
  {
    forall i | 0 <= i < |m| ensures m2[i] == if dest <= i < dest + (c + k) then m[src + (i - dest)] else m[i] {
      CopiedAt(m, m1, dest, src, c, i);
      CopiedAt(m1, m2, dest + c, src + c, k, i);
      if dest + c <= i < dest + c + k {
        CopiedAt(m, m1, dest, src, c, src + c + (i - (dest + c)));
      }
    }
  }

  /**
    Blocks of 44 bytes, then of 8, then single bytes: at most 7 of them. Unlike the C library
    function it returns the end of the destination.
  */
  method MemCpy(mem: array<Byte>, dest0: nat, src0: nat, n0: nat) returns (dest: nat)
    requires dest0 + n0 <= mem.Length && src0 + n0 <= mem.Length
    requires dest0 + n0 <= src0 || src0 + n0 <= dest0
    modifies mem
    ensures Copied(old(mem[..]), mem[..], dest0, src0, n0) && dest == dest0 + n0
  {
    hide Copied;
    ghost var m := mem[..];
    var n, src := n0, src0;
    dest := dest0;
    NoneCopied(m, dest0, src0);
    while n >= 44
      invariant 0 <= n <= n0 && dest == dest0 + (n0 - n) && src == src0 + (n0 - n)
      invariant Copied(m, mem[..], dest0, src0, n0 - n)
    {
      ghost var m1 := mem[..];
      CopyRegisters(mem, dest, src, 44);
      CopiedMore(m, m1, mem[..], dest0, src0, n0 - n, 44);
      n, dest, src := n - 44, dest + 44, src + 44;
    }
    while n >= 8
      invariant 0 <= n < 44 && n <= n0 && dest == dest0 + (n0 - n) && src == src0 + (n0 - n)
      invariant Copied(m, mem[..], dest0, src0, n0 - n)
    {
      ghost var m1 := mem[..];
      CopyRegisters(mem, dest, src, 8);
      CopiedMore(m, m1, mem[..], dest0, src0, n0 - n, 8);
      n, dest, src := n - 8, dest + 8, src + 8;
    }
    while n > 0
      invariant 0 <= n < 8 && n <= n0 && dest == dest0 + (n0 - n) && src == src0 + (n0 - n)
      invariant Copied(m, mem[..], dest0, src0, n0 - n)
    {
      ghost var m1 := mem[..];
      CopyRegisters(mem, dest, src, 1);
      CopiedMore(m, m1, mem[..], dest0, src0, n0 - n, 1);
      n, dest, src := n - 1, dest + 1, src + 1;
    }
  }

  lemma NoneCopied(m: seq<Byte>, dest: nat, src: nat)
    requires dest <= |m| && src <= |m|
    ensures Copied(m, m, dest, src, 0)
  {
  }

  // ---- The layout ----

  /** `uint32_t` addition. */
  function Add(a: nat, b: nat): nat {
    (a + b) % SPACE
  }

  /**
    The sections follow each other in ROM at `rom`: `.rom`, `.got`, `.rom.ram`. In RAM at
    `ram` come `.got`, `.rom.ram`, `.ram`. The `count` patch entries are at `table`.
  */
  datatype Layout = Layout(
    table: nat, count: nat, rom: nat,
    romSize: nat, gotSize: nat, romRamSize: nat, ramSize: nat,
    ram: nat, ramEnd: nat)
  {
    function GotSec(): nat { Add(rom, romSize) }
    function RomRamSec(): nat { Add(GotSec(), gotSize) }
    function RelRomRam(): nat { Add(ram, gotSize) }
    function RelRam(): nat { Add(RelRomRam(), romRamSize) }
    function Offsets(): nat { romSize + gotSize + romRamSize + ramSize }
    function RomEnd(): nat { rom + romSize + gotSize + romRamSize }
    function RamTop(): nat { ram + gotSize + romRamSize + ramSize }
  }

  predicate Unsigned(l: Layout) {
    l.romSize < SPACE && l.gotSize < SPACE && l.romRamSize < SPACE && l.ramSize < SPACE && l.ram < SPACE && l.ramEnd < SPACE
  }

  /** The test of the available RAM, in `uint32_t` arithmetic. */
  predicate RamTest(l: Layout) {
    !(Add(l.ram, l.gotSize) > l.ramEnd || Add(l.RelRomRam(), l.romRamSize) > l.ramEnd || Add(l.RelRam(), l.ramSize) > l.ramEnd)
  }

  /** The relocated sections really end before the end of RAM. */
  predicate RamFits(l: Layout) {
    l.RamTop() <= l.ramEnd
  }

  /** If there is room the test passes; where it passes there is room exactly if no sum wrapped around. */
  lemma RamTestExact(l: Layout)
    requires Unsigned(l)
    ensures RamFits(l) ==> RamTest(l)
    ensures RamTest(l) ==> (RamFits(l) <==> l.RamTop() < SPACE)
  {
    hide Add;
    AddCases(l.ram, l.gotSize);
    AddCases(l.RelRomRam(), l.romRamSize);
    AddCases(l.RelRam(), l.ramSize);
  }

  lemma AddCases(a: nat, b: nat)
    requires a < SPACE && b < SPACE
    ensures Add(a, b) == if a + b < SPACE then a + b else a + b - SPACE
  {
  }

  /** 12 bytes of GOT at the last word of the address space pass the test for 16 bytes of RAM. */
  lemma RamTestWraps()
    ensures var l := Layout(0, 0, 0, 0, 12, 0, 0, SPACE - 4, 16); Unsigned(l) && RamTest(l) && !RamFits(l)
  {
  }

  /** Sizes are word multiples, addresses do not wrap, and ROM and RAM are apart. */
  predicate WellFormed(l: Layout) {
    && Unsigned(l) && l.rom == l.table + 4 * l.count
    && l.romSize % 4 == 0 && l.gotSize % 4 == 0 && l.romRamSize % 4 == 0 && l.ramSize % 4 == 0
    && l.RomEnd() + 4 <= SPACE && l.RamTop() + 4 <= SPACE && l.Offsets() < SPACE
    && (l.RomEnd() <= l.ram || l.RamTop() <= l.table)
  }

  lemma Sections(l: Layout)
    requires WellFormed(l)
    ensures l.GotSec() == l.rom + l.romSize && l.RomRamSec() == l.rom + l.romSize + l.gotSize
    ensures l.RelRomRam() == l.ram + l.gotSize && l.RelRam() == l.ram + l.gotSize + l.romRamSize
  {
    hide Add;
    AddExact(l.rom, l.romSize);
    AddExact(l.rom + l.romSize, l.gotSize);
    AddExact(l.ram, l.gotSize);
    AddExact(l.ram + l.gotSize, l.romRamSize);
  }

  lemma AddExact(a: nat, b: nat)
    requires a + b < SPACE
    ensures Add(a, b) == a + b
  {
  }

  // ---- Where an offset is relocated to ----

  datatype Section = Rom | Got | RomRam | Ram | Nowhere

  function SectionOf(l: Layout, off: nat): Section {
    if off < l.romSize then Rom
    else if off - l.romSize < l.gotSize then Got
    else if off - l.romSize - l.gotSize < l.romRamSize then RomRam
    else if off - l.romSize - l.gotSize - l.romRamSize < l.ramSize then Ram
    else Nowhere
  }

  /** The address of the cell that an offset from the start of the image denotes. */
  function Reloc(l: Layout, off: nat): nat {
    match SectionOf(l, off)
    case Rom => Add(l.rom, off)
    case Got => Add(l.ram, off - l.romSize)
    case RomRam => Add(l.RelRomRam(), off - l.romSize - l.gotSize)
    case Ram => Add(l.RelRam(), off - l.romSize - l.gotSize - l.romRamSize)
    case Nowhere => 0
  }

  lemma RelocIs(l: Layout, off: nat)
    requires WellFormed(l) && SectionOf(l, off) != Nowhere
    ensures Reloc(l, off) == if off < l.romSize then l.rom + off else l.ram + (off - l.romSize)
    ensures Reloc(l, off) < SPACE
    ensures SectionOf(l, off).Rom? <==> l.rom <= Reloc(l, off) < l.rom + l.romSize
    ensures !SectionOf(l, off).Rom? <==> l.ram <= Reloc(l, off) < l.RamTop()
  {
    hide Add;
    Sections(l);
    match SectionOf(l, off)
    case Rom => AddExact(l.rom, off);
    case Got => AddExact(l.ram, off - l.romSize);
    case RomRam => AddExact(l.RelRomRam(), off - l.romSize - l.gotSize);
    case Ram => AddExact(l.RelRam(), off - l.romSize - l.gotSize - l.romRamSize);
  }

  /** Different offsets denote different cells. */
  lemma RelocInjective(l: Layout, a: nat, b: nat)
    requires WellFormed(l) && SectionOf(l, a) != Nowhere && SectionOf(l, b) != Nowhere && Reloc(l, a) == Reloc(l, b)
    ensures a == b
  {
    RelocIs(l, a);
    RelocIs(l, b);
  }
}
