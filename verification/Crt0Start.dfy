/** `_start` up to the jump to the entry point: after it every pointer leads to what it denoted. */
module Crt0Start {
  import opened Wrappers
  import opened Crt0

  /** `die`: the code stops. */
  datatype Error = NotEnoughRam | OffsetNowhere | PointerInRom | OffsetInGot

  // ---- The image in ROM ----

  /** A read that runs over the end of the address space has no defined value. */
  function LoadAt(m: seq<Byte>, a: nat): (w: nat)
    ensures w < SPACE
  {
    if a + 4 <= |m| then Load(m, a) else 0
  }

  function GotEntry(l: Layout, m: seq<Byte>, i: nat): nat {
    LoadAt(m, l.rom + l.romSize + 4 * i)
  }

  function Pointer(l: Layout, m: seq<Byte>, i: nat): nat {
    LoadAt(m, l.table + 4 * i)
  }

  /** The offset that the pointer at offset `p` holds in ROM. */
  function Target(l: Layout, m: seq<Byte>, p: nat): (w: nat)
    ensures w < SPACE
  {
    LoadAt(m, Add(l.rom, p))
  }

  /** Pointers are word-aligned. */
  ghost predicate Aligned(l: Layout, m: seq<Byte>) {
    forall i :: 0 <= i < l.count ==> Pointer(l, m, i) % 4 == 0
  }

  function PatchError(l: Layout, p: nat, off: nat): Option<Error> {
    match SectionOf(l, p)
    case Rom => Some(PointerInRom)
    case Got => Some(OffsetInGot)
    case Nowhere => Some(OffsetNowhere)
    case _ =>
      if SectionOf(l, off).Got? then Some(OffsetInGot)
      else if SectionOf(l, off).Nowhere? then Some(OffsetNowhere)
      else None
  }

  /** The first thing that stops the GOT relocation, from entry `i` on. */
  function GotError(l: Layout, m: seq<Byte>, i: nat): Option<Error>
    decreases l.gotSize - 4 * i
  {
    if 4 * i >= l.gotSize then None
    else if SectionOf(l, GotEntry(l, m, i)).Nowhere? then Some(OffsetNowhere)
    else GotError(l, m, i + 1)
  }

  function PatchesError(l: Layout, m: seq<Byte>, i: nat): Option<Error>
    decreases l.count - i
  {
    if i >= l.count then None
    else
      var e := PatchError(l, Pointer(l, m, i), Target(l, m, Pointer(l, m, i)));
      if e.Some? then e else PatchesError(l, m, i + 1)
  }

  /** Offset `p` is in initialised or cleared data. */
  predicate InRam(l: Layout, p: nat) {
    l.romSize + l.gotSize <= p < l.romSize + l.gotSize + l.romRamSize + l.ramSize
  }

  /** Offset `off` is in the image, and not in the GOT. */
  predicate Pointable(l: Layout, off: nat) {
    off < l.romSize || InRam(l, off)
  }

  lemma PatchErrorExact(l: Layout, p: nat, off: nat)
    ensures PatchError(l, p, off).None? <==> InRam(l, p) && Pointable(l, off)
  {
  }

  lemma {:induction false} GotErrorExact(l: Layout, m: seq<Byte>, i: nat)
    ensures GotError(l, m, i).None? <==> forall j :: i <= j && 4 * j < l.gotSize ==> GotEntry(l, m, j) < l.Offsets()
    decreases l.gotSize - 4 * i
  {
    hide GotEntry;
    if 4 * i < l.gotSize {
      GotErrorExact(l, m, i + 1);
    }
  }

  lemma {:induction false} PatchesErrorExact(l: Layout, m: seq<Byte>, i: nat)
    ensures PatchesError(l, m, i).None? <==>
      forall j :: i <= j < l.count ==> InRam(l, Pointer(l, m, j)) && Pointable(l, Target(l, m, Pointer(l, m, j)))
    decreases l.count - i
  {
    hide Pointer, Target, InRam, Pointable, PatchError;
    if i < l.count {
      PatchErrorExact(l, Pointer(l, m, i), Target(l, m, Pointer(l, m, i)));
      PatchesErrorExact(l, m, i + 1);
    }
  }

  /**
    The start succeeds exactly if the RAM test passes, every GOT entry is an offset into the
    image, and every patch entry is in RAM and holds an offset into the image outside the GOT.
  */
  lemma StartExact(l: Layout, m: seq<Byte>)
    ensures StartError(l, m).None? <==>
      && RamTest(l)
      && (forall j :: 0 <= j && 4 * j < l.gotSize ==> GotEntry(l, m, j) < l.Offsets())
      && (forall j :: 0 <= j < l.count ==> InRam(l, Pointer(l, m, j)) && Pointable(l, Target(l, m, Pointer(l, m, j))))
  {
    hide GotEntry, Pointer, Target, InRam, Pointable, RamTest, GotError, PatchesError;
    GotErrorExact(l, m, 0);
    PatchesErrorExact(l, m, 0);
  }

  function StartError(l: Layout, m: seq<Byte>): Option<Error> {
    if !RamTest(l) then Some(NotEnoughRam)
    else if GotError(l, m, 0).Some? then GotError(l, m, 0)
    else PatchesError(l, m, 0)
  }

  // ---- The relocated image ----

  /** Only the relocated sections were written. */
  ghost predicate Elsewhere(l: Layout, m0: seq<Byte>, m: seq<Byte>) {
    |m0| == SPACE == |m| && forall a :: 0 <= a < SPACE && !(l.ram <= a < l.RamTop()) ==> m[a] == m0[a]
  }

  /** The byte that offset `o` denotes in the linked image: ROM contents, initial data, or zero. */
  function Denotes(l: Layout, m0: seq<Byte>, o: nat): Byte
    requires WellFormed(l) && |m0| == SPACE
  {
    if o < l.romSize + l.gotSize + l.romRamSize then m0[l.rom + o] else 0
  }

  /** No one of the first `n` pointers covers offset `o`. */
  ghost predicate Uncovered(l: Layout, m0: seq<Byte>, n: nat, o: nat) {
    forall i :: 0 <= i < n ==> !(Pointer(l, m0, i) <= o < Pointer(l, m0, i) + 4)
  }

  ghost predicate ContentOk(l: Layout, m0: seq<Byte>, m: seq<Byte>, n: nat)
    requires WellFormed(l) && |m0| == SPACE == |m|
  {
    forall o :: l.romSize + l.gotSize <= o < l.Offsets() && Uncovered(l, m0, n, o) ==>
      m[l.ram + (o - l.romSize)] == Denotes(l, m0, o)
  }

  ghost predicate GotOk(l: Layout, m0: seq<Byte>, m: seq<Byte>, n: nat)
    requires WellFormed(l) && |m| == SPACE && 4 * n <= l.gotSize
  {
    forall i :: 0 <= i < n ==> Load(m, l.ram + 4 * i) == Reloc(l, GotEntry(l, m0, i))
  }

  /** The pointer word at offset `p` holds the relocated target. */
  ghost predicate Fixed(l: Layout, m0: seq<Byte>, m: seq<Byte>, p: nat) {
    l.romSize <= p && LoadAt(m, l.ram + (p - l.romSize)) == Reloc(l, Target(l, m0, p))
  }

  ghost predicate PatchOk(l: Layout, m0: seq<Byte>, m: seq<Byte>, n: nat) {
    forall i :: 0 <= i < n ==> Fixed(l, m0, m, Pointer(l, m0, i))
  }

  // ---- Data and zeroes ----

  /** `.rom.ram` is copied and `.ram` cleared, a word at a time. */
  method LoadSections(mem: array<Byte>, l: Layout)
    requires WellFormed(l) && mem.Length == SPACE
    modifies mem
    ensures Elsewhere(l, old(mem[..]), mem[..]) && ContentOk(l, old(mem[..]), mem[..], 0)
  {
    hide WellFormed;
    ghost var m0 := mem[..];
    Bounds(l);
    Sections(l);
    var _ := MemCpy(mem, l.RelRomRam(), l.RomRamSec(), l.romRamSize);
    ghost var m1 := mem[..];
    var i := 0;
    while 4 * i < l.ramSize
      invariant 0 <= 4 * i <= l.ramSize
      invariant forall a :: 0 <= a < SPACE ==> mem[a] == if l.RelRam() <= a < l.RelRam() + 4 * i then 0 else m1[a]
    {
      ghost var m := mem[..];
      StoreWord(mem, l.RelRam() + 4 * i, 0);
      forall a | 0 <= a < SPACE ensures mem[a] == if l.RelRam() <= a < l.RelRam() + 4 * i + 4 then 0 else m1[a] {
        StoredAt(m, mem[..], l.RelRam() + 4 * i, 0, a);
      }
      i := i + 1;
    }
    LoadedOk(l, m0, m1, mem[..]);
  }

  lemma StoredAt(m: seq<Byte>, m': seq<Byte>, a: nat, w: nat, i: nat)
    requires a + 4 <= |m| && w < SPACE && Stored(m, m', a, w) && i < |m|
    ensures m'[i] == if a <= i < a + 4 then ByteOf(w, i - a) else m[i]
  {
  }

  lemma Bounds(l: Layout)
    requires WellFormed(l)
    ensures l.ramSize % 4 == 0 && l.gotSize % 4 == 0 && l.RamTop() + 4 <= SPACE && l.RomEnd() + 4 <= SPACE
    ensures l.RomEnd() <= l.ram || l.RamTop() <= l.table
    ensures l.table + 4 * l.count == l.rom
  {
  }

  lemma LoadedOk(l: Layout, m0: seq<Byte>, m1: seq<Byte>, m: seq<Byte>)
    requires WellFormed(l) && |m0| == SPACE == |m1| == |m|
    requires Copied(m0, m1, l.ram + l.gotSize, l.rom + l.romSize + l.gotSize, l.romRamSize)
    requires var z := l.ram + l.gotSize + l.romRamSize;
      forall a :: 0 <= a < SPACE ==> m[a] == if z <= a < z + l.ramSize then 0 else m1[a]
    ensures Elsewhere(l, m0, m) && ContentOk(l, m0, m, 0)
  {
    forall a | 0 <= a < SPACE && !(l.ram <= a < l.RamTop()) ensures m[a] == m0[a] {
      CopiedAt(m0, m1, l.ram + l.gotSize, l.rom + l.romSize + l.gotSize, l.romRamSize, a);
    }
    forall o | l.romSize + l.gotSize <= o < l.Offsets() ensures m[l.ram + (o - l.romSize)] == Denotes(l, m0, o) {
      CopiedAt(m0, m1, l.ram + l.gotSize, l.rom + l.romSize + l.gotSize, l.romRamSize, l.ram + (o - l.romSize));
    }
  }

  // ---- The global offset table ----

  /** The ROM image still reads as it did. */
  lemma RomSame(l: Layout, m0: seq<Byte>, m: seq<Byte>, a: nat)
    requires WellFormed(l) && Elsewhere(l, m0, m) && l.table <= a && a + 4 <= l.RomEnd()
    ensures Load(m, a) == LoadAt(m0, a)
  {
    LoadSame(m0, m, a);
  }

  /** A word written inside the relocated sections. */
  lemma StoredElsewhere(l: Layout, m0: seq<Byte>, m: seq<Byte>, m': seq<Byte>, a: nat, w: nat)
    requires WellFormed(l) && Elsewhere(l, m0, m) && w < SPACE && l.ram <= a && a + 4 <= l.RamTop() && Stored(m, m', a, w)
    ensures Elsewhere(l, m0, m')
  {
    forall b | 0 <= b < SPACE && !(l.ram <= b < l.RamTop()) ensures m'[b] == m0[b] {
      StoredAt(m, m', a, w, b);
    }
  }

  lemma StoredApart(m: seq<Byte>, m': seq<Byte>, a: nat, w: nat, b: nat)
    requires a + 4 <= |m| && b + 4 <= |m| && w < SPACE && Stored(m, m', a, w) && (b + 4 <= a || a + 4 <= b)
    ensures Load(m', b) == Load(m, b)
  {
    LoadSame(m, m', b);
  }

  lemma GotStep(l: Layout, m0: seq<Byte>, m: seq<Byte>, m': seq<Byte>, i: nat)
    requires WellFormed(l) && Elsewhere(l, m0, m) && ContentOk(l, m0, m, 0) && 4 * i + 4 <= l.gotSize && GotOk(l, m0, m, i)
    requires Reloc(l, GotEntry(l, m0, i)) < SPACE && Stored(m, m', l.ram + 4 * i, Reloc(l, GotEntry(l, m0, i)))
    ensures Elsewhere(l, m0, m') && ContentOk(l, m0, m', 0) && GotOk(l, m0, m', i + 1)
  {
    hide Elsewhere, ContentOk, Stored, Reloc, GotEntry, WellFormed;
    var a, w := l.ram + 4 * i, Reloc(l, GotEntry(l, m0, i));
    Bounds(l);
    SameSize(l, m0, m);
    StoredElsewhere(l, m0, m, m', a, w);
    SameSize(l, m0, m');
    LoadStored(m, m', a, w);
    GotContent(l, m0, m, m', a, w);
    forall j | 0 <= j < i ensures Load(m', l.ram + 4 * j) == Reloc(l, GotEntry(l, m0, j)) {
      StoredApart(m, m', a, w, l.ram + 4 * j);
    }
  }

  lemma GotContent(l: Layout, m0: seq<Byte>, m: seq<Byte>, m': seq<Byte>, a: nat, w: nat)
    requires WellFormed(l) && |m0| == SPACE == |m| && |m'| == SPACE && ContentOk(l, m0, m, 0)
    requires l.ram <= a && a + 4 <= l.ram + l.gotSize && w < SPACE && Stored(m, m', a, w)
    ensures ContentOk(l, m0, m', 0)
  {
    hide Denotes, Stored;
    forall o | l.romSize + l.gotSize <= o < l.Offsets() && Uncovered(l, m0, 0, o)
      ensures m'[l.ram + (o - l.romSize)] == Denotes(l, m0, o)
    {
      StoredAt(m, m', a, w, l.ram + (o - l.romSize));
    }
  }

  lemma SameSize(l: Layout, m0: seq<Byte>, m: seq<Byte>)
    requires Elsewhere(l, m0, m)
    ensures |m0| == SPACE == |m|
  {
  }

  /** The address of the cell an offset denotes; only a located offset gets this far. */
  lemma LocatedAddress(l: Layout, off: nat)
    requires WellFormed(l) && !SectionOf(l, off).Nowhere?
    ensures Reloc(l, off) < SPACE
  {
    RelocIs(l, off);
  }

  method RelocateGot(mem: array<Byte>, l: Layout, ghost m0: seq<Byte>) returns (e: Option<Error>)
    requires WellFormed(l) && mem.Length == SPACE && Elsewhere(l, m0, mem[..]) && ContentOk(l, m0, mem[..], 0)
    modifies mem
    ensures e == GotError(l, m0, 0)
    ensures e.None? ==> Elsewhere(l, m0, mem[..]) && ContentOk(l, m0, mem[..], 0) && GotOk(l, m0, mem[..], l.gotSize / 4)
  {
    hide WellFormed, Elsewhere, ContentOk, Reloc, SectionOf, GotEntry;
    Bounds(l);
    Sections(l);
    SameSize(l, m0, mem[..]);
    var i := 0;
    while 4 * i < l.gotSize
      invariant 0 <= 4 * i <= l.gotSize && GotError(l, m0, i) == GotError(l, m0, 0)
      invariant Elsewhere(l, m0, mem[..]) && ContentOk(l, m0, mem[..], 0) && GotOk(l, m0, mem[..], i)
    {
      RomSame(l, m0, mem[..], l.GotSec() + 4 * i);
      GotEntryIs(l, m0, i);
      var off := LoadWord(mem, l.GotSec() + 4 * i);
      if SectionOf(l, off).Nowhere? {
        return Some(OffsetNowhere);
      }
      LocatedAddress(l, off);
      ghost var m := mem[..];
      StoreWord(mem, l.ram + 4 * i, Reloc(l, off));
      GotStep(l, m0, m, mem[..], i);
      i := i + 1;
    }
    e := None;
  }

  lemma GotEntryIs(l: Layout, m0: seq<Byte>, i: nat)
    ensures GotEntry(l, m0, i) == LoadAt(m0, l.rom + l.romSize + 4 * i)
  {
  }

  // ---- The patched pointers ----

  lemma PointerPlace(l: Layout, p: nat)
    requires WellFormed(l) && p % 4 == 0 && (SectionOf(l, p).RomRam? || SectionOf(l, p).Ram?)
    ensures Reloc(l, p) == l.ram + (p - l.romSize) && l.romSize + l.gotSize <= p
    ensures l.ram + l.gotSize <= Reloc(l, p) && Reloc(l, p) + 4 <= l.RamTop()
  {
    hide Reloc, SectionOf, WellFormed;
    RelocIs(l, p);
    Bounds(l);
    AlignedRoom(l, p);
  }

  lemma AlignedRoom(l: Layout, p: nat)
    requires WellFormed(l) && p % 4 == 0 && (SectionOf(l, p).RomRam? || SectionOf(l, p).Ram?)
    ensures l.romSize + l.gotSize <= p && p + 4 <= l.Offsets()
  {
    NextMultiple(l.romSize / 4 + l.gotSize / 4 + l.romRamSize / 4 + l.ramSize / 4, p);
  }

  lemma NextMultiple(n: nat, p: nat)
    requires p % 4 == 0
    ensures p < 4 * n ==> p + 4 <= 4 * n
  {
  }

  lemma PatchContent(l: Layout, m0: seq<Byte>, m: seq<Byte>, m': seq<Byte>, n: nat, p: nat, w: nat)
    requires WellFormed(l) && |m0| == SPACE == |m| && ContentOk(l, m0, m, n) && p == Pointer(l, m0, n)
    requires l.romSize + l.gotSize <= p && l.ram + (p - l.romSize) + 4 <= SPACE && w < SPACE
    requires Stored(m, m', l.ram + (p - l.romSize), w)
    ensures ContentOk(l, m0, m', n + 1)
  {
    hide Denotes, Pointer;
    forall o | l.romSize + l.gotSize <= o < l.Offsets() && Uncovered(l, m0, n + 1, o)
      ensures m'[l.ram + (o - l.romSize)] == Denotes(l, m0, o)
    {
      assert Uncovered(l, m0, n, o) && !(Pointer(l, m0, n) <= o < Pointer(l, m0, n) + 4);
      StoredAt(m, m', l.ram + (p - l.romSize), w, l.ram + (o - l.romSize));
    }
  }

  lemma PatchKeepsGot(l: Layout, m0: seq<Byte>, m: seq<Byte>, m': seq<Byte>, n: nat, a: nat, w: nat)
    requires WellFormed(l) && |m| == SPACE && 4 * n <= l.gotSize && GotOk(l, m0, m, n)
    requires l.ram + l.gotSize <= a && a + 4 <= SPACE && w < SPACE && Stored(m, m', a, w)
    ensures |m'| == SPACE && GotOk(l, m0, m', n)
  {
    hide Stored;
    SameLength(m, m', a, w);
    forall i | 0 <= i < n ensures Load(m', l.ram + 4 * i) == Reloc(l, GotEntry(l, m0, i)) {
      StoredApart(m, m', a, w, l.ram + 4 * i);
    }
  }

  lemma SameLength(m: seq<Byte>, m': seq<Byte>, a: nat, w: nat)
    requires a + 4 <= |m| && w < SPACE && Stored(m, m', a, w)
    ensures |m'| == |m|
  {
  }

  /** Pointers are words apart or the same, and the same one gets the same value. */
  lemma PatchFixes(l: Layout, m0: seq<Byte>, m: seq<Byte>, m': seq<Byte>, n: nat, p: nat)
    requires WellFormed(l) && |m| == SPACE && PatchOk(l, m0, m, n) && Aligned(l, m0) && n < l.count && p == Pointer(l, m0, n)
    requires l.romSize <= p && l.ram + (p - l.romSize) + 4 <= SPACE && Reloc(l, Target(l, m0, p)) < SPACE
    requires Stored(m, m', l.ram + (p - l.romSize), Reloc(l, Target(l, m0, p)))
    ensures PatchOk(l, m0, m', n + 1)
  {
    hide Stored, Pointer, Target, Reloc, WellFormed, Fixed;
    FixedNow(l, m0, m, m', p);
    forall i | 0 <= i < n ensures Fixed(l, m0, m', Pointer(l, m0, i)) {
      assert Pointer(l, m0, i) % 4 == 0 && p % 4 == 0;
      StillFixed(l, m0, m, m', p, Pointer(l, m0, i));
    }
  }

  lemma FixedNow(l: Layout, m0: seq<Byte>, m: seq<Byte>, m': seq<Byte>, p: nat)
    requires |m| == SPACE && l.romSize <= p && l.ram + (p - l.romSize) + 4 <= SPACE && Reloc(l, Target(l, m0, p)) < SPACE
    requires Stored(m, m', l.ram + (p - l.romSize), Reloc(l, Target(l, m0, p)))
    ensures Fixed(l, m0, m', p)
  {
    hide Stored, Target, Reloc;
    SameLength(m, m', l.ram + (p - l.romSize), Reloc(l, Target(l, m0, p)));
    LoadStored(m, m', l.ram + (p - l.romSize), Reloc(l, Target(l, m0, p)));
  }

  lemma StillFixed(l: Layout, m0: seq<Byte>, m: seq<Byte>, m': seq<Byte>, p: nat, q: nat)
    requires |m| == SPACE && l.romSize <= p && l.ram + (p - l.romSize) + 4 <= SPACE && Reloc(l, Target(l, m0, p)) < SPACE
    requires Stored(m, m', l.ram + (p - l.romSize), Reloc(l, Target(l, m0, p)))
    requires Fixed(l, m0, m, q) && q % 4 == 0 && p % 4 == 0
    ensures Fixed(l, m0, m', q)
  {
    hide Stored, Target, Reloc;
    var a, w := l.ram + (p - l.romSize), Reloc(l, Target(l, m0, p));
    SameLength(m, m', a, w);
    if q == p {
      LoadStored(m, m', a, w);
    } else if l.ram + (q - l.romSize) + 4 <= SPACE {
      assert q + 4 <= p || p + 4 <= q;
      StoredApart(m, m', a, w, l.ram + (q - l.romSize));
    }
  }

  lemma PatchStep(l: Layout, m0: seq<Byte>, m: seq<Byte>, m': seq<Byte>, n: nat)
    requires WellFormed(l) && Aligned(l, m0) && n < l.count && Elsewhere(l, m0, m) && |m0| == SPACE == |m|
    requires ContentOk(l, m0, m, n) && GotOk(l, m0, m, l.gotSize / 4) && PatchOk(l, m0, m, n)
    requires var p := Pointer(l, m0, n);
      && PatchError(l, p, Target(l, m0, p)).None? && Reloc(l, p) + 4 <= SPACE
      && Reloc(l, Target(l, m0, p)) < SPACE && Stored(m, m', Reloc(l, p), Reloc(l, Target(l, m0, p)))
    ensures Elsewhere(l, m0, m') && |m'| == SPACE
    ensures ContentOk(l, m0, m', n + 1) && GotOk(l, m0, m', l.gotSize / 4) && PatchOk(l, m0, m', n + 1)
  {
    hide Elsewhere, ContentOk, GotOk, PatchOk, Stored, Reloc, Target, Pointer, WellFormed;
    var p := Pointer(l, m0, n);
    var a, w := Reloc(l, p), Reloc(l, Target(l, m0, p));
    PointerPlace(l, p);
    StoredElsewhere(l, m0, m, m', a, w);
    PatchContent(l, m0, m, m', n, p, w);
    PatchKeepsGot(l, m0, m, m', l.gotSize / 4, a, w);
    PatchFixes(l, m0, m, m', n, p);
  }

  /** The table and, for a pointer into data, its target read as they were in ROM. */
  lemma PatchReads(l: Layout, m0: seq<Byte>, m: seq<Byte>, i: nat)
    requires WellFormed(l) && Elsewhere(l, m0, m) && i < l.count
    ensures Load(m, l.table + 4 * i) == Pointer(l, m0, i)
    ensures var p := Pointer(l, m0, i); SectionOf(l, p).RomRam? && p % 4 == 0 ==> LoadAt(m, Add(l.rom, p)) == Target(l, m0, p)
  {
    hide Elsewhere, Add, WellFormed, SectionOf, Load;
    Bounds(l);
    SameSize(l, m0, m);
    RomSame(l, m0, m, l.table + 4 * i);
    var p := Pointer(l, m0, i);
    if SectionOf(l, p).RomRam? && p % 4 == 0 {
      DataWord(l, p);
      AddExact(l.rom, p);
      RomSame(l, m0, m, l.rom + p);
    }
  }

  lemma DataWord(l: Layout, p: nat)
    requires WellFormed(l) && SectionOf(l, p).RomRam? && p % 4 == 0
    ensures l.table <= l.rom + p && l.rom + p + 4 <= l.RomEnd()
  {
  }

  /** Pointers are in `.rom.ram`, where their initial value is in ROM. */
  ghost predicate InData(l: Layout, m: seq<Byte>) {
    forall i :: 0 <= i < l.count ==> !SectionOf(l, Pointer(l, m, i)).Ram?
  }

  /** `m` with the word `w` at `a`. */
  function StoreAt(m: seq<Byte>, a: nat, w: nat): (m': seq<Byte>)
    requires a + 4 <= |m| && w < SPACE
    ensures Stored(m, m', a, w)
  {
    m[a := ByteOf(w, 0)][a + 1 := ByteOf(w, 1)][a + 2 := ByteOf(w, 2)][a + 3 := ByteOf(w, 3)]
  }

  lemma PatchRoom(l: Layout, p: nat, off: nat)
    requires WellFormed(l) && PatchError(l, p, off).None?
    ensures Reloc(l, p) + 4 <= SPACE && Reloc(l, off) < SPACE
  {
    hide Reloc, WellFormed;
    Bounds(l);
    RelocIs(l, p);
    RelocIs(l, off);
  }

  /** What the loop over the patch table, from entry `i` on, does to memory, up to the first error. */
  ghost function Patched(l: Layout, m: seq<Byte>, i: nat): (r: (Option<Error>, seq<Byte>))
    requires WellFormed(l) && |m| == SPACE
    ensures |r.1| == SPACE
    decreases l.count - i
  {
    if i >= l.count then (None, m)
    else
      var p := Pointer(l, m, i);
      var off := LoadAt(m, Add(l.rom, p));
      var e := PatchError(l, p, off);
      if e.Some? then (e, m)
      else
        PatchRoom(l, p, off);
        Patched(l, StoreAt(m, Reloc(l, p), Reloc(l, off)), i + 1)
  }

  /** The loop of `_start` over the patch table, for every table. */
  method PatchPointers(mem: array<Byte>, l: Layout) returns (e: Option<Error>)
    requires WellFormed(l) && mem.Length == SPACE
    modifies mem
    ensures (e, mem[..]) == Patched(l, old(mem[..]), 0)
  {
    hide WellFormed, Reloc, SectionOf, Add, Load, Stored;
    Bounds(l);
    var i := 0;
    while i < l.count
      invariant i <= l.count && Patched(l, mem[..], i) == Patched(l, old(mem[..]), 0)
    {
      ghost var m := mem[..];
      var p := LoadWord(mem, l.table + 4 * i);
      var off := ReadTarget(mem, Add(l.rom, p));
      e := PatchError(l, p, off);
      if e.Some? {
        return;
      }
      PatchRoom(l, p, off);
      StoreWord(mem, Reloc(l, p), Reloc(l, off));
      StoredIs(m, mem[..], Reloc(l, p), Reloc(l, off));
      i := i + 1;
    }
    e := None;
  }

  lemma StoredIs(m: seq<Byte>, m': seq<Byte>, a: nat, w: nat)
    requires a + 4 <= |m| && w < SPACE && Stored(m, m', a, w)
    ensures m' == StoreAt(m, a, w)
  {
  }

  method ReadTarget(mem: array<Byte>, a: nat) returns (w: nat)
    ensures w == LoadAt(mem[..], a)
  {
    if a + 4 <= mem.Length {
      w := LoadWord(mem, a);
    } else {
      w := 0;
    }
  }

  /** With aligned pointers into data it succeeds exactly if the image is right, and then all are fixed. */
  lemma {:induction false} PatchedOk(l: Layout, m0: seq<Byte>, m: seq<Byte>, i: nat)
    requires WellFormed(l) && Aligned(l, m0) && InData(l, m0) && |m0| == SPACE == |m| && Elsewhere(l, m0, m) && i <= l.count
    requires ContentOk(l, m0, m, i) && GotOk(l, m0, m, l.gotSize / 4) && PatchOk(l, m0, m, i)
    ensures var (e, m') := Patched(l, m, i);
      && e == PatchesError(l, m0, i)
      && (e.None? ==> Elsewhere(l, m0, m') && ContentOk(l, m0, m', l.count))
      && (e.None? ==> GotOk(l, m0, m', l.gotSize / 4) && PatchOk(l, m0, m', l.count))
    decreases l.count - i
  {
    hide WellFormed, Elsewhere, ContentOk, GotOk, PatchOk, Reloc, Target, Aligned, InData, Load, StoreAt, PatchError, Stored;
    if i < l.count {
      PatchReads(l, m0, m, i);
      SamePatch(l, m0, m, i);
      TableRead(l, m, i);
      var p := Pointer(l, m0, i);
      var off := Target(l, m0, p);
      if PatchError(l, p, off).None? {
        PatchRoom(l, p, off);
        var m1 := StoreAt(m, Reloc(l, p), Reloc(l, off));
        PatchStep(l, m0, m, m1, i);
        PatchedOk(l, m0, m1, i + 1);
      }
    }
  }

  lemma TableRead(l: Layout, m: seq<Byte>, i: nat)
    requires WellFormed(l) && |m| == SPACE && i < l.count
    ensures Pointer(l, m, i) == Load(m, l.table + 4 * i)
  {
  }

  /** What the loop reads leads to the same verdict as the image in ROM. */
  lemma SamePatch(l: Layout, m0: seq<Byte>, m: seq<Byte>, i: nat)
    requires WellFormed(l) && Elsewhere(l, m0, m) && Aligned(l, m0) && InData(l, m0) && i < l.count
    ensures var p := Pointer(l, m0, i);
      && PatchError(l, p, LoadAt(m, Add(l.rom, p))) == PatchError(l, p, Target(l, m0, p))
      && (PatchError(l, p, Target(l, m0, p)).None? ==> LoadAt(m, Add(l.rom, p)) == Target(l, m0, p))
  {
    hide Elsewhere, Pointer, Target, SectionOf, Add;
    PatchReads(l, m0, m, i);
    assert Pointer(l, m0, i) % 4 == 0 && !SectionOf(l, Pointer(l, m0, i)).Ram?;
  }

  // ---- The whole start ----

  /** The memory after a successful start. */
  ghost predicate Relocated(l: Layout, m0: seq<Byte>, m: seq<Byte>) {
    && WellFormed(l) && |m0| == SPACE && Elsewhere(l, m0, m)
    && ContentOk(l, m0, m, l.count) && GotOk(l, m0, m, l.gotSize / 4) && PatchOk(l, m0, m, l.count)
  }

  method Start(mem: array<Byte>, l: Layout) returns (e: Option<Error>)
    requires WellFormed(l) && mem.Length == SPACE
    modifies mem
    ensures var m0 := old(mem[..]);
      Aligned(l, m0) && InData(l, m0) ==> e == StartError(l, m0) && (e.None? ==> Relocated(l, m0, mem[..]))
    ensures var m0 := old(mem[..]);
      RamTest(l) && GotError(l, m0, 0).None? ==>
        exists m :: Loaded(l, m0, m) && (e, mem[..]) == Patched(l, m, 0)
    ensures !RamTest(l) ==> e == Some(NotEnoughRam)
    ensures RamTest(l) && GotError(l, old(mem[..]), 0).Some? ==> e == GotError(l, old(mem[..]), 0)
  {
    hide WellFormed, Elsewhere, ContentOk, GotOk, PatchOk, GotError, PatchesError, Aligned, InData, Patched;
    ghost var m0 := mem[..];
    if !RamTest(l) {
      return Some(NotEnoughRam);
    }
    LoadSections(mem, l);
    e := RelocateGot(mem, l, m0);
    if e.Some? {
      return;
    }
    ghost var m := mem[..];
    assert Loaded(l, m0, m);
    e := PatchPointers(mem, l);
    if Aligned(l, m0) && InData(l, m0) {
      NothingPatched(l, m0, m);
      PatchedOk(l, m0, m, 0);
    }
  }

  /** Memory before the pointers are patched. */
  ghost predicate Loaded(l: Layout, m0: seq<Byte>, m: seq<Byte>) {
    && WellFormed(l) && |m0| == SPACE == |m| && Elsewhere(l, m0, m)
    && ContentOk(l, m0, m, 0) && GotOk(l, m0, m, l.gotSize / 4)
  }

  lemma NothingPatched(l: Layout, m0: seq<Byte>, m: seq<Byte>)
    ensures PatchOk(l, m0, m, 0)
  {
  }

  // ---- What it means ----

  lemma {:induction false} GotLocated(l: Layout, m: seq<Byte>, i: nat, j: nat)
    requires GotError(l, m, i).None? && i <= j && 4 * j < l.gotSize
    ensures !SectionOf(l, GotEntry(l, m, j)).Nowhere?
    decreases j - i
  {
    if i < j {
      GotLocated(l, m, i + 1, j);
    }
  }

  lemma {:induction false} PatchLocated(l: Layout, m: seq<Byte>, i: nat, j: nat)
    requires PatchesError(l, m, i).None? && i <= j < l.count
    ensures PatchError(l, Pointer(l, m, j), Target(l, m, Pointer(l, m, j))).None?
    decreases j - i
  {
    hide PatchError, Pointer, Target;
    if i < j {
      PatchLocated(l, m, i + 1, j);
    }
  }

  /** The cell an offset is relocated to holds what the offset denoted, unless it is itself a pointer or a GOT word. */
  lemma CellContent(l: Layout, m0: seq<Byte>, m: seq<Byte>, off: nat)
    requires Relocated(l, m0, m) && !SectionOf(l, off).Nowhere? && !SectionOf(l, off).Got? && Uncovered(l, m0, l.count, off)
    ensures Reloc(l, off) < SPACE && m[Reloc(l, off)] == Denotes(l, m0, off)
  {
    hide Reloc, GotOk, PatchOk, Uncovered;
    RelocIs(l, off);
  }

  /** A GOT word leads to the cell with the content that its link-time offset denoted. */
  lemma GotMeaning(l: Layout, m0: seq<Byte>, m: seq<Byte>, i: nat)
    requires Relocated(l, m0, m) && StartError(l, m0).None? && 4 * i < l.gotSize
    ensures var off, a := GotEntry(l, m0, i), LoadAt(m, l.ram + 4 * i);
      && !SectionOf(l, off).Nowhere? && a == Reloc(l, off)
      && (!SectionOf(l, off).Got? && Uncovered(l, m0, l.count, off) ==> a < SPACE && m[a] == Denotes(l, m0, off))
  {
    hide Reloc, Denotes, ContentOk, PatchOk, Uncovered, GotEntry, SectionOf;
    var off := GotEntry(l, m0, i);
    Bounds(l);
    SameSize(l, m0, m);
    GotLocated(l, m0, 0, i);
    if !SectionOf(l, off).Got? && Uncovered(l, m0, l.count, off) {
      CellContent(l, m0, m, off);
    }
  }

  /** So does a patched pointer, which is at the place its own offset was relocated to. */
  lemma PointerMeaning(l: Layout, m0: seq<Byte>, m: seq<Byte>, i: nat)
    requires Relocated(l, m0, m) && StartError(l, m0).None? && Aligned(l, m0) && i < l.count
    ensures var p := Pointer(l, m0, i); var off := Target(l, m0, p);
      && (SectionOf(l, p).RomRam? || SectionOf(l, p).Ram?) && !SectionOf(l, off).Nowhere? && !SectionOf(l, off).Got?
      && LoadAt(m, Reloc(l, p)) == Reloc(l, off)
      && (Uncovered(l, m0, l.count, off) ==> Reloc(l, off) < SPACE && m[Reloc(l, off)] == Denotes(l, m0, off))
  {
    hide Reloc, Denotes, ContentOk, GotOk, Uncovered, Pointer, Target, SectionOf, WellFormed, Elsewhere;
    var p := Pointer(l, m0, i);
    var off := Target(l, m0, p);
    PatchLocated(l, m0, 0, i);
    PatchSections(l, p, off);
    PointerPlace(l, p);
    assert Fixed(l, m0, m, p);
    if Uncovered(l, m0, l.count, off) {
      CellContent(l, m0, m, off);
    }
  }

  lemma PatchSections(l: Layout, p: nat, off: nat)
    requires PatchError(l, p, off).None?
    ensures (SectionOf(l, p).RomRam? || SectionOf(l, p).Ram?) && !SectionOf(l, off).Nowhere? && !SectionOf(l, off).Got?
  {
  }

  // ---- What the result depends on ----

  lemma SameBytes(m: seq<Byte>, m': seq<Byte>, a: nat, i: nat)
    requires a + 4 <= |m| && a + 4 <= |m'| && Load(m, a) == Load(m', a) && i < 4
    ensures m[a + i] == m'[a + i]
  {
    WordInjective(m[a], m[a + 1], m[a + 2], m[a + 3], m'[a], m'[a + 1], m'[a + 2], m'[a + 3]);
  }

  lemma LowByte(b: int, c: int, x: int, y: int)
    requires 0 <= b < 256 && 0 <= c < 256 && b + 0x100 * x == c + 0x100 * y
    ensures b == c && x == y
  {
  }

  lemma WordInjective(b0: Byte, b1: Byte, b2: Byte, b3: Byte, c0: Byte, c1: Byte, c2: Byte, c3: Byte)
    requires Word(b0, b1, b2, b3) == Word(c0, c1, c2, c3)
    ensures b0 == c0 && b1 == c1 && b2 == c2 && b3 == c3
  {
    var p3: int, q3: int := b3, c3;
    var p2: int, q2: int := b2, c2;
    var p1: int, q1: int := b1, c1;
    LowByte(b0, c0, p1 + 0x100 * (p2 + 0x100 * p3), q1 + 0x100 * (q2 + 0x100 * q3));
    LowByte(b1, c1, p2 + 0x100 * p3, q2 + 0x100 * q3);
    LowByte(b2, c2, p3, q3);
  }

  /** The same sections in ROM, and the same patch entries in any order; the rest of memory may differ. */
  ghost predicate Reordered(l: Layout, m0: seq<Byte>, n0: seq<Byte>) {
    && |m0| == SPACE == |n0|
    && (forall a :: l.rom <= a < l.RomEnd() && a < SPACE ==> m0[a] == n0[a])
    && (forall i :: 0 <= i < l.count ==> exists j :: 0 <= j < l.count && Pointer(l, n0, j) == Pointer(l, m0, i))
    && (forall j :: 0 <= j < l.count ==> exists i :: 0 <= i < l.count && Pointer(l, m0, i) == Pointer(l, n0, j))
  }

  lemma SameImage(l: Layout, m0: seq<Byte>, n0: seq<Byte>, a: nat)
    requires WellFormed(l) && Reordered(l, m0, n0) && l.rom <= a && a + 4 <= l.RomEnd()
    ensures LoadAt(m0, a) == LoadAt(n0, a)
  {
    LoadSame(m0, n0, a);
  }

  lemma SameGot(l: Layout, m0: seq<Byte>, n0: seq<Byte>, m: seq<Byte>, n: seq<Byte>, a: nat)
    requires Relocated(l, m0, m) && Relocated(l, n0, n) && Reordered(l, m0, n0) && l.ram <= a < l.ram + l.gotSize
    ensures m[a] == n[a]
  {
    hide Reloc, ContentOk, PatchOk, Reordered;
    SameSize(l, m0, m);
    SameSize(l, n0, n);
    var i := (a - l.ram) / 4;
    SameImage(l, m0, n0, l.rom + l.romSize + 4 * i);
    assert GotEntry(l, m0, i) == GotEntry(l, n0, i);
    SameBytes(m, n, l.ram + 4 * i, a - l.ram - 4 * i);
  }

  lemma SameTarget(l: Layout, m0: seq<Byte>, n0: seq<Byte>, p: nat)
    requires WellFormed(l) && Reordered(l, m0, n0) && l.rom + p + 4 <= l.RomEnd()
    ensures Target(l, m0, p) == Target(l, n0, p)
  {
    hide Reordered, Add;
    Bounds(l);
    AddExact(l.rom, p);
    SameImage(l, m0, n0, l.rom + p);
  }

  lemma SameCovered(l: Layout, m0: seq<Byte>, n0: seq<Byte>, o: nat)
    requires Reordered(l, m0, n0)
    ensures Uncovered(l, m0, l.count, o) <==> Uncovered(l, n0, l.count, o)
  {
    hide Pointer;
    if Uncovered(l, n0, l.count, o) {
      forall i | 0 <= i < l.count ensures !(Pointer(l, m0, i) <= o < Pointer(l, m0, i) + 4) {
        var j :| 0 <= j < l.count && Pointer(l, n0, j) == Pointer(l, m0, i);
      }
    }
    if Uncovered(l, m0, l.count, o) {
      forall j | 0 <= j < l.count ensures !(Pointer(l, n0, j) <= o < Pointer(l, n0, j) + 4) {
        var i :| 0 <= i < l.count && Pointer(l, m0, i) == Pointer(l, n0, j);
      }
    }
  }

  lemma SamePatched(l: Layout, m0: seq<Byte>, n0: seq<Byte>, m: seq<Byte>, n: seq<Byte>, i: nat, o: nat)
    requires Relocated(l, m0, m) && Relocated(l, n0, n) && Reordered(l, m0, n0) && StartError(l, m0).None?
    requires i < l.count && Pointer(l, m0, i) <= o < Pointer(l, m0, i) + 4 && Aligned(l, m0) && InData(l, m0)
    ensures l.romSize <= o && l.ram + (o - l.romSize) < SPACE && m[l.ram + (o - l.romSize)] == n[l.ram + (o - l.romSize)]
  {
    hide Reloc, ContentOk, GotOk, Pointer, Target, SectionOf, Elsewhere, WellFormed;
    var p := Pointer(l, m0, i);
    PatchLocated(l, m0, 0, i);
    PatchSections(l, p, Target(l, m0, p));
    PointerPlace(l, p);
    Bounds(l);
    DataWord(l, p);
    SameSize(l, m0, m);
    SameSize(l, n0, n);
    var j :| 0 <= j < l.count && Pointer(l, n0, j) == p;
    assert Fixed(l, m0, m, p) && Fixed(l, n0, n, p);
    SameTarget(l, m0, n0, p);
    SameBytes(m, n, l.ram + (p - l.romSize), o - p);
  }

  lemma SameContent(l: Layout, m0: seq<Byte>, n0: seq<Byte>, m: seq<Byte>, n: seq<Byte>, o: nat)
    requires Relocated(l, m0, m) && Relocated(l, n0, n) && Reordered(l, m0, n0)
    requires l.romSize + l.gotSize <= o < l.Offsets() && Uncovered(l, m0, l.count, o)
    ensures m[l.ram + (o - l.romSize)] == n[l.ram + (o - l.romSize)]
  {
    hide GotOk, PatchOk, Uncovered, Pointer;
    SameCovered(l, m0, n0, o);
  }

  /**
    The relocated sections depend only on the image, and not on the order of its patch
    entries, because the originals are read from ROM.
  */
  lemma ImageDecides(l: Layout, m0: seq<Byte>, n0: seq<Byte>, m: seq<Byte>, n: seq<Byte>, a: nat)
    requires Relocated(l, m0, m) && Relocated(l, n0, n) && Reordered(l, m0, n0) && StartError(l, m0).None?
    requires Aligned(l, m0) && InData(l, m0) && l.ram <= a < l.RamTop()
    ensures m[a] == n[a]
  {
    hide Reloc, ContentOk, GotOk, PatchOk, Pointer, Target, SectionOf, StartError, Aligned, InData;
    if a < l.ram + l.gotSize {
      SameGot(l, m0, n0, m, n, a);
    } else {
      var o := a - l.ram + l.romSize;
      if Uncovered(l, m0, l.count, o) {
        SameContent(l, m0, n0, m, n, o);
      } else {
        var i :| 0 <= i < l.count && Pointer(l, m0, i) <= o < Pointer(l, m0, i) + 4;
        SamePatched(l, m0, n0, m, n, i, o);
      }
    }
  }

  lemma {:induction false} SameGotError(l: Layout, m0: seq<Byte>, n0: seq<Byte>, i: nat)
    requires WellFormed(l) && Reordered(l, m0, n0)
    ensures GotError(l, m0, i) == GotError(l, n0, i)
    decreases l.gotSize - 4 * i
  {
    hide WellFormed, Reordered;
    if 4 * i < l.gotSize {
      Bounds(l);
      SameImage(l, m0, n0, l.rom + l.romSize + 4 * i);
      SameGotError(l, m0, n0, i + 1);
    }
  }

  lemma {:induction false} FirstPatchError(l: Layout, m: seq<Byte>, i: nat) returns (j: nat)
    requires PatchesError(l, m, i).Some?
    ensures i <= j < l.count && PatchError(l, Pointer(l, m, j), Target(l, m, Pointer(l, m, j))).Some?
    decreases l.count - i
  {
    hide PatchError, Pointer, Target;
    if PatchError(l, Pointer(l, m, i), Target(l, m, Pointer(l, m, i))).Some? {
      j := i;
    } else {
      j := FirstPatchError(l, m, i + 1);
    }
  }

  lemma PatchesAgree(l: Layout, m0: seq<Byte>, n0: seq<Byte>)
    requires WellFormed(l) && Reordered(l, m0, n0) && Aligned(l, m0) && InData(l, m0) && PatchesError(l, m0, 0).None?
    ensures PatchesError(l, n0, 0).None?
  {
    hide WellFormed, PatchError, Pointer, Target, SectionOf;
    if PatchesError(l, n0, 0).Some? {
      var j := FirstPatchError(l, n0, 0);
      var i :| 0 <= i < l.count && Pointer(l, m0, i) == Pointer(l, n0, j);
      PatchLocated(l, m0, 0, i);
      var p := Pointer(l, m0, i);
      PatchSections(l, p, Target(l, m0, p));
      DataWord(l, p);
      SameTarget(l, m0, n0, p);
      assert false;
    }
  }

  /** Nor does it matter for whether the start succeeds. */
  lemma ImageVerdict(l: Layout, m0: seq<Byte>, n0: seq<Byte>)
    requires WellFormed(l) && Reordered(l, m0, n0) && Aligned(l, m0) && InData(l, m0) && StartError(l, m0).None?
    ensures StartError(l, n0).None?
  {
    hide WellFormed, Reordered, Aligned, InData, GotError, PatchesError, RamTest;
    SameGotError(l, m0, n0, 0);
    PatchesAgree(l, m0, n0);
  }

  /** The word that the loop reads for a patch entry in `.ram`, past the end of the image and outside RAM. */
  predicate Stray(l: Layout, p: nat) {
    SectionOf(l, p).Ram? && l.rom + p + 4 <= SPACE && (l.rom + p + 4 <= l.ram || l.RamTop() <= l.rom + p)
  }

  lemma StrayRead(l: Layout, m0: seq<Byte>, m: seq<Byte>, p: nat)
    requires WellFormed(l) && Elsewhere(l, m0, m) && Stray(l, p)
    ensures LoadAt(m, Add(l.rom, p)) == Load(m0, l.rom + p)
  {
    hide Add;
    AddExact(l.rom, p);
    LoadSame(m0, m, l.rom + p);
  }

  lemma StrayOutside(l: Layout, m0: seq<Byte>, p: nat, w: nat)
    requires WellFormed(l) && |m0| == SPACE && Stray(l, p) && w < SPACE
    ensures var n0 := StoreAt(m0, l.rom + p, w);
      && (forall a :: l.table <= a < l.RomEnd() ==> n0[a] == m0[a]) && Load(n0, l.rom + p) == w
      && (forall i :: 0 <= i < l.count ==> Pointer(l, n0, i) == Pointer(l, m0, i))
  {
    hide Load, StoreAt, SectionOf;
    var a, n0 := l.rom + p, StoreAt(m0, l.rom + p, w);
    StrayPast(l, p);
    LoadStored(m0, n0, a, w);
    forall i | 0 <= i < l.count ensures Pointer(l, n0, i) == Pointer(l, m0, i) {
      LoadSame(m0, n0, l.table + 4 * i);
    }
  }

  lemma StrayPast(l: Layout, p: nat)
    requires WellFormed(l) && Stray(l, p)
    ensures l.RomEnd() <= l.rom + p
  {
  }

  lemma LastPatch(l: Layout, m0: seq<Byte>, m: seq<Byte>)
    requires WellFormed(l) && |m0| == SPACE == |m| && Elsewhere(l, m0, m) && l.count == 1 && Stray(l, Pointer(l, m0, 0))
    ensures Patched(l, m, 0).0 == PatchError(l, Pointer(l, m0, 0), Load(m0, l.rom + Pointer(l, m0, 0)))
  {
    hide WellFormed, Elsewhere, Load, Reloc, StoreAt, Stray, PatchError, Add;
    PatchReads(l, m0, m, 0);
    TableRead(l, m, 0);
    StrayRead(l, m0, m, Pointer(l, m0, 0));
  }

  /**
    An entry in `.ram` is accepted, and its original is read past the end of the image: of two
    memories with the same image, one start succeeds and the other stops.
  */
  lemma StrayEntry(l: Layout, m0: seq<Byte>)
    requires WellFormed(l) && |m0| == SPACE && l.count == 1 && l.romSize > 0 && Stray(l, Pointer(l, m0, 0))
    ensures var a := l.rom + Pointer(l, m0, 0);
      var good, bad := StoreAt(m0, a, 0), StoreAt(m0, a, l.Offsets());
      && (forall b :: l.table <= b < l.RomEnd() ==> good[b] == bad[b])
      && (forall m :: Loaded(l, good, m) ==> Patched(l, m, 0).0 == None)
      && (forall m :: Loaded(l, bad, m) ==> Patched(l, m, 0).0 == Some(OffsetNowhere))
  {
    hide Load, StoreAt, Patched, ContentOk, GotOk;
    var p := Pointer(l, m0, 0);
    var good, bad := StoreAt(m0, l.rom + p, 0), StoreAt(m0, l.rom + p, l.Offsets());
    StrayOutside(l, m0, p, 0);
    StrayOutside(l, m0, p, l.Offsets());
    assert Pointer(l, good, 0) == p == Pointer(l, bad, 0);
    forall m | Loaded(l, good, m) ensures Patched(l, m, 0).0 == None {
      LastPatch(l, good, m);
    }
    forall m | Loaded(l, bad, m) ensures Patched(l, m, 0).0 == Some(OffsetNowhere) {
      LastPatch(l, bad, m);
    }
  }
}
