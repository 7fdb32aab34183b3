/** The Fletcher-32 checksum over 16-bit words, with 32-bit sums that are reduced every 359 words. */
module Fletcher32 {
  const WORD: nat := 0x1_0000
  const SUM: nat := 0x1_0000_0000
  const MODULUS: nat := 0xFFFF

  ghost predicate Words(data: seq<nat>) {
    forall i :: 0 <= i < |data| ==> data[i] < WORD
  }

  // ---- What is computed ----

  ghost function Total(data: seq<nat>): nat {
    if data == [] then 0 else Total(data[..|data| - 1]) + data[|data| - 1]
  }

  /** The sum of the totals of all prefixes. */
  ghost function Running(data: seq<nat>): nat {
    if data == [] then 0 else Running(data[..|data| - 1]) + Total(data)
  }

  /** A residue modulo 65535 in ones' complement: zero is 0xffff. */
  function Half(n: nat): (r: nat)
    ensures 0 < r <= MODULUS
  {
    if n % MODULUS == 0 then MODULUS else n % MODULUS
  }

  ghost function Checksum(data: seq<nat>): nat {
    Half(Running(data)) * WORD + Half(Total(data))
  }

  // ---- Congruence ----

  ghost predicate Cong(a: int, b: int) {
    (a - b) % MODULUS == 0
  }

  lemma ModZero(a: int, b: int, k: int)
    requires a - b == k * MODULUS
    ensures Cong(a, b)
  {
  }

  lemma CongAdd(a: int, b: int, c: int, d: int)
    requires Cong(a, b) && Cong(c, d)
    ensures Cong(a + c, b + d)
  {
  }

  lemma CongRefl(a: int)
    ensures Cong(a, a)
  {
  }

  /** `(x & 0xffff) + (x >> 16)` */
  function Fold(x: nat): nat {
    x % WORD + x / WORD
  }

  lemma FoldCong(x: nat)
    ensures Cong(Fold(x), x)
    ensures x > 0 ==> Fold(x) > 0
    ensures x < SUM ==> Fold(x) <= 0x1FFFE
    ensures x <= 0x1FFFE ==> Fold(x) <= MODULUS
  {
    var h, l := x / WORD, x % WORD;
    assert x == WORD * h + l;
    ModZero(Fold(x), x, -h);
  }

  lemma HalfIs(r: nat, n: nat)
    requires 0 < r <= MODULUS && Cong(r, n)
    ensures r == Half(n)
  {
    var k, m := n / MODULUS, n % MODULUS;
    assert n == k * MODULUS + m;
    var d := (r - n) / MODULUS;
    assert r - n == d * MODULUS;
    assert r - m == (d + k) * MODULUS;
  }

  lemma HalfEqual(n: nat, m: nat)
    ensures Half(n) == Half(m) <==> Cong(n, m)
  {
    HalfCong(n);
    HalfCong(m);
    if Cong(n, m) {
      CongAdd(Half(n), n, n, m);
      assert Cong(Half(n), m);
      HalfIs(Half(n), m);
    } else if Half(n) == Half(m) {
      CongAdd(Half(n) - n, 0, n - Half(m), n - Half(m));
      CongTrans(n, Half(n), m);
    }
  }

  lemma HalfCong(n: nat)
    ensures Cong(Half(n), n) && Cong(n, Half(n))
  {
    var k := n / MODULUS;
    assert n == k * MODULUS + n % MODULUS;
    if n % MODULUS == 0 {
      ModZero(Half(n), n, 1 - k);
      ModZero(n, Half(n), k - 1);
    } else {
      ModZero(Half(n), n, -k);
      ModZero(n, Half(n), k);
    }
  }

  lemma CongTrans(a: int, b: int, c: int)
    requires Cong(a, b) && Cong(b, c)
    ensures Cong(a, c)
  {
    CongAdd(a - b, 0, b - c, 0);
  }

  // ---- The sums stay below 2^32 ----

  ghost function Tri(n: nat): nat {
    if n == 0 then 0 else Tri(n - 1) + n
  }

  lemma {:induction false} TriClosed(n: nat)
    ensures 2 * Tri(n) == n * (n + 1)
  {
    if n > 0 {
      TriClosed(n - 1);
    }
  }

  lemma {:induction false} TriMonotone(m: nat, n: nat)
    requires m <= n
    ensures Tri(m) <= Tri(n)
  {
    if m < n {
      TriMonotone(m, n - 1);
    }
  }

  /** Bounds of the two sums after `i` words of a block. */
  ghost predicate Bounded(sum1: nat, sum2: nat, i: nat) {
    sum1 <= 0x1FFFE + i * 0xFFFF && sum2 <= 0x1FFFE + i * 0x1FFFE + Tri(i) * 0xFFFF
  }

  lemma NoOverflow(sum1: nat, sum2: nat, i: nat)
    requires Bounded(sum1, sum2, i) && i <= 359
    ensures sum1 < SUM && sum2 < SUM
  {
    TriClosed(359);
    TriMonotone(i, 359);
  }

  lemma NextBounded(sum1: nat, sum2: nat, i: nat, w: nat)
    requires Bounded(sum1, sum2, i) && w < WORD
    ensures Bounded(sum1 + w, sum2 + (sum1 + w), i + 1)
  {
  }

  // ---- The loops ----

  ghost predicate Sums(data: seq<nat>, sum1: nat, sum2: nat) {
    sum1 > 0 && sum2 > 0 && Cong(sum1, Total(data)) && Cong(sum2, Running(data))
  }

  lemma NextSums(data: seq<nat>, n: nat, sum1: nat, sum2: nat)
    requires n < |data| && Sums(data[..n], sum1, sum2)
    ensures Sums(data[..n + 1], sum1 + data[n], sum2 + (sum1 + data[n]))
  {
    hide Cong;
    var next := data[..n + 1];
    assert next[..n] == data[..n] && next[n] == data[n];
    CongRefl(data[n]);
    CongAdd(sum1, Total(data[..n]), data[n], data[n]);
    CongAdd(sum2, Running(data[..n]), sum1 + data[n], Total(next));
  }

  /** The inner loop: one block of at most 359 words; additions are modulo 2^32. */
  method AddBlock(data: seq<nat>, pos: nat, tlen0: nat, s1: nat, s2: nat) returns (sum1: nat, sum2: nat)
    requires Words(data) && 0 < tlen0 <= 359 && pos + tlen0 <= |data|
    requires s1 <= 0x1FFFE && s2 <= 0x1FFFE && Sums(data[..pos], s1, s2)
    ensures sum1 < SUM && sum2 < SUM && Sums(data[..pos + tlen0], sum1, sum2)
  {
    hide Sums, Bounded, Tri;
    sum1, sum2 := s1, s2;
    var tlen, i := tlen0, 0;
    Start(s1, s2);
    while tlen > 0
      invariant tlen + i == tlen0
      invariant Bounded(sum1, sum2, i) && sum1 < SUM && sum2 < SUM && Sums(data[..pos + i], sum1, sum2)
    {
      NextBounded(sum1, sum2, i, data[pos + i]);
      NoOverflow(sum1 + data[pos + i], sum2 + (sum1 + data[pos + i]), i + 1);
      NextSums(data, pos + i, sum1, sum2);
      sum1 := (sum1 + data[pos + i]) % SUM;
      sum2 := (sum2 + sum1) % SUM;
      i := i + 1;
      tlen := tlen - 1;
    }
  }

  lemma Start(s1: nat, s2: nat)
    requires s1 <= 0x1FFFE && s2 <= 0x1FFFE
    ensures Bounded(s1, s2, 0) && s1 < SUM && s2 < SUM
  {
  }

  lemma FoldSums(data: seq<nat>, sum1: nat, sum2: nat)
    requires Sums(data, sum1, sum2)
    ensures Sums(data, Fold(sum1), Fold(sum2))
  {
    hide Cong, Fold;
    FoldCong(sum1);
    FoldCong(sum2);
    CongTrans(Fold(sum1), sum1, Total(data));
    CongTrans(Fold(sum2), sum2, Running(data));
  }

  /**
    No sum ever reaches 2^32, two foldings bring both sums into 16 bits, and the halves are
    the total and the running total modulo 65535, with zero represented as 0xffff.
  */
  method Fletcher(data: seq<nat>) returns (r: nat)
    requires Words(data)
    ensures r == Checksum(data) && r < SUM
  {
    hide Sums, Fold;
    var words, pos := |data|, 0;
    var sum1, sum2 := 0xFFFF, 0xFFFF;
    Initial(data);
    while words > 0
      invariant 0 <= words && 0 <= pos && words + pos == |data| && sum1 <= 0x1FFFE && sum2 <= 0x1FFFE && Sums(data[..pos], sum1, sum2)
    {
      var tlen := if words > 359 then 359 else words;
      words := words - tlen;
      sum1, sum2 := AddBlock(data, pos, tlen, sum1, sum2);
      pos := pos + tlen;
      FoldSums(data[..pos], sum1, sum2);
      FoldCong(sum1);
      FoldCong(sum2);
      sum1, sum2 := Fold(sum1), Fold(sum2);
    }
    assert data[..pos] == data;
    FoldSums(data, sum1, sum2);
    FoldCong(sum1);
    FoldCong(sum2);
    Final(data, Fold(sum1), Fold(sum2));
    r := Fold(sum2) * WORD + Fold(sum1);
  }

  lemma Initial(data: seq<nat>)
    ensures Sums(data[..0], 0xFFFF, 0xFFFF)
  {
    ModZero(0xFFFF, 0, 1);
  }

  lemma Final(data: seq<nat>, sum1: nat, sum2: nat)
    requires Sums(data, sum1, sum2) && sum1 <= MODULUS && sum2 <= MODULUS
    ensures sum1 == Half(Total(data)) && sum2 == Half(Running(data))
  {
    hide Half;
    HalfIs(sum1, Total(data));
    HalfIs(sum2, Running(data));
  }

  // ---- What the checksum detects ----

  lemma {:induction false} TotalChange(data: seq<nat>, i: nat, w: nat)
    requires i < |data|
    ensures Total(data[i := w]) == Total(data) + w - data[i]
    decreases |data|
  {
    var n := |data| - 1;
    if i == n {
      assert data[i := w][..n] == data[..n];
    } else {
      assert data[i := w][..n] == data[..n][i := w];
      TotalChange(data[..n], i, w);
    }
  }

  lemma {:induction false} RunningChange(data: seq<nat>, i: nat, w: nat)
    requires i < |data|
    ensures Running(data[i := w]) == Running(data) + (|data| - i) * (w - data[i])
    decreases |data|
  {
    var n := |data| - 1;
    TotalChange(data, i, w);
    if i == n {
      assert data[i := w][..n] == data[..n];
    } else {
      assert data[i := w][..n] == data[..n][i := w];
      RunningChange(data[..n], i, w);
      var x: int := w - data[i];
      assert (n - i) * x + x == (n + 1 - i) * x;
    }
  }

  /** Equal as 16-bit words in ones' complement: the same, or both zero. */
  predicate SameResidue(a: nat, b: nat) {
    a == b || (a == 0 && b == 0xFFFF) || (a == 0xFFFF && b == 0)
  }

  lemma WordsCong(a: nat, b: nat)
    requires a < WORD && b < WORD
    ensures Cong(a, b) <==> SameResidue(a, b)
  {
  }

  lemma ChecksumHalves(data: seq<nat>, other: seq<nat>)
    ensures Checksum(data) == Checksum(other) <==> Cong(Total(data), Total(other)) && Cong(Running(data), Running(other))
  {
    hide Cong, Half;
    HalfEqual(Total(data), Total(other));
    HalfEqual(Running(data), Running(other));
  }

  lemma CongMultiple(a: int, b: int, k: int)
    requires Cong(a, b)
    ensures Cong(k * (a - b), 0)
  {
    var d := (a - b) / MODULUS;
    assert a - b == d * MODULUS;
    assert k * (a - b) == (k * d) * MODULUS;
    ModZero(k * (a - b), 0, k * d);
  }

  /** Changing one word changes the checksum, unless it swaps 0x0000 and 0xffff. */
  lemma DetectsChange(data: seq<nat>, i: nat, w: nat)
    requires Words(data) && i < |data| && w < WORD
    ensures Checksum(data[i := w]) == Checksum(data) <==> SameResidue(w, data[i])
  {
    TotalChange(data, i, w);
    RunningChange(data, i, w);
    ChecksumHalves(data[i := w], data);
    WordsCong(w, data[i]);
    if Cong(w, data[i]) {
      CongMultiple(w, data[i], |data| - i);
    }
  }

  lemma ExchangeSums(data: seq<nat>, i: nat)
    requires i + 1 < |data|
    ensures var other := data[i := data[i + 1]][i + 1 := data[i]];
      Total(other) == Total(data) && Running(other) == Running(data) + data[i + 1] - data[i]
  {
    hide Total, Running;
    var mid := data[i := data[i + 1]];
    TotalChange(data, i, data[i + 1]);
    TotalChange(mid, i + 1, data[i]);
    RunningChange(data, i, data[i + 1]);
    RunningChange(mid, i + 1, data[i]);
    var n: int, a: int, b: int := |data| - i, data[i + 1], data[i];
    assert n * (a - b) + (n - 1) * (b - a) == a - b;
  }

  /** Exchanging two neighbouring words changes it as well, with the same exception. */
  lemma DetectsExchange(data: seq<nat>, i: nat)
    requires Words(data) && i + 1 < |data|
    ensures Checksum(data[i := data[i + 1]][i + 1 := data[i]]) == Checksum(data) <==> SameResidue(data[i + 1], data[i])
  {
    hide Total, Running, Checksum;
    ExchangeSums(data, i);
    ChecksumHalves(data[i := data[i + 1]][i + 1 := data[i]], data);
    WordsCong(data[i + 1], data[i]);
  }
}
