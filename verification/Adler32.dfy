/** The Adler-32 checksum, as in section 8.2 of RFC 1950. */
module Adler32 {
  import opened Bytes

  const BASE: int := 65521

  /** The sum of two remainders modulo BASE. */
  function Add(x: int, y: int): (r: int)
    requires 0 <= x < BASE && 0 <= y < BASE
    ensures 0 <= r < BASE
  {
    if x + y < BASE then x + y else x + y - BASE
  }

  lemma AddIsRemainder(x: int, y: int)
    requires 0 <= x < BASE && 0 <= y < BASE
    ensures Add(x, y) == (x + y) % BASE
  {
  }

  function SumA(bs: seq<Byte>): (a: int)
    ensures 0 <= a < BASE
  {
    if bs == [] then 1 else Add(SumA(bs[..|bs| - 1]), bs[|bs| - 1])
  }

  function SumB(bs: seq<Byte>): (b: int)
    ensures 0 <= b < BASE
  {
    if bs == [] then 0 else Add(SumB(bs[..|bs| - 1]), SumA(bs))
  }

  function Checksum(bs: seq<Byte>): (u: nat)
    ensures u < Pow256(4)
  {
    SumB(bs) * 65536 + SumA(bs)
  }

  // ---------------------------------------------------------------------------
  // The sums of RFC 1950
  // ---------------------------------------------------------------------------

  function Total(bs: seq<Byte>): nat { if bs == [] then 0 else bs[0] + Total(bs[1..]) }

  /** `d` added `k` times. */
  function Times(k: nat, d: int): int { if k == 0 then 0 else Times(k - 1, d) + d }

  /** Every byte times the number of bytes from it to the end. */
  function Weighted(bs: seq<Byte>): int { if bs == [] then 0 else Times(|bs|, bs[0]) + Weighted(bs[1..]) }

  lemma {:induction false} SumsAppend(bs: seq<Byte>, x: Byte)
    ensures Total(bs + [x]) == Total(bs) + x
    ensures Weighted(bs + [x]) == Weighted(bs) + Total(bs) + x
  {
    if bs == [] {
      assert (bs + [x])[1..] == [] && Times(1, x) == x;
    } else {
      assert (bs + [x])[1..] == bs[1..] + [x];
      SumsAppend(bs[1..], x);
    }
  }

  lemma AddRemainders(a: int, b: int, x: int, y: int)
    requires x == a % BASE && y == b % BASE
    ensures Add(x, y) == (a + b) % BASE
  {
    assert a == a / BASE * BASE + x && b == b / BASE * BASE + y;
  }

  lemma ByteRemainder(b: Byte)
    ensures b == b % BASE
  {
  }

  /** The low half: one plus the sum of the bytes. */
  lemma {:induction false} LowSum(bs: seq<Byte>)
    ensures SumA(bs) == (1 + Total(bs)) % BASE
  {
    if bs != [] {
      var front, last := bs[..|bs| - 1], bs[|bs| - 1];
      LowSum(front);
      SumsAppend(front, last);
      assert bs == front + [last];
      ByteRemainder(last);
      AddRemainders(1 + Total(front), last, SumA(front), last);
    }
  }

  /**
   The high half: the sum of all intermediate low halves, that is, the number of
   bytes plus each byte as often as there are bytes from it to the end.
   */
  lemma {:induction false} HighSum(bs: seq<Byte>)
    ensures SumB(bs) == (|bs| + Weighted(bs)) % BASE
  {
    if bs != [] {
      var front, last := bs[..|bs| - 1], bs[|bs| - 1];
      HighSum(front);
      LowSum(bs);
      SumsAppend(front, last);
      assert bs == front + [last];
      AddRemainders(|front| + Weighted(front), 1 + Total(bs), SumB(front), SumA(bs));
      assert |bs| + Weighted(bs) == |front| + Weighted(front) + (1 + Total(bs));
    }
  }

  /** Together they are the checksum of RFC 1950. */
  lemma ChecksumOfRfc1950(bs: seq<Byte>)
    ensures Checksum(bs) == (|bs| + Weighted(bs)) % BASE * 65536 + (1 + Total(bs)) % BASE
  {
    LowSum(bs);
    HighSum(bs);
  }

  // ---------------------------------------------------------------------------
  // Congruence modulo BASE
  // ---------------------------------------------------------------------------

  predicate Same(x: int, y: int) { (x - y) % BASE == 0 }

  lemma Multiple(q: int)
    ensures (q * BASE) % BASE == 0
  {
  }

  lemma SameSum(x: int, y: int, u: int, v: int)
    requires Same(x, y) && Same(u, v)
    ensures Same(x + u, y + v)
  {
    assert x - y == ((x - y) / BASE) * BASE && u - v == ((u - v) / BASE) * BASE;
    assert (x + u) - (y + v) == ((x - y) / BASE + (u - v) / BASE) * BASE;
    Multiple((x - y) / BASE + (u - v) / BASE);
  }

  /** Numbers less than BASE apart are congruent only if equal. */
  lemma SameClose(x: int, y: int)
    requires Same(x, y) && -BASE < x - y < BASE
    ensures x == y
  {
    assert x - y == ((x - y) / BASE) * BASE;
  }

  /** Adding to both sides of two congruences. */
  lemma SameAdd(x: int, y: int, d: int, u: int, v: int, e: int)
    requires 0 <= x < BASE && 0 <= y < BASE && 0 <= u < BASE && 0 <= v < BASE
    requires Same(x, y + d) && Same(u, v + e)
    ensures Same(Add(x, u), Add(y, v) + (d + e))
  {
    SameSum(x, y + d, u, v + e);
    assert Same(0, BASE) && Same(BASE, 0) by { Multiple(1); Multiple(-1); }
    var s, t := x + u, y + d + (v + e);
    if s >= BASE { SameSum(s, t, 0 - BASE, 0); }
    var s' := Add(x, u);
    assert Same(s', t);
    if y + v >= BASE { SameSum(s', t, 0, 0 - BASE); }
  }

  // ---------------------------------------------------------------------------
  // Error detection
  // ---------------------------------------------------------------------------

  /** The first sum moves by exactly the change of one byte. */
  lemma {:induction false} SumAShift(bs: seq<Byte>, i: nat, x: Byte)
    requires i < |bs|
    ensures Same(SumA(bs[i := x]), SumA(bs) + (x - bs[i]))
  {
    var n := |bs| - 1;
    var cs := bs[i := x];
    if i < n {
      SumAShift(bs[..n], i, x);
      assert cs[..n] == bs[..n][i := x];
      SameAdd(SumA(cs[..n]), SumA(bs[..n]), x - bs[i], bs[n], bs[n], 0);
    } else {
      assert cs[..n] == bs[..n];
      SameAdd(SumA(bs[..n]), SumA(bs[..n]), 0, x, bs[n], x - bs[n]);
    }
  }

  lemma ChecksumHalves(bs: seq<Byte>)
    ensures Checksum(bs) % 65536 == SumA(bs) && Checksum(bs) / 65536 == SumB(bs)
  {
  }

  /** Any change of a single byte changes the checksum. */
  lemma OneByteChangesChecksum(bs: seq<Byte>, i: nat, x: Byte)
    requires i < |bs| && x != bs[i]
    ensures Checksum(bs[i := x]) != Checksum(bs)
  {
    SumAShift(bs, i, x);
    if SumA(bs[i := x]) == SumA(bs) { SameClose(SumA(bs), SumA(bs) + (x - bs[i])); }
    ChecksumHalves(bs);
    ChecksumHalves(bs[i := x]);
  }

  lemma {:induction false} TimesCancel(k: nat, d: int)
    ensures Times(k, d) + Times(k, 0 - d) == 0
  {
    if k > 0 { TimesCancel(k - 1, d); }
  }

  /** The second sum moves by the change of one byte once per position from there to the end. */
  lemma {:induction false} SumBShift(bs: seq<Byte>, i: nat, x: Byte, d: int)
    requires i < |bs| && d == x - bs[i]
    ensures Same(SumB(bs[i := x]), SumB(bs) + Times(|bs| - i, d))
  {
    var n := |bs| - 1;
    if i < n {
      SumBShift(bs[..n], i, x, d);
      SumBShiftStep(bs, i, x, d);
    } else {
      SumBShiftLast(bs, x, d);
    }
  }

  lemma SumBShiftStep(bs: seq<Byte>, i: nat, x: Byte, d: int)
    requires i < |bs| - 1 && d == x - bs[i]
    requires var n := |bs| - 1; Same(SumB(bs[..n][i := x]), SumB(bs[..n]) + Times(n - i, d))
    ensures Same(SumB(bs[i := x]), SumB(bs) + Times(|bs| - i, d))
  {
    var n, cs := |bs| - 1, bs[i := x];
    SumAShift(bs, i, x);
    assert cs[..n] == bs[..n][i := x];
    SameAdd(SumB(cs[..n]), SumB(bs[..n]), Times(n - i, d), SumA(cs), SumA(bs), d);
  }

  lemma SumBShiftLast(bs: seq<Byte>, x: Byte, d: int)
    requires bs != [] && d == x - bs[|bs| - 1]
    ensures Same(SumB(bs[|bs| - 1 := x]), SumB(bs) + Times(1, d))
  {
    var n := |bs| - 1;
    var cs := bs[n := x];
    SumAShift(bs, n, x);
    assert cs[..n] == bs[..n] && Times(1, d) == d;
    SameAdd(SumB(bs[..n]), SumB(bs[..n]), 0, SumA(cs), SumA(bs), d);
  }

  lemma SameChain(p: int, q: int, r: int, d: int, e: int)
    requires Same(q, p + d) && Same(r, q + e)
    ensures Same(r, p + (d + e))
  {
    SameSum(q, p + d, r, q + e);
    SameSum(q + r, p + d + (q + e), 0 - q, 0 - q);
  }

  /** Exchanging two unequal neighbours changes the second sum. */
  lemma NeighbourSwapChangesChecksum(bs: seq<Byte>, i: nat)
    requires i + 1 < |bs| && bs[i] != bs[i + 1]
    ensures Checksum(bs[i := bs[i + 1]][i + 1 := bs[i]]) != Checksum(bs)
  {
    var x: int, y: int, k: nat := bs[i], bs[i + 1], |bs| - i - 1;
    var d := y - x;
    var cs := bs[i := bs[i + 1]];
    var ds := cs[i + 1 := bs[i]];
    SumBShift(bs, i, bs[i + 1], d);
    SumBShift(cs, i + 1, bs[i], 0 - d);
    TimesCancel(k, d);
    SameChain(SumB(bs), SumB(cs), SumB(ds), Times(k + 1, d), Times(k, 0 - d));
    if SumB(ds) == SumB(bs) { SameClose(SumB(bs), SumB(bs) + d); }
    ChecksumHalves(bs);
    ChecksumHalves(ds);
  }

  function Zeros(n: nat): (bs: seq<Byte>)
    ensures |bs| == n
  {
    seq(n, _ => 0)
  }

  /** The checksum does tell texts of zeros of different length apart, as long as the length counts modulo BASE. */
  lemma {:induction false} ZeroSums(n: nat)
    ensures SumA(Zeros(n)) == 1 && SumB(Zeros(n)) == n % BASE
  {
    if n > 0 {
      ZeroSums(n - 1);
      assert Zeros(n)[..n - 1] == Zeros(n - 1);
      AddIsRemainder((n - 1) % BASE, 1);
    }
  }
}
