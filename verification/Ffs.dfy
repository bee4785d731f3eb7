/**
 Find first set (rt-thread/src/kservice.c, both table forms of __rt_ffs). Masks are unsigned numbers, and
 the bitwise operators are defined on their binary digits.
 */
module Ffs {

  // ----- bits -----

  /** Bit `k` of `v`. */
  predicate Bit(v: nat, k: nat) {
    if k == 0 then v % 2 == 1 else Bit(v / 2, k - 1)
  }

  /** 1 << k. */
  function Pow2(k: nat): (p: nat)
    ensures p > 0
  {
    if k == 0 then 1 else 2 * Pow2(k - 1)
  }

  function Or(a: nat, b: nat): nat {
    if a == 0 then b else if b == 0 then a
    else 2 * Or(a / 2, b / 2) + if a % 2 == 1 || b % 2 == 1 then 1 else 0
  }

  function And(a: nat, b: nat): nat {
    if a == 0 || b == 0 then 0
    else 2 * And(a / 2, b / 2) + if a % 2 == 1 && b % 2 == 1 then 1 else 0
  }

  function Xor(a: nat, b: nat): nat {
    if a == 0 then b else if b == 0 then a
    else 2 * Xor(a / 2, b / 2) + if a % 2 != b % 2 then 1 else 0
  }

  /** a & ~b. */
  function AndNot(a: nat, b: nat): nat {
    if a == 0 then 0
    else 2 * AndNot(a / 2, b / 2) + if a % 2 == 1 && b % 2 == 0 then 1 else 0
  }

  lemma {:induction false} ZeroBit(k: nat)
    ensures !Bit(0, k)
  {
    if k > 0 { ZeroBit(k - 1); }
  }

  lemma {:induction false} OrBit(a: nat, b: nat, k: nat)
    ensures Bit(Or(a, b), k) <==> Bit(a, k) || Bit(b, k)
  {
    ZeroBit(k);
    if k > 0 && a > 0 && b > 0 { OrBit(a / 2, b / 2, k - 1); }
  }

  lemma {:induction false} AndNotBit(a: nat, b: nat, k: nat)
    ensures Bit(AndNot(a, b), k) <==> Bit(a, k) && !Bit(b, k)
  {
    ZeroBit(k);
    if k > 0 && a > 0 { AndNotBit(a / 2, b / 2, k - 1); }
  }

  lemma {:induction false} Pow2Bit(p: nat, k: nat)
    ensures Bit(Pow2(p), k) <==> k == p
  {
    if p == 0 {
      if k > 0 { ZeroBit(k - 1); }
    } else if k > 0 {
      Pow2Bit(p - 1, k - 1);
    }
  }

  lemma {:induction false} OrSmall(a: nat, b: nat, n: nat)
    requires a < Pow2(n) && b < Pow2(n)
    ensures Or(a, b) < Pow2(n)
  {
    if n > 0 && a > 0 && b > 0 { OrSmall(a / 2, b / 2, n - 1); }
  }

  lemma {:induction false} AndNotSmall(a: nat, b: nat)
    ensures AndNot(a, b) <= a
  {
    if a > 0 { AndNotSmall(a / 2, b / 2); }
  }

  lemma {:induction false} Pow2Grows(k: nat, n: nat)
    requires k < n
    ensures Pow2(k) < Pow2(n)
  {
    if k < n - 1 { Pow2Grows(k, n - 1); }
  }

  // ----- the lowest bit -----

  function Low(v: nat): nat
    requires v > 0
  {
    if v % 2 == 1 then 0 else 1 + Low(v / 2)
  }

  lemma {:induction false} LowIsLowest(v: nat)
    requires v > 0
    ensures Bit(v, Low(v)) && forall k: nat :: k < Low(v) ==> !Bit(v, k)
  {
    if v % 2 == 0 {
      LowIsLowest(v / 2);
      forall k: nat | k < Low(v) ensures !Bit(v, k) {
        if k > 0 { assert Bit(v, k) == Bit(v / 2, k - 1); }
      }
    }
  }

  lemma {:induction false} LowBounded(v: nat, n: nat)
    requires 0 < v < Pow2(n)
    ensures Low(v) < n
  {
    if v % 2 == 0 { LowBounded(v / 2, n - 1); }
  }

  // ----- the table of 256 entries -----

  /** The table has 16 rows of 16 entries; they differ in their first entries, given here. */
  const FIRST: seq<nat> := [0, 4, 5, 4, 6, 4, 5, 4, 7, 4, 5, 4, 6, 4, 5, 4]
  const ROW: seq<nat> := [0, 0, 1, 0, 2, 0, 1, 0, 3, 0, 1, 0, 2, 0, 1, 0]

  /** __lowest_bit_bitmap[b]. */
  function LowestBit(b: nat): nat
    requires b < 256
  {
    if b % 16 == 0 then FIRST[b / 16] else ROW[b % 16]
  }

  lemma RowIsLow(b: nat)
    requires 0 < b < 16
    ensures ROW[b] == Low(b)
  {
    hide Low;
    LowSmall(b);
  }

  lemma LowSmall(b: nat)
    requires 0 < b < 16
    ensures Low(b) == if b % 2 == 1 then 0 else if b % 4 == 2 then 1 else if b % 8 == 4 then 2 else 3
  {
    if b % 2 == 0 {
      assert Low(b) == 1 + Low(b / 2);
      if (b / 2) % 2 == 0 { assert Low(b / 2) == 1 + Low(b / 4); }
    }
  }

  lemma DivModIs(x: nat, m: nat, q: nat, r: nat)
    requires r < m && x == m * q + r
    ensures x / m == q && x % m == r
  {
    var q', r' := x / m, x % m;
    assert x == m * q' + r';
    MulMonotone(m, q' + 1, q);
    MulMonotone(m, q + 1, q');
  }

  lemma MulMonotone(m: nat, a: nat, b: nat)
    ensures a <= b ==> m * a <= m * b
  {
  }

  /** Division by 2m is division by 2 and then by m. */
  lemma HalfMod(v: nat, m: nat)
    requires m > 0
    ensures v / (2 * m) == (v / 2) / m && (v % (2 * m)) / 2 == (v / 2) % m && (v % (2 * m)) % 2 == v % 2
  {
    var q, r := (v / 2) / m, (v / 2) % m;
    assert v / 2 == m * q + r;
    assert v == (2 * m) * q + (2 * r + v % 2);
    DivModIs(v, 2 * m, q, 2 * r + v % 2);
  }

  /** The lowest bit is in the lowest n, or that of the rest. */
  lemma {:induction false} LowSplit(v: nat, n: nat)
    requires v > 0
    ensures v % Pow2(n) != 0 ==> Low(v) == Low(v % Pow2(n))
    ensures v % Pow2(n) == 0 ==> v / Pow2(n) > 0 && Low(v) == n + Low(v / Pow2(n))
  {
    if n > 0 {
      HalfMod(v, Pow2(n - 1));
      if v % 2 == 0 { LowSplit(v / 2, n - 1); }
    }
  }

  lemma Pow2Next4(k: nat)
    ensures Pow2(k + 4) == 16 * Pow2(k)
  {
    assert Pow2(k + 2) == 2 * Pow2(k + 1);
  }

  lemma Pow2Values()
    ensures Pow2(4) == 0x10 && Pow2(8) == 0x100 && Pow2(12) == 0x1000 && Pow2(16) == 0x1_0000
    ensures Pow2(20) == 0x10_0000 && Pow2(24) == 0x100_0000 && Pow2(28) == 0x1000_0000 && Pow2(32) == 0x1_0000_0000
  {
    Pow2Next4(0);
    Pow2Next4(4);
    Pow2Next4(8);
    Pow2Next4(12);
    Pow2Next4(16);
    Pow2Next4(20);
    Pow2Next4(24);
    Pow2Next4(28);
  }

  lemma Low16(v: nat)
    requires v > 0
    ensures v % 16 != 0 ==> Low(v) == Low(v % 16)
    ensures v % 16 == 0 ==> Low(v) == 4 + Low(v / 16)
  {
    Pow2Values();
    LowSplit(v, 4);
  }

  lemma LowestBitIsLow(b: nat)
    requires 0 < b < 256
    ensures LowestBit(b) == Low(b)
  {
    hide Low;
    Low16(b);
    if b % 16 == 0 { RowIsLow(b / 16); } else { RowIsLow(b % 16); }
  }

  /** __rt_ffs with the table of 256 entries. */
  function FfsBytes(value: nat): nat
    requires value < 0x1_0000_0000
  {
    if value == 0 then 0
    else if value % 0x100 != 0 then LowestBit(value % 0x100) + 1
    else if value / 0x100 % 0x100 != 0 then LowestBit(value / 0x100 % 0x100) + 9
    else if value / 0x1_0000 % 0x100 != 0 then LowestBit(value / 0x1_0000 % 0x100) + 17
    else LowestBit(value / 0x100_0000) + 25
  }

  lemma Low256(v: nat)
    requires v > 0
    ensures v % 256 != 0 ==> Low(v) == Low(v % 256)
    ensures v % 256 == 0 ==> Low(v) == 8 + Low(v / 256)
  {
    Pow2Values();
    LowSplit(v, 8);
  }

  lemma FfsBytesIsLow(value: nat)
    requires 0 < value < 0x1_0000_0000
    ensures FfsBytes(value) == Low(value) + 1
  {
    hide Low, LowestBit;
    Low256(value);
    var b, c, d := value / 0x100, value / 0x1_0000, value / 0x100_0000;
    assert c == b / 0x100 && d == c / 0x100;
    if value % 0x100 != 0 {
      LowestBitIsLow(value % 0x100);
    } else {
      Low256(b);
      if b % 0x100 != 0 {
        LowestBitIsLow(b % 0x100);
      } else {
        Low256(c);
        LowestBitIsLow(if c % 0x100 != 0 then c % 0x100 else d);
      }
    }
  }

  // ----- the table of 37 entries -----

  const TINY: seq<nat> := [
    0, 1, 2, 27, 3, 24, 28, 32,
    4, 17, 25, 31, 29, 12, 32, 14,
    5, 8, 18, 32, 26, 23, 32, 16,
    30, 11, 13, 7, 32, 22, 15, 10,
    6, 21, 9, 20, 19]

  /** __rt_ffs with the table of 37 entries. */
  function FfsTiny(value: nat): nat
    requires value < 0x1_0000_0000
  {
    if value == 0 then TINY[0] else TINY[Xor(And(value, value - 1), value) % 37]
  }

  /** value & (value - 1) ^ value keeps the lowest bit only. */
  lemma {:induction false} IsolatesLow(v: nat)
    requires v > 0
    ensures Xor(And(v, v - 1), v) == Pow2(Low(v))
  {
    if v % 2 == 1 {
      AndSelf(v / 2);
      assert (v - 1) / 2 == v / 2;
      assert And(v, v - 1) == v - 1;
      XorNext(v / 2);
    } else {
      IsolatesLow(v / 2);
      assert (v - 1) / 2 == v / 2 - 1;
    }
  }

  lemma {:induction false} AndSelf(v: nat)
    ensures And(v, v) == v
  {
    if v > 0 { AndSelf(v / 2); }
  }

  lemma {:induction false} XorNext(h: nat)
    ensures Xor(2 * h, 2 * h + 1) == 1
  {
    if h > 0 { XorSelf(h); }
  }

  lemma {:induction false} XorSelf(v: nat)
    ensures Xor(v, v) == 0
  {
    if v > 0 { XorSelf(v / 2); }
  }

  /** The remainders of the 32 powers of two by 37, which are all different. */
  const REMAINDERS: seq<nat> := [1, 2, 4, 8, 16, 32, 27, 17, 34, 31, 25, 13, 26, 15, 30, 23, 9, 18, 36, 35, 33, 29, 21, 5, 10, 20, 3, 6, 12, 24, 11, 22]

  function Remainder(k: nat): nat
    requires k < 32
  {
    REMAINDERS[k]
  }

  lemma {:induction false} RemainderIs(k: nat)
    requires k < 32
    ensures Pow2(k) % 37 == Remainder(k)
  {
    hide Remainder;
    if k == 0 {
      FirstRemainder();
    } else {
      RemainderIs(k - 1);
      RemainderStep(k - 1);
      DoubleMod(Pow2(k - 1), Remainder(k - 1));
    }
  }

  lemma FirstRemainder()
    ensures Remainder(0) == 1
  {
  }

  lemma RemainderStep(k: nat)
    requires k < 31
    ensures Remainder(k + 1) == if 2 * Remainder(k) < 37 then 2 * Remainder(k) else 2 * Remainder(k) - 37
  {
  }

  lemma DoubleMod(p: nat, r: nat)
    requires p % 37 == r
    ensures 2 * p % 37 == if 2 * r < 37 then 2 * r else 2 * r - 37
  {
  }

  lemma TinyIsLog(k: nat)
    requires k < 32
    ensures TINY[Pow2(k) % 37] == k + 1
  {
    RemainderIs(k);
    TinyOfRemainder(k);
  }

  lemma TinyOfRemainder(k: nat)
    requires k < 32
    ensures Remainder(k) < 37 && TINY[Remainder(k)] == k + 1
  {
    if k < 8 { Tiny0(k); } else if k < 16 { Tiny8(k); } else if k < 24 { Tiny16(k); } else { Tiny24(k); }
  }

  lemma Tiny0(k: nat)
    requires k < 8
    ensures Remainder(k) < 37 && TINY[Remainder(k)] == k + 1
  {
  }

  lemma Tiny8(k: nat)
    requires 8 <= k < 16
    ensures Remainder(k) < 37 && TINY[Remainder(k)] == k + 1
  {
  }

  lemma Tiny16(k: nat)
    requires 16 <= k < 24
    ensures Remainder(k) < 37 && TINY[Remainder(k)] == k + 1
  {
  }

  lemma Tiny24(k: nat)
    requires 24 <= k < 32
    ensures Remainder(k) < 37 && TINY[Remainder(k)] == k + 1
  {
  }

  lemma FfsTinyIsLow(value: nat)
    requires 0 < value < 0x1_0000_0000
    ensures FfsTiny(value) == Low(value) + 1
  {
    Pow2Values();
    LowBounded(value, 32);
    IsolatesLow(value);
    TinyIsLog(Low(value));
  }

  /** Both forms find the lowest bit set, counted from 1, and 0 if there is none. */
  lemma FfsFindsLowest(value: nat)
    requires value < 0x1_0000_0000
    ensures FfsBytes(value) == FfsTiny(value) <= 32
    ensures value == 0 <==> FfsBytes(value) == 0
    ensures value > 0 ==> Bit(value, FfsBytes(value) - 1) && forall k: nat :: k < FfsBytes(value) - 1 ==> !Bit(value, k)
  {
    if value > 0 {
      Pow2Values();
      LowBounded(value, 32);
      FfsBytesIsLow(value);
      FfsTinyIsLow(value);
      LowIsLowest(value);
    }
  }
}
