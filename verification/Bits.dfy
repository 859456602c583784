/** Bits of natural numbers: shifts, masks and the bit reversal of client/stb_image.h. */
module Bits {

  type byte = x: int | 0 <= x < 256

  function Pow2(n: nat): (p: nat)
    ensures p > 0
  {
    if n == 0 then 1 else 2 * Pow2(n - 1)
  }

  /** Bit n of x, the least significant bit being bit 0. */
  function Bit(x: nat, n: nat): (b: nat)
    ensures b < 2
  {
    if n == 0 then x % 2 else Bit(x / 2, n - 1)
  }

  /** x & ((1 << n) - 1). */
  function Low(x: nat, n: nat): nat {
    if n == 0 then 0 else x % 2 + 2 * Low(x / 2, n - 1)
  }

  /** x >> n. */
  function Shr(x: nat, n: nat): nat {
    if n == 0 then x else Shr(x / 2, n - 1)
  }

  /** x << n, in a width that loses nothing. */
  function Shl(x: nat, n: nat): nat {
    if n == 0 then x else 2 * Shl(x, n - 1)
  }

  function And(x: nat, y: nat): nat {
    if x == 0 || y == 0 then 0
    else (if x % 2 == 1 && y % 2 == 1 then 1 else 0) + 2 * And(x / 2, y / 2)
  }

  function Or(x: nat, y: nat): nat {
    if x == 0 then y else if y == 0 then x
    else (if x % 2 == 1 || y % 2 == 1 then 1 else 0) + 2 * Or(x / 2, y / 2)
  }

  /** The low s bits of x read with the first bit as the most significant one. */
  function Rev(x: nat, s: nat): nat {
    if s == 0 then 0 else 2 * Rev(x, s - 1) + Bit(x, s - 1)
  }

  lemma {:induction false} BitShr(x: nat, k: nat, n: nat)
    ensures Bit(Shr(x, k), n) == Bit(x, k + n)
  {
    if k > 0 { BitShr(x / 2, k - 1, n); }
  }

  lemma {:induction false} BitShl(x: nat, k: nat, n: nat)
    ensures Bit(Shl(x, k), n) == if n < k then 0 else Bit(x, n - k)
  {
    if k > 0 && n > 0 { BitShl(x, k - 1, n - 1); }
  }

  lemma {:induction false} BitZero(n: nat)
    ensures Bit(0, n) == 0
  {
    if n > 0 { BitZero(n - 1); }
  }

  lemma {:induction false} BitAnd(x: nat, y: nat, n: nat)
    ensures Bit(And(x, y), n) == if Bit(x, n) == 1 && Bit(y, n) == 1 then 1 else 0
    decreases n
  {
    if x == 0 || y == 0 {
      BitZero(n);
    } else if n > 0 {
      BitAnd(x / 2, y / 2, n - 1);
    }
  }

  lemma {:induction false} BitOr(x: nat, y: nat, n: nat)
    ensures Bit(Or(x, y), n) == if Bit(x, n) == 1 || Bit(y, n) == 1 then 1 else 0
  {
    BitZero(n);
    if x != 0 && y != 0 && n > 0 {
      BitOr(x / 2, y / 2, n - 1);
    }
  }

  lemma {:induction false} OrBound(x: nat, y: nat, n: nat)
    requires x < Pow2(n) && y < Pow2(n)
    ensures Or(x, y) < Pow2(n)
  {
    if x != 0 && y != 0 && n > 0 {
      OrBound(x / 2, y / 2, n - 1);
    }
  }

  lemma {:induction false} AndBound(x: nat, y: nat)
    ensures And(x, y) <= y
  {
    if x != 0 && y != 0 {
      AndBound(x / 2, y / 2);
    }
  }

  /** Numbers below 2^n are determined by their low n bits. */
  lemma {:induction false} SameBits(x: nat, y: nat, n: nat)
    requires x < Pow2(n) && y < Pow2(n)
    requires forall t :: 0 <= t < n ==> Bit(x, t) == Bit(y, t)
    ensures x == y
  {
    if n > 0 {
      assert Bit(x, 0) == Bit(y, 0);
      forall t | 0 <= t < n - 1
        ensures Bit(x / 2, t) == Bit(y / 2, t)
      {
        assert Bit(x, t + 1) == Bit(y, t + 1);
      }
      SameBits(x / 2, y / 2, n - 1);
    }
  }

  lemma {:induction false} BitLow(x: nat, n: nat, t: nat)
    requires t < n
    ensures Bit(Low(x, n), t) == Bit(x, t)
  {
    if t > 0 {
      BitLow(x / 2, n - 1, t - 1);
    }
  }

  lemma {:induction false} LowBound(x: nat, n: nat)
    ensures Low(x, n) < Pow2(n)
  {
    if n > 0 { LowBound(x / 2, n - 1); }
  }

  lemma {:induction false} LowSmall(x: nat, n: nat)
    requires x < Pow2(n)
    ensures Low(x, n) == x
  {
    if n > 0 { LowSmall(x / 2, n - 1); }
  }

  /** Numbers with the same low n bits are at least 2^n apart, and adding 2^n keeps them. */
  lemma {:induction false} LowGap(x: nat, y: nat, n: nat)
    requires x < y && Low(x, n) == Low(y, n)
    ensures x + Pow2(n) <= y
  {
    if n > 0 { LowGap(x / 2, y / 2, n - 1); }
  }

  lemma {:induction false} LowPeriod(x: nat, n: nat)
    ensures Low(x + Pow2(n), n) == Low(x, n)
  {
    if n > 0 {
      assert (x + Pow2(n)) / 2 == x / 2 + Pow2(n - 1);
      LowPeriod(x / 2, n - 1);
    }
  }

  lemma {:induction false} RevBound(x: nat, s: nat)
    ensures Rev(x, s) < Pow2(s)
  {
    if s > 0 { RevBound(x, s - 1); }
  }

  lemma {:induction false} RevBit(x: nat, s: nat, t: nat)
    requires t < s
    ensures Bit(Rev(x, s), t) == Bit(x, s - 1 - t)
  {
    var y := Rev(x, s);
    if t > 0 {
      RevBit(x, s - 1, t - 1);
      assert y / 2 == Rev(x, s - 1) && Bit(y, t) == Bit(y / 2, t - 1);
    } else {
      assert y % 2 == Bit(x, s - 1);
    }
  }

  /** Reading twice with the order turned round gives the low bits back. */
  lemma RevRev(x: nat, s: nat)
    ensures Rev(Rev(x, s), s) == Low(x, s)
  {
    var y := Rev(Rev(x, s), s);
    RevBound(Rev(x, s), s);
    LowBound(x, s);
    forall t | 0 <= t < s
      ensures Bit(y, t) == Bit(Low(x, s), t)
    {
      RevBit(Rev(x, s), s, t);
      RevBit(x, s, s - 1 - t);
      BitLow(x, s, t);
    }
    SameBits(y, Low(x, s), s);
  }

  lemma {:induction false} RevLow(x: nat, n: nat, s: nat)
    requires s <= n
    ensures Rev(Low(x, n), s) == Rev(x, s)
  {
    if s > 0 {
      BitLow(x, n, s - 1);
      RevLow(x, n, s - 1);
    }
  }

  lemma {:induction false} LowLow(x: nat, n: nat, k: nat)
    requires k <= n
    ensures Low(Low(x, n), k) == Low(x, k)
    decreases k
  {
    if k > 0 { LowLow(x / 2, n - 1, k - 1); }
  }

  /** A prefix of the bits is the high part of the reversed number. */
  lemma {:induction false} RevPrefix(x: nat, s: nat, n: nat)
    requires s <= n
    ensures Shr(Rev(x, n), n - s) == Rev(x, s)
  {
    if s < n {
      assert Rev(x, n) / 2 == Rev(x, n - 1);
      RevPrefix(x, s, n - 1);
    }
  }

  // ---------- stbi__bitreverse16 ----------

  /** Swaps neighbouring groups of k bits: ((n & hi) >> k) | ((n & lo) << k). */
  function Swap(n: nat, hi: nat, lo: nat, k: nat): nat {
    Or(Shr(And(n, hi), k), Shl(And(n, lo), k))
  }

  function BitReverse16(n: nat): nat {
    var n := Swap(n, 0xAAAA, 0x5555, 1);
    var n := Swap(n, 0xCCCC, 0x3333, 2);
    var n := Swap(n, 0xF0F0, 0x0F0F, 4);
    Swap(n, 0xFF00, 0x00FF, 8)
  }

  function BitReverse(v: nat, bits: nat): nat
    requires bits <= 16
  {
    Shr(BitReverse16(v), 16 - bits)
  }

  /** Four bits from the bottom of a number. */
  lemma NibbleBit(high: nat, low: nat, t: nat)
    requires low < 16
    ensures Bit(16 * high + low, t) == if t < 4 then Bit(low, t) else Bit(high, t - 4)
  {
    var x := 16 * high + low;
    assert x / 2 == 8 * high + low / 2 && x / 2 / 2 == 4 * high + low / 2 / 2;
    assert x / 2 / 2 / 2 == 2 * high + low / 2 / 2 / 2 && x / 2 / 2 / 2 / 2 == high;
    if t > 0 { assert Bit(x, t) == Bit(x / 2, t - 1) && Bit(low, t) == Bit(low / 2, t - 1); }
    if t > 1 { assert Bit(x / 2, t - 1) == Bit(x / 2 / 2, t - 2) && Bit(low / 2, t - 1) == Bit(low / 2 / 2, t - 2); }
    if t > 2 {
      assert Bit(x / 2 / 2, t - 2) == Bit(x / 2 / 2 / 2, t - 3);
      assert Bit(low / 2 / 2, t - 2) == Bit(low / 2 / 2 / 2, t - 3);
    }
    if t > 3 { assert Bit(x / 2 / 2 / 2, t - 3) == Bit(high, t - 4); }
  }

  lemma {:induction false} BitHigh(x: nat, n: nat, t: nat)
    requires x < Pow2(n) && n <= t
    ensures Bit(x, t) == 0
  {
    if n == 0 {
      BitZero(t);
    } else {
      BitHigh(x / 2, n - 1, t - 1);
    }
  }

  lemma NibbleBits(t: nat)
    requires t < 4
    ensures Bit(0xF, t) == 1 && Bit(0, t) == 0
    ensures Bit(0xA, t) == t % 2 && Bit(0x5, t) == 1 - t % 2
    ensures Bit(0xC, t) == t / 2 && Bit(0x3, t) == 1 - t / 2
  {
    hide Bit;
    if t < 2 { PairBits(t); } else { PairBits(t - 2); }
    BitHalves(0xF, t);
    BitHalves(0xA, t);
    BitHalves(0x5, t);
    BitHalves(0xC, t);
    BitHalves(0x3, t);
    BitZero(t);
  }

  lemma PairBits(t: nat)
    requires t < 2
    ensures Bit(3, t) == 1 && Bit(2, t) == t && Bit(1, t) == 1 - t && Bit(0, t) == 0
  {
  }

  lemma BitHalves(x: nat, t: nat)
    requires x < 16 && t < 4
    ensures Bit(x, t) == if t < 2 then Bit(x % 4, t) else Bit(x / 4, t - 2)
  {
  }

  /** The bit of a number made of four nibbles. */
  lemma NibblesBit(n3: nat, n2: nat, n1: nat, n0: nat, t: nat)
    requires n3 < 16 && n2 < 16 && n1 < 16 && n0 < 16 && t < 16
    ensures Bit(16 * (16 * (16 * n3 + n2) + n1) + n0, t) ==
            Bit(if t < 4 then n0 else if t < 8 then n1 else if t < 12 then n2 else n3, t % 4)
  {
    hide Bit;
    NibbleBit(16 * (16 * n3 + n2) + n1, n0, t);
    if t >= 4 { NibbleBit(16 * n3 + n2, n1, t - 4); }
    if t >= 8 { NibbleBit(n3, n2, t - 8); }
  }

  // The bits of the mask constants of the source: alternating groups of 1, 2, 4 and 8.

  lemma HighMask1(t: nat)
    ensures Bit(0xAAAA, t) == if t < 16 then t % 2 else 0
  {
    hide Bit;
    if t < 16 {
      NibbleBits(t % 4);
      NibblesBit(0xA, 0xA, 0xA, 0xA, t);
    } else {
      assert Pow2(4) == 16 && Pow2(8) == 256 && Pow2(12) == 4096 && Pow2(16) == 65536;
      BitHigh(0xAAAA, 16, t);
    }
  }

  lemma LowMask1(t: nat)
    requires t < 16
    ensures Bit(0x5555, t) == 1 - t % 2
  {
    hide Bit;
    NibbleBits(t % 4);
    NibblesBit(0x5, 0x5, 0x5, 0x5, t);
  }

  lemma HighMask2(t: nat)
    ensures Bit(0xCCCC, t) == if t < 16 then t / 2 % 2 else 0
  {
    hide Bit;
    if t < 16 {
      NibbleBits(t % 4);
      NibblesBit(0xC, 0xC, 0xC, 0xC, t);
    } else {
      assert Pow2(4) == 16 && Pow2(8) == 256 && Pow2(12) == 4096 && Pow2(16) == 65536;
      BitHigh(0xCCCC, 16, t);
    }
  }

  lemma LowMask2(t: nat)
    requires t < 16
    ensures Bit(0x3333, t) == 1 - t / 2 % 2
  {
    hide Bit;
    NibbleBits(t % 4);
    NibblesBit(0x3, 0x3, 0x3, 0x3, t);
  }

  lemma HighMask4(t: nat)
    ensures Bit(0xF0F0, t) == if t < 16 then t / 4 % 2 else 0
  {
    hide Bit;
    if t < 16 {
      NibbleBits(t % 4);
      NibblesBit(0xF, 0x0, 0xF, 0x0, t);
    } else {
      assert Pow2(4) == 16 && Pow2(8) == 256 && Pow2(12) == 4096 && Pow2(16) == 65536;
      BitHigh(0xF0F0, 16, t);
    }
  }

  lemma LowMask4(t: nat)
    requires t < 16
    ensures Bit(0x0F0F, t) == 1 - t / 4 % 2
  {
    hide Bit;
    NibbleBits(t % 4);
    NibblesBit(0x0, 0xF, 0x0, 0xF, t);
  }

  lemma HighMask8(t: nat)
    ensures Bit(0xFF00, t) == if t < 16 then (if t < 8 then 0 else 1) else 0
  {
    hide Bit;
    if t < 16 {
      NibbleBits(t % 4);
      NibblesBit(0xF, 0xF, 0x0, 0x0, t);
    } else {
      assert Pow2(4) == 16 && Pow2(8) == 256 && Pow2(12) == 4096 && Pow2(16) == 65536;
      BitHigh(0xFF00, 16, t);
    }
  }

  lemma LowMask8(t: nat)
    requires t < 16
    ensures Bit(0x00FF, t) == if t < 8 then 1 else 0
  {
    hide Bit;
    NibbleBits(t % 4);
    NibblesBit(0x0, 0x0, 0xF, 0xF, t);
  }

  lemma SwapBit(n: nat, hi: nat, lo: nat, k: nat, t: nat)
    ensures Bit(Swap(n, hi, lo, k), t) == 1 <==>
            || (Bit(n, t + k) == 1 && Bit(hi, t + k) == 1)
            || (k <= t && Bit(n, t - k) == 1 && Bit(lo, t - k) == 1)
  {
    hide Bit, And, Or, Shr, Shl;
    var right, left := Shr(And(n, hi), k), Shl(And(n, lo), k);
    BitOr(right, left, t);
    BitShr(And(n, hi), k, t);
    BitAnd(n, hi, k + t);
    BitShl(And(n, lo), k, t);
    if t >= k {
      BitAnd(n, lo, t - k);
    }
  }

  function Partner(odd: bool, k: nat, t: nat): nat {
    if odd then (if k <= t then t - k else 0) else t + k
  }

  lemma Swap1(n: nat, t: nat)
    requires t < 16
    ensures Bit(Swap(n, 0xAAAA, 0x5555, 1), t) == Bit(n, Partner(t % 2 == 1, 1, t))
  {
    hide Bit, Swap;
    HighMask1(t + 1);
    if t >= 1 { LowMask1(t - 1); }
    SwapBit(n, 0xAAAA, 0x5555, 1, t);
  }

  lemma Swap2(n: nat, t: nat)
    requires t < 16
    ensures Bit(Swap(n, 0xCCCC, 0x3333, 2), t) == Bit(n, Partner(t / 2 % 2 == 1, 2, t))
  {
    hide Bit, Swap;
    HighMask2(t + 2);
    if t >= 2 { LowMask2(t - 2); }
    SwapBit(n, 0xCCCC, 0x3333, 2, t);
  }

  lemma Swap4(n: nat, t: nat)
    requires t < 16
    ensures Bit(Swap(n, 0xF0F0, 0x0F0F, 4), t) == Bit(n, Partner(t / 4 % 2 == 1, 4, t))
  {
    hide Bit, Swap;
    HighMask4(t + 4);
    if t >= 4 { LowMask4(t - 4); }
    SwapBit(n, 0xF0F0, 0x0F0F, 4, t);
  }

  lemma Swap8(n: nat, t: nat)
    requires t < 16
    ensures Bit(Swap(n, 0xFF00, 0x00FF, 8), t) == Bit(n, Partner(8 <= t, 8, t))
  {
    hide Bit, Swap;
    HighMask8(t + 8);
    if t >= 8 { LowMask8(t - 8); }
    SwapBit(n, 0xFF00, 0x00FF, 8, t);
  }

  /** The four swaps reverse the low 16 bits: the fast form computes the specification. */
  lemma BitReverse16Correct(n: nat)
    ensures BitReverse16(n) == Rev(n, 16)
  {
    var n1 := Swap(n, 0xAAAA, 0x5555, 1);
    var n2 := Swap(n1, 0xCCCC, 0x3333, 2);
    var n3 := Swap(n2, 0xF0F0, 0x0F0F, 4);
    var n4 := Swap(n3, 0xFF00, 0x00FF, 8);
    forall t | 0 <= t < 16
      ensures Bit(n4, t) == Bit(Rev(n, 16), t)
    {
      SwapsReverse(n, t);
      RevBit(n, 16, t);
    }
    SwapBound(n3);
    RevBound(n, 16);
    SameBits(n4, Rev(n, 16), 16);
  }

  lemma PartnersReverse(t: nat)
    requires t < 16
    ensures var t3 := Partner(8 <= t, 8, t);
            var t2 := Partner(t3 / 4 % 2 == 1, 4, t3);
            var t1 := Partner(t2 / 2 % 2 == 1, 2, t2);
            t3 < 16 && t2 < 16 && t1 < 16 && Partner(t1 % 2 == 1, 1, t1) == 15 - t
  {
  }

  lemma SwapsReverse(n: nat, t: nat)
    requires t < 16
    ensures Bit(BitReverse16(n), t) == Bit(n, 15 - t)
  {
    hide Bit, Swap;
    var n1 := Swap(n, 0xAAAA, 0x5555, 1);
    var n2 := Swap(n1, 0xCCCC, 0x3333, 2);
    var n3 := Swap(n2, 0xF0F0, 0x0F0F, 4);
    var t3 := Partner(8 <= t, 8, t);
    var t2 := Partner(t3 / 4 % 2 == 1, 4, t3);
    var t1 := Partner(t2 / 2 % 2 == 1, 2, t2);
    PartnersReverse(t);
    Swap8(n3, t);
    Swap4(n2, t3);
    Swap2(n1, t2);
    Swap1(n, t1);
    assert Bit(BitReverse16(n), t) == Bit(n3, t3) == Bit(n2, t2) == Bit(n1, t1);
  }

  lemma SwapBound(n: nat)
    ensures Swap(n, 0xFF00, 0x00FF, 8) < Pow2(16)
  {
    AndBound(n, 0xFF00);
    AndBound(n, 0x00FF);
    ShrLe(And(n, 0xFF00), 8);
    ShlBound(And(n, 0x00FF), 8, 8);
    assert Pow2(4) == 16 && Pow2(8) == 256 && Pow2(12) == 4096 && Pow2(16) == 65536;
    OrBound(Shr(And(n, 0xFF00), 8), Shl(And(n, 0x00FF), 8), 16);
  }

  lemma {:induction false} ShrLe(x: nat, k: nat)
    ensures Shr(x, k) <= x
  {
    if k > 0 { ShrLe(x / 2, k - 1); }
  }

  lemma {:induction false} ShlBound(x: nat, k: nat, n: nat)
    requires x < Pow2(n)
    ensures Shl(x, k) < Pow2(n + k)
  {
    if k > 0 { ShlBound(x, k - 1, n); }
  }

  /** stbi__bit_reverse reverses exactly the low `bits` bits. */
  lemma BitReverseCorrect(v: nat, bits: nat)
    requires bits <= 16
    ensures BitReverse(v, bits) == Rev(v, bits)
  {
    BitReverse16Correct(v);
    RevPrefix(v, bits, 16);
  }

  // ---------- division ----------

  lemma MulGrows(d: nat, a: nat, b: nat)
    ensures a < b ==> d * a + d <= d * b
  {
    if a < b { assert d * b == d * (a + 1) + d * (b - a - 1); }
  }

  lemma Quotient(v: nat, d: nat, q: nat, r: nat)
    requires d > 0 && v == d * q + r && r < d
    ensures v / d == q && v % d == r
  {
    MulGrows(d, q, v / d);
    MulGrows(d, v / d, q);
  }

  lemma HalfTwice(v: nat, p: nat)
    requires p > 0
    ensures v / 2 / p == v / (2 * p) && v == v / (2 * p) * (2 * p) + v % (2 * p)
    ensures v % (2 * p) == v % 2 + 2 * (v / 2 % p)
  {
    var q, r := v / 2 / p, v / 2 % p;
    assert v / 2 == p * q + r;
    assert v == 2 * p * q + (2 * r + v % 2) && 2 * r + v % 2 < 2 * p;
    Quotient(v, 2 * p, q, 2 * r + v % 2);
  }

  /** Low bits and single bits, by division. */
  lemma {:induction false} LowModulo(x: nat, n: nat)
    ensures Low(x, n) == x % Pow2(n) && Bit(x, n) == x / Pow2(n) % 2
  {
    if n > 0 {
      LowModulo(x / 2, n - 1);
      HalfTwice(x, Pow2(n - 1));
    }
  }
}
