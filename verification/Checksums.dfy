/** The two checksums of a PNG file: the table-driven CRC-32 of cgi/vsx-generate-qr.c with the table of
    cgi/make-crc-table.py, and the running Adler-32 sum of cgi/vsx-generate-qr.c. */
module Checksums {
  import opened Bits

  // ---------- exclusive or ----------

  function Xor(x: nat, y: nat): nat {
    if x == 0 && y == 0 then 0 else (if x % 2 == y % 2 then 0 else 1) + 2 * Xor(x / 2, y / 2)
  }

  lemma XorHalves(x: nat, y: nat)
    ensures Xor(x, y) % 2 == (if x % 2 == y % 2 then 0 else 1) && Xor(x, y) / 2 == Xor(x / 2, y / 2)
  {
    TwoParts(if x % 2 == y % 2 then 0 else 1, Xor(x / 2, y / 2));
  }

  lemma TwoParts(bit: nat, q: nat)
    requires bit < 2
    ensures (bit + 2 * q) % 2 == bit && (bit + 2 * q) / 2 == q
  {
  }

  lemma Halves(a: nat, b: nat)
    requires a % 2 == b % 2 && a / 2 == b / 2
    ensures a == b
  {
  }

  lemma {:induction false} XorZero(x: nat)
    ensures Xor(x, 0) == x
  {
    if x > 0 { XorZero(x / 2); }
  }

  lemma {:induction false} XorSame(x: nat)
    ensures Xor(x, x) == 0
  {
    if x > 0 { XorSame(x / 2); }
  }

  lemma {:induction false} XorCommutes(x: nat, y: nat)
    ensures Xor(x, y) == Xor(y, x)
  {
    if x > 0 || y > 0 { XorCommutes(x / 2, y / 2); }
  }

  lemma {:induction false} XorAssociates(x: nat, y: nat, z: nat)
    ensures Xor(Xor(x, y), z) == Xor(x, Xor(y, z))
    decreases x + y + z
  {
    hide Xor;
    if x + y + z > 0 {
      XorAssociates(x / 2, y / 2, z / 2);
      XorHalves(x, y);
      XorHalves(y, z);
      XorHalves(Xor(x, y), z);
      XorHalves(x, Xor(y, z));
      Halves(Xor(Xor(x, y), z), Xor(x, Xor(y, z)));
    } else {
      XorZero(0);
    }
  }

  /** (a ^ b) ^ (c ^ d) == (a ^ c) ^ (b ^ d) */
  lemma XorMiddle(a: nat, b: nat, c: nat, d: nat)
    ensures Xor(Xor(a, b), Xor(c, d)) == Xor(Xor(a, c), Xor(b, d))
  {
    hide Xor;
    XorAssociates(a, b, Xor(c, d));
    XorAssociates(b, c, d);
    XorCommutes(b, c);
    XorAssociates(c, b, d);
    XorAssociates(a, c, Xor(b, d));
  }

  lemma {:induction false} XorBound(x: nat, y: nat, n: nat)
    requires x < Pow2(n) && y < Pow2(n)
    ensures Xor(x, y) < Pow2(n)
    decreases n
  {
    if n > 0 { XorBound(x / 2, y / 2, n - 1); }
  }

  lemma {:induction false} ShrXor(x: nat, y: nat, k: nat)
    ensures Shr(Xor(x, y), k) == Xor(Shr(x, k), Shr(y, k))
    decreases k
  {
    if k > 0 {
      XorHalves(x, y);
      ShrXor(x / 2, y / 2, k - 1);
    }
  }

  lemma {:induction false} ShrSmall(x: nat, k: nat)
    requires x < Pow2(k)
    ensures Shr(x, k) == 0
  {
    if k > 0 { ShrSmall(x / 2, k - 1); }
  }

  /** The low bits and the rest. */
  lemma {:induction false} XorSplit(x: nat, k: nat)
    ensures x == Xor(Low(x, k), Shl(Shr(x, k), k))
    decreases k
  {
    hide Xor;
    if k == 0 {
      XorCommutes(0, x);
      XorZero(x);
    } else {
      XorSplit(x / 2, k - 1);
      var low, high := Low(x, k), Shl(Shr(x, k), k);
      TwoParts(x % 2, Low(x / 2, k - 1));
      TwoParts(0, Shl(Shr(x / 2, k - 1), k - 1));
      XorHalves(low, high);
      Halves(x, Xor(low, high));
    }
  }

  // ---------- CRC-32 ----------

  const POLYNOMIAL := 0xedb88320

  /** The term x^e of a polynomial of degree 32, with the highest power in the lowest bit. */
  function Term(e: nat): nat
    requires e < 32
  {
    Pow2(31 - e)
  }

  /** The generator of RFC 2083, section 3.4: x^32 and these. */
  lemma Generator()
    ensures POLYNOMIAL == Term(26) + Term(23) + Term(22) + Term(16) + Term(12) + Term(11) + Term(10) + Term(8) + Term(7)
                          + Term(5) + Term(4) + Term(2) + Term(1) + Term(0)
  {
    assert Pow2(5) == 32 && Pow2(8) == 256 && Pow2(9) == 512;
    assert Pow2(15) == 0x8000;
    assert Pow2(19) == 0x8_0000 && Pow2(20) == 0x10_0000 && Pow2(21) == 0x20_0000;
    assert Pow2(23) == 0x80_0000 && Pow2(24) == 0x100_0000 && Pow2(26) == 0x400_0000 && Pow2(27) == 0x800_0000;
    assert Pow2(29) == 0x2000_0000 && Pow2(30) == 0x4000_0000 && Pow2(31) == 0x8000_0000;
  }

  function Feedback(on: bool): nat {
    if on then POLYNOMIAL else 0
  }

  /** One step of the shift register of RFC 2083, section 3.4, taking one data bit. */
  function Feed(c: nat, bit: nat): nat {
    Xor(c / 2, Feedback(c % 2 != bit))
  }

  /** The low k bits of b, least significant bit first. */
  function FeedBits(c: nat, b: nat, k: nat): nat
    decreases k
  {
    if k == 0 then c else FeedBits(Feed(c, b % 2), b / 2, k - 1)
  }

  /** The register after a byte string, bit by bit. */
  function Register(c: nat, data: seq<byte>): nat {
    if data == [] then c else FeedBits(Register(c, data[..|data| - 1]), data[|data| - 1], 8)
  }

  /** The CRC of a byte string: the register starts as ones and is complemented. */
  function Crc(data: seq<byte>): nat {
    Xor(Register(0xffffffff, data), 0xffffffff)
  }

  /** Cutting the data anywhere makes no difference. */
  lemma {:induction false} RegisterConcat(c: nat, a: seq<byte>, b: seq<byte>)
    ensures Register(c, a + b) == Register(Register(c, a), b)
  {
    hide FeedBits;
    if b == [] {
      assert a + b == a;
    } else {
      RegisterConcat(c, a, b[..|b| - 1]);
      assert (a + b)[..|a + b| - 1] == a + b[..|b| - 1];
    }
  }

  /** What the table generator does to c in k rounds. */
  function Rounds(c: nat, k: nat): nat
    decreases k
  {
    if k == 0 then c else Rounds(Feed(c, 0), k - 1)
  }

  lemma FeedbackXor(p: bool, q: bool)
    ensures Feedback(p != q) == Xor(Feedback(p), Feedback(q))
  {
    hide Xor;
    XorZero(0);
    XorSame(POLYNOMIAL);
    XorZero(POLYNOMIAL);
    XorCommutes(0, POLYNOMIAL);
  }

  lemma FeedXor(a: nat, b: nat)
    ensures Feed(Xor(a, b), 0) == Xor(Feed(a, 0), Feed(b, 0))
  {
    hide Xor, Feedback;
    XorHalves(a, b);
    FeedbackXor(a % 2 != 0, b % 2 != 0);
    XorMiddle(a / 2, Feedback(a % 2 != 0), b / 2, Feedback(b % 2 != 0));
  }

  /** The rounds are linear. */
  lemma {:induction false} RoundsXor(a: nat, b: nat, k: nat)
    ensures Rounds(Xor(a, b), k) == Xor(Rounds(a, k), Rounds(b, k))
    decreases k
  {
    hide Xor, Feed;
    if k > 0 {
      FeedXor(a, b);
      RoundsXor(Feed(a, 0), Feed(b, 0), k - 1);
    }
  }

  lemma {:induction false} RoundsShl(y: nat, k: nat)
    ensures Rounds(Shl(y, k), k) == y
  {
    if k > 0 {
      XorZero(Shl(y, k - 1));
      RoundsShl(y, k - 1);
    }
  }

  lemma FeedMove(c: nat, b: nat)
    ensures Feed(Xor(c, b), 0) == Xor(Feed(c, b % 2), b / 2)
  {
    hide Xor, Feedback;
    XorHalves(c, b);
    var f := Feedback(c % 2 != b % 2);
    XorAssociates(c / 2, b / 2, f);
    XorCommutes(b / 2, f);
    XorAssociates(c / 2, f, b / 2);
  }

  /** Feeding the bits one by one equals mixing them all in first. */
  lemma {:induction false} FeedBitsAtOnce(c: nat, b: nat, k: nat)
    requires b < Pow2(k)
    ensures FeedBits(c, b, k) == Rounds(Xor(c, b), k)
    decreases k
  {
    hide Xor, Feed;
    if k == 0 {
      XorZero(c);
    } else {
      FeedMove(c, b);
      FeedBitsAtOnce(Feed(c, b % 2), b / 2, k - 1);
    }
  }

  /** Eight bits at once, by table. */
  lemma TableStep(c: nat, b: byte)
    ensures FeedBits(c, b, 8) == Xor(Rounds(Low(Xor(c, b), 8), 8), Shr(c, 8))
  {
    hide *;
    Pow2Eight();
    var x := Xor(c, b);
    FeedBitsAtOnce(c, b, 8);
    XorSplit(x, 8);
    RoundsXor(Low(x, 8), Shl(Shr(x, 8), 8), 8);
    RoundsShl(Shr(x, 8), 8);
    ShrXor(c, b, 8);
    ShrSmall(b, 8);
    XorZero(Shr(c, 8));
  }

  lemma Pow2Eight()
    ensures Pow2(8) == 256
  {
  }

  lemma Pow2ThirtyTwo()
    ensures Pow2(32) == 0x1_0000_0000
  {
    assert Pow2(12) == 4096;
    assert Pow2(22) == 0x40_0000;
  }

  /** The CRC fits 32 bits. */
  lemma {:induction false} RegisterFits(c: nat, data: seq<byte>)
    requires c < 0x1_0000_0000
    ensures Register(c, data) < 0x1_0000_0000
  {
    if data != [] {
      RegisterFits(c, data[..|data| - 1]);
      FeedBitsFits(Register(c, data[..|data| - 1]), data[|data| - 1], 8);
    }
  }

  lemma {:induction false} FeedBitsFits(c: nat, b: nat, k: nat)
    requires c < 0x1_0000_0000
    ensures FeedBits(c, b, k) < 0x1_0000_0000
    decreases k
  {
    if k > 0 {
      Pow2ThirtyTwo();
      XorBound(c / 2, Feedback(c % 2 != b % 2), 32);
      FeedBitsFits(Feed(c, b % 2), b / 2, k - 1);
    }
  }

  lemma CrcFits(data: seq<byte>)
    ensures Crc(data) < 0x1_0000_0000
  {
    RegisterFits(0xffffffff, data);
    Pow2ThirtyTwo();
    XorBound(Register(0xffffffff, data), 0xffffffff, 32);
  }

  /** The bits of two numbers, one after the other. */
  lemma {:induction false} FeedBitsMore(c: nat, b: nat, d: nat, k: nat, m: nat)
    requires b < Pow2(k)
    ensures FeedBits(FeedBits(c, b, k), d, m) == FeedBits(c, b + Pow2(k) * d, k + m)
    decreases k
  {
    hide Feed;
    if k > 0 {
      var all := b + Pow2(k) * d;
      assert Pow2(k) * d == 2 * (Pow2(k - 1) * d);
      FeedBitsMore(Feed(c, b % 2), b / 2, d, k - 1, m);
    }
  }

  /** The lowest byte first. */
  function LowFirst(x: nat): seq<byte> {
    [x % 256, x / 256 % 256, x / 0x1_0000 % 256, x / 0x100_0000 % 256]
  }

  lemma RegisterByte(c: nat, data: seq<byte>, b: byte)
    ensures Register(c, data + [b]) == FeedBits(Register(c, data), b, 8)
  {
    assert (data + [b])[..|data|] == data;
  }

  lemma RegisterFour(c: nat, data: seq<byte>, b0: byte, b1: byte, b2: byte, b3: byte)
    ensures Register(c, data + [b0, b1, b2, b3]) ==
            FeedBits(FeedBits(FeedBits(FeedBits(Register(c, data), b0, 8), b1, 8), b2, 8), b3, 8)
  {
    hide Register, FeedBits;
    RegisterByte(c, data, b0);
    RegisterByte(c, data + [b0], b1);
    RegisterByte(c, data + [b0] + [b1], b2);
    RegisterByte(c, data + [b0] + [b1] + [b2], b3);
    assert data + [b0] + [b1] + [b2] + [b3] == data + [b0, b1, b2, b3];
  }

  lemma FeedFour(r: nat, b0: byte, b1: byte, b2: byte, b3: byte)
    ensures FeedBits(FeedBits(FeedBits(FeedBits(r, b0, 8), b1, 8), b2, 8), b3, 8) ==
            FeedBits(r, b0 + 256 * b1 + 0x1_0000 * b2 + 0x100_0000 * b3, 32)
  {
    hide FeedBits;
    assert Pow2(8) == 256 && Pow2(16) == 0x1_0000 && Pow2(24) == 0x100_0000;
    hide Pow2;
    FeedBitsMore(r, b0, b1, 8, 8);
    FeedBitsMore(r, b0 + 256 * b1, b2, 16, 8);
    FeedBitsMore(r, b0 + 256 * b1 + 0x1_0000 * b2, b3, 24, 8);
  }

  lemma Digits(x: nat)
    requires x < 0x1_0000_0000
    ensures x == x % 256 + 256 * (x / 256 % 256) + 0x1_0000 * (x / 0x1_0000 % 256) + 0x100_0000 * (x / 0x100_0000 % 256)
  {
    var a, b := x / 256, x / 0x1_0000;
    assert a == 256 * (a / 256) + a % 256 && a / 256 == b;
    assert b == 256 * (b / 256) + b % 256 && b / 256 == x / 0x100_0000;
  }

  lemma FourBytes(c: nat, data: seq<byte>, x: nat)
    requires x < 0x1_0000_0000
    ensures Register(c, data + LowFirst(x)) == FeedBits(Register(c, data), x, 32)
  {
    hide Register, FeedBits;
    var b0, b1, b2, b3 := x % 256, x / 256 % 256, x / 0x1_0000 % 256, x / 0x100_0000 % 256;
    RegisterFour(c, data, b0, b1, b2, b3);
    FeedFour(Register(c, data), b0, b1, b2, b3);
    Digits(x);
  }

  /** A message with its own CRC behind it, low byte first, always leaves the register in the same state; and the CRC of
      nothing is zero. */
  lemma Residue(data: seq<byte>)
    ensures Register(0xffffffff, data + LowFirst(Crc(data))) == Rounds(0xffffffff, 32) && Crc([]) == 0
  {
    hide Xor, FeedBits, Rounds, Pow2;
    var r := Register(0xffffffff, data);
    CrcFits(data);
    FourBytes(0xffffffff, data, Crc(data));
    Pow2ThirtyTwo();
    FeedBitsAtOnce(r, Crc(data), 32);
    XorAssociates(r, r, 0xffffffff);
    XorSame(r);
    XorCommutes(0, 0xffffffff);
    XorZero(0xffffffff);
    XorSame(0xffffffff);
  }

  lemma {:induction false} RoundsNext(c: nat, k: nat)
    ensures Rounds(c, k + 1) == Feed(Rounds(c, k), 0)
    decreases k
  {
    hide Feed;
    if k > 0 { RoundsNext(Feed(c, 0), k - 1); }
  }

  ghost predicate IsTable(table: seq<nat>) {
    |table| == 256 && forall n: nat :: n < 256 ==> table[n] == Rounds(n, 8)
  }

  /** cgi/make-crc-table.py. */
  method MakeTable() returns (table: seq<nat>)
    ensures IsTable(table)
  {
    hide Rounds, Feed;
    table := [];
    for n := 0 to 256
      invariant |table| == n && forall m: nat :: m < n ==> table[m] == Rounds(m, 8)
    {
      var c := MakeEntry(n);
      table := table + [c];
    }
  }

  /** The loop over the bits. */
  method MakeEntry(n: nat) returns (c: nat)
    ensures c == Rounds(n, 8)
  {
    c := n;
    for bit := 0 to 8
      invariant c == Rounds(n, bit)
    {
      RoundsNext(n, bit);
      hide Rounds;
      var value := c % 2;
      c := c / 2;
      XorZero(c);
      if value != 0 {
        c := Xor(c, POLYNOMIAL);
      }
    }
  }

  method UpdateCrc(table: seq<nat>, crc: nat, buf: seq<byte>) returns (r: nat)
    requires IsTable(table)
    ensures r == Register(crc, buf)
  {
    hide Rounds, FeedBits, Low, Shr, Xor;
    r := crc;
    assert buf[..0] == [];
    for n := 0 to |buf|
      invariant r == Register(crc, buf[..n])
    {
      TableStep(r, buf[n]);
      Pow2Eight();
      LowBound(Xor(r, buf[n]), 8);
      assert buf[..n + 1][..n] == buf[..n];
      r := Xor(table[Low(Xor(r, buf[n]), 8)], Shr(r, 8));
    }
    assert buf[..|buf|] == buf;
  }

  // ---------- Adler-32 ----------

  const MODULUS := 65521

  function Sum(data: seq<byte>): nat {
    if data == [] then 0 else data[0] + Sum(data[1..])
  }

  /** Byte i counted |data| - i times. */
  function Weighted(data: seq<byte>): nat {
    if data == [] then 0 else |data| * data[0] + Weighted(data[1..])
  }

  /** RFC 1950, section 8.2: one plus the sum of the bytes, and the sum of those sums. */
  function Adler(data: seq<byte>): (r: nat)
    ensures r < 0x1_0000_0000
  {
    (|data| + Weighted(data)) % MODULUS * 65536 + (1 + Sum(data)) % MODULUS
  }

  lemma {:induction false} SumAppend(data: seq<byte>, b: byte)
    ensures Sum(data + [b]) == Sum(data) + b
    ensures Weighted(data + [b]) == Weighted(data) + Sum(data) + b
  {
    var all := data + [b];
    if data == [] {
      assert all[1..] == [];
    } else {
      SumAppend(data[1..], b);
      assert all[1..] == data[1..] + [b];
      assert |all| * all[0] == |data| * data[0] + data[0];
    }
  }

  lemma AdlerAppend(data: seq<byte>, b: byte)
    ensures var s1, s2 := Adler(data) % 65536, Adler(data) / 65536;
            var s1' := (s1 + b) % MODULUS;
            s1 < MODULUS && s2 < MODULUS && Adler(data + [b]) == (s2 + s1') % MODULUS * 65536 + s1'
  {
    hide Sum, Weighted;
    SumAppend(data, b);
    var sum, all := 1 + Sum(data), |data| + Weighted(data);
    Packed(all % MODULUS, sum % MODULUS);
    Modular(sum, b);
    Modular(all, sum + b);
    Modular(sum + b, all % MODULUS);
  }

  lemma Packed(high: nat, low: nat)
    requires low < 65536
    ensures (high * 65536 + low) % 65536 == low && (high * 65536 + low) / 65536 == high
  {
  }

  lemma Modular(x: nat, y: nat)
    ensures (x % MODULUS + y) % MODULUS == (x + y) % MODULUS
  {
    var q := x / MODULUS;
    assert x + y == MODULUS * q + (x % MODULUS + y);
    ModularShift(q, x % MODULUS + y);
  }

  lemma {:induction false} ModularShift(q: nat, r: nat)
    ensures (MODULUS * q + r) % MODULUS == r % MODULUS
  {
    if q > 0 {
      ModularShift(q - 1, r);
      assert MODULUS * q + r == MODULUS * (q - 1) + r + MODULUS;
    }
  }

  /** update_fischer: continuing from the sums of what came before gives the sums of the whole. */
  method UpdateFischer(sums: nat, buf: seq<byte>, ghost before: seq<byte>) returns (r: nat)
    requires sums == Adler(before)
    ensures r == Adler(before + buf)
  {
    hide Adler;
    var s1: nat, s2: nat := sums % 65536, sums / 65536;
    AdlerParts(before, sums);
    assert before + buf[..0] == before;
    for n := 0 to |buf|
      invariant s1 < MODULUS && s2 < MODULUS && s2 * 65536 + s1 == Adler(before + buf[..n])
    {
      AdlerAppend(before + buf[..n], buf[n]);
      assert before + buf[..n] + [buf[n]] == before + buf[..n + 1];
      Packed(s2, s1);
      s1 := (s1 + buf[n]) % MODULUS;
      s2 := (s2 + s1) % MODULUS;
    }
    assert buf[..|buf|] == buf;
    r := s2 * 65536 + s1;
  }

  /** The sums wrap at 65521, the largest prime below 2^16. */
  lemma AdlerWraps(data: seq<byte>)
    ensures Sum(data) == 65519 ==> Adler(data) % 65536 == 65520
    ensures Sum(data) == 65520 ==> Adler(data) % 65536 == 0
    ensures Sum(data) == 65535 ==> Adler(data) % 65536 == 15
  {
    hide Sum, Weighted;
    Packed((|data| + Weighted(data)) % MODULUS, (1 + Sum(data)) % MODULUS);
  }

  lemma AdlerParts(data: seq<byte>, r: nat)
    requires r == Adler(data)
    ensures r % 65536 < MODULUS && r / 65536 < MODULUS && r / 65536 * 65536 + r % 65536 == r
  {
    hide Sum, Weighted;
    Packed((|data| + Weighted(data)) % MODULUS, (1 + Sum(data)) % MODULUS);
  }
}
