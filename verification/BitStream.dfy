/** The bits of a byte string in DEFLATE order (RFC 1951, section 3.1.1), with zero bits after its end. */
module BitStream {
  import opened Bits

  function ByteAt(input: seq<byte>, i: nat): byte {
    if i < |input| then input[i] else 0
  }

  function StreamBit(input: seq<byte>, p: nat): (b: nat)
    ensures b < 2
  {
    Bit(ByteAt(input, p / 8), p % 8)
  }

  /** The n bits from position p on, the first one being the least significant. */
  function Window(input: seq<byte>, p: nat, n: nat): nat
    decreases n
  {
    if n == 0 then 0 else StreamBit(input, p) + 2 * Window(input, p + 1, n - 1)
  }

  lemma {:induction false} WindowBound(input: seq<byte>, p: nat, n: nat)
    ensures Window(input, p, n) < Pow2(n)
    decreases n
  {
    if n > 0 { WindowBound(input, p + 1, n - 1); }
  }

  lemma {:induction false} WindowLow(input: seq<byte>, p: nat, n: nat, k: nat)
    requires k <= n
    ensures Low(Window(input, p, n), k) == Window(input, p, k)
    decreases k
  {
    if k > 0 { WindowLow(input, p + 1, n - 1, k - 1); }
  }

  lemma {:induction false} WindowShr(input: seq<byte>, p: nat, n: nat, k: nat)
    requires k <= n
    ensures Shr(Window(input, p, n), k) == Window(input, p + k, n - k)
    decreases k
  {
    if k > 0 {
      assert Window(input, p, n) / 2 == Window(input, p + 1, n - 1);
      WindowShr(input, p + 1, n - 1, k - 1);
    }
  }

  /** Putting more bits above the ones already buffered. */
  lemma {:induction false} WindowOr(input: seq<byte>, p: nat, n: nat, k: nat)
    ensures Or(Window(input, p, n), Shl(Window(input, p + n, k), n)) == Window(input, p, n + k)
    decreases n
  {
    hide StreamBit;
    var high := Window(input, p + n, k);
    if n > 0 {
      WindowOr(input, p + 1, n - 1, k);
      var x, y := Window(input, p, n), Shl(high, n);
      assert x % 2 == StreamBit(input, p) && x / 2 == Window(input, p + 1, n - 1);
      assert y == 2 * Shl(high, n - 1);
      OrHalves(x, y);
    }
  }

  lemma OrHalves(x: nat, y: nat)
    requires y % 2 == 0
    ensures Or(x, y) == x % 2 + 2 * Or(x / 2, y / 2)
  {
  }

  lemma {:induction false} WindowInByte(input: seq<byte>, p: nat, j: nat, i: nat, n: nat)
    requires i + n <= 8 && p == 8 * j + i
    ensures Window(input, p, n) == Low(Shr(ByteAt(input, j), i), n)
    decreases n
  {
    if n > 0 {
      assert p / 8 == j && p % 8 == i;
      WindowInByte(input, p + 1, j, i + 1, n - 1);
      BitShr(ByteAt(input, j), i, 0);
      ShrNext(ByteAt(input, j), i);
    }
  }

  lemma {:induction false} ShrNext(x: nat, i: nat)
    ensures Shr(x, i) / 2 == Shr(x, i + 1)
  {
    if i > 0 { ShrNext(x / 2, i - 1); }
  }

  lemma Byte8(b: byte)
    ensures Low(Shr(b, 0), 8) == b
  {
    assert Pow2(4) == 16 && Pow2(8) == 256;
    LowSmall(b, 8);
  }

  /** A byte is the window at its own bit position. */
  lemma WindowByte(input: seq<byte>, j: nat)
    ensures Window(input, 8 * j, 8) == ByteAt(input, j)
  {
    WindowInByte(input, 8 * j, j, 0, 8);
    Byte8(ByteAt(input, j));
  }
}
