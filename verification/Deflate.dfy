/** Writing DEFLATE streams as RFC 1951 describes them, by arithmetic and without the tables of the decoder, and the
    round trip: what is written that way is what InflateSpec reads. */
module Deflate {
  import opened Bits
  import opened BitStream
  import opened Huffman
  import opened InflateSpec
  import I = Inflate

  // ---------- strings of bits, section 3.1.1 ----------

  type BitString = seq<nat>

  /** A number, least significant bit first. */
  function Number(x: nat, n: nat): (r: BitString)
    ensures |r| == n
    decreases n
  {
    if n == 0 then [] else [x % 2] + Number(x / 2, n - 1)
  }

  /** A Huffman code, most significant bit first. */
  function CodeBits(x: nat, n: nat): (r: BitString)
    ensures |r| == n
    decreases n
  {
    if n == 0 then [] else CodeBits(x / 2, n - 1) + [x % 2]
  }

  /** The bits of the input from position p on begin with these. */
  ghost predicate Holds(input: seq<byte>, p: nat, bits: BitString) {
    p + |bits| <= 8 * |input| && forall i :: 0 <= i < |bits| ==> StreamBit(input, p + i) == bits[i]
  }

  lemma HoldsBoth(input: seq<byte>, p: nat, a: BitString, b: BitString)
    ensures Holds(input, p, a + b) <==> Holds(input, p, a) && Holds(input, p + |a|, b)
  {
    hide StreamBit;
    if Holds(input, p, a + b) {
      forall i | 0 <= i < |a|
        ensures StreamBit(input, p + i) == a[i]
      {
        assert (a + b)[i] == a[i];
      }
      forall i | 0 <= i < |b|
        ensures StreamBit(input, p + |a| + i) == b[i]
      {
        assert (a + b)[|a| + i] == b[i];
        assert p + (|a| + i) == p + |a| + i;
      }
    }
    if Holds(input, p, a) && Holds(input, p + |a|, b) {
      forall i | 0 <= i < |a + b|
        ensures StreamBit(input, p + i) == (a + b)[i]
      {
        if i >= |a| { assert p + i == p + |a| + (i - |a|); }
      }
    }
  }

  /** A number is read back. */
  lemma {:induction false} NumberRead(input: seq<byte>, p: nat, x: nat, n: nat)
    requires Holds(input, p, Number(x, n)) && x < Pow2(n)
    ensures Window(input, p, n) == x
    decreases n
  {
    hide StreamBit;
    if n > 0 {
      assert Number(x, n)[0] == x % 2;
      HoldsBoth(input, p, [x % 2], Number(x / 2, n - 1));
      assert StreamBit(input, p + 0) == x % 2;
      NumberRead(input, p + 1, x / 2, n - 1);
    }
  }

  lemma {:induction false} WindowBit(input: seq<byte>, p: nat, n: nat, k: nat)
    requires k < n
    ensures Bit(Window(input, p, n), k) == StreamBit(input, p + k)
    decreases k
  {
    hide StreamBit;
    if k > 0 {
      assert Window(input, p, n) / 2 == Window(input, p + 1, n - 1);
      WindowBit(input, p + 1, n - 1, k - 1);
    }
  }

  /** A code is read back from the first of sixteen bits. */
  lemma {:induction false} CodeRead(input: seq<byte>, p: nat, x: nat, n: nat)
    requires Holds(input, p, CodeBits(x, n)) && x < Pow2(n) && n <= 16
    ensures Rev(Window(input, p, 16), n) == x
    decreases n
  {
    hide StreamBit, Window;
    if n > 0 {
      HoldsBoth(input, p, CodeBits(x / 2, n - 1), [x % 2]);
      assert [x % 2][0] == x % 2 && StreamBit(input, p + (n - 1) + 0) == [x % 2][0];
      WindowBit(input, p, 16, n - 1);
      CodeRead(input, p, x / 2, n - 1);
    }
  }

  /** The bits of a symbol. */
  function SymbolBits(lens: seq<nat>, sym: nat): (r: BitString)
    requires sym < |lens|
    ensures |r| == lens[sym]
  {
    CodeBits(Code(lens, sym), lens[sym])
  }

  /** A set of code lengths that a decoder accepts. */
  ghost predicate Usable(lens: seq<nat>) {
    Lengths(lens) && CountsFit(lens) && Kraft(lens) <= Pow2(MAX_LENGTH)
  }

  lemma CodeFits(lens: seq<nat>, sym: nat)
    requires Usable(lens) && sym < |lens| && lens[sym] > 0
    ensures Code(lens, sym) < Pow2(lens[sym])
  {
    hide Kraft, First, Count, CountsFit;
    CompleteIffKraft(lens);
    RankInRange(lens, sym);
    assert End(lens, lens[sym]) <= Pow2(lens[sym]);
  }

  /** A symbol is read back. */
  lemma SymbolRead(input: seq<byte>, p: nat, lens: seq<nat>, sym: nat)
    requires Usable(lens) && sym < |lens| && lens[sym] > 0 && Holds(input, p, SymbolBits(lens, sym))
    ensures ReadSymbol(input, p, lens) == Ok((p + lens[sym], sym))
  {
    hide Kraft, First, Count, CountsFit, Window, Code, Rev;
    CodeFits(lens, sym);
    CodeRead(input, p, Code(lens, sym), lens[sym]);
    var x := Window(input, p, 16);
    assert Matches(lens, x, sym);
    forall other: nat | Matches(lens, x, other)
      ensures other == sym
    {
      PrefixFree(lens, x, other, sym);
    }
  }

  // ---------- lengths and distances, section 3.2.5 ----------

  /** How many low bits of v have to be split off so that what is left is below the limit. */
  function Excess(v: nat, limit: nat): (e: nat)
    requires limit > 0
  {
    if v < limit then 0 else 1 + Excess(v / 2, limit)
  }

  /** Four symbols for each number of extra bits, after four that have none; 258 has a symbol of its own. */
  function LengthSymbol(len: nat): nat
    requires 3 <= len <= 258
  {
    var v := len - 3;
    if len == 258 then 285 else 257 + 4 * Excess(v, 8) + v / Pow2(Excess(v, 8))
  }

  function LengthBits(len: nat): BitString
    requires 3 <= len <= 258
  {
    var v := len - 3;
    if len == 258 then [] else Number(v % Pow2(Excess(v, 8)), Excess(v, 8))
  }

  /** Two symbols for each number of extra bits, after two that have none. */
  function DistanceSymbol(dist: nat): nat
    requires 1 <= dist <= 32768
  {
    var v := dist - 1;
    2 * Excess(v, 4) + v / Pow2(Excess(v, 4))
  }

  function DistanceBits(dist: nat): BitString
    requires 1 <= dist <= 32768
  {
    var v := dist - 1;
    Number(v % Pow2(Excess(v, 4)), Excess(v, 4))
  }

  lemma SmallPowers()
    ensures Pow2(0) == 1 && Pow2(1) == 2 && Pow2(2) == 4 && Pow2(3) == 8 && Pow2(4) == 16 && Pow2(5) == 32
    ensures Pow2(6) == 64 && Pow2(7) == 128 && Pow2(8) == 256 && Pow2(9) == 512 && Pow2(10) == 1024
    ensures Pow2(11) == 2048 && Pow2(12) == 4096 && Pow2(13) == 8192 && Pow2(15) == 32768
  {
  }

  /** Each length symbol starts where the one before it ends. */
  lemma LengthTable(z: nat)
    requires z < 28
    ensures LengthBase(0) == 3 && LengthExtra(z) == if z < 8 then 0 else (z - 4) / 4
    ensures z < 27 ==> LengthBase(z + 1) == LengthBase(z) + Pow2(LengthExtra(z))
    ensures LengthBase(28) == 258 && LengthExtra(28) == 0
  {
    SmallPowers();
    hide Pow2;
    if z < 8 {
    } else if z < 16 {
    } else if z < 20 {
    } else if z < 24 {
    }
  }

  /** The same for distances. */
  lemma DistanceTable(z: nat)
    requires z < 30
    ensures DistBase(0) == 1 && DistExtra(z) == if z < 2 then 0 else (z - 2) / 2
    ensures z < 29 ==> DistBase(z + 1) == DistBase(z) + Pow2(DistExtra(z))
  {
    SmallPowers();
    hide Pow2;
    if z < 8 {
    } else if z < 14 {
    } else if z < 18 {
    } else if z < 22 {
    } else if z < 26 {
    }
  }

  /** Where the symbols of e extra bits start. */
  lemma {:induction false} LengthStart(e: nat, m: nat)
    requires m < 8 && (e > 0 ==> 4 <= m) && 4 * e + m < 28
    ensures LengthExtra(4 * e + m) == e && LengthBase(4 * e + m) == 3 + m * Pow2(e)
    decreases e, m
  {
    hide LengthBase, LengthExtra, Pow2;
    var z := 4 * e + m;
    LengthTable(z);
    PowerZero();
    if z > 0 {
      LengthTable(z - 1);
      if e > 0 && m == 4 {
        LengthStart(e - 1, 7);
        PowerNext(e - 1);
      } else {
        LengthStart(e, m - 1);
        Distribute(m - 1, Pow2(e));
      }
    }
  }

  lemma {:induction false} DistanceStart(e: nat, m: nat)
    requires m < 4 && (e > 0 ==> 2 <= m) && 2 * e + m < 30
    ensures DistExtra(2 * e + m) == e && DistBase(2 * e + m) == 1 + m * Pow2(e)
    decreases e, m
  {
    hide DistBase, DistExtra, Pow2;
    var z := 2 * e + m;
    DistanceTable(z);
    PowerZero();
    if z > 0 {
      DistanceTable(z - 1);
      if e > 0 && m == 2 {
        DistanceStart(e - 1, 3);
        PowerNext(e - 1);
      } else {
        DistanceStart(e, m - 1);
        Distribute(m - 1, Pow2(e));
      }
    }
  }

  lemma PowerZero()
    ensures Pow2(0) == 1
  {
  }

  lemma PowerNext(e: nat)
    ensures Pow2(e + 1) == 2 * Pow2(e)
  {
  }

  lemma Distribute(m: nat, p: nat)
    ensures (m + 1) * p == m * p + p
  {
  }

  /** What splitting off the low bits leaves. */
  lemma {:induction false} ExcessIs(v: nat, limit: nat)
    requires limit > 0 && limit % 2 == 0
    ensures var e := Excess(v, limit);
            && v / Pow2(e) < limit && (e > 0 ==> limit / 2 <= v / Pow2(e))
            && v == v / Pow2(e) * Pow2(e) + v % Pow2(e)
  {
    if v >= limit {
      ExcessIs(v / 2, limit);
      var e := Excess(v / 2, limit);
      HalfTwice(v, Pow2(e));
    }
  }

  lemma {:induction false} ExcessSmall(v: nat, limit: nat, n: nat)
    requires limit > 0 && v < limit * Pow2(n)
    ensures Excess(v, limit) <= n
  {
    if v >= limit { ExcessSmall(v / 2, limit, n - 1); }
  }

  /** Every length is read back from the symbol and the extra bits computed for it. */
  lemma LengthRead(input: seq<byte>, p: nat, len: nat)
    requires 3 <= len <= 258 && Holds(input, p, LengthBits(len))
    ensures 257 <= LengthSymbol(len) <= 285 && |LengthBits(len)| == LengthExtra(LengthSymbol(len) - 257)
    ensures ReadLength(input, p, LengthSymbol(len)) == Ok((p + |LengthBits(len)|, len))
  {
    hide StreamBit, LengthBase, LengthExtra, Excess, Number, Window;
    var v := len - 3;
    var e := Excess(v, 8);
    if len == 258 {
      LengthTable(27);
      WindowBound(input, p, 0);
      assert Pow2(0) == 1;
    } else {
      ExcessIs(v, 8);
      LengthSmall(v);
      LengthStart(e, v / Pow2(e));
      NumberRead(input, p, v % Pow2(e), e);
    }
  }

  lemma LengthSmall(v: nat)
    requires v < 255
    ensures var e := Excess(v, 8); 4 * e + v / Pow2(e) < 28
  {
    SmallPowers();
    hide Pow2;
    ExcessIs(v, 8);
    ExcessSmall(v, 8, 5);
  }

  /** And so is every distance. */
  lemma DistanceRead(input: seq<byte>, p: nat, dist: nat)
    requires 1 <= dist <= 32768 && Holds(input, p, DistanceBits(dist))
    ensures DistanceSymbol(dist) < 30 && |DistanceBits(dist)| == DistExtra(DistanceSymbol(dist))
    ensures ReadDistance(input, p, DistanceSymbol(dist)) == Ok((p + |DistanceBits(dist)|, dist))
  {
    hide StreamBit, DistBase, DistExtra, Excess, Number, Window;
    var v := dist - 1;
    var e := Excess(v, 4);
    ExcessIs(v, 4);
    SmallPowers();
    ExcessSmall(v, 4, 13);
    DistanceStart(e, v / Pow2(e));
    NumberRead(input, p, v % Pow2(e), e);
  }

  // ---------- compressed data ----------

  /** A byte, or a stretch of earlier output: how long, and how far back. */
  datatype Token = Literal(b: byte) | Copy(len: nat, dist: nat)

  /** Byte by byte, so that the copy may run into what it has just written. */
  function CopyBytes(out: seq<byte>, dist: nat, len: nat): (r: seq<byte>)
    requires 0 < dist <= |out|
    ensures |r| == |out| + len
    decreases len
  {
    if len == 0 then out else CopyBytes(out + [out[|out| - dist]], dist, len - 1)
  }

  ghost predicate TokenOk(t: Token, out: seq<byte>) {
    t.Copy? ==> 3 <= t.len <= 258 && 1 <= t.dist <= 32768 && t.dist <= |out|
  }

  function Append(out: seq<byte>, t: Token): (r: seq<byte>)
    requires TokenOk(t, out)
    ensures |out| < |r|
  {
    match t
    case Literal(b) => out + [b]
    case Copy(len, dist) => CopyBytes(out, dist, len)
  }

  /** Every copy reaches back no further than the output goes. */
  ghost predicate TokensOk(tokens: seq<Token>, out: seq<byte>)
    decreases |tokens|
  {
    tokens == [] || (TokenOk(tokens[0], out) && TokensOk(tokens[1..], Append(out, tokens[0])))
  }

  /** What the tokens stand for, after some output. */
  function Expand(tokens: seq<Token>, out: seq<byte>): (r: seq<byte>)
    requires TokensOk(tokens, out)
    decreases |tokens|
  {
    if tokens == [] then out else Expand(tokens[1..], Append(out, tokens[0]))
  }

  /** The two alphabets have a code for everything that the tokens need. */
  ghost predicate Coded(tokens: seq<Token>, lit: seq<nat>, dist: seq<nat>) {
    && |lit| > 256 && lit[256] > 0
    && forall i :: 0 <= i < |tokens| ==> TokenCoded(tokens[i], lit, dist)
  }

  ghost predicate TokenCoded(t: Token, lit: seq<nat>, dist: seq<nat>) {
    match t
    case Literal(b) => b as int < |lit| && lit[b] > 0
    case Copy(len, d) =>
      && 3 <= len <= 258 && 1 <= d <= 32768
      && LengthSymbol(len) < |lit| && lit[LengthSymbol(len)] > 0
      && DistanceSymbol(d) < |dist| && dist[DistanceSymbol(d)] > 0
  }

  function TokenBits(t: Token, lit: seq<nat>, dist: seq<nat>): BitString
    requires TokenCoded(t, lit, dist)
  {
    match t
    case Literal(b) => SymbolBits(lit, b)
    case Copy(len, d) =>
      SymbolBits(lit, LengthSymbol(len)) + LengthBits(len) +
      (SymbolBits(dist, DistanceSymbol(d)) + DistanceBits(d))
  }

  function TokensBits(tokens: seq<Token>, lit: seq<nat>, dist: seq<nat>): BitString
    requires Coded(tokens, lit, dist)
    decreases |tokens|
  {
    if tokens == [] then []
    else
      assert forall i :: 0 <= i < |tokens| - 1 ==> tokens[1..][i] == tokens[i + 1];
      TokenBits(tokens[0], lit, dist) + TokensBits(tokens[1..], lit, dist)
  }

  /** The tokens and the end of the block. */
  function DataBits(tokens: seq<Token>, lit: seq<nat>, dist: seq<nat>): BitString
    requires Coded(tokens, lit, dist)
  {
    TokensBits(tokens, lit, dist) + SymbolBits(lit, 256)
  }

  /** Copying byte by byte repeats the last bytes of the output. */
  lemma {:induction false} CopyRepeats(out: seq<byte>, dist: nat, len: nat)
    requires 0 < dist <= |out|
    ensures CopyBytes(out, dist, len) == out + Repeat(out, dist, len)
    decreases len
  {
    hide Repeat;
    if len == 0 {
      assert Repeat(out, dist, 0) == [];
    } else {
      var next := out + [out[|out| - dist]];
      CopyRepeats(next, dist, len - 1);
      RepeatNext(out, dist, len);
      assert next + Repeat(next, dist, len - 1) == out + ([out[|out| - dist]] + Repeat(next, dist, len - 1));
    }
  }

  lemma RepeatAt(out: seq<byte>, dist: nat, len: nat, k: nat)
    requires 0 < dist <= |out| && k < len
    ensures k % dist < dist && Repeat(out, dist, len)[k] == out[|out| - dist + k % dist]
  {
  }

  lemma RepeatNext(out: seq<byte>, dist: nat, len: nat)
    requires 0 < dist <= |out| && 0 < len
    ensures var next := out + [out[|out| - dist]];
            Repeat(out, dist, len) == [next[|out|]] + Repeat(next, dist, len - 1)
  {
    hide Repeat;
    var next := out + [out[|out| - dist]];
    var a, b := Repeat(out, dist, len), [next[|out|]] + Repeat(next, dist, len - 1);
    forall k | 0 <= k < len
      ensures a[k] == b[k]
    {
      RepeatAt(out, dist, len, k);
      if k > 0 {
        RepeatAt(next, dist, len - 1, k - 1);
        NextModulo(k - 1, dist);
      } else {
        Quotient(0, dist, 0, 0);
      }
    }
  }

  lemma NextModulo(k: nat, d: nat)
    requires d > 0
    ensures (k + 1) % d == if k % d == d - 1 then 0 else k % d + 1
  {
    var q, r := k / d, k % d;
    assert k == d * q + r;
    if r == d - 1 {
      assert k + 1 == d * (q + 1) + 0;
      Quotient(k + 1, d, q + 1, 0);
    } else {
      Quotient(k + 1, d, q, r + 1);
    }
  }

  lemma CopyRead(input: seq<byte>, p: nat, len: nat, d: nat, lit: seq<nat>, dist: seq<nat>)
    requires Usable(lit) && Usable(dist) && TokenCoded(Copy(len, d), lit, dist)
    requires Holds(input, p, TokenBits(Copy(len, d), lit, dist))
    ensures var sym := LengthSymbol(len);
            && 257 <= sym && ReadSymbol(input, p, lit) == Ok((p + lit[sym], sym))
            && ReadMatch(input, p + lit[sym], sym, dist) == Ok((p + |TokenBits(Copy(len, d), lit, dist)|, len, d))
  {
    hide *;
    CopyBits(len, d, lit, dist);
    var s, dsym := LengthSymbol(len), DistanceSymbol(d);
    var a, b, c, e := SymbolBits(lit, s), LengthBits(len), SymbolBits(dist, dsym), DistanceBits(d);
    HoldsBoth(input, p, a + b, c + e);
    HoldsBoth(input, p, a, b);
    HoldsBoth(input, p + |a + b|, c, e);
    SymbolRead(input, p, lit, s);
    LengthRead(input, p + |a|, len);
    SymbolRead(input, p + |a| + |b|, dist, dsym);
    DistanceRead(input, p + |a| + |b| + |c|, d);
    MatchRead(input, p + |a|, s, dist, p + |a| + |b|, len, p + |a| + |b| + |c|, dsym, p + |a| + |b| + |c| + |e|, d);
  }

  lemma CopyBits(len: nat, d: nat, lit: seq<nat>, dist: seq<nat>)
    requires TokenCoded(Copy(len, d), lit, dist)
    ensures 3 <= len <= 258 && 1 <= d <= 32768
    ensures LengthSymbol(len) < |lit| && lit[LengthSymbol(len)] > 0
    ensures DistanceSymbol(d) < |dist| && dist[DistanceSymbol(d)] > 0
    ensures TokenBits(Copy(len, d), lit, dist) ==
            SymbolBits(lit, LengthSymbol(len)) + LengthBits(len) +
            (SymbolBits(dist, DistanceSymbol(d)) + DistanceBits(d))
  {
  }

  lemma MatchRead(input: seq<byte>, p: nat, sym: nat, dist: seq<nat>, q: nat, len: nat, r: nat, dsym: nat, s: nat,
                  d: nat)
    requires 257 <= sym && ReadLength(input, p, sym) == Ok((q, len))
    requires ReadSymbol(input, q, dist) == Ok((r, dsym)) && ReadDistance(input, r, dsym) == Ok((s, d))
    ensures ReadMatch(input, p, sym, dist) == Ok((s, len, d))
  {
    hide ReadLength, ReadSymbol, ReadDistance;
  }

  /** Tokens are read back and stand for what they should. */
  lemma {:induction false} TokensRead(input: seq<byte>, p: nat, tokens: seq<Token>, lit: seq<nat>, dist: seq<nat>,
                                      out: seq<byte>)
    requires Usable(lit) && Usable(dist) && Coded(tokens, lit, dist) && TokensOk(tokens, out)
    requires Holds(input, p, TokensBits(tokens, lit, dist))
    ensures Codes(input, p, lit, dist, out) ==
            Codes(input, p + |TokensBits(tokens, lit, dist)|, lit, dist, Expand(tokens, out))
    decreases |tokens|
  {
    hide Usable, Holds, ReadSymbol, ReadMatch, TokenBits, CopyBytes, Repeat, TokenCoded;
    if tokens != [] {
      var t, rest := tokens[0], tokens[1..];
      var bits := TokenBits(t, lit, dist);
      assert Coded(rest, lit, dist) by {
        assert forall i :: 0 <= i < |rest| ==> rest[i] == tokens[i + 1];
      }
      HoldsBoth(input, p, bits, TokensBits(rest, lit, dist));
      TokensRead(input, p + |bits|, rest, lit, dist, Append(out, t));
      match t
      case Literal(b) =>
        LiteralBits(b, lit, dist);
        SymbolRead(input, p, lit, b);
      case Copy(len, d) =>
        CopyRead(input, p, len, d, lit, dist);
        CopyRepeats(out, d, len);
    }
  }

  /** A whole block is read back. */
  lemma DataRead(input: seq<byte>, p: nat, tokens: seq<Token>, lit: seq<nat>, dist: seq<nat>, out: seq<byte>)
    requires Usable(lit) && Usable(dist) && Coded(tokens, lit, dist) && TokensOk(tokens, out)
    requires Holds(input, p, DataBits(tokens, lit, dist))
    ensures Codes(input, p, lit, dist, out) == Ok((p + |DataBits(tokens, lit, dist)|, Expand(tokens, out)))
  {
    hide Usable, Holds, Codes, TokensBits, SymbolBits, Expand, TokenCoded;
    HoldsBoth(input, p, TokensBits(tokens, lit, dist), SymbolBits(lit, 256));
    TokensRead(input, p, tokens, lit, dist, out);
    EndRead(input, p + |TokensBits(tokens, lit, dist)|, lit, dist, Expand(tokens, out));
  }

  lemma EndRead(input: seq<byte>, p: nat, lit: seq<nat>, dist: seq<nat>, out: seq<byte>)
    requires Usable(lit) && |lit| > 256 && lit[256] > 0 && Holds(input, p, SymbolBits(lit, 256))
    ensures Codes(input, p, lit, dist, out) == Ok((p + |SymbolBits(lit, 256)|, out))
  {
    hide Usable, Holds, ReadSymbol;
    SymbolRead(input, p, lit, 256);
  }

  /** A copy that reaches back beyond the beginning is refused, whatever comes before it. */
  lemma FarRefused(input: seq<byte>, p: nat, tokens: seq<Token>, far: Token, lit: seq<nat>, dist: seq<nat>,
                   out: seq<byte>)
    requires Usable(lit) && Usable(dist) && Coded(tokens, lit, dist) && TokensOk(tokens, out)
    requires far.Copy? && TokenCoded(far, lit, dist) && far.dist > |Expand(tokens, out)|
    requires Holds(input, p, TokensBits(tokens, lit, dist) + TokenBits(far, lit, dist))
    ensures Codes(input, p, lit, dist, out) == Err(BadDistance)
  {
    hide Usable, Holds, Codes, TokensBits, TokenBits, Expand, TokenCoded;
    HoldsBoth(input, p, TokensBits(tokens, lit, dist), TokenBits(far, lit, dist));
    TokensRead(input, p, tokens, lit, dist, out);
    TooFar(input, p + |TokensBits(tokens, lit, dist)|, far.len, far.dist, lit, dist, Expand(tokens, out));
  }

  lemma TooFar(input: seq<byte>, p: nat, len: nat, d: nat, lit: seq<nat>, dist: seq<nat>, out: seq<byte>)
    requires Usable(lit) && Usable(dist) && TokenCoded(Copy(len, d), lit, dist) && d > |out|
    requires Holds(input, p, TokenBits(Copy(len, d), lit, dist))
    ensures Codes(input, p, lit, dist, out) == Err(BadDistance)
  {
    hide Usable, Holds, ReadSymbol, ReadMatch, TokenBits;
    CopyRead(input, p, len, d, lit, dist);
  }

  lemma LiteralBits(b: byte, lit: seq<nat>, dist: seq<nat>)
    requires TokenCoded(Literal(b), lit, dist)
    ensures b as int < |lit| && lit[b] > 0 && TokenBits(Literal(b), lit, dist) == SymbolBits(lit, b)
  {
  }

  // ---------- the fixed codes, section 3.2.6 ----------

  /** The code of a symbol and its length, from the table of the standard. */
  function FixedCode(sym: nat): (nat, nat)
    requires sym < 288
  {
    if sym < 144 then (0x30 + sym, 8)
    else if sym < 256 then (0x190 + (sym - 144), 9)
    else if sym < 280 then (sym - 256, 7)
    else (0xc0 + (sym - 280), 8)
  }

  function Clamp(x: int, high: nat): nat {
    if x < 0 then 0 else if x > high then high else x
  }

  lemma {:induction false} FixedCount(sym: nat, s: nat)
    requires sym <= 288
    ensures Count(FixedLiterals()[..sym], s) ==
            if s == 7 then Clamp(sym - 256, 24)
            else if s == 8 then Clamp(sym, 144) + Clamp(sym - 280, 8)
            else if s == 9 then Clamp(sym - 144, 112)
            else 0
  {
    if sym > 0 {
      FixedCount(sym - 1, s);
      CountAt(FixedLiterals(), sym - 1, s);
    }
  }

  lemma FixedFirst()
    ensures First(FixedLiterals(), 7) == 0 && First(FixedLiterals(), 8) == 0x30 && First(FixedLiterals(), 9) == 0x190
  {
    hide Count;
    var lens := FixedLiterals();
    assert lens[..288] == lens;
    hide FixedLiterals;
    forall s: nat | 1 <= s <= 8
      ensures Count(lens, s) == if s == 7 then 24 else if s == 8 then 152 else 0
    {
      FixedCount(288, s);
    }
    assert First(lens, 2) == 0 && First(lens, 3) == 0 && First(lens, 4) == 0;
    assert First(lens, 5) == 0 && First(lens, 6) == 0 && First(lens, 7) == 0;
  }

  /** The canonical codes of the fixed lengths are those of the table. */
  lemma FixedSymbol(sym: nat)
    requires sym < 288
    ensures var (code, n) := FixedCode(sym);
            FixedLiterals()[sym] == n && SymbolBits(FixedLiterals(), sym) == CodeBits(code, n)
  {
    hide Count, First, CodeBits;
    FixedFirst();
    FixedCount(sym, FixedLiterals()[sym]);
  }

  lemma {:induction false} FiveCount(k: nat, s: nat)
    requires k <= 32
    ensures Count(FixedDistances()[..k], s) == if s == 5 then k else 0
  {
    if k > 0 {
      FiveCount(k - 1, s);
      CountAt(FixedDistances(), k - 1, s);
    }
  }

  /** Distances have five bits each. */
  lemma FixedDistance(sym: nat)
    requires sym < 32
    ensures FixedDistances()[sym] == 5 && SymbolBits(FixedDistances(), sym) == CodeBits(sym, 5)
  {
    hide Count, CodeBits;
    var lens := FixedDistances();
    assert lens[..32] == lens;
    hide FixedDistances;
    forall s: nat | 1 <= s <= 4
      ensures Count(lens, s) == 0
    {
      FiveCount(32, s);
    }
    FiveCount(sym, 5);
    assert First(lens, 2) == 0 && First(lens, 3) == 0 && First(lens, 4) == 0 && First(lens, 5) == 0;
  }

  /** The sizes of a copy that the format can say. */
  ghost predicate Sized(t: Token) {
    t.Copy? ==> 3 <= t.len <= 258 && 1 <= t.dist <= 32768
  }

  function FixedBits(sym: nat): BitString
    requires sym < 288
  {
    CodeBits(FixedCode(sym).0, FixedCode(sym).1)
  }

  function FixedTokenBits(t: Token): BitString
    requires Sized(t)
  {
    match t
    case Literal(b) => FixedBits(b)
    case Copy(len, d) =>
      LengthSmaller(len);
      DistanceSmaller(d);
      FixedBits(LengthSymbol(len)) + LengthBits(len) + (CodeBits(DistanceSymbol(d), 5) + DistanceBits(d))
  }

  lemma LengthSmaller(len: nat)
    requires 3 <= len <= 258
    ensures 257 <= LengthSymbol(len) <= 285
  {
    ExcessIs(len - 3, 8);
    if len < 258 { LengthSmall(len - 3); }
  }

  lemma DistanceSmaller(dist: nat)
    requires 1 <= dist <= 32768
    ensures DistanceSymbol(dist) < 30
  {
    SmallPowers();
    ExcessIs(dist - 1, 4);
    ExcessSmall(dist - 1, 4, 13);
  }

  function FixedTokensBits(tokens: seq<Token>): BitString
    requires forall i :: 0 <= i < |tokens| ==> Sized(tokens[i])
    decreases |tokens|
  {
    if tokens == [] then [] else FixedTokenBits(tokens[0]) + FixedTokensBits(tokens[1..])
  }

  /** Compressed with the fixed codes; the end of the block is seven zeros. */
  function FixedDataBits(tokens: seq<Token>): BitString
    requires forall i :: 0 <= i < |tokens| ==> Sized(tokens[i])
  {
    FixedTokensBits(tokens) + [0, 0, 0, 0, 0, 0, 0]
  }

  lemma FixedToken(t: Token)
    requires Sized(t)
    ensures TokenCoded(t, FixedLiterals(), FixedDistances())
    ensures TokenBits(t, FixedLiterals(), FixedDistances()) == FixedTokenBits(t)
  {
    hide LengthSymbol, DistanceSymbol, LengthBits, DistanceBits, CodeBits, SymbolBits;
    match t
    case Literal(b) => FixedSymbol(b);
    case Copy(len, d) =>
      LengthSmaller(len);
      DistanceSmaller(d);
      FixedSymbol(LengthSymbol(len));
      FixedDistance(DistanceSymbol(d));
  }

  lemma {:induction false} FixedTokens(tokens: seq<Token>)
    requires forall i :: 0 <= i < |tokens| ==> Sized(tokens[i])
    ensures Coded(tokens, FixedLiterals(), FixedDistances())
    ensures TokensBits(tokens, FixedLiterals(), FixedDistances()) == FixedTokensBits(tokens)
    decreases |tokens|
  {
    hide FixedTokenBits, TokenBits, TokenCoded, SymbolBits, CodeBits;
    FixedSymbol(256);
    if tokens != [] {
      FixedToken(tokens[0]);
      FixedTokens(tokens[1..]);
      forall i | 0 <= i < |tokens|
        ensures TokenCoded(tokens[i], FixedLiterals(), FixedDistances())
      {
        if i > 0 { assert tokens[i] == tokens[1..][i - 1]; }
      }
    }
  }

  lemma FixedData(tokens: seq<Token>)
    requires forall i :: 0 <= i < |tokens| ==> Sized(tokens[i])
    ensures Coded(tokens, FixedLiterals(), FixedDistances())
    ensures DataBits(tokens, FixedLiterals(), FixedDistances()) == FixedDataBits(tokens)
  {
    hide Coded, SymbolBits, TokensBits, FixedTokensBits, FixedLiterals, FixedDistances;
    FixedTokens(tokens);
    FixedSymbol(256);
    assert CodeBits(0, 7) == [0, 0, 0, 0, 0, 0, 0];
  }

  // ---------- code lengths, section 3.2.7 ----------

  /** One code length, the last one again, or zeros. */
  datatype LengthRun = One(len: nat) | Again(n: nat) | Zeros(n: nat)

  ghost predicate RunOk(r: LengthRun, acc: seq<nat>) {
    match r
    case One(len) => len <= 15
    case Again(n) => 3 <= n <= 6 && acc != []
    case Zeros(n) => 3 <= n <= 138
  }

  function Extend(acc: seq<nat>, r: LengthRun): (all: seq<nat>)
    requires RunOk(r, acc)
    ensures |acc| < |all|
  {
    match r
    case One(len) => acc + [len]
    case Again(n) => acc + seq(n, _ => acc[|acc| - 1])
    case Zeros(n) => acc + seq(n, _ => 0)
  }

  ghost predicate RunsOk(runs: seq<LengthRun>, acc: seq<nat>)
    decreases |runs|
  {
    runs == [] || (RunOk(runs[0], acc) && RunsOk(runs[1..], Extend(acc, runs[0])))
  }

  function Unroll(runs: seq<LengthRun>, acc: seq<nat>): (all: seq<nat>)
    requires RunsOk(runs, acc)
    ensures |acc| <= |all| && (runs != [] ==> |acc| < |all|)
    decreases |runs|
  {
    if runs == [] then acc else Unroll(runs[1..], Extend(acc, runs[0]))
  }

  function RunSymbol(r: LengthRun): nat {
    match r
    case One(len) => len
    case Again(_) => 16
    case Zeros(n) => if n <= 10 then 17 else 18
  }

  ghost predicate RunCoded(r: LengthRun, alphabet: seq<nat>) {
    RunSymbol(r) < |alphabet| && alphabet[RunSymbol(r)] > 0 && (r.One? || 3 <= r.n)
  }

  /** Runs of 3 to 6, 3 to 10 and 11 to 138 take two, three and seven bits. */
  function RunBits(r: LengthRun, alphabet: seq<nat>): BitString
    requires RunCoded(r, alphabet)
  {
    SymbolBits(alphabet, RunSymbol(r)) +
    match r
    case One(_) => []
    case Again(n) => Number(n - 3, 2)
    case Zeros(n) => if n <= 10 then Number(n - 3, 3) else Number(n - 11, 7)
  }

  ghost predicate RunsCoded(runs: seq<LengthRun>, alphabet: seq<nat>) {
    forall i :: 0 <= i < |runs| ==> RunCoded(runs[i], alphabet)
  }

  function RunsBits(runs: seq<LengthRun>, alphabet: seq<nat>): BitString
    requires RunsCoded(runs, alphabet)
  {
    if runs == [] then []
    else RunBits(runs[0], alphabet) + RunsBits(runs[1..], alphabet)
  }

  /** One symbol of the list is read back. */
  lemma RunRead(input: seq<byte>, p: nat, r: LengthRun, alphabet: seq<nat>, total: nat, acc: seq<nat>)
    requires Usable(alphabet) && |alphabet| == 19 && RunCoded(r, alphabet) && RunOk(r, acc)
    requires |acc| < total <= 318 && forall i :: 0 <= i < |acc| ==> acc[i] <= MAX_LENGTH
    requires Holds(input, p, RunBits(r, alphabet))
    ensures forall i :: 0 <= i < |Extend(acc, r)| ==> Extend(acc, r)[i] <= MAX_LENGTH
    ensures CodeLengths(input, p, alphabet, total, acc) ==
            CodeLengths(input, p + |RunBits(r, alphabet)|, alphabet, total, Extend(acc, r))
  {
    hide Usable, Holds, ReadSymbol, SymbolBits, Number, Window;
    var sym := RunSymbol(r);
    var code := SymbolBits(alphabet, sym);
    SmallPowers();
    match r
    case One(_) =>
      assert RunBits(r, alphabet) == code;
      SymbolRead(input, p, alphabet, sym);
    case Again(n) =>
      HoldsBoth(input, p, code, Number(n - 3, 2));
      SymbolRead(input, p, alphabet, sym);
      ExtraRead(input, p + |code|, 3, n, 2);
      assert Times(acc[|acc| - 1], n) == seq(n, _ => acc[|acc| - 1]);
    case Zeros(n) =>
      var base, bits := if n <= 10 then 3 else 11, if n <= 10 then 3 else 7;
      HoldsBoth(input, p, code, Number(n - base, bits));
      SymbolRead(input, p, alphabet, sym);
      ExtraRead(input, p + |code|, base, n, bits);
      assert Times(0, n) == seq(n, _ => 0);
  }

  lemma ExtraRead(input: seq<byte>, p: nat, base: nat, n: nat, bits: nat)
    requires base <= n < base + Pow2(bits) && Holds(input, p, Number(n - base, bits))
    ensures ReadExtra(input, p, base, bits) == Ok((p + bits, n))
  {
    NumberRead(input, p, n - base, bits);
  }

  lemma {:induction false} RunsRead(input: seq<byte>, p: nat, runs: seq<LengthRun>, alphabet: seq<nat>, total: nat,
                                    acc: seq<nat>)
    requires Usable(alphabet) && |alphabet| == 19 && RunsCoded(runs, alphabet) && RunsOk(runs, acc)
    requires |Unroll(runs, acc)| == total <= 318 && forall i :: 0 <= i < |acc| ==> acc[i] <= MAX_LENGTH
    requires Holds(input, p, RunsBits(runs, alphabet))
    ensures CodeLengths(input, p, alphabet, total, acc) == Ok((p + |RunsBits(runs, alphabet)|, Unroll(runs, acc)))
    decreases |runs|
  {
    hide Usable, Holds, RunBits, RunOk, Extend, ReadSymbol, RunCoded;
    if runs != [] {
      var r, rest := runs[0], runs[1..];
      assert RunCoded(r, alphabet);
      HoldsBoth(input, p, RunBits(r, alphabet), RunsBits(rest, alphabet));
      hide CodeLengths;
      RunRead(input, p, r, alphabet, total, acc);
      RunsRead(input, p + |RunBits(r, alphabet)|, rest, alphabet, total, Extend(acc, r));
    }
  }

  /** The order in which the sizes of the code length alphabet are written: the runs, zero, and then from the middle
      outwards. */
  function Nth(i: nat): (sym: nat)
    requires i < 19
    ensures sym < 19
  {
    if i < 3 then 16 + i else if i == 3 then 0 else if i % 2 == 0 then 6 + i / 2 else 9 - i / 2
  }

  function PlaceOf(sym: nat): (i: nat)
    requires sym < 19
    ensures i < 19 && Nth(i) == sym
  {
    if sym >= 16 then sym - 16 else if sym == 0 then 3 else if sym >= 8 then 2 * sym - 12 else 19 - 2 * sym
  }

  lemma OrderIs(i: nat)
    requires i < 19
    ensures ORDER[i] == Nth(i) && PlaceOf(Nth(i)) == i
  {
  }

  /** Only the first n sizes, three bits each. */
  function SizesBits(alphabet: seq<nat>, n: nat): (r: BitString)
    requires |alphabet| == 19 && n <= 19
    ensures |r| == 3 * n
  {
    if n == 0 then [] else SizesBits(alphabet, n - 1) + Number(alphabet[Nth(n - 1)], 3)
  }

  lemma {:induction false} SizesRead(input: seq<byte>, p: nat, alphabet: seq<nat>, n: nat)
    requires |alphabet| == 19 && n <= 19 && Holds(input, p, SizesBits(alphabet, n))
    requires forall i :: 0 <= i < 19 ==> alphabet[i] < 8
    ensures forall sym: nat :: sym < 19 ==>
              CodeLengthSizes(input, p, n)[sym] == if PlaceOf(sym) < n then alphabet[sym] else 0
  {
    hide Holds, Number, Window, Nth, PlaceOf;
    if n > 0 {
      var k: nat := n - 1;
      HoldsBoth(input, p, SizesBits(alphabet, k), Number(alphabet[Nth(k)], 3));
      SizesRead(input, p, alphabet, k);
      SmallPowers();
      NumberRead(input, p + 3 * k, alphabet[Nth(k)], 3);
      OrderIs(k);
      forall sym: nat | sym < 19
        ensures CodeLengthSizes(input, p, n)[sym] == if PlaceOf(sym) < n then alphabet[sym] else 0
      {
        OrderIs(PlaceOf(sym));
        assert Nth(PlaceOf(sym)) == sym;
      }
    }
  }

  /** The two lists of code lengths of a block and how they are written. */
  datatype Tables = Tables(lit: seq<nat>, dist: seq<nat>, alphabet: seq<nat>, n: nat, runs: seq<LengthRun>)

  ghost predicate TablesWritten(t: Tables) {
    && 257 <= |t.lit| <= 286 && 1 <= |t.dist| <= 32 && Lengths(t.lit) && Lengths(t.dist)
    && AlphabetOk(t.alphabet, t.n)
    && RunsCoded(t.runs, t.alphabet) && RunsOk(t.runs, []) && Unroll(t.runs, []) == t.lit + t.dist
  }

  ghost predicate TablesOk(t: Tables) {
    TablesWritten(t) && Usable(t.lit) && Usable(t.dist)
  }

  /** Sizes that are not written are zero. */
  ghost predicate AlphabetOk(alphabet: seq<nat>, n: nat) {
    && |alphabet| == 19 && Usable(alphabet) && 4 <= n <= 19
    && forall i: nat :: i < 19 ==> alphabet[i] < 8 && (PlaceOf(i) >= n ==> alphabet[i] == 0)
  }

  function TablesBits(t: Tables): BitString
    requires TablesWritten(t)
  {
    Number(|t.lit| - 257, 5) + (Number(|t.dist| - 1, 5) + (Number(t.n - 4, 4) +
      (SizesBits(t.alphabet, t.n) + RunsBits(t.runs, t.alphabet))))
  }

  lemma ListsRead(input: seq<byte>, p: nat, t: Tables)
    requires TablesWritten(t)
    requires Holds(input, p, SizesBits(t.alphabet, t.n) + RunsBits(t.runs, t.alphabet))
    ensures Lists(input, p, t.n, |t.lit| + |t.dist|) ==
            Ok((p + 3 * t.n + |RunsBits(t.runs, t.alphabet)|, t.lit + t.dist))
  {
    hide Holds, Usable, CodeLengths, CodeLengthSizes, RunsBits, SizesBits, RunsOk, RunsCoded, Unroll, PlaceOf;
    HoldsBoth(input, p, SizesBits(t.alphabet, t.n), RunsBits(t.runs, t.alphabet));
    SizesRead(input, p, t.alphabet, t.n);
    assert CodeLengthSizes(input, p, t.n) == t.alphabet;
    RunsRead(input, p + 3 * t.n, t.runs, t.alphabet, |t.lit| + |t.dist|, []);
    UsableChecked(t.alphabet);
    HoldsWithin(input, p, SizesBits(t.alphabet, t.n));
  }

  lemma UsableChecked(lens: seq<nat>)
    requires Usable(lens)
    ensures Lengths(lens) && CheckLengths(lens) == Ok(())
  {
  }

  lemma HoldsWithin(input: seq<byte>, p: nat, bits: BitString)
    requires Holds(input, p, bits)
    ensures p + |bits| <= 8 * |input|
  {
  }

  lemma BitsRead(input: seq<byte>, p: nat, x: nat, n: nat)
    requires x < Pow2(n) && Holds(input, p, Number(x, n))
    ensures ReadBits(input, p, n) == Ok((p + n, x))
  {
    NumberRead(input, p, x, n);
  }

  /** The header of a block with its own codes is read back. */
  lemma TablesRead(input: seq<byte>, p: nat, t: Tables)
    requires TablesWritten(t) && Holds(input, p, TablesBits(t))
    ensures Dynamic(input, p) ==
            if CheckBoth(t.lit, t.dist).Ok? then Ok((p + |TablesBits(t)|, CodeTables(t.lit, t.dist)))
            else Err(CheckBoth(t.lit, t.dist).problem)
  {
    hide Holds, Usable, Lists, ReadBits, Window, Number, RunsBits, SizesBits, RunsOk, RunsCoded, Unroll, AlphabetOk,
         CheckBoth;
    SizesCount(t);
    var tail := SizesBits(t.alphabet, t.n) + RunsBits(t.runs, t.alphabet);
    var a, b, c := Number(|t.lit| - 257, 5), Number(|t.dist| - 1, 5), Number(t.n - 4, 4);
    SmallPowers();
    HoldsBoth(input, p, a, b + (c + tail));
    HoldsBoth(input, p + 5, b, c + tail);
    HoldsBoth(input, p + 10, c, tail);
    BitsRead(input, p, |t.lit| - 257, 5);
    BitsRead(input, p + 5, |t.dist| - 1, 5);
    BitsRead(input, p + 10, t.n - 4, 4);
    ListsRead(input, p + 14, t);
    var all := t.lit + t.dist;
    assert all[..|t.lit|] == t.lit && all[|t.lit|..] == t.dist;
  }

  lemma SizesCount(t: Tables)
    requires TablesWritten(t)
    ensures |t.alphabet| == 19 && 4 <= t.n <= 19
  {
  }

  /** Code lengths that claim more than there is are refused. */
  lemma OversubscribedRefused(input: seq<byte>, p: nat, t: Tables)
    requires TablesWritten(t) && Holds(input, p, TablesBits(t)) && CountsFit(t.lit) && CountsFit(t.dist)
    requires Kraft(t.lit) > Pow2(MAX_LENGTH) || Kraft(t.dist) > Pow2(MAX_LENGTH)
    ensures Dynamic(input, p) == Err(OverSubscribed)
  {
    hide Holds, TablesBits, Kraft, CountsFit, AlphabetOk, RunsCoded, RunsOk, Unroll, Dynamic;
    TablesRead(input, p, t);
  }

  /** A run that goes beyond the two lists is refused. */
  lemma OvershootRefused(input: seq<byte>, p: nat, r: LengthRun, alphabet: seq<nat>, total: nat, acc: seq<nat>)
    requires Usable(alphabet) && |alphabet| == 19 && RunCoded(r, alphabet) && RunOk(r, acc)
    requires |acc| < total <= 318 && forall i :: 0 <= i < |acc| ==> acc[i] <= MAX_LENGTH
    requires Holds(input, p, RunBits(r, alphabet)) && |Extend(acc, r)| > total
    ensures CodeLengths(input, p, alphabet, total, acc) == Err(BadRepeat)
  {
    hide Usable, Holds, RunBits, RunOk, RunCoded, Extend, ReadSymbol;
    RunRead(input, p, r, alphabet, total, acc);
  }

  // ---------- blocks, section 3.2.3 ----------

  datatype Part = Stored(data: seq<byte>) | Fixed(tokens: seq<Token>) | Custom(tables: Tables, tokens: seq<Token>)

  ghost predicate PartOk(b: Part, out: seq<byte>) {
    match b
    case Stored(data) => |data| <= 65535
    case Fixed(tokens) => TokensOk(tokens, out)
    case Custom(t, tokens) => TablesOk(t) && Coded(tokens, t.lit, t.dist) && TokensOk(tokens, out)
  }

  function After(b: Part, out: seq<byte>): (r: seq<byte>)
    requires PartOk(b, out)
  {
    match b
    case Stored(data) => out + data
    case Fixed(tokens) => Expand(tokens, out)
    case Custom(_, tokens) => Expand(tokens, out)
  }

  function Kind(b: Part): nat {
    match b
    case Stored(_) => 0
    case Fixed(_) => 1
    case Custom(_, _) => 2
  }

  function BytesBits(data: seq<byte>): (r: BitString)
    ensures |r| == 8 * |data|
  {
    if data == [] then [] else Number(data[0], 8) + BytesBits(data[1..])
  }

  /** Zeros up to the next byte boundary. */
  function Padding(p: nat): (r: BitString)
    ensures (p + |r|) % 8 == 0 && |r| < 8
  {
    seq((8 - p % 8) % 8, _ => 0)
  }

  /** The length and its complement, low byte first. */
  function StoredHead(n: nat): (r: seq<byte>)
    requires n <= 65535
    ensures |r| == 4
  {
    [n % 256, n / 256, 255 - n % 256, 255 - n / 256]
  }

  lemma {:induction false} SizedTokens(tokens: seq<Token>, out: seq<byte>)
    requires TokensOk(tokens, out)
    ensures forall i :: 0 <= i < |tokens| ==> Sized(tokens[i])
    decreases |tokens|
  {
    hide Append;
    if tokens != [] {
      SizedTokens(tokens[1..], Append(out, tokens[0]));
      forall i | 0 <= i < |tokens|
        ensures Sized(tokens[i])
      {
        if i > 0 { assert tokens[i] == tokens[1..][i - 1]; }
      }
    }
  }

  /** A block from position p on, behind its three header bits. */
  ghost function PartBits(p: nat, b: Part, out: seq<byte>): BitString
    requires PartOk(b, out)
  {
    match b
    case Stored(data) => Padding(p) + BytesBits(StoredHead(|data|) + data)
    case Fixed(tokens) =>
      SizedTokens(tokens, out);
      FixedDataBits(tokens)
    case Custom(t, tokens) => TablesBits(t) + DataBits(tokens, t.lit, t.dist)
  }

  lemma {:induction false} BytesRead(input: seq<byte>, q: nat, data: seq<byte>)
    requires Holds(input, 8 * q, BytesBits(data))
    ensures q + |data| <= |input| && input[q..q + |data|] == data
    decreases |data|
  {
    hide StreamBit, Number;
    if data != [] {
      HoldsBoth(input, 8 * q, Number(data[0], 8), BytesBits(data[1..]));
      SmallPowers();
      NumberRead(input, 8 * q, data[0], 8);
      WindowByte(input, q);
      BytesRead(input, q + 1, data[1..]);
      assert data == [data[0]] + data[1..];
    }
  }

  lemma StoredRead(input: seq<byte>, p: nat, data: seq<byte>, out: seq<byte>)
    requires |data| <= 65535 && Holds(input, p, Padding(p) + BytesBits(StoredHead(|data|) + data))
    ensures InflateSpec.Stored(input, p, out) ==
            Ok((p + |Padding(p) + BytesBits(StoredHead(|data|) + data)|, out + data))
  {
    hide Holds, BytesBits;
    var all := StoredHead(|data|) + data;
    HoldsBoth(input, p, Padding(p), BytesBits(all));
    var q := (p + 7) / 8;
    assert p + |Padding(p)| == 8 * q;
    BytesRead(input, q, all);
    var s := input[q..q + |all|];
    assert s[0] == input[q] && s[1] == input[q + 1] && s[2] == input[q + 2] && s[3] == input[q + 3];
    assert input[q + 4..q + 4 + |data|] == s[4..] == data;
  }

  /** Refused exactly when the second number is not the complement of the first. */
  lemma ComplementRequired(input: seq<byte>, p: nat, a: byte, b: byte, c: byte, d: byte, out: seq<byte>)
    requires Holds(input, p, Padding(p) + BytesBits([a, b, c, d]))
    ensures InflateSpec.Stored(input, p, out) == Err(BadStoredLength) <==> 256 * b + a + (256 * d + c) != 65535
  {
    hide Holds, BytesBits;
    HoldsBoth(input, p, Padding(p), BytesBits([a, b, c, d]));
    var q := (p + 7) / 8;
    assert p + |Padding(p)| == 8 * q;
    BytesRead(input, q, [a, b, c, d]);
    var s := input[q..q + 4];
    assert s[0] == input[q] && s[1] == input[q + 1] && s[2] == input[q + 2] && s[3] == input[q + 3];
  }

  /** There is no fourth kind of block. */
  lemma KindRefused(input: seq<byte>, p: nat, last: nat, out: seq<byte>)
    requires last < 2 && Holds(input, p, [last, 1, 1])
    ensures Blocks(input, p, out) == Err(BadBlockType)
  {
    hide Holds, Window;
    SmallPowers();
    assert Number(last, 1) + Number(3, 2) == [last, 1, 1];
    HoldsBoth(input, p, Number(last, 1), Number(3, 2));
    NumberRead(input, p, last, 1);
    NumberRead(input, p + 1, 3, 2);
    HoldsWithin(input, p + 1, Number(3, 2));
  }

  lemma FixedUsable()
    ensures Usable(FixedLiterals()) && Usable(FixedDistances())
  {
    I.FixedCodesOk();
  }

  /** A block is read back. */
  lemma PartRead(input: seq<byte>, p: nat, b: Part, out: seq<byte>)
    requires PartOk(b, out) && Holds(input, p, PartBits(p, b, out)) && p <= 8 * |input|
    ensures Block(input, p, Kind(b), out) == Ok((p + |PartBits(p, b, out)|, After(b, out)))
  {
    hide Holds, TablesOk, TokensOk, Coded, TablesBits, DataBits, FixedDataBits, Codes, Dynamic, InflateSpec.Stored,
         Usable, Expand, Padding, BytesBits, StoredHead, FixedLiterals, FixedDistances;
    match b
    case Stored(data) => StoredRead(input, p, data, out);
    case Fixed(tokens) =>
      SizedTokens(tokens, out);
      FixedData(tokens);
      FixedUsable();
      DataRead(input, p, tokens, FixedLiterals(), FixedDistances(), out);
    case Custom(t, tokens) =>
      TablesUsable(t);
      HoldsBoth(input, p, TablesBits(t), DataBits(tokens, t.lit, t.dist));
      TablesRead(input, p, t);
      DataRead(input, p + |TablesBits(t)|, tokens, t.lit, t.dist, out);
  }

  lemma TablesUsable(t: Tables)
    requires TablesOk(t)
    ensures TablesWritten(t) && Usable(t.lit) && Usable(t.dist) && CheckBoth(t.lit, t.dist).Ok?
  {
  }

  ghost predicate PartsOk(parts: seq<Part>, out: seq<byte>)
    decreases |parts|
  {
    parts == [] || (PartOk(parts[0], out) && PartsOk(parts[1..], After(parts[0], out)))
  }

  /** What the blocks stand for. */
  function Meaning(parts: seq<Part>, out: seq<byte>): seq<byte>
    requires PartsOk(parts, out)
    decreases |parts|
  {
    if parts == [] then out else Meaning(parts[1..], After(parts[0], out))
  }

  /** Each block behind a bit that is set in the last one and two bits for its kind. */
  ghost function PartsBits(p: nat, parts: seq<Part>, out: seq<byte>): BitString
    requires PartsOk(parts, out)
    decreases |parts|
  {
    if parts == [] then []
    else
      var b, rest := parts[0], parts[1..];
      var bits := PartBits(p + 3, b, out);
      Number(if rest == [] then 1 else 0, 1) + (Number(Kind(b), 2) + (bits +
        PartsBits(p + 3 + |bits|, rest, After(b, out))))
  }

  lemma {:induction false} PartsRead(input: seq<byte>, p: nat, parts: seq<Part>, out: seq<byte>)
    requires parts != [] && PartsOk(parts, out) && Holds(input, p, PartsBits(p, parts, out))
    ensures Blocks(input, p, out) == Ok(Meaning(parts, out))
    decreases |parts|
  {
    hide Holds, PartOk, PartBits, Block, Number, ReadBits, After, Kind;
    var b, rest := parts[0], parts[1..];
    var bits := PartBits(p + 3, b, out);
    var more := PartsBits(p + 3 + |bits|, rest, After(b, out));
    var last := if rest == [] then 1 else 0;
    KindSmall(b);
    HoldsBoth(input, p, Number(last, 1), Number(Kind(b), 2) + (bits + more));
    HoldsBoth(input, p + 1, Number(Kind(b), 2), bits + more);
    HoldsBoth(input, p + 3, bits, more);
    BitsRead(input, p, last, 1);
    BitsRead(input, p + 1, Kind(b), 2);
    HoldsWithin(input, p + 3, bits);
    PartRead(input, p + 3, b, out);
    if rest != [] { PartsRead(input, p + 3 + |bits|, rest, After(b, out)); }
  }

  lemma KindSmall(b: Part)
    ensures Kind(b) < Pow2(2) && Pow2(1) == 2
  {
  }

  // ---------- bytes ----------

  ghost predicate AreBits(bits: BitString) {
    forall i :: 0 <= i < |bits| ==> bits[i] < 2
  }

  /** Eight bits to a byte, the first one lowest; the last byte is filled up with zeros. */
  function Pack(bits: BitString): (r: seq<byte>)
    requires AreBits(bits)
    ensures |bits| <= 8 * |r| < |bits| + 8
  {
    if bits == [] then []
    else if |bits| <= 8 then [Value(bits)]
    else [Value(bits[..8])] + Pack(bits[8..])
  }

  function Value(bits: BitString): (b: byte)
    requires |bits| <= 8 && AreBits(bits)
  {
    ValueBound(bits);
    ValueOf(bits)
  }

  function ValueOf(bits: BitString): nat {
    if bits == [] then 0 else bits[0] + 2 * ValueOf(bits[1..])
  }

  lemma {:induction false} ValueBound(bits: BitString)
    requires |bits| <= 8 && AreBits(bits)
    ensures ValueOf(bits) < Pow2(|bits|) <= 256
  {
    SmallPowers();
    if bits != [] { ValueBound(bits[1..]); }
  }

  lemma {:induction false} ValueBit(bits: BitString, i: nat)
    requires i < |bits| && AreBits(bits)
    ensures Bit(ValueOf(bits), i) == bits[i]
    decreases i
  {
    ValueStep(bits);
    if i > 0 {
      hide ValueOf;
      ValueBit(bits[1..], i - 1);
    }
  }

  lemma ValueStep(bits: BitString)
    requires bits != [] && bits[0] < 2
    ensures ValueOf(bits) % 2 == bits[0] && ValueOf(bits) / 2 == ValueOf(bits[1..])
  {
  }

  lemma {:induction false} PackBit(bits: BitString, i: nat)
    requires i < |bits| && AreBits(bits)
    ensures StreamBit(Pack(bits), i) == bits[i]
    decreases |bits|
  {
    hide Bit, ValueOf;
    if i < 8 {
      ValueBit(if |bits| <= 8 then bits else bits[..8], i);
    } else {
      PackBit(bits[8..], i - 8);
      assert Pack(bits)[i / 8] == Pack(bits[8..])[(i - 8) / 8];
    }
  }

  lemma StreamShift(head: seq<byte>, s: seq<byte>, tail: seq<byte>, i: nat)
    requires i < 8 * |s|
    ensures StreamBit(head + s + tail, 8 * |head| + i) == StreamBit(s, i)
  {
    hide Bit;
    var at := 8 * |head| + i;
    assert at / 8 == |head| + i / 8 && at % 8 == i % 8;
  }

  /** Packed bits behind some bytes and before some others. */
  lemma PackHolds(head: seq<byte>, bits: BitString, tail: seq<byte>)
    requires AreBits(bits)
    ensures Holds(head + Pack(bits) + tail, 8 * |head|, bits)
  {
    hide StreamBit, Pack;
    forall i | 0 <= i < |bits|
      ensures StreamBit(head + Pack(bits) + tail, 8 * |head| + i) == bits[i]
    {
      PackBit(bits, i);
      StreamShift(head, Pack(bits), tail, i);
    }
  }

  // ---------- all bits are bits ----------

  lemma {:induction false} NumberBits(x: nat, n: nat)
    ensures AreBits(Number(x, n))
    decreases n
  {
    if n > 0 { NumberBits(x / 2, n - 1); }
  }

  lemma {:induction false} CodeIsBits(x: nat, n: nat)
    ensures AreBits(CodeBits(x, n))
    decreases n
  {
    if n > 0 { CodeIsBits(x / 2, n - 1); }
  }

  lemma SymbolIsBits(lens: seq<nat>, sym: nat)
    requires sym < |lens|
    ensures AreBits(SymbolBits(lens, sym))
  {
    CodeIsBits(Code(lens, sym), lens[sym]);
  }

  lemma TokenIsBits(t: Token, lit: seq<nat>, dist: seq<nat>)
    requires TokenCoded(t, lit, dist)
    ensures AreBits(TokenBits(t, lit, dist))
  {
    hide SymbolBits, Number, Excess, Pow2, LengthSymbol, DistanceSymbol;
    match t
    case Literal(b) => SymbolIsBits(lit, b);
    case Copy(len, d) =>
      SymbolIsBits(lit, LengthSymbol(len));
      SymbolIsBits(dist, DistanceSymbol(d));
      NumberBits((len - 3) % Pow2(Excess(len - 3, 8)), Excess(len - 3, 8));
      NumberBits((d - 1) % Pow2(Excess(d - 1, 4)), Excess(d - 1, 4));
  }

  lemma {:induction false} TokensAreBits(tokens: seq<Token>, lit: seq<nat>, dist: seq<nat>)
    requires Coded(tokens, lit, dist)
    ensures AreBits(TokensBits(tokens, lit, dist))
    decreases |tokens|
  {
    hide TokenBits, TokenCoded, SymbolBits;
    if tokens != [] {
      assert forall i :: 0 <= i < |tokens| - 1 ==> tokens[1..][i] == tokens[i + 1];
      TokenIsBits(tokens[0], lit, dist);
      TokensAreBits(tokens[1..], lit, dist);
    }
  }

  lemma DataAreBits(tokens: seq<Token>, lit: seq<nat>, dist: seq<nat>)
    requires Coded(tokens, lit, dist)
    ensures AreBits(DataBits(tokens, lit, dist))
  {
    hide TokensBits, SymbolBits, TokenCoded;
    TokensAreBits(tokens, lit, dist);
    SymbolIsBits(lit, 256);
  }

  lemma RunIsBits(r: LengthRun, alphabet: seq<nat>)
    requires RunCoded(r, alphabet)
    ensures AreBits(RunBits(r, alphabet))
  {
    hide SymbolBits, Number;
    SymbolIsBits(alphabet, RunSymbol(r));
    match r
    case One(_) =>
    case Again(n) => NumberBits(n - 3, 2);
    case Zeros(n) => if n <= 10 { NumberBits(n - 3, 3); } else { NumberBits(n - 11, 7); }
  }

  lemma {:induction false} RunsAreBits(runs: seq<LengthRun>, alphabet: seq<nat>)
    requires RunsCoded(runs, alphabet)
    ensures AreBits(RunsBits(runs, alphabet))
    decreases |runs|
  {
    hide RunBits, RunCoded;
    if runs != [] {
      RunIsBits(runs[0], alphabet);
      RunsAreBits(runs[1..], alphabet);
    }
  }

  lemma {:induction false} SizesAreBits(alphabet: seq<nat>, n: nat)
    requires |alphabet| == 19 && n <= 19
    ensures AreBits(SizesBits(alphabet, n))
  {
    hide Number;
    if n > 0 {
      NumberBits(alphabet[Nth(n - 1)], 3);
      SizesAreBits(alphabet, n - 1);
    }
  }

  lemma TablesAreBits(t: Tables)
    requires TablesWritten(t)
    ensures AreBits(TablesBits(t))
  {
    hide SizesBits, RunsBits, Usable, RunsOk, Unroll, Number;
    SizesCount(t);
    SizesAreBits(t.alphabet, t.n);
    RunsAreBits(t.runs, t.alphabet);
    NumberBits(|t.lit| - 257, 5);
    NumberBits(|t.dist| - 1, 5);
    NumberBits(t.n - 4, 4);
  }

  lemma {:induction false} BytesAreBits(data: seq<byte>)
    ensures AreBits(BytesBits(data))
  {
    hide Number;
    if data != [] {
      NumberBits(data[0], 8);
      BytesAreBits(data[1..]);
    }
  }

  lemma PartIsBits(p: nat, b: Part, out: seq<byte>)
    requires PartOk(b, out)
    ensures AreBits(PartBits(p, b, out))
  {
    hide TablesOk, TokensOk, Coded, TablesBits, DataBits, FixedDataBits, BytesBits, StoredHead;
    match b
    case Stored(data) => BytesAreBits(StoredHead(|data|) + data);
    case Fixed(tokens) =>
      SizedTokens(tokens, out);
      FixedData(tokens);
      DataAreBits(tokens, FixedLiterals(), FixedDistances());
    case Custom(t, tokens) =>
      TablesUsable(t);
      TablesAreBits(t);
      DataAreBits(tokens, t.lit, t.dist);
  }

  lemma {:induction false} PartsAreBits(p: nat, parts: seq<Part>, out: seq<byte>)
    requires PartsOk(parts, out)
    ensures AreBits(PartsBits(p, parts, out))
    decreases |parts|
  {
    hide PartBits, PartOk, After, Number;
    if parts != [] {
      var b, rest := parts[0], parts[1..];
      PartIsBits(p + 3, b, out);
      PartsAreBits(p + 3 + |PartBits(p + 3, b, out)|, rest, After(b, out));
      NumberBits(if rest == [] then 1 else 0, 1);
      NumberBits(Kind(b), 2);
    }
  }

  // ---------- zlib streams, RFC 1950, section 2.2 ----------

  /** Method 8, check bits that make the two bytes a multiple of 31, and no dictionary. */
  predicate ZlibHeader(cmf: byte, flg: byte) {
    Low(cmf, 4) == 8 && Bit(flg, 5) == 0 && (256 * cmf + flg) % 31 == 0
  }

  lemma HeaderIs(cmf: byte, flg: byte)
    ensures HeaderOk(cmf, flg) <==> ZlibHeader(cmf, flg)
  {
    hide Low, Bit, Pow2;
    SmallPowers();
    LowModulo(cmf, 4);
    LowModulo(flg, 5);
  }

  /** The header, the blocks, and whatever follows. */
  ghost function Stream(cmf: byte, flg: byte, parts: seq<Part>, tail: seq<byte>): seq<byte>
    requires PartsOk(parts, [])
  {
    PartsAreBits(16, parts, []);
    [cmf, flg] + Pack(PartsBits(16, parts, [])) + tail
  }

  /** Round trip: any blocks of the three kinds, one after the other, are read back and stand for what they should. */
  lemma InflateStream(cmf: byte, flg: byte, parts: seq<Part>, tail: seq<byte>)
    requires parts != [] && PartsOk(parts, []) && ZlibHeader(cmf, flg)
    ensures Inflate(Stream(cmf, flg, parts, tail), true) == Ok(Meaning(parts, []))
  {
    hide PartsBits, PartsOk, Pack, Holds, ZlibHeader, HeaderOk, Blocks, Meaning;
    var input := Stream(cmf, flg, parts, tail);
    PartsAreBits(16, parts, []);
    PackHolds([cmf, flg], PartsBits(16, parts, []), tail);
    PartsRead(input, 16, parts, []);
    HeaderIs(cmf, flg);
    assert ByteAt(input, 0) == cmf && ByteAt(input, 1) == flg;
  }
}
