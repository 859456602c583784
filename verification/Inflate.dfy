/** The zlib decoder of client/stb_image.h, as a class over its stbi__zbuf. */
module Inflate {
  import opened Bits
  import opened BitStream
  import opened Huffman
  import opened HuffmanTable
  import opened InflateSpec

  // ---------- lemmas that tie the bit buffer to the bit stream ----------

  lemma BufferByte(input: seq<byte>, taken: nat, p: nat, n: nat)
    requires 8 * taken == p + n
    ensures Or(Window(input, p, n), Shl(ByteAt(input, taken), n)) == Window(input, p, n + 8)
  {
    hide Window, ByteAt, Or, Shl;
    WindowByte(input, taken);
    WindowOr(input, p, n, 8);
  }

  /** What a symbol decoded from the next bits means for the specification. */
  lemma ReadSymbolIs(input: seq<byte>, p: nat, lens: seq<nat>, sym: int)
    requires if sym == -1 then forall s: nat :: !Matches(lens, Window(input, p, 16), s)
             else sym >= 0 && Matches(lens, Window(input, p, 16), sym)
    ensures ReadSymbol(input, p, lens) ==
            if sym == -1 then Err(BadCode)
            else if p + lens[sym] > 8 * |input| then Err(Truncated)
            else Ok((p + lens[sym], sym))
  {
    if sym >= 0 {
      forall s: nat | Matches(lens, Window(input, p, 16), s)
        ensures s == sym
      {
        PrefixFree(lens, Window(input, p, 16), s, sym);
      }
    }
  }

  lemma {:induction false} ShlBelow(y: nat, e: nat, n: nat)
    ensures y < Shl(e, n) <==> Shr(y, n) < e
  {
    if n > 0 { ShlBelow(y / 2, e, n - 1); }
  }

  /** The preshifted comparison decides whether the first s bits fall below the end of length s. */
  lemma Preshifted(lens: seq<nat>, x: nat, s: nat)
    requires s <= 16
    ensures Rev(x, 16) < Shl(End(lens, s), 16 - s) <==> Rev(x, s) < End(lens, s)
    ensures Shr(Rev(x, 16), 16 - s) == Rev(x, s)
  {
    RevPrefix(x, s, 16);
    ShlBelow(Rev(x, 16), End(lens, s), 16 - s);
  }

  lemma ShortMatchLow(lens: seq<nat>, x: nat, sym: nat)
    ensures ShortMatch(lens, Low(x, FAST_BITS), sym) <==> ShortMatch(lens, x, sym)
  {
    if sym < |lens| && lens[sym] <= FAST_BITS {
      RevLow(x, FAST_BITS, lens[sym]);
    }
  }

  /** When no shorter length accepts the bits, the symbol found at length s is the one at the computed place. */
  lemma SlowMatch(lens: seq<nat>, x: nat, s: nat) returns (sym: nat)
    requires 1 <= s <= MAX_LENGTH && Rev(x, s) < End(lens, s)
    requires forall t {:trigger End(lens, t)} :: 1 <= t < s ==> Rev(x, t) >= End(lens, t)
    ensures Matches(lens, x, sym) && lens[sym] == s
    ensures Index(lens, sym) == Rev(x, s) - First(lens, s) + Base(lens, s)
  {
    sym := SomeMatch(lens, x, s);
    MatchBelowEnd(lens, x, sym);
  }

  lemma NoShortMatch(lens: seq<nat>, x: nat, t: nat)
    requires forall sym: nat :: !ShortMatch(lens, x, sym)
    requires 1 <= t <= FAST_BITS
    ensures Rev(x, t) >= End(lens, t)
  {
    if Rev(x, t) < End(lens, t) {
      var sym := SomeMatch(lens, x, t);
      assert ShortMatch(lens, x, sym);
    }
  }

  /** Byte i of a match is the byte dist places before it. */
  lemma RepeatsEarlier(out: seq<byte>, dist: nat, len: nat, i: nat)
    requires 0 < dist <= |out| && i < len
    ensures var all := out + Repeat(out, dist, len);
            all[|out| + i] == all[|out| + i - dist]
  {
    if dist <= i {
      ModMinus(i, dist);
    } else {
      assert i % dist == i by { ModSmall(i, dist); }
    }
  }

  lemma ModSmall(i: nat, d: nat)
    requires i < d
    ensures i % d == i
  {
  }

  lemma ModMinus(i: nat, d: nat)
    requires 0 < d <= i
    ensures (i - d) % d == i % d
  {
    var q, r := (i - d) / d, (i - d) % d;
    assert i == (q + 1) * d + r;
    DivUnique(i, d, q + 1, r);
  }

  lemma DivUnique(x: nat, d: nat, q: nat, r: nat)
    requires 0 < d && x == q * d + r && r < d
    ensures x / d == q && x % d == r
  {
    var q' := x / d;
    if q' < q {
      MulStep(q', q, d);
    } else if q < q' {
      MulStep(q, q', d);
    }
  }

  lemma MulStep(a: nat, b: nat, d: nat)
    requires a < b
    ensures a * d + d <= b * d
  {
    assert (a + 1) * d <= b * d;
  }

  lemma NoMatch(lens: seq<nat>, x: nat)
    requires Lengths(lens)
    requires forall t {:trigger End(lens, t)} :: 1 <= t <= MAX_LENGTH ==> Rev(x, t) >= End(lens, t)
    ensures forall sym: nat :: !Matches(lens, x, sym)
  {
    forall sym: nat | Matches(lens, x, sym)
      ensures false
    {
      MatchBelowEnd(lens, x, sym);
    }
  }

  lemma FixedParts()
    ensures FixedLiterals() == Times(8, 144) + Times(9, 112) + Times(7, 24) + Times(8, 8)
    ensures FixedDistances() == Times(5, 32)
  {
  }

  lemma MorePowers()
    ensures Pow2(6) == 64 && Pow2(8) == 256 && Pow2(9) == 512 && Pow2(10) == 1024 && Pow2(12) == 4096
            && Pow2(15) == 32768
  {
  }

  /** The fixed codes pass the checks of the table builder, and fill the code space exactly. */
  lemma FixedCodesOk()
    ensures CheckBoth(FixedLiterals(), FixedDistances()).Ok?
  {
    hide FixedLiterals, FixedDistances, Times, Count, Kraft, Pow2;
    FixedParts();
    SmallPowers();
    MorePowers();
    var lit, dist := FixedLiterals(), FixedDistances();
    var a, b, c, d := Times(8, 144), Times(9, 112), Times(7, 24), Times(8, 8);
    forall s {:trigger Count(lit, s)} {:trigger Count(dist, s)} | 1 <= s <= MAX_LENGTH
      ensures Count(lit, s) <= Pow2(s) && Count(dist, s) <= Pow2(s)
    {
      CountConcat(a + b + c, d, s);
      CountConcat(a + b, c, s);
      CountConcat(a, b, s);
      RunCounts(a, 8, s);
      RunCounts(b, 9, s);
      RunCounts(c, 7, s);
      RunCounts(d, 8, s);
      RunCounts(dist, 5, s);
    }
    KraftConcat(a + b + c, d);
    KraftConcat(a + b, c);
    KraftConcat(a, b);
    RunCounts(a, 8, 0);
    RunCounts(b, 9, 0);
    RunCounts(c, 7, 0);
    RunCounts(d, 8, 0);
    RunCounts(dist, 5, 0);
  }

  lemma SmallPowers()
    ensures Pow2(2) == 4 && Pow2(3) == 8 && Pow2(4) == 16 && Pow2(5) == 32 && Pow2(7) == 128
  {
  }

  lemma EmptyWindow(input: seq<byte>, p: nat)
    ensures Window(input, p, 0) == 0
  {
  }

  class ZBuf {
    const input: seq<byte>
    /** zbuffer, as an offset. */
    var pos: nat
    var numBits: nat
    var codeBuffer: nat
    var zout: array<byte>
    /** zout, as an offset from zout_start. */
    var zlen: nat
    const expandable: bool
    const zLength: Table
    const zDistance: Table
    /** Bytes fetched so far, counting the zero bytes made up after the end of the input. */
    ghost var taken: nat
    /** How many bits of the stream have been consumed. */
    ghost var at: nat

    constructor (input: seq<byte>, out: array<byte>, expandable: bool)
      requires expandable ==> out.Length > 0
      ensures Valid() && this.input == input && this.expandable == expandable && zout == out
      ensures fresh(zLength) && fresh(zDistance) && fresh(zLength.Arrays()) && fresh(zDistance.Arrays())
      ensures pos == 0 && numBits == 0 && at == 0 && zlen == 0
    {
      this.input, this.expandable := input, expandable;
      pos, numBits, codeBuffer := 0, 0, 0;
      taken, at := 0, 0;
      zout, zlen := out, 0;
      zLength := new Table();
      zDistance := new Table();
    }

    ghost predicate Valid()
      reads this
    {
      && Buffered() && zlen <= zout.Length && (expandable ==> zout.Length > 0)
      && zLength.Shape() && zDistance.Shape()
      && zLength.Arrays() !! zDistance.Arrays()
    }

    /** The output so far. */
    ghost function Contents(): seq<byte>
      requires zlen <= zout.Length
      reads this, zout
    {
      zout[..zlen]
    }

    /** A fixed output buffer has room for n bytes; an expandable one always has. */
    ghost predicate Room(n: nat)
      reads this
    {
      expandable || n <= zout.Length
    }

    ghost predicate Buffered()
      reads this`pos, this`numBits, this`codeBuffer, this`taken, this`at
    {
      && numBits <= 32 && 8 * taken == at + numBits
      && pos == (if taken < |input| then taken else |input|)
      && codeBuffer == Window(input, at, numBits)
    }

    method Get8() returns (b: byte)
      modifies this`pos
      ensures b == if old(pos) < |input| then input[old(pos)] else 0
      ensures pos == if old(pos) < |input| then old(pos) + 1 else old(pos)
    {
      if pos >= |input| {
        return 0;
      }
      b := input[pos];
      pos := pos + 1;
    }

    /** Tops the buffer up to more than 24 bits without moving the position; the buffer never exceeds 32 bits. */
    method FillBits()
      requires Buffered() && numBits <= 24
      modifies this`pos, this`numBits, this`codeBuffer, this`taken
      ensures Buffered() && 24 < numBits
    {
      FillByte();
      while numBits <= 24
        invariant Buffered()
        decreases 32 - numBits
      {
        FillByte();
      }
    }

    /** The body of the do-while loop. */
    method FillByte()
      requires Buffered() && numBits <= 24
      modifies this`pos, this`numBits, this`codeBuffer, this`taken
      ensures Buffered() && numBits == old(numBits) + 8
    {
      WindowBound(input, at, numBits);
      assert codeBuffer < Pow2(numBits);
      BufferByte(input, taken, at, numBits);
      var b := Get8();
      codeBuffer := Or(codeBuffer, Shl(b, numBits));
      numBits := numBits + 8;
      taken := taken + 1;
    }

    /** Reads n bits. */
    method Receive(n: nat) returns (k: nat)
      requires Buffered() && n <= 16
      modifies this`pos, this`numBits, this`codeBuffer, this`taken, this`at
      ensures Buffered() && at == old(at) + n && k == Window(input, old(at), n) < Pow2(n)
    {
      WindowBound(input, at, n);
      if numBits < n {
        FillBits();
      }
      WindowLow(input, at, numBits, n);
      k := Low(codeBuffer, n);
      Drop(n);
    }

    /** Drops s bits from the bottom of the buffer. */
    method Drop(s: nat)
      requires Buffered() && s <= numBits
      modifies this`numBits, this`codeBuffer, this`at
      ensures Buffered() && at == old(at) + s && numBits == old(numBits) - s
    {
      hide Window, Shr;
      WindowShr(input, at, numBits, s);
      codeBuffer := Shr(codeBuffer, s);
      numBits := numBits - s;
      at := at + s;
    }

    /** Decodes the one symbol whose canonical code comes next and consumes exactly that code; -1 when there is none. */
    method HuffmanDecode(z: Table, ghost lens: seq<nat>) returns (sym: int)
      requires Buffered() && z.For(lens)
      modifies this`pos, this`numBits, this`codeBuffer, this`taken, this`at
      ensures Buffered()
      ensures var x := Window(input, old(at), 16);
              if sym == -1 then (forall s: nat :: !Matches(lens, x, s)) && at == old(at)
              else sym >= 0 && Matches(lens, x, sym) && at == old(at) + lens[sym]
    {
      if numBits < 16 {
        FillBits();
      }
      ghost var x := Window(input, at, 16);
      WindowLow(input, at, numBits, 16);
      var s: nat;
      sym, s := Lookup(z, codeBuffer, x, lens);
      if sym >= 0 {
        Drop(s);
      }
    }

    /** The table search of stbi__zhuffman_decode. */
    static method Lookup(z: Table, codeBuffer: nat, ghost x: nat, ghost lens: seq<nat>) returns (sym: int, s: nat)
      requires z.For(lens) && Low(codeBuffer, 16) == x
      ensures if sym == -1 then forall t: nat :: !Matches(lens, x, t)
              else sym >= 0 && Matches(lens, x, sym) && s == lens[sym]
    {
      LowBound(codeBuffer, FAST_BITS);
      assert Pow2(9) == FAST_SIZE;
      ghost var low := Low(codeBuffer, FAST_BITS);
      var b: int := z.fast[Low(codeBuffer, FAST_BITS)];
      assert z.fast[..][low] == b;
      LowLow(codeBuffer, 16, FAST_BITS);
      forall t: nat
        ensures ShortMatch(lens, low, t) <==> ShortMatch(lens, x, t)
      {
        ShortMatchLow(lens, x, t);
      }
      if b < NO_SYMBOL {
        ghost var hit :| 0 <= hit < |lens| && ShortMatch(lens, low, hit) && b == Index(lens, hit);
        s := z.size[b];
        sym := z.value[b];
        return;
      }
      sym, s := SlowLookup(z, codeBuffer, x, lens);
    }

    static method SlowLookup(z: Table, codeBuffer: nat, ghost x: nat, ghost lens: seq<nat>) returns (sym: int, s: nat)
      requires z.For(lens) && Low(codeBuffer, 16) == x
      requires forall t: nat :: !ShortMatch(lens, x, t)
      ensures if sym == -1 then forall t: nat :: !Matches(lens, x, t)
              else sym >= 0 && Matches(lens, x, sym) && s == lens[sym]
    {
      hide Count, First, Base, FastFor, Shl, Low, BitReverse;
      BitReverseCorrect(codeBuffer, 16);
      RevLow(codeBuffer, 16, 16);
      RevBound(x, 16);
      assert Pow2(4) == 16 && Pow2(8) == 256 && Pow2(12) == 4096 && Pow2(16) == 0x10000;
      forall t {:trigger End(lens, t)} | 1 <= t <= FAST_BITS
        ensures Rev(x, t) >= End(lens, t)
      {
        NoShortMatch(lens, x, t);
      }
      var k := BitReverse(codeBuffer, 16);
      s := FAST_BITS + 1;
      while k >= z.maxcode[s]
        invariant FAST_BITS < s <= 16
        invariant forall t {:trigger End(lens, t)} :: 1 <= t < s ==> Rev(x, t) >= End(lens, t)
        decreases 16 - s
      {
        assert s < 16;
        Preshifted(lens, x, s);
        s := s + 1;
      }
      if s == 16 {
        NoMatch(lens, x);
        return -1, s;
      }
      Preshifted(lens, x, s);
      ghost var hit := SlowMatch(lens, x, s);
      var b := Shr(k, 16 - s) - z.firstcode[s] + z.firstsymbol[s];
      assert z.size[b] == s;
      sym := z.value[b];
    }

    // ---------- output ----------

    /** stbi__zexpand: makes room for n more bytes by doubling the buffer. */
    method Expand(n: nat) returns (ok: bool)
      requires Valid()
      modifies this`zout
      ensures Valid() && ok == expandable && Contents() == old(Contents())
      ensures if ok then zlen + n <= zout.Length && fresh(zout) else zout == old(zout)
    {
      if !expandable {
        return false;
      }
      var limit := zout.Length;
      while zlen + n > limit
        invariant 0 < zout.Length <= limit
        decreases zlen + n - limit
      {
        limit := limit * 2;
      }
      var q := new byte[limit];
      forall i | 0 <= i < zlen {
        q[i] := zout[i];
      }
      zout := q;
      ok := true;
    }

    method PutLiteral(b: byte) returns (ok: bool)
      requires Valid()
      modifies this`zout, this`zlen, zout
      ensures Valid() && ok == old(Room(zlen + 1)) && (ok ==> Contents() == old(Contents()) + [b])
      ensures (fresh(zout) && expandable) || zout == old(zout)
    {
      if zlen >= zout.Length {
        ok := Expand(1);
        if !ok {
          return;
        }
      }
      ghost var before := Contents();
      zout[zlen] := b;
      zlen := zlen + 1;
      assert zout[..zlen] == zout[..zlen - 1] + [b] && zout[..zlen - 1] == before;
      ok := true;
    }

    method PutMatch(len: nat, dist: nat) returns (ok: bool)
      requires Valid() && 0 < dist <= zlen
      modifies this`zout, this`zlen, zout
      ensures Valid() && ok == old(Room(zlen + len))
              && (ok ==> Contents() == old(Contents()) + Repeat(old(Contents()), dist, len))
      ensures (fresh(zout) && expandable) || zout == old(zout)
    {
      if zlen + len > zout.Length {
        ok := Expand(len);
        if !ok {
          return;
        }
      }
      CopyMatch(len, dist);
      ok := true;
    }

    /** Copies byte by byte, so that a match may run into the bytes it has just written. */
    method CopyMatch(len: nat, dist: nat)
      requires 0 < dist <= zlen && zlen + len <= zout.Length
      modifies this`zlen, zout
      ensures zlen == old(zlen) + len && Contents() == old(Contents()) + Repeat(old(Contents()), dist, len)
    {
      hide Repeat;
      ghost var before := Contents();
      ghost var all := before + Repeat(before, dist, len);
      var start := zlen;
      assert all[..start] == before;
      while zlen < start + len
        invariant start <= zlen <= start + len && Contents() == all[..zlen]
      {
        RepeatsEarlier(before, dist, len, zlen - start);
        assert zout[zlen - dist] == Contents()[zlen - dist] == all[zlen - dist];
        zout[zlen] := zout[zlen - dist];
        zlen := zlen + 1;
        assert Contents() == all[..zlen - 1] + [all[zlen - 1]];
      }
    }

    // ---------- blocks ----------

    /** What a parser of part of the stream guarantees, given the meaning of that part. */
    twostate predicate Followed(ok: bool, spec: Result<(nat, seq<byte>)>)
      requires zlen <= zout.Length
      reads this, zout
    {
      && (ok <==> spec.Ok? && old(Room(|spec.value.1|)))
      && (ok ==> at == spec.value.0 && Contents() == spec.value.1)
    }

    /** The decoder's output is the recursive expansion of the block; it fails exactly when the block is
        malformed or the fixed output buffer is too small for it. */
    method ParseHuffmanBlock(ghost lit: seq<nat>, ghost dist: seq<nat>) returns (ok: bool)
      requires Valid() && zLength.For(lit) && zDistance.For(dist)
      requires Codes(input, at, lit, dist, Contents()).Settled()
      modifies this, zout
      ensures Valid() && ((fresh(zout) && expandable) || zout == old(zout))
      ensures Followed(ok, old(Codes(input, at, lit, dist, Contents())))
    {
      hide Codes, Table.For, Window;
      ghost var spec := Codes(input, at, lit, dist, Contents());
      var more := true;
      ok := true;
      while more
        invariant Valid() && zLength.For(lit) && zDistance.For(dist)
        invariant (fresh(zout) && expandable) || zout == old(zout)
        invariant more ==> ok && Codes(input, at, lit, dist, Contents()) == spec
        invariant !more ==> Followed(ok, spec)
        decreases more, 8 * |input| - at
      {
        ok, more := ParseSymbol(lit, dist);
      }
    }

    /** One round of the loop: a literal, a match, or the end of the block. */
    method ParseSymbol(ghost lit: seq<nat>, ghost dist: seq<nat>) returns (ok: bool, more: bool)
      requires Valid() && zLength.For(lit) && zDistance.For(dist)
      requires Codes(input, at, lit, dist, Contents()).Settled()
      modifies this, zout
      ensures Valid() && ((fresh(zout) && expandable) || zout == old(zout))
      ensures zLength.For(lit) && zDistance.For(dist)
      ensures var spec := old(Codes(input, at, lit, dist, Contents()));
              if more then ok && Codes(input, at, lit, dist, Contents()) == spec && old(at) < at <= 8 * |input|
              else Followed(ok, spec)
    {
      hide Table.For, ReadSymbol, ReadMatch, Window, Matches, Repeat;
      ghost var p, out := at, Contents();
      var z := HuffmanDecode(zLength, lit);
      ReadSymbolIs(input, p, lit, z);
      if z < 256 {
        if z < 0 {
          return false, false;
        }
        ok := PutLiteral(z);
        more := ok;
      } else if z == 256 {
        return true, false;
      } else {
        ok := ParseMatch(z, dist);
        more := ok;
      }
    }

    /** A length symbol has been read: reads the rest of the match and copies it. */
    method ParseMatch(sym: nat, ghost dist: seq<nat>) returns (ok: bool)
      requires Valid() && zDistance.For(dist) && 257 <= sym
      requires ReadMatch(input, at, sym, dist).Settled()
      modifies this, zout
      ensures Valid() && ((fresh(zout) && expandable) || zout == old(zout))
      ensures var m := old(ReadMatch(input, at, sym, dist));
              && (ok <==> m.Ok? && m.value.2 <= old(zlen) && old(Room(zlen + m.value.1)))
              && (ok ==>
                  at == m.value.0 && Contents() == old(Contents()) + Repeat(old(Contents()), m.value.2, m.value.1))
    {
      hide Table.For, ReadSymbol, Window, ReadLength, ReadDistance, Matches, Repeat;
      var len := ParseLength(sym);
      ghost var p := at;
      var d := HuffmanDecode(zDistance, dist);
      ReadSymbolIs(input, p, dist, d);
      if d < 0 {
        return false;
      }
      var distance := ParseDistance(d);
      if zlen < distance {
        return false;
      }
      ok := PutMatch(len, distance);
    }

    method ParseLength(sym: nat) returns (len: nat)
      requires Buffered() && 257 <= sym && ReadLength(input, at, sym).Settled()
      modifies this`pos, this`numBits, this`codeBuffer, this`taken, this`at
      ensures Buffered() && old(ReadLength(input, at, sym)) == Ok((at, len))
    {
      hide Window, LengthBase, LengthExtra, Pow2;
      EmptyWindow(input, at);
      var z := sym - 257;
      len := LengthBase(z);
      if LengthExtra(z) != 0 {
        var extra := Receive(LengthExtra(z));
        len := len + extra;
      }
    }

    method ParseDistance(sym: nat) returns (distance: nat)
      requires Buffered() && ReadDistance(input, at, sym).Settled()
      modifies this`pos, this`numBits, this`codeBuffer, this`taken, this`at
      ensures Buffered() && old(ReadDistance(input, at, sym)) == Ok((at, distance))
    {
      hide Window, DistBase, DistExtra, Pow2;
      EmptyWindow(input, at);
      distance := DistBase(sym);
      if DistExtra(sym) != 0 {
        var extra := Receive(DistExtra(sym));
        distance := distance + extra;
      }
    }

    /** Drops the bits up to the byte boundary, takes the header out of the bit buffer and then out of the input. */
    method ParseStoredHeader() returns (header: array<byte>)
      requires Buffered()
      modifies this`pos, this`numBits, this`codeBuffer, this`taken, this`at
      ensures Buffered() && numBits == 0 && fresh(header) && header.Length == 4
      ensures var q := (old(at) + 7) / 8;
              taken == q + 4 && forall i :: 0 <= i < 4 ==> header[i] == ByteAt(input, q + i)
    {
      hide Window, ByteAt;
      AlignToByte();
      ghost var q := at / 8;
      header := new byte[4];
      var k := DrainHeader(header, q);
      while k < 4
        invariant 0 <= k <= 4 && Buffered() && numBits == 0 && at == 8 * (q + k)
        invariant forall i :: 0 <= i < k ==> header[i] == ByteAt(input, q + i)
      {
        header[k] := FetchByte(q + k);
        k := k + 1;
      }
    }

    /** Empties the bit buffer into the header, byte by byte. */
    method DrainHeader(header: array<byte>, ghost q: nat) returns (k: nat)
      requires Buffered() && at == 8 * q && header.Length == 4
      modifies this`pos, this`numBits, this`codeBuffer, this`taken, this`at, header
      ensures Buffered() && numBits == 0 && k <= 4 && at == 8 * (q + k)
      ensures forall i :: 0 <= i < k ==> header[i] == ByteAt(input, q + i)
    {
      hide Window, ByteAt;
      k := 0;
      while numBits > 0
        invariant Buffered() && at == 8 * (q + k) && numBits % 8 == 0 && k + numBits / 8 <= 4
        invariant forall i :: 0 <= i < k ==> header[i] == ByteAt(input, q + i)
        decreases numBits
      {
        header[k] := LowByte(q + k);
        Drop(8);
        k := k + 1;
      }
    }

    method AlignToByte()
      requires Buffered()
      modifies this`pos, this`numBits, this`codeBuffer, this`taken, this`at
      ensures Buffered() && at == 8 * ((old(at) + 7) / 8)
    {
      hide Window, Pow2;
      if numBits % 8 != 0 {
        var _ := Receive(numBits % 8);
      }
    }

    /** code_buffer & 255. */
    method LowByte(ghost i: nat) returns (b: byte)
      requires Buffered() && at == 8 * i && 8 <= numBits
      ensures b == ByteAt(input, i)
    {
      WindowLow(input, at, numBits, 8);
      WindowByte(input, i);
      b := Low(codeBuffer, 8);
    }

    /** Takes a byte straight from the input, the bit buffer being empty. */
    method FetchByte(ghost i: nat) returns (b: byte)
      requires Buffered() && numBits == 0 && at == 8 * i
      modifies this`pos, this`taken, this`at
      ensures Buffered() && at == 8 * (i + 1) && b == ByteAt(input, i)
    {
      b := Get8();
      taken, at := taken + 1, at + 8;
    }

    /** stbi__parse_uncomperssed_block: a stored block may start at any bit position. */
    method ParseStored() returns (ok: bool)
      requires Valid()
      modifies this, zout
      ensures Valid() && ((fresh(zout) && expandable) || zout == old(zout))
      ensures Followed(ok, old(Stored(input, at, Contents())))
    {
      hide Window;
      ghost var q, out := (at + 7) / 8, Contents();
      var header := ParseStoredHeader();
      var len := header[1] as int * 256 + header[0];
      var nlen := header[3] as int * 256 + header[2];
      // len ^ 0xffff
      if nlen != 65535 - len {
        return false;
      }
      assert q + 4 > |input| ==> ByteAt(input, q + 3) == 0 && len > 0;
      if pos + len > |input| {
        return false;
      }
      ok := CopyInput(len);
    }

    /** Copies len bytes of the input to the output. */
    method CopyInput(len: nat) returns (ok: bool)
      requires Valid() && numBits == 0 && pos == taken && pos + len <= |input|
      modifies this, zout
      ensures Valid() && ((fresh(zout) && expandable) || zout == old(zout))
      ensures ok == old(Room(zlen + len))
      ensures ok ==> Contents() == old(Contents()) + input[old(pos)..old(pos) + len] && at == old(at) + 8 * len
    {
      hide Window, Pow2;
      if zlen + len > zout.Length {
        ok := Expand(len);
        if !ok {
          return;
        }
      }
      AppendInput(len);
      EmptyWindow(input, at);
      EmptyWindow(input, at + 8 * len);
      pos := pos + len;
      taken, at := taken + len, at + 8 * len;
      ok := true;
    }

    /** memcpy. */
    method AppendInput(len: nat)
      requires zlen + len <= zout.Length && pos + len <= |input|
      modifies this`zlen, zout
      ensures zlen == old(zlen) + len && Contents() == old(Contents()) + input[pos..pos + len]
    {
      ghost var out := Contents();
      forall i | 0 <= i < len {
        zout[zlen + i] := input[pos + i];
      }
      assert zout[..zlen] == out;
      assert zout[..zlen + len] == out + input[pos..pos + len];
      zlen := zlen + len;
    }

    // ---------- dynamic codes ----------

    /** The three-bit lengths of the code length alphabet. */
    method ParseAlphabet(hclen: nat) returns (sizes: seq<nat>)
      requires Buffered() && hclen <= 19
      modifies this`pos, this`numBits, this`codeBuffer, this`taken, this`at
      ensures Buffered() && at == old(at) + 3 * hclen && sizes == CodeLengthSizes(input, old(at), hclen)
    {
      hide Window;
      sizes := Times(0, 19);
      for i := 0 to hclen
        invariant Buffered() && at == old(at) + 3 * i
        invariant sizes == CodeLengthSizes(input, old(at), i)
      {
        var s := Receive(3);
        sizes := sizes[ORDER[i] := s];
      }
    }

    /** Reads the run-length coded list of code lengths into a buffer of 286 + 32 + 137 entries. */
    method ParseCodeLengths(z: Table, ghost alphabet: seq<nat>, total: nat) returns (ok: bool, lens: seq<nat>)
      requires Buffered() && z.For(alphabet) && |alphabet| == 19 && total <= 318
      requires CodeLengths(input, at, alphabet, total, []).Settled()
      modifies this`pos, this`numBits, this`codeBuffer, this`taken, this`at
      ensures Buffered()
      ensures var spec := old(CodeLengths(input, at, alphabet, total, []));
              (ok <==> spec.Ok?) && (ok ==> spec.value == (at, lens))
    {
      hide Table.For, Window, ReadSymbol;
      var lencodes := new nat[455];
      var n := 0;
      ghost var spec := CodeLengths(input, at, alphabet, total, []);
      while n < total
        invariant Buffered() && z.For(alphabet)
        invariant n <= lencodes.Length && forall i :: 0 <= i < n ==> lencodes[i] <= MAX_LENGTH
        invariant CodeLengths(input, at, alphabet, total, lencodes[..n]) == spec
        decreases 8 * |input| - at
      {
        ghost var acc := lencodes[..n];
        var run, value := ParseRun(z, alphabet, total, lencodes, n);
        Fill(lencodes, n, value, run);
        n := n + run;
        assert lencodes[..n] == acc + Times(value, run);
      }
      ok := n == total;
      lens := lencodes[..n];
    }

    /** One symbol of the list: a single length, or a run. */
    method ParseRun(z: Table, ghost alphabet: seq<nat>, ghost total: nat, lencodes: array<nat>, n: nat)
      returns (run: nat, value: nat)
      requires Buffered() && z.For(alphabet) && |alphabet| == 19 && n < total <= 318 && n <= lencodes.Length
      requires forall i :: 0 <= i < n ==> lencodes[i] <= MAX_LENGTH
      requires CodeLengths(input, at, alphabet, total, lencodes[..n]).Settled()
      modifies this`pos, this`numBits, this`codeBuffer, this`taken, this`at
      ensures Buffered() && old(at) < at <= 8 * |input| && z.For(alphabet)
      ensures 1 <= run <= 138 && value <= MAX_LENGTH
      ensures CodeLengths(input, at, alphabet, total, lencodes[..n] + Times(value, run)) ==
              old(CodeLengths(input, at, alphabet, total, lencodes[..n]))
    {
      hide Table.For, Window, ReadSymbol, Pow2;
      SmallPowers();
      ghost var p, acc := at, lencodes[..n];
      var c := HuffmanDecode(z, alphabet);
      ReadSymbolIs(input, p, alphabet, c);
      assert 0 <= c < 19;
      if c < 16 {
        assert [c as nat] == Times(c, 1);
        run, value := 1, c;
      } else if c == 16 {
        var r := Receive(2);
        run, value := r + 3, lencodes[n - 1];
      } else if c == 17 {
        var r := Receive(3);
        run, value := r + 3, 0;
      } else {
        assert c == 18;
        var r := Receive(7);
        run, value := r + 11, 0;
      }
    }

    /** memset. */
    static method Fill(a: array<nat>, from: nat, value: nat, n: nat)
      requires from + n <= a.Length
      modifies a
      ensures forall i :: 0 <= i < a.Length ==> a[i] == if from <= i < from + n then value else old(a[i])
    {
      for i := from to from + n
        invariant forall j :: 0 <= j < a.Length ==> a[j] == if from <= j < i then value else old(a[j])
      {
        a[i] := value;
      }
    }

    /** stbi__compute_huffman_codes: the tables are those of the block header. */
    method ComputeHuffmanCodes() returns (ok: bool, ghost t: CodeTables)
      requires Valid() && Dynamic(input, at).Settled()
      modifies this`pos, this`numBits, this`codeBuffer, this`taken, this`at, zLength.Arrays(), zDistance.Arrays()
      ensures Valid()
      ensures var spec := old(Dynamic(input, at)); (ok <==> spec.Ok?) && (ok ==> spec.value == (at, t))
      ensures ok ==> zLength.For(t.lit) && zDistance.For(t.dist)
    {
      hide Window, Lists, Table.For, Kraft, CountsFit, CheckLengths, Pow2, Count, Table.Shape;
      SmallPowers();
      t := CodeTables([], []);
      var hlit := Receive(5);
      hlit := hlit + 257;
      var hdist := Receive(5);
      hdist := hdist + 1;
      var hclen := Receive(4);
      hclen := hclen + 4;
      var lens;
      ok, lens := ParseLists(hclen, hlit + hdist);
      if !ok {
        return;
      }
      t := CodeTables(lens[..hlit], lens[hlit..]);
      ok := BuildBoth(lens[..hlit], lens[hlit..]);
    }

    method ParseLists(hclen: nat, total: nat) returns (ok: bool, lens: seq<nat>)
      requires Buffered() && hclen <= 19 && total <= 318
      requires Lists(input, at, hclen, total).Settled()
      modifies this`pos, this`numBits, this`codeBuffer, this`taken, this`at
      ensures Buffered()
      ensures var spec := old(Lists(input, at, hclen, total)); (ok <==> spec.Ok?) && (ok ==> spec.value == (at, lens))
    {
      hide Window, CodeLengths, CodeLengthSizes, Table.For, Kraft, CountsFit, Pow2, Count;
      lens := [];
      var sizes := ParseAlphabet(hclen);
      var codelength := new Table();
      ok := codelength.Build(sizes);
      if ok {
        ok, lens := ParseCodeLengths(codelength, sizes, total);
      }
    }

    method BuildBoth(lit: seq<nat>, dist: seq<nat>) returns (ok: bool)
      requires zLength.Shape() && zDistance.Shape() && zLength.Arrays() !! zDistance.Arrays()
      requires Lengths(lit) && Lengths(dist) && CheckBoth(lit, dist).Settled()
      modifies zLength.Arrays(), zDistance.Arrays()
      ensures ok <==> CheckBoth(lit, dist).Ok?
      ensures ok ==> zLength.For(lit) && zDistance.For(dist)
    {
      hide Table.For, Kraft, CountsFit, Pow2, Count;
      ok := zLength.Build(lit);
      if ok {
        ok := zDistance.Build(dist);
      }
    }

    // ---------- the whole stream ----------

    method ParseHeader() returns (ok: bool)
      requires Valid() && at == 0 && numBits == 0
      modifies this`pos, this`taken, this`at
      ensures Valid() && at == 16 && ok == HeaderOk(ByteAt(input, 0), ByteAt(input, 1))
    {
      hide Window;
      var cmf := FetchByte(0);
      var flg := FetchByte(1);
      ok := (cmf as int * 256 + flg) % 31 == 0;
      if ok {
        ok := flg / 32 % 2 == 0;
        if ok {
          ok := cmf % 16 == 8;
        }
      }
    }

    /** One block. */
    method ParseBlock(kind: nat) returns (ok: bool)
      requires Valid() && at <= 8 * |input| && Block(input, at, kind, Contents()).Settled()
      modifies this, zout, zLength.Arrays(), zDistance.Arrays()
      ensures Valid() && ((fresh(zout) && expandable) || zout == old(zout))
      ensures Followed(ok, old(Block(input, at, kind, Contents())))
    {
      hide Table.For, Codes, Dynamic, Stored, Window, Kraft, CountsFit;
      if kind == 0 {
        ok := ParseStored();
      } else if kind == 1 {
        var lit, dist := InitDefaults();
        FixedCodesOk();
        ok := BuildBoth(lit, dist);
        ok := ParseHuffmanBlock(lit, dist);
      } else if kind == 2 {
        ghost var t;
        ok, t := ComputeHuffmanCodes();
        if ok {
          ok := ParseHuffmanBlock(t.lit, t.dist);
        }
      } else {
        ok := false;
      }
    }

    /** stbi__init_zdefaults. */
    static method InitDefaults() returns (lit: seq<nat>, dist: seq<nat>)
      ensures lit == FixedLiterals() && dist == FixedDistances()
    {
      var length := new nat[288];
      for i := 0 to 288
        invariant forall j :: 0 <= j < i ==> length[j] == FixedLength(j)
      {
        length[i] := FixedLength(i);
      }
      lit := length[..];
      var distance := new nat[32];
      for i := 0 to 32
        invariant forall j :: 0 <= j < i ==> distance[j] == 5
      {
        distance[i] := 5;
      }
      dist := distance[..];
    }

    /** stbi__parse_zlib.  For every stream that the standard accepts the decoder succeeds with exactly the bytes that
        the stream stands for, or fails because they do not fit a fixed buffer; for every stream that it refuses in a
        way the decoder reports, the decoder fails. */
    method ParseZlib(parseHeader: bool) returns (ok: bool)
      requires Valid() && pos == 0 && numBits == 0 && at == 0 && zlen == 0
      requires Inflate(input, parseHeader).Settled()
      modifies this, zout, zLength.Arrays(), zDistance.Arrays()
      ensures Valid()
      ensures var spec := Inflate(input, parseHeader);
              && (ok <==> spec.Ok? && old(Room(|spec.value|)))
              && (ok ==> Contents() == spec.value)
    {
      hide Block, Window, Table.For;
      if parseHeader {
        ok := ParseHeader();
        if !ok {
          return;
        }
      }
      ghost var spec := Inflate(input, parseHeader);
      assert Contents() == [];
      var more := true;
      ok := true;
      while more
        invariant Valid() && ((fresh(zout) && expandable) || zout == old(zout))
        invariant more ==> Blocks(input, at, Contents()) == spec
        invariant !more ==> (ok <==> spec.Ok? && old(Room(|spec.value|))) && (ok ==> Contents() == spec.value)
        decreases more, 8 * |input| - at
      {
        var last := Receive(1);
        var kind := Receive(2);
        ok := ParseBlock(kind);
        more := ok && last == 0;
      }
    }
  }
}
