/** The decoding tables built by stbi__zbuild_huffman in client/stb_image.h. */
module HuffmanTable {
  import opened Bits
  import opened Huffman

  /** The symbol has a short code that begins the bits of x. */
  ghost predicate ShortMatch(lens: seq<nat>, x: nat, sym: nat) {
    Matches(lens, x, sym) && lens[sym] <= FAST_BITS
  }

  /** The fast table as far as the first n symbols go. */
  ghost predicate FastFor(fast: seq<nat>, lens: seq<nat>, n: nat) {
    && |fast| == FAST_SIZE && n <= |lens|
    && forall x :: 0 <= x < FAST_SIZE ==>
         || (fast[x] == NO_SYMBOL && forall sym :: 0 <= sym < n ==> !ShortMatch(lens, x, sym))
         || (exists sym :: 0 <= sym < n && ShortMatch(lens, x, sym) && fast[x] == Index(lens, sym))
  }

  lemma FastEmpty(fast: seq<nat>, lens: seq<nat>)
    requires |fast| == FAST_SIZE && forall x :: 0 <= x < FAST_SIZE ==> fast[x] == NO_SYMBOL
    ensures FastFor(fast, lens, 0)
  {
  }

  lemma FastStep(fast: seq<nat>, fast': seq<nat>, lens: seq<nat>, n: nat)
    requires FastFor(fast, lens, n) && n < |lens| && |fast'| == FAST_SIZE
    requires forall x :: 0 <= x < FAST_SIZE ==>
               fast'[x] == if ShortMatch(lens, x, n) then Index(lens, n) else fast[x]
    ensures FastFor(fast', lens, n + 1)
  {
    forall x | 0 <= x < FAST_SIZE
      ensures || (fast'[x] == NO_SYMBOL && forall sym :: 0 <= sym < n + 1 ==> !ShortMatch(lens, x, sym))
              || (exists sym :: 0 <= sym < n + 1 && ShortMatch(lens, x, sym) && fast'[x] == Index(lens, sym))
    {
      if !ShortMatch(lens, x, n) && fast[x] != NO_SYMBOL {
        var sym :| 0 <= sym < n && ShortMatch(lens, x, sym) && fast[x] == Index(lens, sym);
      }
    }
  }

  lemma RowStart(lens: seq<nat>)
    ensures First(lens, 1) == 0 && Base(lens, 1) == 0
  {
  }

  lemma RowNext(lens: seq<nat>, i: nat)
    requires 1 <= i
    ensures First(lens, i + 1) == 2 * (First(lens, i) + Count(lens, i))
            && Base(lens, i + 1) == Base(lens, i) + Count(lens, i)
    ensures Pow2(i + 1) == 2 * Pow2(i)
  {
  }

  lemma MatchIsResidue(lens: seq<nat>, x: nat, sym: nat)
    requires sym < |lens| && lens[sym] > 0 && Code(lens, sym) < Pow2(lens[sym])
    ensures Matches(lens, x, sym) <==> Low(x, lens[sym]) == Rev(Code(lens, sym), lens[sym])
  {
    var s, code := lens[sym], Code(lens, sym);
    RevRev(x, s);
    RevRev(code, s);
    RevLow(x, s, s);
    LowSmall(code, s);
  }

  class Table {
    const fast: array<nat>
    const firstcode: array<nat>
    const maxcode: array<nat>
    const firstsymbol: array<nat>
    const size: array<nat>
    const value: array<nat>

    ghost predicate Shape() {
      && fast.Length == FAST_SIZE && firstcode.Length == 16 && maxcode.Length == 17 && firstsymbol.Length == 16
      && size.Length == 288 && value.Length == 288
      && fast != firstcode && fast != maxcode && fast != firstsymbol && fast != size && fast != value
      && firstcode != maxcode && firstcode != firstsymbol && firstcode != size && firstcode != value
      && maxcode != firstsymbol && maxcode != size && maxcode != value
      && firstsymbol != size && firstsymbol != value && size != value
    }

    ghost function Arrays(): set<array<nat>> {
      {fast, firstcode, maxcode, firstsymbol, size, value}
    }

    constructor ()
      ensures Shape() && fresh(Arrays())
    {
      fast := new nat[FAST_SIZE];
      firstcode := new nat[16];
      maxcode := new nat[17];
      firstsymbol := new nat[16];
      size := new nat[288];
      value := new nat[288];
    }

    /** The rows for lengths 1 to n - 1. */
    ghost predicate RowsFor(lens: seq<nat>, n: nat)
      requires Shape() && n <= 16
      reads firstcode, firstsymbol, maxcode
    {
      && (forall s {:trigger firstcode[s]} :: 1 <= s < n ==> firstcode[s] == First(lens, s))
      && (forall s {:trigger firstsymbol[s]} :: 1 <= s < n ==> firstsymbol[s] == Base(lens, s))
      && (forall s {:trigger maxcode[s]} :: 1 <= s < n ==> maxcode[s] == Shl(End(lens, s), 16 - s))
    }

    /** The entries for the first n symbols. */
    ghost predicate SymbolsFor(lens: seq<nat>, n: nat)
      requires Shape() && n <= |lens|
      reads size, value
    {
      forall sym :: 0 <= sym < n && lens[sym] > 0 ==>
        && Index(lens, sym) < 288 && size[Index(lens, sym)] == lens[sym] && value[Index(lens, sym)] == sym
    }

    /** The tables are the ones for this list of code lengths. */
    ghost predicate For(lens: seq<nat>)
      reads fast, firstcode, maxcode, firstsymbol, size, value
    {
      && Shape() && Lengths(lens) && Complete(lens)
      && RowsFor(lens, 16) && maxcode[16] == 0x10000
      && SymbolsFor(lens, |lens|) && FastFor(fast[..], lens, |lens|)
    }

    /** Returns 1 exactly when the Kraft sum is at most one; then the tables are those for the lengths.
        The lengths must pass the assertion that sizes[i] <= 1 << i. */
    method Build(sizelist: seq<nat>) returns (ok: bool)
      requires Shape() && Lengths(sizelist) && CountsFit(sizelist)
      modifies fast, firstcode, maxcode, firstsymbol, size, value
      ensures ok <==> Kraft(sizelist) <= Pow2(MAX_LENGTH)
      ensures ok ==> For(sizelist)
    {
      hide Kraft, End, Complete, Count, FastFor, Pow2;
      CompleteIffKraft(sizelist);
      for x := 0 to FAST_SIZE
        invariant forall y :: 0 <= y < x ==> fast[y] == NO_SYMBOL
      {
        fast[x] := NO_SYMBOL;
      }
      FastEmpty(fast[..], sizelist);
      var sizes := CountSizes(sizelist);
      var nextCode := new nat[16];
      ok := AssignCodes(sizelist, sizes, nextCode);
      if ok {
        FillTables(sizelist, nextCode);
      }
    }

    static method CountSizes(sizelist: seq<nat>) returns (sizes: array<nat>)
      requires Lengths(sizelist)
      ensures fresh(sizes) && sizes.Length == 17
      ensures forall s {:trigger sizes[s]} :: 1 <= s <= MAX_LENGTH ==> sizes[s] == Count(sizelist, s)
    {
      sizes := new nat[17](_ => 0);
      for i := 0 to |sizelist|
        invariant forall s :: 0 <= s < 17 ==> sizes[s] == Count(sizelist[..i], s)
      {
        assert sizelist[..i + 1][..i] == sizelist[..i];
        sizes[sizelist[i]] := sizes[sizelist[i]] + 1;
      }
      assert sizelist[..|sizelist|] == sizelist;
      sizes[0] := 0;
    }

    method AssignCodes(sizelist: seq<nat>, sizes: array<nat>, nextCode: array<nat>) returns (ok: bool)
      requires Shape() && Lengths(sizelist) && sizes.Length == 17 && nextCode.Length == 16
      requires sizes != nextCode && sizes !in Arrays() && nextCode !in Arrays()
      requires forall s {:trigger sizes[s]} :: 1 <= s <= MAX_LENGTH ==> sizes[s] == Count(sizelist, s)
      modifies firstcode, maxcode, firstsymbol, nextCode
      ensures ok <==> Complete(sizelist)
      ensures ok ==> RowsFor(sizelist, 16) && maxcode[16] == 0x10000
      ensures ok ==> forall s {:trigger nextCode[s]} :: 1 <= s <= MAX_LENGTH ==> nextCode[s] == First(sizelist, s)
    {
      hide Count, Shl, Kraft, First, Base, Pow2;
      RowStart(sizelist);
      var code, k := 0, 0;
      for i := 1 to 16
        invariant code == First(sizelist, i) && k == Base(sizelist, i) && code <= Pow2(i)
        invariant RowsFor(sizelist, i)
        invariant forall s {:trigger nextCode[s]} :: 1 <= s < i ==> nextCode[s] == First(sizelist, s)
        invariant forall s {:trigger End(sizelist, s)} :: 1 <= s < i ==> End(sizelist, s) <= Pow2(s)
      {
        RowNext(sizelist, i);
        nextCode[i] := code;
        firstcode[i] := code;
        firstsymbol[i] := k;
        code := code + sizes[i];
        if sizes[i] != 0 {
          if code - 1 >= Pow2(i) {
            assert End(sizelist, i) > Pow2(i);
            return false;
          }
        }
        maxcode[i] := Shl(code, 16 - i);
        code := 2 * code;
        k := k + sizes[i];
      }
      maxcode[16] := 0x10000;
      ok := true;
    }

    lemma NothingFor(lens: seq<nat>)
      requires Shape()
      ensures SymbolsFor(lens, 0) && forall s :: 1 <= s <= MAX_LENGTH ==> Count(lens[..0], s) == 0
    {
    }

    method FillTables(sizelist: seq<nat>, nextCode: array<nat>)
      requires Shape() && Lengths(sizelist) && Complete(sizelist)
      requires nextCode.Length == 16 && nextCode !in Arrays()
      requires RowsFor(sizelist, 16) && FastFor(fast[..], sizelist, 0)
      requires forall s {:trigger nextCode[s]} :: 1 <= s <= MAX_LENGTH ==> nextCode[s] == First(sizelist, s)
      modifies fast, size, value, nextCode
      ensures SymbolsFor(sizelist, |sizelist|) && FastFor(fast[..], sizelist, |sizelist|)
    {
      hide First, Base, Pow2, End, Shl, Rev, FastFor, RowsFor, Complete, Index;
      NothingFor(sizelist);
      for i := 0 to |sizelist|
        invariant forall s {:trigger nextCode[s]} :: 1 <= s <= MAX_LENGTH ==>
                    nextCode[s] == First(sizelist, s) + Count(sizelist[..i], s)
        invariant SymbolsFor(sizelist, i)
        invariant FastFor(fast[..], sizelist, i)
      {
        var s := sizelist[i];
        ghost var before := fast[..];
        assert sizelist[..i + 1][..i] == sizelist[..i];
        if s != 0 {
          AssignSymbol(sizelist, i, s, nextCode);
        }
        FastStep(before, fast[..], sizelist, i);
      }
    }

    /** Enters symbol i, whose code length is s. */
    method AssignSymbol(ghost sizelist: seq<nat>, i: nat, s: nat, nextCode: array<nat>)
      requires Shape() && Lengths(sizelist) && Complete(sizelist) && i < |sizelist| && 0 < s == sizelist[i]
      requires nextCode.Length == 16 && nextCode !in Arrays()
      requires RowsFor(sizelist, 16) && SymbolsFor(sizelist, i)
      requires nextCode[s] == First(sizelist, s) + Count(sizelist[..i], s)
      modifies fast, size, value, nextCode
      ensures SymbolsFor(sizelist, i + 1)
      ensures forall x :: 0 <= x < FAST_SIZE ==>
                fast[x] == if ShortMatch(sizelist, x, i) then Index(sizelist, i) else old(fast[x])
      ensures forall t :: 0 <= t < 16 ==> nextCode[t] == if t == s then old(nextCode[t]) + 1 else old(nextCode[t])
    {
      hide First, Base, Pow2, End, Shl, Rev, Count, Complete;
      IndexBound(sizelist, i);
      var c := nextCode[s] - firstcode[s] + firstsymbol[s];
      forall j | 0 <= j < i && sizelist[j] > 0
        ensures Index(sizelist, j) != c
      {
        IndexDistinct(sizelist, j, i);
      }
      size[c] := s;
      value[c] := i;
      if s <= FAST_BITS {
        FillFast(sizelist, i, s, nextCode[s], c);
      }
      nextCode[s] := nextCode[s] + 1;
    }

    /** Puts c at every index whose low bits are the reversed code of symbol i. */
    method FillFast(ghost sizelist: seq<nat>, ghost i: nat, s: nat, code: nat, c: nat)
      requires Shape() && Lengths(sizelist) && Complete(sizelist) && i < |sizelist|
      requires 1 <= s == sizelist[i] <= FAST_BITS && code == Code(sizelist, i)
      modifies fast
      ensures forall x :: 0 <= x < FAST_SIZE ==>
                fast[x] == if ShortMatch(sizelist, x, i) then c else old(fast[x])
    {
      hide Count, First, Rev, Low, BitReverse;
      RankInRange(sizelist, i);
      assert End(sizelist, s) <= Pow2(s);
      BitReverseCorrect(code, s);
      RevBound(code, s);
      var k := BitReverse(code, s);
      ghost var r := k;
      LowSmall(r, s);
      forall x | 0 <= x < FAST_SIZE
        ensures ShortMatch(sizelist, x, i) <==> Low(x, s) == r
        ensures x < r ==> Low(x, s) != r
      {
        MatchIsResidue(sizelist, x, i);
        if x < r && Low(x, s) == r {
          LowGap(x, r, s);
        }
      }
      while k < FAST_SIZE
        invariant Low(k, s) == r
        invariant forall x :: 0 <= x < FAST_SIZE ==>
                    fast[x] == if x < k && Low(x, s) == r then c else old(fast[x])
      {
        fast[k] := c;
        LowPeriod(k, s);
        forall x | k < x < k + Pow2(s)
          ensures Low(x, s) != r
        {
          if Low(x, s) == r { LowGap(k, x, s); }
        }
        k := k + Pow2(s);
      }
    }
  }
}
