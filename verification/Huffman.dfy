/** Canonical Huffman codes (RFC 1951, section 3.2.2) and the decoding tables of
    stbi__zbuild_huffman in client/stb_image.h. */
module Huffman {
  import opened Bits

  const MAX_LENGTH := 15
  const FAST_BITS := 9
  const FAST_SIZE := 512
  const NO_SYMBOL := 0xffff

  /** A list of code lengths, one for each symbol; 0 means that the symbol is not used. */
  ghost predicate Lengths(lens: seq<nat>) {
    |lens| <= 288 && forall i :: 0 <= i < |lens| ==> lens[i] <= MAX_LENGTH
  }

  // ---------- the specification ----------

  /** bl_count[s]. */
  function Count(lens: seq<nat>, s: nat): (c: nat)
    ensures c <= |lens|
  {
    if lens == [] then 0
    else Count(lens[..|lens| - 1], s) + (if lens[|lens| - 1] == s then 1 else 0)
  }

  /** The smallest code of length s. */
  function First(lens: seq<nat>, s: nat): nat {
    if s <= 1 then 0 else 2 * (First(lens, s - 1) + Count(lens, s - 1))
  }

  /** One more than the largest code of length s. */
  function End(lens: seq<nat>, s: nat): nat {
    First(lens, s) + Count(lens, s)
  }

  /** The code of a symbol: codes of one length are given out in symbol order. */
  function Code(lens: seq<nat>, sym: nat): nat
    requires sym < |lens|
  {
    First(lens, lens[sym]) + Count(lens[..sym], lens[sym])
  }

  /** The code of the symbol, first bit first, is a prefix of the bits of x. */
  ghost predicate Matches(lens: seq<nat>, x: nat, sym: nat) {
    sym < |lens| && lens[sym] > 0 && Rev(x, lens[sym]) == Code(lens, sym)
  }

  /** The Kraft sum, in units of 2^-15. */
  function Kraft(lens: seq<nat>): nat
    requires forall i :: 0 <= i < |lens| ==> lens[i] <= MAX_LENGTH
  {
    if lens == [] then 0
    else
      var n := |lens| - 1;
      Kraft(lens[..n]) + (if lens[n] > 0 then Pow2(MAX_LENGTH - lens[n]) else 0)
  }

  ghost predicate Complete(lens: seq<nat>) {
    forall s {:trigger End(lens, s)} :: 1 <= s <= MAX_LENGTH ==> End(lens, s) <= Pow2(s)
  }

  /** There are no more codes of a length than that length allows; the table builder asserts this. */
  ghost predicate CountsFit(lens: seq<nat>) {
    forall s {:trigger Count(lens, s)} :: 1 <= s <= MAX_LENGTH ==> Count(lens, s) <= Pow2(s)
  }

  // ---------- Kraft ----------

  lemma {:induction false} FirstAppend(lens: seq<nat>, l: nat, s: nat)
    requires s <= MAX_LENGTH && l <= MAX_LENGTH
    ensures First(lens + [l], s) == First(lens, s) + (if 1 <= l < s then Pow2(s - l) else 0)
  {
    if s > 1 {
      FirstAppend(lens, l, s - 1);
      assert (lens + [l])[..|lens|] == lens;
      assert l == s - 1 ==> Pow2(s - l) == 2 * Pow2(0);
    }
  }

  lemma {:induction false} KraftIsEnd(lens: seq<nat>)
    requires forall i :: 0 <= i < |lens| ==> lens[i] <= MAX_LENGTH
    ensures Kraft(lens) == End(lens, MAX_LENGTH)
  {
    if lens == [] {
      FirstEmpty(MAX_LENGTH);
    } else {
      var n := |lens| - 1;
      assert lens == lens[..n] + [lens[n]];
      KraftIsEnd(lens[..n]);
      FirstAppend(lens[..n], lens[n], MAX_LENGTH);
    }
  }

  lemma {:induction false} FirstEmpty(s: nat)
    ensures First([], s) == 0
  {
    if s > 1 { FirstEmpty(s - 1); }
  }

  lemma {:induction false} EndGrows(lens: seq<nat>, s: nat, t: nat)
    requires 1 <= s <= t && End(lens, s) > Pow2(s)
    ensures End(lens, t) > Pow2(t)
    decreases t
  {
    if s < t { EndGrows(lens, s, t - 1); }
  }

  /** The codes of every length fit exactly when the Kraft sum is at most one. */
  lemma CompleteIffKraft(lens: seq<nat>)
    requires forall i :: 0 <= i < |lens| ==> lens[i] <= MAX_LENGTH
    ensures Complete(lens) <==> Kraft(lens) <= Pow2(MAX_LENGTH)
  {
    KraftIsEnd(lens);
    if !Complete(lens) {
      var s :| 1 <= s <= MAX_LENGTH && End(lens, s) > Pow2(s);
      EndGrows(lens, s, MAX_LENGTH);
    }
  }

  // ---------- prefix codes ----------

  lemma {:induction false} CountPrefix(lens: seq<nat>, i: nat, j: nat, s: nat)
    requires i <= j <= |lens|
    ensures Count(lens[..i], s) <= Count(lens[..j], s)
    decreases j
  {
    if i < j {
      assert lens[..j][..j - 1] == lens[..j - 1];
      CountPrefix(lens, i, j - 1, s);
    }
  }

  lemma CountAt(lens: seq<nat>, i: nat, s: nat)
    requires i < |lens|
    ensures Count(lens[..i + 1], s) == Count(lens[..i], s) + (if lens[i] == s then 1 else 0)
  {
    assert lens[..i + 1][..i] == lens[..i];
  }

  /** Of the symbols of one length, an earlier one has the smaller rank. */
  lemma RankBelow(lens: seq<nat>, i: nat, j: nat)
    requires i < j <= |lens|
    ensures Count(lens[..i], lens[i]) < Count(lens[..j], lens[i])
  {
    CountAt(lens, i, lens[i]);
    CountPrefix(lens, i + 1, j, lens[i]);
  }

  lemma RankInRange(lens: seq<nat>, i: nat)
    requires i < |lens|
    ensures Count(lens[..i], lens[i]) < Count(lens, lens[i])
  {
    RankBelow(lens, i, |lens|);
    assert lens[..|lens|] == lens;
  }

  /** The symbol with a given length and rank. */
  lemma {:induction false} SymbolOfRank(lens: seq<nat>, s: nat, r: nat) returns (sym: nat)
    requires r < Count(lens, s)
    ensures sym < |lens| && lens[sym] == s && Count(lens[..sym], s) == r
  {
    var n := |lens| - 1;
    if lens[n] == s && r == Count(lens[..n], s) {
      sym := n;
    } else {
      sym := SymbolOfRank(lens[..n], s, r);
      assert lens[..n][..sym] == lens[..sym];
    }
  }

  /** Once the bits fall below the end of one length, they fall below the start of every longer one. */
  lemma {:induction false} FallsBelow(lens: seq<nat>, x: nat, s: nat, t: nat)
    requires 1 <= s < t && Rev(x, s) < End(lens, s)
    ensures Rev(x, t) < First(lens, t)
    decreases t
  {
    if s < t - 1 { FallsBelow(lens, x, s, t - 1); }
  }

  /** No two symbols have codes that both begin the same bits. */
  lemma PrefixFree(lens: seq<nat>, x: nat, a: nat, b: nat)
    requires Matches(lens, x, a) && Matches(lens, x, b)
    ensures a == b
  {
    RankInRange(lens, a);
    RankInRange(lens, b);
    if lens[a] < lens[b] {
      FallsBelow(lens, x, lens[a], lens[b]);
    } else if lens[b] < lens[a] {
      FallsBelow(lens, x, lens[b], lens[a]);
    } else if a < b {
      RankBelow(lens, a, b);
    } else if b < a {
      RankBelow(lens, b, a);
    }
  }

  /** Bits that fall below the end of a length begin with some code that is no longer. */
  lemma {:induction false} SomeMatch(lens: seq<nat>, x: nat, s: nat) returns (sym: nat)
    requires 1 <= s && Rev(x, s) < End(lens, s)
    ensures Matches(lens, x, sym) && lens[sym] <= s
  {
    if s > 1 && Rev(x, s - 1) < End(lens, s - 1) {
      sym := SomeMatch(lens, x, s - 1);
    } else {
      sym := SymbolOfRank(lens, s, Rev(x, s) - First(lens, s));
    }
  }

  lemma MatchBelowEnd(lens: seq<nat>, x: nat, sym: nat)
    requires Matches(lens, x, sym)
    ensures First(lens, lens[sym]) <= Rev(x, lens[sym]) < End(lens, lens[sym])
  {
    RankInRange(lens, sym);
  }

  // ---------- where the tables keep a symbol ----------

  /** firstsymbol[s]. */
  function Base(lens: seq<nat>, s: nat): nat {
    if s <= 1 then 0 else Base(lens, s - 1) + Count(lens, s - 1)
  }

  function Index(lens: seq<nat>, sym: nat): nat
    requires sym < |lens|
  {
    Base(lens, lens[sym]) + Count(lens[..sym], lens[sym])
  }

  lemma {:induction false} BaseAppend(lens: seq<nat>, l: nat, s: nat)
    ensures Base(lens + [l], s) == Base(lens, s) + (if 1 <= l < s then 1 else 0)
  {
    if s > 1 {
      BaseAppend(lens, l, s - 1);
      assert (lens + [l])[..|lens|] == lens;
    }
  }

  lemma {:induction false} BaseBound(lens: seq<nat>, s: nat)
    ensures Base(lens, s) <= |lens|
  {
    if lens == [] {
      BaseEmpty(s);
    } else {
      var n := |lens| - 1;
      assert lens == lens[..n] + [lens[n]];
      BaseAppend(lens[..n], lens[n], s);
      BaseBound(lens[..n], s);
    }
  }

  lemma {:induction false} BaseEmpty(s: nat)
    ensures Base([], s) == 0
  {
    if s > 1 { BaseEmpty(s - 1); }
  }

  lemma {:induction false} BaseGrows(lens: seq<nat>, s: nat, t: nat)
    requires 1 <= s < t
    ensures Base(lens, s) + Count(lens, s) <= Base(lens, t)
    decreases t
  {
    if s < t - 1 { BaseGrows(lens, s, t - 1); }
  }

  lemma IndexBound(lens: seq<nat>, sym: nat)
    requires sym < |lens| && lens[sym] > 0
    ensures Index(lens, sym) < |lens|
  {
    RankInRange(lens, sym);
    BaseBound(lens, lens[sym] + 1);
  }

  lemma IndexDistinct(lens: seq<nat>, a: nat, b: nat)
    requires a < b < |lens| && lens[a] > 0 && lens[b] > 0
    ensures Index(lens, a) != Index(lens, b)
  {
    RankInRange(lens, a);
    RankInRange(lens, b);
    if lens[a] < lens[b] {
      BaseGrows(lens, lens[a], lens[b]);
    } else if lens[b] < lens[a] {
      BaseGrows(lens, lens[b], lens[a]);
    } else {
      RankBelow(lens, a, b);
    }
  }

  // ---------- lists made of runs ----------

  lemma {:induction false} CountConcat(k: seq<nat>, l: seq<nat>, s: nat)
    ensures Count(k + l, s) == Count(k, s) + Count(l, s)
  {
    if l == [] {
      assert k + l == k;
    } else {
      var n := |l| - 1;
      assert (k + l)[..|k + l| - 1] == k + l[..n];
      CountConcat(k, l[..n], s);
    }
  }

  lemma {:induction false} KraftConcat(k: seq<nat>, l: seq<nat>)
    requires forall i :: 0 <= i < |k| ==> k[i] <= MAX_LENGTH
    requires forall i :: 0 <= i < |l| ==> l[i] <= MAX_LENGTH
    ensures Kraft(k + l) == Kraft(k) + Kraft(l)
  {
    if l == [] {
      assert k + l == k;
    } else {
      var n := |l| - 1;
      assert (k + l)[..|k + l| - 1] == k + l[..n];
      KraftConcat(k, l[..n]);
    }
  }

  lemma {:induction false} RunCounts(run: seq<nat>, v: nat, s: nat)
    requires 1 <= v <= MAX_LENGTH && forall i :: 0 <= i < |run| ==> run[i] == v
    ensures Count(run, s) == if s == v then |run| else 0
    ensures Kraft(run) == |run| * Pow2(MAX_LENGTH - v)
  {
    if run != [] {
      RunCounts(run[..|run| - 1], v, s);
    }
  }
}
