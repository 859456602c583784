/** What a DEFLATE stream means: RFC 1951, sections 3.2.3 to 3.2.7, and the zlib header of RFC 1950, section 2.2.
    Everything here is a function of the byte string and a bit position. */
module InflateSpec {
  import opened Bits
  import opened BitStream
  import opened Huffman

  /** Why a stream is refused.  The first group is what the decoder reports by returning 0.  The second is what the
      standard forbids but the decoder does not report: it reads zero bits after the end of its input, accepts the
      reserved symbols, and leaves the rest to assertions. */
  datatype Problem =
    | BadHeader | BadBlockType | BadStoredLength | PastEnd | OverSubscribed | BadCode | BadDistance | BadRepeat
    | Truncated | Outside

  predicate Reported(p: Problem) {
    !p.Truncated? && !p.Outside?
  }

  datatype Result<+T> = Ok(value: T) | Err(problem: Problem) {
    predicate IsFailure() {
      Err?
    }

    function PropagateFailure<U>(): Result<U>
      requires Err?
    {
      Err(problem)
    }

    function Extract(): T
      requires Ok?
    {
      value
    }

    /** The decoder promises something about this outcome. */
    predicate Settled() {
      Ok? || Reported(problem)
    }
  }

  /** Reads bits: the next position and the value. */
  function ReadBits(input: seq<byte>, p: nat, n: nat): (r: Result<(nat, nat)>)
    ensures r.Ok? ==> r.value == (p + n, Window(input, p, n)) && p + n <= 8 * |input|
  {
    if p + n > 8 * |input| then Err(Truncated) else Ok((p + n, Window(input, p, n)))
  }

  /** Reads one symbol: the symbol whose code comes next. */
  ghost function ReadSymbol(input: seq<byte>, p: nat, lens: seq<nat>): (r: Result<(nat, nat)>)
    ensures r.Ok? ==> p < r.value.0 <= 8 * |input| && r.value.1 < |lens|
  {
    var x := Window(input, p, 16);
    if sym: nat :| Matches(lens, x, sym) then
      if p + lens[sym] > 8 * |input| then Err(Truncated) else Ok((p + lens[sym], sym))
    else Err(BadCode)
  }

  // ---------- compressed blocks, section 3.2.5 ----------

  const LENGTH_BASE: seq<nat> :=
    [3, 4, 5, 6, 7, 8, 9, 10, 11, 13, 15, 17, 19, 23, 27, 31, 35, 43, 51, 59, 67, 83, 99, 115, 131, 163, 195, 227, 258,
     0, 0]
  const LENGTH_EXTRA: seq<nat> :=
    [0, 0, 0, 0, 0, 0, 0, 0, 1, 1, 1, 1, 2, 2, 2, 2, 3, 3, 3, 3, 4, 4, 4, 4, 5, 5, 5, 5, 0, 0, 0]
  const DIST_BASE: seq<nat> :=
    [1, 2, 3, 4, 5, 7, 9, 13, 17, 25, 33, 49, 65, 97, 129, 193, 257, 385, 513, 769, 1025, 1537, 2049, 3073,
     4097, 6145, 8193, 12289, 16385, 24577, 0, 0]
  const DIST_EXTRA: seq<nat> :=
    [0, 0, 0, 0, 1, 1, 2, 2, 3, 3, 4, 4, 5, 5, 6, 6, 7, 7, 8, 8, 9, 9, 10, 10, 11, 11, 12, 12, 13, 13, 0, 0]

  function LengthBase(z: nat): nat
    requires z < 31
  {
    LENGTH_BASE[z]
  }

  function LengthExtra(z: nat): (n: nat)
    requires z < 31
    ensures n <= 5
  {
    LENGTH_EXTRA[z]
  }

  function DistBase(z: nat): (d: nat)
    requires z < 32
    ensures z < 30 ==> 0 < d
  {
    DIST_BASE[z]
  }

  function DistExtra(z: nat): (n: nat)
    requires z < 32
    ensures n <= 13
  {
    DIST_EXTRA[z]
  }

  /** The len bytes that a match adds: the last `dist` bytes of the output, repeated as often as needed. */
  function Repeat(out: seq<byte>, dist: nat, len: nat): (r: seq<byte>)
    requires 0 < dist <= |out|
    ensures |r| == len
  {
    seq(len, k requires 0 <= k < len => out[|out| - dist + k % dist])
  }

  /** A length or distance: its base value plus extra bits. */
  ghost function ReadExtra(input: seq<byte>, p: nat, base: nat, extra: nat): (r: Result<(nat, nat)>)
    ensures r.Ok? ==> r.value == (p + extra, base + Window(input, p, extra)) && p + extra <= 8 * |input|
  {
    var bits :- ReadBits(input, p, extra);
    Ok((bits.0, base + bits.1))
  }

  /** The length that a symbol from 257 on stands for. */
  ghost function ReadLength(input: seq<byte>, p: nat, sym: nat): (r: Result<(nat, nat)>)
    requires 257 <= sym
    ensures r.Ok? ==> p <= r.value.0 <= 8 * |input|
  {
    if sym >= 286 then Err(Outside)
    else ReadExtra(input, p, LengthBase(sym - 257), LengthExtra(sym - 257))
  }

  /** The distance that a distance symbol stands for. */
  ghost function ReadDistance(input: seq<byte>, p: nat, sym: nat): (r: Result<(nat, nat)>)
    ensures r.Ok? ==> p <= r.value.0 <= 8 * |input| && 0 < r.value.1
  {
    if sym >= 30 then Err(Outside)
    else ReadExtra(input, p, DistBase(sym), DistExtra(sym))
  }

  /** A match: the position after it, its length and its distance. */
  ghost function ReadMatch(input: seq<byte>, p: nat, sym: nat, dist: seq<nat>): (r: Result<(nat, nat, nat)>)
    requires 257 <= sym
    ensures r.Ok? ==> p <= r.value.0 <= 8 * |input| && 0 < r.value.2
  {
    var len :- ReadLength(input, p, sym);
    var d :- ReadSymbol(input, len.0, dist);
    var distance :- ReadDistance(input, d.0, d.1);
    Ok((distance.0, len.1, distance.1))
  }

  /** The symbols of one block, up to the end-of-block symbol: the position after it and all output so far. */
  ghost function Codes(input: seq<byte>, p: nat, lit: seq<nat>, dist: seq<nat>,
                       out: seq<byte>): (r: Result<(nat, seq<byte>)>)
    ensures r.Ok? ==> p < r.value.0 <= 8 * |input| && |out| <= |r.value.1|
    decreases 8 * |input| - p
  {
    var s :- ReadSymbol(input, p, lit);
    if s.1 < 256 then Codes(input, s.0, lit, dist, out + [s.1])
    else if s.1 == 256 then Ok((s.0, out))
    else
      var m :- ReadMatch(input, s.0, s.1, dist);
      if m.2 > |out| then Err(BadDistance)
      else Codes(input, m.0, lit, dist, out + Repeat(out, m.2, m.1))
  }

  // ---------- stored blocks, section 3.2.4 ----------

  /** Skips to a byte boundary; then LEN, its complement NLEN, and LEN bytes. */
  function Stored(input: seq<byte>, p: nat, out: seq<byte>): (r: Result<(nat, seq<byte>)>)
    ensures r.Ok? ==> p < r.value.0 <= 8 * |input| && |out| <= |r.value.1|
  {
    var q := (p + 7) / 8;
    var len := ByteAt(input, q + 1) * 256 + ByteAt(input, q);
    var nlen := ByteAt(input, q + 3) * 256 + ByteAt(input, q + 2);
    if nlen != 65535 - len then Err(BadStoredLength)
    else if q + 4 + len > |input| then Err(PastEnd)
    else Ok((8 * (q + 4 + len), out + input[q + 4..q + 4 + len]))
  }

  // ---------- code tables, sections 3.2.6 and 3.2.7 ----------

  function FixedLength(sym: int): nat {
    if sym <= 143 then 8 else if sym <= 255 then 9 else if sym <= 279 then 7 else 8
  }

  function FixedLiterals(): seq<nat> {
    seq(288, sym => FixedLength(sym))
  }

  function FixedDistances(): seq<nat> {
    Times(5, 32)
  }

  function Times(v: nat, n: nat): (r: seq<nat>)
    ensures |r| == n && forall i :: 0 <= i < n ==> r[i] == v
  {
    seq(n, _ => v)
  }

  const ORDER: seq<nat> := [16, 17, 18, 0, 8, 7, 9, 6, 10, 5, 11, 4, 12, 3, 13, 2, 14, 1, 15]

  /** The code lengths of the code length alphabet, three bits each, in the order above. */
  function CodeLengthSizes(input: seq<byte>, p: nat, n: nat): (r: seq<nat>)
    requires n <= 19
    ensures |r| == 19 && forall i :: 0 <= i < 19 ==> r[i] < 8
  {
    if n == 0 then Times(0, 19)
    else
      WindowBound(input, p + 3 * (n - 1), 3);
      assert Pow2(3) == 8;
      CodeLengthSizes(input, p, n - 1)[ORDER[n - 1] := Window(input, p + 3 * (n - 1), 3)]
  }

  /** A list of code lengths that the decoder can build tables for. */
  ghost function CheckLengths(lens: seq<nat>): (r: Result<()>)
    requires Lengths(lens)
    ensures r.Ok? <==> CountsFit(lens) && Kraft(lens) <= Pow2(MAX_LENGTH)
  {
    if !CountsFit(lens) then Err(Outside)
    else if Kraft(lens) > Pow2(MAX_LENGTH) then Err(OverSubscribed)
    else Ok(())
  }

  /** The literal and distance code lengths, run-length coded. */
  ghost function CodeLengths(input: seq<byte>, p: nat, alphabet: seq<nat>, total: nat,
                             acc: seq<nat>): (r: Result<(nat, seq<nat>)>)
    requires |alphabet| == 19 && total <= 318 && forall i :: 0 <= i < |acc| ==> acc[i] <= MAX_LENGTH
    ensures r.Ok? ==> && |r.value.1| == total && p <= r.value.0 <= (if |acc| >= total then p else 8 * |input|)
                      && forall i :: 0 <= i < total ==> r.value.1[i] <= MAX_LENGTH
    decreases 8 * |input| - p
  {
    if |acc| == total then Ok((p, acc))
    else if |acc| > total then Err(BadRepeat)
    else
      var s := ReadSymbol(input, p, alphabet);
      if s == Err(BadCode) || (s.Ok? && s.value.1 == 16 && acc == []) then Err(Outside)
      else
        var s :- s;
        if s.1 < 16 then CodeLengths(input, s.0, alphabet, total, acc + [s.1])
        else if s.1 == 16 then
          var n :- ReadExtra(input, s.0, 3, 2);
          CodeLengths(input, n.0, alphabet, total, acc + Times(acc[|acc| - 1], n.1))
        else
          var n :- ReadExtra(input, s.0, if s.1 == 17 then 3 else 11, if s.1 == 17 then 3 else 7);
          CodeLengths(input, n.0, alphabet, total, acc + Times(0, n.1))
  }

  datatype CodeTables = CodeTables(lit: seq<nat>, dist: seq<nat>)

  /** The code length alphabet and then the list itself. */
  ghost function Lists(input: seq<byte>, p: nat, n: nat, total: nat): (r: Result<(nat, seq<nat>)>)
    requires n <= 19 && total <= 318
    ensures r.Ok? ==> && p <= r.value.0 && |r.value.1| == total && (total > 0 ==> r.value.0 <= 8 * |input|)
                      && forall i :: 0 <= i < total ==> r.value.1[i] <= MAX_LENGTH
  {
    var alphabet := CodeLengthSizes(input, p, n);
    if p + 3 * n > 8 * |input| then Err(Truncated)
    else
      var _ :- CheckLengths(alphabet);
      CodeLengths(input, p + 3 * n, alphabet, total, [])
  }

  ghost function CheckBoth(lit: seq<nat>, dist: seq<nat>): Result<()>
    requires Lengths(lit) && Lengths(dist)
  {
    var _ :- CheckLengths(lit);
    CheckLengths(dist)
  }

  /** The header of a block with dynamic codes. */
  ghost function Dynamic(input: seq<byte>, p: nat): (r: Result<(nat, CodeTables)>)
    ensures r.Ok? ==> && p < r.value.0 <= 8 * |input| && Lengths(r.value.1.lit) && Lengths(r.value.1.dist)
                      && CheckBoth(r.value.1.lit, r.value.1.dist).Ok?
  {
    var hlit :- ReadBits(input, p, 5);
    var hdist :- ReadBits(input, hlit.0, 5);
    var hclen :- ReadBits(input, hdist.0, 4);
    WindowBound(input, p, 5);
    WindowBound(input, p + 5, 5);
    WindowBound(input, p + 10, 4);
    assert Pow2(5) == 32 && Pow2(4) == 16;
    if hlit.1 + 257 > 286 then Err(Outside)
    else
      var lens :- Lists(input, hclen.0, hclen.1 + 4, hlit.1 + 257 + hdist.1 + 1);
      var t := CodeTables(lens.1[..hlit.1 + 257], lens.1[hlit.1 + 257..]);
      var _ :- CheckBoth(t.lit, t.dist);
      Ok((lens.0, t))
  }

  // ---------- blocks, section 3.2.3 ----------

  /** One block after its three header bits. */
  ghost function Block(input: seq<byte>, p: nat, kind: nat, out: seq<byte>): (r: Result<(nat, seq<byte>)>)
    requires p <= 8 * |input|
    ensures r.Ok? ==> p < r.value.0 <= 8 * |input| && |out| <= |r.value.1|
  {
    if kind == 0 then Stored(input, p, out)
    else if kind == 1 then Codes(input, p, FixedLiterals(), FixedDistances(), out)
    else if kind == 2 then
      var t :- Dynamic(input, p);
      Codes(input, t.0, t.1.lit, t.1.dist, out)
    else Err(BadBlockType)
  }

  /** The blocks up to the one marked final. */
  ghost function Blocks(input: seq<byte>, p: nat, out: seq<byte>): (r: Result<seq<byte>>)
    ensures r.Ok? ==> |out| <= |r.value|
    decreases 8 * |input| - p
  {
    var last :- ReadBits(input, p, 1);
    var kind :- ReadBits(input, last.0, 2);
    var b :- Block(input, kind.0, kind.1, out);
    if last.1 == 1 then Ok(b.1) else Blocks(input, b.0, b.1)
  }

  /** The zlib header: check bits, no preset dictionary, method 8.  The window size and the trailing checksum are
      not looked at by the decoder. */
  predicate HeaderOk(cmf: byte, flg: byte) {
    (cmf * 256 + flg) % 31 == 0 && flg / 32 % 2 == 0 && cmf % 16 == 8
  }

  ghost function Inflate(input: seq<byte>, parseHeader: bool): Result<seq<byte>> {
    if !parseHeader then Blocks(input, 0, [])
    else if HeaderOk(ByteAt(input, 0), ByteAt(input, 1)) then Blocks(input, 16, [])
    else Err(BadHeader)
  }
}
