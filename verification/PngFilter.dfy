/** Scanline filters: RFC 2083, section 6, and stbi__create_png_image_raw in client/stb_image.h.
    A row is a list of pixels, a pixel a list of n bytes; the byte a filter calls `left` is then the same
    component of the previous pixel. */
module PngFilter {
  import opened Bits
  import opened Options

  type Pixel = seq<byte>
  type Row = seq<Pixel>

  ghost predicate IsRow(row: Row, x: nat, n: nat) {
    |row| == x && forall i :: 0 <= i < x ==> |row[i]| == n
  }

  ghost predicate AreRows(rows: seq<Row>, x: nat, n: nat) {
    forall j :: 0 <= j < |rows| ==> IsRow(rows[j], x, n)
  }

  /** Filter types that the standard defines. */
  ghost predicate Known(types: seq<byte>) {
    forall j :: 0 <= j < |types| ==> types[j] <= 4
  }

  function Zero(n: nat): Pixel {
    seq(n, _ => 0)
  }

  function ZeroRow(x: nat, n: nat): Row {
    seq(x, _ => Zero(n))
  }

  /** The pixel before position i, all zero at the start of the row. */
  function Before(row: Row, i: nat, n: nat): Pixel
    requires i <= |row|
  {
    if i == 0 then Zero(n) else row[i - 1]
  }

  function Abs(x: int): int {
    if x < 0 then -x else x
  }

  /** The nearest of the three to a + b - c; of several that are, the first in this order. */
  function Paeth(a: int, b: int, c: int): (r: int)
    ensures r == a || r == b || r == c
    ensures var p := a + b - c; (Abs(p - a) == Abs(p - r) ==> r == a) && (Abs(p - b) == Abs(p - r) ==> r == a || r == b)
    ensures var p := a + b - c; Abs(p - r) <= Abs(p - a) && Abs(p - r) <= Abs(p - b) && Abs(p - r) <= Abs(p - c)
  {
    var p := a + b - c;
    var pa, pb, pc := Abs(p - a), Abs(p - b), Abs(p - c);
    if pa <= pb && pa <= pc then a else if pb <= pc then b else c
  }

  // ---------- the specification ----------

  /** What filter t expects a byte to be, from its neighbours to the left, above, and above to the left. */
  function Predict(t: nat, left: byte, up: byte, upLeft: byte): int {
    match t
    case 0 => 0
    case 1 => left
    case 2 => up
    case 3 => (left + up) / 2
    case _ => Paeth(left, up, upLeft)
  }

  function Residual(t: nat, cur: Pixel, left: Pixel, up: Pixel, upLeft: Pixel): (r: Pixel)
    requires |cur| <= |left| && |cur| <= |up| && |cur| <= |upLeft|
    ensures |r| == |cur|
  {
    seq(|cur|, k requires 0 <= k < |cur| => (cur[k] - Predict(t, left[k], up[k], upLeft[k])) % 256)
  }

  function Recon(t: nat, raw: Pixel, left: Pixel, up: Pixel, upLeft: Pixel): (r: Pixel)
    requires |raw| <= |left| && |raw| <= |up| && |raw| <= |upLeft|
    ensures |r| == |raw|
  {
    seq(|raw|, k requires 0 <= k < |raw| => (raw[k] + Predict(t, left[k], up[k], upLeft[k])) % 256)
  }

  function FilterRow(t: nat, x: nat, n: nat, prior: Row, cur: Row): (r: Row)
    requires IsRow(prior, x, n) && IsRow(cur, x, n)
    ensures IsRow(r, x, n)
  {
    seq(x, i requires 0 <= i < x => Residual(t, cur[i], Before(cur, i, n), prior[i], Before(prior, i, n)))
  }

  /** A byte of a row; outside the row there are zeros. */
  function ByteOf(row: Row, i: int, k: nat): nat
    requires i < |row| && (i >= 0 ==> k < |row[i]|)
  {
    if i < 0 then 0 else row[i][k]
  }

  lemma FilteredByte(t: nat, x: nat, n: nat, prior: Row, cur: Row, i: nat, k: nat)
    requires IsRow(prior, x, n) && IsRow(cur, x, n) && i < x && k < n
    ensures FilterRow(t, x, n, prior, cur)[i][k] ==
            (cur[i][k] - Predict(t, ByteOf(cur, i - 1, k), ByteOf(prior, i, k), ByteOf(prior, i - 1, k))) % 256
  {
    hide Predict;
  }

  /** What each filter takes off a byte: nothing, the byte to the left, the one above, the mean of both rounded down, or
      the nearest of the three neighbours. */
  lemma FilterTakes(x: nat, n: nat, prior: Row, cur: Row, i: nat, k: nat)
    requires IsRow(prior, x, n) && IsRow(cur, x, n) && i < x && k < n
    ensures var left, up, upLeft := ByteOf(cur, i - 1, k), ByteOf(prior, i, k), ByteOf(prior, i - 1, k);
            && FilterRow(0, x, n, prior, cur)[i][k] == cur[i][k]
            && FilterRow(1, x, n, prior, cur)[i][k] == (cur[i][k] - left) % 256
            && FilterRow(2, x, n, prior, cur)[i][k] == (cur[i][k] - up) % 256
            && FilterRow(4, x, n, prior, cur)[i][k] == (cur[i][k] - Paeth(left, up, upLeft)) % 256
            && exists mean: nat ::
                 IsMean(mean, left, up) && FilterRow(3, x, n, prior, cur)[i][k] == (cur[i][k] - mean) % 256
  {
    hide Paeth, FilterRow, ByteOf;
    FilteredByte(0, x, n, prior, cur, i, k);
    FilteredByte(1, x, n, prior, cur, i, k);
    FilteredByte(2, x, n, prior, cur, i, k);
    FilteredByte(3, x, n, prior, cur, i, k);
    FilteredByte(4, x, n, prior, cur, i, k);
    assert IsMean((ByteOf(cur, i - 1, k) + ByteOf(prior, i, k)) / 2, ByteOf(cur, i - 1, k), ByteOf(prior, i, k));
  }

  /** Half the sum, rounded down. */
  predicate IsMean(mean: nat, a: nat, b: nat) {
    2 * mean <= a + b <= 2 * mean + 1
  }

  /** Undoes a filter from left to right: each pixel uses the one just restored. */
  function UnfilterRow(t: nat, n: nat, prior: Row, raw: Row): (r: Row)
    requires IsRow(prior, |prior|, n) && |raw| <= |prior| && IsRow(raw, |raw|, n)
    ensures IsRow(r, |raw|, n)
  {
    if raw == [] then []
    else
      var m := |raw| - 1;
      var before := UnfilterRow(t, n, prior, raw[..m]);
      before + [Recon(t, raw[m], Before(before, m, n), prior[m], Before(prior, m, n))]
  }

  lemma ReconResidual(t: nat, cur: Pixel, left: Pixel, up: Pixel, upLeft: Pixel)
    requires |cur| <= |left| && |cur| <= |up| && |cur| <= |upLeft|
    ensures Recon(t, Residual(t, cur, left, up, upLeft), left, up, upLeft) == cur
  {
    hide Paeth;
    forall k | 0 <= k < |cur|
      ensures Recon(t, Residual(t, cur, left, up, upLeft), left, up, upLeft)[k] == cur[k]
    {
      ModBack(cur[k], Predict(t, left[k], up[k], upLeft[k]));
    }
  }

  lemma ModBack(c: int, p: int)
    requires 0 <= c < 256
    ensures ((c - p) % 256 + p) % 256 == c
  {
  }

  lemma UnfilterAppend(t: nat, n: nat, prior: Row, raw: Row, p: Pixel)
    requires IsRow(prior, |prior|, n) && |raw| < |prior| && IsRow(raw, |raw|, n) && |p| == n
    ensures var done, m := UnfilterRow(t, n, prior, raw), |raw|;
            UnfilterRow(t, n, prior, raw + [p]) ==
              done + [Recon(t, p, Before(done, m, n), prior[m], Before(prior, m, n))]
  {
    hide Recon, Before;
    assert (raw + [p])[..|raw|] == raw;
  }

  lemma FilterAppend(t: nat, x: nat, n: nat, prior: Row, cur: Row, m: nat)
    requires IsRow(prior, x, n) && IsRow(cur, x, n) && m < x
    ensures var f, p := FilterRow(t, x, n, prior, cur),
                        Residual(t, cur[m], Before(cur, m, n), prior[m], Before(prior, m, n));
            f[..m + 1] == f[..m] + [p]
  {
    hide Residual, Before;
  }

  /** Unfiltering inverts filtering, for each of the filters. */
  lemma {:induction false} UnfilterFilter(t: nat, x: nat, n: nat, prior: Row, cur: Row, m: nat)
    requires IsRow(prior, x, n) && IsRow(cur, x, n) && m <= x
    ensures UnfilterRow(t, n, prior, FilterRow(t, x, n, prior, cur)[..m]) == cur[..m]
  {
    hide Residual, Recon, FilterRow;
    if m > 0 {
      var k: nat := m - 1;
      var f, left, upLeft := FilterRow(t, x, n, prior, cur)[..k], Before(cur, k, n), Before(prior, k, n);
      UnfilterFilter(t, x, n, prior, cur, k);
      FilterAppend(t, x, n, prior, cur, k);
      assert Before(cur[..k], k, n) == left;
      hide Before, UnfilterRow;
      UnfilterAppend(t, n, prior, f, Residual(t, cur[k], left, prior[k], upLeft));
      ReconResidual(t, cur[k], left, prior[k], upLeft);
      assert cur[..m] == cur[..k] + [cur[k]];
    }
  }

  /** The number of bytes in y items of `size` bytes each. */
  function Total(y: nat, size: nat): (r: nat)
    ensures y > 0 ==> size <= r
  {
    if y == 0 then 0 else size + Total(y - 1, size)
  }

  lemma {:induction false} TotalStep(i: nat, x: nat, size: nat)
    requires i < x
    ensures Total(i + 1, size) == Total(i, size) + size <= Total(x, size)
    decreases x
  {
    if i + 1 < x { TotalStep(i, x - 1, size); }
  }

  lemma {:induction false} TotalIsProduct(y: nat, size: nat)
    ensures Total(y, size) == y * size
  {
    if y > 0 {
      TotalIsProduct(y - 1, size);
      assert y * size == size + (y - 1) * size;
    }
  }

  lemma {:induction false} TotalAdd(a: nat, b: nat, size: nat)
    ensures Total(a + b, size) == Total(a, size) + Total(b, size)
  {
    if a > 0 { TotalAdd(a - 1, b, size); }
  }

  lemma {:induction false} TotalTotal(y: nat, x: nat, size: nat)
    ensures Total(Total(y, x), size) == Total(y, Total(x, size))
  {
    if y > 0 {
      TotalTotal(y - 1, x, size);
      TotalAdd(x, Total(y - 1, x), size);
    }
  }

  // ---------- rows as bytes ----------

  function Bytes(row: Row): seq<byte> {
    if row == [] then [] else row[0] + Bytes(row[1..])
  }

  function Pixels(bytes: seq<byte>, n: nat): (r: Row)
    requires n > 0
    ensures IsRow(r, |r|, n)
  {
    if |bytes| < n then [] else [bytes[..n]] + Pixels(bytes[n..], n)
  }

  lemma {:induction false} PixelsOfBytes(row: Row, n: nat)
    requires n > 0 && IsRow(row, |row|, n)
    ensures Pixels(Bytes(row), n) == row && |Bytes(row)| == Total(|row|, n)
  {
    if row != [] {
      PixelsOfBytes(row[1..], n);
      assert Bytes(row)[..n] == row[0] && Bytes(row)[n..] == Bytes(row[1..]);
      assert Total(|row|, n) == n + Total(|row[1..]|, n);
    }
  }

  lemma {:induction false} BytesConcat(a: Row, b: Row)
    ensures Bytes(a + b) == Bytes(a) + Bytes(b)
  {
    if a == [] {
      assert a + b == b;
    } else {
      assert (a + b)[1..] == a[1..] + b;
      BytesConcat(a[1..], b);
    }
  }

  lemma BytesLast(row: Row, p: Pixel)
    ensures Bytes(row + [p]) == Bytes(row) + p
  {
    BytesConcat(row, [p]);
    assert [p][1..] == [] && p + [] == p;
  }

  /** Where the bytes of pixel i are. */
  lemma {:induction false} BytesAt(row: Row, n: nat, i: nat)
    requires IsRow(row, |row|, n) && i < |row|
    ensures |Bytes(row)| == Total(|row|, n) && Total(i, n) + n <= |Bytes(row)|
    ensures Bytes(row)[Total(i, n)..Total(i, n) + n] == row[i]
  {
    BytesSize(row, n);
    TotalStep(i, |row|, n);
    if i > 0 {
      BytesAt(row[1..], n, i - 1);
      assert Bytes(row)[n..] == Bytes(row[1..]);
      assert Bytes(row)[n..][Total(i - 1, n)..Total(i - 1, n) + n] == Bytes(row)[Total(i, n)..Total(i, n) + n];
    }
  }

  lemma {:induction false} BytesSize(row: Row, n: nat)
    requires IsRow(row, |row|, n)
    ensures |Bytes(row)| == Total(|row|, n)
  {
    if row != [] { BytesSize(row[1..], n); }
  }

  lemma {:induction false} PixelCount(bytes: seq<byte>, n: nat, x: nat)
    requires n > 0 && |bytes| == Total(x, n)
    ensures |Pixels(bytes, n)| == x
    decreases x
  {
    if x > 0 {
      PixelCount(bytes[n..], n, x - 1);
    }
  }

  // ---------- whole images ----------

  /** The filtered bytes of an image: each row preceded by its filter type. */
  function EncodeRows(x: nat, n: nat, prior: Row, rows: seq<Row>, types: seq<byte>): seq<byte>
    requires IsRow(prior, x, n) && |types| == |rows| && AreRows(rows, x, n) && Known(types)
    decreases |rows|
  {
    if rows == [] then []
    else
      [types[0]] + Bytes(FilterRow(types[0], x, n, prior, rows[0])) + EncodeRows(x, n, rows[0], rows[1..], types[1..])
  }

  /** Reads y rows of `size` bytes each; fails on an unknown filter type. */
  function DecodeRows(raw: seq<byte>, x: nat, n: nat, y: nat, prior: Row): (r: Option<seq<Row>>)
    requires n > 0 && IsRow(prior, x, n) && |raw| >= Total(y, Total(x, n) + 1)
    ensures r.Some? ==> |r.value| == y && AreRows(r.value, x, n)
    decreases y
  {
    if y == 0 then Some([])
    else if raw[0] > 4 then None
    else
      PixelCount(raw[1..1 + Total(x, n)], n, x);
      var row := UnfilterRow(raw[0], n, prior, Pixels(raw[1..1 + Total(x, n)], n));
      var rest := DecodeRows(raw[1 + Total(x, n)..], x, n, y - 1, row);
      if rest.None? then None else Some([row] + rest.value)
  }

  /** Whatever filter each row uses, decoding the filtered bytes restores the image. */
  lemma {:induction false} DecodeEncodeRows(x: nat, n: nat, prior: Row, rows: seq<Row>, types: seq<byte>,
                                            tail: seq<byte>)
    requires n > 0 && IsRow(prior, x, n) && |types| == |rows| && AreRows(rows, x, n) && Known(types)
    ensures var raw := EncodeRows(x, n, prior, rows, types);
            && |raw| == Total(|rows|, Total(x, n) + 1)
            && DecodeRows(raw + tail, x, n, |rows|, prior) == Some(rows)
    decreases |rows|
  {
    hide FilterRow, UnfilterRow, Pixels, Bytes;
    var raw := EncodeRows(x, n, prior, rows, types);
    if rows != [] {
      var filtered := FilterRow(types[0], x, n, prior, rows[0]);
      var rest := EncodeRows(x, n, rows[0], rows[1..], types[1..]);
      DecodeEncodeRows(x, n, rows[0], rows[1..], types[1..], tail);
      PixelsOfBytes(filtered, n);
      assert (raw + tail)[1..1 + Total(x, n)] == Bytes(filtered);
      assert (raw + tail)[1 + Total(x, n)..] == rest + tail;
      UnfilterFilter(types[0], x, n, prior, rows[0], x);
      assert filtered[..x] == filtered && rows[0][..x] == rows[0];
      assert rows == [rows[0]] + rows[1..];
    }
  }
}
