/** stbi__create_png_image_raw of client/stb_image.h: unfiltering in place, row by row, in the output buffer.
    A pixel of the buffer is out_n consecutive bytes: the img_n bytes of the data and perhaps an alpha of 255. */
module PngUnfilter {
  import opened Bits
  import opened Options
  import opened PngFilter

  /** The filter actually used on the first row: the variants do not look at the row above. */
  const FIRST_ROW_FILTER: seq<nat> := [0, 1, 0, 5, 6]

  function FilterFor(t: nat, firstRow: bool): nat
    requires t <= 4
  {
    if firstRow then FIRST_ROW_FILTER[t] else t
  }

  /** A pixel as it is laid out: with an alpha of 255 after it when the output has one component more. */
  function Laid(p: Pixel, alpha: bool): Pixel {
    if alpha then p + [255] else p
  }

  /** out_n. */
  function PixelSize(n: nat, alpha: bool): nat {
    if alpha then n + 1 else n
  }

  function LaidRow(row: Row, alpha: bool): (r: seq<Pixel>)
    ensures |r| == |row|
  {
    seq(|row|, i requires 0 <= i < |row| => Laid(row[i], alpha))
  }

  /** The pixels of the image in the order of the output buffer, row after row. */
  function Flat(rows: seq<Row>, alpha: bool): seq<Pixel> {
    if rows == [] then [] else Flat(rows[..|rows| - 1], alpha) + LaidRow(rows[|rows| - 1], alpha)
  }

  /** The layout with alpha, byte by byte: pixel q starts at q * (n + 1) with the bytes that start at q * n in the plain
      layout, and ends with 255. */
  lemma AlphaLayout(rows: seq<Row>, x: nat, n: nat, q: nat, k: nat)
    requires AreRows(rows, x, n) && q < Total(|rows|, x) && k < n
    ensures var plain, laid := Bytes(Flat(rows, false)), Bytes(Flat(rows, true));
            && q * n + k < |plain| && q * (n + 1) + n < |laid|
            && laid[q * (n + 1) + k] == plain[q * n + k] && laid[q * (n + 1) + n] == 255
  {
    hide Flat, Bytes, Total, IsRow, Laid;
    LaidPixels(rows, x, n, false);
    LaidPixels(rows, x, n, true);
    AlphaPixels(rows);
    var plain, laid := Flat(rows, false), Flat(rows, true);
    BytesAt(plain, n, q);
    BytesAt(laid, n + 1, q);
    TotalIsProduct(q, n);
    TotalIsProduct(q, n + 1);
    assert Bytes(plain)[q * n + k] == Bytes(plain)[q * n..q * n + n][k] == plain[q][k];
    assert Bytes(laid)[q * (n + 1) + k] == Bytes(laid)[q * (n + 1)..q * (n + 1) + (n + 1)][k] == laid[q][k];
    assert Bytes(laid)[q * (n + 1) + n] == Bytes(laid)[q * (n + 1)..q * (n + 1) + (n + 1)][n] == laid[q][n];
    LaidSize(rows, x, n, q);
  }

  lemma LaidSize(rows: seq<Row>, x: nat, n: nat, q: nat)
    requires AreRows(rows, x, n) && q < |Flat(rows, false)| && q < |Flat(rows, true)|
    requires IsRow(Flat(rows, false), |Flat(rows, false)|, n)
    ensures |Flat(rows, false)[q]| == n
  {
    hide Flat;
  }

  lemma {:induction false} AlphaPixels(rows: seq<Row>)
    ensures |Flat(rows, true)| == |Flat(rows, false)|
    ensures forall q :: 0 <= q < |Flat(rows, false)| ==> Flat(rows, true)[q] == Flat(rows, false)[q] + [255]
  {
    if rows != [] { AlphaPixels(rows[..|rows| - 1]); }
  }

  /** Every pixel takes out_n bytes. */
  lemma {:induction false} LaidPixels(rows: seq<Row>, x: nat, n: nat, alpha: bool)
    requires AreRows(rows, x, n)
    ensures |Flat(rows, alpha)| == Total(|rows|, x)
    ensures IsRow(Flat(rows, alpha), |Flat(rows, alpha)|, PixelSize(n, alpha))
  {
    if rows != [] {
      var m := |rows| - 1;
      LaidPixels(rows[..m], x, n, alpha);
      assert IsRow(rows[m], x, n);
    }
  }

  /** Pixel i of row j is element j * x + i. */
  lemma {:induction false} FlatAt(rows: seq<Row>, x: nat, n: nat, alpha: bool, j: nat, i: nat)
    requires AreRows(rows, x, n) && j < |rows| && i < x
    ensures |Flat(rows, alpha)| == Total(|rows|, x)
    ensures Total(j, x) + i < |Flat(rows, alpha)| && Flat(rows, alpha)[Total(j, x) + i] == Laid(rows[j][i], alpha)
  {
    hide Laid, IsRow;
    var m := |rows| - 1;
    FlatSize(rows, x, n, alpha);
    FlatSize(rows[..m], x, n, alpha);
    TotalStep(j, |rows|, x);
    if j < m {
      FlatAt(rows[..m], x, n, alpha, j, i);
    } else {
      assert IsRow(rows[j], x, n);
      RowLength(rows[j], x, n);
    }
  }

  lemma RowLength(row: Row, x: nat, n: nat)
    requires IsRow(row, x, n)
    ensures |row| == x
  {
  }

  lemma {:induction false} FlatSize(rows: seq<Row>, x: nat, n: nat, alpha: bool)
    requires AreRows(rows, x, n)
    ensures |Flat(rows, alpha)| == Total(|rows|, x)
  {
    if rows != [] { FlatSize(rows[..|rows| - 1], x, n, alpha); }
  }

  /** The value the switch computes for one byte; out-of-row neighbours are not looked at. */
  function Switch(filter: nat, first: bool, raw: byte, left: byte, up: byte, upLeft: byte): int {
    if first then
      match filter
      case 2 => raw + up
      case 3 => raw + up / 2
      case 4 => raw + Paeth(0, up, 0)
      case _ => raw
    else
      match filter
      case 0 => raw
      case 1 => raw + left
      case 2 => raw + up
      case 3 => raw + (up + left) / 2
      case 4 => raw + Paeth(left, up, upLeft)
      case 5 => raw + left / 2
      case _ => raw + Paeth(left, 0, 0)
  }

  /** Whether a filter looks at the row above. */
  predicate ReadsUp(filter: nat) {
    2 <= filter <= 4
  }

  /** The switch undoes filter t, whatever it is given for neighbours it does not look at. */
  lemma SwitchIsRecon(t: nat, firstRow: bool, first: bool, raw: byte, left: byte, up: byte, upLeft: byte, u: byte,
                      ul: byte)
    requires t <= 4 && (first ==> left == 0 && upLeft == 0) && (firstRow ==> up == 0 && upLeft == 0)
    requires ReadsUp(FilterFor(t, firstRow)) ==> u == up && ul == upLeft
    ensures Switch(FilterFor(t, firstRow), first, raw, left, u, ul) % 256 ==
            (raw + Predict(t, left, up, upLeft)) % 256
  {
    assert Paeth(0, 0, 0) == 0;
  }

  lemma NothingLaid(x: nat, alpha: bool)
    ensures Total(0, x) == 0 && Flat([], alpha) == [] && LaidRow([], alpha) == []
  {
  }

  // ---------- the loops ----------

  /** Component k of the pixel at byte cur: the pixel to the left starts m bytes before it and the row above it `stride`
      bytes before it. */
  function Component(filter: nat, first: bool, raw: seq<byte>, rawPos: nat, buffer: seq<byte>, cur: nat, stride: nat,
                     m: nat, k: nat): byte
    requires rawPos + k < |raw| && cur + k < |buffer|
    requires !first ==> m <= cur
    requires ReadsUp(filter) ==> stride <= cur && (!first ==> stride + m <= cur)
  {
    Switch(filter, first, raw[rawPos + k],
           if first then 0 else buffer[cur + k - m],
           if ReadsUp(filter) then buffer[cur + k - stride] else 0,
           if ReadsUp(filter) && !first then buffer[cur + k - stride - m] else 0) % 256
  }

  /** The neighbours that the filter looks at lie in the buffer, before byte cur. */
  ghost predicate Inside(filter: nat, first: bool, cur: nat, stride: nat, m: nat) {
    (!first ==> m <= cur) && (ReadsUp(filter) ==> stride <= cur && (!first ==> stride + m <= cur))
  }

  function RestoredBytes(filter: nat, first: bool, raw: seq<byte>, rawPos: nat, buffer: seq<byte>, cur: nat,
                         stride: nat, n: nat, m: nat): (p: Pixel)
    requires rawPos + n <= |raw| && cur + n <= |buffer| && Inside(filter, first, cur, stride, m)
    ensures |p| == n
  {
    seq(n, k requires 0 <= k < n => Component(filter, first, raw, rawPos, buffer, cur, stride, m, k))
  }

  lemma ComponentsNext(filter: nat, first: bool, raw: seq<byte>, rawPos: nat, buffer: seq<byte>, cur: nat, stride: nat,
                       n: nat, m: nat, k: nat)
    requires rawPos + n <= |raw| && cur + n <= |buffer| && Inside(filter, first, cur, stride, m) && k < n
    ensures var p := RestoredBytes(filter, first, raw, rawPos, buffer, cur, stride, n, m);
            p[..k + 1] == p[..k] + [Component(filter, first, raw, rawPos, buffer, cur, stride, m, k)]
  {
    hide Component;
  }

  /** The loop over the components of one pixel. */
  method RestorePixel(filter: nat, first: bool, raw: seq<byte>, rawPos: nat, out: array<byte>, cur: nat, stride: nat,
                      n: nat, m: nat)
    requires rawPos + n <= |raw| && cur + n <= out.Length && n <= m && n <= stride
             && Inside(filter, first, cur, stride, m)
    modifies out
    ensures forall q: nat :: q < out.Length && !(cur <= q < cur + n) ==> out[q] == old(out[q])
    ensures out[cur..cur + n] == RestoredBytes(filter, first, raw, rawPos, old(out[..]), cur, stride, n, m)
  {
    hide Switch, ReadsUp, RestoredBytes;
    ghost var was := out[..];
    for k := 0 to n
      invariant forall q: nat :: q < out.Length && !(cur <= q < cur + k) ==> out[q] == was[q]
      invariant out[cur..cur + k] == RestoredBytes(filter, first, raw, rawPos, was, cur, stride, n, m)[..k]
    {
      ComponentsNext(filter, first, raw, rawPos, was, cur, stride, n, m, k);
      var left := if first then 0 else out[cur + k - m];
      var up := if ReadsUp(filter) then out[cur + k - stride] else 0;
      var upLeft := if ReadsUp(filter) && !first then out[cur + k - stride - m] else 0;
      ghost var done := out[cur..cur + k];
      out[cur + k] := Switch(filter, first, raw[rawPos + k], left, up, upLeft) % 256;
      assert out[cur + k] == Component(filter, first, raw, rawPos, was, cur, stride, m, k);
      assert out[cur..cur + k] == done;
      assert out[cur..cur + k + 1] == done + [out[cur + k]];
    }
  }

  /** The neighbours found in the buffer serve as well as those of the standard. */
  ghost predicate Serves(found: Pixel, wanted: Pixel, n: nat) {
    n <= |found| && n == |wanted| && forall k: nat :: k < n ==> found[k] == wanted[k]
  }

  lemma Restored(p: Pixel, t: nat, firstRow: bool, first: bool, raw: seq<byte>, at: nat, n: nat,
                 left: Pixel, up: Pixel, upLeft: Pixel, l: Pixel, u: Pixel, ul: Pixel)
    requires t <= 4 && at + n <= |raw| && |p| == n && |up| == n && |upLeft| == n && n <= |u| && n <= |ul|
    requires Serves(l, left, n)
    requires var filter := FilterFor(t, firstRow);
             && (ReadsUp(filter) ==> Serves(u, up, n) && Serves(ul, upLeft, n))
             && (forall k: nat :: k < n ==> p[k] == Switch(filter, first, raw[at + k], l[k], u[k], ul[k]) % 256)
    requires first ==> left == Zero(n) && upLeft == Zero(n)
    requires firstRow ==> up == Zero(n) && upLeft == Zero(n)
    ensures p == Recon(t, raw[at..at + n], left, up, upLeft)
  {
    hide Switch, Predict;
    forall k: nat | k < n
      ensures p[k] == Recon(t, raw[at..at + n], left, up, upLeft)[k]
    {
      SwitchIsRecon(t, firstRow, first, raw[at + k], left[k], up[k], upLeft[k], u[k], ul[k]);
    }
  }

  lemma {:induction false} PixelAt(bytes: seq<byte>, n: nat, i: nat)
    requires n > 0 && i < |Pixels(bytes, n)|
    ensures Total(i, n) + n <= |bytes| && Pixels(bytes, n)[i] == bytes[Total(i, n)..Total(i, n) + n]
  {
    if i > 0 {
      PixelAt(bytes[n..], n, i - 1);
      SubSlice(bytes, n, |bytes| - n, Total(i - 1, n), n);
      assert bytes[n..|bytes|] == bytes[n..];
    }
  }

  /** The pixels of the scanline whose bytes start at `start`. */
  ghost predicate RawRow(raw: seq<byte>, start: nat, x: nat, n: nat, row: Row) {
    n > 0 && start + Total(x, n) <= |raw| && |row| == x && row == Pixels(raw[start..start + Total(x, n)], n)
  }

  lemma RawPixel(raw: seq<byte>, start: nat, x: nat, n: nat, row: Row, i: nat, at: nat)
    requires RawRow(raw, start, x, n, row) && i < x && at == start + Total(i, n)
    ensures at + n <= |raw| && row[i] == raw[at..at + n] && at + n == start + Total(i + 1, n)
  {
    TotalStep(i, x, n);
    PixelAt(raw[start..start + Total(x, n)], n, i);
    hide Pixels, Total;
    SubSlice(raw, start, Total(x, n), Total(i, n), n);
  }

  lemma SubSlice<T>(s: seq<T>, start: nat, size: nat, at: nat, n: nat)
    requires start + size <= |s| && at + n <= size
    ensures s[start..start + size][at..at + n] == s[start + at..start + at + n]
  {
    var l, r := s[start..start + size][at..at + n], s[start + at..start + at + n];
    assert |l| == |r|;
    forall k | 0 <= k < n
      ensures l[k] == r[k]
    {
      assert l[k] == s[start..start + size][at + k] == s[start + (at + k)];
    }
  }

  lemma LaidServes(p: Pixel, n: nat, alpha: bool)
    requires |p| == n
    ensures Serves(Laid(p, alpha), p, n)
  {
  }

  /** The row above pixel b of the buffer, as it was laid out. */
  ghost predicate Above(out: seq<Pixel>, b: nat, x: nat, n: nat, alpha: bool, firstRow: bool, prev: Row)
    requires IsRow(prev, x, n)
  {
    if firstRow then prev == ZeroRow(x, n)
    else x <= b <= |out| && forall i: nat :: i < x ==> out[b - x + i] == Laid(prev[i], alpha)
  }

  /** The first i pixels of a scanline restored. */
  ghost function Restoring(t: nat, x: nat, n: nat, prior: Row, raw: Row, i: nat): (r: Row)
    requires IsRow(prior, x, n) && IsRow(raw, x, n) && i <= x
    ensures IsRow(r, i, n) && |r| == i
  {
    UnfilterRow(t, n, prior, raw[..i])
  }

  lemma RestoringEnds(t: nat, x: nat, n: nat, prior: Row, raw: Row)
    requires IsRow(prior, x, n) && IsRow(raw, x, n)
    ensures Restoring(t, x, n, prior, raw, 0) == []
    ensures Restoring(t, x, n, prior, raw, x) == UnfilterRow(t, n, prior, raw)
  {
    assert raw[..|raw|] == raw;
  }

  lemma RestoringStep(t: nat, x: nat, n: nat, prior: Row, raw: Row, i: nat)
    requires IsRow(prior, x, n) && IsRow(raw, x, n) && i < x
    ensures var cur := Restoring(t, x, n, prior, raw, i);
            && Restoring(t, x, n, prior, raw, i + 1) ==
               cur + [Recon(t, raw[i], Before(cur, i, n), prior[i], Before(prior, i, n))]
  {
    hide Recon;
    assert raw[..i + 1][..i] == raw[..i];
  }

  /** The offsets of the neighbours of pixel q. */
  lemma Neighbours(q: nat, x: nat, m: nat)
    ensures Total(q + 1, m) == Total(q, m) + m
    ensures q >= x ==> Total(q, m) == Total(q - x, m) + Total(x, m)
    ensures q > x ==> Total(q - x, m) == Total(q - x - 1, m) + m
    ensures q > 0 ==> Total(q, m) == Total(q - 1, m) + m
  {
    if q >= x { TotalAdd(q - x, x, m); }
  }

  /** The buffer up to byte cur holds these pixels, of m bytes each. */
  ghost predicate Holds(out: seq<byte>, cur: nat, laid: seq<Pixel>, m: nat) {
    cur <= |out| && cur == Total(|laid|, m) && IsRow(laid, |laid|, m) && out[..cur] == Bytes(laid)
  }

  /** A pixel that the buffer holds. */
  lemma Found(buffer: seq<byte>, cur: nat, laid: seq<Pixel>, m: nat, q: nat, at: nat)
    requires Holds(buffer, cur, laid, m) && q < |laid| && at == Total(q, m)
    ensures at + m <= cur && buffer[at..at + m] == laid[q]
  {
    hide Bytes, Total;
    BytesAt(laid, m, q);
    SubSlice(buffer, 0, cur, at, m);
    assert buffer[0..cur] == buffer[..cur];
  }

  /** The neighbours of the next pixel in the buffer are the pixels of the standard. */
  ghost predicate Served(filter: nat, buffer: seq<byte>, cur: nat, stride: nat, m: nat, i: nat, n: nat, alpha: bool,
                         done: Row, prev: Row)
  {
    && i <= |done| && i < |prev| && Inside(filter, i == 0, cur, stride, m) && cur <= |buffer| && m <= stride
    && (i > 0 ==> buffer[cur - m..cur] == Laid(done[i - 1], alpha))
    && (ReadsUp(filter) ==> buffer[cur - stride..cur - stride + m] == Laid(prev[i], alpha))
    && (ReadsUp(filter) && i > 0 ==> buffer[cur - stride - m..cur - stride] == Laid(prev[i - 1], alpha))
  }

  /** The same for the row above. */
  lemma ServingUp(buffer: seq<byte>, cur: nat, stride: nat, m: nat, i: nat, x: nat, n: nat, alpha: bool,
                  done: Row, prev: Row, above: seq<Pixel>)
    requires i < x && IsRow(prev, x, n) && |done| == i && stride == Total(x, m)
    requires Above(above, |above|, x, n, alpha, false, prev) && Holds(buffer, cur, above + LaidRow(done, alpha), m)
    ensures stride <= cur && (i > 0 ==> stride + m <= cur) && cur <= |buffer| && m <= stride
    ensures buffer[cur - stride..cur - stride + m] == Laid(prev[i], alpha)
    ensures i > 0 ==> buffer[cur - stride - m..cur - stride] == Laid(prev[i - 1], alpha)
  {
    hide Total, Laid, IsRow, Holds;
    var laid := above + LaidRow(done, alpha);
    var q: nat := |laid|;
    RowLength(prev, x, n);
    Neighbours(q, x, m);
    StrideCovers(x, m);
    HoldsUpTo(buffer, cur, laid, m);
    Found(buffer, cur, laid, m, q - x, cur - stride);
    assert laid[q - x] == above[|above| - x + i];
    if i > 0 {
      Found(buffer, cur, laid, m, q - x - 1, cur - stride - m);
      assert laid[q - x - 1] == above[|above| - x + (i - 1)];
    }
  }

  lemma Serving(t: nat, firstRow: bool, buffer: seq<byte>, cur: nat, stride: nat, i: nat, x: nat, n: nat, alpha: bool,
                done: Row, prev: Row, above: seq<Pixel>)
    requires t <= 4 && i < x && IsRow(prev, x, n) && |done| == i && stride == Total(x, PixelSize(n, alpha))
    requires Above(above, |above|, x, n, alpha, firstRow, prev)
    requires Holds(buffer, cur, above + LaidRow(done, alpha), PixelSize(n, alpha))
    ensures Served(FilterFor(t, firstRow), buffer, cur, stride, PixelSize(n, alpha), i, n, alpha, done, prev)
  {
    hide Total, FilterFor, ReadsUp, Laid, PixelSize, IsRow, Holds, Above;
    var m, filter := PixelSize(n, alpha), FilterFor(t, firstRow);
    var laid := above + LaidRow(done, alpha);
    RowLength(prev, x, n);
    StrideCovers(x, m);
    HoldsUpTo(buffer, cur, laid, m);
    Neighbours(|laid|, 0, m);
    if i > 0 { Found(buffer, cur, laid, m, |laid| - 1, cur - m); }
    if ReadsUp(filter) {
      UpOnlyLater(t, firstRow);
      ServingUp(buffer, cur, stride, m, i, x, n, alpha, done, prev, above);
    }
  }

  lemma HoldsUpTo(buffer: seq<byte>, cur: nat, laid: seq<Pixel>, m: nat)
    requires Holds(buffer, cur, laid, m)
    ensures cur <= |buffer| && cur == Total(|laid|, m)
  {
  }

  lemma ComponentAt(filter: nat, first: bool, raw: seq<byte>, rawPos: nat, buffer: seq<byte>, cur: nat, stride: nat,
                    m: nat, n: nat, l: Pixel, u: Pixel, ul: Pixel, k: nat)
    requires rawPos + n <= |raw| && cur + n <= |buffer| && Inside(filter, first, cur, stride, m) && k < n <= m <= stride
    requires l == if first then Zero(n) else buffer[cur - m..cur]
    requires u == if ReadsUp(filter) then buffer[cur - stride..cur - stride + m] else Zero(n)
    requires ul == if ReadsUp(filter) && !first then buffer[cur - stride - m..cur - stride] else Zero(n)
    ensures RestoredBytes(filter, first, raw, rawPos, buffer, cur, stride, n, m)[k] ==
            Switch(filter, first, raw[rawPos + k], l[k], u[k], ul[k]) % 256
  {
    hide Switch, ReadsUp;
  }

  /** The components computed from the buffer undo the filter. */
  lemma Undone(t: nat, firstRow: bool, raw: seq<byte>, rawPos: nat, buffer: seq<byte>, cur: nat, stride: nat, i: nat,
               x: nat, n: nat, alpha: bool, done: Row, prev: Row)
    requires t <= 4 && i < x && IsRow(prev, x, n) && IsRow(done, i, n) && (firstRow ==> prev == ZeroRow(x, n))
    requires rawPos + n <= |raw| && cur + n <= |buffer|
    requires Served(FilterFor(t, firstRow), buffer, cur, stride, PixelSize(n, alpha), i, n, alpha, done, prev)
    ensures var m := PixelSize(n, alpha);
            RestoredBytes(FilterFor(t, firstRow), i == 0, raw, rawPos, buffer, cur, stride, n, m) ==
            Recon(t, raw[rawPos..rawPos + n], Before(done, i, n), prev[i], Before(prev, i, n))
  {
    hide Switch, Predict, Recon, FilterFor, ReadsUp, RestoredBytes, Laid;
    var m, filter := PixelSize(n, alpha), FilterFor(t, firstRow);
    var l := if i > 0 then buffer[cur - m..cur] else Zero(n);
    var u := if ReadsUp(filter) then buffer[cur - stride..cur - stride + m] else Zero(n);
    var ul := if ReadsUp(filter) && i > 0 then buffer[cur - stride - m..cur - stride] else Zero(n);
    var p := RestoredBytes(filter, i == 0, raw, rawPos, buffer, cur, stride, n, m);
    forall k: nat | k < n
      ensures p[k] == Switch(filter, i == 0, raw[rawPos + k], l[k], u[k], ul[k]) % 256
    {
      ComponentAt(filter, i == 0, raw, rawPos, buffer, cur, stride, m, n, l, u, ul, k);
    }
    if i > 0 { LaidServes(done[i - 1], n, alpha); }
    if i > 0 { LaidServes(prev[i - 1], n, alpha); }
    LaidServes(prev[i], n, alpha);
    Restored(p, t, firstRow, i == 0, raw, rawPos, n, Before(done, i, n), prev[i], Before(prev, i, n), l, u, ul);
  }

  /** One pixel of a scanline, from the pixels of the buffer before it. */
  method NextPixel(ghost t: nat, ghost firstRow: bool, filter: nat, raw: seq<byte>, rawPos: nat, out: array<byte>,
                   cur: nat, i: nat, ghost x: nat, n: nat, alpha: bool, stride: nat,
                   ghost prev: Row, ghost row: Row, ghost above: seq<Pixel>)
    returns (ghost p: Pixel)
    requires t <= 4 && filter == FilterFor(t, firstRow) && 0 < n && stride == Total(x, PixelSize(n, alpha))
    requires i < x && rawPos + n <= |raw| && cur + PixelSize(n, alpha) <= out.Length
    requires IsRow(prev, x, n) && Above(above, |above|, x, n, alpha, firstRow, prev)
    requires IsRow(row, x, n) && raw[rawPos..rawPos + n] == row[i]
    requires Holds(out[..], cur, above + LaidRow(Restoring(t, x, n, prev, row, i), alpha), PixelSize(n, alpha))
    modifies out
    ensures |p| == n && Restoring(t, x, n, prev, row, i) + [p] == Restoring(t, x, n, prev, row, i + 1)
    ensures out[..cur] == old(out[..cur]) && out[cur..cur + PixelSize(n, alpha)] == Laid(p, alpha)
  {
    hide Component, RestoredBytes, Recon, Restoring, Bytes, Total, FilterFor, ReadsUp, Holds, LaidRow, ZeroRow;
    ghost var done, was := Restoring(t, x, n, prev, row, i), out[..];
    var m := PixelSize(n, alpha);
    RestoringStep(t, x, n, prev, row, i);
    Serving(t, firstRow, was, cur, stride, i, x, n, alpha, done, prev, above);
    Undone(t, firstRow, raw, rawPos, was, cur, stride, i, x, n, alpha, done, prev);
    RestorePixel(filter, i == 0, raw, rawPos, out, cur, stride, n, m);
    p := out[cur..cur + n];
    if alpha {
      out[cur + n] := 255;
    }
    assert out[cur..cur + n] == p;
    assert out[..cur] == was[..cur];
  }

  lemma UpOnlyLater(t: nat, firstRow: bool)
    requires t <= 4 && ReadsUp(FilterFor(t, firstRow))
    ensures !firstRow
  {
  }

  lemma StrideCovers(x: nat, m: nat)
    requires 0 < x
    ensures m <= Total(x, m)
  {
  }

  /** Writing the next pixel after those that the buffer holds. */
  lemma HoldsNext(out: seq<byte>, out': seq<byte>, cur: nat, above: seq<Pixel>, done: Row, p: Pixel, alpha: bool,
                  n: nat, m: nat)
    requires m == PixelSize(n, alpha) && |p| == n && Holds(out, cur, above + LaidRow(done, alpha), m)
    requires cur + m <= |out'| && out'[..cur] == out[..cur] && out'[cur..cur + m] == Laid(p, alpha)
    ensures Holds(out', cur + m, above + LaidRow(done + [p], alpha), m)
  {
    hide Bytes, Total;
    var laid := above + LaidRow(done, alpha);
    assert above + LaidRow(done + [p], alpha) == laid + [Laid(p, alpha)];
    Neighbours(|laid|, 0, m);
    BytesLast(laid, Laid(p, alpha));
    assert out'[..cur + m] == out'[..cur] + out'[cur..cur + m];
  }

  /** The loop over the pixels of a scanline. */
  method PutPixels(ghost t: nat, ghost firstRow: bool, filter: nat, raw: seq<byte>, rawPos: nat, out: array<byte>,
                   b: nat, x: nat, n: nat, alpha: bool, ghost prev: Row, ghost row: Row, ghost above: seq<Pixel>)
    requires 0 < n && t <= 4 && filter == FilterFor(t, firstRow)
    requires RawRow(raw, rawPos, x, n, row) && IsRow(prev, x, n) && IsRow(row, x, n)
    requires b + Total(x, PixelSize(n, alpha)) <= out.Length && Holds(out[..], b, above, PixelSize(n, alpha))
    requires Above(above, |above|, x, n, alpha, firstRow, prev)
    modifies out
    ensures Holds(out[..], b + Total(x, PixelSize(n, alpha)),
                  above + LaidRow(Restoring(t, x, n, prev, row, x), alpha), PixelSize(n, alpha))
  {
    hide *;
    var m := PixelSize(n, alpha);
    var stride := x * m;
    TotalIsProduct(x, m);
    ghost var done: Row := [];
    var rp, cur := rawPos, b;
    RestoringEnds(t, x, n, prev, row);
    NothingLaid(n, alpha);
    NothingLaid(m, alpha);
    assert above + [] == above;
    for i := 0 to x
      invariant rp == rawPos + Total(i, n) && cur == b + Total(i, m)
      invariant done == Restoring(t, x, n, prev, row, i)
      invariant Holds(out[..], cur, above + LaidRow(done, alpha), m)
    {
      RawPixel(raw, rawPos, x, n, row, i, rp);
      TotalStep(i, x, m);
      ghost var was := out[..];
      ghost var p := NextPixel(t, firstRow, filter, raw, rp, out, cur, i, x, n, alpha, stride, prev, row, above);
      HoldsNext(was, out[..], cur, above, done, p, alpha, n, m);
      done := done + [p];
      rp, cur := rp + n, cur + m;
    }
  }

  /** The scanline that starts at `start`, restored. */
  ghost function Scanline(t: nat, raw: seq<byte>, start: nat, x: nat, n: nat, prev: Row): (r: Row)
    requires n > 0 && start + Total(x, n) <= |raw| && IsRow(prev, x, n)
    ensures IsRow(r, x, n)
  {
    PixelCount(raw[start..start + Total(x, n)], n, x);
    UnfilterRow(t, n, prev, Pixels(raw[start..start + Total(x, n)], n))
  }

  /** One scanline after its filter byte. */
  method PutRow(t: nat, firstRow: bool, raw: seq<byte>, rawPos: nat, out: array<byte>, b: nat, x: nat, n: nat,
                alpha: bool, ghost prev: Row, ghost above: seq<Pixel>)
    returns (ghost cur: Row)
    requires 0 < n && t <= 4 && rawPos + Total(x, n) <= |raw| && IsRow(prev, x, n)
    requires b + Total(x, PixelSize(n, alpha)) <= out.Length && Holds(out[..], b, above, PixelSize(n, alpha))
    requires Above(above, |above|, x, n, alpha, firstRow, prev)
    modifies out
    ensures cur == Scanline(t, raw, rawPos, x, n, prev)
    ensures Holds(out[..], b + Total(x, PixelSize(n, alpha)), above + LaidRow(cur, alpha), PixelSize(n, alpha))
  {
    hide Switch, Predict, Recon, Laid, Pixels, Before, UnfilterRow, Restoring, Above, Total, LaidRow, Holds;
    PixelCount(raw[rawPos..rawPos + Total(x, n)], n, x);
    ghost var row := Pixels(raw[rawPos..rawPos + Total(x, n)], n);
    PutPixels(t, firstRow, FilterFor(t, firstRow), raw, rawPos, out, b, x, n, alpha, prev, row, above);
    cur := UnfilterRow(t, n, prev, row);
    RestoringEnds(t, x, n, prev, row);
  }

  // ---------- the whole image ----------

  /** How building an image ends.  PastData: the source reads behind its data, where nothing is promised any more. */
  datatype Ending = Complete | Refused | PastData

  datatype Attempt = Attempt(ending: Ending, rows: seq<Row>)

  function Prefixed(done: seq<Row>, a: Attempt): Attempt {
    if a.ending == Complete then Attempt(Complete, done + a.rows) else a
  }

  /** Reads y rows from `pos` on, in the order in which the source looks at the bytes. */
  ghost function RowsFrom(raw: seq<byte>, pos: nat, x: nat, n: nat, y: nat, prev: Row): (a: Attempt)
    requires n > 0 && IsRow(prev, x, n)
    ensures a.ending == Complete ==> |a.rows| == y && AreRows(a.rows, x, n)
    decreases y
  {
    if y == 0 then Attempt(Complete, [])
    else if pos >= |raw| then Attempt(PastData, [])
    else if raw[pos] > 4 then Attempt(Refused, [])
    else if pos + 1 + Total(x, n) > |raw| then Attempt(PastData, [])
    else
      var cur := Scanline(raw[pos], raw, pos + 1, x, n, prev);
      Prefixed([cur], RowsFrom(raw, pos + 1 + Total(x, n), x, n, y - 1, cur))
  }

  /** With enough data the rows are those of the standard, and nothing is read behind the data. */
  lemma {:induction false} EnoughData(raw: seq<byte>, pos: nat, x: nat, n: nat, y: nat, prev: Row)
    requires n > 0 && IsRow(prev, x, n) && pos <= |raw| && |raw| - pos >= Total(y, Total(x, n) + 1)
    ensures RowsFrom(raw, pos, x, n, y, prev) ==
            match DecodeRows(raw[pos..], x, n, y, prev)
            case Some(rows) => Attempt(Complete, rows)
            case None => Attempt(Refused, [])
    decreases y
  {
    hide IsRow, DecodeRows, Scanline, Total, AreRows;
    if y == 0 {
      DecodeNothing(raw[pos..], x, n, prev);
    } else {
      DecodeStep(raw, pos, x, n, y, prev);
      if raw[pos] <= 4 {
        EnoughData(raw, pos + 1 + Total(x, n), x, n, y - 1, Scanline(raw[pos], raw, pos + 1, x, n, prev));
      }
    }
  }

  lemma DecodeNothing(raw: seq<byte>, x: nat, n: nat, prev: Row)
    requires n > 0 && IsRow(prev, x, n)
    ensures |raw| >= Total(0, Total(x, n) + 1) && DecodeRows(raw, x, n, 0, prev) == Some([])
  {
  }

  /** With too little data the rows are never completed. */
  lemma {:induction false} ShortData(raw: seq<byte>, pos: nat, x: nat, n: nat, y: nat, prev: Row)
    requires n > 0 && IsRow(prev, x, n) && y > 0 && pos + Total(y, Total(x, n) + 1) > |raw|
    ensures RowsFrom(raw, pos, x, n, y, prev).ending != Complete
    decreases y
  {
    hide IsRow, Scanline;
    var size, next := Total(x, n) + 1, pos + 1 + Total(x, n);
    assert Total(y, size) == size + Total(y - 1, size) && Total(0, size) == 0;
    if pos < |raw| && raw[pos] <= 4 && next <= |raw| {
      if y > 1 {
        ShortData(raw, next, x, n, y - 1, Scanline(raw[pos], raw, pos + 1, x, n, prev));
      }
    }
  }

  /** stbi__create_png_image_raw: raw_len is what the caller says is left. */
  ghost function RawImage(raw: seq<byte>, start: nat, rawLen: nat, n: nat, x: nat, y: nat, whole: bool): (a: Attempt)
    requires n > 0
    ensures a.ending == Complete ==> |a.rows| == y && AreRows(a.rows, x, n)
  {
    var need := Total(y, Total(x, n) + 1);
    if (if whole then rawLen != need else rawLen < need) then Attempt(Refused, [])
    else RowsFrom(raw, start, x, n, y, ZeroRow(x, n))
  }

  /** What is left to decode after the rows `done`. */
  ghost predicate Resumes(raw: seq<byte>, start: nat, pos: nat, x: nat, n: nat, y: nat, j: nat, done: seq<Row>,
                          prev: Row) {
    && n > 0 && j <= y && |done| == j && AreRows(done, x, n) && IsRow(prev, x, n) && IsRow(ZeroRow(x, n), x, n)
    && prev == (if j == 0 then ZeroRow(x, n) else done[j - 1])
    && RowsFrom(raw, start, x, n, y, ZeroRow(x, n)) == Prefixed(done, RowsFrom(raw, pos, x, n, y - j, prev))
  }

  lemma ResumesStart(raw: seq<byte>, start: nat, x: nat, n: nat, y: nat)
    requires n > 0
    ensures IsRow(ZeroRow(x, n), x, n)
    ensures Resumes(raw, start, start, x, n, y, 0, [], ZeroRow(x, n))
  {
    hide RowsFrom;
    var a := RowsFrom(raw, start, x, n, y, ZeroRow(x, n));
    assert [] + a.rows == a.rows;
  }

  lemma ResumesStep(raw: seq<byte>, start: nat, pos: nat, x: nat, n: nat, y: nat, j: nat, done: seq<Row>, prev: Row)
    requires Resumes(raw, start, pos, x, n, y, j, done, prev) && j < y
    ensures var all := RowsFrom(raw, start, x, n, y, ZeroRow(x, n));
            if pos >= |raw| then all == Attempt(PastData, [])
            else if raw[pos] > 4 then all == Attempt(Refused, [])
            else if pos + 1 + Total(x, n) > |raw| then all == Attempt(PastData, [])
            else
              var cur := Scanline(raw[pos], raw, pos + 1, x, n, prev);
              Resumes(raw, start, pos + 1 + Total(x, n), x, n, y, j + 1, done + [cur], cur)
  {
    hide Scanline, IsRow, Total, ZeroRow;
    if pos < |raw| && raw[pos] <= 4 && pos + 1 + Total(x, n) <= |raw| {
      var cur := Scanline(raw[pos], raw, pos + 1, x, n, prev);
      var rest := RowsFrom(raw, pos + 1 + Total(x, n), x, n, y - j - 1, cur);
      assert done + ([cur] + rest.rows) == done + [cur] + rest.rows;
      assert AreRows(done + [cur], x, n);
    }
  }

  lemma ResumesEnd(raw: seq<byte>, start: nat, pos: nat, x: nat, n: nat, y: nat, done: seq<Row>, prev: Row)
    requires Resumes(raw, start, pos, x, n, y, y, done, prev)
    ensures RowsFrom(raw, start, x, n, y, ZeroRow(x, n)) == Attempt(Complete, done)
  {
    assert done + [] == done;
  }

  lemma DecodeStep(raw: seq<byte>, pos: nat, x: nat, n: nat, y: nat, prev: Row)
    requires n > 0 && 0 < y && pos <= |raw| && |raw| - pos >= Total(y, Total(x, n) + 1) && IsRow(prev, x, n)
    ensures var next := pos + 1 + Total(x, n);
            && next <= |raw| && |raw| - next >= Total(y - 1, Total(x, n) + 1)
            && DecodeRows(raw[pos..], x, n, y, prev) ==
               if raw[pos] > 4 then None
               else
                 var cur := Scanline(raw[pos], raw, pos + 1, x, n, prev);
                 var rest := DecodeRows(raw[next..], x, n, y - 1, cur);
                 if rest.None? then None else Some([cur] + rest.value)
  {
    hide UnfilterRow, Pixels, IsRow;
    var size := Total(x, n);
    assert Total(y, size + 1) == size + 1 + Total(y - 1, size + 1);
    assert raw[pos..][1..1 + size] == raw[pos + 1..pos + 1 + size];
    assert raw[pos..][1 + size..] == raw[pos + 1 + size..];
  }

  lemma LastRow(rows: seq<Row>, row: Row, alpha: bool)
    ensures Flat(rows + [row], alpha) == Flat(rows, alpha) + LaidRow(row, alpha)
  {
    assert (rows + [row])[..|rows|] == rows;
  }

  /** The row above is the last one laid out. */
  lemma AboveRow(raw: seq<byte>, start: nat, pos: nat, x: nat, n: nat, y: nat, j: nat, done: seq<Row>, prev: Row,
                 alpha: bool)
    requires Resumes(raw, start, pos, x, n, y, j, done, prev)
    ensures n > 0 && IsRow(prev, x, n) && Above(Flat(done, alpha), |Flat(done, alpha)|, x, n, alpha, j == 0, prev)
  {
    hide Laid, RowsFrom;
    if done != [] {
      var m := |done| - 1;
      assert Flat(done, alpha) == Flat(done[..m], alpha) + LaidRow(prev, alpha);
    }
  }

  /** One row: the filter byte and the pixels. */
  method NextRow(raw: seq<byte>, ghost start: nat, pos: nat, out: array<byte>, b: nat, n: nat, alpha: bool, x: nat,
                 ghost y: nat, j: nat, ghost done: seq<Row>, ghost prev: Row)
    returns (ghost cur: Row)
    requires j < y && Resumes(raw, start, pos, x, n, y, j, done, prev)
    requires pos < |raw| && raw[pos] <= 4 && pos + 1 + Total(x, n) <= |raw|
    requires b + Total(x, PixelSize(n, alpha)) <= out.Length
             && Holds(out[..], b, Flat(done, alpha), PixelSize(n, alpha))
    modifies out
    ensures Resumes(raw, start, pos + 1 + Total(x, n), x, n, y, j + 1, done + [cur], cur)
    ensures Holds(out[..], b + Total(x, PixelSize(n, alpha)), Flat(done + [cur], alpha), PixelSize(n, alpha))
  {
    hide *;
    ResumesStep(raw, start, pos, x, n, y, j, done, prev);
    AboveRow(raw, start, pos, x, n, y, j, done, prev, alpha);
    cur := PutRow(raw[pos], j == 0, raw, pos + 1, out, b, x, n, alpha, prev, Flat(done, alpha));
    LastRow(done, cur, alpha);
  }

  lemma HoldsNothing(out: seq<byte>, alpha: bool, m: nat)
    ensures Holds(out, 0, Flat([], alpha), m)
  {
  }

  lemma HoldsAll(out: seq<byte>, laid: seq<Pixel>, m: nat)
    requires Holds(out, |out|, laid, m)
    ensures out == Bytes(laid)
  {
    assert out[..|out|] == out;
  }

  /** The loop over the rows. */
  method RestoreRows(raw: seq<byte>, start: nat, out: array<byte>, n: nat, alpha: bool, x: nat, y: nat)
    returns (ending: Ending)
    requires n > 0 && out.Length == Total(y, Total(x, PixelSize(n, alpha)))
    modifies out
    ensures IsRow(ZeroRow(x, n), x, n)
    ensures var a := RowsFrom(raw, start, x, n, y, ZeroRow(x, n));
            ending == a.ending && (ending == Complete ==> out[..] == Bytes(Flat(a.rows, alpha)))
  {
    hide *;
    var stride, size := x * PixelSize(n, alpha), x * n;
    TotalIsProduct(x, PixelSize(n, alpha));
    TotalIsProduct(x, n);
    var pos: nat, b: nat := start, 0;
    ghost var done: seq<Row>, prev: Row := [], ZeroRow(x, n);
    ResumesStart(raw, start, x, n, y);
    NothingLaid(stride, alpha);
    HoldsNothing(out[..], alpha, PixelSize(n, alpha));
    for j := 0 to y
      invariant Resumes(raw, start, pos, x, n, y, j, done, prev)
      invariant b == Total(j, stride) && Holds(out[..], b, Flat(done, alpha), PixelSize(n, alpha))
    {
      ResumesStep(raw, start, pos, x, n, y, j, done, prev);
      if pos >= |raw| { return PastData; }
      if raw[pos] > 4 { return Refused; }
      if pos + 1 + size > |raw| { return PastData; }
      TotalStep(j, y, stride);
      ghost var cur := NextRow(raw, start, pos, out, b, n, alpha, x, y, j, done, prev);
      done, prev := done + [cur], cur;
      pos, b := pos + 1 + size, b + stride;
    }
    ResumesEnd(raw, start, pos, x, n, y, done, prev);
    HoldsAll(out[..], Flat(done, alpha), PixelSize(n, alpha));
    ending := Complete;
  }

  /** Refuses when raw_len is too small (or, for a whole image, not exact) and when a filter type is unknown. */
  method CreateImageRaw(raw: seq<byte>, start: nat, rawLen: nat, n: nat, alpha: bool, x: nat, y: nat, whole: bool)
    returns (ending: Ending, out: array<byte>)
    requires n > 0
    ensures fresh(out) && out.Length == Total(y, Total(x, PixelSize(n, alpha)))
    ensures var a := RawImage(raw, start, rawLen, n, x, y, whole);
            ending == a.ending && (ending == Complete ==> out[..] == Bytes(Flat(a.rows, alpha)))
  {
    hide RowsFrom, Total, Flat, Bytes, PixelSize, ZeroRow;
    var stride := x * PixelSize(n, alpha);
    TotalIsProduct(x, PixelSize(n, alpha));
    TotalIsProduct(y, stride);
    out := new byte[y * stride];
    var need := y * (x * n + 1);
    TotalIsProduct(x, n);
    TotalIsProduct(y, x * n + 1);
    if whole {
      if rawLen != need { return Refused, out; }
    } else if rawLen < need {
      return Refused, out;
    }
    ending := RestoreRows(raw, start, out, n, alpha, x, y);
  }
}
