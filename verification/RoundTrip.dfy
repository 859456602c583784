/** What cgi/vsx-generate-qr.c writes, client/stb_image.h reads back. */
module RoundTrip {
  import opened Bits
  import opened Options
  import opened BitStream
  import opened PngFilter
  import opened PngUnfilter
  import C = Checksums
  import W = PngWriter
  import R = PngReader
  import S = InflateSpec
  import A = Adam7

  // ---------- chunks ----------

  lemma Be32RoundTrip(s: seq<byte>, p: nat, x: nat)
    requires x < 0x1_0000_0000 && p + 4 <= |s| && s[p..p + 4] == W.Be32(x)
    ensures R.U32(s, p) == x
  {
    TagOf(s, p, W.Be32(x));
    var a, b, c := x / 256, x / 0x1_0000, x / 0x100_0000;
    Digits(x, 256, 256);
    Digits(x, 0x1_0000, 256);
    assert b == a / 256 && c == b / 256;
  }

  lemma Digits(x: nat, d: nat, e: nat)
    requires d in {256, 0x1_0000} && e == 256
    ensures x / d / e == x / (d * e)
  {
  }

  lemma ChunkParts(s: seq<byte>, p: nat, kind: seq<byte>, data: seq<byte>, rest: seq<byte>)
    requires |kind| == 4 && |data| < 0x1_0000_0000 && p <= |s| && s[p..] == W.Chunk(kind, data) + rest
    ensures p + 12 + |data| <= |s| && R.U32(s, p) == |data|
    ensures R.U32(s, p + 4) == R.Tag(kind[0], kind[1], kind[2], kind[3])
    ensures s[p + 8..p + 8 + |data|] == data && s[p + 12 + |data|..] == rest
  {
    hide W.Be32, C.Crc, R.U32;
    C.CrcFits(kind + data);
    var tail := s[p..];
    var size, sum := W.Be32(|data|), W.Be32(C.Crc(kind + data));
    assert tail == size + kind + data + sum + rest;
    assert |tail| == 12 + |data| + |rest|;
    Part(s, p, 0, 4, size);
    Part(s, p, 4, 4, kind);
    Part(s, p, 8, |data|, data);
    assert s[p + 12 + |data|..] == tail[12 + |data|..] == rest;
    Be32RoundTrip(s, p, |data|);
    TagOf(s, p + 4, kind);
  }

  lemma Part(s: seq<byte>, p: nat, at: nat, n: nat, part: seq<byte>)
    requires p + at + n <= |s| && s[p..][at..at + n] == part
    ensures s[p + at..p + at + n] == part
  {
    assert s[p..][at..at + n] == s[p + at..p + at + n];
  }

  lemma TagOf(s: seq<byte>, p: nat, kind: seq<byte>)
    requires |kind| == 4 && p + 4 <= |s| && s[p..p + 4] == kind
    ensures R.U32(s, p) == R.Tag(kind[0], kind[1], kind[2], kind[3])
  {
    assert s[p..p + 4][0] == s[p] && s[p..p + 4][1] == s[p + 1] && s[p..p + 4][2] == s[p + 2]
           && s[p..p + 4][3] == s[p + 3];
  }

  // ---------- the zlib stream ----------

  lemma ZlibBytes(input: seq<byte>, image: seq<byte>, side: nat)
    requires side < 256 && |image| == Total(side, side) && input == W.ZlibData(image, side)
    ensures |input| == 7 + W.ImageBytes(side) + 4 && W.ImageBytes(side) < 65536
    ensures input[0] == 8 && input[1] == 29 && input[2] == 1
    ensures input[4] as int * 256 + input[3] == W.ImageBytes(side)
            && input[6] as int * 256 + input[5] == 65535 - W.ImageBytes(side)
    ensures input[7..7 + W.ImageBytes(side)] == W.Scanlines(image, side, side)
  {
    hide W.Scanlines, W.Be32, C.Adler, Total;
    W.ImageBytesFit(side);
    W.ImageBytesIs(side);
    hide W.ImageBytes;
    var header := W.ZlibHeader(side);
    assert forall i :: 0 <= i < 7 ==> input[i] == header[i];
  }

  lemma StoredBits(input: seq<byte>)
    requires |input| > 2 && input[2] == 1
    ensures Window(input, 16, 1) == 1 && Window(input, 17, 2) == 0
  {
    assert StreamBit(input, 16) == 1 && StreamBit(input, 17) == 0 && StreamBit(input, 18) == 0;
    assert Window(input, 17, 2) == StreamBit(input, 17) + 2 * Window(input, 18, 1);
  }

  /** The decoder takes the scanlines out of the stored block. */
  lemma InflateStored(image: seq<byte>, side: nat)
    requires side < 256 && |image| == Total(side, side)
    ensures S.Inflate(W.ZlibData(image, side), true) == S.Ok(W.Scanlines(image, side, side))
  {
    hide W.Scanlines, W.ZlibData, W.ImageBytes, Window, Total;
    var input := W.ZlibData(image, side);
    ZlibBytes(input, image, side);
    StoredBits(input);
    var out := input[7..7 + W.ImageBytes(side)];
    assert [] + out == out;
    assert S.Stored(input, 19, []) == S.Ok((8 * (7 + W.ImageBytes(side)), out));
  }

  // ---------- the scanlines ----------

  /** The rows of an image, one component a pixel. */
  function Rows(image: seq<byte>, side: nat, y: nat): (rows: seq<Row>)
    requires y <= side && |image| == Total(side, side)
    ensures |rows| == y && AreRows(rows, side, 1)
  {
    if y == 0 then [] else
      TotalStep(y - 1, side, side);
      TotalOnes(side);
      PixelCount(image[Total(y - 1, side)..Total(y, side)], 1, side);
      Rows(image, side, y - 1) + [Pixels(image[Total(y - 1, side)..Total(y, side)], 1)]
  }

  lemma {:induction false} TotalOnes(x: nat)
    ensures Total(x, 1) == x
  {
    if x > 0 { TotalOnes(x - 1); }
  }

  function Singles(b: seq<byte>): (r: seq<Pixel>)
    ensures |r| == |b|
  {
    seq(|b|, i requires 0 <= i < |b| => [b[i]])
  }

  lemma {:induction false} PixelsAreSingles(b: seq<byte>)
    ensures Pixels(b, 1) == Singles(b) && Bytes(Pixels(b, 1)) == b
  {
    if b != [] {
      PixelsAreSingles(b[1..]);
      assert b[..1] == [b[0]];
      assert b == [b[0]] + b[1..];
    }
  }

  lemma FilterNone(x: nat, n: nat, prior: Row, cur: Row)
    requires IsRow(prior, x, n) && IsRow(cur, x, n)
    ensures FilterRow(0, x, n, prior, cur) == cur
  {
    forall i | 0 <= i < x
      ensures FilterRow(0, x, n, prior, cur)[i] == cur[i]
    {
      ResidualNone(cur[i], Before(cur, i, n), prior[i], Before(prior, i, n));
    }
  }

  lemma ResidualNone(cur: Pixel, left: Pixel, up: Pixel, upLeft: Pixel)
    requires |cur| <= |left| && |cur| <= |up| && |cur| <= |upLeft|
    ensures Residual(0, cur, left, up, upLeft) == cur
  {
  }

  function Zeros(k: nat): (r: seq<byte>)
    ensures |r| == k && Known(r)
  {
    seq(k, _ => 0)
  }

  lemma ZeroRowIs(x: nat, n: nat)
    ensures IsRow(ZeroRow(x, n), x, n)
  {
  }

  /** With no filter at all, each row is its own bytes after a zero. */
  lemma {:induction false} EncodeAppend(x: nat, n: nat, prior: Row, rows: seq<Row>, row: Row)
    requires IsRow(prior, x, n) && AreRows(rows, x, n) && IsRow(row, x, n)
    ensures AreRows(rows + [row], x, n)
    ensures EncodeRows(x, n, prior, rows + [row], Zeros(|rows| + 1)) ==
            EncodeRows(x, n, prior, rows, Zeros(|rows|)) + [0] + Bytes(row)
    decreases |rows|
  {
    hide FilterRow, Bytes, IsRow;
    FilterNone(x, n, prior, if rows == [] then row else rows[0]);
    var all, types := rows + [row], Zeros(|rows| + 1);
    if rows == [] {
      assert all[1..] == [] && EncodeRows(x, n, row, all[1..], types[1..]) == [];
    } else {
      EncodeAppend(x, n, rows[0], rows[1..], row);
      assert all[1..] == rows[1..] + [row];
      assert types[1..] == Zeros(|rows|) && Zeros(|rows|)[1..] == Zeros(|rows| - 1);
      var head := [0] + Bytes(rows[0]);
      var short := EncodeRows(x, n, rows[0], rows[1..], Zeros(|rows| - 1));
      assert head + (short + [0] + Bytes(row)) == head + short + [0] + Bytes(row);
    }
  }

  lemma {:induction false} ScanlinesEncode(image: seq<byte>, side: nat, y: nat)
    requires y <= side && |image| == Total(side, side)
    ensures W.Scanlines(image, side, y) == EncodeRows(side, 1, ZeroRow(side, 1), Rows(image, side, y), Zeros(y))
  {
    hide EncodeRows, Bytes, Pixels, Total, ZeroRow;
    ZeroRowIs(side, 1);
    if y == 0 {
      EncodeNothing(side);
    } else {
      var k: nat := y - 1;
      ScanlinesEncode(image, side, k);
      TotalStep(k, side, side);
      var line := image[Total(k, side)..Total(y, side)];
      PixelsAreSingles(line);
      assert IsRow(Rows(image, side, y)[k], side, 1);
      EncodeAppend(side, 1, ZeroRow(side, 1), Rows(image, side, k), Pixels(line, 1));
    }
  }

  lemma EncodeNothing(x: nat)
    ensures EncodeRows(x, 1, ZeroRow(x, 1), [], Zeros(0)) == []
  {
  }

  lemma {:induction false} FlatRows(image: seq<byte>, side: nat, y: nat)
    requires y <= side && |image| == Total(side, side)
    ensures Total(y, side) <= |image|
    ensures Flat(Rows(image, side, y), false) == Singles(image[..Total(y, side)])
  {
    hide Flat, Bytes, Pixels, Total, LaidRow, IsRow;
    NothingLaid(side, false);
    if y > 0 {
      var k: nat := y - 1;
      FlatRows(image, side, k);
      TotalStep(k, side, side);
      var line := image[Total(k, side)..Total(y, side)];
      PixelsAreSingles(line);
      LastRow(Rows(image, side, k), Pixels(line, 1), false);
      LaidPlain(Pixels(line, 1));
      assert Singles(image[..Total(y, side)]) == Singles(image[..Total(k, side)]) + Singles(line);
    }
  }

  lemma LaidPlain(row: Row)
    ensures LaidRow(row, false) == row
  {
  }

  /** The rows come back out of the scanlines. */
  lemma ImageOfScanlines(image: seq<byte>, side: nat)
    requires |image| == Total(side, side)
    ensures forall alpha ::
              A.Image(W.Scanlines(image, side, side), 1, alpha, side, side, false) ==
                Attempt(Complete, Rows(image, side, side))
  {
    hide DecodeRows, EncodeRows, Bytes, Pixels, Total, Rows, IsRow, AreRows, W.Scanlines, ZeroRow, RowsFrom;
    var raw := W.Scanlines(image, side, side);
    ScanlinesEncode(image, side, side);
    TotalOnes(side);
    ZeroRowIs(side, 1);
    DecodeEncodeRows(side, 1, ZeroRow(side, 1), Rows(image, side, side), Zeros(side), []);
    assert raw + [] == raw && raw[0..] == raw;
    EnoughData(raw, 0, side, 1, side, ZeroRow(side, 1));
  }

  // ---------- the whole file ----------

  lemma HeaderBytes(s: seq<byte>, p: nat, side: nat)
    requires 1 <= side < 256 && p + 13 <= |s| && s[p..p + 13] == W.HeaderData(side)
    ensures R.U32(s, p) == side && R.U32(s, p + 4) == side
    ensures ByteAt(s, p + 8) == 8 && ByteAt(s, p + 9) == 0 && ByteAt(s, p + 10) == 0 && ByteAt(s, p + 11) == 0
    ensures ByteAt(s, p + 12) == 0
  {
    forall i | 0 <= i < 13
      ensures ByteAt(s, p + i) == W.HeaderData(side)[i]
    {
      assert s[p..p + 13][i] == s[p + i];
    }
  }

  lemma HeaderFields(s: seq<byte>, p: nat, side: nat)
    requires 1 <= side < 256 && p + 13 <= |s| && s[p..p + 13] == W.HeaderData(side)
    ensures R.ReadHeader(s, p) == R.Good(R.Header(side, side, 1, false))
  {
    hide R.U32, ByteAt, W.HeaderData;
    HeaderBytes(s, p, side);
    Fits(side);
  }

  lemma Fits(side: nat)
    requires 1 <= side < 256
    ensures 0x4000_0000 / side / 1 >= side
  {
    var q, r := 0x4000_0000 / side, 0x4000_0000 % side;
    assert q * side + r == 0x4000_0000;
    if q < 256 { MulLe(q, 256, side, 256); }
  }

  lemma MulLe(a: nat, b: nat, c: nat, d: nat)
    requires a <= b && c <= d
    ensures a * c <= b * d
  {
    assert a * c <= b * c <= b * d;
  }

  /** The chunks of the file, one after the other. */
  lemma FileChunks(image: seq<byte>, side: nat)
    requires side < 256 && |image| == Total(side, side)
    ensures var s, data := W.PngFile(image, side), W.ZlibData(image, side);
            && |s| == 57 + |data| && 0 < |data| < 0x2_0000 && s[..8] == R.SIGNATURE
            && R.U32(s, 8) == 13 && R.U32(s, 12) == R.IHDR && s[16..29] == W.HeaderData(side)
            && R.U32(s, 33) == |data| && R.U32(s, 37) == R.IDAT && s[41..41 + |data|] == data
            && R.U32(s, 45 + |data|) == 0 && R.U32(s, 49 + |data|) == R.IEND
  {
    hide W.Chunk, W.ZlibData, W.HeaderData, R.U32, Total, W.ImageBytes;
    var s, data := W.PngFile(image, side), W.ZlibData(image, side);
    W.ImageBytesFit(side);
    var ihdr, idat, iend := W.Chunk(W.IHDR, W.HeaderData(side)), W.Chunk(W.IDAT, data), W.Chunk(W.IEND, []);
    assert s[8..] == ihdr + (idat + iend);
    ChunkParts(s, 8, W.IHDR, W.HeaderData(side), idat + iend);
    ChunkParts(s, 33, W.IDAT, data, iend);
    assert iend + [] == iend;
    ChunkParts(s, 45 + |data|, W.IEND, [], []);
  }

  /** For every image and every number of components asked for, reading the written file gives back the image. */
  lemma ReadWritten(image: seq<byte>, side: nat, reqComp: nat)
    requires 1 <= side < 256 && |image| == Total(side, side)
    ensures R.Read(W.PngFile(image, side), reqComp) ==
            R.Picture(R.Header(side, side, 1, false), R.AddsAlpha(1, reqComp), Rows(image, side, side))
    ensures Bytes(Flat(Rows(image, side, side), false)) == image
  {
    hide W.PngFile, W.ZlibData, W.HeaderData, W.Scanlines, R.U32, Total, W.ImageBytes, S.Inflate, A.Image, R.ReadHeader,
         Rows;
    var s, data := W.PngFile(image, side), W.ZlibData(image, side);
    FileChunks(image, side);
    HeaderFields(s, 16, side);
    InflateStored(image, side);
    ImageOfScanlines(image, side);
    var h := R.Header(side, side, 1, false);
    var picture := R.Picture(h, R.AddsAlpha(1, reqComp), Rows(image, side, side));
    assert R.Finish(h, data, reqComp) == picture;
    assert [] + data == data;
    assert R.Chunks(s, 45 + |data|, Some(h), data, reqComp) == picture;
    assert R.Chunks(s, 33, Some(h), [], reqComp) == picture;
    FlatRows(image, side, side);
    assert image[..|image|] == image;
    PixelsAreSingles(image);
  }
}
