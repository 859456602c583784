/** The PNG writer of cgi/vsx-generate-qr.c, for a grayscale image of side by side pixels. */
module PngWriter {
  import opened Bits
  import opened Checksums
  import opened PngFilter

  // ---------- what is written ----------

  const SIGNATURE: seq<byte> := [0x89, 0x50, 0x4e, 0x47, 0x0d, 0x0a, 0x1a, 0x0a]
  const IHDR: seq<byte> := [73, 72, 68, 82]
  const IDAT: seq<byte> := [73, 68, 65, 84]
  const IEND: seq<byte> := [73, 69, 78, 68]

  const ONES := 0xffffffff
  const ZLIB_CMF := 8

  /** Four bytes as a number, the highest first. */
  function Number(a: nat, b: nat, c: nat, d: nat): nat {
    ((a * 256 + b) * 256 + c) * 256 + d
  }

  /** Big-endian order. */
  function Be32(x: nat): (r: seq<byte>)
    requires x < 0x1_0000_0000
    ensures |r| == 4
  {
    [x / 0x100_0000, x / 0x1_0000 % 256, x / 256 % 256, x % 256]
  }

  /** RFC 2083, section 3.2: length, type, data, and the CRC of type and data. */
  function Chunk(kind: seq<byte>, data: seq<byte>): (r: seq<byte>)
    requires |data| < 0x1_0000_0000
    ensures |r| == 8 + |kind| + |data|
  {
    CrcFits(kind + data);
    Be32(|data|) + kind + data + Be32(Crc(kind + data))
  }

  /** The bytes of the image, with the filter byte of each scanline. */
  function ImageBytes(side: nat): nat {
    Total(side, side + 1)
  }

  lemma ImageBytesFit(side: nat)
    requires side < 256
    ensures ImageBytes(side) < 0x1_0000
  {
    TotalIsProduct(side, side + 1);
    assert side * (side + 1) <= 255 * 256 by {
      assert side * (side + 1) <= side * 256;
    }
  }

  function HeaderData(side: nat): (r: seq<byte>)
    requires side < 256
    ensures |r| == 13
  {
    [0, 0, 0, side, 0, 0, 0, side, 8, 0, 0, 0, 0]
  }

  /** The zlib header and the header of one stored block. */
  function ZlibHeader(side: nat): (r: seq<byte>)
    requires side < 256
    ensures |r| == 7
  {
    ImageBytesFit(side);
    var n := ImageBytes(side);
    [ZLIB_CMF, 31 - ZLIB_CMF * 256 % 31, 1, n % 256, n / 256, 255 - n % 256, 255 - n / 256]
  }

  /** The first y scanlines, each after a filter byte of 0. */
  function Scanlines(image: seq<byte>, side: nat, y: nat): (r: seq<byte>)
    requires y <= side && |image| == Total(side, side)
    ensures |r| == Total(y, side + 1)
  {
    if y == 0 then [] else
      TotalStep(y - 1, side, side);
      Scanlines(image, side, y - 1) + [0] + image[Total(y - 1, side)..Total(y, side)]
  }

  function ZlibData(image: seq<byte>, side: nat): (r: seq<byte>)
    requires side < 256 && |image| == Total(side, side)
    ensures |r| == 7 + ImageBytes(side) + 4 < 0x1_0000_0000
  {
    ImageBytesFit(side);
    ZlibHeader(side) + Scanlines(image, side, side) + Be32(Adler(Scanlines(image, side, side)))
  }

  function PngFile(image: seq<byte>, side: nat): seq<byte>
    requires side < 256 && |image| == Total(side, side)
  {
    SIGNATURE + Chunk(IHDR, HeaderData(side)) + Chunk(IDAT, ZlibData(image, side)) + Chunk(IEND, [])
  }

  /** PNG_SIZE, the size that the header declares. */
  function PngSize(side: nat): nat {
    8 + (12 + 13) + (12 + (7 + ImageBytes(side) + 4)) + 12
  }

  // ---------- what a reader could check ----------

  /** The type, the data and the checksum read backwards leave the register in the state that stands for no error. */
  lemma ChunkChecks(kind: seq<byte>, data: seq<byte>)
    requires |kind| == 4 && |data| < 0x1_0000_0000
    ensures var s, n := Chunk(kind, data), |data|;
            && |s| == n + 12 && s[4..8] == kind && s[8..8 + n] == data
            && n == Number(s[0], s[1], s[2], s[3])
            && Register(0xffffffff, s[4..8 + n] + [s[n + 11], s[n + 10], s[n + 9], s[n + 8]]) == Rounds(0xffffffff, 32)
  {
    hide Register, Rounds, Crc, Be32;
    CrcFits(kind + data);
    var s, n, crc := Chunk(kind, data), |data|, Crc(kind + data);
    var size, sum := Be32(n), Be32(crc);
    assert s == size + (kind + data) + sum;
    assert s[4..8 + n] == kind + data;
    assert s[n + 8] == sum[0] && s[n + 9] == sum[1] && s[n + 10] == sum[2] && s[n + 11] == sum[3];
    Be32Number(n);
    Backwards(crc);
    Residue(kind + data);
  }

  lemma Be32Number(x: nat)
    requires x < 0x1_0000_0000
    ensures var r := Be32(x); x == Number(r[0], r[1], r[2], r[3])
  {
    Digits(x);
  }

  lemma Backwards(x: nat)
    requires x < 0x1_0000_0000
    ensures [Be32(x)[3], Be32(x)[2], Be32(x)[1], Be32(x)[0]] == LowFirst(x)
  {
  }

  /** The last four bytes of the stream are the Adler-32 of what the stored block holds. */
  lemma StreamChecks(image: seq<byte>, side: nat)
    requires side < 256 && |image| == Total(side, side)
    ensures var s := ZlibData(image, side);
            var n := |s| - 11;
            && n == Number(0, 0, s[4], s[3]) && Adler(s[7..7 + n]) == Number(s[n + 7], s[n + 8], s[n + 9], s[n + 10])
  {
    hide Scanlines, Be32, Adler, Total;
    ImageBytesFit(side);
    var lines := Scanlines(image, side, side);
    var s, sum := ZlibData(image, side), Be32(Adler(lines));
    assert s == ZlibHeader(side) + lines + sum;
    assert s[7..7 + |lines|] == lines;
    ImageBytesIs(side);
    Be32Number(Adler(lines));
    assert s[|lines| + 7] == sum[0] && s[|lines| + 8] == sum[1];
    assert s[|lines| + 9] == sum[2] && s[|lines| + 10] == sum[3];
    assert s[3] == ImageBytes(side) % 256 && s[4] == ImageBytes(side) / 256;
  }

  // ---------- the writer ----------

  class ChunkWriter {
    const png: array<byte>
    const table: seq<nat>
    var pos: nat
    var crc: nat

    constructor (png: array<byte>, table: seq<nat>)
      ensures this.png == png && this.table == table && pos == 0
    {
      this.png, this.table, pos, crc := png, table, 0, 0;
    }

    ghost predicate Ready()
      reads this`pos
    {
      IsTable(table) && pos <= png.Length
    }

    /** In the middle of a chunk of which `data` has been written. */
    ghost predicate Writing(before: seq<byte>, kind: seq<byte>, data: seq<byte>)
      reads this, png
    {
      Ready() && png[..pos] == before + data && crc == Register(ONES, kind + data)
    }

    method WriteDataNoCrc(data: seq<byte>)
      requires Ready() && pos + |data| <= png.Length
      modifies this`pos, png
      ensures Ready() && pos == old(pos) + |data| && png[..pos] == old(png[..pos]) + data
    {
      ghost var before := png[..pos];
      forall i | 0 <= i < |data| {
        png[pos + i] := data[i];
      }
      assert png[..pos] == before;
      assert png[..pos + |data|] == before + data;
      pos := pos + |data|;
    }

    method WriteData(data: seq<byte>)
      requires Ready() && pos + |data| <= png.Length
      modifies this`pos, this`crc, png
      ensures Ready() && pos == old(pos) + |data| && png[..pos] == old(png[..pos]) + data
      ensures crc == Register(old(crc), data)
    {
      hide Register, IsTable;
      crc := UpdateCrc(table, crc, data);
      WriteDataNoCrc(data);
    }

    /** Adds to the data of a chunk. */
    method Append(data: seq<byte>, ghost before: seq<byte>, ghost kind: seq<byte>, ghost sofar: seq<byte>)
      requires Writing(before, kind, sofar) && pos + |data| <= png.Length
      modifies this`pos, this`crc, png
      ensures Writing(before, kind, sofar + data) && pos == old(pos) + |data|
    {
      hide Register;
      WriteData(data);
      RegisterConcat(ONES, kind + sofar, data);
      assert kind + sofar + data == kind + (sofar + data);
      assert before + sofar + data == before + (sofar + data);
    }

    method StartChunk(kind: seq<byte>, length: nat)
      requires Ready() && length < 0x1_0000_0000 && pos + 4 + |kind| <= png.Length
      modifies this`pos, this`crc, png
      ensures Writing(old(png[..pos]) + Be32(length) + kind, kind, []) && pos == old(pos) + 4 + |kind|
    {
      hide Register, Be32;
      WriteDataNoCrc(Be32(length));
      crc := ONES;
      WriteData(kind);
      assert kind + [] == kind;
      assert png[..pos] + [] == png[..pos];
    }

    method EndChunk(ghost before: seq<byte>, ghost kind: seq<byte>, ghost data: seq<byte>)
      requires |data| < 0x1_0000_0000 && Writing(before + Be32(|data|) + kind, kind, data) && pos + 4 <= png.Length
      modifies this`pos, png
      ensures Ready() && pos == old(pos) + 4 && png[..pos] == before + Chunk(kind, data)
    {
      hide Register, Xor, Be32;
      CrcFits(kind + data);
      var finalCrc := Xor(crc, ONES);
      WriteDataNoCrc(Be32(finalCrc));
      assert before + Be32(|data|) + kind + data + Be32(finalCrc) ==
             before + (Be32(|data|) + kind + data + Be32(finalCrc));
    }

    method WriteIhdr(side: nat)
      requires side < 256 && Ready() && pos + 25 <= png.Length
      modifies this`pos, this`crc, png
      ensures Ready() && pos == old(pos) + 25 && png[..pos] == old(png[..pos]) + Chunk(IHDR, HeaderData(side))
    {
      hide Register, Chunk, Be32;
      ghost var before := png[..pos];
      StartChunk(IHDR, |HeaderData(side)|);
      ghost var start := before + Be32(13) + IHDR;
      Append(HeaderData(side), start, IHDR, []);
      assert [] + HeaderData(side) == HeaderData(side);
      EndChunk(before, IHDR, HeaderData(side));
    }

    method WriteIend()
      requires Ready() && pos + 12 <= png.Length
      modifies this`pos, this`crc, png
      ensures Ready() && pos == old(pos) + 12 && png[..pos] == old(png[..pos]) + Chunk(IEND, [])
    {
      hide Register, Chunk, Be32;
      ghost var before := png[..pos];
      StartChunk(IEND, 0);
      EndChunk(before, IEND, []);
    }

    /** The loop over the scanlines. */
    method WriteScanlines(image: seq<byte>, side: nat, ghost before: seq<byte>) returns (fischer: nat)
      requires side < 256 && |image| == Total(side, side)
      requires Writing(before, IDAT, ZlibHeader(side)) && pos + ImageBytes(side) <= png.Length
      modifies this`pos, this`crc, png
      ensures pos == old(pos) + ImageBytes(side) && fischer == Adler(Scanlines(image, side, side))
      ensures Writing(before, IDAT, ZlibHeader(side) + Scanlines(image, side, side))
    {
      hide *;
      fischer := 1;
      ghost var sofar := ZlibHeader(side);
      ghost var lines: seq<byte> := [];
      var at: nat := 0;
      NoScanlines(image, side);
      assert sofar + lines == sofar;
      assert ImageBytes(side) == Total(side, side + 1) by { ImageBytesIs(side); }
      for y := 0 to side
        invariant at == Total(y, side) && pos == old(pos) + Total(y, side + 1)
        invariant lines == Scanlines(image, side, y) && fischer == Adler(lines)
        invariant Writing(before, IDAT, sofar + lines)
      {
        TotalStep(y, side, side);
        TotalStep(y, side, side + 1);
        ScanlinesStep(image, side, y);
        var filter := [0];
        var scanline := image[at..at + side];
        fischer := UpdateFischer(fischer, filter, lines);
        Append(filter, before, IDAT, sofar + lines);
        fischer := UpdateFischer(fischer, scanline, lines + filter);
        Append(scanline, before, IDAT, sofar + lines + filter);
        assert sofar + lines + filter + scanline == sofar + (lines + filter + scanline);
        lines := lines + filter + scanline;
        at := at + side;
      }
    }

    method WriteIdat(image: seq<byte>, side: nat)
      requires side < 256 && |image| == Total(side, side)
      requires Ready() && pos + (12 + (7 + ImageBytes(side) + 4)) <= png.Length
      modifies this`pos, this`crc, png
      ensures Ready() && pos == old(pos) + (12 + (7 + ImageBytes(side) + 4))
      ensures png[..pos] == old(png[..pos]) + Chunk(IDAT, ZlibData(image, side))
    {
      hide *;
      assert |IDAT| == 4 by { KindLengths(); }
      ghost var before, data := png[..pos], ZlibData(image, side);
      ZlibDataIs(image, side);
      StartChunk(IDAT, 7 + ImageBytes(side) + 4);
      ghost var start := before + Be32(|data|) + IDAT;
      Append(ZlibHeader(side), start, IDAT, []);
      assert [] + ZlibHeader(side) == ZlibHeader(side);
      var fischer := WriteScanlines(image, side, start);
      Append(Be32(fischer), start, IDAT, ZlibHeader(side) + Scanlines(image, side, side));
      EndChunk(before, IDAT, data);
    }
  }

  lemma NoScanlines(image: seq<byte>, side: nat)
    requires |image| == Total(side, side)
    ensures Scanlines(image, side, 0) == [] && Adler([]) == 1 && Total(0, side) == 0 && Total(0, side + 1) == 0
  {
  }

  lemma ImageBytesIs(side: nat)
    ensures ImageBytes(side) == Total(side, side + 1)
  {
  }

  lemma KindLengths()
    ensures |IHDR| == 4 && |IDAT| == 4 && |IEND| == 4
  {
  }

  lemma ScanlinesStep(image: seq<byte>, side: nat, y: nat)
    requires y < side && |image| == Total(side, side)
    ensures Total(y, side) + side <= |image|
    ensures Scanlines(image, side, y + 1) ==
            Scanlines(image, side, y) + [0] + image[Total(y, side)..Total(y, side) + side]
  {
    TotalStep(y, side, side);
  }

  lemma ZlibDataIs(image: seq<byte>, side: nat)
    requires side < 256 && |image| == Total(side, side)
    ensures ZlibData(image, side) ==
            ZlibHeader(side) + Scanlines(image, side, side) + Be32(Adler(Scanlines(image, side, side)))
  {
  }

  /** The file is the one specified, and the writer ends exactly at the declared size. */
  method WritePng(image: seq<byte>, side: nat, png: array<byte>)
    requires side < 256 && |image| == Total(side, side) && png.Length == PngSize(side)
    modifies png
    ensures png[..] == PngFile(image, side)
  {
    hide Chunk, ZlibData, HeaderData, Total, IsTable;
    var table := MakeTable();
    var writer := new ChunkWriter(png, table);
    writer.WriteDataNoCrc(SIGNATURE);
    writer.WriteIhdr(side);
    writer.WriteIdat(image, side);
    writer.WriteIend();
    assert writer.pos == png.Length;
    assert png[..png.Length] == png[..];
  }
}
