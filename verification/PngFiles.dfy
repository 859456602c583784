/** PNG files as RFC 2083 lays them out, for images of any shape, and what client/stb_image.h makes of them. */
module PngFiles {
  import opened Bits
  import opened Options
  import opened BitStream
  import opened PngFilter
  import opened PngUnfilter
  import W = PngWriter
  import R = PngReader
  import S = InflateSpec
  import A = Adam7
  import D = Deflate
  import T = RoundTrip

  /** Length, type, data, and a checksum that the reader does not look at. */
  function ChunkBytes(kind: seq<byte>, data: seq<byte>, crc: seq<byte>): (r: seq<byte>)
    requires |data| < 0x1_0000_0000
    ensures |r| == 4 + |kind| + |data| + |crc|
  {
    W.Be32(|data|) + kind + data + crc
  }

  /** The type of a chunk, one byte for each letter. */
  function Letters(name: string): (r: seq<byte>)
    ensures |r| == |name|
  {
    seq(|name|, i requires 0 <= i < |name| => name[i] as int % 256)
  }

  /** A part of the compressed data, or a chunk that a reader may skip. */
  datatype Piece = Data(bytes: seq<byte>, crc: seq<byte>) | Other(kind: seq<byte>, bytes: seq<byte>, crc: seq<byte>)

  /** The first letter is a small one, and the chunk is not the one for transparency. */
  predicate Skippable(kind: seq<byte>) {
    |kind| == 4 && Bit(kind[0], 5) == 1 && kind != Letters("tRNS")
  }

  predicate PieceOk(piece: Piece) {
    |piece.bytes| < 0x8000_0000 && |piece.crc| == 4 && (piece.Other? ==> Skippable(piece.kind))
  }

  ghost predicate PiecesOk(pieces: seq<Piece>) {
    forall i :: 0 <= i < |pieces| ==> PieceOk(pieces[i])
  }

  function PieceBytes(piece: Piece): (r: seq<byte>)
    requires PieceOk(piece)
    ensures |r| == 12 + |piece.bytes|
  {
    ChunkBytes(if piece.Data? then Letters("IDAT") else piece.kind, piece.bytes, piece.crc)
  }

  function AllBytes(pieces: seq<Piece>): seq<byte>
    requires PiecesOk(pieces)
  {
    if pieces == [] then [] else PieceBytes(pieces[0]) + AllBytes(pieces[1..])
  }

  /** The compressed data, joined. */
  function Joined(pieces: seq<Piece>): seq<byte> {
    if pieces == [] then []
    else (if pieces[0].Data? then pieces[0].bytes else []) + Joined(pieces[1..])
  }

  lemma ChunkRead(s: seq<byte>, p: nat, kind: seq<byte>, data: seq<byte>, crc: seq<byte>, rest: seq<byte>)
    requires |kind| == 4 && |crc| == 4 && |data| < 0x1_0000_0000
    requires p <= |s| && s[p..] == ChunkBytes(kind, data, crc) + rest
    ensures p + 12 + |data| <= |s| && R.U32(s, p) == |data|
    ensures R.U32(s, p + 4) == R.Tag(kind[0], kind[1], kind[2], kind[3])
    ensures s[p + 8..p + 8 + |data|] == data && s[p + 12 + |data|..] == rest
  {
    hide W.Be32, R.U32;
    var tail := s[p..];
    var size := W.Be32(|data|);
    assert tail == size + kind + data + crc + rest;
    T.Part(s, p, 0, 4, size);
    T.Part(s, p, 4, 4, kind);
    T.Part(s, p, 8, |data|, data);
    assert s[p + 12 + |data|..] == tail[12 + |data|..] == rest;
    T.Be32RoundTrip(s, p, |data|);
    T.TagOf(s, p + 4, kind);
  }

  /** The types as numbers. */
  lemma Tags()
    ensures R.Tag('I' as int, 'H' as int, 'D' as int, 'R' as int) == R.IHDR
    ensures R.Tag('I' as int, 'D' as int, 'A' as int, 'T' as int) == R.IDAT
    ensures R.Tag('I' as int, 'E' as int, 'N' as int, 'D' as int) == R.IEND
    ensures R.IDAT !in {R.IHDR, R.PLTE, R.TRNS, R.CGBI} && R.IEND !in {R.IHDR, R.IDAT, R.PLTE, R.TRNS, R.CGBI}
  {
  }

  /** A chunk that may be skipped is none of those that mean something. */
  lemma SkippableTag(kind: seq<byte>)
    requires Skippable(kind)
    ensures var tag := R.Tag(kind[0], kind[1], kind[2], kind[3]);
            && R.Ancillary(tag)
            && tag !in {R.IHDR, R.IDAT, R.IEND, R.PLTE, R.TRNS, R.CGBI}
  {
    var a := kind[0];
    LowModulo(a, 5);
    assert Pow2(5) == 32;
    var tag := R.Tag(kind[0], kind[1], kind[2], kind[3]);
    assert tag / 0x100_0000 == a;
    assert tag / 0x2000_0000 == a / 32;
    if tag == R.TRNS { Transparency(kind); }
  }

  lemma Transparency(kind: seq<byte>)
    requires |kind| == 4 && R.Tag(kind[0], kind[1], kind[2], kind[3]) == R.TRNS
    ensures kind == Letters("tRNS")
  {
    Digits256(kind[0], kind[1], kind[2], kind[3], 116, 82, 78, 83);
  }

  lemma Digits256(a: byte, b: byte, c: byte, d: byte, a': byte, b': byte, c': byte, d': byte)
    requires R.Tag(a, b, c, d) == R.Tag(a', b', c', d')
    ensures a == a' && b == b' && c == c' && d == d'
  {
  }

  lemma AllSplit(pieces: seq<Piece>)
    requires PiecesOk(pieces) && pieces != []
    ensures PieceOk(pieces[0]) && PiecesOk(pieces[1..])
    ensures AllBytes(pieces) == PieceBytes(pieces[0]) + AllBytes(pieces[1..])
  {
  }

  /** One piece adds its data, or nothing. */
  lemma PieceRead(s: seq<byte>, p: nat, piece: Piece, rest: seq<byte>, head: R.Header, data: seq<byte>, reqComp: nat)
    requires PieceOk(piece) && head.n > 0 && p <= |s| && s[p..] == PieceBytes(piece) + rest
    ensures p + |PieceBytes(piece)| <= |s| && s[p + |PieceBytes(piece)|..] == rest
    ensures R.Chunks(s, p, Some(head), data, reqComp) ==
            R.Chunks(s, p + |PieceBytes(piece)|, Some(head),
                     data + if piece.Data? then piece.bytes else [], reqComp)
  {
    hide R.U32, R.Finish, R.ReadHeader, ChunkBytes, R.Ancillary, R.Tag, Skippable;
    Tags();
    if piece.Data? {
      ChunkRead(s, p, Letters("IDAT"), piece.bytes, piece.crc, rest);
    } else {
      SkippableTag(piece.kind);
      KindLength(piece.kind);
      ChunkRead(s, p, piece.kind, piece.bytes, piece.crc, rest);
      assert data + [] == data;
    }
  }

  lemma KindLength(kind: seq<byte>)
    requires Skippable(kind)
    ensures |kind| == 4
  {
  }

  /** All pieces together. */
  lemma {:induction false} PiecesRead(s: seq<byte>, p: nat, pieces: seq<Piece>, rest: seq<byte>, head: R.Header,
                                      data: seq<byte>, reqComp: nat)
    requires PiecesOk(pieces) && head.n > 0 && p <= |s| && s[p..] == AllBytes(pieces) + rest
    ensures p + |AllBytes(pieces)| <= |s| && s[p + |AllBytes(pieces)|..] == rest
    ensures R.Chunks(s, p, Some(head), data, reqComp) ==
            R.Chunks(s, p + |AllBytes(pieces)|, Some(head), data + Joined(pieces), reqComp)
    decreases |pieces|
  {
    hide R.Chunks, PieceBytes, PieceOk, AllBytes, PiecesOk;
    if pieces == [] {
      NoPieces();
      assert [] + rest == rest && data + [] == data;
    } else {
      AllSplit(pieces);
      var first, more := PieceBytes(pieces[0]), AllBytes(pieces[1..]);
      var added := if pieces[0].Data? then pieces[0].bytes else [];
      assert first + more + rest == first + (more + rest);
      PieceRead(s, p, pieces[0], more + rest, head, data, reqComp);
      PiecesRead(s, p + |first|, pieces[1..], rest, head, data + added, reqComp);
      assert data + (added + Joined(pieces[1..])) == data + added + Joined(pieces[1..]);
    }
  }

  lemma NoPieces()
    ensures PiecesOk([]) && AllBytes([]) == [] && Joined([]) == []
  {
  }

  // ---------- the header ----------

  /** Gray, gray with alpha, colour, colour with alpha. */
  function ColourType(n: nat): byte
    requires 1 <= n <= 4
  {
    match n
    case 1 => 0
    case 2 => 4
    case 3 => 2
    case _ => 6
  }

  /** Width, height, depth, colour type, compression, filter and interlace method. */
  function HeaderBytes(w: nat, h: nat, depth: byte, colour: byte, comp: byte, filter: byte, interlace: byte)
      : (r: seq<byte>)
    requires w < 0x1_0000_0000 && h < 0x1_0000_0000
    ensures |r| == 13
  {
    W.Be32(w) + W.Be32(h) + [depth, colour, comp, filter, interlace]
  }

  /** Not empty, not too wide or too high, and at most 2^30 bytes in all. */
  predicate SizeOk(w: nat, h: nat, n: nat) {
    0 < w <= 0x100_0000 && 0 < h <= 0x100_0000 && w * n * h <= 0x4000_0000
  }

  lemma FieldsRead(s: seq<byte>, p: nat, w: nat, h: nat, depth: byte, colour: byte, comp: byte, filter: byte,
                   interlace: byte)
    requires w < 0x1_0000_0000 && h < 0x1_0000_0000 && p + 13 <= |s|
    requires s[p..p + 13] == HeaderBytes(w, h, depth, colour, comp, filter, interlace)
    ensures R.U32(s, p) == w && R.U32(s, p + 4) == h
    ensures ByteAt(s, p + 8) == depth && ByteAt(s, p + 9) == colour && ByteAt(s, p + 10) == comp
    ensures ByteAt(s, p + 11) == filter && ByteAt(s, p + 12) == interlace
  {
    hide W.Be32, R.U32;
    var all := HeaderBytes(w, h, depth, colour, comp, filter, interlace);
    var t := s[p..p + 13];
    assert all[0..4] == W.Be32(w) && all[4..8] == W.Be32(h);
    Slice(s, p, 13, 0, 4);
    Slice(s, p, 13, 4, 8);
    T.Be32RoundTrip(s, p, w);
    T.Be32RoundTrip(s, p + 4, h);
    assert t[8] == s[p + 8] && t[9] == s[p + 9] && t[10] == s[p + 10] && t[11] == s[p + 11] && t[12] == s[p + 12];
  }

  lemma Slice(s: seq<byte>, p: nat, n: nat, i: nat, j: nat)
    requires p + n <= |s| && i <= j <= n
    ensures s[p..p + n][i..j] == s[p + i..p + j]
  {
    var a, b := s[p..p + n][i..j], s[p + i..p + j];
    forall k | 0 <= k < |a|
      ensures a[k] == b[k]
    {
    }
  }

  /** Dividing twice and comparing is multiplying and comparing. */
  lemma QuotientsFit(w: nat, n: nat, h: nat)
    requires w > 0 && n > 0
    ensures 0x4000_0000 / w / n >= h <==> w * n * h <= 0x4000_0000
  {
    var a, b := 0x4000_0000 / w, 0x4000_0000 / w / n;
    FloorFits(0x4000_0000, w, n * h);
    FloorFits(a, n, h);
    assert w * (n * h) == w * n * h;
  }

  /** h fits in the quotient exactly when d * h fits in the number. */
  lemma FloorFits(x: nat, d: nat, h: nat)
    requires d > 0
    ensures x / d >= h <==> d * h <= x
  {
    var q, r := x / d, x % d;
    assert x == d * q + r;
    MulGrows(d, q, h);
    MulGrows(d, h, q);
  }

  /** What the reader makes of a header: the picture's shape for exactly the headers it supports. */
  lemma HeaderRead(s: seq<byte>, p: nat, w: nat, h: nat, depth: byte, colour: byte, comp: byte, filter: byte,
                   interlace: byte)
    requires w < 0x1_0000_0000 && h < 0x1_0000_0000 && p + 13 <= |s|
    requires s[p..p + 13] == HeaderBytes(w, h, depth, colour, comp, filter, interlace)
    ensures forall n: nat | 1 <= n <= 4 ::
              depth == 8 && colour == ColourType(n) && comp == 0 && filter == 0 && interlace <= 1 && SizeOk(w, h, n) ==>
                R.ReadHeader(s, p) == R.Good(R.Header(w, h, n, interlace == 1))
    ensures R.ReadHeader(s, p).Good? ==>
              depth == 8 && comp == 0 && filter == 0 && interlace <= 1
              && exists n: nat | 1 <= n <= 4 :: colour == ColourType(n) && SizeOk(w, h, n)
    ensures R.ReadHeader(s, p).Palette? <==> depth == 8 && colour == 3 && w <= 0x100_0000 && h <= 0x100_0000
  {
    hide R.U32, ByteAt, HeaderBytes;
    FieldsRead(s, p, w, h, depth, colour, comp, filter, interlace);
    if w > 0 {
      QuotientsFit(w, 1, h);
      QuotientsFit(w, 2, h);
      QuotientsFit(w, 3, h);
      QuotientsFit(w, 4, h);
    }
    if R.ReadHeader(s, p).Good? {
      assert colour in {0, 2, 4, 6};
      var n := if colour == 0 then 1 else if colour == 4 then 2 else if colour == 2 then 3 else 4;
      assert colour == ColourType(n) && SizeOk(w, h, n);
    }
  }

  // ---------- files ----------

  /** The signature, the header, the pieces, the end, and whatever follows. */
  function FileBytes(header: seq<byte>, pieces: seq<Piece>, crc: seq<byte>, tail: seq<byte>): seq<byte>
    requires |header| == 13 && PiecesOk(pieces)
  {
    [137] + Letters("PNG") + [13, 10, 26, 10] + (ChunkBytes(Letters("IHDR"), header, crc) +
      (AllBytes(pieces) + (ChunkBytes(Letters("IEND"), [], crc) + tail)))
  }

  /** Reading starts behind the header chunk, at byte 33. */
  lemma StartRead(s: seq<byte>, header: seq<byte>, crc: seq<byte>, rest: seq<byte>, reqComp: nat)
    requires |header| == 13 && |crc| == 4
    requires s == [137] + Letters("PNG") + [13, 10, 26, 10] + (ChunkBytes(Letters("IHDR"), header, crc) + rest)
    ensures |s| >= 33 && s[33..] == rest && s[16..29] == header
    ensures R.Read(s, reqComp) ==
            match R.ReadHeader(s, 16)
            case Good(h) => R.Chunks(s, 33, Some(h), [], reqComp)
            case Bad => R.Rejected
            case Palette => R.Outside
  {
    hide R.U32, R.ReadHeader, ChunkBytes, R.Tag;
    Tags();
    assert s[8..] == ChunkBytes(Letters("IHDR"), header, crc) + rest;
    assert s[..8] == R.SIGNATURE;
    ChunkRead(s, 8, Letters("IHDR"), header, crc, rest);
  }

  /** At the end of the pieces the data collected is decoded. */
  lemma FileRead(header: seq<byte>, h: R.Header, pieces: seq<Piece>, crc: seq<byte>, tail: seq<byte>, reqComp: nat)
    requires |header| == 13 && PiecesOk(pieces) && |crc| == 4 && h.n > 0
    requires var s := FileBytes(header, pieces, crc, tail);
             |s| >= 33 && s[16..29] == header ==> R.ReadHeader(s, 16) == R.Good(h)
    ensures R.Read(FileBytes(header, pieces, crc, tail), reqComp) ==
            if Joined(pieces) == [] then R.Rejected else R.Finish(h, Joined(pieces), reqComp)
  {
    hide R.U32, R.ReadHeader, ChunkBytes, R.Tag, AllBytes, Joined, PiecesOk, Letters, R.Finish;
    Tags();
    var s := FileBytes(header, pieces, crc, tail);
    var end := ChunkBytes(Letters("IEND"), [], crc) + tail;
    StartRead(s, header, crc, AllBytes(pieces) + end, reqComp);
    PiecesRead(s, 33, pieces, end, h, [], reqComp);
    var data := Joined(pieces);
    assert [] + data == data;
    LettersOf();
    ChunkRead(s, 33 + |AllBytes(pieces)|, Letters("IEND"), [], crc, tail);
  }

  lemma LettersOf()
    ensures Letters("IEND") == ['I' as int, 'E' as int, 'N' as int, 'D' as int]
  {
  }

  /** An alpha is added to gray when two components are asked for, and to colour when four are. */
  predicate Opaque(n: nat, reqComp: nat) {
    (n == 1 && reqComp == 2) || (n == 3 && reqComp == 4)
  }

  /** The data of a file is what is left when the header and the compressed data are known. */
  lemma Unpacked(h: R.Header, parts: seq<D.Part>, cmf: byte, flg: byte, tail: seq<byte>, raw: seq<byte>, reqComp: nat)
    requires 1 <= h.n <= 4 && reqComp <= 4 && parts != [] && D.PartsOk(parts, []) && D.ZlibHeader(cmf, flg)
    requires D.Meaning(parts, []) == raw
    ensures var image := A.Image(raw, h.n, Opaque(h.n, reqComp), h.w, h.h, h.interlaced);
            R.Finish(h, D.Stream(cmf, flg, parts, tail), reqComp) ==
            match image.ending
            case Complete => R.Picture(h, Opaque(h.n, reqComp), image.rows)
            case Refused => R.Rejected
            case PastData => R.Overrun
  {
    hide S.Inflate, D.Stream, A.Image, D.PartsOk, D.Meaning, D.ZlibHeader;
    D.InflateStream(cmf, flg, parts, tail);
  }

  // ---------- round trips ----------

  /** The scanlines of a plain image, with any filter on each row. */
  lemma PlainImage(img: seq<Row>, w: nat, h: nat, n: nat, types: seq<byte>, alpha: bool)
    requires n > 0 && |img| == h && AreRows(img, w, n) && |types| == h && Known(types)
    ensures IsRow(ZeroRow(w, n), w, n)
    ensures A.Image(EncodeRows(w, n, ZeroRow(w, n), img, types), n, alpha, w, h, false) == Attempt(Complete, img)
  {
    hide DecodeRows, EncodeRows, Total, IsRow, AreRows, ZeroRow, RowsFrom, Known;
    T.ZeroRowIs(w, n);
    var raw := EncodeRows(w, n, ZeroRow(w, n), img, types);
    DecodeEncodeRows(w, n, ZeroRow(w, n), img, types, []);
    assert raw + [] == raw && raw[0..] == raw;
    EnoughData(raw, 0, w, n, h, ZeroRow(w, n));
  }

  /** The file of an image: blocks of any kind that stand for its scanlines, cut into any data chunks, with any other
      chunks in between. */
  ghost predicate FileOf(pieces: seq<Piece>, raw: seq<byte>) {
    && PiecesOk(pieces)
    && exists cmf: byte, flg: byte, parts: seq<D.Part>, tail: seq<byte> ::
         && parts != [] && D.PartsOk(parts, []) && D.ZlibHeader(cmf, flg)
         && D.Meaning(parts, []) == raw && Joined(pieces) == D.Stream(cmf, flg, parts, tail)
  }

  lemma FileFinished(w: nat, h: nat, n: nat, interlace: byte, raw: seq<byte>, pieces: seq<Piece>, crc: seq<byte>,
                     tail: seq<byte>, reqComp: nat)
    requires 1 <= n <= 4 && SizeOk(w, h, n) && interlace <= 1 && FileOf(pieces, raw) && |crc| == 4 && reqComp <= 4
    ensures var image := A.Image(raw, n, Opaque(n, reqComp), w, h, interlace == 1);
            R.Read(FileBytes(HeaderBytes(w, h, 8, ColourType(n), 0, 0, interlace), pieces, crc, tail), reqComp) ==
            match image.ending
            case Complete => R.Picture(R.Header(w, h, n, interlace == 1), Opaque(n, reqComp), image.rows)
            case Refused => R.Rejected
            case PastData => R.Overrun
  {
    hide HeaderBytes, FileBytes, R.Finish, R.Read, R.ReadHeader, PiecesOk, Joined, D.PartsOk, D.Meaning, D.Stream,
         D.ZlibHeader, A.Image, Opaque;
    var header, picture := HeaderBytes(w, h, 8, ColourType(n), 0, 0, interlace), R.Header(w, h, n, interlace == 1);
    var s := FileBytes(header, pieces, crc, tail);
    if |s| >= 33 && s[16..29] == header { HeaderRead(s, 16, w, h, 8, ColourType(n), 0, 0, interlace); }
    FileRead(header, picture, pieces, crc, tail, reqComp);
    var cmf: byte, flg: byte, parts: seq<D.Part>, rest: seq<byte> :|
      && parts != [] && D.PartsOk(parts, []) && D.ZlibHeader(cmf, flg)
      && D.Meaning(parts, []) == raw && Joined(pieces) == D.Stream(cmf, flg, parts, rest);
    Unpacked(picture, parts, cmf, flg, rest, raw, reqComp);
    StreamNotEmpty(cmf, flg, parts, rest);
  }

  lemma StreamNotEmpty(cmf: byte, flg: byte, parts: seq<D.Part>, tail: seq<byte>)
    requires D.PartsOk(parts, [])
    ensures D.Stream(cmf, flg, parts, tail) != []
  {
    hide D.PartsOk, D.PartsBits, D.Pack;
  }

  /** Round trip: every image of a size that is accepted comes back out of every file that holds it. */
  lemma PlainFile(img: seq<Row>, w: nat, h: nat, n: nat, types: seq<byte>, pieces: seq<Piece>, crc: seq<byte>,
                  tail: seq<byte>, reqComp: nat)
    requires 1 <= n <= 4 && SizeOk(w, h, n) && |img| == h && AreRows(img, w, n) && |types| == h && Known(types)
    requires IsRow(ZeroRow(w, n), w, n) ==> FileOf(pieces, EncodeRows(w, n, ZeroRow(w, n), img, types))
    requires |crc| == 4 && reqComp <= 4
    ensures PiecesOk(pieces)
    ensures R.Read(FileBytes(HeaderBytes(w, h, 8, ColourType(n), 0, 0, 0), pieces, crc, tail), reqComp) ==
            R.Picture(R.Header(w, h, n, false), (n == 1 && reqComp == 2) || (n == 3 && reqComp == 4), img)
  {
    hide HeaderBytes, FileBytes, R.Read, A.Image, EncodeRows, AreRows, IsRow, ZeroRow, Known, SizeOk;
    PlainImage(img, w, h, n, types, Opaque(n, reqComp));
    FileFinished(w, h, n, 0, EncodeRows(w, n, ZeroRow(w, n), img, types), pieces, crc, tail, reqComp);
  }

  /** The same for interlaced images, except that an alpha is added to none but images of one pixel. */
  lemma InterlacedFile(img: seq<Row>, w: nat, h: nat, n: nat, types: seq<seq<byte>>, pieces: seq<Piece>, crc: seq<byte>,
                       tail: seq<byte>, reqComp: nat)
    requires 1 <= n <= 4 && SizeOk(w, h, n) && |img| == h && AreRows(img, w, n) && A.Typed(types, w, h)
    requires FileOf(pieces, A.Stream(img, w, h, n, types, 0)) && |crc| == 4 && reqComp <= 4
    ensures var alpha := (n == 1 && reqComp == 2) || (n == 3 && reqComp == 4);
            var o := R.Read(FileBytes(HeaderBytes(w, h, 8, ColourType(n), 0, 0, 1), pieces, crc, tail), reqComp);
            if alpha && !(w == 1 && h == 1) then o == R.Rejected || o == R.Overrun
            else o == R.Picture(R.Header(w, h, n, true), alpha, img)
  {
    hide HeaderBytes, FileBytes, R.Read, A.Interlaced, A.Stream, AreRows, A.Typed, FileOf;
    var raw := A.Stream(img, w, h, n, types, 0);
    A.InterlaceRestores(img, w, h, n, types);
    A.AlphaOnlyOnePixel(img, w, h, n, types);
    FileFinished(w, h, n, 1, raw, pieces, crc, tail, reqComp);
  }

  // ---------- refusals ----------

  /** Whatever else a header says, it is refused. */
  lemma HeaderRefused(w: nat, h: nat, depth: byte, colour: byte, comp: byte, filter: byte, interlace: byte,
                      pieces: seq<Piece>, crc: seq<byte>, tail: seq<byte>, reqComp: nat)
    requires w < 0x1_0000_0000 && h < 0x1_0000_0000 && PiecesOk(pieces) && |crc| == 4
    requires depth != 8 || (colour != 3 && (comp != 0 || filter != 0 || interlace > 1 ||
               forall n: nat | 1 <= n <= 4 :: colour == ColourType(n) ==> !SizeOk(w, h, n)))
    ensures R.Read(FileBytes(HeaderBytes(w, h, depth, colour, comp, filter, interlace), pieces, crc, tail), reqComp) ==
            R.Rejected
  {
    hide HeaderBytes, ColourType, R.ReadHeader, R.Read, SizeOk, ChunkBytes, AllBytes, PiecesOk, Letters;
    var header := HeaderBytes(w, h, depth, colour, comp, filter, interlace);
    var s := FileBytes(header, pieces, crc, tail);
    StartRead(s, header, crc, AllBytes(pieces) + (ChunkBytes(Letters("IEND"), [], crc) + tail), reqComp);
    HeaderRead(s, 16, w, h, depth, colour, comp, filter, interlace);
  }

  /** A chunk that a reader has to know and does not, or a second header. */
  predicate Unexpected(kind: seq<byte>) {
    |kind| == 4 && (kind == Letters("IHDR") ||
      (Bit(kind[0], 5) == 0 && kind !in {Letters("IDAT"), Letters("IEND"), Letters("PLTE"), Letters("CgBI")}))
  }

  lemma UnexpectedTag(kind: seq<byte>)
    requires Unexpected(kind)
    ensures |kind| == 4
    ensures var tag := R.Tag(kind[0], kind[1], kind[2], kind[3]);
            tag == R.IHDR || (!R.Ancillary(tag) && tag !in {R.IDAT, R.IEND, R.PLTE, R.TRNS, R.CGBI})
  {
    var a, b, c, d := kind[0], kind[1], kind[2], kind[3];
    LowModulo(a, 5);
    assert Pow2(5) == 32;
    Tags();
    var tag := R.Tag(a, b, c, d);
    assert tag / 0x100_0000 == a && tag / 0x2000_0000 == a / 32;
    LettersAre();
    hide Letters, R.Ancillary;
    Known4(kind, 73, 68, 65, 84);
    Known4(kind, 73, 69, 78, 68);
    Known4(kind, 80, 76, 84, 69);
    Known4(kind, 67, 103, 66, 73);
    Known4(kind, 116, 82, 78, 83);
    assert Bit(116, 5) == 1;
  }

  lemma LettersAre()
    ensures Letters("IDAT") == [73, 68, 65, 84] && Letters("IEND") == [73, 69, 78, 68]
    ensures Letters("PLTE") == [80, 76, 84, 69] && Letters("CgBI") == [67, 103, 66, 73]
    ensures Letters("IHDR") == [73, 72, 68, 82]
  {
  }

  lemma Known4(kind: seq<byte>, a: byte, b: byte, c: byte, d: byte)
    requires |kind| == 4
    ensures R.Tag(kind[0], kind[1], kind[2], kind[3]) == R.Tag(a, b, c, d) ==> kind == [a, b, c, d]
  {
    if R.Tag(kind[0], kind[1], kind[2], kind[3]) == R.Tag(a, b, c, d) {
      Digits256(kind[0], kind[1], kind[2], kind[3], a, b, c, d);
    }
  }

  /** Behind the header and any pieces, such a chunk makes the reader refuse the file. */
  lemma ChunkRefused(s: seq<byte>, p: nat, pieces: seq<Piece>, kind: seq<byte>, data: seq<byte>, crc: seq<byte>,
                     rest: seq<byte>, h: R.Header, before: seq<byte>, reqComp: nat)
    requires PiecesOk(pieces) && Unexpected(kind) && |data| < 0x8000_0000 && |crc| == 4 && h.n > 0 && p <= |s|
    requires s[p..] == AllBytes(pieces) + (ChunkBytes(kind, data, crc) + rest)
    ensures R.Chunks(s, p, Some(h), before, reqComp) == R.Rejected
  {
    hide R.U32, R.ReadHeader, ChunkBytes, R.Tag, AllBytes, Joined, PiecesOk, R.Finish, R.Ancillary, Unexpected;
    Tags();
    UnexpectedTag(kind);
    PiecesRead(s, p, pieces, ChunkBytes(kind, data, crc) + rest, h, before, reqComp);
    ChunkRead(s, p + |AllBytes(pieces)|, kind, data, crc, rest);
  }

  /** A file that ends in the middle of its data is refused. */
  lemma CutRefused(s: seq<byte>, p: nat, pieces: seq<Piece>, length: nat, data: seq<byte>, h: R.Header,
                   before: seq<byte>, reqComp: nat)
    requires PiecesOk(pieces) && |data| < length < 0x8000_0000 && h.n > 0 && p <= |s|
    requires s[p..] == AllBytes(pieces) + (W.Be32(length) + Letters("IDAT") + data)
    ensures R.Chunks(s, p, Some(h), before, reqComp) == R.Rejected
  {
    hide R.U32, R.ReadHeader, R.Tag, AllBytes, Joined, PiecesOk, R.Finish, R.Ancillary, W.Be32, Letters;
    Tags();
    LettersAre();
    var rest := W.Be32(length) + Letters("IDAT") + data;
    PiecesRead(s, p, pieces, rest, h, before, reqComp);
    var q := p + |AllBytes(pieces)|;
    T.Part(s, q, 0, 4, W.Be32(length));
    T.Part(s, q, 4, 4, Letters("IDAT"));
    T.Be32RoundTrip(s, q, length);
    T.TagOf(s, q + 4, Letters("IDAT"));
  }

  /** The first chunk has to be the header. */
  lemma HeaderFirst(kind: seq<byte>, data: seq<byte>, crc: seq<byte>, rest: seq<byte>, reqComp: nat)
    requires |kind| == 4 && |data| < 0x8000_0000 && |crc| == 4
    requires kind !in {Letters("IHDR"), Letters("PLTE"), Letters("tRNS"), Letters("CgBI")}
    ensures R.Read([137] + Letters("PNG") + [13, 10, 26, 10] + (ChunkBytes(kind, data, crc) + rest), reqComp) ==
            R.Rejected
  {
    var s := [137] + Letters("PNG") + [13, 10, 26, 10] + (ChunkBytes(kind, data, crc) + rest);
    assert s[..8] == R.SIGNATURE;
    LettersAre();
    assert Letters("tRNS") == [116, 82, 78, 83];
    hide R.U32, R.ReadHeader, ChunkBytes, R.Finish, R.Ancillary, Letters, R.Tag;
    assert s[8..] == ChunkBytes(kind, data, crc) + rest;
    ChunkRead(s, 8, kind, data, crc, rest);
    TagsAre();
    Known4(kind, 73, 72, 68, 82);
    Known4(kind, 80, 76, 84, 69);
    Known4(kind, 116, 82, 78, 83);
    Known4(kind, 67, 103, 66, 73);
  }

  lemma TagsAre()
    ensures R.Tag(73, 72, 68, 82) == R.IHDR && R.Tag(80, 76, 84, 69) == R.PLTE
    ensures R.Tag(116, 82, 78, 83) == R.TRNS && R.Tag(67, 103, 66, 73) == R.CGBI
  {
  }

  /** And before it the signature, to the byte. */
  lemma SignatureRequired(s: seq<byte>, reqComp: nat)
    requires |s| < 8 || s[..8] != [137] + Letters("PNG") + [13, 10, 26, 10]
    ensures R.Read(s, reqComp) == R.Rejected
  {
    hide R.Chunks;
    assert [137] + Letters("PNG") + [13, 10, 26, 10] == R.SIGNATURE;
  }
}
