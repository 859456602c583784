/** The 8-bit path of stbi__parse_png_file in client/stb_image.h: chunks, header checks, inflate and unfiltering. */
module PngReader {
  import opened Bits
  import opened Options
  import opened BitStream
  import opened PngFilter
  import opened PngUnfilter
  import S = InflateSpec
  import I = Inflate
  import A = Adam7

  // ---------- the specification: RFC 2083, sections 3 and 4 ----------

  const SIGNATURE: seq<byte> := [137, 80, 78, 71, 13, 10, 26, 10]

  function Tag(a: nat, b: nat, c: nat, d: nat): nat {
    a * 0x100_0000 + b * 0x1_0000 + c * 256 + d
  }

  const IHDR := Tag(73, 72, 68, 82)
  const IDAT := Tag(73, 68, 65, 84)
  const IEND := Tag(73, 69, 78, 68)
  const PLTE := Tag(80, 76, 84, 69)
  const TRNS := Tag(116, 82, 78, 83)
  const CGBI := Tag(67, 103, 66, 73)

  function U32(s: seq<byte>, p: nat): nat {
    Tag(ByteAt(s, p), ByteAt(s, p + 1), ByteAt(s, p + 2), ByteAt(s, p + 3))
  }

  /** Bit 5 of the first letter: the chunk may be skipped by a reader that does not know it. */
  predicate Ancillary(kind: nat) {
    kind / 0x2000_0000 % 2 == 1
  }

  datatype Header = Header(w: nat, h: nat, n: nat, interlaced: bool)

  /** Overrun: the decoder reads behind the image data.  Outside: the file uses something this model leaves out, or the
      stream is one for which the decoder promises nothing. */
  datatype Outcome = Picture(header: Header, alpha: bool, rows: seq<Row>) | Rejected | Overrun | Outside

  datatype HeaderResult = Good(header: Header) | Bad | Palette

  /** The components of a colour type that is not a palette. */
  function Components(color: nat): (n: nat)
    ensures 1 <= n <= 4
  {
    (if color / 2 % 2 == 1 then 3 else 1) + (if color / 4 % 2 == 1 then 1 else 0)
  }

  /** The fields of the header chunk. */
  function ReadHeader(s: seq<byte>, p: nat): (r: HeaderResult)
    ensures r.Good? ==> r.header.n > 0
  {
    var w, h := U32(s, p), U32(s, p + 4);
    var depth, color, comp, filter, interlace :=
      ByteAt(s, p + 8), ByteAt(s, p + 9), ByteAt(s, p + 10), ByteAt(s, p + 11), ByteAt(s, p + 12);
    if w > 0x100_0000 || h > 0x100_0000 || depth != 8 || color > 6 then Bad
    else if color == 3 then Palette
    else if color % 2 == 1 || comp != 0 || filter != 0 || interlace > 1 || w == 0 || h == 0 then Bad
    else if 0x4000_0000 / w / Components(color) < h then Bad
    else Good(Header(w, h, Components(color), interlace == 1))
  }

  /** An alpha is added when the caller asks for one component more than a gray or colour image has. */
  predicate AddsAlpha(n: nat, reqComp: nat) {
    reqComp == n + 1 && reqComp != 3
  }

  /** The data of all IDAT chunks is there. */
  ghost function Finish(head: Header, data: seq<byte>, reqComp: nat): Outcome
    requires head.n > 0
  {
    var raw, alpha := S.Inflate(data, true), AddsAlpha(head.n, reqComp);
    if !raw.Settled() then Outside
    else if raw.Err? then Rejected
    else
      var image := A.Image(raw.value, head.n, alpha, head.w, head.h, head.interlaced);
      match image.ending
      case Complete => Picture(head, alpha, image.rows)
      case Refused => Rejected
      case PastData => Overrun
  }

  /** Past its end the file reads as zeros, which is not the type of any chunk the decoder accepts. */
  lemma KindWithin(s: seq<byte>, p: nat)
    ensures U32(s, p) != 0 ==> p < |s|
    ensures U32(s, p) == IDAT ==> p + 4 <= |s|
  {
  }

  /** The chunks from p on, given the header if there was one and the image data so far. */
  ghost function Chunks(s: seq<byte>, p: nat, head: Option<Header>, data: seq<byte>, reqComp: nat): Outcome
    requires head.Some? ==> head.value.n > 0
    decreases |s| - p
  {
    var length, kind, body := U32(s, p), U32(s, p + 4), p + 8;
    if p >= |s| then Rejected
    else if length >= 0x8000_0000 then Outside
    else if kind == IHDR then
      if head.Some? || length != 13 then Rejected
      else
        match ReadHeader(s, body)
        case Good(h) => Chunks(s, body + 13 + 4, Some(h), data, reqComp)
        case Bad => Rejected
        case Palette => Outside
    else if kind == PLTE || kind == TRNS || kind == CGBI then Outside
    else if head.None? then Rejected
    else if kind == IDAT then
      if body + length > |s| then Rejected
      else Chunks(s, body + length + 4, head, data + s[body..body + length], reqComp)
    else if kind == IEND then
      if data == [] then Rejected else Finish(head.value, data, reqComp)
    else if !Ancillary(kind) then Rejected
    else Chunks(s, body + length + 4, head, data, reqComp)
  }

  ghost function Read(s: seq<byte>, reqComp: nat): Outcome {
    if |s| >= 8 && s[..8] == SIGNATURE then Chunks(s, 8, None, [], reqComp) else Rejected
  }

  // ---------- the decoder ----------

  class Png {
    const s: seq<byte>
    /** img_buffer, as an offset: reading stops at the end, skipping may run past it. */
    var pos: nat
    var head: Option<Header>
    var idata: seq<byte>
    var alpha: bool
    var out: array<byte>
    ghost var at: nat

    constructor (s: seq<byte>)
      ensures this.s == s && pos == 0 && at == 0 && head == None && idata == []
    {
      this.s, pos, at, head, idata, alpha := s, 0, 0, None, [], false;
      out := new byte[0];
    }

    ghost predicate Sync()
      reads this`pos, this`at
    {
      pos == at || (pos >= |s| && at > |s|)
    }

    /** What the rest of the file leads to. */
    ghost function Rest(reqComp: nat): Outcome
      requires head.Some? ==> head.value.n > 0
      reads this`at, this`head, this`idata
    {
      Chunks(s, at, head, idata, reqComp)
    }

    method Get8() returns (b: byte)
      requires Sync()
      modifies this`pos, this`at
      ensures Sync() && at == old(at) + 1 && b == ByteAt(s, old(at))
    {
      at := at + 1;
      if pos < |s| {
        b := s[pos];
        pos := pos + 1;
      } else {
        b := 0;
      }
    }

    method Get32be() returns (x: nat)
      requires Sync()
      modifies this`pos, this`at
      ensures Sync() && at == old(at) + 4 && x == U32(s, old(at)) < 0x1_0000_0000
    {
      hide ByteAt;
      var a, b, c, d;
      a := Get8();
      b := Get8();
      c := Get8();
      d := Get8();
      x := (a as int * 256 + b) * 0x1_0000 + (c as int * 256 + d);
    }

    method Skip(n: nat)
      requires Sync()
      modifies this`pos, this`at
      ensures Sync() && at == old(at) + n
    {
      pos := pos + n;
      at := at + n;
    }

    method GetN(n: nat) returns (ok: bool, data: seq<byte>)
      requires Sync() && at <= |s|
      modifies this`pos, this`at
      ensures ok <==> old(at) + n <= |s|
      ensures ok ==> Sync() && at == old(at) + n && data == s[old(at)..at]
    {
      ok, data := pos + n <= |s|, [];
      if ok {
        data := s[pos..pos + n];
        pos := pos + n;
        at := at + n;
      }
    }

    method CheckPngHeader() returns (ok: bool)
      requires Sync() && at == 0
      modifies this`pos, this`at
      ensures ok <==> |s| >= 8 && s[..8] == SIGNATURE
      ensures ok ==> Sync() && at == 8
    {
      for i := 0 to 8
        invariant Sync() && at == i
        invariant forall j :: 0 <= j < i ==> ByteAt(s, j) == SIGNATURE[j]
      {
        var b := Get8();
        if b != SIGNATURE[i] {
          assert |s| >= 8 ==> s[..8][i] == b;
          return false;
        }
      }
      assert ByteAt(s, 7) == SIGNATURE[7];
      ok := true;
    }

    /** The fields of IHDR. */
    method ParseHeader() returns (ok: bool)
      requires Sync() && !ReadHeader(s, at).Palette?
      modifies this`pos, this`at, this`head
      ensures ok <==> old(ReadHeader(s, at)).Good?
      ensures ok ==> Sync() && at == old(at) + 13 && head == Some(old(ReadHeader(s, at)).header)
    {
      hide U32, ByteAt;
      var w := Get32be();
      if w > 0x100_0000 { return false; }
      var h := Get32be();
      if h > 0x100_0000 { return false; }
      var depth := Get8();
      if depth != 8 { return false; }
      var color := Get8();
      if color > 6 { return false; }
      if color % 2 == 1 { return false; }
      var comp := Get8();
      if comp != 0 { return false; }
      var filter := Get8();
      if filter != 0 { return false; }
      var interlace := Get8();
      if interlace > 1 { return false; }
      if w == 0 || h == 0 { return false; }
      var n := Components(color);
      if 0x4000_0000 / w / n < h { return false; }
      head := Some(Header(w, h, n, interlace == 1));
      ok := true;
    }

    /** stbi_zlib_decode_malloc_guesssize_headerflag. */
    static method Inflated(data: seq<byte>) returns (ok: bool, raw: seq<byte>)
      requires S.Inflate(data, true).Settled()
      ensures ok <==> S.Inflate(data, true).Ok?
      ensures ok ==> raw == S.Inflate(data, true).value
    {
      hide S.Inflate;
      var buffer := new byte[16384];
      var a := new I.ZBuf(data, buffer, true);
      ok := a.ParseZlib(true);
      raw := if ok then a.zout[..a.zlen] else [];
    }

    /** IEND: inflates the collected data and builds the image. */
    method Complete(reqComp: nat) returns (ending: Ending)
      requires head.Some? && head.value.n > 0 && !Finish(head.value, idata, reqComp).Outside?
      modifies this`alpha, this`out
      ensures Built(ending, Finish(head.value, idata, reqComp))
    {
      hide S.Inflate, A.Image, Flat, Bytes;
      var h := head.value;
      var ok, raw := Inflated(idata);
      if !ok {
        return Refused;
      }
      alpha := AddsAlpha(h.n, reqComp);
      ending, out := A.CreateImage(raw, h.n, alpha, h.w, h.h, h.interlaced);
    }

    /** Success exactly when there is a picture, and then the picture is in the output buffer, byte by byte. */
    ghost predicate Built(ending: Ending, o: Outcome)
      reads this`head, this`alpha, this`out, this.out
    {
      && (ending == Ending.Complete <==> o.Picture?) && (ending == PastData <==> o.Overrun?)
      && (o.Picture? ==> head == Some(o.header) && alpha == o.alpha && out[..] == Bytes(Flat(o.rows, o.alpha)))
    }

    /** One chunk. */
    method ParseChunk(reqComp: nat) returns (done: bool, ending: Ending)
      requires Sync() && (head.Some? ==> head.value.n > 0) && !Rest(reqComp).Outside?
      modifies this
      ensures !done ==> && Sync() && (head.Some? ==> head.value.n > 0) && Rest(reqComp) == old(Rest(reqComp))
                        && old(at) < at && old(at) < |s|
      ensures done ==> Built(ending, old(Rest(reqComp)))
    {
      hide U32, ReadHeader, Finish;
      var length := Get32be();
      var kind := Get32be();
      KindWithin(s, at - 4);
      if kind == IHDR {
        if head.Some? { return true, Refused; }
        if length != 13 { return true, Refused; }
        var ok := ParseHeader();
        if !ok { return true, Refused; }
      } else if head.None? {
        return true, Refused;
      } else if kind == IDAT {
        var ok, data := GetN(length);
        if !ok { return true, Refused; }
        idata := idata + data;
      } else if kind == IEND {
        if idata == [] { return true, Refused; }
        ending := Complete(reqComp);
        return true, ending;
      } else {
        if !Ancillary(kind) { return true, Refused; }
        Skip(length);
      }
      var _ := Get32be();
      done, ending := false, Refused;
    }

    /** The loop over the chunks. */
    method ParseFile(reqComp: nat) returns (ending: Ending)
      requires Sync() && at == 0 && head == None && idata == [] && !Read(s, reqComp).Outside?
      modifies this
      ensures Built(ending, Read(s, reqComp))
    {
      hide Chunks, Flat, Bytes;
      var ok := CheckPngHeader();
      if !ok {
        return Refused;
      }
      var done := false;
      ending := Refused;
      while !done
        invariant !done ==> Sync() && (head.Some? ==> head.value.n > 0) && Rest(reqComp) == Read(s, reqComp)
        invariant done ==> Built(ending, Read(s, reqComp))
        decreases !done, |s| - at
      {
        done, ending := ParseChunk(reqComp);
      }
    }
  }
}
