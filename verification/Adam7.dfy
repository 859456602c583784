/** Adam7 interlacing: RFC 2083, section 2.6, and the de-interlacing half of stbi__create_png_image in
    client/stb_image.h. Pixel c of row r of a w by h image is pixel i of row j of exactly one pass. */
module Adam7 {
  import opened Bits
  import opened Options
  import opened PngFilter
  import opened PngUnfilter

  const XORIG: seq<nat> := [0, 4, 0, 2, 0, 1, 0]
  const YORIG: seq<nat> := [0, 0, 4, 0, 2, 0, 1]
  const XSPC: seq<nat> := [8, 8, 4, 4, 2, 2, 1]
  const YSPC: seq<nat> := [8, 8, 8, 4, 4, 2, 2]

  /** The standard's picture of the passes, counted from 0. */
  const PATTERN: seq<seq<nat>> := [
    [0, 5, 3, 5, 1, 5, 3, 5],
    [6, 6, 6, 6, 6, 6, 6, 6],
    [4, 5, 4, 5, 4, 5, 4, 5],
    [6, 6, 6, 6, 6, 6, 6, 6],
    [2, 5, 3, 5, 2, 5, 3, 5],
    [6, 6, 6, 6, 6, 6, 6, 6],
    [4, 5, 4, 5, 4, 5, 4, 5],
    [6, 6, 6, 6, 6, 6, 6, 6]]

  function PassOf(c: nat, r: nat): (p: nat)
    ensures p < 7
  {
    PATTERN[r % 8][c % 8]
  }

  /** The columns of pass p. */
  function PassWidth(w: nat, p: nat): nat
    requires p < 7
  {
    (w - XORIG[p] + XSPC[p] - 1) / XSPC[p]
  }

  function PassHeight(h: nat, p: nat): nat
    requires p < 7
  {
    (h - YORIG[p] + YSPC[p] - 1) / YSPC[p]
  }

  function Column(p: nat, i: nat): nat
    requires p < 7
  {
    i * XSPC[p] + XORIG[p]
  }

  function Line(p: nat, j: nat): nat
    requires p < 7
  {
    j * YSPC[p] + YORIG[p]
  }

  /** Where a pixel is found in its pass. */
  function PassColumn(c: nat, r: nat): (i: nat) {
    PassColumnPositive(c, r);
    (c - XORIG[PassOf(c, r)]) / XSPC[PassOf(c, r)]
  }

  function PassLine(c: nat, r: nat): (j: nat) {
    PassColumnPositive(c, r);
    (r - YORIG[PassOf(c, r)]) / YSPC[PassOf(c, r)]
  }

  lemma PassColumnPositive(c: nat, r: nat)
    ensures XORIG[PassOf(c, r)] <= c && YORIG[PassOf(c, r)] <= r
  {
  }

  lemma PatternAligned(c: nat, r: nat, p: nat)
    requires p == PassOf(c, r)
    ensures XORIG[p] <= c && (c - XORIG[p]) % XSPC[p] == 0
    ensures YORIG[p] <= r && (r - YORIG[p]) % YSPC[p] == 0
  {
    PatternCell(c % 8, r % 8);
    Modulo8(c, XORIG[p], XSPC[p]);
    Modulo8(r, YORIG[p], YSPC[p]);
  }

  /** The 64 cells of the picture. */
  lemma PatternCell(a: nat, b: nat)
    requires a < 8 && b < 8
    ensures var p := PATTERN[b][a];
            XORIG[p] <= a && (a - XORIG[p]) % XSPC[p] == 0 && YORIG[p] <= b && (b - YORIG[p]) % YSPC[p] == 0
  {
  }

  lemma Modulo8(c: nat, orig: nat, spc: nat)
    requires spc in {1, 2, 4, 8} && orig <= c % 8 && (c % 8 - orig) % spc == 0
    ensures orig <= c && (c - orig) % spc == 0
  {
    var q := c / 8;
    assert c == 8 * q + c % 8;
    if spc == 8 {
      assert (c - orig) % 8 == 0;
    } else if spc == 4 {
      assert c - orig == 4 * (2 * q) + (c % 8 - orig);
    } else if spc == 2 {
      assert c - orig == 2 * (4 * q) + (c % 8 - orig);
    }
  }

  lemma Aligned(w: nat, c: nat, orig: nat, spc: nat)
    requires spc in {1, 2, 4, 8} && orig <= c < w && (c - orig) % spc == 0
    ensures var i := (c - orig) / spc; i * spc + orig == c && i < (w - orig + spc - 1) / spc
  {
  }

  /** Every pixel of the image lies in the pass the standard's picture gives it, within that pass. */
  lemma PixelInPass(w: nat, h: nat, c: nat, r: nat)
    requires c < w && r < h
    ensures var p, i, j := PassOf(c, r), PassColumn(c, r), PassLine(c, r);
            c == Column(p, i) && r == Line(p, j) && i < PassWidth(w, p) && j < PassHeight(h, p)
  {
    hide PassOf;
    var p := PassOf(c, r);
    PatternAligned(c, r, p);
    Aligned(w, c, XORIG[p], XSPC[p]);
    Aligned(h, r, YORIG[p], YSPC[p]);
  }

  /** Every pixel of a pass lies in the image, and in no other pass. */
  lemma PassInImage(w: nat, h: nat, p: nat, i: nat, j: nat)
    requires p < 7 && i < PassWidth(w, p) && j < PassHeight(h, p)
    ensures Column(p, i) < w && Line(p, j) < h
    ensures PassOf(Column(p, i), Line(p, j)) == p
    ensures PassColumn(Column(p, i), Line(p, j)) == i && PassLine(Column(p, i), Line(p, j)) == j
  {
  }

  /** The passes refine a grid, halving its columns and its rows by turns: the pixels of the first p + 1 passes are
      those in these columns and these rows. */
  function GridColumns(p: nat): nat
    requires p < 7
  {
    if p == 0 then 8 else if p <= 2 then 4 else if p <= 4 then 2 else 1
  }

  function GridRows(p: nat): nat
    requires p < 7
  {
    if p <= 1 then 8 else if p <= 3 then 4 else if p <= 5 then 2 else 1
  }

  lemma PassesRefine(c: nat, r: nat, p: nat)
    requires p < 7
    ensures PassOf(c, r) <= p <==> c % GridColumns(p) == 0 && r % GridRows(p) == 0
  {
    ModuloEight(c, GridColumns(p));
    ModuloEight(r, GridRows(p));
    GridCell(c % 8, r % 8, p);
  }

  lemma ModuloEight(x: nat, g: nat)
    requires g in {1, 2, 4, 8}
    ensures x % 8 % g == x % g
  {
    var q, r := x / 8, x % 8;
    if g == 4 {
      Quotient(x, 4, 2 * q + r / 4, r % 4);
    } else if g == 2 {
      Quotient(x, 2, 4 * q + r / 2, r % 2);
    }
  }

  lemma GridCell(a: nat, b: nat, p: nat)
    requires a < 8 && b < 8 && p < 7
    ensures PATTERN[b][a] <= p <==> a % GridColumns(p) == 0 && b % GridRows(p) == 0
  {
    match p
    case 0 =>
    case 1 =>
    case 2 =>
    case 3 =>
    case 4 =>
    case 5 =>
    case _ =>
  }

  /** Within a pass the pixels keep their order. */
  lemma PassInOrder(p: nat, i: nat, j: nat)
    requires p < 7 && i < j
    ensures Column(p, i) < Column(p, j) && Line(p, i) < Line(p, j)
  {
  }

  // ---------- the interlaced bytes ----------

  predicate Empty(w: nat, h: nat, p: nat)
    requires p < 7
  {
    PassWidth(w, p) == 0 || PassHeight(h, p) == 0
  }

  function PassBytes(w: nat, h: nat, n: nat, p: nat): nat
    requires p < 7
  {
    if Empty(w, h, p) then 0 else Total(PassHeight(h, p), Total(PassWidth(w, p), n) + 1)
  }

  /** Where pass p starts: an empty pass takes no bytes at all. */
  function Offset(w: nat, h: nat, n: nat, p: nat): nat
    requires p <= 7
  {
    if p == 0 then 0 else Offset(w, h, n, p - 1) + PassBytes(w, h, n, p - 1)
  }

  const WIDTH := 0x1_0000_0000

  /** Subtraction of 32-bit numbers: it wraps when the result would be negative.  For a < 2^32 this is a - b modulo
      2^32. */
  function Minus(a: nat, b: nat): nat {
    if b <= a then a - b else (a - b) % WIDTH
  }

  lemma MinusTwice(a: nat, b: nat, c: nat)
    ensures Minus(Minus(a, b), c) == Minus(a, b + c)
  {
  }

  /** What becomes of pass p.  The source starts it where it would start if the data had as many bytes a pixel as the
      output, and takes that many off what it thinks is left.  A pass that is the whole image must use up all of it. */
  ghost function PassRead(raw: seq<byte>, w: nat, h: nat, n: nat, alpha: bool, p: nat): (a: Attempt)
    requires n > 0 && p < 7
    ensures a.ending == Complete ==> |a.rows| == PassHeight(h, p) && AreRows(a.rows, PassWidth(w, p), n)
  {
    var start, pw, ph := Offset(w, h, PixelSize(n, alpha), p), PassWidth(w, p), PassHeight(h, p);
    RawImage(raw, start, Minus(|raw|, start), n, pw, ph, pw == w && ph == h)
  }

  /** Pass p is empty, or there and decodes. */
  ghost predicate PassOk(raw: seq<byte>, w: nat, h: nat, n: nat, alpha: bool, p: nat)
    requires n > 0 && p < 7
  {
    Empty(w, h, p) || PassRead(raw, w, h, n, alpha, p).ending == Complete
  }

  ghost function PassRows(raw: seq<byte>, w: nat, h: nat, n: nat, alpha: bool, p: nat): (rows: seq<Row>)
    requires n > 0 && p < 7 && !Empty(w, h, p) && PassOk(raw, w, h, n, alpha, p)
    ensures |rows| == PassHeight(h, p) && AreRows(rows, PassWidth(w, p), n)
  {
    PassRead(raw, w, h, n, alpha, p).rows
  }

  /** How the passes from p on end. */
  ghost function PassesFrom(raw: seq<byte>, w: nat, h: nat, n: nat, alpha: bool, p: nat): Ending
    requires n > 0 && p <= 7
    decreases 7 - p
  {
    if p == 7 then Complete
    else if PassOk(raw, w, h, n, alpha, p) then PassesFrom(raw, w, h, n, alpha, p + 1)
    else PassRead(raw, w, h, n, alpha, p).ending
  }

  lemma {:induction false} AllPasses(raw: seq<byte>, w: nat, h: nat, n: nat, alpha: bool, p: nat)
    requires n > 0 && p <= 7
    ensures PassesFrom(raw, w, h, n, alpha, p) == Complete <==>
            forall q: nat :: p <= q < 7 ==> PassOk(raw, w, h, n, alpha, q)
    decreases 7 - p
  {
    hide PassRead;
    if p < 7 { AllPasses(raw, w, h, n, alpha, p + 1); }
  }

  ghost predicate Accepted(raw: seq<byte>, w: nat, h: nat, n: nat, alpha: bool)
    requires n > 0
  {
    forall p: nat :: p < 7 ==> PassOk(raw, w, h, n, alpha, p)
  }

  /** The pixel of pass p that belongs at column c of row r, when pass p is the one that holds it. */
  ghost function Want(raw: seq<byte>, w: nat, h: nat, n: nat, alpha: bool, c: nat, r: nat): (v: Pixel)
    requires n > 0 && c < w && r < h && PassOk(raw, w, h, n, alpha, PassOf(c, r))
    ensures |v| == n
  {
    PixelInPass(w, h, c, r);
    var rows := PassRows(raw, w, h, n, alpha, PassOf(c, r));
    assert IsRow(rows[PassLine(c, r)], PassWidth(w, PassOf(c, r)), n);
    rows[PassLine(c, r)][PassColumn(c, r)]
  }

  /** The image the seven passes make up. */
  ghost function Weave(raw: seq<byte>, w: nat, h: nat, n: nat, alpha: bool): (rows: seq<Row>)
    requires n > 0 && Accepted(raw, w, h, n, alpha)
    ensures |rows| == h && AreRows(rows, w, n)
  {
    seq(h, r requires 0 <= r < h => seq(w, c requires 0 <= c < w && 0 <= r < h => Want(raw, w, h, n, alpha, c, r)))
  }

  // ---------- the loops ----------

  /** Whether the pixel has been written when the loops are at pixel i of row j of pass p. */
  ghost predicate Done(c: nat, r: nat, p: nat, j: nat, i: nat) {
    PassOf(c, r) < p || (PassOf(c, r) == p && (PassLine(c, r) < j || (PassLine(c, r) == j && PassColumn(c, r) < i)))
  }

  lemma DoneNext(w: nat, h: nat, c: nat, r: nat, p: nat, j: nat, i: nat)
    requires c < w && r < h && p < 7 && i < PassWidth(w, p) && j < PassHeight(h, p)
    ensures Done(c, r, p, j, i + 1) <==> Done(c, r, p, j, i) || (c == Column(p, i) && r == Line(p, j))
  {
    hide PassOf, PassLine, PassColumn, Column, Line, PassWidth, PassHeight;
    PixelInPass(w, h, c, r);
    PassInImage(w, h, p, i, j);
  }

  lemma DoneRow(w: nat, h: nat, c: nat, r: nat, p: nat, j: nat)
    requires c < w && r < h && p < 7
    ensures Done(c, r, p, j + 1, 0) <==> Done(c, r, p, j, PassWidth(w, p))
  {
    hide PassOf, PassLine, PassColumn, Column, Line, PassWidth, PassHeight;
    PixelInPass(w, h, c, r);
  }

  lemma DonePass(w: nat, h: nat, c: nat, r: nat, p: nat, j: nat)
    requires c < w && r < h && p < 7 && (j >= PassHeight(h, p) || Empty(w, h, p))
    ensures Done(c, r, p, j, 0) <==> Done(c, r, p + 1, 0, 0)
  {
    hide PassOf, PassLine, PassColumn, Column, Line, PassWidth, PassHeight;
    PixelInPass(w, h, c, r);
  }

  ghost function At(s: seq<Pixel>, w: nat, h: nat, c: nat, r: nat): Pixel
    requires |s| == Total(h, w) && c < w && r < h
  {
    InGrid(w, h, c, r);
    s[Total(r, w) + c]
  }

  lemma InGrid(w: nat, h: nat, c: nat, r: nat)
    requires c < w && r < h
    ensures Total(r, w) + c < Total(h, w)
  {
    TotalStep(r, h, w);
  }

  lemma AtUpdate(s: seq<Pixel>, w: nat, h: nat, c: nat, r: nat, c': nat, r': nat, v: Pixel)
    requires |s| == Total(h, w) && c < w && r < h && c' < w && r' < h && Total(r, w) + c < |s|
    ensures At(s[Total(r, w) + c := v], w, h, c', r') == if c == c' && r == r' then v else At(s, w, h, c', r')
  {
    hide Total;
    if r < r' { TotalStep(r, r', w); }
    if r' < r { TotalStep(r', r, w); }
    InGrid(w, h, c', r');
  }

  /** Every pixel written so far is the one wanted there. */
  ghost predicate Filled(s: seq<Pixel>, raw: seq<byte>, w: nat, h: nat, n: nat, alpha: bool, p: nat, j: nat, i: nat)
    requires n > 0
  {
    && |s| == Total(h, w)
    && forall c: nat, r: nat :: c < w && r < h && Done(c, r, p, j, i) ==>
         PassOk(raw, w, h, n, alpha, PassOf(c, r)) && At(s, w, h, c, r) == Laid(Want(raw, w, h, n, alpha, c, r), alpha)
  }

  lemma FilledStart(s: seq<Pixel>, raw: seq<byte>, w: nat, h: nat, n: nat, alpha: bool)
    requires n > 0 && |s| == Total(h, w)
    ensures Filled(s, raw, w, h, n, alpha, 0, 0, 0)
  {
    hide PassOf;
  }

  lemma FilledNext(s: seq<Pixel>, raw: seq<byte>, w: nat, h: nat, n: nat, alpha: bool, p: nat, j: nat, i: nat, v: Pixel)
    requires n > 0 && Filled(s, raw, w, h, n, alpha, p, j, i) && p < 7 && !Empty(w, h, p)
             && PassOk(raw, w, h, n, alpha, p)
    requires i < PassWidth(w, p) && j < PassHeight(h, p)
    requires var row := PassRows(raw, w, h, n, alpha, p)[j]; i < |row| && v == Laid(row[i], alpha)
    ensures var at := Total(Line(p, j), w) + Column(p, i);
            at < |s| && Filled(s[at := v], raw, w, h, n, alpha, p, j, i + 1)
  {
    hide PassOf, PassLine, PassColumn, Column, Line, PassWidth, PassHeight, Total, Done, PassOk, At, PassRows, Empty;
    var x, y := Column(p, i), Line(p, j);
    PassInImage(w, h, p, i, j);
    InGrid(w, h, x, y);
    var s' := s[Total(y, w) + x := v];
    forall c: nat, r: nat | c < w && r < h && Done(c, r, p, j, i + 1)
      ensures PassOk(raw, w, h, n, alpha, PassOf(c, r))
              && At(s', w, h, c, r) == Laid(Want(raw, w, h, n, alpha, c, r), alpha)
    {
      DoneNext(w, h, c, r, p, j, i);
      AtUpdate(s, w, h, x, y, c, r, v);
    }
  }

  lemma FilledRow(s: seq<Pixel>, raw: seq<byte>, w: nat, h: nat, n: nat, alpha: bool, p: nat, j: nat)
    requires n > 0 && p < 7 && Filled(s, raw, w, h, n, alpha, p, j, PassWidth(w, p))
    ensures Filled(s, raw, w, h, n, alpha, p, j + 1, 0)
  {
    hide PassOf, PassLine, PassColumn, PassWidth, PassHeight, Total, Done, PassOk, At, Want;
    forall c: nat, r: nat | c < w && r < h && Done(c, r, p, j + 1, 0)
      ensures PassOk(raw, w, h, n, alpha, PassOf(c, r))
              && At(s, w, h, c, r) == Laid(Want(raw, w, h, n, alpha, c, r), alpha)
    {
      DoneRow(w, h, c, r, p, j);
    }
  }

  lemma FilledPass(s: seq<Pixel>, raw: seq<byte>, w: nat, h: nat, n: nat, alpha: bool, p: nat, j: nat)
    requires n > 0 && p < 7 && Filled(s, raw, w, h, n, alpha, p, j, 0) && (j >= PassHeight(h, p) || Empty(w, h, p))
    ensures Filled(s, raw, w, h, n, alpha, p + 1, 0, 0)
  {
    hide PassOf, PassLine, PassColumn, PassWidth, PassHeight, Total, Done, PassOk, At, Want;
    forall c: nat, r: nat | c < w && r < h && Done(c, r, p + 1, 0, 0)
      ensures PassOk(raw, w, h, n, alpha, PassOf(c, r))
              && At(s, w, h, c, r) == Laid(Want(raw, w, h, n, alpha, c, r), alpha)
    {
      DonePass(w, h, c, r, p, j);
    }
  }

  lemma FilledLine(s: seq<Pixel>, raw: seq<byte>, w: nat, h: nat, n: nat, alpha: bool, m: nat, at: nat)
    requires n > 0 && Filled(s, raw, w, h, n, alpha, 7, 0, 0) && Accepted(raw, w, h, n, alpha) && m < h
             && at == Total(m, w)
    ensures at + w <= |s| && s[at..at + w] == LaidRow(Weave(raw, w, h, n, alpha)[m], alpha)
  {
    hide Done, PassOk, Want, Accepted, Total;
    TotalStep(m, h, w);
    forall c: nat | c < w
      ensures s[at..at + w][c] == LaidRow(Weave(raw, w, h, n, alpha)[m], alpha)[c]
    {
      AllDone(c, m);
      assert At(s, w, h, c, m) == Laid(Want(raw, w, h, n, alpha, c, m), alpha);
    }
  }

  lemma {:induction false} FilledRows(s: seq<Pixel>, raw: seq<byte>, w: nat, h: nat, n: nat, alpha: bool, k: nat)
    requires n > 0 && Filled(s, raw, w, h, n, alpha, 7, 0, 0) && Accepted(raw, w, h, n, alpha) && k <= h
    ensures Total(k, w) <= |s| && s[..Total(k, w)] == Flat(Weave(raw, w, h, n, alpha)[..k], alpha)
  {
    hide *;
    var rows := Weave(raw, w, h, n, alpha);
    NothingLaid(w, alpha);
    if k == 0 {
      assert rows[..0] == [];
    } else {
      var m: nat := k - 1;
      FilledRows(s, raw, w, h, n, alpha, m);
      TotalStep(m, k, w);
      FilledLine(s, raw, w, h, n, alpha, m, Total(m, w));
      assert rows[..k] == rows[..m] + [rows[m]];
      LastRow(rows[..m], rows[m], alpha);
      assert s[..Total(k, w)] == s[..Total(m, w)] + s[Total(m, w)..Total(k, w)];
    }
  }

  lemma AllDone(c: nat, r: nat)
    ensures Done(c, r, 7, 0, 0)
  {
    hide PassOf;
  }

  lemma FilledAll(s: seq<Pixel>, raw: seq<byte>, w: nat, h: nat, n: nat, alpha: bool)
    requires n > 0 && Filled(s, raw, w, h, n, alpha, 7, 0, 0) && Accepted(raw, w, h, n, alpha)
    ensures s == Flat(Weave(raw, w, h, n, alpha), alpha)
  {
    hide Filled, Accepted, Flat;
    FilledRows(s, raw, w, h, n, alpha, h);
    FilledSize(s, raw, w, h, n, alpha);
    var rows := Weave(raw, w, h, n, alpha);
    assert rows[..h] == rows;
    assert s[..|s|] == s;
  }

  lemma FilledSize(s: seq<Pixel>, raw: seq<byte>, w: nat, h: nat, n: nat, alpha: bool)
    requires n > 0 && Filled(s, raw, w, h, n, alpha, 7, 0, 0)
    ensures |s| == Total(h, w)
  {
  }

  // ---------- the buffers ----------

  lemma {:induction false} PixelsUpdate(bytes: seq<byte>, m: nat, x: nat, q: nat, v: Pixel)
    requires m > 0 && |bytes| == Total(x, m) && q < x && |v| == m
    ensures Total(q, m) + m <= |bytes|
    ensures |Pixels(bytes, m)| == x
            && Pixels(bytes[..Total(q, m)] + v + bytes[Total(q, m) + m..], m) == Pixels(bytes, m)[q := v]
    decreases x
  {
    PixelCount(bytes, m, x);
    TotalStep(q, x, m);
    var at := Total(q, m);
    var next := bytes[..at] + v + bytes[at + m..];
    if q == 0 {
      assert next[..m] == v && next[m..] == bytes[m..];
    } else {
      var rest, back := bytes[m..], Total(q - 1, m);
      PixelsUpdate(rest, m, x - 1, q - 1, v);
      CutFront(bytes, m, back, v);
    }
  }

  lemma CutFront(bytes: seq<byte>, m: nat, back: nat, v: seq<byte>)
    requires m + back + m <= |bytes| && |v| == m
    ensures var next, rest := bytes[..m + back] + v + bytes[m + back + m..], bytes[m..];
            next[..m] == bytes[..m] && next[m..] == rest[..back] + v + rest[back + m..]
  {
    assert bytes[m..][..back] == bytes[m..m + back] && bytes[m..][back + m..] == bytes[m + back + m..];
  }

  lemma {:induction false} BytesOfPixels(bytes: seq<byte>, m: nat, x: nat)
    requires m > 0 && |bytes| == Total(x, m)
    ensures Bytes(Pixels(bytes, m)) == bytes
    decreases x
  {
    if x > 0 {
      BytesOfPixels(bytes[m..], m, x - 1);
      assert bytes == bytes[..m] + bytes[m..];
    }
  }

  /** The pixels in the final buffer written so far are the ones wanted there. */
  ghost predicate Spread(final: seq<byte>, raw: seq<byte>, w: nat, h: nat, n: nat, alpha: bool, p: nat, j: nat, i: nat)
    requires n > 0
  {
    var m := PixelSize(n, alpha);
    |final| == Total(Total(h, w), m) && Filled(Pixels(final, m), raw, w, h, n, alpha, p, j, i)
  }

  lemma SpreadStart(final: seq<byte>, raw: seq<byte>, w: nat, h: nat, n: nat, alpha: bool)
    requires n > 0 && |final| == Total(Total(h, w), PixelSize(n, alpha))
    ensures Spread(final, raw, w, h, n, alpha, 0, 0, 0)
  {
    PixelCount(final, PixelSize(n, alpha), Total(h, w));
    FilledStart(Pixels(final, PixelSize(n, alpha)), raw, w, h, n, alpha);
  }

  /** Copying the next pixel of a pass to its place. */
  lemma SpreadNext(final: seq<byte>, raw: seq<byte>, w: nat, h: nat, n: nat, alpha: bool, p: nat, j: nat, i: nat,
                   v: Pixel, to: nat)
    requires n > 0 && Spread(final, raw, w, h, n, alpha, p, j, i) && p < 7 && !Empty(w, h, p)
             && PassOk(raw, w, h, n, alpha, p)
    requires i < PassWidth(w, p) && j < PassHeight(h, p)
    requires var row := PassRows(raw, w, h, n, alpha, p)[j]; i < |row| && v == Laid(row[i], alpha)
    requires to == (Line(p, j) * w + Column(p, i)) * PixelSize(n, alpha) && |v| == PixelSize(n, alpha)
    ensures to + PixelSize(n, alpha) <= |final|
    ensures Spread(final[..to] + v + final[to + PixelSize(n, alpha)..], raw, w, h, n, alpha, p, j, i + 1)
  {
    hide PassOf, PassLine, PassColumn, Column, Line, PassWidth, PassHeight, Total, PassOk, PassRows, Empty, Filled,
         Pixels, Laid, PixelSize;
    var m, q := PixelSize(n, alpha), Line(p, j) * w + Column(p, i);
    SizePositive(n, alpha);
    TotalIsProduct(Line(p, j), w);
    TotalIsProduct(q, m);
    PassInImage(w, h, p, i, j);
    InGrid(w, h, Column(p, i), Line(p, j));
    FilledNext(Pixels(final, m), raw, w, h, n, alpha, p, j, i, v);
    PixelsUpdate(final, m, Total(h, w), q, v);
  }

  lemma SizePositive(n: nat, alpha: bool)
    requires n > 0
    ensures PixelSize(n, alpha) > 0
  {
  }

  lemma SpreadRow(final: seq<byte>, raw: seq<byte>, w: nat, h: nat, n: nat, alpha: bool, p: nat, j: nat)
    requires n > 0 && p < 7 && Spread(final, raw, w, h, n, alpha, p, j, PassWidth(w, p))
    ensures Spread(final, raw, w, h, n, alpha, p, j + 1, 0)
  {
    hide PassWidth, Filled, Pixels, Total;
    FilledRow(Pixels(final, PixelSize(n, alpha)), raw, w, h, n, alpha, p, j);
  }

  lemma SpreadDone(final: seq<byte>, raw: seq<byte>, w: nat, h: nat, n: nat, alpha: bool, p: nat, j: nat)
    requires n > 0 && p < 7 && Spread(final, raw, w, h, n, alpha, p, j, 0) && (j >= PassHeight(h, p) || Empty(w, h, p))
    ensures Spread(final, raw, w, h, n, alpha, p + 1, 0, 0)
  {
    hide PassHeight, Filled, Pixels, Total, Empty;
    FilledPass(Pixels(final, PixelSize(n, alpha)), raw, w, h, n, alpha, p, j);
  }

  lemma SpreadAll(final: seq<byte>, raw: seq<byte>, w: nat, h: nat, n: nat, alpha: bool)
    requires n > 0 && Spread(final, raw, w, h, n, alpha, 7, 0, 0) && Accepted(raw, w, h, n, alpha)
    ensures final == Bytes(Flat(Weave(raw, w, h, n, alpha), alpha))
  {
    hide Filled, Pixels, Total, Accepted, Flat, Bytes, Weave;
    var m := PixelSize(n, alpha);
    FilledAll(Pixels(final, m), raw, w, h, n, alpha);
    BytesOfPixels(final, m, Total(h, w));
  }

  /** Where the decoded pass has pixel i of its row j, in the pass's own buffer. */
  lemma PassPixel(raw: seq<byte>, w: nat, h: nat, n: nat, alpha: bool, p: nat, out: seq<byte>, j: nat, i: nat,
                  from: nat)
    requires n > 0 && p < 7 && !Empty(w, h, p) && PassOk(raw, w, h, n, alpha, p)
    requires out == Bytes(Flat(PassRows(raw, w, h, n, alpha, p), alpha)) && j < PassHeight(h, p) && i < PassWidth(w, p)
    requires from == (j * PassWidth(w, p) + i) * PixelSize(n, alpha)
    ensures from + PixelSize(n, alpha) <= |out|
    ensures |PassRows(raw, w, h, n, alpha, p)[j]| == PassWidth(w, p)
    ensures out[from..from + PixelSize(n, alpha)] == Laid(PassRows(raw, w, h, n, alpha, p)[j][i], alpha)
  {
    hide PassWidth, PassHeight, PassRows, PassOk, Empty, Flat, Bytes, Total, Laid;
    var rows, pw, m := PassRows(raw, w, h, n, alpha, p), PassWidth(w, p), PixelSize(n, alpha);
    FlatAt(rows, pw, n, alpha, j, i);
    assert IsRow(rows[j], pw, n);
    LaidPixels(rows, pw, n, alpha);
    TotalIsProduct(j, pw);
    TotalIsProduct(j * pw + i, m);
    BytesAt(Flat(rows, alpha), m, j * pw + i);
  }

  /** memcpy. */
  method CopyPixel(out: array<byte>, from: nat, final: array<byte>, to: nat, m: nat)
    requires out != final && from + m <= out.Length && to + m <= final.Length
    modifies final
    ensures final[..] == old(final[..to]) + out[from..from + m] + old(final[to + m..])
  {
    forall k | 0 <= k < m {
      final[to + k] := out[from + k];
    }
  }

  /** The two loops that spread the pixels of a pass over the image. */
  method SpreadPass(out: array<byte>, final: array<byte>, w: nat, h: nat, p: nat, x: nat, y: nat, m: nat,
                    ghost raw: seq<byte>, ghost n: nat, ghost alpha: bool)
    requires p < 7 && x == PassWidth(w, p) && y == PassHeight(h, p) && out != final
    requires n > 0 && m == PixelSize(n, alpha) && !Empty(w, h, p) && PassOk(raw, w, h, n, alpha, p)
    requires out[..] == Bytes(Flat(PassRows(raw, w, h, n, alpha, p), alpha))
    requires Spread(final[..], raw, w, h, n, alpha, p, 0, 0)
    modifies final
    ensures Spread(final[..], raw, w, h, n, alpha, p + 1, 0, 0)
  {
    hide *;
    ghost var was := out[..];
    for j := 0 to y
      invariant out[..] == was && Spread(final[..], raw, w, h, n, alpha, p, j, 0)
    {
      for i := 0 to x
        invariant out[..] == was && Spread(final[..], raw, w, h, n, alpha, p, j, i)
      {
        var from, to := (j * x + i) * m, (Line(p, j) * w + Column(p, i)) * m;
        PassPixel(raw, w, h, n, alpha, p, was, j, i, from);
        ghost var v := was[from..from + m];
        SpreadNext(final[..], raw, w, h, n, alpha, p, j, i, v, to);
        ghost var next := final[..][..to] + v + final[..][to + m..];
        CopyPixel(out, from, final, to, m);
        assert final[..] == next;
      }
      SpreadRow(final[..], raw, w, h, n, alpha, p, j);
    }
    SpreadDone(final[..], raw, w, h, n, alpha, p, y);
  }

  lemma OffsetStep(w: nat, h: nat, m: nat, p: nat)
    requires p < 7
    ensures Offset(w, h, m, 0) == 0
    ensures var x, y := PassWidth(w, p), PassHeight(h, p);
            && Offset(w, h, m, p + 1) == Offset(w, h, m, p) + (if x == 0 || y == 0 then 0 else y * (x * m + 1))
            && (Empty(w, h, p) <==> x == 0 || y == 0)
  {
    hide PassWidth, PassHeight;
    var x, y := PassWidth(w, p), PassHeight(h, p);
    TotalIsProduct(x, m);
    TotalIsProduct(y, x * m + 1);
  }

  /** How the loop over the passes goes on after pass p. */
  lemma PassStep(raw: seq<byte>, w: nat, h: nat, n: nat, alpha: bool, p: nat)
    requires n > 0 && p < 7
    ensures var x, y, start := PassWidth(w, p), PassHeight(h, p), Offset(w, h, PixelSize(n, alpha), p);
            if Empty(w, h, p) then PassesFrom(raw, w, h, n, alpha, p) == PassesFrom(raw, w, h, n, alpha, p + 1)
            else
              var a := RawImage(raw, start, Minus(|raw|, start), n, x, y, x == w && y == h);
              if a.ending == Complete then
                && PassesFrom(raw, w, h, n, alpha, p) == PassesFrom(raw, w, h, n, alpha, p + 1)
                && PassOk(raw, w, h, n, alpha, p) && PassRows(raw, w, h, n, alpha, p) == a.rows
              else PassesFrom(raw, w, h, n, alpha, p) == a.ending
  {
    hide PassWidth, PassHeight, RawImage, Offset, PixelSize;
  }

  /** De-interlacing: all seven passes must be there and decode.  The position and the 32-bit count of what is left both
      advance by the size of the output. */
  method Deinterlace(raw: seq<byte>, n: nat, alpha: bool, w: nat, h: nat) returns (ending: Ending, final: array<byte>)
    requires n > 0
    ensures fresh(final) && ending == PassesFrom(raw, w, h, n, alpha, 0)
    ensures ending == Complete ==>
              Accepted(raw, w, h, n, alpha) && final[..] == Bytes(Flat(Weave(raw, w, h, n, alpha), alpha))
  {
    hide *;
    var m := PixelSize(n, alpha);
    TotalIsProduct(h, w);
    TotalIsProduct(h * w, m);
    final := new byte[h * w * m];
    var start: nat, rawLen: nat := 0, |raw|;
    SpreadStart(final[..], raw, w, h, n, alpha);
    OffsetStep(w, h, m, 0);
    MinusNothing(|raw|);
    for p := 0 to 7
      invariant fresh(final) && start == Offset(w, h, m, p) && rawLen == Minus(|raw|, start)
      invariant PassesFrom(raw, w, h, n, alpha, 0) == PassesFrom(raw, w, h, n, alpha, p)
      invariant Spread(final[..], raw, w, h, n, alpha, p, 0, 0)
    {
      var x, y := PassWidth(w, p), PassHeight(h, p);
      OffsetStep(w, h, m, p);
      PassStep(raw, w, h, n, alpha, p);
      if x != 0 && y != 0 {
        var out;
        ending, out := CreateImageRaw(raw, start, rawLen, n, alpha, x, y, x == w && y == h);
        if ending != Complete { return; }
        SpreadPass(out, final, w, h, p, x, y, m, raw, n, alpha);
        MinusTwice(|raw|, start, y * (x * m + 1));
        start, rawLen := start + y * (x * m + 1), Minus(rawLen, y * (x * m + 1));
      } else {
        SpreadDone(final[..], raw, w, h, n, alpha, p, 0);
      }
    }
    NoPassLeft(raw, w, h, n, alpha);
    AllPasses(raw, w, h, n, alpha, 0);
    AcceptedIff(raw, w, h, n, alpha);
    SpreadAll(final[..], raw, w, h, n, alpha);
    ending := Complete;
  }

  lemma MinusNothing(a: nat)
    ensures Minus(a, 0) == a
  {
  }

  lemma NoPassLeft(raw: seq<byte>, w: nat, h: nat, n: nat, alpha: bool)
    requires n > 0
    ensures PassesFrom(raw, w, h, n, alpha, 7) == Complete
  {
  }

  lemma AcceptedIff(raw: seq<byte>, w: nat, h: nat, n: nat, alpha: bool)
    requires n > 0
    ensures Accepted(raw, w, h, n, alpha) <==> forall p: nat :: p < 7 ==> PassOk(raw, w, h, n, alpha, p)
  {
  }

  /** What the interlaced bytes stand for. */
  ghost function Interlaced(raw: seq<byte>, w: nat, h: nat, n: nat, alpha: bool): (a: Attempt)
    requires n > 0
  {
    var ending := PassesFrom(raw, w, h, n, alpha, 0);
    AllPasses(raw, w, h, n, alpha, 0);
    Attempt(ending, if ending == Complete then Weave(raw, w, h, n, alpha) else [])
  }

  // ---------- interlacing an image ----------

  /** The reduced image that pass p holds. */
  ghost function PassImage(img: seq<Row>, w: nat, h: nat, n: nat, p: nat): (rows: seq<Row>)
    requires p < 7 && |img| == h && AreRows(img, w, n)
    ensures |rows| == PassHeight(h, p) && AreRows(rows, PassWidth(w, p), n)
  {
    hide PassWidth, PassHeight, Line, Column, PassOf, PassLine, PassColumn;
    var rows := seq(PassHeight(h, p), j requires 0 <= j < PassHeight(h, p) =>
      seq(PassWidth(w, p), i requires 0 <= i < PassWidth(w, p) && 0 <= j < PassHeight(h, p) =>
        PixelOf(img, w, h, n, p, j, i)));
    rows
  }

  ghost function PixelOf(img: seq<Row>, w: nat, h: nat, n: nat, p: nat, j: nat, i: nat): (v: Pixel)
    requires p < 7 && |img| == h && AreRows(img, w, n) && i < PassWidth(w, p) && j < PassHeight(h, p)
    ensures |v| == n
  {
    PassInImage(w, h, p, i, j);
    assert IsRow(img[Line(p, j)], w, n);
    img[Line(p, j)][Column(p, i)]
  }

  /** A filter type for every row of every pass that is not empty. */
  ghost predicate Typed(types: seq<seq<byte>>, w: nat, h: nat) {
    |types| == 7 && forall p: nat :: p < 7 ==> |types[p]| == PassHeight(h, p) && Known(types[p])
  }

  /** The bytes of pass p. */
  ghost function PassStream(img: seq<Row>, w: nat, h: nat, n: nat, types: seq<seq<byte>>, p: nat): seq<byte>
    requires p < 7 && |img| == h && AreRows(img, w, n) && Typed(types, w, h)
  {
    if Empty(w, h, p) then []
    else EncodeRows(PassWidth(w, p), n, ZeroRow(PassWidth(w, p), n), PassImage(img, w, h, n, p), types[p])
  }

  /** The bytes of the passes from p on. */
  ghost function Stream(img: seq<Row>, w: nat, h: nat, n: nat, types: seq<seq<byte>>, p: nat): seq<byte>
    requires p <= 7 && |img| == h && AreRows(img, w, n) && Typed(types, w, h)
    decreases 7 - p
  {
    if p == 7 then [] else PassStream(img, w, h, n, types, p) + Stream(img, w, h, n, types, p + 1)
  }

  lemma PassRoundTrip(img: seq<Row>, w: nat, h: nat, n: nat, types: seq<seq<byte>>, p: nat, tail: seq<byte>)
    requires n > 0 && p < 7 && |img| == h && AreRows(img, w, n) && Typed(types, w, h)
    ensures |PassStream(img, w, h, n, types, p)| == PassBytes(w, h, n, p)
    ensures !Empty(w, h, p) ==>
              var pw, ph := PassWidth(w, p), PassHeight(h, p);
              && |PassStream(img, w, h, n, types, p) + tail| >= Total(ph, Total(pw, n) + 1)
              && DecodeRows(PassStream(img, w, h, n, types, p) + tail, pw, n, ph, ZeroRow(pw, n)) ==
                 Some(PassImage(img, w, h, n, p))
  {
    hide PassWidth, PassHeight, DecodeRows, EncodeRows, PassImage, Total, Known, Empty;
    if !Empty(w, h, p) {
      DecodeEncodeRows(PassWidth(w, p), n, ZeroRow(PassWidth(w, p), n), PassImage(img, w, h, n, p), types[p], tail);
    }
  }

  /** Pass p starts where the decoder looks for it. */
  lemma {:induction false} StreamAt(img: seq<Row>, w: nat, h: nat, n: nat, types: seq<seq<byte>>, p: nat)
    requires n > 0 && p <= 7 && |img| == h && AreRows(img, w, n) && Typed(types, w, h)
    ensures var all := Stream(img, w, h, n, types, 0);
            Offset(w, h, n, p) <= |all| && all[Offset(w, h, n, p)..] == Stream(img, w, h, n, types, p)
  {
    hide PassWidth, PassHeight, PassBytes, PassStream, Typed, AreRows;
    if p > 0 {
      var q: nat := p - 1;
      var all := Stream(img, w, h, n, types, 0);
      StreamAt(img, w, h, n, types, q);
      PassRoundTrip(img, w, h, n, types, q, []);
      var at, size := Offset(w, h, n, q), PassBytes(w, h, n, q);
      assert all[at..] == PassStream(img, w, h, n, types, q) + Stream(img, w, h, n, types, p);
      assert all[at + size..] == all[at..][size..];
    }
  }

  lemma WholePass(w: nat, h: nat, p: nat)
    requires p < 7 && !Empty(w, h, p) && PassWidth(w, p) == w && PassHeight(h, p) == h
    ensures w == 1 && h == 1 && p == 0
  {
  }

  lemma OnlyFirst(q: nat)
    requires 0 < q < 7
    ensures Empty(1, 1, q)
  {
  }

  lemma {:induction false} NothingAfter(img: seq<Row>, n: nat, types: seq<seq<byte>>, q: nat)
    requires 0 < q <= 7 && |img| == 1 && AreRows(img, 1, n) && Typed(types, 1, 1)
    ensures Stream(img, 1, 1, n, types, q) == []
    decreases 7 - q
  {
    hide Typed, AreRows, Empty;
    if q < 7 {
      OnlyFirst(q);
      NothingAfter(img, n, types, q + 1);
    }
  }

  /** A pass that is found at its place, with enough data. */
  lemma PassFound(raw: seq<byte>, w: nat, h: nat, n: nat, alpha: bool, p: nat, rows: seq<Row>)
    requires n > 0 && p < 7
    requires var at, pw, ph := Offset(w, h, PixelSize(n, alpha), p), PassWidth(w, p), PassHeight(h, p);
             var need := Total(ph, Total(pw, n) + 1);
             && at <= |raw| && |raw| - at >= need && (pw == w && ph == h ==> |raw| - at == need)
             && DecodeRows(raw[at..], pw, n, ph, ZeroRow(pw, n)) == Some(rows)
    ensures PassRead(raw, w, h, n, alpha, p) == Attempt(Complete, rows)
  {
    hide PassWidth, PassHeight, DecodeRows, RowsFrom, Offset, Total, PixelSize;
    var at, pw, ph := Offset(w, h, PixelSize(n, alpha), p), PassWidth(w, p), PassHeight(h, p);
    EnoughData(raw, at, pw, n, ph, ZeroRow(pw, n));
  }

  lemma StreamUnfold(img: seq<Row>, w: nat, h: nat, n: nat, types: seq<seq<byte>>, p: nat)
    requires p < 7 && |img| == h && AreRows(img, w, n) && Typed(types, w, h)
    ensures Stream(img, w, h, n, types, p) == PassStream(img, w, h, n, types, p) + Stream(img, w, h, n, types, p + 1)
  {
    hide PassStream, Typed, AreRows;
  }

  /** From where pass p starts, the data is its bytes and then those of the later passes. */
  lemma StreamFrom(img: seq<Row>, w: nat, h: nat, n: nat, types: seq<seq<byte>>, p: nat)
    requires n > 0 && p < 7 && |img| == h && AreRows(img, w, n) && Typed(types, w, h)
    ensures var all, at := Stream(img, w, h, n, types, 0), Offset(w, h, n, p);
            && at <= |all| && all[at..] == PassStream(img, w, h, n, types, p) + Stream(img, w, h, n, types, p + 1)
  {
    hide *;
    StreamAt(img, w, h, n, types, p);
    StreamUnfold(img, w, h, n, types, p);
  }

  lemma PassAccepted(img: seq<Row>, w: nat, h: nat, n: nat, types: seq<seq<byte>>, p: nat)
    requires n > 0 && p < 7 && |img| == h && AreRows(img, w, n) && Typed(types, w, h)
    ensures var raw := Stream(img, w, h, n, types, 0);
            !Empty(w, h, p) ==> PassRead(raw, w, h, n, false, p) == Attempt(Complete, PassImage(img, w, h, n, p))
  {
    hide *;
    if !Empty(w, h, p) {
      var raw, at := Stream(img, w, h, n, types, 0), Offset(w, h, n, p);
      var part, tail := PassStream(img, w, h, n, types, p), Stream(img, w, h, n, types, p + 1);
      StreamFrom(img, w, h, n, types, p);
      PassRoundTrip(img, w, h, n, types, p, tail);
      PixelSizeIs(n);
      PassBytesIs(w, h, n, p);
      assert |raw| - at == |part| + |tail|;
      if PassWidth(w, p) == w && PassHeight(h, p) == h {
        WholePass(w, h, p);
        NothingAfter(img, n, types, 1);
      }
      PassFound(raw, w, h, n, false, p, PassImage(img, w, h, n, p));
    }
  }

  lemma PassBytesIs(w: nat, h: nat, n: nat, p: nat)
    requires p < 7 && !Empty(w, h, p)
    ensures PassBytes(w, h, n, p) == Total(PassHeight(h, p), Total(PassWidth(w, p), n) + 1)
  {
  }

  lemma PixelSizeIs(n: nat)
    ensures PixelSize(n, true) == n + 1 && PixelSize(n, false) == n
  {
  }

  lemma PassImageAt(img: seq<Row>, w: nat, h: nat, n: nat, c: nat, r: nat)
    requires |img| == h && AreRows(img, w, n) && c < w && r < h
    ensures var p, j, i := PassOf(c, r), PassLine(c, r), PassColumn(c, r);
            && !Empty(w, h, p) && j < PassHeight(h, p) && i < PassWidth(w, p)
            && i < |PassImage(img, w, h, n, p)[j]|
            && c < |img[r]| && PassImage(img, w, h, n, p)[j][i] == img[r][c]
  {
    hide PassOf, PassLine, PassColumn, PassWidth, PassHeight, Line, Column;
    PixelInPass(w, h, c, r);
    assert IsRow(img[r], w, n);
  }

  lemma WeaveAt(raw: seq<byte>, w: nat, h: nat, n: nat, alpha: bool, c: nat, r: nat)
    requires n > 0 && Accepted(raw, w, h, n, alpha) && c < w && r < h
    ensures var p, j, i := PassOf(c, r), PassLine(c, r), PassColumn(c, r);
            && !Empty(w, h, p) && j < PassHeight(h, p) && i < PassWidth(w, p)
            && PassOk(raw, w, h, n, alpha, p) && i < |PassRows(raw, w, h, n, alpha, p)[j]|
            && c < |Weave(raw, w, h, n, alpha)[r]|
            && Weave(raw, w, h, n, alpha)[r][c] == PassRows(raw, w, h, n, alpha, p)[j][i]
  {
    hide PassOf, PassLine, PassColumn, PassWidth, PassHeight, Line, Column, PassOk, PassRows;
    PixelInPass(w, h, c, r);
    assert IsRow(Weave(raw, w, h, n, alpha)[r], w, n);
    assert IsRow(PassRows(raw, w, h, n, alpha, PassOf(c, r))[PassLine(c, r)], PassWidth(w, PassOf(c, r)), n);
  }

  lemma RowsEqual(a: seq<Row>, b: seq<Row>, w: nat, h: nat, n: nat)
    requires |a| == h && |b| == h && AreRows(a, w, n) && AreRows(b, w, n)
    requires forall r: nat, c: nat :: r < h && c < w && c < |a[r]| && c < |b[r]| ==> a[r][c] == b[r][c]
    ensures a == b
  {
    forall r: nat | r < h
      ensures a[r] == b[r]
    {
      assert IsRow(a[r], w, n) && IsRow(b[r], w, n);
    }
  }

  /** The passes make up the image when each of them is the part of the image that belongs to it. */
  lemma Rebuilt(img: seq<Row>, w: nat, h: nat, n: nat, alpha: bool, raw: seq<byte>)
    requires n > 0 && |img| == h && AreRows(img, w, n)
    requires forall p: nat :: p < 7 ==>
               Empty(w, h, p) || PassRead(raw, w, h, n, alpha, p) == Attempt(Complete, PassImage(img, w, h, n, p))
    ensures Interlaced(raw, w, h, n, alpha) == Attempt(Complete, img)
  {
    hide *;
    forall p: nat | p < 7
      ensures PassOk(raw, w, h, n, alpha, p)
      ensures !Empty(w, h, p) ==> PassRows(raw, w, h, n, alpha, p) == PassImage(img, w, h, n, p)
    {
      PassIs(raw, w, h, n, alpha, p);
    }
    AcceptedIff(raw, w, h, n, alpha);
    InterlacedIs(raw, w, h, n, alpha);
    assert Accepted(raw, w, h, n, alpha);
    var rows := Weave(raw, w, h, n, alpha);
    forall r: nat, c: nat | r < h && c < w && c < |rows[r]| && c < |img[r]|
      ensures rows[r][c] == img[r][c]
    {
      WeaveAt(raw, w, h, n, alpha, c, r);
      PassImageAt(img, w, h, n, c, r);
    }
    RowsEqual(rows, img, w, h, n);
  }

  lemma PassIs(raw: seq<byte>, w: nat, h: nat, n: nat, alpha: bool, p: nat)
    requires n > 0 && p < 7
    ensures PassOk(raw, w, h, n, alpha, p) <==> Empty(w, h, p) || PassRead(raw, w, h, n, alpha, p).ending == Complete
    ensures PassOk(raw, w, h, n, alpha, p) && !Empty(w, h, p) ==>
              PassRows(raw, w, h, n, alpha, p) == PassRead(raw, w, h, n, alpha, p).rows
  {
    hide PassRead, Empty;
  }

  lemma InterlacedIs(raw: seq<byte>, w: nat, h: nat, n: nat, alpha: bool)
    requires n > 0
    ensures Interlaced(raw, w, h, n, alpha).ending == PassesFrom(raw, w, h, n, alpha, 0)
    ensures Interlaced(raw, w, h, n, alpha).ending != Complete ==> Interlaced(raw, w, h, n, alpha).rows == []
    ensures Accepted(raw, w, h, n, alpha) ==>
              Interlaced(raw, w, h, n, alpha) == Attempt(Complete, Weave(raw, w, h, n, alpha))
  {
    hide PassesFrom, Weave, PassOk;
    AllPasses(raw, w, h, n, alpha, 0);
  }

  /** De-interlacing restores an interlaced image, whatever filter each row of each pass uses. */
  lemma InterlaceRestores(img: seq<Row>, w: nat, h: nat, n: nat, types: seq<seq<byte>>)
    requires n > 0 && |img| == h && AreRows(img, w, n) && Typed(types, w, h)
    ensures Interlaced(Stream(img, w, h, n, types, 0), w, h, n, false) == Attempt(Complete, img)
  {
    hide *;
    var raw := Stream(img, w, h, n, types, 0);
    forall p: nat | p < 7
      ensures Empty(w, h, p) || PassRead(raw, w, h, n, false, p) == Attempt(Complete, PassImage(img, w, h, n, p))
    {
      PassAccepted(img, w, h, n, types, p);
    }
    Rebuilt(img, w, h, n, false, raw);
  }

  // ---------- an alpha added while de-interlacing ----------

  /** The first pass is looked for at the beginning, with or without an alpha. */
  lemma FirstPassSame(raw: seq<byte>, w: nat, h: nat, n: nat)
    requires n > 0
    ensures PassRead(raw, w, h, n, true, 0) == PassRead(raw, w, h, n, false, 0)
  {
    hide RawImage;
  }

  lemma StreamSize(img: seq<Row>, w: nat, h: nat, n: nat, types: seq<seq<byte>>)
    requires n > 0 && |img| == h && AreRows(img, w, n) && Typed(types, w, h)
    ensures |Stream(img, w, h, n, types, 0)| == Offset(w, h, n, 7)
  {
    hide AreRows, Typed, Offset, PassStream;
    StreamAt(img, w, h, n, types, 7);
  }

  /** The last pass that is not empty. */
  function LastPass(h: nat): (p: nat)
    ensures p < 7
  {
    if h > 1 then 6 else 5
  }

  lemma LastPassIs(w: nat, h: nat, n: nat)
    requires w > 0 && h > 0 && !(w == 1 && h == 1)
    ensures !Empty(w, h, LastPass(h))
    ensures var x, y := PassWidth(w, LastPass(h)), PassHeight(h, LastPass(h));
            y > 0 && Offset(w, h, n, 7) == Offset(w, h, n, LastPass(h)) + Total(y, Total(x, n) + 1)
  {
    hide Total;
    assert Offset(w, h, n, 7) == Offset(w, h, n, 6) + PassBytes(w, h, n, 6);
    assert Offset(w, h, n, 6) == Offset(w, h, n, 5) + PassBytes(w, h, n, 5);
  }

  /** A pass that would end behind the data is not completed. */
  lemma PassBehind(raw: seq<byte>, w: nat, h: nat, n: nat, alpha: bool, p: nat)
    requires n > 0 && p < 7 && PassHeight(h, p) > 0
    requires Offset(w, h, PixelSize(n, alpha), p) + Total(PassHeight(h, p), Total(PassWidth(w, p), n) + 1) > |raw|
    ensures PassRead(raw, w, h, n, alpha, p).ending != Complete
  {
    hide PassWidth, PassHeight, RowsFrom, Offset, Total, PixelSize;
    var x, y := PassWidth(w, p), PassHeight(h, p);
    ShortData(raw, Offset(w, h, PixelSize(n, alpha), p), x, n, y, ZeroRow(x, n));
  }

  /** With an alpha added, decoding an interlaced image gives the picture exactly when the image is a single pixel; any
      other is refused, or the source reads behind its data. */
  lemma AlphaOnlyOnePixel(img: seq<Row>, w: nat, h: nat, n: nat, types: seq<seq<byte>>)
    requires n > 0 && w > 0 && h > 0 && |img| == h && AreRows(img, w, n) && Typed(types, w, h)
    ensures var a := Interlaced(Stream(img, w, h, n, types, 0), w, h, n, true);
            && (a == Attempt(Complete, img) <==> w == 1 && h == 1)
            && (a.ending == Complete <==> w == 1 && h == 1)
  {
    hide *;
    var raw := Stream(img, w, h, n, types, 0);
    if w == 1 && h == 1 {
      forall p: nat | p < 7
        ensures Empty(w, h, p) || PassRead(raw, w, h, n, true, p) == Attempt(Complete, PassImage(img, w, h, n, p))
      {
        if p > 0 { OnlyFirst(p); }
        PassAccepted(img, w, h, n, types, p);
        FirstPassSame(raw, w, h, n);
      }
      Rebuilt(img, w, h, n, true, raw);
    } else {
      var p := LastPass(h);
      LastPassIs(w, h, n);
      LastPassNotFirst(h);
      OffsetGrows(w, h, n, p);
      StreamSize(img, w, h, n, types);
      PixelSizeIs(n);
      PassBehind(raw, w, h, n, true, p);
      PassIs(raw, w, h, n, true, p);
      AllPasses(raw, w, h, n, true, 0);
      InterlacedIs(raw, w, h, n, true);
    }
  }

  lemma LastPassNotFirst(h: nat)
    ensures 0 < LastPass(h) <= 6
  {
  }

  lemma {:induction false} SkipPasses(raw: seq<byte>, w: nat, h: nat, n: nat, alpha: bool, p: nat)
    requires n > 0 && p <= 7 && forall q: nat :: q < p ==> PassOk(raw, w, h, n, alpha, q)
    ensures PassesFrom(raw, w, h, n, alpha, 0) == PassesFrom(raw, w, h, n, alpha, p)
  {
    hide PassRead, PassOk;
    if p > 0 { SkipPasses(raw, w, h, n, alpha, p - 1); }
  }

  /** The first pass that fails decides how it all ends. */
  lemma FirstFailing(raw: seq<byte>, w: nat, h: nat, n: nat, alpha: bool, p: nat)
    requires n > 0 && p < 7 && forall q: nat :: q < p ==> PassOk(raw, w, h, n, alpha, q)
    requires !Empty(w, h, p) && PassRead(raw, w, h, n, alpha, p).ending != Complete
    ensures Interlaced(raw, w, h, n, alpha) == Attempt(PassRead(raw, w, h, n, alpha, p).ending, [])
  {
    hide PassRead, Empty, Interlaced;
    SkipPasses(raw, w, h, n, alpha, p);
    InterlacedIs(raw, w, h, n, alpha);
  }

  /** The parts of images of 2 by 1 and of 2 by 3 pixels. */
  lemma SmallParts()
    ensures PassWidth(2, 0) == PassWidth(2, 4) == PassWidth(2, 5) == 1 && PassWidth(2, 6) == 2
    ensures PassWidth(2, 1) == PassWidth(2, 3) == 0
    ensures PassHeight(1, 0) == PassHeight(1, 5) == 1
    ensures PassHeight(1, 2) == PassHeight(1, 4) == PassHeight(1, 6) == 0
    ensures PassHeight(3, 0) == PassHeight(3, 4) == PassHeight(3, 6) == 1 && PassHeight(3, 5) == 2
            && PassHeight(3, 2) == 0
  {
  }

  lemma SmallTotals()
    ensures Total(1, 1) == 1 && Total(1, 2) == 2 && Total(2, 1) == 2 && Total(1, 3) == 3 && Total(2, 2) == 4
            && Total(2, 3) == 6
    ensures Total(1, 5) == 5
  {
    assert Total(2, 1) == 1 + Total(1, 1) && Total(2, 2) == 2 + Total(1, 2) && Total(2, 3) == 3 + Total(1, 3);
  }

  /** Where the passes of an image two pixels wide are, with one byte a pixel, and where the source looks with two. */
  lemma SmallOffsets(h: nat)
    requires h in {1, 3}
    ensures Offset(2, h, 1, 4) == 2 && Offset(2, h, 2, 4) == 3
    ensures h == 1 ==> Offset(2, h, 2, 5) == 3 && Offset(2, h, 1, 7) == 4
    ensures h == 3 ==> Offset(2, h, 1, 5) == 4 && Offset(2, h, 1, 6) == 8 && Offset(2, h, 1, 7) == 11
    ensures h == 3 ==> Offset(2, h, 2, 5) == 6 && Offset(2, h, 2, 6) == 12
  {
    hide PassWidth, PassHeight, Total;
    SmallParts();
    SmallTotals();
    assert Offset(2, h, 1, 1) == 2 && Offset(2, h, 2, 1) == 3;
    assert Offset(2, h, 1, 2) == 2 && Offset(2, h, 2, 2) == 3;
    assert Offset(2, h, 1, 3) == 2 && Offset(2, h, 2, 3) == 3;
    assert Offset(2, h, 1, 4) == 2 && Offset(2, h, 2, 4) == 3;
    assert Offset(2, h, 1, 5) == (if h == 1 then 2 else 4) && Offset(2, h, 2, 5) == (if h == 1 then 3 else 6);
    assert Offset(2, h, 1, 6) == (if h == 1 then 4 else 8) && (h == 3 ==> Offset(2, h, 2, 6) == 12);
  }

  /** The first pass is read, the next ones are empty. */
  lemma SmallStart(img: seq<Row>, h: nat, types: seq<seq<byte>>)
    requires h in {1, 3} && |img| == h && AreRows(img, 2, 1) && Typed(types, 2, h)
    ensures forall q: nat :: q < (if h == 1 then 5 else 4) ==> PassOk(Stream(img, 2, h, 1, types, 0), 2, h, 1, true, q)
  {
    hide Stream, AreRows, Typed, PassRead, PassImage, PassWidth, PassHeight;
    SmallParts();
    PassAccepted(img, 2, h, 1, types, 0);
    FirstPassSame(Stream(img, 2, h, 1, types, 0), 2, h, 1);
  }

  /** Two gray pixels next to each other are always refused. */
  lemma AlphaRefused(img: seq<Row>, types: seq<seq<byte>>)
    requires |img| == 1 && AreRows(img, 2, 1) && Typed(types, 2, 1)
    ensures Interlaced(Stream(img, 2, 1, 1, types, 0), 2, 1, 1, true) == Attempt(Refused, [])
  {
    hide Stream, AreRows, Typed, Interlaced, RowsFrom, PassWidth, PassHeight, Offset, Total, PassOk;
    var raw := Stream(img, 2, 1, 1, types, 0);
    StreamSize(img, 2, 1, 1, types);
    SmallParts();
    SmallTotals();
    SmallOffsets(1);
    SmallStart(img, 1, types);
    FirstFailing(raw, 2, 1, 1, true, 5);
  }

  /** The filter byte of the row at `pos` is known, and the row is there. */
  lemma RowThere(raw: seq<byte>, pos: nat, x: nat, n: nat, y: nat, prev: Row)
    requires n > 0 && 0 < y && IsRow(prev, x, n) && pos + 1 + Total(x, n) <= |raw| && raw[pos] <= 4
    ensures IsRow(Scanline(raw[pos], raw, pos + 1, x, n, prev), x, n)
    ensures RowsFrom(raw, pos, x, n, y, prev).ending ==
            RowsFrom(raw, pos + 1 + Total(x, n), x, n, y - 1, Scanline(raw[pos], raw, pos + 1, x, n, prev)).ending
  {
    hide Scanline, IsRow;
  }

  lemma NoRow(raw: seq<byte>, pos: nat, x: nat, n: nat, prev: Row)
    requires n > 0 && IsRow(prev, x, n)
    ensures RowsFrom(raw, pos, x, n, 0, prev).ending == Complete
  {
  }

  /** The filter byte of row j of some filtered rows. */
  lemma {:induction false} FilterByte(x: nat, n: nat, prior: Row, rows: seq<Row>, types: seq<byte>, j: nat)
    requires IsRow(prior, x, n) && |types| == |rows| && AreRows(rows, x, n) && Known(types) && j < |rows|
    ensures var raw, at := EncodeRows(x, n, prior, rows, types), Total(j, Total(x, n) + 1);
            at < |raw| && raw[at] == types[j] <= 4
    decreases j
  {
    hide FilterRow, Bytes, IsRow;
    var filtered := FilterRow(types[0], x, n, prior, rows[0]);
    if j > 0 {
      FilteredSize(types[0], x, n, prior, rows[0]);
      FilterByte(x, n, rows[0], rows[1..], types[1..], j - 1);
    }
  }

  lemma FilteredSize(t: nat, x: nat, n: nat, prior: Row, cur: Row)
    requires IsRow(prior, x, n) && IsRow(cur, x, n)
    ensures |Bytes(FilterRow(t, x, n, prior, cur))| == Total(x, n)
  {
    BytesSize(FilterRow(t, x, n, prior, cur), n);
  }

  /** The filter byte of row j of pass p, in the interlaced data. */
  lemma FilterByteAt(img: seq<Row>, w: nat, h: nat, n: nat, types: seq<seq<byte>>, p: nat, j: nat)
    requires n > 0 && p < 7 && |img| == h && AreRows(img, w, n) && Typed(types, w, h)
    requires !Empty(w, h, p) && j < PassHeight(h, p)
    ensures var raw, at := Stream(img, w, h, n, types, 0), Offset(w, h, n, p) + Total(j, Total(PassWidth(w, p), n) + 1);
            at < |raw| && raw[at] <= 4
  {
    hide *;
    var raw, at, part := Stream(img, w, h, n, types, 0), Offset(w, h, n, p), PassStream(img, w, h, n, types, p);
    var k := Total(j, Total(PassWidth(w, p), n) + 1);
    StreamFrom(img, w, h, n, types, p);
    PartFilterByte(img, w, h, n, types, p, j);
    assert raw[at + k] == raw[at..][k] == part[k];
  }

  lemma PartFilterByte(img: seq<Row>, w: nat, h: nat, n: nat, types: seq<seq<byte>>, p: nat, j: nat)
    requires n > 0 && p < 7 && |img| == h && AreRows(img, w, n) && Typed(types, w, h)
    requires !Empty(w, h, p) && j < PassHeight(h, p)
    ensures var part, k := PassStream(img, w, h, n, types, p), Total(j, Total(PassWidth(w, p), n) + 1);
            k < |part| && part[k] <= 4
  {
    hide PassWidth, PassHeight, EncodeRows, PassImage, Total, Known, Empty;
    FilterByte(PassWidth(w, p), n, ZeroRow(PassWidth(w, p), n), PassImage(img, w, h, n, p), types[p], j);
  }

  /** The walk through the data of 2 by 3 gray pixels.  Byte 3 is the only pixel of the fifth pass; the source takes
      it for a filter type.  When that is a known one it ends up behind the data: it takes 12 off the 11 bytes there
      are, which leaves almost 2^32, and reads on. */
  lemma AlphaThreeRows(img: seq<Row>, types: seq<seq<byte>>)
    requires |img| == 3 && AreRows(img, 2, 1) && Typed(types, 2, 3)
    ensures var raw := Stream(img, 2, 3, 1, types, 0);
            && |raw| == 11
            && Interlaced(raw, 2, 3, 1, true) == Attempt(if raw[3] <= 4 then PastData else Refused, [])
  {
    hide Stream, AreRows, Typed, Interlaced, PassWidth, PassHeight, Offset, Total, PassOk, PassRead;
    var raw := Stream(img, 2, 3, 1, types, 0);
    StreamSize(img, 2, 3, 1, types);
    SmallParts();
    SmallTotals();
    SmallOffsets(3);
    SmallStart(img, 3, types);
    ThreeRowsReads(raw);
    if raw[3] > 4 {
      FirstFailing(raw, 2, 3, 1, true, 4);
    } else {
      FilterByteAt(img, 2, 3, 1, types, 5, 1);
      FilterByteAt(img, 2, 3, 1, types, 6, 0);
      NoOffset(3);
      PassIs(raw, 2, 3, 1, true, 4);
      PassIs(raw, 2, 3, 1, true, 5);
      FirstFailing(raw, 2, 3, 1, true, 6);
    }
  }

  lemma NoOffset(size: nat)
    ensures Total(0, size) == 0
  {
  }

  lemma ThreeRowsReads(raw: seq<byte>)
    requires |raw| == 11
    ensures PassRead(raw, 2, 3, 1, true, 4).ending == if raw[3] <= 4 then Complete else Refused
    ensures raw[6] <= 4 && raw[8] <= 4 ==> PassRead(raw, 2, 3, 1, true, 5).ending == Complete
    ensures PassRead(raw, 2, 3, 1, true, 6).ending == PastData
  {
    hide PassWidth, PassHeight, Offset, Total, Scanline, RowsFrom;
    SmallParts();
    SmallTotals();
    SmallOffsets(3);
    var zero := ZeroRow(1, 1);
    assert IsRow(zero, 1, 1) && IsRow(ZeroRow(2, 1), 2, 1);
    if raw[3] <= 4 {
      RowThere(raw, 3, 1, 1, 1, zero);
      NoRow(raw, 5, 1, 1, Scanline(raw[3], raw, 4, 1, 1, zero));
    } else {
      RowUnknown(raw, 3, 1, 1, 1, zero);
    }
    if raw[6] <= 4 && raw[8] <= 4 {
      RowThere(raw, 6, 1, 1, 2, zero);
      var first := Scanline(raw[6], raw, 7, 1, 1, zero);
      RowThere(raw, 8, 1, 1, 1, first);
      NoRow(raw, 10, 1, 1, Scanline(raw[8], raw, 9, 1, 1, first));
    }
    RowBehind(raw, 12, 2, 1, 1, ZeroRow(2, 1));
  }

  lemma RowUnknown(raw: seq<byte>, pos: nat, x: nat, n: nat, y: nat, prev: Row)
    requires n > 0 && 0 < y && IsRow(prev, x, n) && pos < |raw| && raw[pos] > 4
    ensures RowsFrom(raw, pos, x, n, y, prev).ending == Refused
  {
  }

  lemma RowBehind(raw: seq<byte>, pos: nat, x: nat, n: nat, y: nat, prev: Row)
    requires n > 0 && 0 < y && IsRow(prev, x, n) && pos >= |raw|
    ensures RowsFrom(raw, pos, x, n, y, prev).ending == PastData
  {
  }

  /** Such an image: six black pixels, not filtered. */
  lemma AlphaReadsPast() returns (img: seq<Row>, types: seq<seq<byte>>)
    ensures |img| == 3 && AreRows(img, 2, 1) && Typed(types, 2, 3)
    ensures Interlaced(Stream(img, 2, 3, 1, types, 0), 2, 3, 1, true).ending == PastData
  {
    hide *;
    img, types := BlackImage(), BlackTypes();
    BlackTyped();
    AlphaThreeRows(img, types);
    BlackByte(img, types);
  }

  function BlackImage(): seq<Row> {
    [ZeroRow(2, 1), ZeroRow(2, 1), ZeroRow(2, 1)]
  }

  function BlackTypes(): seq<seq<byte>> {
    [[0], [0], [], [0], [0], [0, 0], [0]]
  }

  lemma BlackTyped()
    ensures |BlackImage()| == 3 && AreRows(BlackImage(), 2, 1)
    ensures Typed(BlackTypes(), 2, 3) && |BlackTypes()| == 7 && BlackTypes()[4] == [0]
  {
    hide PassHeight;
    AllParts();
  }

  lemma AllParts()
    ensures forall p: nat :: p < 7 ==> PassHeight(3, p) == if p == 2 then 0 else if p == 5 then 2 else 1
  {
  }

  lemma BlackByte(img: seq<Row>, types: seq<seq<byte>>)
    requires img == BlackImage() && AreRows(img, 2, 1)
    requires Typed(types, 2, 3) && |types| == 7 && types[4] == [0]
    ensures var raw := Stream(img, 2, 3, 1, types, 0); |raw| > 3 && raw[3] == 0
  {
    hide PassWidth, PassHeight, Offset, Total, Typed, FilterRow, Stream;
    SmallParts();
    SmallTotals();
    SmallOffsets(3);
    StreamSize(img, 2, 3, 1, types);
    StreamAt(img, 2, 3, 1, types, 4);
    var raw, rows := Stream(img, 2, 3, 1, types, 0), PassImage(img, 2, 3, 1, 4);
    var tail := Stream(img, 2, 3, 1, types, 5);
    StreamUnfold(img, 2, 3, 1, types, 4);
    BlackPass(img, rows[0]);
    var filtered := FilterRow(0, 1, 1, ZeroRow(1, 1), rows[0]);
    assert raw[2..] == [0] + Bytes(filtered) + EncodeRows(1, 1, rows[0], rows[1..], types[4][1..]) + tail;
    assert raw[3] == raw[2..][1];
  }

  lemma BlackPass(img: seq<Row>, row: Row)
    requires img == BlackImage() && AreRows(img, 2, 1)
    requires PassHeight(3, 4) == 1 && row == PassImage(img, 2, 3, 1, 4)[0] && IsRow(row, 1, 1)
    ensures Bytes(FilterRow(0, 1, 1, ZeroRow(1, 1), row)) == [0]
  {
    assert row[0] == PixelOf(img, 2, 3, 1, 4, 0, 0) == [0];
    var filtered := FilterRow(0, 1, 1, ZeroRow(1, 1), row);
    assert filtered[0] == [0];
    assert filtered == [[0]];
    assert [[0 as byte]][1..] == [];
  }

  lemma {:induction false} OffsetGrows(w: nat, h: nat, n: nat, p: nat)
    requires w > 0 && h > 0 && 0 < p <= 7
    ensures Offset(w, h, n, p) < Offset(w, h, n + 1, p)
  {
    hide PassWidth, PassHeight;
    var q: nat := p - 1;
    if !Empty(w, h, q) {
      TotalGrows(PassWidth(w, q), n, n + 1);
      TotalGrows(PassHeight(h, q), Total(PassWidth(w, q), n) + 1, Total(PassWidth(w, q), n + 1) + 1);
    }
    if q > 0 { OffsetGrows(w, h, n, q); } else { FirstPass(w, h); }
  }

  lemma FirstPass(w: nat, h: nat)
    requires w > 0 && h > 0
    ensures !Empty(w, h, 0)
  {
  }

  lemma {:induction false} TotalGrows(y: nat, a: nat, b: nat)
    requires a < b && y > 0
    ensures Total(y, a) < Total(y, b)
  {
    if y > 1 { TotalGrows(y - 1, a, b); }
  }

  // ---------- stbi__create_png_image ----------

  /** The image that the bytes stand for. */
  ghost function Image(raw: seq<byte>, n: nat, alpha: bool, w: nat, h: nat, interlaced: bool): Attempt
    requires n > 0
  {
    if interlaced then Interlaced(raw, w, h, n, alpha)
    else RawImage(raw, 0, |raw|, n, w, h, true)
  }

  /** Without an added alpha the decoder never reads behind the data of the passes. */
  lemma {:induction false} PassesWithin(raw: seq<byte>, w: nat, h: nat, n: nat, p: nat)
    requires n > 0 && p <= 7 && Offset(w, h, n, p) <= |raw|
    ensures PassesFrom(raw, w, h, n, false, p) != PastData
    decreases 7 - p
  {
    hide PassWidth, PassHeight, RowsFrom, DecodeRows, Total, ZeroRow;
    if p < 7 {
      var at, x, y := Offset(w, h, n, p), PassWidth(w, p), PassHeight(h, p);
      if |raw| - at >= Total(y, Total(x, n) + 1) {
        ZeroIsRow(x, n);
        EnoughData(raw, at, x, n, y, ZeroRow(x, n));
        PassesWithin(raw, w, h, n, p + 1);
      } else if Empty(w, h, p) {
        PassesWithin(raw, w, h, n, p + 1);
      }
    }
  }

  lemma ZeroIsRow(x: nat, n: nat)
    ensures IsRow(ZeroRow(x, n), x, n)
  {
  }

  /** Only an interlaced image with an added alpha can make the decoder read behind its data. */
  lemma OnlyAlphaOverruns(raw: seq<byte>, n: nat, alpha: bool, w: nat, h: nat, interlaced: bool)
    requires n > 0 && Image(raw, n, alpha, w, h, interlaced).ending == PastData
    ensures interlaced && alpha
  {
    hide Offset, PassesFrom, RowsFrom, DecodeRows, Total, ZeroRow;
    if interlaced {
      OffsetStep(w, h, n, 0);
      if !alpha { PassesWithin(raw, w, h, n, 0); }
    } else {
      ZeroIsRow(w, n);
      if |raw| >= Total(h, Total(w, n) + 1) { EnoughData(raw, 0, w, n, h, ZeroRow(w, n)); }
    }
  }

  method CreateImage(raw: seq<byte>, n: nat, alpha: bool, w: nat, h: nat, interlaced: bool)
    returns (ending: Ending, out: array<byte>)
    requires n > 0
    ensures fresh(out)
    ensures var a := Image(raw, n, alpha, w, h, interlaced);
            ending == a.ending && (ending == Complete ==> out[..] == Bytes(Flat(a.rows, alpha)))
  {
    hide Accepted, Weave, PassesFrom, RawImage, Total, Flat, Bytes;
    if interlaced {
      ending, out := Deinterlace(raw, n, alpha, w, h);
    } else {
      ending, out := CreateImageRaw(raw, 0, |raw|, n, alpha, w, h, true);
    }
  }
}
