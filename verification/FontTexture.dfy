/** Glyph textures: reserve_texture_space and texel_to_coordinate of client/vsx-font.c.

    Every texture has its own rectangle allocator.  A new glyph goes to the
    first texture in the list with room, or to a new texture put at the front. */
module FontTexture {
  import opened Bsp
  import opened BspTree

  const TEXTURE_SIZE := 1024
  const UINT16_MAX := 65535

  /** Maps a texel to the 16-bit texture coordinate, rounding to nearest; the result is stored in 16 bits. */
  function TexelToCoordinate(texel: nat): (c: nat)
    ensures texel <= TEXTURE_SIZE ==> c == (texel * UINT16_MAX + 512) / 1024 <= UINT16_MAX
  {
    ((texel * UINT16_MAX + TEXTURE_SIZE / 2) / TEXTURE_SIZE) % (UINT16_MAX + 1)
  }

  datatype GlyphEntry = GlyphEntry(texNum: nat, s1: nat, t1: nat, s2: nat, t2: nat)

  datatype Texture = Texture(tex: nat, bsp: Allocator)

  /** A reservation: which texture, and which texels of it. */
  datatype Box = Box(tex: nat, rect: Rect)

  function EntryOf(tex: nat, r: Rect): (e: GlyphEntry)
    requires 0 <= r.x && 0 <= r.y && 0 <= r.width && 0 <= r.height
    ensures e.texNum == tex
  {
    GlyphEntry(tex, TexelToCoordinate(r.x), TexelToCoordinate(r.y),
               TexelToCoordinate(r.x + r.width), TexelToCoordinate(r.y + r.height))
  }

  /** The texture has an empty leaf that is big enough. */
  ghost predicate HasRoom(t: Texture, width: int, height: int)
    reads t.bsp
  {
    FirstFit(t.bsp.AllLeaves(), width, height) < |t.bsp.AllLeaves()|
  }

  lemma CoordinateMonotone(a: nat, b: nat)
    requires a < b <= TEXTURE_SIZE
    ensures TexelToCoordinate(a) < TexelToCoordinate(b) <= UINT16_MAX
  {
  }

  /** A texel times 65535 / 1024, rounded to nearest. */
  function Scaled(texel: nat): nat {
    (texel * 65535 + 512) / 1024
  }

  /** s runs along x and t along y, from the corner of a box to the opposite one; 16 bits are enough for the texture. */
  predicate Spans(e: GlyphEntry, x: nat, y: nat, width: nat, height: nat) {
    && e.s1 == Scaled(x) % 65536 && e.s2 == Scaled(x + width) % 65536
    && e.t1 == Scaled(y) % 65536 && e.t2 == Scaled(y + height) % 65536
    && (x + width <= TEXTURE_SIZE ==> e.s1 == Scaled(x) && e.s2 == Scaled(x + width))
    && (y + height <= TEXTURE_SIZE ==> e.t1 == Scaled(y) && e.t2 == Scaled(y + height))
  }

  lemma EntrySpans(tex: nat, r: Rect)
    requires 0 <= r.x && 0 <= r.y && 0 <= r.width && 0 <= r.height
    ensures Spans(EntryOf(tex, r), r.x, r.y, r.width, r.height)
  {
  }

  /** The s coordinates run along x and the t coordinates along y: boxes beside or above each other stay so. */
  ghost predicate KeptApart(r: Rect, s: Rect, e: GlyphEntry, f: GlyphEntry) {
    && (r.x + r.width <= s.x ==> e.s2 <= f.s1) && (s.x + s.width <= r.x ==> f.s2 <= e.s1)
    && (r.y + r.height <= s.y ==> e.t2 <= f.t1) && (s.y + s.height <= r.y ==> f.t2 <= e.t1)
    && (e.s2 <= f.s1 || f.s2 <= e.s1 || e.t2 <= f.t1 || f.t2 <= e.t1)
  }

  /** Boxes that share no texel share no area in the rounded coordinates, keep a positive size and fit 16 bits. */
  lemma RoundedBoxesApart(tex: nat, r: Rect, s: Rect)
    requires Inside(r, Rect(0, 0, TEXTURE_SIZE, TEXTURE_SIZE)) && Inside(s, Rect(0, 0, TEXTURE_SIZE, TEXTURE_SIZE))
    requires 0 < r.width && 0 < r.height && 0 < s.width && 0 < s.height && Disjoint(r, s)
    ensures KeptApart(r, s, EntryOf(tex, r), EntryOf(tex, s))
    ensures var e := EntryOf(tex, r); e.s1 < e.s2 <= UINT16_MAX && e.t1 < e.t2 <= UINT16_MAX
  {
    hide TexelToCoordinate;
    CoordinateMonotone(r.x, r.x + r.width);
    CoordinateMonotone(r.y, r.y + r.height);
    var px, py := if r.x < s.x then s.x else r.x, if r.y < s.y then s.y else r.y;
    assert !(Contains(r, px, py) && Contains(s, px, py));
    if r.x + r.width < s.x { CoordinateMonotone(r.x + r.width, s.x); }
    if s.x + s.width < r.x { CoordinateMonotone(s.x + s.width, r.x); }
    if r.y + r.height < s.y { CoordinateMonotone(r.y + r.height, s.y); }
    if s.y + s.height < r.y { CoordinateMonotone(s.y + s.height, r.y); }
  }

  ghost predicate Unique(ts: seq<Texture>) {
    forall i, j :: 0 <= i < j < |ts| ==> ts[i].bsp != ts[j].bsp && ts[i].tex != ts[j].tex
  }

  ghost predicate Usual(t: Texture)
    reads t.bsp
  {
    t.bsp.Valid() && t.bsp.width == t.bsp.height == TEXTURE_SIZE
  }

  ghost predicate Unused(t: Texture)
    reads t.bsp
  {
    && |t.bsp.nodes| == 1 && t.bsp.placed == [] && |t.bsp.AllLeaves()| == 2
    && t.bsp.AllLeaves()[0].rect == Rect(0, 0, TEXTURE_SIZE, TEXTURE_SIZE) && !t.bsp.AllLeaves()[0].full
  }

  class Library {
    /** Newest first. */
    var textures: seq<Texture>
    /** Every reservation made so far, oldest first. */
    ghost var boxes: seq<Box>

    ghost function Allocators(): set<Allocator>
      reads this
    {
      set t | t in textures :: t.bsp
    }

    ghost predicate TexturesValid()
      reads this, Allocators()
    {
      Unique(textures) && forall k :: 0 <= k < |textures| ==> Usual(textures[k])
    }

    /** The box was handed out by the allocator of its texture, which placed it among the given rectangles. */
    ghost predicate Owned(b: Box, t: Texture)
      reads this, t.bsp
    {
      t in textures && t.tex == b.tex && b.rect in t.bsp.placed
    }

    ghost predicate BoxesApart()
      reads this
    {
      forall i, j :: 0 <= i < j < |boxes| && boxes[i].tex == boxes[j].tex ==> Disjoint(boxes[i].rect, boxes[j].rect)
    }

    ghost predicate Valid()
      reads this, Allocators()
    {
      TexturesValid() && BoxesApart() && BoxesOwned()
    }

    ghost predicate BoxesOwned()
      reads this, Allocators()
    {
      forall b :: b in boxes ==> exists t :: t in textures && Owned(b, t)
    }

    /** Textures are only added, and allocators only place more. */
    twostate lemma StillOwned()
      requires old(BoxesOwned()) && boxes == old(boxes)
      requires forall t :: t in old(textures) ==> t in textures && old(t.bsp.placed) <= t.bsp.placed
      ensures BoxesOwned()
    {
      forall b | b in boxes
        ensures exists u :: u in textures && Owned(b, u)
      {
        var u :| u in old(textures) && old(Owned(b, u));
        assert Owned(b, u);
      }
    }

    constructor ()
      ensures Valid() && textures == [] && boxes == []
    {
      textures, boxes := [], [];
    }

    lemma PlacedInside(t: Texture, r: Rect)
      requires TexturesValid() && t in textures && r in t.bsp.placed
      ensures Inside(r, Rect(0, 0, TEXTURE_SIZE, TEXTURE_SIZE)) && 0 < r.width && 0 < r.height
    {
      var i :| 0 <= i < |textures| && textures[i] == t;
      var k :| 0 <= k < |t.bsp.placed| && t.bsp.placed[k] == r;
    }

    /** Every box has a positive size in the coordinates and fits 16 bits. */
    lemma BoxInRange(i: nat)
      requires Valid() && i < |boxes|
      ensures var r := boxes[i].rect;
              && 0 <= r.x && 0 <= r.y && 0 < r.width && 0 < r.height
              && var e := EntryOf(boxes[i].tex, r);
                 e.s1 < e.s2 <= UINT16_MAX && e.t1 < e.t2 <= UINT16_MAX
    {
      var b := boxes[i];
      assert b in boxes;
      var t :| t in textures && Owned(b, t);
      PlacedInside(t, b.rect);
      CoordinateMonotone(b.rect.x, b.rect.x + b.rect.width);
      CoordinateMonotone(b.rect.y, b.rect.y + b.rect.height);
    }

    /** Boxes that share a texture are disjoint in the coordinates handed to the painter. */
    lemma SharedTextureDisjoint(i: nat, j: nat)
      requires Valid() && i < j < |boxes| && boxes[i].tex == boxes[j].tex
      ensures var r, s := boxes[i].rect, boxes[j].rect;
              && 0 <= r.x && 0 <= r.y && 0 <= s.x && 0 <= s.y && 0 < r.width && 0 < r.height && 0 < s.width
              && 0 < s.height
              && KeptApart(r, s, EntryOf(boxes[i].tex, r), EntryOf(boxes[j].tex, s))
              && EntryOf(boxes[i].tex, r).s2 <= UINT16_MAX && EntryOf(boxes[i].tex, r).t2 <= UINT16_MAX
              && EntryOf(boxes[j].tex, s).s2 <= UINT16_MAX && EntryOf(boxes[j].tex, s).t2 <= UINT16_MAX
    {
      var b, c := boxes[i], boxes[j];
      assert b in boxes && c in boxes;
      var t :| t in textures && Owned(b, t);
      var u :| u in textures && Owned(c, u);
      PlacedInside(t, b.rect);
      PlacedInside(u, c.rect);
      RoundedBoxesApart(b.tex, b.rect, c.rect);
      BoxInRange(j);
    }

    /** `name` is the texture name that OpenGL hands out if a texture has to be made.
        A glyph larger than a texture gets a useless new texture and the corner (0, 0), with nothing reserved. */
    method ReserveTextureSpace(name: nat, width: int, height: int)
      returns (entry: GlyphEntry, x: int, y: int)
      requires Valid() && 0 < width && 0 < height
      requires forall k :: 0 <= k < |textures| ==> textures[k].tex != name
      requires forall k :: 0 <= k < |textures| ==> |textures[k].bsp.nodes| <= 65532
      modifies this, Allocators()
      ensures Valid()
      ensures (exists t :: t in old(textures) && old(HasRoom(t, width, height))) <==> textures == old(textures)
      ensures forall i :: && 0 <= i < |old(textures)| && old(HasRoom(textures[i], width, height))
                          && (forall k :: 0 <= k < i ==> !old(HasRoom(textures[k], width, height)))
                          ==> entry.texNum == old(textures)[i].tex
      ensures textures == old(textures) ||
              (|textures| > 0 && textures[0].tex == name && fresh(textures[0].bsp) && textures[1..] == old(textures))
      ensures if width <= TEXTURE_SIZE && height <= TEXTURE_SIZE then
                && boxes == old(boxes) + [Box(entry.texNum, Rect(x, y, width, height))]
                && 0 <= x && 0 <= y && entry == EntryOf(entry.texNum, Rect(x, y, width, height))
                && x + width <= TEXTURE_SIZE && y + height <= TEXTURE_SIZE
              else
                && boxes == old(boxes) && x == 0 && y == 0 && textures != old(textures)
      ensures textures != old(textures) ==> entry.texNum == name && x == 0 && y == 0
      ensures 0 <= x && 0 <= y && Spans(entry, x, y, width, height)
    {
      hide Allocator.Valid, FirstFit, TexelToCoordinate, Allocator.AllLeaves, EntryOf, Spans;
      var i;
      i, x, y := TryTextures(width, height);
      if i < |textures| {
        var t := textures[i];
        assert t in textures && old(HasRoom(t, width, height));
        StillOwned();
        entry := Record(t, x, y, width, height);
      } else {
        StillOwned();
        entry, x, y := ReserveInNewTexture(name, width, height);
      }
      EntrySpans(entry.texNum, Rect(x, y, width, height));
    }

    /** No texture has room: makes a new one and asks it. */
    method ReserveInNewTexture(name: nat, width: int, height: int) returns (entry: GlyphEntry, x: int, y: int)
      requires Valid() && 0 < width && 0 < height
      requires forall k :: 0 <= k < |textures| ==> textures[k].tex != name
      modifies this
      ensures Valid()
      ensures |textures| > 0 && textures[0].tex == name && fresh(textures[0].bsp) && textures[1..] == old(textures)
      ensures if width <= TEXTURE_SIZE && height <= TEXTURE_SIZE then
                && x == 0 && y == 0 && boxes == old(boxes) + [Box(name, Rect(0, 0, width, height))]
                && entry == EntryOf(name, Rect(0, 0, width, height))
              else
                && boxes == old(boxes) && x == 0 && y == 0 && entry == EntryOf(name, Rect(0, 0, width, height))
    {
      var t := AddTexture(name);
      assert textures[0] == t;
      StillOwned();
      entry, x, y := ReserveInFront(width, height);
    }

    /** Asks the texture just made, which is empty. */
    method ReserveInFront(width: int, height: int) returns (entry: GlyphEntry, x: int, y: int)
      requires Valid() && 0 < width && 0 < height && |textures| > 0
      requires Unused(textures[0]) && forall b :: b in boxes ==> b.tex != textures[0].tex
      modifies textures[0].bsp, this`boxes
      ensures Valid()
      ensures if width <= TEXTURE_SIZE && height <= TEXTURE_SIZE then
                && x == 0 && y == 0 && boxes == old(boxes) + [Box(textures[0].tex, Rect(0, 0, width, height))]
                && entry == EntryOf(textures[0].tex, Rect(0, 0, width, height))
              else
                && boxes == old(boxes) && x == 0 && y == 0
                && entry == EntryOf(textures[0].tex, Rect(0, 0, width, height))
    {
      var t := textures[0];
      var found;
      found, x, y := t.bsp.Add(width, height);
      StillOwned();
      if found {
        entry := Record(t, x, y, width, height);
      } else {
        entry := GlyphEntry(t.tex, TexelToCoordinate(0), TexelToCoordinate(0),
                            TexelToCoordinate(width), TexelToCoordinate(height));
      }
    }

    method AddTexture(name: nat) returns (t: Texture)
      requires TexturesValid() && forall k :: 0 <= k < |textures| ==> textures[k].tex != name
      modifies this`textures
      ensures TexturesValid() && textures == [t] + old(textures) && t.tex == name
      ensures Usual(t)
      ensures fresh(t.bsp) && Unused(t)
    {
      hide FirstFit, Allocator.Valid, Leaves;
      var bsp := new Allocator(TEXTURE_SIZE, TEXTURE_SIZE);
      t := Texture(name, bsp);
      textures := [t] + textures;
    }

    /** The loop over the texture list: the first texture with room gets the rectangle. */
    method TryTextures(width: int, height: int) returns (i: nat, x: int, y: int)
      requires TexturesValid() && 0 < width && 0 < height
      requires forall k :: 0 <= k < |textures| ==> |textures[k].bsp.nodes| <= 65532
      modifies Allocators()
      ensures TexturesValid() && i <= |textures|
      ensures forall k :: 0 <= k < i ==> !old(HasRoom(textures[k], width, height))
      ensures i < |textures| ==>
                && old(HasRoom(textures[i], width, height))
                && textures[i].bsp.placed == old(textures[i].bsp.placed) + [Rect(x, y, width, height)]
      ensures i == |textures| ==> x == 0 && y == 0
      ensures forall k :: 0 <= k < |textures| && k != i ==> textures[k].bsp.placed == old(textures[k].bsp.placed)
    {
      hide Allocator.Valid, Splice, CarvedSpaces;
      i, x, y := 0, 0, 0;
      while i < |textures|
        invariant 0 <= i <= |textures| && forall k :: 0 <= k < |textures| ==> Usual(textures[k])
        invariant forall k :: 0 <= k < |textures| ==>
                                && textures[k].bsp.nodes == old(textures[k].bsp.nodes)
                                && textures[k].bsp.tree == old(textures[k].bsp.tree)
                                && textures[k].bsp.placed == old(textures[k].bsp.placed)
        invariant forall k :: 0 <= k < i ==> !old(HasRoom(textures[k], width, height))
      {
        var found;
        found, x, y := textures[i].bsp.Add(width, height);
        if found {
          return;
        }
        i := i + 1;
      }
      x, y := 0, 0;
    }

    /** The tail of reserve_texture_space: fills in the glyph entry for a box that an allocator just handed out. */
    method Record(t: Texture, x: int, y: int, width: int, height: int) returns (entry: GlyphEntry)
      requires t in textures && 0 < width && 0 < height
      requires TexturesValid() && BoxesApart()
      requires |t.bsp.placed| > 0 && t.bsp.placed[|t.bsp.placed| - 1] == Rect(x, y, width, height)
      requires BoxesOwned()
      requires forall b :: b in boxes && b.tex == t.tex ==> b.rect in t.bsp.placed[..|t.bsp.placed| - 1]
      modifies this`boxes
      ensures Valid() && 0 <= x && 0 <= y && x + width <= TEXTURE_SIZE && y + height <= TEXTURE_SIZE
      ensures boxes == old(boxes) + [Box(t.tex, Rect(x, y, width, height))]
      ensures entry == EntryOf(t.tex, Rect(x, y, width, height))
    {
      hide FirstFit, Allocator.AllLeaves, TexelToCoordinate;
      ghost var before := boxes;
      ghost var box := Box(t.tex, Rect(x, y, width, height));
      boxes := boxes + [box];
      entry := GlyphEntry(t.tex, TexelToCoordinate(x), TexelToCoordinate(y),
                          TexelToCoordinate(x + width), TexelToCoordinate(y + height));
      forall b | b in before && b.tex == t.tex
        ensures Disjoint(b.rect, box.rect)
      {
        var m :| 0 <= m < |t.bsp.placed| - 1 && t.bsp.placed[m] == b.rect;
      }
      assert Owned(box, t);
      forall b | b in boxes
        ensures exists u :: u in textures && Owned(b, u)
      {
        if b in before {
          var u :| u in textures && old(Owned(b, u));
          assert Owned(b, u);
        }
      }
    }
  }
}
