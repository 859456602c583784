/** The rectangle allocator of client/vsx-bsp.c.  The tree lives in a growing array and is searched with an explicit
    stack.  The ghost field `tree` is the tree that the array encodes. */
module Bsp {
  import opened BspTree

  // ---------- carving a rectangle out of a leaf ----------

  /** The subtree that add_split hangs where an empty leaf of the given size was, n being the next free entry. */
  ghost function Carved(n: nat, leaf: Rect, width: int, height: int): Tree {
    if width < leaf.width then
      Split(n, LeftRight, width,
            if height < leaf.height then Split(n + 1, TopBottom, height, Leaf(true), Leaf(false)) else Leaf(true),
            Leaf(false))
    else if height < leaf.height then Split(n, TopBottom, height, Leaf(true), Leaf(false))
    else Leaf(true)
  }

  /** What is left of an empty leaf: the rectangle asked for, the strip below it and the column to its right. */
  ghost predicate CarvedSpaces(ls: seq<Slot>, leaf: Rect, width: int, height: int) {
    var below := Rect(leaf.x, leaf.y + height, width, leaf.height - height);
    var right := Rect(leaf.x + width, leaf.y, leaf.width - width, leaf.height);
    && |ls| == 1 + (if height < leaf.height then 1 else 0) + (if width < leaf.width then 1 else 0)
    && ls[0].full && ls[0].rect == Rect(leaf.x, leaf.y, width, height)
    && (height < leaf.height ==> !ls[1].full && ls[1].rect == below)
    && (width < leaf.width ==> !ls[|ls| - 1].full && ls[|ls| - 1].rect == right)
  }

  lemma CarvedProperties(n: nat, leaf: Rect, width: int, height: int, owner: nat, sideB: bool)
    requires 0 < width && 0 < height && Fits(leaf, width, height)
    ensures var sub := Carved(n, leaf, width, height);
            && WellSized(sub, leaf) && Distinct(sub)
            && (forall i :: i in Indices(sub) ==> n <= i <= n + 1)
            && CarvedSpaces(Leaves(sub, leaf, owner, sideB), leaf, width, height)
  {
    var sub := Carved(n, leaf, width, height);
    var ls := Leaves(sub, leaf, owner, sideB);
    if sub.Split? && sub.a.Split? {
      var left := PartA(LeftRight, width, leaf);
      assert Leaves(sub.a, left, n, false) == [Slot(Rect(leaf.x, leaf.y, width, height), true, n + 1, false),
                                               Slot(Rect(leaf.x, leaf.y + height, width, leaf.height - height), false,
                                                    n + 1, true)];
    }
  }

  /** A rectangle and whether it is taken. */
  datatype Space = Space(rect: Rect, full: bool)

  function Spaces(ls: seq<Slot>): (r: seq<Space>)
    ensures |r| == |ls|
  {
    seq(|ls|, i requires 0 <= i < |ls| => Space(ls[i].rect, ls[i].full))
  }

  /** The first empty space that is at least so wide and so high. */
  ghost predicate IsFirst(spaces: seq<Space>, k: nat, width: int, height: int) {
    && k < |spaces| && !spaces[k].full && width <= spaces[k].rect.width && height <= spaces[k].rect.height
    && forall i :: 0 <= i < k ==>
         spaces[i].full || spaces[i].rect.width < width || spaces[i].rect.height < height
  }

  /** A space from whose corner a rectangle was taken: the rectangle, what is below it, and the column to its right. */
  function Carve(rect: Rect, width: int, height: int): seq<Space> {
    [Space(Rect(rect.x, rect.y, width, height), true)] +
    (if height < rect.height then [Space(Rect(rect.x, rect.y + height, width, rect.height - height), false)] else []) +
    (if width < rect.width then [Space(Rect(rect.x + width, rect.y, rect.width - width, rect.height), false)] else [])
  }

  lemma SpacesCarved(ls: seq<Slot>, k: nat, mid: seq<Slot>, width: int, height: int)
    requires k < |ls| && CarvedSpaces(mid, ls[k].rect, width, height)
    ensures Spaces(Splice(ls, k, mid)) ==
            Spaces(ls)[..k] + Carve(ls[k].rect, width, height) + Spaces(ls)[k + 1..]
  {
    assert Spaces(mid) == Carve(ls[k].rect, width, height);
    SpacesConcat(ls[..k], mid);
    SpacesConcat(ls[..k] + mid, ls[k + 1..]);
    assert Spaces(ls[..k]) == Spaces(ls)[..k] && Spaces(ls[k + 1..]) == Spaces(ls)[k + 1..];
  }

  lemma SpacesConcat(a: seq<Slot>, b: seq<Slot>)
    ensures Spaces(a + b) == Spaces(a) + Spaces(b)
  {
  }

  lemma FirstIs(ls: seq<Slot>, width: int, height: int)
    ensures var k := FirstFit(ls, width, height);
            if k < |ls| then IsFirst(Spaces(ls), k, width, height)
            else forall i: nat :: !IsFirst(Spaces(ls), i, width, height)
  {
    hide FirstFit;
    var k := FirstFit(ls, width, height);
    forall i | 0 <= i < k
      ensures !Usable(ls[i], width, height)
    {
    }
  }

  // ---------- the search stack ----------

  /** The walking stack, top first, with the subtree that each entry stands for. */
  datatype Walk = Finished | Frame(t: Tree, rect: Rect, triedA: bool, rest: Walk)

  ghost predicate StackHolds(stack: seq<StackEntry>, w: Walk) {
    match w
    case Finished => stack == []
    case Frame(t, rect, triedA, rest) =>
      && t.Split? && 0 < |stack|
      && stack[|stack| - 1] == StackEntry(rect, t.index, triedA)
      && StackHolds(stack[..|stack| - 1], rest)
  }

  ghost predicate Sound(nodes: seq<Node>, w: Walk) {
    match w
    case Finished => true
    case Frame(t, rect, _, rest) =>
      t.Split? && Represents(nodes, t) && WellSized(t, rect) && Sound(nodes, rest)
  }

  /** The leaves that the walk still has to look at. */
  ghost function Remaining(w: Walk): seq<Slot> {
    match w
    case Finished => []
    case Frame(t, rect, triedA, rest) =>
      if t.Leaf? then Remaining(rest)
      else
        var second := Leaves(t.b, PartB(t.kind, t.at, rect), t.index, true) + Remaining(rest);
        if triedA then second else Leaves(t.a, PartA(t.kind, t.at, rect), t.index, false) + second
  }

  /** How often the loop still goes round for a subtree that is searched completely. */
  ghost function Visits(t: Tree): nat {
    match t
    case Leaf(_) => 0
    case Split(_, _, _, a, b) => 2 + Visits(a) + Visits(b)
  }

  ghost function Work(w: Walk): nat {
    match w
    case Finished => 0
    case Frame(t, _, triedA, rest) =>
      (if triedA && t.Split? then 1 + Visits(t.b) else Visits(t)) + Work(rest)
  }

  lemma PushRemaining(t: Tree, r: Rect, owner: nat, sideB: bool, rest: Walk)
    requires t.Split?
    ensures Remaining(Frame(t, r, false, rest)) == Leaves(t, r, owner, sideB) + Remaining(rest)
    ensures Work(Frame(t, r, false, rest)) == Visits(t) + Work(rest)
  {
  }

  /** The stack is that of the walk, and the array holds the subtrees of its entries. */
  ghost predicate Walking(nodes: seq<Node>, stack: seq<StackEntry>, w: Walk) {
    StackHolds(stack, w) && Sound(nodes, w)
  }

  /** What the top entry of the stack says about the array. */
  lemma TopEntry(nodes: seq<Node>, stack: seq<StackEntry>, w: Walk)
    requires stack != [] && Walking(nodes, stack, w)
    ensures w.Frame? && w.t.Split?
    ensures var t := w.t;
            && stack[|stack| - 1] == StackEntry(w.rect, t.index, w.triedA)
            && t.index < |nodes| && nodes[t.index] == Node(t.kind, t.at, Ref(t.a), Ref(t.b))
            && ChildSound(nodes, t.a, PartA(t.kind, t.at, w.rect))
            && ChildSound(nodes, t.b, PartB(t.kind, t.at, w.rect))
  {
  }

  lemma StartWalk(nodes: seq<Node>, t: Tree, r: Rect)
    requires t.Split? && Represents(nodes, t) && WellSized(t, r)
    ensures Walking(nodes, [StackEntry(r, t.index, false)], Frame(t, r, false, Finished))
  {
    assert [StackEntry(r, t.index, false)][..0] == [];
  }

  lemma EndWalk(nodes: seq<Node>, w: Walk)
    requires Walking(nodes, [], w)
    ensures w == Finished
  {
  }

  /** Dropping the top entry, or marking its first child as tried. */
  lemma PopEntry(nodes: seq<Node>, stack: seq<StackEntry>, w: Walk)
    requires stack != [] && Walking(nodes, stack, w) && w.Frame?
    ensures Walking(nodes, stack[..|stack| - 1], w.rest)
    ensures Walking(nodes, stack[|stack| - 1 := stack[|stack| - 1].(triedA := true)], w.(triedA := true))
  {
    var n := |stack| - 1;
    assert stack[n := stack[n].(triedA := true)][..n] == stack[..n];
  }

  lemma PushEntry(nodes: seq<Node>, stack: seq<StackEntry>, w: Walk, t: Tree, r: Rect)
    requires Walking(nodes, stack, w) && t.Split? && ChildSound(nodes, t, r)
    ensures Walking(nodes, stack + [StackEntry(r, t.index, false)], Frame(t, r, false, w))
  {
    assert (stack + [StackEntry(r, t.index, false)])[..|stack|] == stack;
  }

  ghost predicate ChildSound(nodes: seq<Node>, t: Tree, r: Rect) {
    Represents(nodes, t) && WellSized(t, r) && (t.Split? ==> t.index < |nodes|)
  }

  /** Turning to the next child takes its leaves off the front of what remains. */
  lemma Turn(w: Walk)
    requires w.Frame? && w.t.Split?
    ensures var t := w.t;
            if w.triedA then
              && Remaining(w) == Leaves(t.b, PartB(t.kind, t.at, w.rect), t.index, true) + Remaining(w.rest)
              && Work(w) == 1 + Visits(t.b) + Work(w.rest)
            else
              && Remaining(w) ==
                 Leaves(t.a, PartA(t.kind, t.at, w.rect), t.index, false) + Remaining(w.(triedA := true))
              && Work(w) == 1 + Visits(t.a) + Work(w.(triedA := true))
  {
  }

  lemma NothingRemains()
    ensures Remaining(Finished) == []
  {
  }

  lemma LeafLeaves(t: Tree, r: Rect, owner: nat, sideB: bool)
    ensures t.Leaf? ==> Leaves(t, r, owner, sideB) == [Slot(r, t.full, owner, sideB)]
  {
  }

  lemma FreshLeaves(width: int, height: int)
    ensures var ls := Leaves(Split(0, TopBottom, height, Leaf(false), Leaf(false)), Rect(0, 0, width, height), 0,
                             false);
            && ls == [Slot(Rect(0, 0, width, height), false, 0, false), Slot(Rect(0, height, width, 0), false, 0, true)]
            && FullExtents(ls) == {} && Area(ls, true) == 0
  {
    var root := Rect(0, 0, width, height);
    var t := Split(0, TopBottom, height, Leaf(false), Leaf(false));
    assert PartA(TopBottom, height, root) == root;
    assert PartB(TopBottom, height, root) == Rect(0, height, width, 0);
    var ls := [Slot(root, false, 0, false), Slot(Rect(0, height, width, 0), false, 0, true)];
    assert Leaves(t, root, 0, false) == ls;
    assert ls[1..][1..] == [] && Area(ls[1..], true) == 0;
  }

  // ---------- the allocator ----------

  ghost function FullExtents(ls: seq<Slot>): set<Rect> {
    set s | s in ls && s.full :: s.rect
  }

  /** The rectangles lie in the region, are not empty, and are pairwise disjoint. */
  ghost predicate Apart(placed: seq<Rect>, region: Rect) {
    && (forall i :: 0 <= i < |placed| ==> Inside(placed[i], region) && 0 < placed[i].width && 0 < placed[i].height)
    && (forall i, j :: 0 <= i < j < |placed| ==> Disjoint(placed[i], placed[j]))
  }

  ghost function TotalArea(rs: seq<Rect>): int {
    if rs == [] then 0 else TotalArea(rs[..|rs| - 1]) + rs[|rs| - 1].width * rs[|rs| - 1].height
  }

  lemma {:induction false} IndicesBounded(nodes: seq<Node>, t: Tree)
    requires Represents(nodes, t)
    ensures forall i :: i in Indices(t) ==> i < |nodes|
  {
    match t
    case Leaf(_) =>
    case Split(_, _, _, a, b) =>
      IndicesBounded(nodes, a);
      IndicesBounded(nodes, b);
  }

  /** A rectangle carved out of an empty leaf is clear of everything placed before. */
  lemma PlacedStaysApart(t: Tree, region: Rect, k: nat, placed: seq<Rect>, width: int, height: int)
    requires WellSized(t, region) && Apart(placed, region) && 0 < width && 0 < height
    requires var ls := Leaves(t, region, 0, false);
             k < |ls| && Usable(ls[k], width, height) && (forall r :: r in placed ==> r in FullExtents(ls))
    ensures var leaf := Leaves(t, region, 0, false)[k].rect;
            Apart(placed + [Rect(leaf.x, leaf.y, width, height)], region)
  {
    var ls := Leaves(t, region, 0, false);
    var taken := Rect(ls[k].rect.x, ls[k].rect.y, width, height);
    LeavesInside(t, region, 0, false);
    assert ls[k] in ls;
    forall i | 0 <= i < |placed|
      ensures Disjoint(placed[i], taken)
    {
      assert placed[i] in placed;
      var s :| s in ls && s.full && s.rect == placed[i];
      var m :| 0 <= m < |ls| && ls[m] == s;
      if m < k {
        LeavesDisjoint(t, region, 0, false, m, k);
      } else {
        LeavesDisjoint(t, region, 0, false, k, m);
      }
      forall px, py
        ensures !(Contains(placed[i], px, py) && Contains(taken, px, py))
      {
        assert Contains(taken, px, py) ==> Contains(ls[k].rect, px, py);
        assert !(Contains(ls[k].rect, px, py) && Contains(ls[m].rect, px, py));
      }
    }
  }

  /** Carving adds the area of the rectangle to the full area. */
  lemma CarvedArea(ls: seq<Slot>, k: nat, mid: seq<Slot>, width: int, height: int)
    requires k < |ls| && !ls[k].full && CarvedSpaces(mid, ls[k].rect, width, height)
    ensures Area(Splice(ls, k, mid), true) == Area(ls, true) + width * height
  {
    assert ls == Splice(ls, k, [ls[k]]) by {
      hide Area, CarvedSpaces;
    }
    hide Splice, Area;
    AreaSplice(ls, k, [ls[k]]);
    AreaSplice(ls, k, mid);
    AreaOfEmpty([ls[k]]);
    AreaHead(mid);
    forall j | 0 <= j < |mid[1..]|
      ensures !mid[1..][j].full
    {
      assert mid[1..][j] == mid[j + 1];
    }
    AreaOfEmpty(mid[1..]);
  }

  lemma AreaHead(ls: seq<Slot>)
    requires ls != [] && ls[0].full
    ensures Area(ls, true) == ls[0].rect.width * ls[0].rect.height + Area(ls[1..], true)
  {
  }

  lemma AreaSplice(ls: seq<Slot>, k: nat, mid: seq<Slot>)
    requires k < |ls|
    ensures Area(Splice(ls, k, mid), true) == Area(ls[..k], true) + Area(mid, true) + Area(ls[k + 1..], true)
  {
    AreaAppend(ls[..k] + mid, ls[k + 1..], true);
    AreaAppend(ls[..k], mid, true);
  }

  lemma {:induction false} AreaOfEmpty(ls: seq<Slot>)
    requires forall j :: 0 <= j < |ls| ==> !ls[j].full
    ensures Area(ls, true) == 0
  {
    if ls != [] {
      AreaOfEmpty(ls[1..]);
    }
  }

  /** The full leaves stay exactly the rectangles placed. */
  lemma CarvedExtents(ls: seq<Slot>, k: nat, mid: seq<Slot>, width: int, height: int)
    requires k < |ls| && !ls[k].full && CarvedSpaces(mid, ls[k].rect, width, height)
    ensures FullExtents(Splice(ls, k, mid)) == FullExtents(ls) + {Rect(ls[k].rect.x, ls[k].rect.y, width, height)}
  {
    var after := Splice(ls, k, mid);
    var taken := Rect(ls[k].rect.x, ls[k].rect.y, width, height);
    forall r | r in FullExtents(after)
      ensures r in FullExtents(ls) + {taken}
    {
      var s :| s in after && s.full && s.rect == r;
      if s in mid {
        assert s == mid[0];
      } else {
        assert s in ls;
      }
    }
    assert mid[0] in after;
    forall r | r in FullExtents(ls)
      ensures r in FullExtents(after)
    {
      var s :| s in ls && s.full && s.rect == r;
      assert s in ls[..k] || s in ls[k + 1..];
      assert s in after;
    }
  }

  lemma PlacedAppend(rs: seq<Rect>, r: Rect)
    ensures (set s | s in rs + [r]) == (set s | s in rs) + {r}
    ensures TotalArea(rs + [r]) == TotalArea(rs) + r.width * r.height
  {
    assert (rs + [r])[..|rs|] == rs;
  }

  lemma OwnerBounded(nodes: seq<Node>, t: Tree, r: Rect, k: nat)
    requires t.Split? && Represents(nodes, t) && k < |Leaves(t, r, 0, false)|
    ensures Leaves(t, r, 0, false)[k].owner < |nodes|
  {
    OwnerIn(t, r, 0, false, k);
    IndicesBounded(nodes, t);
  }

  /** Everything that carving keeps, for the tree and for the list of rectangles placed. */
  lemma CarvingKeeps(nodes: seq<Node>, nodes': seq<Node>, t: Tree, region: Rect, k: nat, placed: seq<Rect>, width: int,
                     height: int)
    returns (sub: Tree)
    requires t.Split? && Represents(nodes, t) && Distinct(t) && WellSized(t, region) && |nodes| <= |nodes'|
    requires var ls := Leaves(t, region, 0, false);
             && k < |ls| && Usable(ls[k], width, height) && 0 < width && 0 < height
             && FullExtents(ls) == (set r | r in placed)
             && ls[k].owner < |nodes|
             && var carved := Carved(|nodes|, ls[k].rect, width, height);
                && Represents(nodes', carved)
                && nodes'[ls[k].owner] == SetChild(nodes[ls[k].owner], ls[k].sideB, Ref(carved))
                && forall i :: 0 <= i < |nodes| && i != ls[k].owner ==> nodes'[i] == nodes[i]
    requires Apart(placed, region)
    ensures var s := Leaves(t, region, 0, false)[k];
            var t' := Plug(t, s.owner, s.sideB, sub);
            && Represents(nodes', t') && Distinct(t') && WellSized(t', region)
            && Leaves(t', region, 0, false) ==
               Splice(Leaves(t, region, 0, false), k, Leaves(sub, s.rect, s.owner, s.sideB))
            && CarvedSpaces(Leaves(sub, s.rect, s.owner, s.sideB), s.rect, width, height)
            && Apart(placed + [Rect(s.rect.x, s.rect.y, width, height)], region)
  {
    hide Represents, Distinct, WellSized, CarvedSpaces, Splice, Apart, Plug;
    var s := Leaves(t, region, 0, false)[k];
    sub := Carved(|nodes|, s.rect, width, height);
    CarvedProperties(|nodes|, s.rect, width, height, s.owner, s.sideB);
    IndicesBounded(nodes, t);
    OwnerIn(t, region, 0, false, k);
    PlugRepresents(nodes, nodes', t, s.owner, s.sideB, sub);
    PlugDistinct(t, s.owner, s.sideB, sub);
    PlugWellSized(t, region, 0, false, k, sub);
    PlugLeaves(t, region, 0, false, k, sub);
    PlacedStaysApart(t, region, k, placed, width, height);
  }

  class Allocator {
    const width: int
    const height: int
    var nodes: seq<Node>
    ghost var tree: Tree
    /** Every rectangle handed out so far, oldest first. */
    ghost var placed: seq<Rect>

    function Region(): Rect {
      Rect(0, 0, width, height)
    }

    ghost function AllLeaves(): seq<Slot>
      reads this`tree
    {
      Leaves(tree, Region(), 0, false)
    }

    ghost predicate Valid()
      reads this`nodes, this`tree, this`placed
    {
      && tree.Split? && tree.index == 0 && |nodes| <= LEAF_EMPTY
      && Represents(nodes, tree) && Distinct(tree) && WellSized(tree, Region())
      && FullExtents(AllLeaves()) == (set r | r in placed)
      && Area(AllLeaves(), true) == TotalArea(placed)
      && Apart(placed, Region())
    }

    constructor (width: int, height: int)
      requires 0 <= width && 0 <= height
      ensures Valid() && this.width == width && this.height == height
      ensures placed == [] && |nodes| == 1
      ensures |AllLeaves()| == 2 && AllLeaves()[0].rect == Region() && !AllLeaves()[0].full
      ensures Spaces(AllLeaves()) == [Space(Rect(0, 0, width, height), false), Space(Rect(0, height, width, 0), false)]
    {
      this.width, this.height := width, height;
      nodes, placed := [], [];
      tree := Split(0, TopBottom, height, Leaf(false), Leaf(false));
      new;
      AddNode(TopBottom, height);
      FreshLeaves(width, height);
    }

    method AddNode(kind: SplitType, splitPoint: int)
      modifies this`nodes
      ensures nodes == old(nodes) + [Node(kind, splitPoint, LEAF_EMPTY, LEAF_EMPTY)]
    {
      nodes := nodes + [Node(kind, splitPoint, LEAF_EMPTY, LEAF_EMPTY)];
    }

    /** The pointer to a child reference is the entry that holds it and the side. */
    method AddSplit(owner: nat, sideB: bool, leaf: Rect, addWidth: int, addHeight: int)
      requires owner < |nodes|
      modifies this`nodes
      ensures |old(nodes)| <= |nodes| <= |old(nodes)| + 2
      ensures forall i :: 0 <= i < |old(nodes)| && i != owner ==> nodes[i] == old(nodes)[i]
      ensures var sub := Carved(|old(nodes)|, leaf, addWidth, addHeight);
              nodes[owner] == SetChild(old(nodes)[owner], sideB, Ref(sub)) && Represents(nodes, sub)
    {
      var nextNode, nextSide := owner, sideB;
      var nNodes := |nodes|;

      if addWidth < leaf.width {
        nodes := nodes[nextNode := SetChild(nodes[nextNode], nextSide, nNodes)];
        AddNode(LeftRight, addWidth);
        nextNode, nextSide := nNodes, false;
        nNodes := nNodes + 1;
      }

      if addHeight < leaf.height {
        nodes := nodes[nextNode := SetChild(nodes[nextNode], nextSide, nNodes)];
        AddNode(TopBottom, addHeight);
        nextNode, nextSide := nNodes, false;
        nNodes := nNodes + 1;
      }

      nodes := nodes[nextNode := SetChild(nodes[nextNode], nextSide, LEAF_FULL)];
    }

    /** Carves the rectangle out of leaf k, keeping the encoding and every invariant. */
    method Place(ghost k: nat, owner: nat, sideB: bool, leaf: Rect, addWidth: int, addHeight: int)
      requires Valid() && 0 < addWidth && 0 < addHeight && |nodes| + 2 <= LEAF_EMPTY
      requires k < |AllLeaves()| && AllLeaves()[k] == Slot(leaf, false, owner, sideB)
      requires Fits(leaf, addWidth, addHeight)
      modifies this`nodes, this`tree, this`placed
      ensures Valid()
      ensures |nodes| <= |old(nodes)| + 2
      ensures placed == old(placed) + [Rect(leaf.x, leaf.y, addWidth, addHeight)]
      ensures exists mid :: && CarvedSpaces(mid, leaf, addWidth, addHeight)
                            && AllLeaves() == Splice(old(AllLeaves()), k, mid)
    {
      hide Leaves, Represents, Distinct, WellSized, Area, CarvedSpaces, Splice, FullExtents, Apart, Carved;
      hide Indices, Ref, SetChild, FirstFit, PartA, PartB, TotalArea;
      ghost var before, t0 := AllLeaves(), tree;
      OwnerBounded(nodes, tree, Region(), k);
      AddSplit(owner, sideB, leaf, addWidth, addHeight);
      ghost var sub := CarvingKeeps(old(nodes), nodes, t0, Region(), k, placed, addWidth, addHeight);
      ghost var mid := Leaves(sub, leaf, owner, sideB);
      tree := Plug(t0, owner, sideB, sub);
      placed := placed + [Rect(leaf.x, leaf.y, addWidth, addHeight)];
      CarvedArea(before, k, mid, addWidth, addHeight);
      CarvedExtents(before, k, mid, addWidth, addHeight);
      PlacedAppend(old(placed), Rect(leaf.x, leaf.y, addWidth, addHeight));
    }

    /** The walk of vsx_bsp_add: it stops at the first empty leaf, in preorder, that is big enough. */
    method FindLeaf(addWidth: int, addHeight: int) returns (found: bool, owner: nat, sideB: bool, leaf: Rect)
      requires tree.Split? && tree.index == 0 && |nodes| <= LEAF_EMPTY
      requires Represents(nodes, tree) && WellSized(tree, Region())
      ensures var k := FirstFit(AllLeaves(), addWidth, addHeight);
              && (found <==> k < |AllLeaves()|)
              && (found ==> AllLeaves()[k] == Slot(leaf, false, owner, sideB))
    {
      hide FirstFit, Leaves, Represents, WellSized, PartA, PartB, Remaining, Work, Visits, Walking;
      found, owner, sideB, leaf := false, 0, false, Region();
      ghost var ls := AllLeaves();
      ghost var done: seq<Slot> := [];
      // The walking stack is a scratch buffer in the structure; nothing survives in it between calls.
      var stack := [StackEntry(Rect(0, 0, width, height), 0, false)];
      ghost var walk := Frame(tree, Region(), false, Finished);
      StartWalk(nodes, tree, Region());
      PushRemaining(tree, Region(), 0, false, Finished);
      NothingRemains();

      while |stack| > 0
        invariant Walking(nodes, stack, walk)
        invariant forall s :: s in done ==> !Usable(s, addWidth, addHeight)
        invariant ls == done + Remaining(walk)
        decreases Work(walk)
      {
        TopEntry(nodes, stack, walk);
        PopEntry(nodes, stack, walk);
        Turn(walk);
        var n := |stack| - 1;
        var entry := stack[n];
        ghost var child := if entry.triedA then walk.t.b else walk.t.a;
        var node := nodes[entry.node];
        var part: Rect, nextNode: int;

        if entry.triedA {
          part := PartB(node.kind, node.splitPoint, entry.rect);
          nextNode := node.childB;
          stack, walk := stack[..n], walk.rest;
        } else {
          part := PartA(node.kind, node.splitPoint, entry.rect);
          nextNode := node.childA;
          stack, walk := stack[n := entry.(triedA := true)], walk.(triedA := true);
        }
        ghost var here := Leaves(child, part, entry.node, entry.triedA);
        assert ls == done + (here + Remaining(walk)) == (done + here) + Remaining(walk);

        if !Fits(part, addWidth, addHeight) {
          NothingFits(child, part, entry.node, entry.triedA, addWidth, addHeight);
          done := done + here;
          continue;
        }

        LeafLeaves(child, part, entry.node, entry.triedA);
        if nextNode == LEAF_FULL {
          done := done + here;
        } else if nextNode == LEAF_EMPTY {
          assert ls[|done|] == here[0];
          FirstFitUnique(ls, addWidth, addHeight, |done|);
          return true, entry.node, entry.triedA, part;
        } else {
          PushRemaining(child, part, entry.node, entry.triedA, walk);
          PushEntry(nodes, stack, walk, child, part);
          stack, walk := stack + [StackEntry(part, nextNode, false)], Frame(child, part, false, walk);
        }
      }
      EndWalk(nodes, walk);
      NothingRemains();
      FirstFitUnique(ls, addWidth, addHeight, |ls|);
    }

    /** First fit; on failure nothing changes, and failure means that no empty leaf is big enough. */
    method Add(addWidth: int, addHeight: int) returns (ok: bool, x: int, y: int)
      requires Valid() && 0 < addWidth && 0 < addHeight && |nodes| <= 65532
      modifies this
      ensures Valid()
      ensures var ls := old(AllLeaves());
              var k := FirstFit(ls, addWidth, addHeight);
              && (ok <==> k < |ls|)
              && (ok ==> && x == ls[k].rect.x && y == ls[k].rect.y
                         && placed == old(placed) + [Rect(x, y, addWidth, addHeight)]
                         && exists mid :: && CarvedSpaces(mid, ls[k].rect, addWidth, addHeight)
                                          && AllLeaves() == Splice(ls, k, mid))
      ensures ok <==> exists k: nat :: IsFirst(old(Spaces(AllLeaves())), k, addWidth, addHeight)
      ensures forall k: nat :: IsFirst(old(Spaces(AllLeaves())), k, addWidth, addHeight) ==>
                var before := old(Spaces(AllLeaves()));
                && x == before[k].rect.x && y == before[k].rect.y
                && Spaces(AllLeaves()) ==
                   before[..k] + Carve(before[k].rect, addWidth, addHeight) + before[k + 1..]
      ensures !ok ==> nodes == old(nodes) && tree == old(tree) && placed == old(placed) && x == 0 && y == 0
      ensures |nodes| <= |old(nodes)| + 2
    {
      x, y := 0, 0;
      ghost var k := FirstFit(AllLeaves(), addWidth, addHeight);
      var owner, sideB, leaf;
      ghost var ls := AllLeaves();
      FirstIs(ls, addWidth, addHeight);
      ok, owner, sideB, leaf := FindLeaf(addWidth, addHeight);
      if ok {
        Place(k, owner, sideB, leaf, addWidth, addHeight);
        ghost var mid :| CarvedSpaces(mid, leaf, addWidth, addHeight) && AllLeaves() == Splice(ls, k, mid);
        SpacesCarved(ls, k, mid, addWidth, addHeight);
        x, y := leaf.x, leaf.y;
      }
    }
  }
}
