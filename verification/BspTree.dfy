/** The binary space partition of client/vsx-bsp.c as a tree: its leaves, read in preorder, and its encoding in an
    array whose entries hold two child references, either an array index or one of two sentinels. */
module BspTree {
  const LEAF_FULL := 65535
  const LEAF_EMPTY := 65534

  datatype SplitType = TopBottom | LeftRight

  datatype Node = Node(kind: SplitType, splitPoint: int, childA: int, childB: int)

  datatype Rect = Rect(x: int, y: int, width: int, height: int)

  datatype StackEntry = StackEntry(rect: Rect, node: nat, triedA: bool)

  datatype Tree = Leaf(full: bool) | Split(index: nat, kind: SplitType, at: int, a: Tree, b: Tree)

  /** A leaf of the tree: its rectangle, and the array entry and side that refer to it. */
  datatype Slot = Slot(rect: Rect, full: bool, owner: nat, sideB: bool)

  // ---------- geometry ----------

  predicate Contains(r: Rect, px: int, py: int) {
    r.x <= px < r.x + r.width && r.y <= py < r.y + r.height
  }

  predicate Inside(inner: Rect, outer: Rect) {
    && outer.x <= inner.x && inner.x + inner.width <= outer.x + outer.width
    && outer.y <= inner.y && inner.y + inner.height <= outer.y + outer.height
    && 0 <= inner.width && 0 <= inner.height
  }

  /** No unit square belongs to both. */
  ghost predicate Disjoint(r: Rect, s: Rect) {
    forall px, py :: !(Contains(r, px, py) && Contains(s, px, py))
  }

  predicate Fits(r: Rect, width: int, height: int) {
    width <= r.width && height <= r.height
  }

  predicate Usable(s: Slot, width: int, height: int) {
    !s.full && Fits(s.rect, width, height)
  }

  function PartA(kind: SplitType, at: int, r: Rect): Rect {
    if kind.TopBottom? then Rect(r.x, r.y, r.width, at) else Rect(r.x, r.y, at, r.height)
  }

  function PartB(kind: SplitType, at: int, r: Rect): Rect {
    if kind.TopBottom? then Rect(r.x, r.y + at, r.width, r.height - at)
    else Rect(r.x + at, r.y, r.width - at, r.height)
  }

  // ---------- the tree and its encoding in the array ----------

  function Ref(t: Tree): int {
    match t
    case Leaf(full) => if full then LEAF_FULL else LEAF_EMPTY
    case Split(i, _, _, _, _) => i
  }

  ghost function Indices(t: Tree): set<nat> {
    match t
    case Leaf(_) => {}
    case Split(i, _, _, a, b) => {i} + Indices(a) + Indices(b)
  }

  ghost predicate Distinct(t: Tree) {
    match t
    case Leaf(_) => true
    case Split(i, _, _, a, b) =>
      && i !in Indices(a) && i !in Indices(b) && Indices(a) !! Indices(b)
      && Distinct(a) && Distinct(b)
  }

  ghost predicate Represents(nodes: seq<Node>, t: Tree) {
    match t
    case Leaf(_) => true
    case Split(i, kind, at, a, b) =>
      && i < |nodes| && nodes[i] == Node(kind, at, Ref(a), Ref(b))
      && Represents(nodes, a) && Represents(nodes, b)
  }

  ghost predicate WellSized(t: Tree, r: Rect) {
    && 0 <= r.width && 0 <= r.height
    && match t
       case Leaf(_) => true
       case Split(_, kind, at, a, b) =>
         && 0 <= at <= (if kind.TopBottom? then r.height else r.width)
         && WellSized(a, PartA(kind, at, r)) && WellSized(b, PartB(kind, at, r))
  }

  /** The leaves in preorder, the first child before the second. */
  ghost function Leaves(t: Tree, r: Rect, owner: nat, sideB: bool): seq<Slot> {
    match t
    case Leaf(full) => [Slot(r, full, owner, sideB)]
    case Split(i, kind, at, a, b) =>
      Leaves(a, PartA(kind, at, r), i, false) + Leaves(b, PartB(kind, at, r), i, true)
  }

  /** The position of the first usable leaf, or the length of the list. */
  function FirstFit(ls: seq<Slot>, width: int, height: int): (k: nat)
    ensures k <= |ls|
    ensures k < |ls| ==> Usable(ls[k], width, height)
    ensures forall j :: 0 <= j < k ==> !Usable(ls[j], width, height)
  {
    if ls == [] then 0
    else if Usable(ls[0], width, height) then 0
    else 1 + FirstFit(ls[1..], width, height)
  }

  lemma FirstFitUnique(ls: seq<Slot>, width: int, height: int, k: nat)
    requires k <= |ls| && (k < |ls| ==> Usable(ls[k], width, height))
    requires forall j :: 0 <= j < k ==> !Usable(ls[j], width, height)
    ensures FirstFit(ls, width, height) == k
  {
  }

  // ---------- tiling ----------

  ghost function Cover(ls: seq<Slot>, px: int, py: int): nat {
    if ls == [] then 0
    else (if Contains(ls[0].rect, px, py) then 1 else 0) + Cover(ls[1..], px, py)
  }

  ghost function Area(ls: seq<Slot>, full: bool): int {
    if ls == [] then 0
    else (if ls[0].full == full then ls[0].rect.width * ls[0].rect.height else 0) + Area(ls[1..], full)
  }

  lemma {:induction false} CoverAppend(k: seq<Slot>, l: seq<Slot>, px: int, py: int)
    ensures Cover(k + l, px, py) == Cover(k, px, py) + Cover(l, px, py)
  {
    if k == [] {
      assert k + l == l;
    } else {
      assert (k + l)[1..] == k[1..] + l;
      CoverAppend(k[1..], l, px, py);
    }
  }

  lemma {:induction false} AreaAppend(k: seq<Slot>, l: seq<Slot>, full: bool)
    ensures Area(k + l, full) == Area(k, full) + Area(l, full)
  {
    if k == [] {
      assert k + l == l;
    } else {
      assert (k + l)[1..] == k[1..] + l;
      AreaAppend(k[1..], l, full);
    }
  }

  /** The leaves tile the region: every unit square of it lies in exactly one leaf, and no other does. */
  lemma {:induction false} LeavesTile(t: Tree, r: Rect, owner: nat, sideB: bool, px: int, py: int)
    requires WellSized(t, r)
    ensures Cover(Leaves(t, r, owner, sideB), px, py) == if Contains(r, px, py) then 1 else 0
  {
    match t
    case Leaf(_) =>
    case Split(i, kind, at, a, b) =>
      LeavesTile(a, PartA(kind, at, r), i, false, px, py);
      LeavesTile(b, PartB(kind, at, r), i, true, px, py);
      CoverAppend(Leaves(a, PartA(kind, at, r), i, false), Leaves(b, PartB(kind, at, r), i, true), px, py);
  }

  lemma MulSplit(x: int, y: int, z: int)
    ensures x * y + (z - x) * y == z * y && y * x + y * (z - x) == y * z
  {
  }

  /** Full area plus empty area is the area of the region. */
  lemma {:induction false} AreaConserved(t: Tree, r: Rect, owner: nat, sideB: bool)
    ensures var ls := Leaves(t, r, owner, sideB);
            Area(ls, true) + Area(ls, false) == r.width * r.height
  {
    match t
    case Leaf(_) =>
    case Split(i, kind, at, a, b) =>
      var la, lb := Leaves(a, PartA(kind, at, r), i, false), Leaves(b, PartB(kind, at, r), i, true);
      AreaConserved(a, PartA(kind, at, r), i, false);
      AreaConserved(b, PartB(kind, at, r), i, true);
      AreaAppend(la, lb, true);
      AreaAppend(la, lb, false);
      if kind.TopBottom? {
        MulSplit(at, r.width, r.height);
      } else {
        MulSplit(at, r.height, r.width);
      }
  }

  lemma {:induction false} LeavesInside(t: Tree, r: Rect, owner: nat, sideB: bool)
    requires WellSized(t, r)
    ensures forall s :: s in Leaves(t, r, owner, sideB) ==> Inside(s.rect, r)
  {
    match t
    case Leaf(_) =>
    case Split(i, kind, at, a, b) =>
      LeavesInside(a, PartA(kind, at, r), i, false);
      LeavesInside(b, PartB(kind, at, r), i, true);
  }

  /** A part that is too small has no usable leaf, so the search may skip it. */
  lemma NothingFits(t: Tree, r: Rect, owner: nat, sideB: bool, width: int, height: int)
    requires WellSized(t, r) && !Fits(r, width, height)
    ensures forall s :: s in Leaves(t, r, owner, sideB) ==> !Usable(s, width, height)
  {
    LeavesInside(t, r, owner, sideB);
  }

  /** Two different leaves never share a unit square. */
  lemma {:induction false} LeavesDisjoint(t: Tree, r: Rect, owner: nat, sideB: bool, j: nat, k: nat)
    requires WellSized(t, r) && j < k < |Leaves(t, r, owner, sideB)|
    ensures Disjoint(Leaves(t, r, owner, sideB)[j].rect, Leaves(t, r, owner, sideB)[k].rect)
  {
    match t
    case Leaf(_) =>
    case Split(i, kind, at, a, b) =>
      var la, lb := Leaves(a, PartA(kind, at, r), i, false), Leaves(b, PartB(kind, at, r), i, true);
      if k < |la| {
        LeavesDisjoint(a, PartA(kind, at, r), i, false, j, k);
      } else if |la| <= j {
        LeavesDisjoint(b, PartB(kind, at, r), i, true, j - |la|, k - |la|);
      } else {
        LeavesInside(a, PartA(kind, at, r), i, false);
        LeavesInside(b, PartB(kind, at, r), i, true);
        assert la[j] in la && lb[k - |la|] in lb;
      }
  }

  // ---------- replacing a leaf ----------

  function Plug(t: Tree, index: nat, sideB: bool, sub: Tree): Tree {
    match t
    case Leaf(_) => t
    case Split(i, kind, at, a, b) =>
      if i == index then (if sideB then t.(b := sub) else t.(a := sub))
      else Split(i, kind, at, Plug(a, index, sideB, sub), Plug(b, index, sideB, sub))
  }

  lemma {:induction false} LeavesOwners(t: Tree, r: Rect, owner: nat, sideB: bool)
    ensures forall s :: s in Leaves(t, r, owner, sideB) ==>
              if t.Leaf? then s.owner == owner && s.sideB == sideB else s.owner in Indices(t)
  {
    match t
    case Leaf(_) =>
    case Split(i, kind, at, a, b) =>
      LeavesOwners(a, PartA(kind, at, r), i, false);
      LeavesOwners(b, PartB(kind, at, r), i, true);
  }

  lemma OwnerIn(t: Tree, r: Rect, owner: nat, sideB: bool, k: nat)
    requires k < |Leaves(t, r, owner, sideB)|
    ensures var s := Leaves(t, r, owner, sideB)[k];
            if t.Leaf? then s.owner == owner && s.sideB == sideB else s.owner in Indices(t)
  {
    LeavesOwners(t, r, owner, sideB);
    assert Leaves(t, r, owner, sideB)[k] in Leaves(t, r, owner, sideB);
  }

  lemma {:induction false} PlugElsewhere(t: Tree, index: nat, sideB: bool, sub: Tree)
    requires index !in Indices(t)
    ensures Plug(t, index, sideB, sub) == t
  {
    match t
    case Leaf(_) =>
    case Split(i, kind, at, a, b) =>
      PlugElsewhere(a, index, sideB, sub);
      PlugElsewhere(b, index, sideB, sub);
  }

  function Splice(ls: seq<Slot>, k: nat, mid: seq<Slot>): seq<Slot>
    requires k < |ls|
  {
    ls[..k] + mid + ls[k + 1..]
  }

  lemma SpliceAppend(la: seq<Slot>, lb: seq<Slot>, k: nat, mid: seq<Slot>)
    requires k < |la + lb|
    ensures Splice(la + lb, k, mid) ==
            if k < |la| then Splice(la, k, mid) + lb else la + Splice(lb, k - |la|, mid)
  {
  }

  /** Replacing one leaf by a subtree changes the leaf list at that position only. */
  lemma {:induction false} PlugLeaves(t: Tree, r: Rect, owner: nat, sideB: bool, k: nat, sub: Tree)
    requires Distinct(t) && t.Split?
    requires k < |Leaves(t, r, owner, sideB)|
    ensures var ls := Leaves(t, r, owner, sideB);
            Leaves(Plug(t, ls[k].owner, ls[k].sideB, sub), r, owner, sideB)
            == Splice(ls, k, Leaves(sub, ls[k].rect, ls[k].owner, ls[k].sideB))
  {
    hide Indices, PartA, PartB;
    var Split(i, kind, at, a, b) := t;
    var ra, rb := PartA(kind, at, r), PartB(kind, at, r);
    var la, lb := Leaves(a, ra, i, false), Leaves(b, rb, i, true);
    var s: Slot := (la + lb)[k];
    SpliceAppend(la, lb, k, Leaves(sub, s.rect, s.owner, s.sideB));
    if k < |la| {
      OwnerIn(a, ra, i, false, k);
      if a.Split? {
        PlugElsewhere(b, s.owner, s.sideB, sub);
        assert Plug(t, s.owner, s.sideB, sub) == t.(a := Plug(a, s.owner, s.sideB, sub));
        PlugLeaves(a, ra, i, false, k, sub);
      }
    } else {
      OwnerIn(b, rb, i, true, k - |la|);
      if b.Split? {
        PlugElsewhere(a, s.owner, s.sideB, sub);
        assert Plug(t, s.owner, s.sideB, sub) == t.(b := Plug(b, s.owner, s.sideB, sub));
        PlugLeaves(b, rb, i, true, k - |la|, sub);
      }
    }
  }

  lemma {:induction false} RepresentsFrame(nodes: seq<Node>, nodes': seq<Node>, t: Tree)
    requires Represents(nodes, t) && |nodes| <= |nodes'|
    requires forall i :: i in Indices(t) && i < |nodes| ==> nodes'[i] == nodes[i]
    ensures Represents(nodes', t)
  {
    match t
    case Leaf(_) =>
    case Split(i, kind, at, a, b) =>
      assert i in Indices(t);
      RepresentsFrame(nodes, nodes', a);
      RepresentsFrame(nodes, nodes', b);
  }

  function SetChild(n: Node, sideB: bool, ref: int): Node {
    if sideB then n.(childB := ref) else n.(childA := ref)
  }

  lemma {:induction false} PlugRepresents(nodes: seq<Node>, nodes': seq<Node>, t: Tree, index: nat, sideB: bool,
                                          sub: Tree)
    requires Represents(nodes, t) && Distinct(t) && |nodes| <= |nodes'|
    requires index in Indices(t) && Represents(nodes', sub)
    requires forall i :: 0 <= i < |nodes| && i != index ==> nodes'[i] == nodes[i]
    requires index < |nodes| && nodes'[index] == SetChild(nodes[index], sideB, Ref(sub))
    ensures Represents(nodes', Plug(t, index, sideB, sub))
  {
    var Split(i, kind, at, a, b) := t;
    if i == index {
      RepresentsFrame(nodes, nodes', a);
      RepresentsFrame(nodes, nodes', b);
    } else if index in Indices(a) {
      PlugRepresents(nodes, nodes', a, index, sideB, sub);
      PlugElsewhere(b, index, sideB, sub);
      RepresentsFrame(nodes, nodes', b);
      assert a.Split?;
    } else {
      PlugRepresents(nodes, nodes', b, index, sideB, sub);
      PlugElsewhere(a, index, sideB, sub);
      RepresentsFrame(nodes, nodes', a);
      assert b.Split?;
    }
  }

  lemma {:induction false} PlugDistinct(t: Tree, index: nat, sideB: bool, sub: Tree)
    requires Distinct(t) && Distinct(sub) && Indices(t) !! Indices(sub)
    ensures Distinct(Plug(t, index, sideB, sub))
    ensures Indices(Plug(t, index, sideB, sub)) <= Indices(t) + Indices(sub)
    decreases t
  {
    match t
    case Leaf(_) =>
    case Split(i, kind, at, a, b) =>
      if index in Indices(a) {
        PlugDistinct(a, index, sideB, sub);
        PlugElsewhere(b, index, sideB, sub);
      } else {
        PlugElsewhere(a, index, sideB, sub);
        PlugDistinct(b, index, sideB, sub);
      }
  }

  lemma {:induction false} PlugWellSized(t: Tree, r: Rect, owner: nat, sideB: bool, k: nat, sub: Tree)
    requires Distinct(t) && t.Split? && WellSized(t, r)
    requires k < |Leaves(t, r, owner, sideB)|
    requires WellSized(sub, Leaves(t, r, owner, sideB)[k].rect)
    ensures var s := Leaves(t, r, owner, sideB)[k]; WellSized(Plug(t, s.owner, s.sideB, sub), r)
  {
    var Split(i, kind, at, a, b) := t;
    var ra, rb := PartA(kind, at, r), PartB(kind, at, r);
    var la, lb := Leaves(a, ra, i, false), Leaves(b, rb, i, true);
    LeavesOwners(a, ra, i, false);
    LeavesOwners(b, rb, i, true);
    var s := (la + lb)[k];
    if k < |la| {
      assert s in la;
      if a.Split? {
        PlugWellSized(a, ra, i, false, k, sub);
        PlugElsewhere(b, s.owner, s.sideB, sub);
      }
    } else {
      assert s == lb[k - |la|] && s in lb;
      if b.Split? {
        PlugWellSized(b, rb, i, true, k - |la|, sub);
        PlugElsewhere(a, s.owner, s.sideB, sub);
      }
    }
  }
}
