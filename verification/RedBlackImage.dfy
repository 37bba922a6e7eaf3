/** Red-black trees as values: the links, colours and in-order slices of all nodes of a tree.

    An `Image` records what every node of the tree holds.  The tree macros of
    third/libuv/include/tree.h are functions from images to images here; RedBlackTree.dfy runs
    them on linked nodes.  Each node knows the slice `order[lo..hi]` of the in-order sequence
    that its subtree occupies, its own place `idx` and the number `bh` of black nodes on the
    paths below it, so every invariant concerns one node and its neighbours. */
module RedBlackImage {

  class Node {
    const key: int
    var left: Node?
    var right: Node?
    var parent: Node?
    var red: bool

    constructor (key: int)
      ensures this.key == key && left == null && right == null && parent == null && !red
    {
      this.key := key;
      left, right, parent, red := null, null, null, false;
    }
  }

  datatype Cell = Cell(left: Node?, right: Node?, parent: Node?, red: bool,
                       idx: int, lo: int, hi: int, bh: int)

  datatype Image = Image(root: Node?, order: seq<Node>, cells: map<Node, Cell>)

  datatype Side = Left | Right

  ghost function Opp(s: Side): Side { if s.Left? then Right else Left }

  ghost function Child(c: Cell, s: Side): Node? { if s.Left? then c.left else c.right }

  ghost function WithChild(c: Cell, s: Side, n: Node?): Cell {
    if s.Left? then c.(left := n) else c.(right := n)
  }

  ghost predicate Sorted(s: seq<Node>) {
    forall i, j :: 0 <= i < j < |s| ==> s[i].key < s[j].key
  }

  // ----- search-tree shape

  ghost predicate DownOk(g: Image, n: Node, m: Node?, lo: int, hi: int) {
    && (m == null ==> lo == hi)
    && (m != null ==> m in g.cells && g.cells[m].parent == n && g.cells[m].lo == lo && g.cells[m].hi == hi)
  }

  ghost predicate UpOk(g: Image, n: Node, p: Node?) {
    && (p == null ==> n == g.root)
    && (p != null ==> p in g.cells && (g.cells[p].left == n || g.cells[p].right == n))
  }

  /** Links, slice and position of one node. */
  ghost predicate Ok(g: Image, n: Node) {
    && n in g.cells
    && var c := g.cells[n];
    && 0 <= c.lo <= c.idx < c.hi <= |g.order| && g.order[c.idx] == n
    && DownOk(g, n, c.left, c.lo, c.idx)
    && DownOk(g, n, c.right, c.idx + 1, c.hi)
    && UpOk(g, n, c.parent)
  }

  ghost predicate RootOk(g: Image) {
    && (g.root == null ==> g.order == [] && g.cells == map[])
    && (g.root != null ==>
          && g.root in g.cells && g.cells[g.root].parent == null
          && g.cells[g.root].lo == 0 && g.cells[g.root].hi == |g.order|)
  }

  ghost predicate OrderOk(g: Image) {
    && (forall i :: 0 <= i < |g.order| ==> g.order[i] in g.cells && g.cells[g.order[i]].idx == i)
    && Sorted(g.order)
  }

  /** A binary search tree over `order` with consistent parent links. */
  ghost predicate Shape(g: Image) {
    && (forall n {:trigger Ok(g, n)} :: n in g.cells ==> Ok(g, n))
    && RootOk(g)
    && OrderOk(g)
  }

  // ----- colours

  ghost function Height(g: Image, n: Node?): int {
    if n == null || n !in g.cells then 0 else g.cells[n].bh
  }

  ghost predicate IsRed(g: Image, n: Node?) {
    n != null && n in g.cells && g.cells[n].red
  }

  ghost function Weight(c: Cell): int { if c.red then 0 else 1 }

  /** All paths below `n` carry the same number of black nodes. */
  ghost predicate BhOk(g: Image, n: Node) {
    && n in g.cells
    && g.cells[n].bh >= 0
    && Height(g, g.cells[n].left) == Height(g, g.cells[n].right)
    && g.cells[n].bh == Height(g, g.cells[n].left) + Weight(g.cells[n])
  }

  ghost predicate RedOk(g: Image, n: Node) {
    && n in g.cells
    && (g.cells[n].red ==> !IsRed(g, g.cells[n].parent))
  }

  ghost predicate BhAll(g: Image) {
    forall n {:trigger BhOk(g, n)} :: n in g.cells ==> BhOk(g, n)
  }

  ghost predicate Valid(g: Image) {
    && Shape(g)
    && BhAll(g)
    && (forall n {:trigger RedOk(g, n)} :: n in g.cells ==> RedOk(g, n))
    && !IsRed(g, g.root)
  }

  // ----- rotations

  ghost predicate CanRotate(g: Image, x: Node, s: Side) {
    && x in g.cells
    && var y := Child(g.cells[x], Opp(s));
    && y != null && y in g.cells
  }

  ghost function Sub(n: Node?, x: Node, y: Node): Node? { if n == x then y else n }

  /** What node `n` holds after RB_ROTATE_LEFT (`s` is Left) or RB_ROTATE_RIGHT at `x`.  The
      new top takes over the slice and the black height of the old one. */
  ghost function RotatedCell(g: Image, x: Node, s: Side, n: Node): Cell
    requires CanRotate(g, x, s) && n in g.cells
  {
    var y: Node := Child(g.cells[x], Opp(s));
    var b := Child(g.cells[y], s);
    var c := g.cells[n];
    if n == x then
      var d := WithChild(c, Opp(s), b).(parent := y, bh := Height(g, b) + Weight(c));
      if s.Left? then d.(hi := g.cells[y].idx) else d.(lo := g.cells[y].idx + 1)
    else if n == y then
      WithChild(c, s, x).(parent := g.cells[x].parent, lo := g.cells[x].lo, hi := g.cells[x].hi, bh := g.cells[x].bh)
    else
      c.(left := Sub(c.left, x, y), right := Sub(c.right, x, y), parent := if n == b then x else c.parent)
  }

  ghost function Rotated(g: Image, x: Node, s: Side): Image
    requires CanRotate(g, x, s)
  {
    var y: Node := Child(g.cells[x], Opp(s));
    Image(if g.root == x then y else g.root, g.order, map n | n in g.cells :: RotatedCell(g, x, s, n))
  }

  /** Only its parent points down to a node. */
  lemma OneParent(g: Image, n: Node, m: Node)
    requires Shape(g) && n in g.cells && m in g.cells
    requires g.cells[n].left == m || g.cells[n].right == m
    ensures g.cells[m].parent == n
    ensures g.cells[n].left == m ==> g.cells[n].right != m
    ensures n != m
  {
    assert Ok(g, n) && Ok(g, m);
  }

  lemma RotatedDown(g: Image, x: Node, s: Side, y: Node)
    requires Shape(g) && CanRotate(g, x, s) && y == Child(g.cells[x], Opp(s))
    ensures Ok(Rotated(g, x, s), x)
  {
    assert Ok(g, x) && Ok(g, y);
    OneParent(g, x, y);
    var b := Child(g.cells[y], s);
    if b != null { OneParent(g, y, b); }
    var z := Child(g.cells[y], Opp(s));
    if z != null { OneParent(g, y, z); }
    var a := Child(g.cells[x], s);
    if a != null { OneParent(g, x, a); }
    var p := g.cells[x].parent;
    if p != null { OneParent(g, p, x); }
  }

  lemma RotatedUp(g: Image, x: Node, s: Side, y: Node)
    requires Shape(g) && CanRotate(g, x, s) && y == Child(g.cells[x], Opp(s))
    ensures Ok(Rotated(g, x, s), y)
  {
    assert Ok(g, x) && Ok(g, y);
    OneParent(g, x, y);
    var b := Child(g.cells[y], s);
    if b != null { OneParent(g, y, b); }
    var z := Child(g.cells[y], Opp(s));
    if z != null { OneParent(g, y, z); }
    var a := Child(g.cells[x], s);
    if a != null { OneParent(g, x, a); }
    var p := g.cells[x].parent;
    if p != null { OneParent(g, p, x); }
  }

  lemma RotatedTurns(g: Image, x: Node, s: Side, y: Node)
    requires Shape(g) && CanRotate(g, x, s) && y == Child(g.cells[x], Opp(s))
    ensures Ok(Rotated(g, x, s), x) && Ok(Rotated(g, x, s), y)
  {
    RotatedDown(g, x, s, y);
    RotatedUp(g, x, s, y);
  }

  lemma RotatedBelow(g: Image, x: Node, s: Side, y: Node, n: Node, m: Node, lo: int, hi: int)
    requires Shape(g) && CanRotate(g, x, s) && y == Child(g.cells[x], Opp(s))
    requires n in g.cells && n != x && n != y && m in g.cells
    requires g.cells[n].left == m || g.cells[n].right == m
    requires DownOk(g, n, m, lo, hi)
    ensures DownOk(Rotated(g, x, s), n, Sub(m, x, y), lo, hi)
  {
    OneParent(g, n, m);
    OneParent(g, x, y);
    var b := Child(g.cells[y], s);
    if b != null { assert Ok(g, y); OneParent(g, y, b); }
  }

  lemma RotatedRest(g: Image, x: Node, s: Side, y: Node, n: Node)
    requires Shape(g) && CanRotate(g, x, s) && y == Child(g.cells[x], Opp(s))
    requires n in g.cells && n != x && n != y
    ensures Ok(Rotated(g, x, s), n)
  {
    var c := g.cells[n];
    assert Ok(g, n);
    if c.left != null { RotatedBelow(g, x, s, y, n, c.left, c.lo, c.idx); }
    if c.right != null { RotatedBelow(g, x, s, y, n, c.right, c.idx + 1, c.hi); }
    assert UpOk(Rotated(g, x, s), n, Rotated(g, x, s).cells[n].parent) by {
      if c.parent != null && (c.parent == x || c.parent == y) { OneParent(g, c.parent, n); OneParent(g, x, y); }
    }
  }

  lemma RotatedShape(g: Image, x: Node, s: Side)
    requires Shape(g) && CanRotate(g, x, s)
    ensures Shape(Rotated(g, x, s))
  {
    var g' := Rotated(g, x, s);
    var y: Node := Child(g.cells[x], Opp(s));
    forall n {:trigger Ok(g', n)} | n in g'.cells ensures Ok(g', n) {
      if n == x || n == y { RotatedTurns(g, x, s, y); } else { RotatedRest(g, x, s, y, n); }
    }
    assert Ok(g, x) && Ok(g, y);
    if g.root != null { assert Ok(g, g.root); }
  }

  lemma RotatedBhRest(g: Image, x: Node, s: Side, y: Node, n: Node)
    requires Shape(g) && CanRotate(g, x, s) && y == Child(g.cells[x], Opp(s))
    requires n in g.cells && n != x && n != y && BhOk(g, n)
    ensures BhOk(Rotated(g, x, s), n)
  {
    assert Ok(g, n);
    if g.cells[n].left == y || g.cells[n].right == y { OneParent(g, n, y); OneParent(g, x, y); }
  }

  lemma RotatedBhTurns(g: Image, x: Node, s: Side, y: Node)
    requires Shape(g) && CanRotate(g, x, s) && y == Child(g.cells[x], Opp(s))
    requires var h := Height(g, Child(g.cells[y], s));
      && h >= 0 && Height(g, Child(g.cells[x], s)) == h
      && Height(g, Child(g.cells[y], Opp(s))) == h + Weight(g.cells[x])
      && g.cells[x].bh == h + Weight(g.cells[x]) + Weight(g.cells[y])
    ensures BhOk(Rotated(g, x, s), x) && BhOk(Rotated(g, x, s), y)
  {
    assert Ok(g, x) && Ok(g, y);
    OneParent(g, x, y);
    var a, b, c := Child(g.cells[x], s), Child(g.cells[y], s), Child(g.cells[y], Opp(s));
    if a != null { OneParent(g, x, a); }
    if b != null { OneParent(g, y, b); }
    if c != null { OneParent(g, y, c); }
  }

  lemma RotatedRed(g: Image, x: Node, s: Side, y: Node, n: Node)
    requires Shape(g) && CanRotate(g, x, s) && y == Child(g.cells[x], Opp(s))
    requires n in g.cells && n != x && n != y
    requires n == Child(g.cells[y], s) ==> !(g.cells[n].red && g.cells[x].red)
    requires n != Child(g.cells[y], s) ==> RedOk(g, n)
    ensures RedOk(Rotated(g, x, s), n)
  {
  }

  // ----- recolouring

  ghost function Painted(g: Image, n: Node, red: bool, bh: int): Image
    requires n in g.cells
  {
    g.(cells := g.cells[n := g.cells[n].(red := red, bh := bh)])
  }

  lemma PaintedShape(g: Image, n: Node, red: bool, bh: int)
    requires Shape(g) && n in g.cells
    ensures Shape(Painted(g, n, red, bh))
  {
    var g' := Painted(g, n, red, bh);
    forall m {:trigger Ok(g', m)} | m in g'.cells ensures Ok(g', m) {
      assert Ok(g, m);
    }
  }

  // ----- RB_INSERT_COLOR

  /** The tree is red-black except that `elm` and its parent may both be red. */
  ghost predicate Rising(g: Image, elm: Node) {
    && Shape(g)
    && BhAll(g)
    && elm in g.cells && g.cells[elm].red
    && (forall n {:trigger RedOk(g, n)} :: n in g.cells && n != elm ==> RedOk(g, n))
    && (IsRed(g, g.root) ==> g.root == elm)
  }

  /** The red parent of `elm` hangs on side `s` of its own parent. */
  ghost predicate RedPair(g: Image, elm: Node, s: Side, p: Node, gp: Node) {
    && Rising(g, elm)
    && g.cells[elm].parent == p && p in g.cells && g.cells[p].red
    && g.cells[p].parent == gp && gp in g.cells && !g.cells[gp].red
    && Child(g.cells[gp], s) == p
  }

  lemma RedParentHasParent(g: Image, elm: Node, p: Node)
    requires Rising(g, elm) && g.cells[elm].parent == p && IsRed(g, p)
    ensures g.cells[p].parent != null && g.cells[p].parent in g.cells
    ensures !g.cells[g.cells[p].parent].red
    ensures g.cells[g.cells[p].parent].left == p || g.cells[g.cells[p].parent].right == p
    ensures p != elm && g.cells[p].parent != elm
  {
    assert Ok(g, elm) && Ok(g, p);
    OneParent(g, p, elm);
    assert RedOk(g, p);
    OneParent(g, g.cells[p].parent, p);
    assert Ok(g, g.cells[p].parent);
  }

  /** Parent and uncle turn black, the grandparent red. */
  ghost function Flipped(g: Image, p: Node, gp: Node, u: Node): Image
    requires p in g.cells && gp in g.cells && u in g.cells
  {
    var g1 := Painted(g, u, false, g.cells[u].bh + 1);
    var g2 := Painted(g1, p, false, g.cells[p].bh + 1);
    Painted(g2, gp, true, g.cells[gp].bh)
  }

  lemma FlippedShape(g: Image, p: Node, gp: Node, u: Node)
    requires Shape(g) && p in g.cells && gp in g.cells && u in g.cells
    ensures Shape(Flipped(g, p, gp, u))
  {
    var g1 := Painted(g, u, false, g.cells[u].bh + 1);
    PaintedShape(g, u, false, g.cells[u].bh + 1);
    PaintedShape(g1, p, false, g.cells[p].bh + 1);
    PaintedShape(Painted(g1, p, false, g.cells[p].bh + 1), gp, true, g.cells[gp].bh);
  }

  lemma FlippedBh(g: Image, s: Side, p: Node, gp: Node, u: Node, n: Node)
    requires Shape(g) && BhAll(g) && n in g.cells && gp in g.cells && p in g.cells && u in g.cells
    requires Child(g.cells[gp], s) == p && Child(g.cells[gp], Opp(s)) == u && p != u
    requires g.cells[p].red && g.cells[u].red && !g.cells[gp].red
    ensures BhOk(Flipped(g, p, gp, u), n)
  {
    OneParent(g, gp, p);
    OneParent(g, gp, u);
    assert BhOk(g, n) && Ok(g, n);
    if g.cells[n].left != null { OneParent(g, n, g.cells[n].left); }
    if g.cells[n].right != null { OneParent(g, n, g.cells[n].right); }
  }

  lemma FlippedRises(g: Image, elm: Node, s: Side, p: Node, gp: Node, u: Node)
    requires RedPair(g, elm, s, p, gp)
    requires Child(g.cells[gp], Opp(s)) == u && IsRed(g, u)
    ensures Rising(Flipped(g, p, gp, u), gp)
    ensures g.cells[elm].hi - g.cells[elm].lo < g.cells[gp].hi - g.cells[gp].lo
  {
    RedParentHasParent(g, elm, p);
    OneParent(g, gp, p);
    OneParent(g, gp, u);
    assert Ok(g, gp) && Ok(g, p) && Ok(g, elm);
    FlippedShape(g, p, gp, u);
    var g' := Flipped(g, p, gp, u);
    forall n {:trigger BhOk(g', n)} | n in g'.cells ensures BhOk(g', n) {
      FlippedBh(g, s, p, gp, u, n);
    }
    forall n {:trigger RedOk(g', n)} | n in g'.cells && n != gp ensures RedOk(g', n) {
      if n != elm { assert RedOk(g, n); }
      if g.cells[n].parent == gp { assert Ok(g, n); }
    }
  }

  /** RB_ROTATE at the parent makes an inner grandchild an outer one. */
  lemma InnerTurned(g: Image, elm: Node, s: Side, p: Node, gp: Node)
    requires RedPair(g, elm, s, p, gp) && Child(g.cells[p], Opp(s)) == elm
    ensures CanRotate(g, p, s)
    ensures RedPair(Rotated(g, p, s), p, s, elm, gp)
    ensures Child(Rotated(g, p, s).cells[elm], s) == p
    ensures Child(Rotated(g, p, s).cells[gp], Opp(s)) == Child(g.cells[gp], Opp(s))
  {
    RedParentHasParent(g, elm, p);
    OneParent(g, gp, p);
    OneParent(g, p, elm);
    RotatedShape(g, p, s);
    var g' := Rotated(g, p, s);
    forall n {:trigger BhOk(g', n)} | n in g'.cells ensures BhOk(g', n) {
      assert BhOk(g, n) && BhOk(g, p) && BhOk(g, elm);
      if n == p || n == elm { RotatedBhTurns(g, p, s, elm); } else { RotatedBhRest(g, p, s, elm, n); }
    }
    assert Ok(g, elm);
    forall n {:trigger RedOk(g', n)} | n in g'.cells && n != p ensures RedOk(g', n) {
      if n != elm {
        assert RedOk(g, n);
        RotatedRed(g, p, s, elm, n);
      }
    }
  }

  /** RB_SET_BLACKRED */
  ghost function BlackRed(g: Image, black: Node, red: Node): Image
    requires black in g.cells && red in g.cells
  {
    Painted(Painted(g, black, false, g.cells[black].bh), red, true, g.cells[red].bh)
  }

  /** Parent black, grandparent red, then RB_ROTATE at the grandparent. */
  lemma OuterTurned(g: Image, elm: Node, s: Side, p: Node, gp: Node)
    requires RedPair(g, elm, s, p, gp) && Child(g.cells[p], s) == elm
    requires !IsRed(g, Child(g.cells[gp], Opp(s)))
    ensures CanRotate(BlackRed(g, p, gp), gp, Opp(s))
    ensures var g' := Rotated(BlackRed(g, p, gp), gp, Opp(s));
      && Rising(g', elm) && g'.cells[elm].parent == p && !IsRed(g', p)
  {
    RedParentHasParent(g, elm, p);
    OneParent(g, gp, p);
    OneParent(g, p, elm);
    var g2 := BlackRed(g, p, gp);
    PaintedShape(g, p, false, g.cells[p].bh);
    PaintedShape(Painted(g, p, false, g.cells[p].bh), gp, true, g.cells[gp].bh);
    RotatedShape(g2, gp, Opp(s));
    var g' := Rotated(g2, gp, Opp(s));
    forall n {:trigger BhOk(g', n)} | n in g'.cells ensures BhOk(g', n) {
      OuterTurnedBh(g, s, p, gp, n);
    }
    forall n {:trigger RedOk(g', n)} | n in g'.cells && n != elm ensures RedOk(g', n) {
      OuterTurnedRed(g, elm, s, p, gp, n);
    }
  }

  lemma OuterTurnedBh(g: Image, s: Side, p: Node, gp: Node, n: Node)
    requires BhAll(g) && n in g.cells && p in g.cells && gp in g.cells && p != gp
    requires Child(g.cells[gp], s) == p && g.cells[p].red && !g.cells[gp].red
    requires CanRotate(BlackRed(g, p, gp), gp, Opp(s)) && Shape(BlackRed(g, p, gp))
    ensures BhOk(Rotated(BlackRed(g, p, gp), gp, Opp(s)), n)
  {
    var g2 := BlackRed(g, p, gp);
    assert BhOk(g, n) && BhOk(g, p) && BhOk(g, gp);
    if n == p || n == gp { RotatedBhTurns(g2, gp, Opp(s), p); } else { RotatedBhRest(g2, gp, Opp(s), p, n); }
  }

  lemma OuterTurnedRed(g: Image, elm: Node, s: Side, p: Node, gp: Node, n: Node)
    requires RedPair(g, elm, s, p, gp) && Child(g.cells[p], s) == elm
    requires p != elm && gp != elm && p != gp && n in g.cells && n != elm
    requires !IsRed(g, Child(g.cells[gp], Opp(s)))
    requires CanRotate(BlackRed(g, p, gp), gp, Opp(s)) && Shape(BlackRed(g, p, gp))
    ensures RedOk(Rotated(BlackRed(g, p, gp), gp, Opp(s)), n)
  {
    assert RedOk(g, n) && Ok(g, n) && Ok(g, gp) && Ok(g, p);
    if n != p && n != gp {
      assert n == Child(g.cells[p], Opp(s)) ==> RedOk(g, n);
      RotatedRed(BlackRed(g, p, gp), gp, Opp(s), p, n);
    }
  }

  /** Once `elm` has no red parent, painting the root black completes the insertion. */
  lemma RisenValid(g: Image, elm: Node, r: Node)
    requires Rising(g, elm) && !IsRed(g, g.cells[elm].parent) && g.root == r && r in g.cells
    ensures Valid(Painted(g, r, false, g.cells[r].bh + 1 - Weight(g.cells[r])))
  {
    var bh := g.cells[r].bh + 1 - Weight(g.cells[r]);
    PaintedShape(g, r, false, bh);
    var g' := Painted(g, r, false, bh);
    forall n {:trigger BhOk(g', n)} | n in g'.cells ensures BhOk(g', n) {
      assert BhOk(g, n) && Ok(g, n);
    }
    forall n {:trigger RedOk(g', n)} | n in g'.cells ensures RedOk(g', n) {
      if n != elm { assert RedOk(g, n); }
    }
  }

  // ----- RB_INSERT

  ghost function Place(g: Image, p: Node?, s: Side): int
    requires p == null || p in g.cells
  {
    if p == null then 0 else if s.Left? then g.cells[p].idx else g.cells[p].idx + 1
  }

  /** A new red leaf `e` can go on side `s` of `p`. */
  ghost predicate CanAttach(g: Image, e: Node, p: Node?, s: Side) {
    && e !in g.cells
    && (p == null ==> g.root == null)
    && (p != null ==> p in g.cells && Child(g.cells[p], s) == null)
    && var at := Place(g, p, s);
    && 0 <= at <= |g.order|
    && (forall i :: 0 <= i < at ==> g.order[i].key < e.key)
    && (forall i :: at <= i < |g.order| ==> e.key < g.order[i].key)
  }

  /** How the slices of the other nodes make room for a node at `at`. */
  ghost function Widened(c: Cell, at: int, s: Side): Cell {
    var edge := if s.Left? then at + 1 else at;
    c.(idx := if c.idx >= at then c.idx + 1 else c.idx,
       lo := if c.lo >= edge then c.lo + 1 else c.lo,
       hi := if c.hi >= edge then c.hi + 1 else c.hi)
  }

  ghost function Attached(g: Image, e: Node, p: Node?, s: Side): Image
    requires CanAttach(g, e, p, s)
  {
    var at := Place(g, p, s);
    Image(if p == null then e else g.root,
          g.order[..at] + [e] + g.order[at..],
          (map n | n in g.cells ::
             var c := Widened(g.cells[n], at, s); if n == p then WithChild(c, s, e) else c)
          [e := Cell(null, null, p, true, at, at, at + 1, 0)])
  }

  lemma AttachedLeft(g: Image, e: Node, p: Node?, s: Side, n: Node, m: Node)
    requires Shape(g) && CanAttach(g, e, p, s) && n in g.cells && m == g.cells[n].left
    ensures var g' := Attached(g, e, p, s); var c' := g'.cells[n]; DownOk(g', n, m, c'.lo, c'.idx)
  {
    assert Ok(g, n) && Ok(g, m);
    if p != null { assert Ok(g, p); }
  }

  lemma AttachedRight(g: Image, e: Node, p: Node?, s: Side, n: Node, m: Node)
    requires Shape(g) && CanAttach(g, e, p, s) && n in g.cells && m == g.cells[n].right
    ensures var g' := Attached(g, e, p, s); var c' := g'.cells[n]; DownOk(g', n, m, c'.idx + 1, c'.hi)
  {
    assert Ok(g, n) && Ok(g, m);
    if p != null { assert Ok(g, p); }
  }

  lemma AttachedSlot(g: Image, e: Node, p: Node?, s: Side, n: Node)
    requires Shape(g) && CanAttach(g, e, p, s) && n in g.cells
    ensures var g' := Attached(g, e, p, s); var c := g'.cells[n];
      0 <= c.lo <= c.idx < c.hi <= |g'.order| && g'.order[c.idx] == n
  {
    assert Ok(g, n);
    if p != null { assert Ok(g, p); }
  }

  lemma AttachedUp(g: Image, e: Node, p: Node?, s: Side, n: Node)
    requires Shape(g) && CanAttach(g, e, p, s) && n in g.cells
    ensures var g' := Attached(g, e, p, s); UpOk(g', n, g'.cells[n].parent)
  {
    assert Ok(g, n);
  }

  /** A side without a child stays without one, or receives the new node. */
  lemma AttachedBare(g: Image, e: Node, p: Node?, s: Side, n: Node, t: Side)
    requires Shape(g) && CanAttach(g, e, p, s) && n in g.cells && Child(g.cells[n], t) == null
    ensures var g' := Attached(g, e, p, s); var c := g'.cells[n];
      if t.Left? then DownOk(g', n, c.left, c.lo, c.idx) else DownOk(g', n, c.right, c.idx + 1, c.hi)
  {
    assert Ok(g, n);
    if p != null { assert Ok(g, p); }
  }

  lemma AttachedOkAt(g: Image, e: Node, p: Node?, s: Side, n: Node)
    requires Shape(g) && CanAttach(g, e, p, s) && n in g.cells
    ensures Ok(Attached(g, e, p, s), n)
  {
    assert Ok(g, n);
    var c := g.cells[n];
    AttachedSlot(g, e, p, s, n);
    AttachedUp(g, e, p, s, n);
    if c.left == null { AttachedBare(g, e, p, s, n, Left); } else { AttachedLeft(g, e, p, s, n, c.left); }
    if c.right == null { AttachedBare(g, e, p, s, n, Right); } else { AttachedRight(g, e, p, s, n, c.right); }
  }

  lemma AttachedNew(g: Image, e: Node, p: Node?, s: Side)
    requires Shape(g) && CanAttach(g, e, p, s)
    ensures Ok(Attached(g, e, p, s), e)
  {
    if p != null { assert Ok(g, p); }
  }

  lemma AttachedEnds(g: Image, e: Node, p: Node?, s: Side)
    requires Shape(g) && CanAttach(g, e, p, s)
    ensures RootOk(Attached(g, e, p, s)) && OrderOk(Attached(g, e, p, s))
  {
    AttachedOrder(g, e, p, s);
    if p != null { assert Ok(g, p); }
    if g.root != null { assert Ok(g, g.root); }
  }

  lemma AttachedOrder(g: Image, e: Node, p: Node?, s: Side)
    requires Shape(g) && CanAttach(g, e, p, s)
    ensures OrderOk(Attached(g, e, p, s))
  {
    var g' := Attached(g, e, p, s);
    if p != null { assert Ok(g, p); }
    forall i | 0 <= i < |g'.order| ensures g'.order[i] in g'.cells && g'.cells[g'.order[i]].idx == i {
      AttachedIndex(g, e, p, s, i);
    }
    SortedInsert(g.order, e, Place(g, p, s));
  }

  lemma AttachedIndex(g: Image, e: Node, p: Node?, s: Side, i: int)
    requires Shape(g) && CanAttach(g, e, p, s) && 0 <= i < |Attached(g, e, p, s).order|
    ensures var g' := Attached(g, e, p, s); g'.order[i] in g'.cells && g'.cells[g'.order[i]].idx == i
  {
    var at := Place(g, p, s);
    if i != at {
      var n := g.order[if i < at then i else i - 1];
      assert Attached(g, e, p, s).order[i] == n && n != e;
    }
  }

  lemma SortedInsert(s: seq<Node>, e: Node, at: int)
    requires Sorted(s) && 0 <= at <= |s|
    requires (forall i :: 0 <= i < at ==> s[i].key < e.key) && (forall i :: at <= i < |s| ==> e.key < s[i].key)
    ensures Sorted(s[..at] + [e] + s[at..])
  {
  }

  lemma AttachedShape(g: Image, e: Node, p: Node?, s: Side)
    requires Shape(g) && CanAttach(g, e, p, s)
    ensures Shape(Attached(g, e, p, s))
  {
    var g' := Attached(g, e, p, s);
    forall n {:trigger Ok(g', n)} | n in g'.cells ensures Ok(g', n) {
      if n == e { AttachedNew(g, e, p, s); } else { AttachedOkAt(g, e, p, s, n); }
    }
    AttachedEnds(g, e, p, s);
  }

  lemma AttachedBh(g: Image, e: Node, p: Node?, s: Side, n: Node)
    requires Valid(g) && CanAttach(g, e, p, s) && n in Attached(g, e, p, s).cells
    ensures BhOk(Attached(g, e, p, s), n)
  {
    if n != e { assert BhOk(g, n) && Ok(g, n); }
  }

  lemma AttachedRed(g: Image, e: Node, p: Node?, s: Side, n: Node)
    requires Valid(g) && CanAttach(g, e, p, s) && n in g.cells
    ensures RedOk(Attached(g, e, p, s), n)
  {
    assert RedOk(g, n) && Ok(g, n);
  }

  lemma AttachedRises(g: Image, e: Node, p: Node?, s: Side)
    requires Valid(g) && CanAttach(g, e, p, s)
    ensures Rising(Attached(g, e, p, s), e)
  {
    AttachedShape(g, e, p, s);
    var g' := Attached(g, e, p, s);
    forall n {:trigger BhOk(g', n)} | n in g'.cells ensures BhOk(g', n) { AttachedBh(g, e, p, s, n); }
    forall n {:trigger RedOk(g', n)} | n in g'.cells && n != e ensures RedOk(g', n) { AttachedRed(g, e, p, s, n); }
  }

  // ----- RB_REMOVE

  /** Node `y` has at most one child, namely `child`. */
  ghost predicate CanSplice(g: Image, y: Node, child: Node?) {
    && y in g.cells
    && (g.cells[y].left == null || g.cells[y].right == null)
    && child == (if g.cells[y].left == null then g.cells[y].right else g.cells[y].left)
    && 0 <= g.cells[y].idx < |g.order|
  }

  ghost function Relink(n: Node?, y: Node, child: Node?): Node? { if n == y then child else n }

  ghost function SplicedCell(g: Image, y: Node, child: Node?, n: Node): Cell
    requires y in g.cells && n in g.cells
  {
    var c, q := g.cells[n], g.cells[y].idx;
    Cell(Relink(c.left, y, child), Relink(c.right, y, child),
         if n == child then g.cells[y].parent else c.parent, c.red,
         if c.idx > q then c.idx - 1 else c.idx,
         if c.lo > q then c.lo - 1 else c.lo,
         if c.hi > q then c.hi - 1 else c.hi, c.bh)
  }

  ghost function Spliced(g: Image, y: Node, child: Node?): Image
    requires CanSplice(g, y, child)
  {
    var q := g.cells[y].idx;
    Image(Relink(g.root, y, child), g.order[..q] + g.order[q + 1..],
          map n | n in g.cells && n != y :: SplicedCell(g, y, child, n))
  }

  lemma SplicedDown(g: Image, y: Node, child: Node?, n: Node, m: Node?, lo: int, hi: int)
    requires Shape(g) && CanSplice(g, y, child) && n in g.cells && n != y
    requires m == g.cells[n].left || m == g.cells[n].right
    requires DownOk(g, n, m, lo, hi)
    ensures var q := g.cells[y].idx;
      DownOk(Spliced(g, y, child), n, Relink(m, y, child),
             if lo > q then lo - 1 else lo, if hi > q then hi - 1 else hi)
  {
    assert Ok(g, y) && Ok(g, n);
    if m != null { OneParent(g, n, m); }
    if child != null { OneParent(g, y, child); }
  }

  lemma SplicedUp(g: Image, y: Node, child: Node?, n: Node)
    requires Shape(g) && CanSplice(g, y, child) && n in g.cells && n != y
    ensures var g' := Spliced(g, y, child); UpOk(g', n, g'.cells[n].parent)
  {
    assert Ok(g, n) && Ok(g, y);
    if g.cells[n].parent == y { OneParent(g, y, n); }
    if child != null { OneParent(g, y, child); }
  }

  lemma SplicedSlot(g: Image, y: Node, child: Node?, n: Node)
    requires Shape(g) && CanSplice(g, y, child) && n in g.cells && n != y
    ensures var g' := Spliced(g, y, child); var c := g'.cells[n];
      0 <= c.lo <= c.idx < c.hi <= |g'.order| && g'.order[c.idx] == n
  {
    assert Ok(g, n) && Ok(g, y);
    assert g.cells[n].idx != g.cells[y].idx;
  }

  lemma SplicedOkAt(g: Image, y: Node, child: Node?, n: Node)
    requires Shape(g) && CanSplice(g, y, child) && n in g.cells && n != y
    ensures Ok(Spliced(g, y, child), n)
  {
    var c := g.cells[n];
    assert Ok(g, n) && Ok(g, y);
    assert c.idx != g.cells[y].idx;
    SplicedDown(g, y, child, n, c.left, c.lo, c.idx);
    SplicedDown(g, y, child, n, c.right, c.idx + 1, c.hi);
    SplicedUp(g, y, child, n);
    SplicedSlot(g, y, child, n);
  }

  lemma SplicedShape(g: Image, y: Node, child: Node?)
    requires Shape(g) && CanSplice(g, y, child)
    ensures Shape(Spliced(g, y, child))
  {
    var g' := Spliced(g, y, child);
    forall n {:trigger Ok(g', n)} | n in g'.cells ensures Ok(g', n) {
      SplicedOkAt(g, y, child, n);
    }
    SplicedRoot(g, y, child);
    assert Ok(g, y);
  }

  lemma SplicedRoot(g: Image, y: Node, child: Node?)
    requires Shape(g) && CanSplice(g, y, child)
    ensures RootOk(Spliced(g, y, child))
  {
    assert Ok(g, y) && Ok(g, g.root);
    if child != null { OneParent(g, y, child); }
    forall n | n in g.cells ensures g.root == y && child == null ==> n == y {
      assert Ok(g, n);
    }
  }
}
