/** RB_REMOVE and RB_REMOVE_COLOR on images: a successor takes over a node's place, and a
    missing black node is pushed towards the root until it can be made up for. */
module RedBlackRemoval {
  import opened RedBlackImage

  // ----- the successor takes over the removed node's links

  ghost predicate CanReplace(g: Image, z: Node, y: Node) {
    && z in g.cells && y !in g.cells
    && 0 <= g.cells[z].idx < |g.order|
    && Sorted(g.order[g.cells[z].idx := y])
  }

  ghost function ReplacedCell(c: Cell, z: Node, y: Node): Cell {
    c.(left := Sub(c.left, z, y), right := Sub(c.right, z, y), parent := Sub(c.parent, z, y))
  }

  ghost function Replaced(g: Image, z: Node, y: Node): Image
    requires CanReplace(g, z, y)
  {
    Image(Sub(g.root, z, y), g.order[g.cells[z].idx := y],
          (map n | n in g.cells && n != z :: ReplacedCell(g.cells[n], z, y))[y := g.cells[z]])
  }

  lemma ReplacedShape(g: Image, z: Node, y: Node)
    requires Shape(g) && CanReplace(g, z, y)
    ensures Shape(Replaced(g, z, y))
  {
    var g' := Replaced(g, z, y);
    assert Ok(g, z);
    forall n {:trigger Ok(g', n)} | n in g'.cells ensures Ok(g', n) {
      if n == y {
        if g.cells[z].left != null { OneParent(g, z, g.cells[z].left); }
        if g.cells[z].right != null { OneParent(g, z, g.cells[z].right); }
        if g.cells[z].parent != null { OneParent(g, g.cells[z].parent, z); }
      } else {
        assert Ok(g, n);
      }
    }
  }

  /** Black heights and colours move along with the links. */
  lemma ReplacedBh(g: Image, z: Node, y: Node, n: Node)
    requires Shape(g) && CanReplace(g, z, y) && n in g.cells && BhOk(g, n)
    ensures BhOk(Replaced(g, z, y), if n == z then y else n)
  {
    assert Ok(g, n) && Ok(g, z);
    if g.cells[n].left != null { OneParent(g, n, g.cells[n].left); }
    if g.cells[n].right != null { OneParent(g, n, g.cells[n].right); }
  }

  lemma ReplacedRed(g: Image, z: Node, y: Node, n: Node)
    requires Shape(g) && CanReplace(g, z, y) && n in g.cells && RedOk(g, n)
    ensures RedOk(Replaced(g, z, y), if n == z then y else n)
  {
    assert Ok(g, n) && Ok(g, z);
    if g.cells[n].parent != null { OneParent(g, g.cells[n].parent, n); }
  }

  // ----- RB_REMOVE_COLOR

  /** The subtree `elm` on side `s` of `p` lacks one black node. */
  ghost predicate ShortOn(g: Image, p: Node, elm: Node?, s: Side) {
    && p in g.cells
    && Child(g.cells[p], s) == elm
    && Height(g, elm) + 1 == Height(g, Child(g.cells[p], Opp(s)))
    && g.cells[p].bh == Height(g, elm) + 1 + Weight(g.cells[p])
  }

  ghost predicate Excused(g: Image, elm: Node?, n: Node)
    requires n in g.cells
  {
    n == elm || (elm != null && g.cells[n].parent == elm)
  }

  /** The tree is red-black except that `elm`, whose parent is `p`, lacks one black node and may
      be red next to other red nodes. */
  ghost predicate Sinking(g: Image, p: Node?, elm: Node?) {
    && Shape(g)
    && (p == null ==> elm == g.root)
    && (p != null ==> ShortOn(g, p, elm, Left) || ShortOn(g, p, elm, Right))
    && (elm != null ==> elm in g.cells && g.cells[elm].parent == p)
    && (forall n {:trigger BhOk(g, n)} :: n in g.cells && n != p ==> BhOk(g, n))
    && (forall n {:trigger RedOk(g, n)} :: n in g.cells && !Excused(g, elm, n) ==> RedOk(g, n))
    && (IsRed(g, g.root) ==> g.root == elm)
  }

  lemma SplicedSinks(g: Image, y: Node, child: Node?)
    requires Valid(g) && CanSplice(g, y, child) && !g.cells[y].red
    ensures Sinking(Spliced(g, y, child), g.cells[y].parent, child)
  {
    var g', p := Spliced(g, y, child), g.cells[y].parent;
    SplicedShape(g, y, child);
    assert Ok(g, y) && BhOk(g, y);
    if child != null { OneParent(g, y, child); }
    forall n {:trigger BhOk(g', n)} | n in g'.cells && n != p ensures BhOk(g', n) {
      SplicedBh(g, y, child, n);
    }
    forall n {:trigger RedOk(g', n)} | n in g'.cells && !Excused(g', child, n) ensures RedOk(g', n) {
      assert RedOk(g, n) && Ok(g, n);
      if g.cells[n].parent == y { OneParent(g, y, n); }
    }
    if p != null { SplicedShort(g, y, child, p); }
  }

  lemma SplicedBh(g: Image, y: Node, child: Node?, n: Node)
    requires Shape(g) && CanSplice(g, y, child) && n in g.cells && n != y && BhOk(g, n) && BhOk(g, y)
    requires n != g.cells[y].parent || g.cells[y].red
    ensures BhOk(Spliced(g, y, child), n)
  {
    assert Ok(g, n) && Ok(g, y);
    if g.cells[n].left != null { OneParent(g, n, g.cells[n].left); }
    if g.cells[n].right != null { OneParent(g, n, g.cells[n].right); }
  }

  lemma SplicedShort(g: Image, y: Node, child: Node?, p: Node)
    requires Shape(g) && CanSplice(g, y, child) && BhOk(g, y) && g.cells[y].parent == p
    requires !g.cells[y].red && p in g.cells && BhOk(g, p)
    ensures ShortOn(Spliced(g, y, child), p, child, Left) || ShortOn(Spliced(g, y, child), p, child, Right)
  {
    assert Ok(g, y) && Ok(g, p);
    OneParent(g, p, y);
    if g.cells[p].left != null { OneParent(g, p, g.cells[p].left); }
    if g.cells[p].right != null { OneParent(g, p, g.cells[p].right); }
  }

  /** Unlinking a red node leaves a red-black tree. */
  lemma SplicedRedValid(g: Image, y: Node, child: Node?)
    requires Valid(g) && CanSplice(g, y, child) && g.cells[y].red
    ensures Valid(Spliced(g, y, child))
  {
    var g' := Spliced(g, y, child);
    SplicedShape(g, y, child);
    assert Ok(g, y) && BhOk(g, y);
    forall n {:trigger BhOk(g', n)} | n in g'.cells ensures BhOk(g', n) {
      assert BhOk(g, n);
      SplicedBh(g, y, child, n);
    }
    forall n {:trigger RedOk(g', n)} | n in g'.cells ensures RedOk(g', n) {
      assert RedOk(g, n) && RedOk(g, y) && Ok(g, n);
      if g.cells[n].parent == y { OneParent(g, y, n); }
    }
  }

  lemma ReplacedValid(g: Image, z: Node, y: Node)
    requires Valid(g) && CanReplace(g, z, y)
    ensures Valid(Replaced(g, z, y))
  {
    var g' := Replaced(g, z, y);
    ReplacedShape(g, z, y);
    forall n {:trigger BhOk(g', n)} | n in g'.cells ensures BhOk(g', n) {
      var m := if n == y then z else n;
      assert BhOk(g, m);
      ReplacedBh(g, z, y, m);
    }
    forall n {:trigger RedOk(g', n)} | n in g'.cells ensures RedOk(g', n) {
      var m := if n == y then z else n;
      assert RedOk(g, m);
      ReplacedRed(g, z, y, m);
    }
  }

  lemma ReplacedSinks(g: Image, p: Node?, elm: Node?, z: Node, y: Node)
    requires Sinking(g, p, elm) && CanReplace(g, z, y) && elm != z && elm != y
    ensures Sinking(Replaced(g, z, y), if p == z then y else p, elm)
  {
    var g' := Replaced(g, z, y);
    ReplacedShape(g, z, y);
    forall n {:trigger BhOk(g', n)} | n in g'.cells && n != Sub(p, z, y) ensures BhOk(g', n) {
      var m := if n == y then z else n;
      assert BhOk(g, m);
      ReplacedBh(g, z, y, m);
    }
    forall n {:trigger RedOk(g', n)} | n in g'.cells && !Excused(g', elm, n) ensures RedOk(g', n) {
      var m := if n == y then z else n;
      assert RedOk(g, m);
      ReplacedRed(g, z, y, m);
    }
    if p != null {
      assert Ok(g, p);
      if g.cells[p].left != null { OneParent(g, p, g.cells[p].left); }
      if g.cells[p].right != null { OneParent(g, p, g.cells[p].right); }
    }
  }

  /** Inside the loop: `elm` is black or missing, and `w` is its sibling. */
  ghost predicate Lacking(g: Image, p: Node, elm: Node?, s: Side, w: Node) {
    && Sinking(g, p, elm)
    && !IsRed(g, elm)
    && ShortOn(g, p, elm, s)
    && Child(g.cells[p], Opp(s)) == w && w in g.cells && w != p && g.cells[w].parent == p
    && elm != p && elm != w
    && (forall n {:trigger RedOk(g, n)} :: n in g.cells ==> RedOk(g, n))
    && !IsRed(g, g.root)
  }

  lemma SiblingExists(g: Image, p: Node, elm: Node?, s: Side)
    requires Sinking(g, p, elm) && ShortOn(g, p, elm, s) && !IsRed(g, elm)
    ensures Child(g.cells[p], Opp(s)) != null
    ensures Lacking(g, p, elm, s, Child(g.cells[p], Opp(s)))
  {
    var w := Child(g.cells[p], Opp(s));
    assert Ok(g, p);
    if elm != null { OneParent(g, p, elm); assert BhOk(g, elm); }
    assert w != null;
    OneParent(g, p, w);
    forall n {:trigger RedOk(g, n)} | n in g.cells ensures RedOk(g, n) {
      if !Excused(g, elm, n) { assert RedOk(g, n); }
    }
  }

  lemma RedSiblingTurns(g: Image, p: Node, elm: Node?, s: Side, w: Node)
    requires Lacking(g, p, elm, s, w) && g.cells[w].red
    ensures CanRotate(BlackRed(g, w, p), p, s) && Shape(BlackRed(g, w, p))
    ensures var g' := Rotated(BlackRed(g, w, p), p, s);
      && Shape(g') && g'.cells[p].red && !IsRed(g', Child(g'.cells[p], Opp(s))) && g'.cells[p].parent == w
      && g'.cells[w].lo == g.cells[p].lo && g'.cells[w].hi == g.cells[p].hi
  {
    var g2 := BlackRed(g, w, p);
    PaintedShape(g, w, false, g.cells[w].bh);
    PaintedShape(Painted(g, w, false, g.cells[w].bh), p, true, g.cells[p].bh);
    assert RedOk(g, w) && Ok(g, w) && Ok(g, p);
    var b := Child(g.cells[w], s);
    if b != null { OneParent(g, w, b); assert RedOk(g, b); }
    RotatedShape(g2, p, s);
  }

  lemma RedSiblingShort(g: Image, p: Node, elm: Node?, s: Side, w: Node)
    requires Lacking(g, p, elm, s, w) && g.cells[w].red && CanRotate(BlackRed(g, w, p), p, s)
    ensures ShortOn(Rotated(BlackRed(g, w, p), p, s), p, elm, s)
  {
    assert RedOk(g, w) && Ok(g, w) && Ok(g, p) && BhOk(g, w);
    var b := Child(g.cells[w], s);
    if b != null { OneParent(g, w, b); assert RedOk(g, b); }
    if elm != null { OneParent(g, p, elm); }
  }

  /** A red sibling turns black, `p` red, and RB_ROTATE lifts the sibling above `p`. */
  lemma RedSiblingLifted(g: Image, p: Node, elm: Node?, s: Side, w: Node)
    requires Lacking(g, p, elm, s, w) && g.cells[w].red
    ensures CanRotate(BlackRed(g, w, p), p, s)
    ensures var g' := Rotated(BlackRed(g, w, p), p, s);
      && Sinking(g', p, elm) && ShortOn(g', p, elm, s) && g'.cells[p].red
      && !IsRed(g', Child(g'.cells[p], Opp(s)))
      && g'.cells[p].parent == w
      && g'.cells[w].lo == g.cells[p].lo && g'.cells[w].hi == g.cells[p].hi
  {
    RedSiblingTurns(g, p, elm, s, w);
    RedSiblingShort(g, p, elm, s, w);
    var g' := Rotated(BlackRed(g, w, p), p, s);
    forall n {:trigger BhOk(g', n)} | n in g'.cells && n != p ensures BhOk(g', n) {
      RedSiblingBh(g, p, elm, s, w, n);
    }
    forall n {:trigger RedOk(g', n)} | n in g'.cells && !Excused(g', elm, n) ensures RedOk(g', n) {
      RedSiblingRed(g, p, elm, s, w, n);
    }
  }

  /** The new sibling is black. */
  lemma RedSiblingDone(g: Image, p: Node, elm: Node?, s: Side, w: Node) returns (v: Node)
    requires Lacking(g, p, elm, s, w) && g.cells[w].red
    ensures CanRotate(BlackRed(g, w, p), p, s)
    ensures var g' := Rotated(BlackRed(g, w, p), p, s);
      && Lacking(g', p, elm, s, v) && !g'.cells[v].red && g'.cells[p].red && g'.cells[p].parent == w
      && w in g'.cells && g'.cells[w].lo == g.cells[p].lo && g'.cells[w].hi == g.cells[p].hi
      && g'.order == g.order && g'.cells.Keys == g.cells.Keys
  {
    RedSiblingLifted(g, p, elm, s, w);
    var g' := Rotated(BlackRed(g, w, p), p, s);
    SiblingExists(g', p, elm, s);
    v := Child(g'.cells[p], Opp(s));
  }

  lemma RedSiblingBh(g: Image, p: Node, elm: Node?, s: Side, w: Node, n: Node)
    requires Lacking(g, p, elm, s, w) && g.cells[w].red && n in g.cells && n != p
    requires CanRotate(BlackRed(g, w, p), p, s) && Shape(BlackRed(g, w, p))
    ensures BhOk(Rotated(BlackRed(g, w, p), p, s), n)
  {
    var g2 := BlackRed(g, w, p);
    assert BhOk(g, n);
    if n != w {
      RotatedBhRest(g2, p, s, w, n);
    } else {
      assert RedOk(g, w) && Ok(g, w) && Ok(g, p);
      var c := Child(g.cells[w], Opp(s));
      if c != null { OneParent(g, w, c); }
      var b := Child(g.cells[w], s);
      if b != null { OneParent(g, w, b); }
    }
  }

  lemma RedSiblingRed(g: Image, p: Node, elm: Node?, s: Side, w: Node, n: Node)
    requires Lacking(g, p, elm, s, w) && g.cells[w].red && n in g.cells && n != elm
    requires CanRotate(BlackRed(g, w, p), p, s) && Shape(BlackRed(g, w, p))
    ensures RedOk(Rotated(BlackRed(g, w, p), p, s), n)
  {
    assert RedOk(g, n) && Ok(g, n) && Ok(g, p) && Ok(g, w);
    if n != p && n != w {
      RotatedRed(BlackRed(g, w, p), p, s, w, n);
    }
  }

  /** With no red nephew the sibling turns red and the shortage moves up to `p`. */
  ghost function Lowered(g: Image, p: Node, w: Node): Image
    requires p in g.cells && w in g.cells
  {
    Painted(Painted(g, w, true, g.cells[w].bh - 1), p, g.cells[p].red, g.cells[p].bh - 1)
  }

  lemma LoweredSinks(g: Image, p: Node, elm: Node?, s: Side, w: Node)
    requires Lacking(g, p, elm, s, w) && !g.cells[w].red
    requires !IsRed(g, g.cells[w].left) && !IsRed(g, g.cells[w].right)
    ensures Sinking(Lowered(g, p, w), g.cells[p].parent, p)
  {
    var g', q := Lowered(g, p, w), g.cells[p].parent;
    PaintedShape(g, w, true, g.cells[w].bh - 1);
    PaintedShape(Painted(g, w, true, g.cells[w].bh - 1), p, g.cells[p].red, g.cells[p].bh - 1);
    assert Ok(g, p);
    if q != null { assert Ok(g, q); LoweredShort(g, p, w, q); }
    forall n {:trigger BhOk(g', n)} | n in g'.cells && n != q ensures BhOk(g', n) {
      LoweredBh(g, p, elm, s, w, n);
    }
    forall n {:trigger RedOk(g', n)} | n in g'.cells && !Excused(g', p, n) ensures RedOk(g', n) {
      assert RedOk(g, n) && Ok(g, n);
      if g.cells[n].parent == w { assert Ok(g, w); }
    }
  }

  /** The shortage moves to a wider subtree. */
  lemma LoweredUp(g: Image, p: Node, w: Node)
    requires Shape(g) && p in g.cells && w in g.cells && w != p
    ensures var g', q := Lowered(g, p, w), g.cells[p].parent;
      && g'.cells.Keys == g.cells.Keys && g'.cells[p].parent == q && g'.cells[p].red == g.cells[p].red
      && (q == null || (q in g.cells && g'.cells[q].lo == g.cells[q].lo && g'.cells[q].hi == g.cells[q].hi
                        && g.cells[p].hi - g.cells[p].lo < g.cells[q].hi - g.cells[q].lo))
  {
    assert Ok(g, p);
    if g.cells[p].parent != null { assert Ok(g, g.cells[p].parent); }
  }

  lemma LoweredShort(g: Image, p: Node, w: Node, q: Node)
    requires Shape(g) && p in g.cells && w in g.cells && q in g.cells && g.cells[w].parent == p
    requires g.cells[p].parent == q && BhOk(g, q) && w != p
    ensures ShortOn(Lowered(g, p, w), q, p, Left) || ShortOn(Lowered(g, p, w), q, p, Right)
  {
    assert Ok(g, p) && Ok(g, q) && Ok(g, w);
    OneParent(g, q, p);
    if g.cells[q].left != null { OneParent(g, q, g.cells[q].left); }
    if g.cells[q].right != null { OneParent(g, q, g.cells[q].right); }
  }

  lemma LoweredBh(g: Image, p: Node, elm: Node?, s: Side, w: Node, n: Node)
    requires Lacking(g, p, elm, s, w) && !g.cells[w].red && n in g.cells && n != g.cells[p].parent
    ensures BhOk(Lowered(g, p, w), n)
  {
    if n == p {
      LoweredAtParent(g, p, elm, s, w);
    } else {
      assert Ok(g, n) && BhOk(g, n) && BhOk(g, w);
      if elm != null { assert BhOk(g, elm); }
      if g.cells[n].left != null { OneParent(g, n, g.cells[n].left); }
      if g.cells[n].right != null { OneParent(g, n, g.cells[n].right); }
    }
  }

  lemma LoweredAtParent(g: Image, p: Node, elm: Node?, s: Side, w: Node)
    requires Lacking(g, p, elm, s, w) && !g.cells[w].red
    ensures BhOk(Lowered(g, p, w), p)
  {
    assert Ok(g, p) && BhOk(g, w);
    if elm != null { assert BhOk(g, elm); OneParent(g, p, elm); }
    OneParent(g, p, w);
  }

  /** A red near nephew `a` turns black, the sibling red, and RB_ROTATE lifts the nephew. */
  lemma NearLifted(g: Image, p: Node, elm: Node?, s: Side, w: Node, a: Node)
    requires Lacking(g, p, elm, s, w) && !g.cells[w].red
    requires Child(g.cells[w], s) == a && IsRed(g, a) && !IsRed(g, Child(g.cells[w], Opp(s)))
    ensures CanRotate(BlackRed(g, a, w), w, Opp(s))
    ensures var g' := Rotated(BlackRed(g, a, w), w, Opp(s));
      && Lacking(g', p, elm, s, a) && !g'.cells[a].red && Child(g'.cells[a], Opp(s)) == w && g'.cells[w].red
  {
    var g2 := BlackRed(g, a, w);
    PaintedShape(g, a, false, g.cells[a].bh);
    PaintedShape(Painted(g, a, false, g.cells[a].bh), w, true, g.cells[w].bh);
    RotatedShape(g2, w, Opp(s));
    var g' := Rotated(g2, w, Opp(s));
    assert Ok(g, p) && Ok(g, w);
    OneParent(g, w, a);
    forall n {:trigger BhOk(g', n)} | n in g'.cells && n != p ensures BhOk(g', n) {
      NearBh(g, p, elm, s, w, a, n);
    }
    forall n {:trigger RedOk(g', n)} | n in g'.cells ensures RedOk(g', n) {
      NearRed(g, p, elm, s, w, a, n);
    }
    NearShort(g, p, elm, s, w, a);
  }

  lemma NearShort(g: Image, p: Node, elm: Node?, s: Side, w: Node, a: Node)
    requires Lacking(g, p, elm, s, w) && Child(g.cells[w], s) == a && a in g.cells && a != w && a != p
    requires g.cells[a].parent == w
    requires CanRotate(BlackRed(g, a, w), w, Opp(s))
    ensures var g' := Rotated(BlackRed(g, a, w), w, Opp(s));
      && ShortOn(g', p, elm, s) && Child(g'.cells[p], Opp(s)) == a && g'.cells[a].parent == p
      && (elm != null ==> elm in g'.cells && g'.cells[elm].parent == p)
  {
    if elm != null { OneParent(g, p, elm); }
    assert Ok(g, a);
  }

  lemma NearBh(g: Image, p: Node, elm: Node?, s: Side, w: Node, a: Node, n: Node)
    requires Lacking(g, p, elm, s, w) && !g.cells[w].red && n in g.cells && n != p && a != w
    requires Child(g.cells[w], s) == a && IsRed(g, a) && g.cells[a].parent == w
    requires CanRotate(BlackRed(g, a, w), w, Opp(s)) && Shape(BlackRed(g, a, w))
    ensures BhOk(Rotated(BlackRed(g, a, w), w, Opp(s)), n)
  {
    var g2 := BlackRed(g, a, w);
    assert BhOk(g, n) && Ok(g, p) && Ok(g, w);
    if n != w && n != a {
      RotatedBhRest(g2, w, Opp(s), a, n);
    } else {
      assert BhOk(g, w) && BhOk(g, a) by { OneParent(g, p, w); OneParent(g, w, a); }
      RotatedBhTurns(g2, w, Opp(s), a);
    }
  }

  lemma NearRed(g: Image, p: Node, elm: Node?, s: Side, w: Node, a: Node, n: Node)
    requires Lacking(g, p, elm, s, w) && !g.cells[w].red && n in g.cells && a != w
    requires Child(g.cells[w], s) == a && IsRed(g, a) && g.cells[a].parent == w
    requires !IsRed(g, Child(g.cells[w], Opp(s)))
    requires CanRotate(BlackRed(g, a, w), w, Opp(s)) && Shape(BlackRed(g, a, w))
    ensures RedOk(Rotated(BlackRed(g, a, w), w, Opp(s)), n)
  {
    assert RedOk(g, n) && Ok(g, n) && Ok(g, w) && Ok(g, a);
    if n != w && n != a {
      RotatedRed(BlackRed(g, a, w), w, Opp(s), a, n);
    }
  }

  /** With a red far nephew `c`, the sibling takes the colour of `p`, and `p` and `c` turn
      black; RB_ROTATE at `p` then makes up for the missing black node. */
  ghost function FarPaint(g: Image, p: Node, w: Node, c: Node): Image
    requires p in g.cells && w in g.cells && c in g.cells
  {
    var g1 := Painted(g, w, g.cells[p].red, g.cells[w].bh);
    Painted(Painted(g1, p, false, g.cells[p].bh), c, false, g.cells[c].bh + 1)
  }

  lemma FarShape(g: Image, p: Node, w: Node, c: Node)
    requires Shape(g) && p in g.cells && w in g.cells && c in g.cells && p != w && c != p && c != w
    ensures Shape(FarPaint(g, p, w, c))
  {
    var g1 := Painted(g, w, g.cells[p].red, g.cells[w].bh);
    PaintedShape(g, w, g.cells[p].red, g.cells[w].bh);
    PaintedShape(g1, p, false, g.cells[p].bh);
    PaintedShape(Painted(g1, p, false, g.cells[p].bh), c, false, g.cells[c].bh + 1);
  }

  lemma FarLifted(g: Image, p: Node, elm: Node?, s: Side, w: Node, c: Node)
    requires Lacking(g, p, elm, s, w) && !g.cells[w].red
    requires Child(g.cells[w], Opp(s)) == c && IsRed(g, c)
    ensures c != p && c != w && Shape(FarPaint(g, p, w, c))
    ensures CanRotate(FarPaint(g, p, w, c), p, s)
    ensures Valid(Rotated(FarPaint(g, p, w, c), p, s))
  {
    var g2 := FarPaint(g, p, w, c);
    assert Ok(g, p) && Ok(g, w);
    OneParent(g, w, c);
    FarShape(g, p, w, c);
    RotatedShape(g2, p, s);
    var g' := Rotated(g2, p, s);
    forall n {:trigger BhOk(g', n)} | n in g'.cells ensures BhOk(g', n) {
      FarBh(g, p, elm, s, w, c, n);
    }
    forall n {:trigger RedOk(g', n)} | n in g'.cells ensures RedOk(g', n) {
      FarRed(g, p, elm, s, w, c, n);
    }
  }

  lemma FarBhTurns(g: Image, p: Node, elm: Node?, s: Side, w: Node, c: Node, n: Node)
    requires Lacking(g, p, elm, s, w) && !g.cells[w].red && (n == p || n == w) && c != p && c != w
    requires Child(g.cells[w], Opp(s)) == c && IsRed(g, c) && g.cells[c].parent == w
    requires CanRotate(FarPaint(g, p, w, c), p, s) && Shape(FarPaint(g, p, w, c))
    ensures BhOk(Rotated(FarPaint(g, p, w, c), p, s), n)
  {
    assert Ok(g, p) && Ok(g, w) && BhOk(g, w) && BhOk(g, c);
    if elm != null { OneParent(g, p, elm); assert BhOk(g, elm); }
    var b := Child(g.cells[w], s);
    if b != null { OneParent(g, w, b); }
    RotatedBhTurns(FarPaint(g, p, w, c), p, s, w);
  }

  lemma FarBh(g: Image, p: Node, elm: Node?, s: Side, w: Node, c: Node, n: Node)
    requires Lacking(g, p, elm, s, w) && !g.cells[w].red && n in g.cells && c != p && c != w
    requires Child(g.cells[w], Opp(s)) == c && IsRed(g, c) && g.cells[c].parent == w
    requires CanRotate(FarPaint(g, p, w, c), p, s) && Shape(FarPaint(g, p, w, c))
    ensures BhOk(Rotated(FarPaint(g, p, w, c), p, s), n)
  {
    if n != p && n != w {
      assert BhOk(g, n) && Ok(g, n);
      FarBhBefore(g, p, w, c, n);
      RotatedBhRest(FarPaint(g, p, w, c), p, s, w, n);
    } else {
      FarBhTurns(g, p, elm, s, w, c, n);
    }
  }

  lemma FarBhBefore(g: Image, p: Node, w: Node, c: Node, n: Node)
    requires Shape(g) && p in g.cells && w in g.cells && c in g.cells && n in g.cells
    requires g.cells[c].parent == w && g.cells[c].red && BhOk(g, n) && n != p && n != w && c != p && c != w && p != w
    ensures BhOk(FarPaint(g, p, w, c), n)
  {
    assert Ok(g, n);
    if g.cells[n].left != null { OneParent(g, n, g.cells[n].left); }
    if g.cells[n].right != null { OneParent(g, n, g.cells[n].right); }
  }

  lemma FarRed(g: Image, p: Node, elm: Node?, s: Side, w: Node, c: Node, n: Node)
    requires Lacking(g, p, elm, s, w) && !g.cells[w].red && n in g.cells && c != p && c != w
    requires Child(g.cells[w], Opp(s)) == c && IsRed(g, c) && g.cells[c].parent == w
    requires CanRotate(FarPaint(g, p, w, c), p, s) && Shape(FarPaint(g, p, w, c))
    ensures RedOk(Rotated(FarPaint(g, p, w, c), p, s), n)
  {
    assert RedOk(g, n) && Ok(g, n) && Ok(g, p) && Ok(g, w) && RedOk(g, p);
    if n != p && n != w {
      var g2 := FarPaint(g, p, w, c);
      assert n != Child(g2.cells[w], s) ==> RedOk(g2, n);
      RotatedRed(g2, p, s, w, n);
    }
  }

  /** When the loop ends, painting `elm` black completes the removal. */
  lemma SunkValid(g: Image, p: Node?, elm: Node)
    requires Sinking(g, p, elm) && (g.cells[elm].red || elm == g.root)
    ensures Valid(Painted(g, elm, false, g.cells[elm].bh + 1 - Weight(g.cells[elm])))
  {
    var bh := g.cells[elm].bh + 1 - Weight(g.cells[elm]);
    PaintedShape(g, elm, false, bh);
    var g' := Painted(g, elm, false, bh);
    assert Ok(g, elm);
    if p != null { OneParent(g, p, elm); }
    forall n {:trigger BhOk(g', n)} | n in g'.cells ensures BhOk(g', n) {
      SunkBh(g, p, elm, n);
    }
    forall n {:trigger RedOk(g', n)} | n in g'.cells ensures RedOk(g', n) {
      if !Excused(g, elm, n) { assert RedOk(g, n); }
    }
  }

  lemma SunkBh(g: Image, p: Node?, elm: Node, n: Node)
    requires Sinking(g, p, elm) && n in g.cells && (g.cells[elm].red || p == null) && elm != p
    ensures BhOk(Painted(g, elm, false, g.cells[elm].bh + 1 - Weight(g.cells[elm])), n)
  {
    assert BhOk(g, elm) && Ok(g, n);
    if n != p { assert BhOk(g, n); }
    if g.cells[n].left != null { OneParent(g, n, g.cells[n].left); }
    if g.cells[n].right != null { OneParent(g, n, g.cells[n].right); }
  }

  lemma SunkEmptyValid(g: Image, p: Node?)
    requires Sinking(g, p, null) && g.root == null
    ensures Valid(g)
  {
  }
}
