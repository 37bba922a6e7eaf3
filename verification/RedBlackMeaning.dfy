/** What a valid image means: read as a tree value it is a red-black search tree in the textbook
    sense, over exactly the nodes of the image, and its depth is logarithmic in their number. */
module RedBlackMeaning {
  import opened Common

  import opened RedBlackImage

  datatype Tree = Leaf | Branch(left: Tree, node: Node, red: bool, right: Tree)

  ghost function Inorder(t: Tree): seq<Node> {
    if t.Leaf? then [] else Inorder(t.left) + [t.node] + Inorder(t.right)
  }

  /** The numbers of black nodes on the paths from the top of `t` down to a leaf. */
  ghost function BlackCounts(t: Tree): set<nat> {
    if t.Leaf? then {0}
    else set k | k in BlackCounts(t.left) + BlackCounts(t.right) :: k + (if t.red then 0 else 1)
  }

  ghost predicate Black(t: Tree) { t.Branch? ==> !t.red }

  ghost predicate NoRedBelowRed(t: Tree) {
    t.Branch? ==>
      && (t.red ==> Black(t.left) && Black(t.right))
      && NoRedBelowRed(t.left) && NoRedBelowRed(t.right)
  }

  ghost predicate RedBlack(t: Tree) {
    && Black(t)
    && NoRedBelowRed(t)
    && (exists h :: BlackCounts(t) == {h})
    && Sorted(Inorder(t))
  }

  ghost function Depth(t: Tree): nat {
    if t.Leaf? then 0 else 1 + if Depth(t.left) < Depth(t.right) then Depth(t.right) else Depth(t.left)
  }

  /** The tree below `n`. */
  ghost function TreeAt(g: Image, n: Node?): Tree
    requires Shape(g) && (n == null || n in g.cells)
    decreases if n == null then 0 else g.cells[n].hi - g.cells[n].lo
  {
    if n == null then Leaf else
      Smaller(g, n);
      Branch(TreeAt(g, g.cells[n].left), n, g.cells[n].red, TreeAt(g, g.cells[n].right))
  }

  lemma Smaller(g: Image, n: Node)
    requires Shape(g) && n in g.cells
    ensures Ok(g, n)
    ensures forall m :: m == g.cells[n].left || m == g.cells[n].right ==>
              m == null || (m in g.cells && 0 <= g.cells[m].hi - g.cells[m].lo < g.cells[n].hi - g.cells[n].lo)
    ensures 0 < g.cells[n].hi - g.cells[n].lo
  {
    assert Ok(g, n);
    if g.cells[n].left != null { assert Ok(g, g.cells[n].left); }
    if g.cells[n].right != null { assert Ok(g, g.cells[n].right); }
  }

  lemma {:induction false} InorderIsSlice(g: Image, n: Node)
    requires Shape(g) && n in g.cells
    ensures Ok(g, n) && Inorder(TreeAt(g, n)) == g.order[g.cells[n].lo..g.cells[n].hi]
    decreases g.cells[n].hi - g.cells[n].lo
  {
    Smaller(g, n);
    var c := g.cells[n];
    assert Inorder(TreeAt(g, c.left)) == g.order[c.lo..c.idx] by {
      if c.left != null { InorderIsSlice(g, c.left); }
    }
    assert Inorder(TreeAt(g, c.right)) == g.order[c.idx + 1..c.hi] by {
      if c.right != null { InorderIsSlice(g, c.right); }
    }
    SliceSplits(g.order, c.lo, c.idx, c.hi);
  }

  lemma SliceSplits(s: seq<Node>, lo: int, i: int, hi: int)
    requires 0 <= lo <= i < hi <= |s|
    ensures s[lo..i] + [s[i]] + s[i + 1..hi] == s[lo..hi]
  {
  }

  lemma {:induction false} CountsAreHeight(g: Image, n: Node?)
    requires Shape(g) && BhAll(g) && (n == null || n in g.cells)
    ensures Height(g, n) >= 0 && BlackCounts(TreeAt(g, n)) == {Height(g, n)}
    decreases if n == null then 0 else g.cells[n].hi - g.cells[n].lo
  {
    if n != null {
      Smaller(g, n);
      CountsAreHeight(g, g.cells[n].left);
      CountsAreHeight(g, g.cells[n].right);
      assert BhOk(g, n);
    }
  }

  lemma {:induction false} RedsApart(g: Image, n: Node?)
    requires Valid(g) && (n == null || n in g.cells)
    ensures NoRedBelowRed(TreeAt(g, n))
    decreases if n == null then 0 else g.cells[n].hi - g.cells[n].lo
  {
    if n != null {
      Smaller(g, n);
      RedsApart(g, g.cells[n].left);
      RedsApart(g, g.cells[n].right);
      if g.cells[n].left != null { assert RedOk(g, g.cells[n].left); }
      if g.cells[n].right != null { assert RedOk(g, g.cells[n].right); }
    }
  }

  /** A valid image is a red-black search tree over all its nodes. */
  lemma ValidIsRedBlack(g: Image)
    requires Valid(g)
    ensures RedBlack(TreeAt(g, g.root))
    ensures Inorder(TreeAt(g, g.root)) == g.order
    ensures forall n :: n in g.cells <==> n in g.order
  {
    CountsAreHeight(g, g.root);
    RedsApart(g, g.root);
    if g.root != null { InorderIsSlice(g, g.root); }
    forall n | n in g.cells ensures n in g.order { assert Ok(g, n); }
  }

  lemma {:induction false} DepthBound(t: Tree, h: nat)
    requires NoRedBelowRed(t) && BlackCounts(t) == {h}
    ensures Depth(t) <= 2 * h + (if Black(t) then 0 else 1)
    ensures Pow2(h) <= |Inorder(t)| + 1
  {
    if t.Branch? {
      var k := h - (if t.red then 0 else 1);
      BelowCounts(t, h);
      DepthBound(t.left, k);
      DepthBound(t.right, k);
    }
  }

  lemma BelowCounts(t: Tree, h: nat)
    requires t.Branch? && BlackCounts(t) == {h}
    ensures var k := h - (if t.red then 0 else 1);
      k >= 0 && BlackCounts(t.left) == {k} && BlackCounts(t.right) == {k}
  {
    var w := if t.red then 0 else 1;
    CountsNonempty(t.left);
    CountsNonempty(t.right);
    forall k | k in BlackCounts(t.left) + BlackCounts(t.right) ensures k == h - w {
      assert k + w in BlackCounts(t);
    }
  }

  lemma {:induction false} CountsNonempty(t: Tree)
    ensures BlackCounts(t) != {}
  {
    if t.Leaf? { assert 0 in BlackCounts(t); } else {
      CountsNonempty(t.left);
      var k :| k in BlackCounts(t.left);
      assert k + (if t.red then 0 else 1) in BlackCounts(t);
    }
  }

  lemma {:induction false} Pow2Adds(a: nat, b: nat)
    ensures Pow2(a + b) == Pow2(a) * Pow2(b)
  {
    if a > 0 { Pow2Adds(a - 1, b); }
  }

  lemma {:induction false} Pow2Grows(a: nat, b: nat)
    requires a <= b
    ensures Pow2(a) <= Pow2(b)
  {
    if a < b { Pow2Grows(a, b - 1); }
  }

  /** Every descent in a tree of n nodes ends after at most 2 log2(n + 1) steps. */
  lemma DepthIsLogarithmic(g: Image)
    requires Valid(g)
    ensures Pow2(Depth(TreeAt(g, g.root))) <= (|g.order| + 1) * (|g.order| + 1)
  {
    ValidIsRedBlack(g);
    var t := TreeAt(g, g.root);
    var h :| BlackCounts(t) == {h};
    DepthBound(t, h);
    Pow2Grows(Depth(t), h + h);
    Pow2Adds(h, h);
    Squares(Pow2(h), |g.order| + 1);
  }

  lemma Squares(a: nat, b: nat)
    requires a <= b
    ensures a * a <= b * b
  {
    assert a * a <= a * b <= b * b;
  }
}
