/** The red-black macros of third/libuv/include/tree.h on linked nodes.  The ghost image `g`
    mirrors the links; every method states how the image changes. */
module RedBlackTree {
  import opened RedBlackImage

  import opened RedBlackRemoval

  ghost predicate Holds(n: Node, c: Cell)
    reads n
  {
    n.left == c.left && n.right == c.right && n.parent == c.parent && n.red == c.red
  }

  ghost predicate SameLinks(c: Cell, d: Cell) {
    c.left == d.left && c.right == d.right && c.parent == d.parent && c.red == d.red
  }

  /** Two images of the same links that may differ in slices, positions and black heights. */
  ghost predicate SameTree(a: Image, b: Image) {
    && a.root == b.root && a.cells.Keys == b.cells.Keys
    && forall n :: n in a.cells ==> SameLinks(a.cells[n], b.cells[n])
  }

  ghost function PutLeft(g: Image, n: Node, m: Node?): Image
    requires n in g.cells
  { g.(cells := g.cells[n := g.cells[n].(left := m)]) }

  ghost function PutRight(g: Image, n: Node, m: Node?): Image
    requires n in g.cells
  { g.(cells := g.cells[n := g.cells[n].(right := m)]) }

  ghost function PutParent(g: Image, n: Node, m: Node?): Image
    requires n in g.cells
  { g.(cells := g.cells[n := g.cells[n].(parent := m)]) }

  class Tree {
    var root: Node?
    ghost var g: Image

    ghost predicate Tied()
      reads this, g.cells.Keys
    {
      && root == g.root
      && (forall n :: n in g.cells ==> Holds(n, g.cells[n]))
    }

    constructor ()
      ensures Tied() && Valid(g) && g.order == [] && g.cells == map[]
    {
      root, g := null, Image(null, [], map[]);
    }

    method SetLeft(n: Node, m: Node?)
      requires Tied() && n in g.cells
      modifies this`g, n`left
      ensures Tied() && g == PutLeft(old(g), n, m)
    {
      n.left := m;
      g := PutLeft(g, n, m);
    }

    method SetRight(n: Node, m: Node?)
      requires Tied() && n in g.cells
      modifies this`g, n`right
      ensures Tied() && g == PutRight(old(g), n, m)
    {
      n.right := m;
      g := PutRight(g, n, m);
    }

    method SetParent(n: Node, m: Node?)
      requires Tied() && n in g.cells
      modifies this`g, n`parent
      ensures Tied() && g == PutParent(old(g), n, m)
    {
      n.parent := m;
      g := PutParent(g, n, m);
    }

    method SetRoot(m: Node?)
      requires Tied()
      modifies this
      ensures Tied() && g == old(g).(root := m)
    {
      root := m;
      g := g.(root := m);
    }

    /** Sets a colour; the ghost black height follows along. */
    method Paint(n: Node, red: bool, ghost bh: int)
      requires Tied() && n in g.cells
      modifies this`g, n`red
      ensures Tied() && g == Painted(old(g), n, red, bh) && g.cells.Keys == old(g.cells.Keys)
    {
      n.red := red;
      g := Painted(g, n, red, bh);
    }

    /** Puts `tmp` where `elm` hangs from its parent. */
    method Hang(elm: Node, tmp: Node?)
      requires Tied() && elm in g.cells
      requires g.cells[elm].parent != null ==> g.cells[elm].parent in g.cells
      modifies this, g.cells.Keys
      ensures Tied() && g == Hung(old(g), elm, tmp)
    {
      if elm.parent != null {
        if elm == elm.parent.left { SetLeft(elm.parent, tmp); } else { SetRight(elm.parent, tmp); }
      } else {
        SetRoot(tmp);
      }
    }

    /** `tmp` takes over the place of `elm` under its parent. */
    method TakePlace(elm: Node, tmp: Node)
      requires Tied() && elm in g.cells && tmp in g.cells && tmp != elm
      requires g.cells[elm].parent != null ==> g.cells[elm].parent in g.cells
      modifies this, g.cells.Keys
      ensures Tied() && g == Hung(PutParent(old(g), tmp, old(g).cells[elm].parent), elm, tmp)
      ensures g.cells.Keys == old(g.cells.Keys)
    {
      SetParent(tmp, elm.parent);
      Hang(elm, tmp);
    }

    /** Changes the ghost bookkeeping only. */
    ghost method Recast(h: Image)
      requires Tied() && SameTree(g, h)
      modifies this`g
      ensures Tied() && g == h
    {
      g := h;
    }

    /** RB_ROTATE_LEFT */
    method RotateLeft(elm: Node)
      requires Tied() && Shape(g) && CanRotate(g, elm, Left)
      modifies this, g.cells.Keys
      ensures Tied() && g == Rotated(old(g), elm, Left) && g.cells.Keys == old(g.cells.Keys)
    {
      ghost var h := g;
      NeighboursKnown(h, elm, h.cells[elm].right);
      var tmp: Node := elm.right;
      assert Holds(tmp, h.cells[tmp]);
      SetRight(elm, tmp.left);
      if tmp.left != null { SetParent(tmp.left, elm); }
      assert g == Handed(h, elm, Left, tmp);
      TakePlace(elm, tmp);
      SetLeft(tmp, elm);
      SetParent(elm, tmp);
      assert g == Lifted(Handed(h, elm, Left, tmp), elm, Left, tmp);
      TurnedSteps(h, elm, Left, tmp);
      assert SameTree(g, Rotated(h, elm, Left));
      Recast(Rotated(h, elm, Left));
    }

    /** RB_ROTATE_RIGHT */
    method RotateRight(elm: Node)
      requires Tied() && Shape(g) && CanRotate(g, elm, Right)
      modifies this, g.cells.Keys
      ensures Tied() && g == Rotated(old(g), elm, Right) && g.cells.Keys == old(g.cells.Keys)
    {
      ghost var h := g;
      NeighboursKnown(h, elm, h.cells[elm].left);
      var tmp: Node := elm.left;
      assert Holds(tmp, h.cells[tmp]);
      SetLeft(elm, tmp.right);
      if tmp.right != null { SetParent(tmp.right, elm); }
      assert g == Handed(h, elm, Right, tmp);
      TakePlace(elm, tmp);
      SetRight(tmp, elm);
      SetParent(elm, tmp);
      assert g == Lifted(Handed(h, elm, Right, tmp), elm, Right, tmp);
      TurnedSteps(h, elm, Right, tmp);
      assert SameTree(g, Rotated(h, elm, Right));
      Recast(Rotated(h, elm, Right));
    }

    // ----- insertion

    /** RB_SET_BLACKRED */
    method SetBlackRed(black: Node, red: Node)
      requires Tied() && Shape(g) && black in g.cells && red in g.cells
      modifies this`g, black`red, red`red
      ensures Tied() && g == BlackRed(old(g), black, red) && Same(g, old(g)) && Shape(g)
    {
      PaintedShape(g, black, false, g.cells[black].bh);
      Paint(black, false, g.cells[black].bh);
      PaintedShape(g, red, true, g.cells[red].bh);
      Paint(red, true, g.cells[red].bh);
    }

    /** Parent and uncle black, grandparent red. */
    method Flip(parent: Node, gparent: Node, tmp: Node)
      requires Tied() && parent in g.cells && gparent in g.cells && tmp in g.cells && parent != tmp
      requires gparent != parent && gparent != tmp
      modifies this`g, parent`red, gparent`red, tmp`red
      ensures Tied() && g == Flipped(old(g), parent, gparent, tmp) && Same(g, old(g))
    {
      ghost var h := g;
      Paint(tmp, false, h.cells[tmp].bh + 1);
      Paint(parent, false, h.cells[parent].bh + 1);
      Paint(gparent, true, h.cells[gparent].bh);
    }

    /** One round of RB_INSERT_COLOR below a left-hand parent. */
    method RiseLeft(e: Node, p: Node, gparent: Node) returns (elm: Node)
      requires Tied() && RedPair(g, e, Left, p, gparent)
      modifies this, g.cells.Keys
      ensures Tied() && Rising(g, elm) && Same(g, old(g))
      ensures !IsRed(g, g.cells[elm].parent) || Wider(g, elm, old(g), e)
    {
      elm := e;
      var parent := p;
      Relatives(g, elm, Left, parent, gparent);
      var tmp := gparent.right;
      if tmp != null && tmp.red {
        FlippedRises(g, elm, Left, parent, gparent, tmp);
        Flip(parent, gparent, tmp);
        elm := gparent;
        return;
      }
      if parent.right == elm {
        InnerTurned(g, elm, Left, parent, gparent);
        RotateLeft(parent);
        tmp := parent;
        parent := elm;
        elm := tmp;
      }
      OuterTurned(g, elm, Left, parent, gparent);
      SetBlackRed(parent, gparent);
      RotateRight(gparent);
    }

    /** One round of RB_INSERT_COLOR below a right-hand parent. */
    method RiseRight(e: Node, p: Node, gparent: Node) returns (elm: Node)
      requires Tied() && RedPair(g, e, Right, p, gparent)
      modifies this, g.cells.Keys
      ensures Tied() && Rising(g, elm) && Same(g, old(g))
      ensures !IsRed(g, g.cells[elm].parent) || Wider(g, elm, old(g), e)
    {
      elm := e;
      var parent := p;
      Relatives(g, elm, Right, parent, gparent);
      var tmp := gparent.left;
      if tmp != null && tmp.red {
        FlippedRises(g, elm, Right, parent, gparent, tmp);
        Flip(parent, gparent, tmp);
        elm := gparent;
        return;
      }
      if parent.left == elm {
        InnerTurned(g, elm, Right, parent, gparent);
        RotateRight(parent);
        tmp := parent;
        parent := elm;
        elm := tmp;
      }
      OuterTurned(g, elm, Right, parent, gparent);
      SetBlackRed(parent, gparent);
      RotateLeft(gparent);
    }

    method BlackenRoot(ghost elm: Node)
      requires Tied() && root != null && Rising(g, elm) && !IsRed(g, g.cells[elm].parent)
      modifies this, root
      ensures Tied() && Valid(g) && Same(g, old(g))
    {
      RisenValid(g, elm, root);
      Paint(root, false, g.cells[root].bh + 1 - Weight(g.cells[root]));
    }

    /** RB_INSERT_COLOR */
    method InsertColor(e: Node)
      requires Tied() && Rising(g, e)
      modifies this, g.cells.Keys
      ensures Tied() && Valid(g) && Same(g, old(g))
    {
      var elm := e;
      while elm.parent != null && elm.parent.red
        invariant Tied() && Rising(g, elm)
        invariant Same(g, old(g))
        decreases if IsRed(g, g.cells[elm].parent) then 1 + |g.order| - Width(g, elm) else 0
      {
        var parent: Node := elm.parent;
        RisingLinks(g, elm);
        RedParentHasParent(g, elm, parent);
        var gparent: Node := parent.parent;
        if parent == gparent.left {
          elm := RiseLeft(elm, parent, gparent);
        } else {
          elm := RiseRight(elm, parent, gparent);
        }
        RisingLinks(g, elm);
      }
      RisingLinks(g, elm);
      BlackenRoot(elm);
    }

    /** Links a new red leaf below `parent`. */
    method Attach(elm: Node, parent: Node?, comp: int)
      requires Tied() && CanAttach(g, elm, parent, SideOf(comp))
      modifies this, g.cells.Keys, elm
      ensures Tied() && g == Attached(old(g), elm, parent, SideOf(comp))
    {
      ghost var h := g;
      elm.parent := parent;
      elm.left, elm.right := null, null;
      elm.red := true;
      if parent != null {
        if comp < 0 { SetLeft(parent, elm); } else { SetRight(parent, elm); }
      } else {
        SetRoot(elm);
      }
      ghost var h' := g;
      g := Attached(h, elm, parent, SideOf(comp));
      forall n | n in g.cells && n != elm ensures Holds(n, g.cells[n]) {
        assert n in h'.cells && Holds(n, h'.cells[n]);
        AttachedLinks(h, elm, parent, SideOf(comp), n);
      }
    }

    /** RB_INSERT: returns the node that already has the key, or links `elm` and returns null. */
    method Insert(elm: Node) returns (r: Node?)
      requires Tied() && Valid(g)
      modifies this, g.cells.Keys, elm
      ensures Tied() && Valid(g)
      ensures r != null ==> r in g.cells && r.key == elm.key && g == old(g)
      ensures r == null ==> Added(old(g), g, elm)
    {
      var tmp, parent, comp := root, null, 0;
      ghost var h, lo, hi := g, 0, |g.order|;
      RootSpan(h);
      while tmp != null
        invariant Tied() && g == h && Seek(h, elm.key, tmp, parent, comp, lo, hi)
        decreases hi - lo
      {
        parent := tmp;
        SeekDown(h, elm.key, tmp, lo, hi);
        comp := Compare(elm.key, parent.key);
        if comp < 0 {
          hi := h.cells[tmp].idx;
          tmp := tmp.left;
        } else if comp > 0 {
          lo := h.cells[tmp].idx + 1;
          tmp := tmp.right;
        } else {
          return tmp;
        }
      }
      SeekEnd(h, elm, parent, comp, lo, hi);
      AttachedRises(h, elm, parent, SideOf(comp));
      Attach(elm, parent, comp);
      InsertColor(elm);
      AttachedAdds(h, g, elm, parent, SideOf(comp));
      return null;
    }

    // ----- removal

    method PaintFar(parent: Node, tmp: Node, far: Node)
      requires Tied() && parent in g.cells && tmp in g.cells && far in g.cells
      requires parent != tmp && far != parent && far != tmp
      modifies this`g, parent`red, tmp`red, far`red
      ensures Tied() && g == FarPaint(old(g), parent, tmp, far) && Same(g, old(g))
    {
      Paint(tmp, parent.red, g.cells[tmp].bh);
      Paint(parent, false, g.cells[parent].bh);
      Paint(far, false, g.cells[far].bh + 1);
    }

    /** The sibling turns red; the shortage moves up to `p`. */
    method LowerSibling(ghost p: Node, tmp: Node)
      requires Tied() && p in g.cells && tmp in g.cells && p != tmp
      modifies this`g, tmp`red
      ensures Tied() && g == Lowered(old(g), p, tmp)
    {
      ghost var h := g;
      Paint(tmp, true, h.cells[tmp].bh - 1);
      Recast(Lowered(h, p, tmp));
    }

    /** A red near nephew moves above the sibling. */
    method LiftNearLeft(elm: Node?, parent: Node, w: Node) returns (tmp: Node)
      requires Tied() && Lacking(g, parent, elm, Left, w) && !g.cells[w].red
      requires IsRed(g, g.cells[w].left) && !IsRed(g, g.cells[w].right)
      modifies this, g.cells.Keys
      ensures Tied() && Same(g, old(g))
      ensures Lacking(g, parent, elm, Left, tmp) && !g.cells[tmp].red && IsRed(g, g.cells[tmp].right)
    {
      var near: Node := w.left;
      NearLifted(g, parent, elm, Left, w, near);
      SetBlackRed(near, w);
      RotateRight(w);
      tmp := parent.right;
    }

    /** A red far nephew makes up for the missing black node. */
    method LiftFarLeft(ghost elm: Node?, parent: Node, tmp: Node)
      requires Tied() && Lacking(g, parent, elm, Left, tmp) && !g.cells[tmp].red && IsRed(g, g.cells[tmp].right)
      modifies this, g.cells.Keys
      ensures Tied() && Valid(g) && Same(g, old(g))
    {
      FarLifted(g, parent, elm, Left, tmp, tmp.right);
      PaintFar(parent, tmp, tmp.right);
      RotateLeft(parent);
    }

    /** A red sibling moves above the parent; its inner child becomes the sibling. */
    method LiftSiblingLeft(ghost elm: Node?, p: Node, w: Node) returns (tmp: Node)
      requires Tied() && Lacking(g, p, elm, Left, w) && g.cells[w].red
      modifies this, g.cells.Keys
      ensures Tied() && Same(g, old(g)) && Lacking(g, p, elm, Left, tmp) && !g.cells[tmp].red
      ensures g.cells[p].red && g.cells[p].parent == w && Width(g, w) == Width(old(g), p)
    {
      ghost var v := RedSiblingDone(g, p, elm, Left, w);
      SetBlackRed(w, p);
      RotateLeft(p);
      tmp := p.right;
    }

    /** One round of RB_REMOVE_COLOR for a left-hand `e`. */
    method SinkLeft(e: Node?, p: Node) returns (elm: Node?, parent: Node?, done: bool)
      requires Tied() && Sinking(g, p, e) && !IsRed(g, e) && ShortOn(g, p, e, Left)
      modifies this, g.cells.Keys
      ensures Tied() && Same(g, old(g))
      ensures done ==> Valid(g)
      ensures !done ==> Sinking(g, parent, elm) && Upward(g, parent, elm, old(g), p)
    {
      elm, parent := e, p;
      SiblingExists(g, p, elm, Left);
      var tmp: Node := p.right;
      if tmp.red {
        tmp := LiftSiblingLeft(elm, p, tmp);
      }
      NephewsKnown(g, p, elm, Left, tmp);
      if (tmp.left == null || !tmp.left.red) && (tmp.right == null || !tmp.right.red) {
        LoweredSinks(g, p, elm, Left, tmp);
        LoweredUp(g, p, tmp);
        LowerSibling(p, tmp);
        elm := p;
        parent := elm.parent;
        done := false;
      } else {
        if tmp.right == null || !tmp.right.red {
          tmp := LiftNearLeft(elm, p, tmp);
        }
        LiftFarLeft(elm, p, tmp);
        elm := root;
        done := true;
      }
    }

    /** A red near nephew moves above the sibling. */
    method LiftNearRight(elm: Node?, parent: Node, w: Node) returns (tmp: Node)
      requires Tied() && Lacking(g, parent, elm, Right, w) && !g.cells[w].red
      requires IsRed(g, g.cells[w].right) && !IsRed(g, g.cells[w].left)
      modifies this, g.cells.Keys
      ensures Tied() && Same(g, old(g))
      ensures Lacking(g, parent, elm, Right, tmp) && !g.cells[tmp].red && IsRed(g, g.cells[tmp].left)
    {
      var near: Node := w.right;
      NearLifted(g, parent, elm, Right, w, near);
      SetBlackRed(near, w);
      RotateLeft(w);
      tmp := parent.left;
    }

    /** A red far nephew makes up for the missing black node. */
    method LiftFarRight(ghost elm: Node?, parent: Node, tmp: Node)
      requires Tied() && Lacking(g, parent, elm, Right, tmp) && !g.cells[tmp].red && IsRed(g, g.cells[tmp].left)
      modifies this, g.cells.Keys
      ensures Tied() && Valid(g) && Same(g, old(g))
    {
      FarLifted(g, parent, elm, Right, tmp, tmp.left);
      PaintFar(parent, tmp, tmp.left);
      RotateRight(parent);
    }

    /** A red sibling moves above the parent; its inner child becomes the sibling. */
    method LiftSiblingRight(ghost elm: Node?, p: Node, w: Node) returns (tmp: Node)
      requires Tied() && Lacking(g, p, elm, Right, w) && g.cells[w].red
      modifies this, g.cells.Keys
      ensures Tied() && Same(g, old(g)) && Lacking(g, p, elm, Right, tmp) && !g.cells[tmp].red
      ensures g.cells[p].red && g.cells[p].parent == w && Width(g, w) == Width(old(g), p)
    {
      ghost var v := RedSiblingDone(g, p, elm, Right, w);
      SetBlackRed(w, p);
      RotateRight(p);
      tmp := p.left;
    }

    /** One round of RB_REMOVE_COLOR for a right-hand `e`. */
    method SinkRight(e: Node?, p: Node) returns (elm: Node?, parent: Node?, done: bool)
      requires Tied() && Sinking(g, p, e) && !IsRed(g, e) && ShortOn(g, p, e, Right)
      modifies this, g.cells.Keys
      ensures Tied() && Same(g, old(g))
      ensures done ==> Valid(g)
      ensures !done ==> Sinking(g, parent, elm) && Upward(g, parent, elm, old(g), p)
    {
      elm, parent := e, p;
      SiblingExists(g, p, elm, Right);
      var tmp: Node := p.left;
      if tmp.red {
        tmp := LiftSiblingRight(elm, p, tmp);
      }
      NephewsKnown(g, p, elm, Right, tmp);
      if (tmp.left == null || !tmp.left.red) && (tmp.right == null || !tmp.right.red) {
        LoweredSinks(g, p, elm, Right, tmp);
        LoweredUp(g, p, tmp);
        LowerSibling(p, tmp);
        elm := p;
        parent := elm.parent;
        done := false;
      } else {
        if tmp.left == null || !tmp.left.red {
          tmp := LiftNearRight(elm, p, tmp);
        }
        LiftFarRight(elm, p, tmp);
        elm := root;
        done := true;
      }
    }

    /** RB_REMOVE_COLOR */
    method RemoveColor(p: Node?, e: Node?)
      requires Tied() && Sinking(g, p, e)
      modifies this, g.cells.Keys
      ensures Tied() && Valid(g) && Same(g, old(g))
    {
      var parent, elm := p, e;
      var done := false;
      while !done && (elm == null || !elm.red) && elm != root
        invariant Tied() && Same(g, old(g))
        invariant if done then Valid(g) else Sinking(g, parent, elm)
        decreases !done, if parent == null || done then 0 else 1 + |g.order| - WidthAt(g, parent), !IsRed(g, elm)
      {
        SinkingLinks(g, parent, elm);
        if parent.left == elm {
          elm, parent, done := SinkLeft(elm, parent);
        } else {
          elm, parent, done := SinkRight(elm, parent);
        }
      }
      if !done {
        Blacken(parent, elm);
      }
    }

    /** The final colour assignment of RB_REMOVE_COLOR. */
    method Blacken(ghost p: Node?, elm: Node?)
      requires Tied() && Sinking(g, p, elm) && (IsRed(g, elm) || elm == g.root)
      modifies this`g, (if elm == null then {} else {elm})`red
      ensures Tied() && Valid(g) && Same(g, old(g))
    {
      if elm != null {
        SunkValid(g, p, elm);
        Paint(elm, false, g.cells[elm].bh + 1 - Weight(g.cells[elm]));
      } else {
        SunkEmptyValid(g, p);
      }
    }

    /** Unlinks a node with at most one child. */
    method Splice(elm: Node, child: Node?)
      requires Tied() && Shape(g) && CanSplice(g, elm, child)
      modifies this, g.cells.Keys
      ensures Tied() && g == Spliced(old(g), elm, child)
      ensures elm.parent == old(g).cells[elm].parent && elm.red == old(g).cells[elm].red
    {
      ghost var h := g;
      SpliceKnown(h, elm, child);
      if child != null { SetParent(child, elm.parent); }
      Hang(elm, child);
      ghost var h' := g;
      assert Holds(elm, h'.cells[elm]) && h'.cells[elm] == h.cells[elm];
      g := Spliced(h, elm, child);
      forall n | n in g.cells ensures Holds(n, g.cells[n]) {
        assert n in h'.cells && Holds(n, h'.cells[n]);
        SplicedLinks(h, elm, child, n);
      }
    }

    /** The neighbours of `z` now point to `elm`. */
    method Redirect(z: Node, elm: Node)
      requires Tied() && Shape(g) && z in g.cells && g.cells[z].left != null
      modifies this, g.cells.Keys
      ensures Tied() && g == Redirected(old(g), z, elm) && g.cells.Keys == old(g.cells.Keys)
    {
      ReplaceKnown(g, z);
      assert Holds(z, g.cells[z]);
      Hang(z, elm);
      assert Holds(z, g.cells[z]);
      SetParent(z.left, elm);
      if z.right != null { SetParent(z.right, elm); }
    }

    /** Copies the tree fields of `z`. */
    method Copy(elm: Node, z: Node, ghost c: Cell)
      requires Holds(z, c) && elm != z
      modifies elm
      ensures Holds(elm, c)
    {
      elm.left, elm.right, elm.parent, elm.red := z.left, z.right, z.parent, z.red;
    }

    /** `elm` takes over links and colour of `z`. */
    method Substitute(z: Node, elm: Node)
      requires Tied() && Shape(g) && CanReplace(g, z, elm) && g.cells[z].left != null
      modifies this, g.cells.Keys, elm
      ensures Tied() && g == Replaced(old(g), z, elm)
    {
      ghost var h := g;
      Copy(elm, z, h.cells[z]);
      Redirect(z, elm);
      assert Holds(elm, h.cells[z]);
      ReplacedSame(h, z, elm);
      Rename(Replaced(h, z, elm), elm);
    }

    /** Changes the ghost bookkeeping when one node replaces another. */
    ghost method Rename(h: Image, elm: Node)
      requires Tied() && g.root == h.root && elm in h.cells && Holds(elm, h.cells[elm])
      requires forall n :: n in h.cells && n != elm ==> n in g.cells && SameLinks(g.cells[n], h.cells[n])
      modifies this`g
      ensures Tied() && g == h
    {
      g := h;
    }

    /** RB_REMOVE of a node with at most one child. */
    method RemoveOuter(elm: Node, child: Node?)
      requires Tied() && Valid(g) && CanSplice(g, elm, child)
      modifies this, g.cells.Keys
      ensures Tied() && Valid(g) && Same(g, Spliced(old(g), elm, child))
    {
      ghost var h := g;
      SpliceKnown(h, elm, child);
      assert Holds(elm, h.cells[elm]);
      var parent, red := elm.parent, elm.red;
      Splice(elm, child);
      if !red {
        SplicedSinks(h, elm, child);
        RemoveColor(parent, child);
      } else {
        SplicedRedValid(h, elm, child);
      }
    }

    /** RB_REMOVE of a node with two children: its successor takes its place. */
    method RemoveInner(z: Node, elm: Node, child: Node?)
      requires Tied() && Valid(g) && z in g.cells && g.cells[z].left != null && CanSplice(g, elm, child)
      requires g.cells[elm].idx == g.cells[z].idx + 1 && g.cells[elm].left == null
      modifies this, g.cells.Keys
      ensures Tied() && Valid(g) && Without(old(g), g, z)
    {
      ghost var h := g;
      SpliceKnown(h, elm, child);
      SuccessorFits(h, z, elm, child);
      assert Holds(elm, h.cells[elm]);
      var parent, red := elm.parent, elm.red;
      Splice(elm, child);
      if parent == z { parent := elm; }
      ghost var h1 := g;
      if red { SplicedRedValid(h, elm, child); } else { SplicedSinks(h, elm, child); }
      Substitute(z, elm);
      if !red {
        ReplacedSinks(h1, h.cells[elm].parent, child, z, elm);
        RemoveColor(parent, child);
      } else {
        ReplacedValid(h1, z, elm);
      }
    }

    /** RB_REMOVE */
    method Remove(z: Node) returns (r: Node)
      requires Tied() && Valid(g) && z in g.cells
      modifies this, g.cells.Keys
      ensures r == z
      ensures Tied() && Valid(g) && Without(old(g), g, z)
    {
      r := z;
      ghost var h := g;
      assert Ok(h, z) && Holds(z, h.cells[z]);
      if z.left == null {
        SplicedWithout(h, z, z.right);
        RemoveOuter(z, z.right);
      } else if z.right == null {
        SplicedWithout(h, z, z.left);
        RemoveOuter(z, z.left);
      } else {
        var elm: Node := z.right;
        var left := elm.left;
        while left != null
          invariant Tied() && g == h && elm in h.cells && left == elm.left
          invariant h.cells[elm].lo == h.cells[z].idx + 1
          decreases h.cells[elm].idx
        {
          assert Ok(h, elm);
          elm := left;
          left := elm.left;
          assert Ok(h, elm);
        }
        assert Ok(h, elm);
        RemoveInner(z, elm, elm.right);
      }
    }

    // ----- searching

    /** RB_FIND */
    method Find(elm: Node) returns (r: Node?)
      requires Tied() && Valid(g)
      ensures r != null ==> r in g.cells && r.key == elm.key
      ensures r == null ==> forall n :: n in g.cells ==> n.key != elm.key
    {
      r := root;
      ghost var lo, hi := 0, |g.order|;
      RootSpan(g);
      while r != null
        invariant Outside(g, elm.key, lo, hi)
        invariant r == null ==> lo == hi
        invariant r != null ==> r in g.cells && g.cells[r].lo == lo && g.cells[r].hi == hi
        decreases hi - lo
      {
        SeekDown(g, elm.key, r, lo, hi);
        var comp := Compare(elm.key, r.key);
        if comp < 0 {
          hi := g.cells[r].idx;
          r := r.left;
        } else if comp > 0 {
          lo := g.cells[r].idx + 1;
          r := r.right;
        } else {
          return;
        }
      }
      forall n | n in g.cells ensures n.key != elm.key { assert Ok(g, n); }
    }

    /** RB_NFIND: the first node whose key is not below that of `elm`. */
    method FindNext(elm: Node) returns (r: Node?)
      requires Tied() && Valid(g)
      ensures r != null ==> r in g.cells && r.key >= elm.key
      ensures forall n :: n in g.cells && n.key >= elm.key ==> r != null && r.key <= n.key
    {
      var tmp := root;
      r := null;
      ghost var lo, hi := 0, |g.order|;
      RootSpan(g);
      while tmp != null
        invariant Outside(g, elm.key, lo, hi)
        invariant tmp == null ==> lo == hi
        invariant tmp != null ==> tmp in g.cells && g.cells[tmp].lo == lo && g.cells[tmp].hi == hi
        invariant r == if hi < |g.order| then g.order[hi] else null
        decreases hi - lo
      {
        SeekDown(g, elm.key, tmp, lo, hi);
        var comp := Compare(elm.key, tmp.key);
        if comp < 0 {
          r := tmp;
          hi := g.cells[tmp].idx;
          tmp := tmp.left;
        } else if comp > 0 {
          lo := g.cells[tmp].idx + 1;
          tmp := tmp.right;
        } else {
          r := tmp;
          lo := g.cells[tmp].idx;
          hi := lo;
          break;
        }
      }
      forall n | n in g.cells && n.key >= elm.key ensures r != null && r.key <= n.key { assert Ok(g, n); }
    }

    /** RB_NEXT: the node that follows `e` in key order. */
    method Next(e: Node) returns (r: Node?)
      requires Tied() && Valid(g) && e in g.cells
      ensures var i := g.cells[e].idx + 1;
        0 < i <= |g.order| && r == if i < |g.order| then g.order[i] else null
    {
      assert Ok(g, e);
      if e.right != null {
        r := e.right;
        while r.left != null
          invariant r != null && r in g.cells && g.cells[r].lo == g.cells[e].idx + 1
          decreases if r == null then 0 else g.cells[r].idx
        {
          assert Ok(g, r) && Ok(g, r.left);
          r := r.left;
        }
        assert Ok(g, r);
      } else {
        var elm := e;
        while elm.parent != null && elm == elm.parent.right
          invariant elm in g.cells && g.cells[elm].hi == g.cells[e].idx + 1
          decreases g.cells[elm].idx
        {
          assert Ok(g, elm) && Ok(g, elm.parent);
          elm := elm.parent;
        }
        assert Ok(g, elm);
        r := elm.parent;
        if r != null { assert Ok(g, r); }
      }
    }

    /** RB_MIN and RB_MAX */
    method MinMax(val: int) returns (r: Node?)
      requires Tied() && Valid(g)
      ensures r == if g.order == [] then null else if val < 0 then g.order[0] else g.order[|g.order| - 1]
    {
      var tmp := root;
      r := null;
      ghost var lo, hi := 0, |g.order|;
      RootSpan(g);
      while tmp != null
        invariant 0 <= lo <= hi <= |g.order| && (val < 0 ==> lo == 0) && (val >= 0 ==> hi == |g.order|)
        invariant tmp == null ==> lo == hi
        invariant tmp != null ==> tmp in g.cells && g.cells[tmp].lo == lo && g.cells[tmp].hi == hi
        invariant r == null ==> tmp == root
        invariant r != null ==> r in g.cells && g.cells[r].idx == if val < 0 then hi else lo - 1
        decreases hi - lo
      {
        assert Ok(g, tmp);
        r := tmp;
        if val < 0 {
          hi := g.cells[tmp].idx;
          tmp := tmp.left;
        } else {
          lo := g.cells[tmp].idx + 1;
          tmp := tmp.right;
        }
      }
      if r != null { assert Ok(g, r); }
    }
  }

  /** `g'` holds the nodes of `g` except `z`, in the same order. */
  ghost predicate Without(g: Image, g': Image, z: Node) {
    && z in g.cells && 0 <= g.cells[z].idx < |g.order|
    && g'.cells.Keys == g.cells.Keys - {z}
    && g'.order == g.order[..g.cells[z].idx] + g.order[g.cells[z].idx + 1..]
  }

  lemma SplicedWithout(g: Image, z: Node, child: Node?)
    requires CanSplice(g, z, child)
    ensures Without(g, Spliced(g, z, child), z)
  {
  }

  /** The successor `y` of `z` can take its place once it is unlinked. */
  lemma SuccessorKnown(g: Image, z: Node, y: Node, child: Node?)
    requires Shape(g) && z in g.cells && CanSplice(g, y, child) && g.cells[z].left != null
    requires g.cells[y].idx == g.cells[z].idx + 1 && g.cells[y].left == null
    ensures var g1 := Spliced(g, y, child); Shape(g1) && CanReplace(g1, z, y) && g1.cells[z].left != null
    ensures child != z && child != y
  {
    assert Ok(g, z) && Ok(g, y);
    assert Ok(g, g.cells[z].left);
    if child != null { OneParent(g, y, child); assert Ok(g, child); }
    SplicedShape(g, y, child);
    SplicedKeys(g, z, y, child);
  }

  lemma SuccessorFits(g: Image, z: Node, y: Node, child: Node?)
    requires Shape(g) && z in g.cells && CanSplice(g, y, child) && g.cells[z].left != null
    requires g.cells[y].idx == g.cells[z].idx + 1 && g.cells[y].left == null
    ensures var g1 := Spliced(g, y, child);
      && Shape(g1) && CanReplace(g1, z, y) && g1.cells[z].left != null
      && Without(g, Replaced(g1, z, y), z)
    ensures child != z && child != y
  {
    SuccessorKnown(g, z, y, child);
    assert Ok(g, z) && Ok(g, y);
    var g1, i := Spliced(g, y, child), g.cells[z].idx;
    assert g1.order[i := y] == g.order[..i] + g.order[i + 1..];
  }

  lemma SplicedKeys(g: Image, z: Node, y: Node, child: Node?)
    requires z in g.cells && z != y && CanSplice(g, y, child) && CanReplace(Spliced(g, y, child), z, y)
    ensures Replaced(Spliced(g, y, child), z, y).cells.Keys == g.cells.Keys - {z}
  {
  }

  /** A round of RB_REMOVE_COLOR either moves up or ends at a red node. */
  ghost predicate Upward(g: Image, parent: Node?, elm: Node?, h: Image, p: Node) {
    || parent == null
    || Wider(g, parent, h, p)
    || (IsRed(g, elm) && parent in g.cells && p in h.cells && Width(g, parent) == Width(h, p))
  }

  ghost function WidthAt(g: Image, n: Node): int {
    if n in g.cells then g.cells[n].hi - g.cells[n].lo else 0
  }

  lemma SinkingLinks(g: Image, p: Node?, elm: Node?)
    requires Sinking(g, p, elm) && elm != g.root
    ensures p != null && p in g.cells && 0 < Width(g, p) <= |g.order|
    ensures if g.cells[p].left == elm then ShortOn(g, p, elm, Left) else ShortOn(g, p, elm, Right)
  {
    assert Ok(g, p);
  }

  lemma NephewsKnown(g: Image, p: Node, elm: Node?, s: Side, w: Node)
    requires Lacking(g, p, elm, s, w)
    ensures forall m :: m == g.cells[w].left || m == g.cells[w].right ==>
      m == null || (m in g.cells && g.cells[m].parent == w)
  {
    assert Ok(g, w);
  }

  function Compare(a: int, b: int): int {
    if a < b then -1 else if a > b then 1 else 0
  }

  ghost function SideOf(comp: int): Side { if comp < 0 then Left else Right }

  /** `g'` holds the nodes of `g` and `elm`, in key order. */
  ghost predicate Added(g: Image, g': Image, elm: Node) {
    && g'.cells.Keys == g.cells.Keys + {elm}
    && (forall n :: n in g.cells ==> n.key != elm.key)
    && exists i :: 0 <= i <= |g.order| && g'.order == g.order[..i] + [elm] + g.order[i..]
  }

  /** Keys outside `order[lo..hi]` lie on either side of `key`. */
  ghost predicate Outside(g: Image, key: int, lo: int, hi: int) {
    && 0 <= lo <= hi <= |g.order|
    && (forall i :: 0 <= i < lo ==> g.order[i].key < key)
    && (forall i :: hi <= i < |g.order| ==> key < g.order[i].key)
  }

  /** The descent from the root has come to `tmp`, below `parent`. */
  ghost predicate Seek(g: Image, key: int, tmp: Node?, parent: Node?, comp: int, lo: int, hi: int) {
    && Outside(g, key, lo, hi)
    && (tmp != null ==> tmp in g.cells && g.cells[tmp].lo == lo && g.cells[tmp].hi == hi)
    && (tmp == null ==> lo == hi)
    && (parent == null ==> tmp == g.root)
    && (parent != null ==>
          && parent in g.cells && comp != 0
          && Child(g.cells[parent], SideOf(comp)) == tmp
          && (if comp < 0 then hi == g.cells[parent].idx else lo == g.cells[parent].idx + 1))
  }

  lemma RootSpan(g: Image)
    requires Shape(g)
    ensures g.root != null ==> g.root in g.cells && g.cells[g.root].lo == 0 && g.cells[g.root].hi == |g.order|
    ensures g.root == null ==> g.order == []
  {
  }

  lemma SeekDown(g: Image, key: int, tmp: Node, lo: int, hi: int)
    requires Shape(g) && Outside(g, key, lo, hi)
    requires tmp in g.cells && g.cells[tmp].lo == lo && g.cells[tmp].hi == hi
    ensures var c := g.cells[tmp];
      && lo <= c.idx < hi && g.order[c.idx] == tmp
      && (c.left == null ==> lo == c.idx) && (c.right == null ==> hi == c.idx + 1)
      && (c.left != null ==> c.left in g.cells && g.cells[c.left].lo == lo && g.cells[c.left].hi == c.idx)
      && (c.right != null ==> c.right in g.cells && g.cells[c.right].lo == c.idx + 1 && g.cells[c.right].hi == hi)
      && (key < tmp.key ==> Outside(g, key, lo, c.idx))
      && (key > tmp.key ==> Outside(g, key, c.idx + 1, hi))
  {
    assert Ok(g, tmp);
  }

  lemma SeekEnd(g: Image, elm: Node, parent: Node?, comp: int, lo: int, hi: int)
    requires Shape(g) && Seek(g, elm.key, null, parent, comp, lo, hi)
    ensures elm !in g.cells && CanAttach(g, elm, parent, SideOf(comp))
  {
    assert elm in g.cells ==> Ok(g, elm);
    if parent != null { assert Ok(g, parent); }
  }

  lemma AttachedLinks(g: Image, e: Node, p: Node?, s: Side, n: Node)
    requires CanAttach(g, e, p, s) && n in g.cells
    ensures var g' := Attached(g, e, p, s);
      n in g'.cells && SameLinks(g'.cells[n], if n == p then WithChild(g.cells[n], s, e) else g.cells[n])
  {
  }

  lemma AttachedAdds(g: Image, g': Image, e: Node, p: Node?, s: Side)
    requires Shape(g) && CanAttach(g, e, p, s) && Same(g', Attached(g, e, p, s))
    ensures Added(g, g', e)
  {
    var i := Place(g, p, s);
    assert g'.order == g.order[..i] + [e] + g.order[i..];
    forall n | n in g.cells ensures n.key != e.key { assert Ok(g, n); }
  }

  /** The same nodes in the same order. */
  ghost predicate Same(g: Image, h: Image) {
    g.order == h.order && g.cells.Keys == h.cells.Keys
  }

  lemma RisingLinks(g: Image, elm: Node)
    requires Rising(g, elm)
    ensures 0 < Width(g, elm) <= |g.order| && g.root != null
    ensures var p := g.cells[elm].parent; p == null || p in g.cells
  {
    assert Ok(g, elm);
  }

  lemma Relatives(g: Image, elm: Node, s: Side, p: Node, gp: Node)
    requires RedPair(g, elm, s, p, gp)
    ensures elm in g.cells && p in g.cells && gp in g.cells && elm != p && elm != gp && p != gp
    ensures g.cells[p].left == elm || g.cells[p].right == elm
    ensures var u := Child(g.cells[gp], Opp(s)); u == null || (u in g.cells && u != p && u != gp)
  {
    assert Ok(g, elm) && Ok(g, p) && Ok(g, gp);
    OneParent(g, gp, p);
    OneParent(g, p, elm);
  }

  ghost function Width(g: Image, n: Node): int
    requires n in g.cells
  {
    g.cells[n].hi - g.cells[n].lo
  }

  ghost predicate Wider(g: Image, n: Node, h: Image, m: Node) {
    n in g.cells && m in h.cells && Width(g, n) > Width(h, m)
  }

  // ----- the assignments of a removal

  lemma SpliceKnown(g: Image, y: Node, child: Node?)
    requires Shape(g) && CanSplice(g, y, child)
    ensures child == null || (child in g.cells && child != y && child != g.cells[y].parent)
    ensures var p := g.cells[y].parent; p == null || (p in g.cells && p != y)
    ensures g.cells[y].parent == null <==> y == g.root
  {
    assert Ok(g, y);
    if child != null { OneParent(g, y, child); assert Ok(g, child); }
    if g.cells[y].parent != null { OneParent(g, g.cells[y].parent, y); assert Ok(g, g.cells[y].parent); }
  }

  lemma SplicedLinks(g: Image, y: Node, child: Node?, n: Node)
    requires Shape(g) && CanSplice(g, y, child) && n in g.cells && n != y
    requires child == null || (child in g.cells && child != y && child != g.cells[y].parent)
    requires var p := g.cells[y].parent; p == null || (p in g.cells && p != y)
    ensures var g1 := if child != null then PutParent(g, child, g.cells[y].parent) else g;
      n in Hung(g1, y, child).cells && SameLinks(Hung(g1, y, child).cells[n], SplicedCell(g, y, child, n))
  {
    ParentsOf(g, y);
  }

  lemma ReplaceKnown(g: Image, z: Node)
    requires Shape(g) && z in g.cells
    ensures var p := g.cells[z].parent;
      p == null || (p in g.cells && p != z && p != g.cells[z].left && p != g.cells[z].right)
    ensures g.cells[z].parent == null <==> z == g.root
    ensures var l := g.cells[z].left; l == null || (l in g.cells && l != z && l != g.cells[z].right)
    ensures var r := g.cells[z].right; r == null || (r in g.cells && r != z)
  {
    assert Ok(g, z);
    if g.cells[z].left != null { OneParent(g, z, g.cells[z].left); assert Ok(g, g.cells[z].left); }
    if g.cells[z].right != null { OneParent(g, z, g.cells[z].right); assert Ok(g, g.cells[z].right); }
    if g.cells[z].parent != null { OneParent(g, g.cells[z].parent, z); assert Ok(g, g.cells[z].parent); }
  }

  ghost function Redirected(g: Image, z: Node, y: Node): Image
    requires Shape(g) && z in g.cells && g.cells[z].left != null
  {
    ReplaceKnown(g, z);
    var g1 := PutParent(Hung(g, z, y), g.cells[z].left, y);
    if g.cells[z].right != null then PutParent(g1, g.cells[z].right, y) else g1
  }

  lemma ReplacedLinks(g: Image, z: Node, y: Node, n: Node)
    requires Shape(g) && CanReplace(g, z, y) && n in g.cells && n != z && g.cells[z].left != null
    ensures var g2 := Redirected(g, z, y);
      n in g2.cells && SameLinks(g2.cells[n], ReplacedCell(g.cells[n], z, y))
  {
    ReplaceKnown(g, z);
    ParentsOf(g, z);
    assert Ok(g, n);
    if g.cells[n].parent == z { OneParent(g, z, n); }
    OneParent(g, z, g.cells[z].left);
    if g.cells[z].right != null { OneParent(g, z, g.cells[z].right); }
  }

  lemma ReplacedSame(g: Image, z: Node, y: Node)
    requires Shape(g) && CanReplace(g, z, y) && g.cells[z].left != null
    ensures var g2, g' := Redirected(g, z, y), Replaced(g, z, y);
      && g2.root == g'.root
      && (forall n :: n in g'.cells && n != y ==> n in g2.cells && SameLinks(g2.cells[n], g'.cells[n]))
  {
    ReplaceKnown(g, z);
    forall n | n in Replaced(g, z, y).cells && n != y
      ensures n in Redirected(g, z, y).cells && SameLinks(Redirected(g, z, y).cells[n], Replaced(g, z, y).cells[n])
    {
      ReplacedLinks(g, z, y, n);
    }
  }

  // ----- the assignments of a rotation as steps on images

  ghost function Put(g: Image, n: Node, s: Side, m: Node?): Image
    requires n in g.cells
  {
    if s.Left? then PutLeft(g, n, m) else PutRight(g, n, m)
  }

  ghost function Hung(g: Image, elm: Node, tmp: Node?): Image
    requires elm in g.cells && (g.cells[elm].parent != null ==> g.cells[elm].parent in g.cells)
  {
    var p := g.cells[elm].parent;
    if p == null then g.(root := tmp)
    else if elm == g.cells[p].left then PutLeft(g, p, tmp) else PutRight(g, p, tmp)
  }

  /** The inner grandchild passes from `y` to `x`. */
  ghost function Handed(g: Image, x: Node, s: Side, y: Node): Image
    requires x in g.cells && y in g.cells
    requires var b := Child(g.cells[y], s); b == null || b in g.cells
  {
    var b := Child(g.cells[y], s);
    var g1 := Put(g, x, Opp(s), b);
    if b != null then PutParent(g1, b, x) else g1
  }

  /** `y` takes the place of `x` and `x` hangs from `y`. */
  ghost function Lifted(g: Image, x: Node, s: Side, y: Node): Image
    requires x in g.cells && y in g.cells
    requires g.cells[x].parent != null ==> g.cells[x].parent in g.cells
    requires x != y
  {
    PutParent(Put(Hung(PutParent(g, y, g.cells[x].parent), x, y), y, s, x), x, y)
  }

  ghost function HandedCell(x: Node, s: Side, b: Node?, n: Node, c: Cell): Cell {
    if n == x then WithChild(c, Opp(s), b) else if n == b then c.(parent := x) else c
  }

  ghost function LiftedCell(x: Node, s: Side, y: Node, p: Node?, n: Node, c: Cell): Cell {
    if n == x then c.(parent := y)
    else if n == y then WithChild(c, s, x).(parent := p)
    else if n == p then (if x == c.left then c.(left := y) else c.(right := y))
    else c
  }

  lemma HandedAt(g: Image, x: Node, s: Side, y: Node, n: Node)
    requires x in g.cells && y in g.cells && n in g.cells
    requires var b := Child(g.cells[y], s); b == null || (b in g.cells && b != x)
    ensures var g' := Handed(g, x, s, y);
      && g'.root == g.root && g'.cells.Keys == g.cells.Keys
      && g'.cells[n] == HandedCell(x, s, Child(g.cells[y], s), n, g.cells[n])
  {
  }

  lemma LiftedAt(g: Image, x: Node, s: Side, y: Node, n: Node)
    requires x in g.cells && y in g.cells && n in g.cells && x != y
    requires var p := g.cells[x].parent; p == null || (p in g.cells && p != x && p != y)
    ensures var p, g' := g.cells[x].parent, Lifted(g, x, s, y);
      && g'.root == (if p == null then y else g.root) && g'.cells.Keys == g.cells.Keys
      && g'.cells[n] == LiftedCell(x, s, y, p, n, g.cells[n])
  {
  }

  lemma TurnedCell(g: Image, x: Node, s: Side, y: Node, b: Node?, p: Node?, n: Node)
    requires CanRotate(g, x, s) && y == Child(g.cells[x], Opp(s)) && n in g.cells && x != y
    requires b == Child(g.cells[y], s) && b != x && b != y
    requires p == g.cells[x].parent && p != x && p != y
    requires n == p ==> (g.cells[n].left == x) != (g.cells[n].right == x)
    requires (g.cells[n].left == x || g.cells[n].right == x) ==> n == p
    ensures SameLinks(LiftedCell(x, s, y, p, n, HandedCell(x, s, b, n, g.cells[n])), RotatedCell(g, x, s, n))
  {
  }

  lemma TurnedStepsAt(g: Image, x: Node, s: Side, y: Node, n: Node)
    requires Shape(g) && CanRotate(g, x, s) && y == Child(g.cells[x], Opp(s)) && x != y && n in g.cells
    requires var b := Child(g.cells[y], s); b == null || (b in g.cells && b != x && b != y)
    requires var p := g.cells[x].parent; p == null || (p in g.cells && p != x && p != y)
    ensures var g' := Lifted(Handed(g, x, s, y), x, s, y);
      && g'.cells.Keys == g.cells.Keys && g'.root == (if g.cells[x].parent == null then y else g.root)
      && SameLinks(g'.cells[n], RotatedCell(g, x, s, n))
  {
    var g1 := Handed(g, x, s, y);
    HandedAt(g, x, s, y, x);
    HandedAt(g, x, s, y, n);
    LiftedAt(g1, x, s, y, n);
    ParentsOf(g, x);
    TurnedCell(g, x, s, y, Child(g.cells[y], s), g.cells[x].parent, n);
  }

  lemma TurnedSteps(g: Image, x: Node, s: Side, y: Node)
    requires Shape(g) && CanRotate(g, x, s) && y == Child(g.cells[x], Opp(s)) && x != y
    requires var b := Child(g.cells[y], s); b == null || (b in g.cells && b != x && b != y)
    requires var p := g.cells[x].parent; p == null || (p in g.cells && p != x && p != y)
    requires g.cells[x].parent == null <==> x == g.root
    ensures SameTree(Lifted(Handed(g, x, s, y), x, s, y), Rotated(g, x, s))
    ensures Rotated(g, x, s).cells.Keys == g.cells.Keys
  {
    var g2, g' := Lifted(Handed(g, x, s, y), x, s, y), Rotated(g, x, s);
    TurnedStepsAt(g, x, s, y, x);
    forall n | n in g2.cells ensures SameLinks(g2.cells[n], g'.cells[n]) {
      TurnedStepsAt(g, x, s, y, n);
    }
  }

  lemma NeighboursKnown(g: Image, x: Node, y: Node)
    requires Shape(g) && x in g.cells && (g.cells[x].left == y || g.cells[x].right == y)
    ensures y in g.cells && y != x
    ensures forall m :: m == g.cells[y].left || m == g.cells[y].right ==>
      m == null || (m in g.cells && m != x && m != y)
    ensures var p := g.cells[x].parent; p == null || (p in g.cells && p != y && p != x)
    ensures g.cells[x].parent == null <==> x == g.root
  {
    assert Ok(g, x);
    assert Ok(g, y);
    OneParent(g, x, y);
    if g.cells[x].parent != null { OneParent(g, g.cells[x].parent, x); assert Ok(g, g.cells[x].parent); }
    if g.cells[y].left != null { OneParent(g, y, g.cells[y].left); }
    if g.cells[y].right != null { OneParent(g, y, g.cells[y].right); }
  }

  lemma ParentsOf(g: Image, x: Node)
    requires Shape(g) && x in g.cells
    ensures forall n :: n in g.cells && (g.cells[n].left == x || g.cells[n].right == x) ==> n == g.cells[x].parent
    ensures var p := g.cells[x].parent;
      p == null || (p in g.cells && (g.cells[p].left == x) != (g.cells[p].right == x))
  {
    assert Ok(g, x);
    if g.cells[x].parent != null { OneParent(g, g.cells[x].parent, x); }
    forall n | n in g.cells && (g.cells[n].left == x || g.cells[n].right == x) ensures n == g.cells[x].parent {
      OneParent(g, n, x);
    }
  }
}
