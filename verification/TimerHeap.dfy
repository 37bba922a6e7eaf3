/** The pointer-based binary heap of third/libuv/src/heap-inl.h over timer handles.

    The ghost sequence `slots` lists the handles in level order; `Mirrors` says that the links
    are exactly those of the complete binary tree over `slots`.  Swapping two nodes is then a
    renaming, and heap order is a property of the sequence of keys (HeapOrder.dfy). */
module TimerHeap {
  import opened Common

  import opened HeapOrder

  /** uv_timer_t with its embedded heap_node. */
  class Timer {
    var left: Timer?
    var right: Timer?
    var parent: Timer?
    var timeout: nat
    var startId: nat
    var repeat: nat
    var active: bool
    var hasCallback: bool

    constructor ()
      ensures !active && !hasCallback && repeat == 0
    {
      left, right, parent := null, null, null;
      timeout, startId, repeat := 0, 0, 0;
      active, hasCallback := false, false;
    }
  }

  function KeyOf(t: Timer): Key
    reads t`timeout, t`startId
  {
    Key(t.timeout, t.startId)
  }

  ghost function KeysOf(s: seq<Timer>): (ks: seq<Key>)
    reads s`timeout, s`startId
    ensures |ks| == |s| && forall i :: 0 <= i < |s| ==> ks[i] == KeyOf(s[i])
  {
    if s == [] then [] else KeysOf(s[..|s| - 1]) + [KeyOf(s[|s| - 1])]
  }

  // ----- links as values

  datatype Links = Links(left: Timer?, right: Timer?, parent: Timer?)

  datatype Image = Image(min: Timer?, links: map<Timer, Links>)

  ghost function At(s: seq<Timer>, i: int): Timer? { if 0 <= i < |s| then s[i] else null }

  ghost function LinksAt(s: seq<Timer>, i: int): Links {
    Links(At(s, 2 * i + 1), At(s, 2 * i + 2), if i == 0 then null else At(s, (i - 1) / 2))
  }

  ghost predicate Distinct(s: seq<Timer>) {
    forall i, j :: 0 <= i < j < |s| ==> s[i] != s[j]
  }

  ghost predicate SlotOk(m: Image, s: seq<Timer>, i: int) {
    0 <= i < |s| && s[i] in m.links && m.links[s[i]] == LinksAt(s, i)
  }

  /** The links form the complete binary tree with level order `s`. */
  ghost predicate Mirrors(m: Image, s: seq<Timer>) {
    && m.min == At(s, 0)
    && Distinct(s)
    && (forall i {:trigger SlotOk(m, s, i)} :: 0 <= i < |s| ==> SlotOk(m, s, i))
    && (forall n :: n in m.links ==> n in s)
  }

  ghost function X(n: Timer?, a: Timer, b: Timer): Timer? {
    if n == a then b else if n == b then a else n
  }

  ghost function XLinks(l: Links, a: Timer, b: Timer): Links {
    Links(X(l.left, a, b), X(l.right, a, b), X(l.parent, a, b))
  }

  /** Two nodes trade places. */
  ghost function Exchanged(m: Image, a: Timer, b: Timer): Image
    requires a in m.links && b in m.links
  {
    Image(X(m.min, a, b),
          map n | n in m.links :: XLinks(m.links[if n == a then b else if n == b then a else n], a, b))
  }

  lemma ExchangedSlot(m: Image, s: seq<Timer>, i: int, j: int, k: int)
    requires Distinct(s) && 0 <= i < j < |s| && SlotOk(m, s, i) && SlotOk(m, s, j) && SlotOk(m, s, k)
    ensures SlotOk(Exchanged(m, s[i], s[j]), Swap(s, i, j), k)
  {
    assert Swap(s, i, j)[k] == X(s[k], s[i], s[j]);
    XAt(s, i, j, 2 * k + 1);
    XAt(s, i, j, 2 * k + 2);
    XAt(s, i, j, (k - 1) / 2);
  }

  lemma SwapKeeps(s: seq<Timer>, i: int, j: int)
    requires 0 <= i < |s| && 0 <= j < |s| && Distinct(s)
    ensures Distinct(Swap(s, i, j))
    ensures forall n :: n in Swap(s, i, j) <==> n in s
  {
    var s' := Swap(s, i, j);
    assert s'[i] == s[j] && s'[j] == s[i];
    forall n | n in s ensures n in s' {
      var k :| 0 <= k < |s| && s[k] == n;
      assert k != i && k != j ==> s'[k] == n;
    }
  }

  lemma ExchangedMirrors(m: Image, s: seq<Timer>, i: int, j: int)
    requires Mirrors(m, s) && 0 <= i < j < |s|
    ensures s[i] in m.links && s[j] in m.links
    ensures Mirrors(Exchanged(m, s[i], s[j]), Swap(s, i, j))
  {
    assert SlotOk(m, s, i) && SlotOk(m, s, j);
    var m', s' := Exchanged(m, s[i], s[j]), Swap(s, i, j);
    forall k {:trigger SlotOk(m', s', k)} | 0 <= k < |s'| ensures SlotOk(m', s', k) {
      assert SlotOk(m, s, k);
      ExchangedSlot(m, s, i, j, k);
    }
    SwapKeeps(s, i, j);
    XAt(s, i, j, 0);
  }

  lemma XAt(s: seq<Timer>, i: int, j: int, k: int)
    requires Distinct(s) && 0 <= i < j < |s|
    ensures At(Swap(s, i, j), k) == X(At(s, k), s[i], s[j])
  {
  }

  // ----- the assignments of heap_node_swap

  ghost function PutLeft(m: Image, n: Timer, x: Timer?): Image
    requires n in m.links
  { m.(links := m.links[n := m.links[n].(left := x)]) }

  ghost function PutRight(m: Image, n: Timer, x: Timer?): Image
    requires n in m.links
  { m.(links := m.links[n := m.links[n].(right := x)]) }

  ghost function PutParent(m: Image, n: Timer, x: Timer?): Image
    requires n in m.links
  { m.(links := m.links[n := m.links[n].(parent := x)]) }

  ghost predicate Holds(n: Timer, l: Links)
    reads n`left, n`right, n`parent
  {
    n.left == l.left && n.right == l.right && n.parent == l.parent
  }

  /** The two nodes exchange their links and `p` hangs below `c`. */
  ghost function Traded(links: map<Timer, Links>, p: Timer, c: Timer): map<Timer, Links>
    requires p in links && c in links
  {
    links[p := links[c]][c := links[p]]
  }

  ghost function Crossed(m: Image, p: Timer, c: Timer): Image
    requires p in m.links && c in m.links
  {
    var lp, lc := m.links[p], m.links[c];
    var down := if lp.left == c then lp.(left := p) else lp.(right := p);
    m.(links := m.links[p := lc.(parent := c)][c := down])
  }

  ghost function CrossedUnder(m: Image, p: Timer, c: Timer): Image
    requires p in m.links && c in m.links
  {
    var m1 := PutParent(m, p, c);
    if m.links[c].left == c then PutLeft(m1, c, p) else PutRight(m1, c, p)
  }

  lemma CrossedSteps(m: Image, p: Timer, c: Timer)
    requires p in m.links && c in m.links && p != c
    ensures var m1 := m.(links := Traded(m.links, p, c));
      m1.links.Keys == m.links.Keys && m1.links[c] == m.links[p] && CrossedUnder(m1, p, c) == Crossed(m, p, c)
  {
    var m1 := m.(links := Traded(m.links, p, c));
    assert CrossedUnder(m1, p, c).links == Crossed(m, p, c).links;
  }

  ghost function PutParentOf(m: Image, n: Timer?, x: Timer): Image
    requires n != null ==> n in m.links
    ensures PutParentOf(m, n, x).links.Keys == m.links.Keys
  {
    if n != null then PutParent(m, n, x) else m
  }

  /** Sibling and grandchildren learn their new parents. */
  ghost function Reparented(m: Image, p: Timer, c: Timer, sib: Timer?, cl: Timer?, cr: Timer?): Image
    requires sib != null ==> sib in m.links
    requires cl != null ==> cl in m.links
    requires cr != null ==> cr in m.links
  {
    PutParentOf(PutParentOf(PutParentOf(m, sib, c), cl, p), cr, p)
  }

  /** The link from above now leads to `c`. */
  ghost function Topped(m: Image, p: Timer, c: Timer, gp: Timer?): Image
    requires gp != null ==> gp in m.links
  {
    if gp == null then m.(min := c)
    else if m.links[gp].left == p then PutLeft(m, gp, c) else PutRight(m, gp, c)
  }

  /** All neighbours that heap_node_swap touches, by their slots. */
  ghost predicate Around(m: Image, s: seq<Timer>, i: int, j: int, sib: Timer?, cl: Timer?, cr: Timer?, gp: Timer?) {
    && Mirrors(m, s) && 0 <= i < j < |s| && (j - 1) / 2 == i
    && sib == At(s, 4 * i + 3 - j) && cl == At(s, 2 * j + 1) && cr == At(s, 2 * j + 2)
    && gp == (if i == 0 then null else At(s, (i - 1) / 2))
  }

  lemma AroundKnown(m: Image, s: seq<Timer>, i: int, j: int, sib: Timer?, cl: Timer?, cr: Timer?, gp: Timer?)
    requires Around(m, s, i, j, sib, cl, cr, gp)
    ensures SlotOk(m, s, i) && SlotOk(m, s, j) && s[i] != s[j]
    ensures sib != null ==> sib in m.links && sib != s[i] && sib != s[j]
    ensures cl != null ==> cl in m.links && cl != s[i] && cl != s[j] && cl != sib
    ensures cr != null ==> cr in m.links && cr != s[i] && cr != s[j] && cr != sib && cr != cl
    ensures gp != null ==> gp in m.links && gp != s[i] && gp != s[j]
    ensures gp == null <==> i == 0
    ensures m.links[s[i]].left == s[j] <==> j == 2 * i + 1
    ensures sib == if m.links[s[i]].left == s[j] then m.links[s[i]].right else m.links[s[i]].left
  {
    assert SlotOk(m, s, i) && SlotOk(m, s, j);
    assert SlotOk(m, s, 4 * i + 3 - j) || 4 * i + 3 - j >= |s|;
    assert SlotOk(m, s, 2 * j + 1) || 2 * j + 1 >= |s|;
    assert SlotOk(m, s, 2 * j + 2) || 2 * j + 2 >= |s|;
    assert i > 0 ==> SlotOk(m, s, (i - 1) / 2);
  }

  ghost function ReparentedLinks(l: Links, n: Timer, p: Timer, c: Timer, sib: Timer?, cl: Timer?, cr: Timer?): Links {
    if n == sib then l.(parent := c) else if n == cl || n == cr then l.(parent := p) else l
  }

  ghost function ToppedLinks(l: Links, n: Timer, p: Timer, c: Timer, gp: Timer?): Links {
    if n != gp then l else if l.left == p then l.(left := c) else l.(right := c)
  }

  lemma ReparentedAt(m: Image, p: Timer, c: Timer, sib: Timer?, cl: Timer?, cr: Timer?, n: Timer)
    requires n in m.links
    requires sib != null ==> sib in m.links
    requires cl != null ==> cl in m.links && cl != sib
    requires cr != null ==> cr in m.links && cr != sib
    ensures var m' := Reparented(m, p, c, sib, cl, cr);
      && m'.links.Keys == m.links.Keys && m'.min == m.min
      && m'.links[n] == ReparentedLinks(m.links[n], n, p, c, sib, cl, cr)
  {
  }

  lemma ToppedAt(m: Image, p: Timer, c: Timer, gp: Timer?, n: Timer)
    requires n in m.links && (gp != null ==> gp in m.links)
    ensures var m' := Topped(m, p, c, gp);
      && m'.links.Keys == m.links.Keys && m'.min == (if gp == null then c else m.min)
      && m'.links[n] == ToppedLinks(m.links[n], n, p, c, gp)
  {
  }

  lemma SlotIs(s: seq<Timer>, a: int, i: int)
    requires Distinct(s) && 0 <= i < |s|
    ensures At(s, a) == s[i] <==> a == i
  {
  }

  lemma SwappedUp(s: seq<Timer>, i: int, j: int, k: int)
    requires Distinct(s) && 0 <= i < j < |s| && (j - 1) / 2 == i && 0 <= k < |s| && k != i && k != j
    ensures var up, n := LinksAt(s, k).parent, s[k];
      X(up, s[i], s[j]) ==
        if n == At(s, 4 * i + 3 - j) then s[j]
        else if n == At(s, 2 * j + 1) || n == At(s, 2 * j + 2) then s[i] else up
  {
    SlotIs(s, 4 * i + 3 - j, k);
    SlotIs(s, 2 * j + 1, k);
    SlotIs(s, 2 * j + 2, k);
    SlotIs(s, (k - 1) / 2, i);
    SlotIs(s, (k - 1) / 2, j);
  }

  lemma SwappedDown(s: seq<Timer>, i: int, j: int, k: int, d: int)
    requires Distinct(s) && 0 <= i < j < |s| && (j - 1) / 2 == i && 0 <= k < |s| && k != i && k != j
    requires d == 1 || d == 2
    ensures X(At(s, 2 * k + d), s[i], s[j]) == if At(s, 2 * k + d) == s[i] then s[j] else At(s, 2 * k + d)
    ensures At(s, 2 * k + d) == s[i] ==> i > 0 && k == (i - 1) / 2
  {
    SlotIs(s, 2 * k + d, i);
    SlotIs(s, 2 * k + d, j);
  }

  /** The links of slot `k` after all assignments of heap_node_swap are the exchanged ones. */
  lemma SwappedSlot(m: Image, s: seq<Timer>, i: int, j: int, sib: Timer?, cl: Timer?, cr: Timer?, gp: Timer?, k: int)
    requires Around(m, s, i, j, sib, cl, cr, gp) && k != i && k != j && SlotOk(m, s, k)
    ensures var p, c, l := s[i], s[j], m.links[s[k]];
      ToppedLinks(ReparentedLinks(l, s[k], p, c, sib, cl, cr), s[k], p, c, gp) == XLinks(l, p, c)
  {
    SwappedUp(s, i, j, k);
    SwappedDown(s, i, j, k, 1);
    SwappedDown(s, i, j, k, 2);
    if i > 0 {
      SlotIs(s, (i - 1) / 2, k);
      SlotIs(s, 2 * k + 1, i);
      SlotIs(s, 2 * k + 2, i);
    }
  }

  /** The links of the two swapped nodes themselves. */
  lemma SwappedPair(m: Image, s: seq<Timer>, i: int, j: int)
    requires Mirrors(m, s) && 0 <= i < j < |s| && (j - 1) / 2 == i
    requires SlotOk(m, s, i) && SlotOk(m, s, j)
    ensures Crossed(m, s[i], s[j]).links[s[i]] == XLinks(m.links[s[j]], s[i], s[j])
    ensures Crossed(m, s[i], s[j]).links[s[j]] == XLinks(m.links[s[i]], s[i], s[j])
  {
    SlotIs(s, 2 * j + 1, i);
    SlotIs(s, 2 * j + 1, j);
    SlotIs(s, 2 * j + 2, i);
    SlotIs(s, 2 * j + 2, j);
    SlotIs(s, 2 * i + 1, i);
    SlotIs(s, 2 * i + 1, j);
    SlotIs(s, 2 * i + 2, i);
    SlotIs(s, 2 * i + 2, j);
    SlotIs(s, (i - 1) / 2, i);
    SlotIs(s, (i - 1) / 2, j);
  }

  /** All assignments of heap_node_swap. */
  ghost function SwapSteps(m: Image, p: Timer, c: Timer, sib: Timer?, cl: Timer?, cr: Timer?, gp: Timer?): Image
    requires p in m.links && c in m.links
    requires (sib != null ==> sib in m.links) && (cl != null ==> cl in m.links)
    requires (cr != null ==> cr in m.links) && (gp != null ==> gp in m.links)
  {
    Topped(Reparented(Crossed(m, p, c), p, c, sib, cl, cr), p, c, gp)
  }

  lemma SwappedAt(m: Image, s: seq<Timer>, i: int, j: int, sib: Timer?, cl: Timer?, cr: Timer?, gp: Timer?, n: Timer)
    requires Around(m, s, i, j, sib, cl, cr, gp) && n in m.links
    ensures s[i] in m.links && s[j] in m.links
    ensures (sib != null ==> sib in m.links) && (cl != null ==> cl in m.links)
    ensures (cr != null ==> cr in m.links) && (gp != null ==> gp in m.links)
    ensures var m' := SwapSteps(m, s[i], s[j], sib, cl, cr, gp);
      && m'.links.Keys == m.links.Keys && m'.min == (if gp == null then s[j] else m.min)
      && m'.links[n] == Exchanged(m, s[i], s[j]).links[n]
  {
    AroundKnown(m, s, i, j, sib, cl, cr, gp);
    var p, c := s[i], s[j];
    var m0 := Crossed(m, p, c);
    ReparentedAt(m0, p, c, sib, cl, cr, n);
    ToppedAt(Reparented(m0, p, c, sib, cl, cr), p, c, gp, n);
    var k :| 0 <= k < |s| && s[k] == n;
    assert SlotOk(m, s, k);
    if k == i || k == j { SwappedPair(m, s, i, j); } else { SwappedSlot(m, s, i, j, sib, cl, cr, gp, k); }
  }

  lemma SwappedImage(m: Image, s: seq<Timer>, i: int, j: int, sib: Timer?, cl: Timer?, cr: Timer?, gp: Timer?)
    requires Around(m, s, i, j, sib, cl, cr, gp)
    requires s[i] in m.links && s[j] in m.links
    requires (sib != null ==> sib in m.links) && (cl != null ==> cl in m.links)
    requires (cr != null ==> cr in m.links) && (gp != null ==> gp in m.links)
    ensures SwapSteps(m, s[i], s[j], sib, cl, cr, gp) == Exchanged(m, s[i], s[j])
  {
    var m', x := SwapSteps(m, s[i], s[j], sib, cl, cr, gp), Exchanged(m, s[i], s[j]);
    SwappedAt(m, s, i, j, sib, cl, cr, gp, s[i]);
    forall n | n in m.links ensures m'.links[n] == x.links[n] {
      SwappedAt(m, s, i, j, sib, cl, cr, gp, n);
    }
    assert m'.links == x.links;
    SlotIs(s, 0, i);
    SlotIs(s, 0, j);
  }

  // ----- adding and unlinking the last slot

  ghost function Appended(m: Image, n: Timer, p: Timer?, right: bool): Image
    requires p != null ==> p in m.links
  {
    var m1 := if p == null then m.(min := n) else if right then PutRight(m, p, n) else PutLeft(m, p, n);
    m1.(links := m1.links[n := Links(null, null, p)])
  }

  lemma AppendedMirrors(m: Image, s: seq<Timer>, n: Timer, p: Timer?, right: bool)
    requires Mirrors(m, s) && n !in m.links
    requires p == (if s == [] then null else At(s, (|s| - 1) / 2)) && right == (|s| % 2 == 0)
    ensures p != null ==> p in m.links
    ensures Mirrors(Appended(m, n, p, right), s + [n])
  {
    if p != null { assert SlotOk(m, s, (|s| - 1) / 2); }
    var m', s' := Appended(m, n, p, right), s + [n];
    forall k | 0 <= k < |s| ensures s[k] != n { assert SlotOk(m, s, k); }
    forall k {:trigger SlotOk(m', s', k)} | 0 <= k < |s'| ensures SlotOk(m', s', k) {
      if k < |s| { assert SlotOk(m, s, k); AppendedSlot(s, n, k); }
      else { assert s'[k] == n; }
    }
    forall x | x in m'.links ensures x in s' { assert x in s || x == n; }
  }

  lemma AppendedSlot(s: seq<Timer>, n: Timer, k: int)
    requires Distinct(s) && 0 <= k < |s|
    ensures LinksAt(s + [n], k) ==
      Links(if 2 * k + 1 == |s| then n else At(s, 2 * k + 1), if 2 * k + 2 == |s| then n else At(s, 2 * k + 2),
            LinksAt(s, k).parent)
    ensures (2 * k + 1 == |s| || 2 * k + 2 == |s|) <==> s[k] == At(s, (|s| - 1) / 2)
  {
    SlotIs(s, (|s| - 1) / 2, k);
  }

  ghost function Cleared(m: Image, p: Timer?, right: bool): Image
    requires p != null ==> p in m.links
  {
    if p == null then m.(min := null) else if right then PutRight(m, p, null) else PutLeft(m, p, null)
  }

  ghost function Unlinked(m: Image, n: Timer, p: Timer?, right: bool): Image
    requires p != null ==> p in m.links
  {
    var m1 := Cleared(m, p, right);
    m1.(links := m1.links - {n})
  }

  lemma UnlinkedMirrors(m: Image, s: seq<Timer>, p: Timer?, right: bool)
    requires Mirrors(m, s) && s != []
    requires p == (if |s| == 1 then null else At(s, (|s| - 2) / 2)) && right == (|s| % 2 == 1)
    ensures p != null ==> p in m.links && p != s[|s| - 1]
    ensures Mirrors(Unlinked(m, s[|s| - 1], p, right), s[..|s| - 1])
  {
    var n, s' := s[|s| - 1], s[..|s| - 1];
    if p != null { assert SlotOk(m, s, (|s| - 2) / 2); }
    var m' := Unlinked(m, n, p, right);
    assert s == s' + [n];
    forall k {:trigger SlotOk(m', s', k)} | 0 <= k < |s'| ensures SlotOk(m', s', k) { UnlinkedSlot(m, s, p, right, k); }
    forall x | x in m'.links ensures x in s' { assert x in s && x != n; }
  }

  lemma UnlinkedSlot(m: Image, s: seq<Timer>, p: Timer?, right: bool, k: int)
    requires Mirrors(m, s) && 0 <= k < |s| - 1 && right == (|s| % 2 == 1)
    requires p == At(s, (|s| - 2) / 2) && p in m.links
    ensures SlotOk(Unlinked(m, s[|s| - 1], p, right), s[..|s| - 1], k)
  {
    var n, s' := s[|s| - 1], s[..|s| - 1];
    assert s == s' + [n];
    assert SlotOk(m, s, k);
    AppendedSlot(s', n, k);
    assert p == At(s', (|s'| - 1) / 2) && s'[k] == s[k] != n;
    var l, l' := LinksAt(s, k), LinksAt(s', k);
    if s[k] != p {
      assert l == l';
    } else if right {
      assert l' == l.(right := null);
    } else {
      assert l' == l.(left := null);
    }
  }

  // ----- the last node replaces another one

  ghost function Renamed(m: Image, a: Timer, b: Timer): Image
    requires a in m.links
  {
    Image(X(m.min, a, b), (map n | n in m.links && n != a :: XLinks(m.links[n], a, b))[b := m.links[a]])
  }

  lemma RenamedMirrors(m: Image, s: seq<Timer>, i: int, b: Timer)
    requires Mirrors(m, s) && 0 <= i < |s| && b !in m.links
    ensures s[i] in m.links && Mirrors(Renamed(m, s[i], b), s[i := b])
  {
    assert SlotOk(m, s, i);
    var m', s' := Renamed(m, s[i], b), s[i := b];
    forall k | 0 <= k < |s| ensures s[k] != b { assert SlotOk(m, s, k); }
    forall k {:trigger SlotOk(m', s', k)} | 0 <= k < |s'| ensures SlotOk(m', s', k) {
      assert SlotOk(m, s, k);
      RenamedSlot(s, i, b, 2 * k + 1);
      RenamedSlot(s, i, b, 2 * k + 2);
      RenamedSlot(s, i, b, (k - 1) / 2);
      if k == i {
        SlotIs(s, 2 * i + 1, i);
        SlotIs(s, 2 * i + 2, i);
        SlotIs(s, (i - 1) / 2, i);
      }
    }
    forall x | x in m'.links ensures x in s' {
      if x == b { assert s'[i] == b; } else {
        var k :| 0 <= k < |s| && s[k] == x;
        assert s'[k] == x;
      }
    }
  }

  lemma RenamedSlot(s: seq<Timer>, i: int, b: Timer, k: int)
    requires Distinct(s) && 0 <= i < |s| && b !in s
    ensures At(s[i := b], k) == X(At(s, k), s[i], b)
  {
  }

  ghost function RenameSteps(m: Image, a: Timer, b: Timer): Image
    requires a in m.links
    requires var l := m.links[a];
      (l.left != null ==> l.left in m.links) && (l.right != null ==> l.right in m.links) &&
        (l.parent != null ==> l.parent in m.links)
  {
    var l := m.links[a];
    Topped(PutParentOf(PutParentOf(m, l.left, b), l.right, b), a, b, l.parent)
  }

  lemma NeighboursKnown(m: Image, s: seq<Timer>, i: int)
    requires Mirrors(m, s) && 0 <= i < |s|
    ensures SlotOk(m, s, i)
    ensures var l := m.links[s[i]];
      && (l.left != null ==> l.left in m.links && l.left != s[i] && l.left != l.right)
      && (l.right != null ==> l.right in m.links && l.right != s[i])
      && (l.parent != null ==> l.parent in m.links && l.parent != s[i] && l.parent != l.left && l.parent != l.right)
      && (l.parent == null <==> i == 0)
  {
    assert SlotOk(m, s, i);
    assert SlotOk(m, s, 2 * i + 1) || 2 * i + 1 >= |s|;
    assert SlotOk(m, s, 2 * i + 2) || 2 * i + 2 >= |s|;
    assert i > 0 ==> SlotOk(m, s, (i - 1) / 2);
  }

  lemma RenamedStepsAt(m: Image, s: seq<Timer>, i: int, b: Timer, k: int)
    requires Mirrors(m, s) && 0 <= i < |s| && b !in m.links && 0 <= k < |s| && k != i
    ensures s[i] in m.links && s[k] in m.links
    ensures var l := m.links[s[i]];
      (l.left != null ==> l.left in m.links) && (l.right != null ==> l.right in m.links) &&
        (l.parent != null ==> l.parent in m.links)
    ensures s[k] in RenameSteps(m, s[i], b).links
    ensures RenameSteps(m, s[i], b).links[s[k]] == XLinks(m.links[s[k]], s[i], b)
  {
    NeighboursKnown(m, s, i);
    assert SlotOk(m, s, k);
    NotIn(m, s, b, 2 * k + 1);
    NotIn(m, s, b, 2 * k + 2);
    NotIn(m, s, b, (k - 1) / 2);
    SlotIs(s, 2 * k + 1, i);
    SlotIs(s, 2 * k + 2, i);
    SlotIs(s, (k - 1) / 2, i);
    SlotIs(s, 2 * i + 1, k);
    SlotIs(s, 2 * i + 2, k);
    SlotIs(s, (i - 1) / 2, k);
  }

  lemma NotIn(m: Image, s: seq<Timer>, b: Timer, k: int)
    requires Mirrors(m, s) && b !in m.links
    ensures At(s, k) != b
  {
    if 0 <= k < |s| { assert SlotOk(m, s, k); }
  }

  class Heap {
    var min: Timer?
    var nelts: nat
    ghost var m: Image
    ghost var slots: seq<Timer>

    ghost predicate Tied()
      reads this, m.links.Keys`left, m.links.Keys`right, m.links.Keys`parent
    {
      && min == m.min
      && (forall n :: n in m.links ==> Holds(n, m.links[n]))
    }

    /** A complete tree over `slots`. */
    ghost predicate Complete()
      reads this, m.links.Keys`left, m.links.Keys`right, m.links.Keys`parent
    {
      Tied() && nelts == |slots| && Mirrors(m, slots)
    }

    ghost predicate Valid()
      reads this, m.links.Keys`left, m.links.Keys`right, m.links.Keys`parent, slots`timeout, slots`startId
    {
      var keys := KeysOf(slots);
      Complete() && Ordered(keys)
    }

    /** heap_init */
    constructor ()
      ensures Valid() && slots == []
    {
      min, nelts := null, 0;
      m, slots := Image(null, map[]), [];
    }

    method SetLeft(n: Timer, x: Timer?)
      requires Tied() && n in m.links
      modifies this`m, n`left
      ensures Tied() && m == PutLeft(old(m), n, x)
    {
      n.left := x;
      m := PutLeft(m, n, x);
    }

    method SetRight(n: Timer, x: Timer?)
      requires Tied() && n in m.links
      modifies this`m, n`right
      ensures Tied() && m == PutRight(old(m), n, x)
    {
      n.right := x;
      m := PutRight(m, n, x);
    }

    method SetParent(n: Timer, x: Timer?)
      requires Tied() && n in m.links
      modifies this`m, n`parent
      ensures Tied() && m == PutParent(old(m), n, x)
    {
      n.parent := x;
      m := PutParent(m, n, x);
    }

    method SetMin(x: Timer?)
      requires Tied()
      modifies this`min, this`m
      ensures Tied() && m == old(m).(min := x)
    {
      min := x;
      m := m.(min := x);
    }

    method Cross(parent: Timer, child: Timer) returns (sibling: Timer?)
      requires Tied() && parent in m.links && child in m.links && parent != child
      modifies this`m, parent`left, parent`right, parent`parent, child`left, child`right, child`parent
      ensures Tied() && m == Crossed(old(m), parent, child) && m.links.Keys == old(m.links.Keys)
      ensures var l := old(m).links[parent]; sibling == if l.left == child then l.right else l.left
    {
      CrossedSteps(m, parent, child);
      Trade(parent, child);
      sibling := Under(parent, child);
    }

    /** `parent` hangs from `child` where `child` hung from it. */
    method Under(parent: Timer, child: Timer) returns (sibling: Timer?)
      requires Tied() && parent in m.links && child in m.links && parent != child
      modifies this`m, parent`parent, child`left, child`right
      ensures Tied() && m == CrossedUnder(old(m), parent, child)
      ensures var l := old(m).links[child]; sibling == if l.left == child then l.right else l.left
    {
      SetParent(parent, child);
      assert Holds(child, m.links[child]);
      if child.left == child {
        sibling := child.right;
        SetLeft(child, parent);
      } else {
        sibling := child.left;
        SetRight(child, parent);
      }
    }

    /** The exchange of the two structs. */
    method Trade(parent: Timer, child: Timer)
      requires Tied() && parent in m.links && child in m.links && parent != child
      modifies this`m, parent`left, parent`right, parent`parent, child`left, child`right, child`parent
      ensures Tied() && m == old(m).(links := Traded(old(m).links, parent, child))
    {
      assert Holds(parent, m.links[parent]) && Holds(child, m.links[child]);
      var t := (parent.left, parent.right, parent.parent);
      parent.left, parent.right, parent.parent := child.left, child.right, child.parent;
      child.left, child.right, child.parent := t.0, t.1, t.2;
      m := m.(links := Traded(m.links, parent, child));
    }

    method Reparent(parent: Timer, child: Timer, sibling: Timer?)
      requires Tied() && parent in m.links && child in m.links && (sibling != null ==> sibling in m.links)
      requires var l := m.links[parent].left; l != null ==> l in m.links && l != parent && l != sibling && l != child
      requires var r := m.links[parent].right; r != null ==> r in m.links && r != parent && r != sibling && r != child
      requires sibling != parent && sibling != child
      modifies this`m, m.links.Keys`parent
      ensures Tied() && m.links.Keys == old(m.links.Keys) && m.links[child] == old(m).links[child]
      ensures m == Reparented(old(m), parent, child, sibling, old(m).links[parent].left, old(m).links[parent].right)
    {
      if sibling != null { SetParent(sibling, child); }
      AdoptBelow(parent);
    }

    /** The children of `parent` point to it. */
    method AdoptBelow(parent: Timer)
      requires Tied() && parent in m.links
      requires var l := m.links[parent].left; l != null ==> l in m.links && l != parent
      requires var r := m.links[parent].right; r != null ==> r in m.links && r != parent
      modifies this`m, m.links.Keys`parent
      ensures Tied() && m.links.Keys == old(m.links.Keys)
      ensures var l := old(m).links[parent];
        m == PutParentOf(PutParentOf(old(m), l.left, parent), l.right, parent)
    {
      assert Holds(parent, m.links[parent]);
      if parent.left != null { SetParent(parent.left, parent); }
      assert Holds(parent, m.links[parent]);
      if parent.right != null { SetParent(parent.right, parent); }
    }

    method Top(parent: Timer, child: Timer)
      requires Tied() && child in m.links
      requires var gp := m.links[child].parent; gp != null ==> gp in m.links && gp != child
      modifies this`m, this`min, m.links.Keys`left, m.links.Keys`right
      ensures Tied() && m == Topped(old(m), parent, child, old(m).links[child].parent)
    {
      if child.parent == null {
        SetMin(child);
      } else if child.parent.left == parent {
        SetLeft(child.parent, child);
      } else {
        SetRight(child.parent, child);
      }
    }

    method SwapLinks(parent: Timer, child: Timer, ghost sib: Timer?, ghost cl: Timer?, ghost cr: Timer?,
      ghost gp: Timer?)
      requires Tied() && parent in m.links && child in m.links && parent != child
      requires sib == if m.links[parent].left == child then m.links[parent].right else m.links[parent].left
      requires m.links[child].left == cl && m.links[child].right == cr && m.links[parent].parent == gp
      requires sib != null ==> sib in m.links && sib != parent && sib != child
      requires cl != null ==> cl in m.links && cl != parent && cl != child && cl != sib
      requires cr != null ==> cr in m.links && cr != parent && cr != child && cr != sib
      requires gp != null ==> gp in m.links && gp != parent && gp != child
      modifies this`min, this`m, m.links.Keys`left, m.links.Keys`right, m.links.Keys`parent
      ensures Tied() && m == SwapSteps(old(m), parent, child, sib, cl, cr, gp)
    {
      var sibling := Cross(parent, child);
      Reparent(parent, child, sibling);
      Top(parent, child);
    }

    /** heap_node_swap: the nodes in slots `i` and `j`, parent and child, trade places. */
    method NodeSwap(parent: Timer, child: Timer, ghost i: int, ghost j: int)
      requires Complete() && 0 <= i < j < |slots| && (j - 1) / 2 == i
      requires slots[i] == parent && slots[j] == child
      modifies this`min, this`m, this`slots, m.links.Keys`left, m.links.Keys`right, m.links.Keys`parent
      ensures Complete() && slots == Swap(old(slots), i, j) && m.links.Keys == old(m.links.Keys)
    {
      ghost var h, s := m, slots;
      ghost var sib, cl, cr := At(s, 4 * i + 3 - j), At(s, 2 * j + 1), At(s, 2 * j + 2);
      ghost var gp := if i == 0 then null else At(s, (i - 1) / 2);
      AroundKnown(h, s, i, j, sib, cl, cr, gp);
      SwapLinks(parent, child, sib, cl, cr, gp);
      SwappedImage(h, s, i, j, sib, cl, cr, gp);
      ExchangedMirrors(h, s, i, j);
      slots := Swap(slots, i, j);
    }

    /** What the links of slot `i` are. */
    lemma LinksOf(i: int)
      requires Complete() && 0 <= i < |slots|
      ensures slots[i] in m.links && Holds(slots[i], LinksAt(slots, i))
    {
      assert SlotOk(m, slots, i);
    }

    /** heap_node_swap, with its effect on the sequence of keys. */
    method KeyedSwap(parent: Timer, child: Timer, ghost i: int, ghost j: int)
      requires Complete() && 0 <= i < j < |slots| && (j - 1) / 2 == i
      requires slots[i] == parent && slots[j] == child
      modifies this`min, this`m, this`slots, m.links.Keys`left, m.links.Keys`right, m.links.Keys`parent
      ensures Complete() && m.links.Keys == old(m.links.Keys) && |slots| == |old(slots)|
      ensures slots == Swap(old(slots), i, j)
      ensures KeysOf(slots) == Swap(old(KeysOf(slots)), j, i)
    {
      ghost var s, ks := slots, KeysOf(slots);
      NodeSwap(parent, child, i, j);
      SwapKeeps(s, i, j);
      assert KeysOf(s) == ks;
      SwappedKeys(s, i, j);
      assert Swap(ks, i, j) == Swap(ks, j, i);
    }

    method StepUp(parent: Timer, node: Timer, ghost c: int)
      requires Complete() && UpAt(KeysOf(slots), c) && c > 0 && slots[c] == node && slots[(c - 1) / 2] == parent
      requires Less(KeyOf(node), KeyOf(parent))
      modifies this`min, this`m, this`slots, m.links.Keys`left, m.links.Keys`right, m.links.Keys`parent
      ensures Complete() && m.links.Keys == old(m.links.Keys) && |slots| == |old(slots)|
      ensures UpAt(KeysOf(slots), (c - 1) / 2) && slots[(c - 1) / 2] == node
    {
      MovedUp(KeysOf(slots), c);
      KeyedSwap(parent, node, (c - 1) / 2, c);
    }

    /** The last loop of heap_insert and of heap_remove. */
    method SiftUp(node: Timer, ghost at: int)
      requires Complete() && UpAt(KeysOf(slots), at) && slots[at] == node
      modifies this`min, this`m, this`slots, m.links.Keys`left, m.links.Keys`right, m.links.Keys`parent
      ensures Complete() && Ordered(KeysOf(slots)) && |slots| == |old(slots)| && m.links.Keys == old(m.links.Keys)
    {
      ghost var c := at;
      LinksOf(c);
      while node.parent != null && Less(KeyOf(node), KeyOf(node.parent))
        invariant Complete() && UpAt(KeysOf(slots), c) && slots[c] == node
        invariant Holds(node, LinksAt(slots, c))
        invariant |slots| == |old(slots)| && m.links.Keys == old(m.links.Keys)
        decreases c
      {
        ghost var p := (c - 1) / 2;
        StepUp(node.parent, node, c);
        c := p;
        LinksOf(c);
      }
      StopsUp(KeysOf(slots), c);
    }

    /** One round of the downward loop: the smallest of a node and its children. */
    method Smallest(child: Timer, ghost c: int) returns (smallest: Timer, ghost j: int)
      requires Complete() && 0 <= c < |slots| && slots[c] == child
      ensures 0 <= j < |slots| && slots[j] == smallest && (j == c || ((j - 1) / 2 == c && j > 0))
      ensures j != c ==> Less(KeyOf(smallest), KeyOf(child))
      ensures j == c <==> smallest == child
      ensures forall k :: 1 <= k < |slots| && (k - 1) / 2 == c ==> !Less(KeyOf(slots[k]), KeyOf(smallest))
    {
      LinksOf(c);
      smallest, j := child, c;
      if child.left != null && Less(KeyOf(child.left), KeyOf(smallest)) {
        smallest, j := child.left, 2 * c + 1;
      }
      if child.right != null && Less(KeyOf(child.right), KeyOf(smallest)) {
        smallest, j := child.right, 2 * c + 2;
      }
    }

    method StepDown(child: Timer, smallest: Timer, ghost c: int, ghost j: int)
      requires Complete() && DownAt(KeysOf(slots), c) && slots[c] == child
      requires 0 < j < |slots| && (j - 1) / 2 == c && slots[j] == smallest && Less(KeyOf(smallest), KeyOf(child))
      requires forall k :: 1 <= k < |slots| && (k - 1) / 2 == c ==> !Less(KeyOf(slots[k]), KeyOf(smallest))
      modifies this`min, this`m, this`slots, m.links.Keys`left, m.links.Keys`right, m.links.Keys`parent
      ensures Complete() && m.links.Keys == old(m.links.Keys) && |slots| == |old(slots)|
      ensures DownAt(KeysOf(slots), j) && slots[j] == child
    {
      MovedDown(KeysOf(slots), c, j);
      KeyedSwap(child, smallest, c, j);
    }

    /** The downward loop of heap_remove. */
    method SiftDown(child: Timer, ghost at: int) returns (ghost c: int)
      requires Complete() && DownAt(KeysOf(slots), at) && slots[at] == child
      modifies this`min, this`m, this`slots, m.links.Keys`left, m.links.Keys`right, m.links.Keys`parent
      ensures Complete() && UpAt(KeysOf(slots), c) && slots[c] == child
      ensures |slots| == |old(slots)| && m.links.Keys == old(m.links.Keys)
    {
      c := at;
      while true
        invariant Complete() && DownAt(KeysOf(slots), c) && slots[c] == child
        invariant |slots| == |old(slots)| && m.links.Keys == old(m.links.Keys)
        decreases |slots| - c
      {
        var smallest;
        ghost var j;
        smallest, j := Smallest(child, c);
        if smallest == child {
          StopsDown(KeysOf(slots), c);
          break;
        }
        StepDown(child, smallest, c, j);
        c := j;
      }
    }

    /** Follows `path` from the root to slot `slot` and returns the node above that slot. */
    method Descend(slot: nat, path0: nat, k0: nat) returns (parent: Timer?, right: bool)
      requires Complete() && 1 <= slot <= |slots| + 1 && Walk(1, path0, k0) == slot
      ensures parent == if slot == 1 then null else At(slots, slot / 2 - 1)
      ensures slot > 1 ==> parent != null && right == (slot % 2 == 1)
    {
      var path, k := path0, k0;
      ghost var pos := 1;
      var child := min;
      parent, right := null, false;
      WalkGrows(1, path, k);
      while k > 0
        invariant 1 <= pos <= slot && Walk(pos, path, k) == slot && child == At(slots, pos - 1)
        invariant parent == if pos == 1 then null else At(slots, pos / 2 - 1)
        invariant pos > 1 ==> parent != null && right == (pos % 2 == 1)
      {
        WalkPasses(pos, path, k);
        LinksOf(pos - 1);
        parent := child;
        right := path % 2 == 1;
        child := if right then parent.right else parent.left;
        pos := 2 * pos + path % 2;
        path, k := path / 2, k - 1;
        WalkGrows(pos, path, k);
        AtLeastOne(pos, k);
      }
    }

    /** Links `newnode` into the first free slot. */
    method Append(newnode: Timer, parent: Timer?, right: bool)
      requires Complete() && newnode !in m.links
      requires parent == (if slots == [] then null else At(slots, (|slots| - 1) / 2))
      requires slots != [] ==> right == (|slots| % 2 == 0)
      modifies this, m.links.Keys`left, m.links.Keys`right, newnode`left, newnode`right, newnode`parent
      ensures Complete() && slots == old(slots) + [newnode] && m.links.Keys == old(m.links.Keys) + {newnode}
    {
      ghost var h, s := m, slots;
      ghost var r := |s| % 2 == 0;
      AppendedMirrors(h, s, newnode, parent, r);
      newnode.left, newnode.right := null, null;
      newnode.parent := parent;
      if parent == null {
        SetMin(newnode);
      } else if right {
        SetRight(parent, newnode);
      } else {
        SetLeft(parent, newnode);
      }
      Retie(Appended(h, newnode, parent, r), newnode);
      nelts := nelts + 1;
      slots := s + [newnode];
    }

    /** The first half of heap_insert. */
    method AppendLast(newnode: Timer)
      requires Complete() && newnode !in m.links && nelts < 0xFFFF_FFFF
      modifies this, m.links.Keys`left, m.links.Keys`right, newnode`left, newnode`right, newnode`parent
      ensures Complete() && slots == old(slots) + [newnode] && m.links.Keys == old(m.links.Keys) + {newnode}
    {
      var path, k := PathTo(nelts + 1);
      var parent, right := Descend(nelts + 1, path, k);
      Append(newnode, parent, right);
    }

    /** heap_insert */
    method Insert(newnode: Timer)
      requires Valid() && newnode !in m.links && nelts < 0xFFFF_FFFF
      modifies this, m.links.Keys`left, m.links.Keys`right, m.links.Keys`parent
      modifies newnode`left, newnode`right, newnode`parent
      ensures Valid() && nelts == old(nelts) + 1 && m.links.Keys == old(m.links.Keys) + {newnode}
    {
      ghost var ks := KeysOf(slots);
      AppendLast(newnode);
      AppendUp(ks, KeyOf(newnode));
      assert KeysOf(slots) == ks + [KeyOf(newnode)];
      SiftUp(newnode, |slots| - 1);
    }

    /** Empties the last slot. */
    method ClearLast(parent: Timer?, right: bool) returns (child: Timer)
      requires Complete() && slots != []
      requires parent == (if |slots| == 1 then null else At(slots, (|slots| - 2) / 2))
      requires |slots| > 1 ==> right == (|slots| % 2 == 1)
      modifies this`m, this`min, m.links.Keys`left, m.links.Keys`right
      ensures Tied() && child == slots[|slots| - 1] && (parent != null ==> parent in old(m).links)
      ensures m == Cleared(old(m), parent, |slots| % 2 == 1)
    {
      LinksOf(|slots| - 1);
      if parent != null { LinksOf((|slots| - 2) / 2); }
      if parent == null {
        child := min;
        SetMin(null);
      } else if right {
        child := parent.right;
        SetRight(parent, null);
      } else {
        child := parent.left;
        SetLeft(parent, null);
      }
    }

    /** Takes the last node out of the tree. */
    method UnlinkLast(parent: Timer?, right: bool) returns (child: Timer)
      requires Complete() && slots != []
      requires parent == (if |slots| == 1 then null else At(slots, (|slots| - 2) / 2))
      requires |slots| > 1 ==> right == (|slots| % 2 == 1)
      modifies this, m.links.Keys`left, m.links.Keys`right
      ensures Complete() && slots == old(slots)[..|old(slots)| - 1] && child == old(slots)[|old(slots)| - 1]
      ensures m.links.Keys == old(m.links.Keys) - {child} && child in old(m.links.Keys)
    {
      ghost var h, s := m, slots;
      ghost var r := |s| % 2 == 1;
      UnlinkedMirrors(h, s, parent, r);
      LinksOf(|s| - 1);
      child := ClearLast(parent, right);
      ghost var h' := Unlinked(h, child, parent, r);
      Restrict(h');
      assert Mirrors(h', s[..|s| - 1]);
      nelts := nelts - 1;
      slots := s[..|s| - 1];
    }

    /** `child`, which is not in the tree, takes the place of `node` in slot `i`. */
    method Replace(node: Timer, child: Timer, ghost i: int)
      requires Complete() && 0 <= i < |slots| && slots[i] == node && child !in m.links
      modifies this, m.links.Keys`left, m.links.Keys`right, m.links.Keys`parent
      modifies child`left, child`right, child`parent
      ensures Complete() && slots == old(slots)[i := child] && m.links.Keys == old(m.links.Keys) - {node} + {child}
    {
      ghost var h, s := m, slots;
      Rename(node, child, i);
      RenamedMirrors(h, s, i, child);
      slots := s[i := child];
    }

    method Rename(node: Timer, child: Timer, ghost i: int)
      requires Tied() && Mirrors(m, slots) && 0 <= i < |slots| && slots[i] == node && child !in m.links
      modifies this`m, this`min, m.links.Keys`left, m.links.Keys`right, m.links.Keys`parent
      modifies child`left, child`right, child`parent
      ensures node in old(m).links
      ensures Tied() && m == Renamed(old(m), node, child) && m.links.Keys == old(m.links.Keys) - {node} + {child}
    {
      ghost var h := m;
      NeighboursKnown(h, slots, i);
      Adopt(node, child);
      RenamedSame(h, slots, i, child);
      Retie(Renamed(h, node, child), child);
    }

    /** `child` copies the links of `node`; the neighbours of `node` now point to `child`. */
    method Adopt(node: Timer, child: Timer)
      requires Tied() && node in m.links && child !in m.links
      requires var l := m.links[node];
        && (l.left != null ==> l.left in m.links && l.left != node && l.left != l.right)
        && (l.right != null ==> l.right in m.links && l.right != node)
        && (l.parent != null ==> l.parent in m.links && l.parent != node && l.parent != l.left && l.parent != l.right)
      modifies this`m, this`min, m.links.Keys`left, m.links.Keys`right, m.links.Keys`parent
      modifies child`left, child`right, child`parent
      ensures Tied() && m == RenameSteps(old(m), node, child) && Holds(child, old(m).links[node])
      ensures m.links.Keys == old(m.links.Keys)
    {
      child.left := node.left;
      child.right := node.right;
      child.parent := node.parent;
      if child.left != null { SetParent(child.left, child); }
      if child.right != null { SetParent(child.right, child); }
      if node.parent == null {
        SetMin(child);
      } else if node.parent.left == node {
        SetLeft(node.parent, child);
      } else {
        SetRight(node.parent, child);
      }
    }

    ghost method Restrict(h: Image)
      requires Tied() && m.min == h.min && forall n :: n in h.links ==> n in m.links && m.links[n] == h.links[n]
      modifies this`m
      ensures Tied() && m == h
    {
      m := h;
    }

    ghost method Retie(h: Image, child: Timer)
      requires Tied() && m.min == h.min && child in h.links && Holds(child, h.links[child])
      requires forall n :: n in h.links && n != child ==> n in m.links && m.links[n] == h.links[n]
      modifies this`m
      ensures Tied() && m == h
    {
      m := h;
    }

    /** The first half of heap_remove. */
    method TakeLast() returns (child: Timer)
      requires Complete() && slots != [] && nelts < 0x1_0000_0000
      modifies this, m.links.Keys`left, m.links.Keys`right
      ensures Complete() && slots == old(slots)[..|old(slots)| - 1] && child == old(slots)[|old(slots)| - 1]
      ensures m.links.Keys == old(m.links.Keys) - {child} && child in old(m.links.Keys)
      ensures KeysOf(slots) == old(KeysOf(slots))[..|slots|] && KeyOf(child) == old(KeysOf(slots))[|slots|]
    {
      var path, k := PathTo(nelts);
      var parent, right := Descend(nelts, path, k);
      child := UnlinkLast(parent, right);
    }

    /** The two loops of heap_remove. */
    method Settle(child: Timer, ghost i: int)
      requires Complete() && DownAt(KeysOf(slots), i) && slots[i] == child
      modifies this`min, this`m, this`slots, m.links.Keys`left, m.links.Keys`right, m.links.Keys`parent
      ensures Complete() && Ordered(KeysOf(slots)) && |slots| == |old(slots)| && m.links.Keys == old(m.links.Keys)
    {
      ghost var c := SiftDown(child, i);
      SiftUp(child, c);
    }

    method KeyedReplace(node: Timer, child: Timer, ghost i: int)
      requires Complete() && 0 <= i < |slots| && slots[i] == node && child !in m.links
      modifies this, m.links.Keys`left, m.links.Keys`right, m.links.Keys`parent
      modifies child`left, child`right, child`parent
      ensures Complete() && slots == old(slots)[i := child] && m.links.Keys == old(m.links.Keys) - {node} + {child}
      ensures KeysOf(slots) == old(KeysOf(slots))[i := old(KeyOf(child))]
    {
      Replace(node, child, i);
    }

    /** The second half of heap_remove: the unlinked `child` replaces `node`. */
    method Refill(node: Timer, child: Timer, ghost i: int)
      requires Complete() && 0 <= i < |slots| && slots[i] == node && child !in m.links
      requires DownAt(KeysOf(slots)[i := KeyOf(child)], i)
      modifies this, m.links.Keys`left, m.links.Keys`right, m.links.Keys`parent
      modifies child`left, child`right, child`parent
      ensures Valid() && nelts == old(nelts) && m.links.Keys == old(m.links.Keys) - {node} + {child}
    {
      KeyedReplace(node, child, i);
      Settle(child, i);
    }

    /** heap_remove */
    method Remove(node: Timer)
      requires Valid() && node in m.links && nelts < 0x1_0000_0000
      modifies this, m.links.Keys`left, m.links.Keys`right, m.links.Keys`parent
      ensures Valid() && nelts == old(nelts) - 1 && m.links.Keys == old(m.links.Keys) - {node}
    {
      ghost var s, ks := slots, KeysOf(slots);
      ghost var i :| 0 <= i < |s| && s[i] == node;
      var child := TakeLast();
      if child == node {
        Shorter(ks);
      } else {
        ReplaceDown(ks, i);
        Refill(node, child, i);
        KeysBack(old(m.links.Keys), node, child);
      }
    }

    /** heap_dequeue */
    method Dequeue()
      requires Valid() && nelts < 0x1_0000_0000
      modifies this, m.links.Keys`left, m.links.Keys`right, m.links.Keys`parent
      ensures Valid() && m.links.Keys == if old(min) == null then {} else old(m.links.Keys) - {old(min)}
    {
      if nelts == 0 {
        return;
      }
      assert SlotOk(m, slots, 0);
      Remove(min);
    }

    lemma SlotKnown(t: Timer)
      requires Complete() && t in slots
      ensures t in m.links
    {
      var i :| 0 <= i < |slots| && slots[i] == t;
      assert SlotOk(m, slots, i);
    }

    lemma RootKnown()
      requires Complete() && min != null
      ensures min in m.links
    {
      assert SlotOk(m, slots, 0);
    }

    lemma EmptyKnown()
      requires Complete() && min == null
      ensures m.links.Keys == {}
    {
    }

    /** The root of the tree has the least key. */
    lemma MinIsLeast(t: Timer)
      requires Valid() && t in m.links
      ensures min != null && min in m.links && !Less(KeyOf(t), KeyOf(min))
      ensures min.timeout < t.timeout || (min.timeout == t.timeout && min.startId <= t.startId)
    {
      var i :| 0 <= i < |slots| && slots[i] == t;
      FirstIsLeast(KeysOf(slots), i);
      assert SlotOk(m, slots, 0);
    }
  }

  lemma AtLeastOne(p: nat, k: nat)
    ensures p * Pow2(k) >= p
  {
    if k > 0 { AtLeastTwo(p, k); }
  }

  lemma Shorter(ks: seq<Key>)
    requires Ordered(ks) && ks != []
    ensures Ordered(ks[..|ks| - 1])
  {
    var t := ks[..|ks| - 1];
    forall i | 1 <= i < |t| ensures Edge(t, i) { assert Edge(ks, i); }
  }

  lemma KeysBack(keys: set<Timer>, node: Timer, child: Timer)
    requires child in keys && child != node
    ensures keys - {child} - {node} + {child} == keys - {node}
  {
  }

  lemma RenamedSame(m: Image, s: seq<Timer>, i: int, b: Timer)
    requires Mirrors(m, s) && 0 <= i < |s| && b !in m.links && SlotOk(m, s, i)
    requires var l := m.links[s[i]];
      (l.left != null ==> l.left in m.links) && (l.right != null ==> l.right in m.links) &&
        (l.parent != null ==> l.parent in m.links)
    ensures var m1, m' := RenameSteps(m, s[i], b), Renamed(m, s[i], b);
      && m1.min == m'.min && m'.links.Keys == m.links.Keys - {s[i]} + {b}
      && (forall n :: n in m'.links && n != b ==> n in m1.links && m1.links[n] == m'.links[n])
  {
    NeighboursKnown(m, s, i);
    var m1, m' := RenameSteps(m, s[i], b), Renamed(m, s[i], b);
    forall n | n in m'.links && n != b ensures n in m1.links && m1.links[n] == m'.links[n] {
      var k :| 0 <= k < |s| && s[k] == n;
      RenamedStepsAt(m, s, i, b, k);
    }
    SlotIs(s, 0, i);
    NotIn(m, s, b, 0);
  }

  lemma SwappedKeys(s: seq<Timer>, i: int, j: int)
    requires 0 <= i < |s| && 0 <= j < |s|
    ensures KeysOf(Swap(s, i, j)) == Swap(KeysOf(s), i, j)
  {
    var a, b, t := KeysOf(Swap(s, i, j)), Swap(KeysOf(s), i, j), Swap(s, i, j);
    forall k | 0 <= k < |s| ensures a[k] == b[k] {
      assert a[k] == KeyOf(t[k]);
      assert t[k] == if k == j then s[i] else if k == i then s[j] else s[k];
    }
  }
}
