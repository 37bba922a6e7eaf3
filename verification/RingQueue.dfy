/** The intrusive ring queue of third/libuv/src/queue.h: a head node and its elements on one cycle.
    Every macro is a method, with the sequence of elements as a ghost argument. */
module RingQueue {
  import opened Common

  class Node {
    var next: Node?
    var prev: Node?

    constructor ()
      ensures next == null && prev == null
    {
      next, prev := null, null;
    }
  }

  ghost predicate Link(a: Node, b: Node)
    reads a, b
  {
    a.next == b && b.prev == a
  }

  /** Once around the ring, from the head back to the head. */
  ghost function Path(h: Node, s: seq<Node>): seq<Node> { [h] + s + [h] }

  ghost predicate Distinct(h: Node, s: seq<Node>) {
    && h !in s
    && forall i, j :: 0 <= i < j < |s| ==> s[i] != s[j]
  }

  /** `h` is the head of the ring of exactly the elements `s`, in this order; next and prev are each
      other's inverse. */
  ghost predicate Ring(h: Node, s: seq<Node>)
    reads h, s
  {
    && Distinct(h, s)
    && forall i {:trigger Path(h, s)[i]} :: 0 <= i <= |s| ==> Link(Path(h, s)[i], Path(h, s)[i + 1])
  }

  ghost function Last(h: Node, s: seq<Node>): Node { if s == [] then h else s[|s| - 1] }

  ghost function First(h: Node, s: seq<Node>): Node { if s == [] then h else s[0] }

  /** The neighbours of the head, and of an element. */
  lemma Ends(h: Node, s: seq<Node>)
    requires Ring(h, s)
    ensures Link(Last(h, s), h) && Link(h, First(h, s))
  {
    var p := Path(h, s);
    assert p[|s|] == Last(h, s) && p[|s| + 1] == h && p[0] == h && p[1] == First(h, s);
  }

  lemma Beside(h: Node, s: seq<Node>, k: nat)
    requires Ring(h, s) && k < |s|
    ensures Link(Last(h, s[..k]), s[k]) && Link(s[k], First(h, s[k + 1..]))
  {
    var p := Path(h, s);
    assert p[k] == Last(h, s[..k]) && p[k + 1] == s[k] && p[k + 2] == First(h, s[k + 1..]);
  }

  /** A chain of links between two nodes; its inner links do not depend on the end nodes. */
  ghost predicate Chain(a: Node, s: seq<Node>, b: Node)
    reads a, s, b
  {
    && Link(a, if s == [] then b else s[0])
    && (s != [] ==> Link(s[|s| - 1], b))
    && Inner(s)
  }

  ghost predicate Inner(s: seq<Node>)
    reads s
  {
    forall i :: 0 <= i < |s| - 1 ==> Link(s[i], s[i + 1])
  }

  lemma RingIsChain(h: Node, s: seq<Node>)
    ensures Ring(h, s) <==> Distinct(h, s) && Chain(h, s, h)
  {
    var p := Path(h, s);
    if Ring(h, s) {
      Ends(h, s);
      forall i | 0 <= i < |s| - 1 ensures Link(s[i], s[i + 1]) { assert p[i + 1] == s[i] && p[i + 2] == s[i + 1]; }
    }
    if Distinct(h, s) && Chain(h, s, h) {
      forall i | 0 <= i <= |s| ensures Link(p[i], p[i + 1]) {
        if 0 < i < |s| { assert p[i] == s[i - 1] && p[i + 1] == s[i]; }
      }
    }
  }

  /** A head has one sequence of elements: the ring is a single cycle. */
  lemma {:induction false} OneCycle(h: Node, s: seq<Node>, t: seq<Node>, k: nat)
    requires Ring(h, s) && Ring(h, t) && k <= |s|
    ensures k <= |t| && s[..k] == t[..k]
    decreases k
  {
    if k > 0 {
      OneCycle(h, s, t, k - 1);
      Beside(h, s, k - 1);
      assert Last(h, s[..k - 1]).next == s[k - 1];
      if k - 1 == |t| {
        Ends(h, t);
        assert false;
      } else {
        Beside(h, t, k - 1);
      }
    }
  }

  lemma SameElements(h: Node, s: seq<Node>, t: seq<Node>)
    requires Ring(h, s) && Ring(h, t)
    ensures s == t
  {
    OneCycle(h, s, t, |s|);
    OneCycle(h, t, s, |t|);
  }

  /** QUEUE_INIT */
  method Init(q: Node)
    modifies q
    ensures Ring(q, [])
  {
    q.next := q;
    q.prev := q;
    RingIsChain(q, []);
  }

  ghost predicate Alone(q: Node)
    reads q
  {
    q.next == q
  }

  /** An element of a ring is not alone, and a head only if its ring has no elements. */
  lemma AloneInRing(h: Node, s: seq<Node>)
    requires Ring(h, s)
    ensures (Alone(h) <==> s == []) && forall q :: q in s ==> !Alone(q)
  {
    Ends(h, s);
    forall q | q in s ensures !Alone(q) {
      var k: nat :| k < |s| && s[k] == q;
      Beside(h, s, k);
    }
  }

  /** QUEUE_EMPTY, on any node: it says whether a head has elements, and of a node that is in no queue
      whether QUEUE_INIT came after its last QUEUE_REMOVE. */
  method Empty(q: Node) returns (r: bool)
    ensures r <==> Alone(q)
    ensures forall s :: Ring(q, s) ==> (r <==> s == [])
  {
    r := q == q.next;
    forall s | Ring(q, s) ensures r <==> s == [] { AloneInRing(q, s); }
  }

  /** QUEUE_HEAD */
  method Head(h: Node, ghost s: seq<Node>) returns (r: Node)
    requires Ring(h, s)
    ensures r == First(h, s)
  {
    Ends(h, s);
    r := h.next;
  }

  /** QUEUE_FOREACH */
  method Elements(h: Node, ghost s: seq<Node>) returns (r: seq<Node>)
    requires Ring(h, s)
    ensures r == s
  {
    r := [];
    Ends(h, s);
    var q: Node := h.next;
    while q != h
      invariant |r| <= |s| && r == s[..|r|] && q == First(h, s[|r|..])
      decreases |s| - |r|
    {
      Beside(h, s, |r|);
      r := r + [q];
      q := q.next;
    }
  }

  /** QUEUE_INSERT_TAIL */
  method InsertTail(h: Node, q: Node, ghost s: seq<Node>)
    requires Ring(h, s) && q != h && q !in s
    modifies h, q, h.prev
    ensures Ring(h, s + [q])
  {
    Ends(h, s);
    RingIsChain(h, s);
    q.next := h;
    q.prev := h.prev;
    q.prev.next := q;
    h.prev := q;
    RingIsChain(h, s + [q]);
  }

  /** QUEUE_INSERT_TAIL of the same node twice: the node follows itself, and an iteration over the
      queue does not end. */
  method InsertTwice(h: Node, q: Node, ghost s: seq<Node>)
    requires Ring(h, s) && q != h && q !in s
    modifies h, q, h.prev
    ensures q.next == q && forall t :: !Ring(h, t)
  {
    InsertTail(h, q, s);
    Ends(h, s + [q]);
    q.next := h;
    q.prev := h.prev;
    q.prev.next := q;
    h.prev := q;
    forall t ensures !Ring(h, t) {
      if Ring(h, t) {
        Ends(h, t);
        AloneInRing(h, t);
      }
    }
  }

  /** QUEUE_INSERT_HEAD */
  method InsertHead(h: Node, q: Node, ghost s: seq<Node>)
    requires Ring(h, s) && q != h && q !in s
    modifies h, q, h.next
    ensures Ring(h, [q] + s)
  {
    Ends(h, s);
    RingIsChain(h, s);
    q.next := h.next;
    q.prev := h;
    q.next.prev := q;
    h.next := q;
    RingIsChain(h, [q] + s);
  }

  /** QUEUE_REMOVE: the links of the removed node stay as they were. */
  method Remove(q: Node, ghost h: Node, ghost s: seq<Node>, ghost k: nat)
    requires Ring(h, s) && k < |s| && s[k] == q
    modifies q.prev, q.next
    ensures Ring(h, s[..k] + s[k + 1..])
    ensures q.next == old(q.next) && q.prev == old(q.prev)
  {
    Beside(h, s, k);
    Ends(h, s);
    RingIsChain(h, s);
    q.prev.next := q.next;
    q.next.prev := q.prev;
    assert Inner(s[..k]) && Inner(s[k + 1..]);
    Joined(h, s[..k], s[k + 1..]);
    RingIsChain(h, s[..k] + s[k + 1..]);
  }

  ghost predicate OnRing(h: Node, s: seq<Node>, q: Node) { q == h || q in s }

  /** The neighbours that a node has on the ring, whatever its links say. */
  ghost function After(h: Node, s: seq<Node>, q: Node): Node
    requires OnRing(h, s, q)
  {
    if q == h then First(h, s) else var k: nat :| k < |s| && s[k] == q; First(h, s[k + 1..])
  }

  ghost function Before(h: Node, s: seq<Node>, q: Node): Node
    requires OnRing(h, s, q)
  {
    if q == h then Last(h, s) else var k: nat :| k < |s| && s[k] == q; Last(h, s[..k])
  }

  lemma Neighbours(h: Node, s: seq<Node>, q: Node)
    requires OnRing(h, s, q)
    ensures Ring(h, s) ==> q.next == After(h, s, q) && q.prev == Before(h, s, q)
  {
    if Ring(h, s) {
      if q == h {
        Ends(h, s);
      } else {
        var i: nat :| i < |s| && s[i] == q && After(h, s, q) == First(h, s[i + 1..]);
        Beside(h, s, i);
        var j: nat :| j < |s| && s[j] == q && Before(h, s, q) == Last(h, s[..j]);
        Beside(h, s, j);
      }
    }
  }

  /** QUEUE_REMOVE on the links that an earlier QUEUE_REMOVE left in the node: a queue survives it if
      and only if those of the old neighbours that are in it still have the old link. */
  method RemoveAgain(q: Node, ghost h: Node, ghost s: seq<Node>)
    requires Ring(h, s) && q.prev != null && q.next != null
    modifies q.prev, q.next
    ensures Ring(h, s) <==>
      old((OnRing(h, s, q.prev) ==> q.prev.next == q.next) && (OnRing(h, s, q.next) ==> q.next.prev == q.prev))
  {
    ghost var a, b := q.prev, q.next;
    if OnRing(h, s, a) { Neighbours(h, s, a); }
    if OnRing(h, s, b) { Neighbours(h, s, b); }
    q.prev.next := q.next;
    q.next.prev := q.prev;
    if OnRing(h, s, a) { Neighbours(h, s, a); }
    if OnRing(h, s, b) { Neighbours(h, s, b); }
  }

  /** Two queues without a common node. */
  ghost predicate Apart(h: Node, s: seq<Node>, n: Node, t: seq<Node>) {
    h != n && n !in s && h !in t && forall x :: x in s ==> x !in t
  }

  lemma Together(h: Node, s: seq<Node>, n: Node, t: seq<Node>)
    requires Distinct(h, s) && Distinct(n, t) && Apart(h, s, n, t)
    ensures Distinct(h, s + t)
  {
    var c := s + t;
    forall i, j | 0 <= i < j < |c| ensures c[i] != c[j] {
      if i < |s| <= j { assert s[i] in s && t[j - |s|] in t; }
    }
  }

  /** Two chains joined at their ends. */
  lemma Joined(h: Node, s: seq<Node>, t: seq<Node>)
    requires Inner(s) && Inner(t)
    requires Link(h, First(h, s + t)) && Link(Last(h, s + t), h) && (s != [] && t != [] ==> Link(s[|s| - 1], t[0]))
    ensures Chain(h, s + t, h)
  {
    var c := s + t;
    forall i | 0 <= i < |c| - 1 ensures Link(c[i], c[i + 1]) {
      if i == |s| - 1 { assert c[i] == s[|s| - 1] && c[i + 1] == t[0]; }
    }
  }

  /** QUEUE_ADD */
  method Add(h: Node, n: Node, ghost s: seq<Node>, ghost t: seq<Node>)
    requires Ring(h, s) && Ring(n, t) && Apart(h, s, n, t)
    modifies h, n, h.prev, n.next, n.prev
    ensures Ring(h, s + t)
  {
    Ends(h, s);
    Ends(n, t);
    Together(h, s, n, t);
    RingIsChain(h, s);
    RingIsChain(n, t);
    h.prev.next := n.next;
    n.next.prev := h.prev;
    h.prev := n.prev;
    h.prev.next := h;
    assert Inner(s) && Inner(t);
    Joined(h, s, t);
    RingIsChain(h, s + t);
  }

  /** QUEUE_SPLIT */
  method Split(h: Node, q: Node, n: Node, ghost s: seq<Node>, ghost k: nat)
    requires Ring(h, s) && k < |s| && s[k] == q && n != h && n !in s
    modifies h, n, q, h.prev, q.prev
    ensures Ring(h, s[..k]) && Ring(n, s[k..])
  {
    Beside(h, s, k);
    Ends(h, s);
    RingIsChain(h, s);
    n.prev := h.prev;
    n.prev.next := n;
    n.next := q;
    h.prev := q.prev;
    h.prev.next := h;
    q.prev := n;
    RingIsChain(h, s[..k]);
    RingIsChain(n, s[k..]);
  }

  /** QUEUE_MOVE */
  method Move(h: Node, n: Node, ghost s: seq<Node>)
    requires Ring(h, s) && n != h && n !in s
    modifies h, n, h.prev, h.next
    ensures Ring(h, []) && Ring(n, s)
  {
    AloneInRing(h, s);
    var empty := Empty(h);
    if empty {
      Init(n);
    } else {
      Ends(h, s);
      var q := Head(h, s);
      Split(h, q, n, s, 0);
      assert s[..0] == [] && s[0..] == s;
    }
  }

  // ----- two overlapping calls of uv__work_cancel

  ghost function Nodes(h: Node, s: seq<Node>): set<Node> { {h} + set x | x in s }

  /** QUEUE_REMOVE: the node keeps the links to its neighbours, and these are linked to each other. */
  method CutOut(w: Node, ghost g: Node, ghost s: seq<Node>, ghost k: nat)
    requires Ring(g, s) && k < |s| && s[k] == w
    modifies Nodes(g, s)
    ensures Ring(g, RemoveAt(s, k)) && !Alone(w)
    ensures w.prev != null && w.next != null && Link(w.prev, w.next) && {w.prev, w.next} <= Nodes(g, s)
  {
    Beside(g, s, k);
    AloneInRing(g, s);
    ghost var a, b := Last(g, s[..k]), First(g, s[k + 1..]);
    assert a in Nodes(g, s) && b in Nodes(g, s);
    Remove(w, g, s, k);
    ghost var p := Path(g, RemoveAt(s, k));
    assert p[k] == a && p[k + 1] == b && Link(p[k], p[k + 1]);
  }

  /** QUEUE_HEAD and QUEUE_REMOVE */
  method TakeFirst(h: Node, ghost s: seq<Node>) returns (q: Node)
    requires Ring(h, s) && s != []
    modifies Nodes(h, s)
    ensures Ring(h, s[1..]) && q == s[0]
  {
    q := Head(h, s);
    CutOut(q, h, s, 0);
    assert RemoveAt(s, 0) == s[1..];
  }

  /** A pass of uv__work_done: the queue is moved to the local one, whose nodes are removed and
      reported one by one. */
  method Pass(h: Node, n: Node, ghost s: seq<Node>) returns (reported: seq<Node>)
    requires Ring(h, s) && n != h && n !in s
    modifies n, Nodes(h, s)
    ensures Ring(h, []) && Ring(n, []) && reported == s
  {
    Ends(h, s);
    Move(h, n, s);
    reported := [];
    ghost var i := 0;
    assert s[0..] == s;
    AloneInRing(n, s[i..]);
    var empty := Empty(n);
    while !empty
      invariant i <= |s| && reported == s[..i] && Ring(h, []) && Ring(n, s[i..]) && (empty <==> i == |s|)
      decreases |s| - i
    {
      var q := TakeFirst(n, s[i..]);
      assert s[i..][1..] == s[i + 1..];
      reported, i := reported + [q], i + 1;
      AloneInRing(n, s[i..]);
      empty := Empty(n);
    }
  }

  /** The first locked regions of two calls, one after the other: both pass the test on the node. */
  method TestedTwice(w: Node, g: Node, ghost s: seq<Node>, ghost k: nat) returns (linked: bool)
    requires Ring(g, s) && k < |s| && s[k] == w
    modifies Nodes(g, s)
    ensures linked && Ring(g, RemoveAt(s, k))
  {
    CutOut(w, g, s, k);
    var alone := Empty(w);
    linked := !alone;
    RemoveAgain(w, g, RemoveAt(s, k));
  }

  /** The second locked region of a call, then a pass. */
  method EndThenPass(w: Node, l: Node, n: Node, ghost t: seq<Node>) returns (reported: seq<Node>)
    requires Ring(l, t) && w != l && w !in t && n != l && n !in t && n != w
    modifies w, n, Nodes(l, t)
    ensures Ring(l, []) && Ring(n, []) && reported == t + [w]
  {
    Ends(l, t);
    InsertTail(l, w, t);
    reported := Pass(l, n, t + [w]);
  }

  lemma WithoutOne(h: Node, s: seq<Node>, k: nat)
    requires Distinct(h, s) && k < |s|
    ensures Nodes(h, RemoveAt(s, k)) == Nodes(h, s) - {s[k]}
  {
    var u := RemoveAt(s, k);
    forall x | x in s && x != s[k] ensures x in u {
      var i: nat :| i < |s| && s[i] == x;
      assert x == if i < k then u[i] else u[i - 1];
    }
  }

  /** Two calls of uv__work_cancel, with a pass of uv__work_done between their second locked regions:
      every queue stays a ring, and the node is reported twice. */
  method CancelTwice(w: Node, g: Node, l: Node, n: Node, ghost s: seq<Node>, ghost k: nat, ghost t: seq<Node>)
      returns (linked: bool, first: seq<Node>, second: seq<Node>)
    requires Ring(g, s) && Ring(l, t) && Apart(g, s, l, t) && k < |s| && s[k] == w
    requires n != g && n != l && n !in s && n !in t
    modifies n, Nodes(g, s), Nodes(l, t)
    ensures linked && Ring(g, RemoveAt(s, k)) && Ring(l, []) && Ring(n, [])
    ensures first == t + [w] && second == [w]
  {
    linked := TestedTwice(w, g, s, k);
    WithoutOne(g, s, k);
    first := EndThenPass(w, l, n, t);
    second := EndThenPass(w, l, n, []);
  }

  // ----- several queues

  /** The elements of each head. */
  type Queues = map<Node, seq<Node>>

  ghost function Footprint(rs: Queues): set<Node> { rs.Keys + (set h, x | h in rs && x in rs[h] :: x) }

  /** No node is in two queues. */
  ghost predicate Separate(rs: Queues) {
    forall h, k :: h in rs && k in rs && h != k ==> Apart(h, rs[h], k, rs[k])
  }

  ghost predicate AllRings(rs: Queues)
    reads Footprint(rs)
  {
    var heads := rs.Keys;
    Separate(rs) && forall h {:trigger RingIn(rs, h)} :: h in heads ==> RingIn(rs, h)
  }

  ghost predicate RingIn(rs: Queues, h: Node)
    requires h in rs
    reads Footprint(rs)
  {
    Covers(rs, h);
    Ring(h, rs[h])
  }

  lemma Covers(rs: Queues, h: Node)
    requires h in rs
    ensures h in Footprint(rs) && forall x :: x in rs[h] ==> x in Footprint(rs)
  {
  }

  /** A queue whose nodes are the same or come from outside. */
  lemma StillSeparate(rs: Queues, h: Node, s: seq<Node>, q: Node)
    requires Separate(rs) && h in rs && (forall x :: x in s ==> x in rs[h] || (x == q && q !in Footprint(rs)))
    ensures Separate(rs[h := s])
  {
    forall k | k in rs && k != h ensures Apart(h, s, k, rs[k]) && Apart(k, rs[k], h, s) {
      Covers(rs, k);
      assert Apart(h, rs[h], k, rs[k]);
    }
  }

  lemma NewRing(rs: Queues, h: Node)
    requires AllRings(rs) && h !in Footprint(rs) && Ring(h, [])
    ensures AllRings(rs[h := []])
  {
    var rs' := rs[h := []];
    forall k | k in rs ensures k != h && h !in rs[k] { Covers(rs, k); }
    forall k | k in rs' ensures RingIn(rs', k) { assert k in rs ==> RingIn(rs, k); }
  }

  /** QUEUE_INSERT_TAIL of a node that is in no queue. */
  method Enqueue(h: Node, q: Node, ghost rs: Queues, ghost all: set<Node>)
    requires AllRings(rs) && h in rs && q !in Footprint(rs)
    modifies h, q, h.prev
    ensures AllRings(rs[h := rs[h] + [q]]) && !Alone(q)
    ensures forall n :: n in all && n !in rs && n != q ==> (Alone(n) <==> old(Alone(n)))
  {
    ghost var s, last := rs[h], Last(h, rs[h]);
    assert RingIn(rs, h);
    Covers(rs, h);
    Ends(h, s);
    AloneInRing(h, s);
    InsertTail(h, q, s);
    AloneInRing(h, s + [q]);
    assert q in s + [q] && forall n :: n in s ==> n in s + [q];
    ghost var rs' := rs[h := s + [q]];
    StillSeparate(rs, h, s + [q], q);
    forall k | k in rs && k != h ensures Ring(k, rs[k]) {
      Covers(rs, k);
      assert Apart(h, s, k, rs[k]) && last != k && last !in rs[k];
      assert old(RingIn(rs, k));
    }
    assert forall k :: k in rs' ==> RingIn(rs', k);
  }

  /** QUEUE_REMOVE of the element at `i`. */
  method Dequeue(q: Node, ghost h: Node, ghost i: nat, ghost rs: Queues, ghost all: set<Node>)
    requires AllRings(rs) && h in rs && i < |rs[h]| && rs[h][i] == q
    modifies q.prev, q.next
    ensures AllRings(rs[h := RemoveAt(rs[h], i)]) && !Alone(q)
    ensures forall n :: n in all && n !in rs ==> (Alone(n) <==> old(Alone(n)))
  {
    ghost var s := rs[h];
    assert RingIn(rs, h);
    Beside(h, s, i);
    ghost var a, b := Last(h, s[..i]), First(h, s[i + 1..]);
    assert (a == h || a in s) && (b == h || b in s);
    AloneInRing(h, s);
    Remove(q, h, s, i);
    AloneInRing(h, RemoveAt(s, i));
    assert forall n :: n in s && n != q ==> n in RemoveAt(s, i);
    ghost var rs' := rs[h := RemoveAt(s, i)];
    StillSeparate(rs, h, RemoveAt(s, i), q);
    forall k | k in rs && k != h ensures Ring(k, rs[k]) {
      assert Apart(h, s, k, rs[k]);
      assert old(RingIn(rs, k));
    }
    assert forall k :: k in rs' ==> RingIn(rs', k);
  }

  /** QUEUE_MOVE to an empty queue. */
  method Transfer(h: Node, n: Node, ghost rs: Queues, ghost all: set<Node>)
    requires AllRings(rs) && h in rs && n in rs && h != n && rs[n] == []
    modifies h, n, h.prev, h.next
    ensures AllRings(rs[h := []][n := rs[h]])
    ensures forall x :: x in all && x !in rs ==> (Alone(x) <==> old(Alone(x)))
  {
    ghost var s := rs[h];
    assert RingIn(rs, h) && Apart(h, s, n, rs[n]);
    Ends(h, s);
    AloneInRing(h, s);
    ghost var a, b := Last(h, s), First(h, s);
    assert (a == h || a in s) && (b == h || b in s);
    Move(h, n, s);
    AloneInRing(n, s);
    ghost var rs' := rs[h := []][n := s];
    Transferred(rs, h, n);
    forall k | k in rs && k != h && k != n ensures Ring(k, rs[k]) {
      assert Apart(h, s, k, rs[k]) && Apart(n, rs[n], k, rs[k]);
      assert old(RingIn(rs, k));
    }
    assert forall k :: k in rs' ==> RingIn(rs', k);
  }

  lemma Transferred(rs: Queues, h: Node, n: Node)
    requires Separate(rs) && h in rs && n in rs && h != n && rs[n] == [] && h !in rs[h]
    ensures Separate(rs[h := []][n := rs[h]])
  {
    var rs' := rs[h := []][n := rs[h]];
    forall a, b | a in rs' && b in rs' && a != b ensures Apart(a, rs'[a], b, rs'[b]) {
      assert Apart(a, rs[a], b, rs[b]) && Apart(h, rs[h], n, rs[n]);
      if a != h { assert Apart(h, rs[h], a, rs[a]); }
      if b != h { assert Apart(h, rs[h], b, rs[b]); }
    }
  }
}
