/** A family of ring queues whose nodes are known by their roles: the macros of
    third/libuv/src/queue.h, with what the queues hold as sequences of roles. */
module RoleRings {
  import opened Common
  import RQ = RingQueue

  type Node = RQ.Node

  ghost predicate Injective<R>(y: map<R, Node>) { forall r, x :: r in y && x in y && r != x ==> y[r] != y[x] }

  ghost function NodesOf<R>(y: map<R, Node>, xs: seq<R>): (r: seq<Node>)
    requires forall i :: 0 <= i < |xs| ==> xs[i] in y
    ensures |r| == |xs| && forall i :: 0 <= i < |xs| ==> r[i] == y[xs[i]]
  {
    seq(|xs|, i requires 0 <= i < |xs| => y[xs[i]])
  }

  /** The ring of the queue `r` holds the nodes of its roles. */
  ghost predicate RoleHolds<R>(y: map<R, Node>, q: map<R, seq<R>>, rs: RQ.Queues, r: R) {
    && r in y && r in q && y[r] in rs
    && (forall i :: 0 <= i < |q[r]| ==> q[r][i] in y && q[r][i] !in q)
    && rs[y[r]] == NodesOf(y, q[r])
  }

  ghost predicate Holds<R(!new)>(y: map<R, Node>, q: map<R, seq<R>>, rs: RQ.Queues) {
    && Injective(y) && q.Keys <= y.Keys && rs.Keys == (set r | r in q :: y[r])
    && (forall r {:trigger RoleHolds(y, q, rs, r)} :: r in q ==> RoleHolds(y, q, rs, r))
  }

  ghost predicate Owned<R>(y: map<R, Node>, owner: map<Node, R>) {
    forall r :: r in y ==> y[r] in owner && owner[y[r]] == r
  }

  lemma OneRing<R(!new)>(y: map<R, Node>, q: map<R, seq<R>>, rs: RQ.Queues, r: R, xs: seq<R>)
    requires Holds(y, q, rs) && r in q && forall i :: 0 <= i < |xs| ==> xs[i] in y && xs[i] !in q
    ensures Holds(y, q[r := xs], rs[y[r] := NodesOf(y, xs)])
  {
    var q', rs' := q[r := xs], rs[y[r] := NodesOf(y, xs)];
    assert RoleHolds(y, q, rs, r);
    forall x {:trigger RoleHolds(y, q', rs', x)} | x in q' ensures RoleHolds(y, q', rs', x) {
      assert RoleHolds(y, q, rs, x);
    }
  }

  lemma AppendHolds<R(!new)>(y: map<R, Node>, q: map<R, seq<R>>, rs: RQ.Queues, r: R, x: R)
    requires Holds(y, q, rs) && r in q && x in y && x !in q
    ensures y[r] in rs && Holds(y, q[r := q[r] + [x]], rs[y[r] := rs[y[r]] + [y[x]]])
  {
    assert RoleHolds(y, q, rs, r);
    OneRing(y, q, rs, r, q[r] + [x]);
    assert NodesOf(y, q[r] + [x]) == rs[y[r]] + [y[x]];
  }

  lemma CutHolds<R(!new)>(y: map<R, Node>, q: map<R, seq<R>>, rs: RQ.Queues, r: R, i: nat)
    requires Holds(y, q, rs) && r in q && i < |q[r]|
    ensures y[r] in rs && i < |rs[y[r]]| && q[r][i] in y && rs[y[r]][i] == y[q[r][i]]
    ensures Holds(y, q[r := RemoveAt(q[r], i)], rs[y[r] := RemoveAt(rs[y[r]], i)])
  {
    assert RoleHolds(y, q, rs, r);
    OneRing(y, q, rs, r, RemoveAt(q[r], i));
    assert NodesOf(y, RemoveAt(q[r], i)) == RemoveAt(rs[y[r]], i);
  }

  lemma MoveHolds<R(!new)>(y: map<R, Node>, q: map<R, seq<R>>, rs: RQ.Queues, r: R, k: R)
    requires Holds(y, q, rs) && r in q && k in q && r != k && q[k] == []
    ensures y[r] in rs && y[k] in rs && y[r] != y[k] && rs[y[k]] == []
    ensures Holds(y, q[r := []][k := q[r]], rs[y[r] := []][y[k] := rs[y[r]]])
  {
    assert RoleHolds(y, q, rs, r) && RoleHolds(y, q, rs, k);
    OneRing(y, q, rs, k, q[r]);
    var q1, rs1 := q[k := q[r]], rs[y[k] := rs[y[r]]];
    OneRing(y, q1, rs1, r, []);
    assert q1[r := []] == q[r := []][k := q[r]];
    assert rs1[y[r] := []] == rs[y[r] := []][y[k] := rs[y[r]]];
  }

  lemma GrowHolds<R(!new)>(y: map<R, Node>, q: map<R, seq<R>>, rs: RQ.Queues, x: R, n: Node)
    requires Holds(y, q, rs) && x !in y && n !in y.Values
    ensures Holds(y[x := n], q, rs) && y[x := n].Values == y.Values + {n}
  {
    var y' := y[x := n];
    assert (set r | r in q :: y'[r]) == (set r | r in q :: y[r]);
    forall r {:trigger RoleHolds(y', q, rs, r)} | r in q ensures RoleHolds(y', q, rs, r) {
      assert RoleHolds(y, q, rs, r);
      assert NodesOf(y', q[r]) == NodesOf(y, q[r]);
    }
    assert y'.Values <= y.Values + {n};
    forall v | v in y.Values ensures v in y'.Values {
      var r :| r in y && y[r] == v;
      assert r in y' && y'[r] == v;
    }
    assert x in y' && y'[x] == n;
  }

  lemma QueueHolds<R(!new)>(y: map<R, Node>, q: map<R, seq<R>>, rs: RQ.Queues, r: R)
    requires Holds(y, q, rs) && r in y && r !in q && forall k :: k in q ==> r !in q[k]
    ensures Holds(y, q[r := []], rs[y[r] := []])
  {
    var q', rs' := q[r := []], rs[y[r] := []];
    assert (set k | k in q' :: y[k]) == (set k | k in q :: y[k]) + {y[r]};
    forall x {:trigger RoleHolds(y, q', rs', x)} | x in q' ensures RoleHolds(y, q', rs', x) {
      if x != r { assert RoleHolds(y, q, rs, x); }
    }
  }

  lemma FootprintKnown<R(!new)>(y: map<R, Node>, q: map<R, seq<R>>, rs: RQ.Queues)
    requires Holds(y, q, rs)
    ensures RQ.Footprint(rs) <= y.Values
  {
    forall x | x in RQ.Footprint(rs) ensures x in y.Values {
      var h :| h in rs && (x == h || x in rs[h]);
      var r :| r in q && y[r] == h;
      assert RoleHolds(y, q, rs, r);
      if x != h {
        var i: nat :| i < |rs[h]| && rs[h][i] == x;
        assert y[q[r][i]] == x;
      }
    }
  }

  /** A role that is in no queue has its node in no ring. */
  lemma NotInRings<R(!new)>(y: map<R, Node>, q: map<R, seq<R>>, rs: RQ.Queues, x: R)
    requires Holds(y, q, rs) && x in y && x !in q && forall r :: r in q ==> x !in q[r]
    ensures y[x] !in RQ.Footprint(rs)
  {
    forall h | h in rs ensures y[x] != h && y[x] !in rs[h] {
      var r :| r in q && y[r] == h;
      assert RoleHolds(y, q, rs, r);
    }
  }

  ghost predicate Opened(d: bool) { d }

  class Rings<R(==,!new)> {
    var y: map<R, Node>       // the addresses of the nodes
    var owner: map<Node, R>   // QUEUE_DATA
    ghost var q: map<R, seq<R>>
    ghost var lone: set<R>
    ghost var rs: RQ.Queues

    /** The nodes outside the heads of which QUEUE_EMPTY holds. */
    ghost predicate Tied()
      reads this, y.Values
    {
      forall x :: x in y && x !in q ==> (x in lone <==> RQ.Alone(y[x]))
    }

    ghost predicate Inside()
      reads this, y.Values
    {
      && Owned(y, owner) && Holds(y, q, rs)
      && RQ.Footprint(rs) <= y.Values && RQ.AllRings(rs) && Tied()
    }

    /** The trigger keeps callers from looking inside. */
    ghost predicate Valid()
      reads this, y.Values
    {
      forall d {:trigger Opened(d)} :: Opened(d) ==> Inside()
    }

    constructor ()
      ensures Valid() && y == map[] && q == map[]
    {
      y, owner, q, rs, lone := map[], map[], map[], map[], {};
    }

    /** A node in no queue. */
    method NewNode(x: R)
      requires Valid() && x !in y
      modifies this
      ensures Valid() && q == old(q) && lone == old(lone) - {x} && y.Keys == old(y.Keys) + {x}
      ensures y.Values >= old(y.Values) && fresh(y.Values - old(y.Values))
    {
      assert Opened(true);
      var n := new RQ.Node();
      assert RQ.AllRings(rs) && n !in y.Values;
      GrowHolds(y, q, rs, x, n);
      y, owner, lone := y[x := n], owner[n := x], lone - {x};
    }

    /** QUEUE_INSERT_TAIL */
    method Append(r: R, x: R)
      requires Valid() && r in q && x in y && x !in q && forall k :: k in q ==> x !in q[k]
      modifies this`q, this`rs, this`lone, y.Values
      ensures Valid() && q == old(q)[r := old(q)[r] + [x]] && lone == old(lone) - {x}
    {
      assert Opened(true);
      AppendHolds(y, q, rs, r, x);
      NotInRings(y, q, rs, x);
      NeighboursKnown(y[r]);
      RQ.Enqueue(y[r], y[x], rs, y.Values);
      q, rs, lone := q[r := q[r] + [x]], rs[y[r] := rs[y[r]] + [y[x]]], lone - {x};
      FootprintKnown(y, q, rs);
    }

    /** QUEUE_REMOVE of the node at `i` of the queue `r`. */
    method Remove(x: R, ghost r: R, ghost i: nat)
      requires Valid() && r in q && i < |q[r]| && q[r][i] == x && x in y
      modifies this`q, this`rs, y.Values
      ensures Valid() && q == old(q)[r := RemoveAt(old(q)[r], i)] && x !in lone
    {
      assert Opened(true);
      CutHolds(y, q, rs, r, i);
      assert RoleHolds(y, q, rs, r);
      ElementKnown(y[r], i);
      RQ.Dequeue(y[x], y[r], i, rs, y.Values);
      q, rs := q[r := RemoveAt(q[r], i)], rs[y[r] := RemoveAt(rs[y[r]], i)];
      FootprintKnown(y, q, rs);
    }

    /** QUEUE_INIT of a node in no queue, which stays outside the queues. */
    method Reset(x: R)
      requires Valid() && x in y && x !in q && forall k :: k in q ==> x !in q[k]
      modifies this`lone, y.Values
      ensures Valid() && lone == old(lone) + {x}
    {
      assert Opened(true);
      NotInRings(y, q, rs, x);
      RQ.Init(y[x]);
      RQ.AloneInRing(y[x], []);
      lone := lone + {x};
    }

    /** QUEUE_INIT of the head of a new queue. */
    method NewQueue(r: R)
      requires Valid() && r in y && r !in q && forall k :: k in q ==> r !in q[k]
      modifies this`q, this`rs, y.Values
      ensures Valid() && q == old(q)[r := []]
    {
      assert Opened(true);
      NotInRings(y, q, rs, r);
      QueueHolds(y, q, rs, r);
      RQ.Init(y[r]);
      RQ.NewRing(rs, y[r]);
      q, rs := q[r := []], rs[y[r] := []];
      FootprintKnown(y, q, rs);
    }

    /** QUEUE_MOVE to an empty queue. */
    method Move(r: R, k: R)
      requires Valid() && r in q && k in q && r != k && q[k] == []
      modifies this`q, this`rs, y.Values
      ensures Valid() && q == old(q)[r := []][k := old(q)[r]]
    {
      assert Opened(true);
      MoveHolds(y, q, rs, r, k);
      NeighboursKnown(y[r]);
      ghost var was := rs;
      assert forall x :: x in y && x !in q ==> y[x] !in rs;
      q, rs := q[r := []][k := q[r]], rs[y[r] := []][y[k] := rs[y[r]]];
      FootprintKnown(y, q, rs);
      RQ.Transfer(y[r], y[k], was, y.Values);
      assert Tied();
    }

    /** QUEUE_HEAD of a queue that is not empty, with QUEUE_DATA. */
    method First(r: R) returns (x: R)
      requires Valid() && r in q && q[r] != []
      ensures x == q[r][0] && x in y
    {
      assert Opened(true);
      assert RoleHolds(y, q, rs, r);
      assert RQ.RingIn(rs, y[r]);
      var n := RQ.Head(y[r], rs[y[r]]);
      x := owner[n];
    }

    /** QUEUE_EMPTY of a head. */
    method IsEmpty(r: R) returns (b: bool)
      requires Valid() && r in q
      ensures b <==> q[r] == []
    {
      assert Opened(true);
      assert RoleHolds(y, q, rs, r);
      assert RQ.RingIn(rs, y[r]);
      RQ.AloneInRing(y[r], rs[y[r]]);
      b := RQ.Empty(y[r]);
    }

    /** QUEUE_EMPTY of any other node. */
    method IsAlone(x: R) returns (b: bool)
      requires Valid() && x in y && x !in q
      ensures b <==> x in lone
    {
      assert Opened(true);
      b := RQ.Empty(y[x]);
    }

    lemma ElementKnown(h: Node, i: nat)
      requires Holds(y, q, rs) && RQ.Footprint(rs) <= y.Values && RQ.AllRings(rs) && h in rs && i < |rs[h]|
      ensures var n := rs[h][i]; n.prev != null && n.prev in y.Values && n.next != null && n.next in y.Values
    {
      assert RQ.RingIn(rs, h);
      RQ.Covers(rs, h);
      RQ.Beside(h, rs[h], i);
    }

    lemma NeighboursKnown(h: Node)
      requires Holds(y, q, rs) && RQ.Footprint(rs) <= y.Values && RQ.AllRings(rs) && h in rs
      ensures h.prev != null && h.prev in y.Values && h.next != null && h.next in y.Values
    {
      assert RQ.RingIn(rs, h);
      RQ.Covers(rs, h);
      RQ.Ends(h, rs[h]);
    }
  }
}
