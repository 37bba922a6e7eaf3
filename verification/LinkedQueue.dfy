/** The linked queue of third/queue/Gqueue.c: a dummy head node, a tail pointer and a size. */
module LinkedQueue {
  import opened Common

  class Node<T> {
    const data: Option<T>   // NULL in the head node
    const datalen: nat
    var prev: Node?<T>
    var next: Node?<T>

    constructor (data: Option<T>, datalen: nat)
      ensures this.data == data && this.datalen == datalen && prev == null && next == null
    {
      this.data, this.datalen, prev, next := data, datalen, null, null;
    }
  }

  /** A stored block. */
  datatype Entry<T> = Entry(data: T, len: nat)

  ghost predicate Link<T>(a: Node<T>, b: Node<T>)
    reads a, b
  {
    a.next == b && b.prev == a
  }

  /** Distinct nodes, doubly linked in this order and ending with NULL. */
  ghost predicate Chain<T>(c: seq<Node<T>>)
    reads c
  {
    && c != [] && Distinct(c)
    && (forall i :: 0 <= i < |c| - 1 ==> Link(c[i], c[i + 1]))
    && c[|c| - 1].next == null
  }

  ghost predicate Distinct<T>(c: seq<Node<T>>) { forall i, j :: 0 <= i < j < |c| ==> c[i] != c[j] }

  /** The chain without its second node. */
  ghost function Skipped<T>(c: seq<Node<T>>): (r: seq<Node<T>>)
    requires |c| > 1
    ensures Distinct(c) ==> Distinct(r)
    ensures |r| == |c| - 1 && r[0] == c[0] && r[1..] == c[1..][1..]
    ensures forall i :: 0 < i < |r| ==> r[i] == c[i + 1]
  {
    [c[0]] + c[2..]
  }

  ghost predicate Filled<T>(ns: seq<Node<T>>) { forall i :: 0 <= i < |ns| ==> ns[i].data.Some? }

  /** What the nodes store. */
  ghost function Blocks<T>(ns: seq<Node<T>>): (r: seq<Entry<T>>)
    requires Filled(ns)
    ensures |r| == |ns| && forall i :: 0 <= i < |ns| ==> r[i] == Entry(ns[i].data.value, ns[i].datalen)
  {
    seq(|ns|, i requires 0 <= i < |ns| => Entry(ns[i].data.value, ns[i].datalen))
  }

  class EasyQueue<T> {
    var size: int
    const head: Node<T>
    var tail: Node<T>
    ghost var chain: seq<Node<T>>   // the head node and the nodes in use

    ghost predicate Valid()
      reads this, chain
    {
      && Chain(chain) && chain[0] == head && tail == chain[|chain| - 1]
      && size == |chain| - 1 && Filled(chain[1..])
    }

    ghost function Contents(): (r: seq<Entry<T>>)
      requires Valid()
      reads this, chain
      ensures |r| == |chain| - 1
    {
      Blocks(chain[1..])
    }

    /** easy_queue_init */
    constructor ()
      ensures Valid() && Contents() == [] && fresh(chain)
    {
      size := 0;
      var p := new Node<T>(None, 0);
      head, tail, chain := p, p, [p];
    }

    /** easy_queue_push */
    method Push(data: T, datalen: nat)
      requires Valid()
      modifies this, tail
      ensures Valid() && Contents() == old(Contents()) + [Entry(data, datalen)]
      ensures |chain| == |old(chain)| + 1 && chain[..|old(chain)|] == old(chain) && fresh(chain[|old(chain)|])
    {
      var p := new Node<T>(Some(data), datalen);
      tail.next := p;
      p.prev := tail;
      tail := p;
      size := size + 1;
      chain := chain + [p];
      assert chain[1..] == old(chain)[1..] + [p];
    }

    /** easy_queue_pop: -1 on an empty queue or a buffer that is missing or too small, with the
        length that is needed; else the first block. */
    method Pop(buf: bool, room: nat) returns (ret: int, out: Option<T>, buflen: nat)
      requires Valid()
      modifies this, chain
      ensures Valid()
      ensures buflen == if old(Contents()) == [] then 0 else old(Contents())[0].len
      ensures ret == if old(Contents()) != [] && buf && room >= old(Contents())[0].len then 0 else -1
      ensures out == if ret == 0 then Some(old(Contents())[0].data) else None
      ensures Contents() == if ret == 0 then old(Contents())[1..] else old(Contents())
      ensures chain == if ret == 0 then Skipped(old(chain)) else old(chain)
    {
      assert |chain| > 1 ==> Link(chain[0], chain[1]);
      var p := head.next;
      if p == null {
        return -1, None, 0;
      }
      assert |chain| > 1 && p == chain[1] == chain[1..][0];
      if !buf || room < p.datalen { return -1, None, p.datalen; }
      out, buflen := p.data, p.datalen;
      Unchain(p);
      ret := 0;
    }

    /** The first node leaves the list. */
    method Unchain(p: Node<T>)
      requires Valid() && |chain| > 1 && p == chain[1]
      modifies this, chain
      ensures Valid() && chain == Skipped(old(chain)) && Contents() == old(Contents())[1..]
    {
      assert Link(chain[0], chain[1]);
      assert |chain| > 2 ==> Link(chain[1], chain[2]);
      ghost var c := Skipped(chain);
      head.next := p.next;
      if p.next != null {
        p.next.prev := head;
      } else {
        tail := head;
      }
      size := size - 1;
      forall i | 0 <= i < |c| - 1 ensures Link(c[i], c[i + 1]) {
        assert i > 0 ==> old(Link(chain[i + 1], chain[i + 2]));
      }
      chain := c;
    }

    /** easy_queue_clear: the blocks are handed to the user's handler from the tail. */
    method Clear() returns (freed: seq<Entry<T>>)
      requires Valid()
      modifies this, chain
      ensures Valid() && Contents() == [] && chain == old(chain)[..1] && |freed| == |old(Contents())|
      ensures forall i :: 0 <= i < |freed| ==> freed[i] == old(Contents())[|freed| - 1 - i]
    {
      freed := [];
      ghost var all := Contents();
      while tail != head
        invariant Valid() && chain <= old(chain)
        invariant |freed| + |Contents()| == |all| && Contents() == all[..|Contents()|]
        invariant forall i :: 0 <= i < |freed| ==> freed[i] == all[|all| - 1 - i]
        decreases size
      {
        var e := DropTail();
        freed := freed + [e];
      }
    }

    /** The body of the loop of easy_queue_clear, up to the user's handler. */
    method DropTail() returns (e: Entry<T>)
      requires Valid() && tail != head
      modifies this, chain
      ensures old(Contents()) != [] && e == old(Contents())[|old(Contents())| - 1]
      ensures Valid() && size == old(size) - 1 && chain == old(chain)[..|old(chain)| - 1]
      ensures Contents() == old(Contents())[..|old(Contents())| - 1]
    {
      assert Link(chain[|chain| - 2], chain[|chain| - 1]);
      assert tail == chain[1..][|chain| - 2];
      e := Entry(tail.data.value, tail.datalen);
      tail := tail.prev;
      tail.next := null;
      size := size - 1;
      chain := chain[..|chain| - 1];
      assert chain[1..] == old(chain)[1..][..|chain| - 1];
    }

    /** easy_queue_size */
    method Size() returns (n: int)
      requires Valid()
      ensures n == |Contents()|
    {
      n := size;
    }
  }
}
