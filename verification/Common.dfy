/** Notions that several components share. */
module Common {

  datatype Option<T> = None | Some(value: T)

  type Byte = b: int | 0 <= b < 256

  ghost function Pow2(k: nat): nat { if k == 0 then 1 else 2 * Pow2(k - 1) }

  /** QUEUE_REMOVE of a node that may be in this queue. */
  function Unlink<T(==)>(q: seq<T>, x: T): seq<T> {
    if q == [] then [] else if q[0] == x then q[1..] else [q[0]] + Unlink(q[1..], x)
  }

  lemma {:induction false} UnlinkAbsent<T>(q: seq<T>, x: T)
    requires x !in q
    ensures Unlink(q, x) == q
    decreases |q|
  {
    if q != [] { UnlinkAbsent(q[1..], x); }
  }

  /** The entry at `i` cut out. */
  function RemoveAt<T>(q: seq<T>, i: nat): seq<T>
    requires i < |q|
  {
    q[..i] + q[i + 1..]
  }

  lemma {:induction false} UnlinkCuts<T>(q: seq<T>, x: T, i: nat)
    requires i < |q| && q[i] == x && x !in q[..i]
    ensures Unlink(q, x) == RemoveAt(q, i)
    decreases |q|
  {
    if i > 0 {
      assert q[0] == q[..i][0];
      assert q[1..][..i - 1] == q[..i][1..];
      UnlinkCuts(q[1..], x, i - 1);
    }
  }

  lemma {:induction false} UnlinkKeeps<T>(q: seq<T>, x: T, y: T)
    ensures y in Unlink(q, x) ==> y in q
    ensures y in q && y != x ==> y in Unlink(q, x)
    decreases |q|
  {
    if q != [] {
      UnlinkKeeps(q[1..], x, y);
      assert y in q <==> y == q[0] || y in q[1..];
    }
  }
}
