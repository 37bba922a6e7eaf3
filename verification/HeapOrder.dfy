/** Level-order facts behind third/libuv/src/heap-inl.h: the bit path to a slot, and heap order
    on a sequence of keys in which one element is on the move. */
module HeapOrder {
  import opened Common

  // ----- the path to a slot

  /** The slot that `k` steps along the bits of `path` (lowest first) lead to from slot `p`.
      Slots are numbered in level order from 1, so the children of p are 2p and 2p + 1. */
  ghost function Walk(p: nat, path: nat, k: nat): nat
    decreases k
  {
    if k == 0 then p else Walk(2 * p + path % 2, path / 2, k - 1)
  }

  lemma {:induction false} WalkGrows(p: nat, path: nat, k: nat)
    ensures Walk(p, path, k) >= p * Pow2(k)
    decreases k
  {
    if k > 0 {
      WalkGrows(2 * p + path % 2, path / 2, k - 1);
      Doubled(p, path % 2, Pow2(k - 1));
    }
  }

  lemma Doubled(p: nat, b: nat, w: nat)
    ensures (2 * p + b) * w >= p * (2 * w)
  {
  }

  lemma WalkPasses(p: nat, path: nat, k: nat)
    requires k > 0
    ensures Walk(p, path, k) >= 2 * p
  {
    WalkGrows(p, path, k);
    AtLeastTwo(p, k);
  }

  lemma {:induction false} AtLeastTwo(p: nat, k: nat)
    requires k > 0
    ensures p * Pow2(k) >= 2 * p
  {
    if k > 1 { AtLeastTwo(p, k - 1); Doubled(p, 0, Pow2(k - 1)); }
  }

  /** The path loops of heap_insert and heap_remove: the bits of `n` below its highest one, in
      reverse.  An unsigned 32-bit `path` never overflows. */
  method PathTo(slot: nat) returns (path: nat, k: nat)
    requires 1 <= slot < 0x1_0000_0000
    ensures Walk(1, path, k) == slot
    ensures path < 0x1_0000_0000
  {
    path, k := 0, 0;
    var n := slot;
    while n >= 2
      invariant n >= 1 && Walk(n, path, k) == slot
      invariant path < Pow2(k) && n * Pow2(k) <= slot
    {
      Halved(n, Pow2(k));
      path := 2 * path + n % 2;
      k := k + 1;
      n := n / 2;
    }
  }

  lemma Halved(n: nat, w: nat)
    ensures (n / 2) * (2 * w) <= n * w
  {
    assert (n / 2) * (2 * w) == (2 * (n / 2)) * w;
  }

  // ----- keys and heap order

  datatype Key = Key(timeout: nat, id: nat)

  /** timer_less_than */
  predicate Less(a: Key, b: Key) {
    a.timeout < b.timeout || (a.timeout == b.timeout && a.id < b.id)
  }

  ghost predicate Edge(ks: seq<Key>, i: int)
    requires 1 <= i < |ks|
  {
    !Less(ks[i], ks[(i - 1) / 2])
  }

  ghost predicate Ordered(ks: seq<Key>) {
    forall i :: 1 <= i < |ks| ==> Edge(ks, i)
  }

  /** The children of slot `c` are not below the parent of `c`. */
  ghost predicate Bridged(ks: seq<Key>, c: int)
    requires 0 <= c < |ks|
  {
    forall j :: 1 <= j < |ks| && (j - 1) / 2 == c && c > 0 ==> !Less(ks[j], ks[(c - 1) / 2])
  }

  /** Ordered except that the element at `c` may belong further up. */
  ghost predicate UpAt(ks: seq<Key>, c: int) {
    && 0 <= c < |ks|
    && (forall i :: 1 <= i < |ks| && i != c ==> Edge(ks, i))
    && Bridged(ks, c)
  }

  /** Ordered except that the element at `c` may belong further up or down. */
  ghost predicate DownAt(ks: seq<Key>, c: int) {
    && 0 <= c < |ks|
    && (forall i :: 1 <= i < |ks| && i != c && (i - 1) / 2 != c ==> Edge(ks, i))
    && Bridged(ks, c)
  }

  ghost function Swap<T>(s: seq<T>, i: int, j: int): seq<T>
    requires 0 <= i < |s| && 0 <= j < |s|
  {
    s[i := s[j]][j := s[i]]
  }

  lemma MovedUp(ks: seq<Key>, c: int)
    requires UpAt(ks, c) && c > 0 && Less(ks[c], ks[(c - 1) / 2])
    ensures UpAt(Swap(ks, c, (c - 1) / 2), (c - 1) / 2)
  {
    var p := (c - 1) / 2;
    var ks' := Swap(ks, c, p);
    forall i | 1 <= i < |ks'| && i != p ensures Edge(ks', i) {
      assert i != c ==> Edge(ks, i);
      if (i - 1) / 2 == c { assert Bridged(ks, c); }
    }
    if p > 0 { assert Edge(ks, p); }
    forall j | 1 <= j < |ks'| && (j - 1) / 2 == p && p > 0 ensures !Less(ks'[j], ks'[(p - 1) / 2]) {
      assert j != c ==> Edge(ks, j);
    }
  }

  lemma MovedDown(ks: seq<Key>, c: int, m: int)
    requires DownAt(ks, c) && c < m < |ks| && (m - 1) / 2 == c && Less(ks[m], ks[c])
    requires forall j :: 1 <= j < |ks| && (j - 1) / 2 == c ==> !Less(ks[j], ks[m])
    ensures DownAt(Swap(ks, m, c), m)
  {
    var ks' := Swap(ks, m, c);
    forall i | 1 <= i < |ks'| && i != m && (i - 1) / 2 != m ensures Edge(ks', i) {
      if i != c && (i - 1) / 2 != c { assert Edge(ks, i); }
    }
    forall j | 1 <= j < |ks'| && (j - 1) / 2 == m ensures !Less(ks'[j], ks'[(m - 1) / 2]) {
      assert Edge(ks, j);
    }
  }

  lemma StopsDown(ks: seq<Key>, c: int)
    requires DownAt(ks, c)
    requires forall j :: 1 <= j < |ks| && (j - 1) / 2 == c ==> !Less(ks[j], ks[c])
    ensures UpAt(ks, c)
  {
    forall i | 1 <= i < |ks| && i != c ensures Edge(ks, i) {
      if (i - 1) / 2 == c { assert !Less(ks[i], ks[c]); }
    }
  }

  lemma StopsUp(ks: seq<Key>, c: int)
    requires UpAt(ks, c) && (c > 0 ==> !Less(ks[c], ks[(c - 1) / 2]))
    ensures Ordered(ks)
  {
    forall i | 1 <= i < |ks| ensures Edge(ks, i) {
      if i == c { assert !Less(ks[c], ks[(c - 1) / 2]); }
    }
  }

  lemma AppendUp(ks: seq<Key>, k: Key)
    requires Ordered(ks)
    ensures UpAt(ks + [k], |ks|)
  {
    var ks' := ks + [k];
    forall i | 1 <= i < |ks'| && i != |ks| ensures Edge(ks', i) { assert Edge(ks, i); }
  }

  /** The last element replaces the one at `c`. */
  lemma ReplaceDown(ks: seq<Key>, c: int)
    requires Ordered(ks) && 0 <= c < |ks| - 1
    ensures DownAt(ks[..|ks| - 1][c := ks[|ks| - 1]], c)
  {
    var ks' := ks[..|ks| - 1][c := ks[|ks| - 1]];
    forall i | 1 <= i < |ks'| && i != c && (i - 1) / 2 != c ensures Edge(ks', i) { assert Edge(ks, i); }
    forall j | 1 <= j < |ks'| && (j - 1) / 2 == c && c > 0 ensures !Less(ks'[j], ks'[(c - 1) / 2]) {
      assert Edge(ks, j) && Edge(ks, c);
    }
  }

  lemma {:induction false} FirstIsLeast(ks: seq<Key>, i: int)
    requires Ordered(ks) && 0 <= i < |ks|
    ensures !Less(ks[i], ks[0])
    decreases i
  {
    if i > 0 {
      assert Edge(ks, i);
      FirstIsLeast(ks, (i - 1) / 2);
    }
  }
}
