/** The id generators of Communication/core/gen_id.cpp. */
module GenId {

  const INVALID_CONNID: nat := 0
  const U16: nat := 0x1_0000
  const CYCLE: nat := 65535

  /** The state of GenConnID after handing out an id, and the id. */
  function Next(counter: nat): (r: (nat, nat))
    requires counter < U16
    ensures r.0 < U16 && 0 < r.1 < U16
  {
    var c := if counter == INVALID_CONNID then 1 else counter;
    ((c + 1) % U16, c)
  }

  class GenConnID {
    var counter: nat

    constructor ()
      ensures counter == 0
    {
      counter := 0;
    }

    /** GenConnID::applyId with its 16-bit counter. */
    method ApplyId() returns (x: nat)
      requires counter < U16
      modifies this
      ensures (counter, x) == Next(old(counter)) && x != INVALID_CONNID
    {
      if counter == INVALID_CONNID {
        counter := (counter + 1) % U16;
      }
      x := counter;
      counter := (counter + 1) % U16;
    }
  }

  /** The counter after `n` ids. */
  ghost function After(n: nat): nat
    ensures After(n) < U16
  {
    if n == 0 then 0 else Next(After(n - 1)).0
  }

  /** The id handed out by call number `n`, counting from 0. */
  ghost function Id(n: nat): nat { Next(After(n)).1 }

  lemma NextModulo(n: nat)
    ensures (n + 1) % CYCLE == if n % CYCLE == CYCLE - 1 then 0 else n % CYCLE + 1
  {
    var q, r := n / CYCLE, n % CYCLE;
    assert n + 1 == CYCLE * q + (r + 1);
    if r == CYCLE - 1 {
      assert n + 1 == CYCLE * (q + 1);
    }
  }

  lemma {:induction false} IdsCycle(n: nat)
    ensures Id(n) == n % CYCLE + 1
    ensures After(n) == if n == 0 then 0 else (n - 1) % CYCLE + 2 - (if n % CYCLE == 0 then U16 else 0)
  {
    if n > 0 {
      IdsCycle(n - 1);
      NextModulo(n - 1);
    }
  }

  /** Ids are never 0, and two calls yield the same id exactly when they lie a multiple of 65535
      calls apart; so any 65535 consecutive ids are distinct. */
  lemma IdsDistinct(m: nat, n: nat)
    ensures Id(m) != INVALID_CONNID
    ensures Id(m) == Id(n) <==> m % CYCLE == n % CYCLE
    ensures m < n < m + CYCLE ==> Id(m) != Id(n)
  {
    IdsCycle(m);
    IdsCycle(n);
  }
}
