/** The source port of outgoing packets (`DualConn.GetPort`). */
module Ports {

  const LAST_PORT: nat := 60001
  const FIXED_PORT: nat := 68

  /** The port of the n-th call. */
  function PortAt(n: nat): nat
    requires n > 0
  {
    (n - 1) % LAST_PORT + 1
  }

  lemma PortStep(n: nat)
    requires n > 1
    ensures PortAt(n) == if PortAt(n - 1) > 60000 then 1 else PortAt(n - 1) + 1
  {
  }

  class Connection {
    const fixPort: bool
    var cnt: int
    ghost var calls: nat  // how often GetPort was called

    ghost predicate Valid()
      reads this
    {
      cnt == if fixPort || calls == 0 then 0 else PortAt(calls)
    }

    constructor (fixPort: bool)
      ensures Valid() && this.fixPort == fixPort && calls == 0
    {
      this.fixPort := fixPort;
      cnt, calls := 0, 0;
    }

    /** With rotation on, the n-th call returns port ((n - 1) mod 60001) + 1. */
    method GetPort() returns (port: nat)
      requires Valid()
      modifies this
      ensures Valid() && calls == old(calls) + 1
      ensures port == if fixPort then FIXED_PORT else PortAt(calls)
      ensures fixPort ==> port == 68
      ensures !fixPort ==> port == (old(calls) % 60001) + 1
    {
      calls := calls + 1;
      if fixPort {
        return FIXED_PORT;
      }
      if calls > 1 { PortStep(calls); }
      if cnt < 1 || cnt > 60000 {
        cnt := 1;
      } else {
        cnt := cnt + 1;
      }
      port := cnt % 0x1_0000;
    }
  }

  lemma DivideExactly(a: nat, q: nat, r: nat)
    requires r < LAST_PORT && a == q * LAST_PORT + r
    ensures a % LAST_PORT == r
  {
  }

  /** Two calls use the same port exactly when their distance is a multiple of 60001. */
  lemma PortsRepeat(m: nat, n: nat)
    requires m > 0 && n > 0
    ensures PortAt(m) == PortAt(n) <==> exists k: int :: m - n == k * LAST_PORT
  {
    var a, b := (m - 1) / LAST_PORT, (n - 1) / LAST_PORT;
    assert m - 1 == a * LAST_PORT + (m - 1) % LAST_PORT && n - 1 == b * LAST_PORT + (n - 1) % LAST_PORT;
    if PortAt(m) == PortAt(n) {
      assert m - n == (a - b) * LAST_PORT;
    }
    if k :| m - n == k * LAST_PORT {
      assert (m - 1) % LAST_PORT - (n - 1) % LAST_PORT == (k - a + b) * LAST_PORT;
      assert k - a + b == 0;
    }
  }

  /** Any 60001 consecutive calls return each of the ports 1 to 60001 exactly once. */
  lemma PortsOfWindow(first: nat, port: nat) returns (n: nat)
    requires first > 0 && 1 <= port <= LAST_PORT
    ensures first <= n < first + LAST_PORT && PortAt(n) == port
    ensures forall m | first <= m < first + LAST_PORT && PortAt(m) == port :: m == n
  {
    var q, r := (first - 1) / LAST_PORT, (first - 1) % LAST_PORT;
    assert first - 1 == q * LAST_PORT + r;
    var turn := if port - 1 >= r then q else q + 1;
    n := turn * LAST_PORT + port;
    DivideExactly(n - 1, turn, port - 1);
    forall m | first <= m < first + LAST_PORT && PortAt(m) == port ensures m == n {
      PortsRepeat(m, n);
    }
  }
}
