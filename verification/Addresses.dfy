/** Normalized addresses, kept abstract: NoAddr is the empty string and, in a nullable column, NULL. */
module Addresses {

  datatype Addr = NoAddr | Hex(n: nat)

  const ZERO_ADDRESS := Hex(0)

  /** An address that names a real contract or holder: neither empty nor the zero address. */
  predicate Proper(a: Addr) {
    a != NoAddr && a != ZERO_ADDRESS
  }

  /** The emitter of a log is a deployed contract. */
  type Contract = a: Addr | Proper(a) witness Hex(1)

  function Rank(a: Addr): nat {
    match a
    case NoAddr => 0
    case Hex(n) => n + 1
  }

  predicate IsLeast(s: set<Addr>, a: Addr) {
    a in s && forall b :: b in s ==> Rank(a) <= Rank(b)
  }

  lemma {:induction false} LeastExists(s: set<Addr>)
    requires s != {}
    ensures exists a :: IsLeast(s, a)
    decreases |s|
  {
    var x :| x in s;
    if z :| z in s && z != x {
      assert z in s - {x};
      LeastExists(s - {x});
      var y :| IsLeast(s - {x}, y);
      assert forall o :: o in s ==> o == x || o in s - {x};
      if Rank(x) <= Rank(y) { assert IsLeast(s, x); } else { assert IsLeast(s, y); }
    } else {
      assert IsLeast(s, x);
    }
  }

  /** A fixed choice of one address out of a set. */
  function Least(s: set<Addr>): (a: Addr)
    requires s != {}
    ensures a in s
  {
    LeastExists(s);
    var a :| a in s && IsLeast(s, a);
    a
  }
}
