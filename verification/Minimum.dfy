/** Python's `min(s)` on sets of natural numbers. */
module Minimum {

  predicate IsMin(m: nat, s: set<nat>) {
    m in s && forall x :: x in s ==> m <= x
  }

  lemma MinExists(s: set<nat>)
    requires s != {}
    ensures exists m :: IsMin(m, s)
  {
    var y :| y in s;
    if s != {y} {
      var rest := s - {y};
      MinExists(rest);
      var m :| IsMin(m, rest);
      assert forall x :: x in s ==> x == y || x in rest;
      assert IsMin(if m <= y then m else y, s);
    } else {
      assert IsMin(y, s);
    }
  }

  function Min(s: set<nat>): (m: nat)
    requires s != {}
    ensures m in s && forall x :: x in s ==> m <= x
  {
    MinExists(s);
    var m :| m in s && IsMin(m, s);
    m
  }
}
