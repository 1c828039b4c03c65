/**
 Sums over finite sets of ids, in no particular order.
 */
module Sums {

  ghost function SumOver(ids: set<nat>, f: nat -> int): int {
    if ids == {} then 0
    else
      var x :| x in ids;
      f(x) + SumOver(ids - {x}, f)
  }

  lemma {:induction false} SumOverRemove(ids: set<nat>, f: nat -> int, x: nat)
    requires x in ids
    ensures SumOver(ids, f) == f(x) + SumOver(ids - {x}, f)
    decreases ids
  {
    var y :| y in ids && SumOver(ids, f) == f(y) + SumOver(ids - {y}, f);
    if x != y {
      SumOverRemove(ids - {y}, f, x);
      SumOverRemove(ids - {x}, f, y);
      assert ids - {y} - {x} == ids - {x} - {y};
    }
  }

  lemma SumOverAdd(ids: set<nat>, f: nat -> int, x: nat)
    requires x !in ids
    ensures SumOver(ids + {x}, f) == SumOver(ids, f) + f(x)
  {
    SumOverRemove(ids + {x}, f, x);
    assert ids + {x} - {x} == ids;
  }

  lemma {:induction false} SumOverAgree(ids: set<nat>, f: nat -> int, g: nat -> int)
    requires forall x | x in ids :: f(x) == g(x)
    ensures SumOver(ids, f) == SumOver(ids, g)
    decreases ids
  {
    if ids != {} {
      var x :| x in ids;
      SumOverRemove(ids, f, x);
      SumOverRemove(ids, g, x);
      SumOverAgree(ids - {x}, f, g);
    }
  }
}
