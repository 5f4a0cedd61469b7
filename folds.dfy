/**
  Sums and minima over finite sets, independent of any enumeration order.
  The engine iterates Swift sets and dictionaries, whose order is unspecified;
  these folds are the order-free reference values that its loops are proved
  against.
*/
module Folds {

  /** Some element of a non-empty set. */
  ghost function Pick<T>(s: set<T>): (x: T)
    requires s != {}
    ensures x in s
  {
    var x :| x in s; x
  }

  /** The sum of f over s. */
  ghost function SumOver<T>(s: set<T>, f: T -> int): int
    decreases |s|
  {
    if s == {} then 0 else var x := Pick(s); f(x) + SumOver(s - {x}, f)
  }

  /** Any element may be taken out first: the sum does not depend on the order. */
  lemma {:induction false} SumOverRemove<T>(s: set<T>, f: T -> int, x: T)
    requires x in s
    ensures SumOver(s, f) == f(x) + SumOver(s - {x}, f)
    decreases |s|
  {
    var y := Pick(s);
    if y != x {
      SumOverRemove(s - {y}, f, x);
      SumOverRemove(s - {x}, f, y);
      assert s - {y} - {x} == s - {x} - {y};
    }
  }

  /** Adding one new element adds its value. */
  lemma SumOverAdd<T>(s: set<T>, f: T -> int, x: T)
    requires x !in s
    ensures SumOver(s + {x}, f) == SumOver(s, f) + f(x)
  {
    SumOverRemove(s + {x}, f, x);
    assert s + {x} - {x} == s;
  }

  /**
    One step of a loop that adds up f over all, taking out of todo the
    element x: the part already summed grows by x.
  */
  lemma SumOverStep<T>(all: set<T>, todo: set<T>, f: T -> int, x: T)
    requires todo <= all && x in todo
    ensures SumOver(all - (todo - {x}), f) == SumOver(all - todo, f) + f(x)
  {
    assert all - (todo - {x}) == (all - todo) + {x};
    SumOverAdd(all - todo, f, x);
  }

  /** Sums of two functions that agree on the set are equal. */
  lemma {:induction false} SumOverAgree<T>(s: set<T>, f: T -> int, g: T -> int)
    requires forall x :: x in s ==> f(x) == g(x)
    ensures SumOver(s, f) == SumOver(s, g)
    decreases |s|
  {
    if s != {} {
      SumOverAgree(s - {Pick(s)}, f, g);
    }
  }

  /** A sum of non-negative terms is non-negative. */
  lemma {:induction false} SumOverNonNegative<T>(s: set<T>, f: T -> int)
    requires forall x :: x in s ==> f(x) >= 0
    ensures SumOver(s, f) >= 0
    decreases |s|
  {
    if s != {} {
      SumOverNonNegative(s - {Pick(s)}, f);
    }
  }

  /** The least value of f over a non-empty set. */
  ghost function MinOver<T>(s: set<T>, f: T -> int): int
    requires s != {}
    decreases |s|
  {
    var x := Pick(s);
    if s == {x} then f(x) else var m := MinOver(s - {x}, f); if f(x) <= m then f(x) else m
  }

  /** MinOver is a lower bound that some element attains. */
  lemma {:induction false} MinOverIsLeast<T>(s: set<T>, f: T -> int)
    requires s != {}
    ensures forall y :: y in s ==> MinOver(s, f) <= f(y)
    ensures exists y :: y in s && MinOver(s, f) == f(y)
    decreases |s|
  {
    var x := Pick(s);
    if s != {x} {
      MinOverIsLeast(s - {x}, f);
    }
  }

  /** A value that is attained and is a lower bound is the minimum. */
  lemma MinOverUnique<T>(s: set<T>, f: T -> int, m: int)
    requires s != {}
    requires forall y :: y in s ==> m <= f(y)
    requires exists y :: y in s && m == f(y)
    ensures MinOver(s, f) == m
  {
    MinOverIsLeast(s, f);
  }
}
