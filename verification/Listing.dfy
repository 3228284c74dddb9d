/** Listings of finite sets, for everything that is read back in an order the program does not choose. */
module Listing {
  predicate Distinct<T(==)>(xs: seq<T>) {
    forall i, j :: 0 <= i < j < |xs| ==> xs[i] != xs[j]
  }

  predicate Lists<T(==)>(xs: seq<T>, all: set<T>) {
    Distinct(xs) && (set x <- xs) == all
  }

  lemma Listed<T>(xs: seq<T>, all: set<T>, x: T)
    requires Lists(xs, all)
    ensures x in xs <==> x in all
  {
    assert x in xs <==> x in (set y <- xs);
  }

  method Enumerate<T(==)>(all: set<T>) returns (xs: seq<T>)
    ensures Lists(xs, all)
  {
    var rest := all;
    xs := [];
    while rest != {}
      invariant rest <= all && Distinct(xs)
      invariant forall x :: x in xs <==> x in all && x !in rest
      decreases |rest|
    {
      var x :| x in rest;
      xs := xs + [x];
      rest := rest - {x};
    }
  }
}
