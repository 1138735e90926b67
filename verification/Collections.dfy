/** Helpers on collections that several models share. */
module Collections {

  function Min(x: nat, y: nat): nat {
    if x < y then x else y
  }

  function Max(x: nat, y: nat): nat {
    if x < y then y else x
  }

  ghost predicate Distinct<T>(s: seq<T>) {
    forall i, j :: 0 <= i < j < |s| ==> s[i] != s[j]
  }

  /** The keys of a hash map, in whatever order it yields them. */
  method SomeOrder<T(==)>(keys: set<T>) returns (order: seq<T>)
    ensures Distinct(order) && |order| == |keys|
    ensures forall x :: x in order <==> x in keys
  {
    order := [];
    var left := keys;
    while left != {}
      invariant left <= keys && |order| + |left| == |keys| && Distinct(order)
      invariant forall x :: x in order <==> x in keys && x !in left
      decreases |left|
    {
      var x :| x in left;
      order, left := order + [x], left - {x};
    }
  }
}
