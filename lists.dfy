/** Searching a list front to back, as Go's `for _, x := range xs { if p(x) { ... } }` does. */
module Lists {

  /** The index of the first element satisfying `p`, or -1 when none does. */
  function FirstWhere<T>(xs: seq<T>, p: T -> bool): (k: int)
    ensures -1 <= k < |xs|
    ensures k >= 0 ==> p(xs[k]) && forall j :: 0 <= j < k ==> !p(xs[j])
    ensures k == -1 <==> forall j :: 0 <= j < |xs| ==> !p(xs[j])
  {
    if xs == [] then -1
    else if p(xs[0]) then 0
    else
      var k := FirstWhere(xs[1..], p);
      if k == -1 then -1 else k + 1
  }

  /** Pairwise different keys: a search by key then finds the one element carrying it. */
  predicate Distinct<T, K(==)>(xs: seq<T>, key: T -> K)
  {
    forall i, j :: 0 <= i < j < |xs| ==> key(xs[i]) != key(xs[j])
  }
}
