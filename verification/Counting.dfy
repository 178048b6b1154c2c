/** Counting the elements of a sequence that satisfy a predicate. */
module Counting {

  function CountIf<T>(p: T -> bool, xs: seq<T>): nat
  {
    if xs == [] then 0
    else CountIf(p, xs[..|xs| - 1]) + (if p(xs[|xs| - 1]) then 1 else 0)
  }

  lemma {:induction false} CountAppend<T>(p: T -> bool, xs: seq<T>, ys: seq<T>)
    ensures CountIf(p, xs + ys) == CountIf(p, xs) + CountIf(p, ys)
  {
    if ys == [] {
      assert xs + ys == xs;
    } else {
      var all := xs + ys;
      assert all[..|all| - 1] == xs + ys[..|ys| - 1];
      CountAppend(p, xs, ys[..|ys| - 1]);
    }
  }

  lemma CountFirst<T>(p: T -> bool, xs: seq<T>)
    requires xs != []
    ensures CountIf(p, xs) == (if p(xs[0]) then 1 else 0) + CountIf(p, xs[1..])
  {
    CountAppend(p, [xs[0]], xs[1..]);
    assert [xs[0]] + xs[1..] == xs;
    assert [xs[0]][..0] == [];
  }

  // Replacing one element changes the count by that element alone.
  lemma {:induction false} CountUpdate<T>(p: T -> bool, xs: seq<T>, i: nat, x: T)
    requires i < |xs|
    ensures CountIf(p, xs[i := x]) + (if p(xs[i]) then 1 else 0)
         == CountIf(p, xs) + (if p(x) then 1 else 0)
  {
    var n := |xs| - 1;
    if i == n {
      assert xs[i := x][..n] == xs[..n];
    } else {
      assert xs[i := x][..n] == xs[..n][i := x];
      CountUpdate(p, xs[..n], i, x);
    }
  }

  lemma {:induction false} CountZero<T>(p: T -> bool, xs: seq<T>)
    ensures CountIf(p, xs) == 0 <==> forall i :: 0 <= i < |xs| ==> !p(xs[i])
  {
    if xs != [] {
      var n := |xs| - 1;
      CountZero(p, xs[..n]);
      assert forall i :: 0 <= i < n ==> xs[..n][i] == xs[i];
      assert (forall i :: 0 <= i < |xs| ==> !p(xs[i]))
        <==> !p(xs[n]) && (forall i :: 0 <= i < n ==> !p(xs[..n][i]));
    }
  }

  // Strictly rising positions.
  predicate Rising(ks: seq<nat>)
  {
    forall i, j :: 0 <= i < j < |ks| ==> ks[i] < ks[j]
  }
}
