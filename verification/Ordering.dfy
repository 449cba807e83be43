/** Finite sets of integers in ascending order: what `min` and `sorted` give. */
module Ordering {

  predicate Ascending(xs: seq<int>) {
    forall i, j :: 0 <= i < j < |xs| ==> xs[i] < xs[j]
  }

  predicate IsLeast(s: set<int>, m: int) {
    m in s && forall x :: x in s ==> m <= x
  }

  lemma Inhabited(s: set<int>)
    ensures s == {} || exists x :: x in s
  {
    if forall x :: x !in s {
      assert s == {};
    }
  }

  lemma LeastExists(s: set<int>)
    requires s != {}
    ensures exists m :: IsLeast(s, m)
  {
    Inhabited(s);
    var x :| x in s;
    var rest := s - {x};
    Inhabited(rest);
    if forall y :: y !in rest {
      forall y | y in s ensures x <= y { assert y == x || y in rest; }
      assert IsLeast(s, x);
    } else {
      LeastExists(rest);
      var m :| IsLeast(rest, m);
      assert forall y :: y in s ==> y == x || y in rest;
      assert IsLeast(s, if m <= x then m else x);
    }
  }

  function Least(s: set<int>): (m: int)
    requires s != {}
    ensures IsLeast(s, m)
  {
    LeastExists(s);
    var m :| IsLeast(s, m);
    m
  }

  function Sorted(s: set<int>): (xs: seq<int>)
    ensures Ascending(xs)
    ensures forall x :: x in xs <==> x in s
    ensures |xs| == |s|
  {
    if s == {} then []
    else
      var m := Least(s);
      [m] + Sorted(s - {m})
  }

  /** An ascending sequence is determined by its elements. */
  lemma {:induction false} AscendingIsUnique(xs: seq<int>, ys: seq<int>)
    requires Ascending(xs) && Ascending(ys) && forall x :: x in xs <==> x in ys
    ensures xs == ys
  {
    if xs == [] {
      assert forall i :: 0 <= i < |ys| ==> ys[i] in xs;
    } else {
      assert xs[0] in xs;
      assert xs[0] in ys;
      assert ys[0] in ys;
      assert ys[0] in xs;
      assert xs[0] == ys[0];
      forall x ensures x in xs[1..] <==> x in ys[1..] {
        if x in xs[1..] { assert x in ys && x != ys[0]; }
        if x in ys[1..] { assert x in xs && x != xs[0]; }
      }
      AscendingIsUnique(xs[1..], ys[1..]);
    }
  }
}
