/** Windows of numbers, z-normalised, and how alike two of them are. Over exact reals; the square
    root is a parameter. */
module Correlation {
  import opened Sums
  import opened Wrappers

  type Window = seq<real>

  function Times(x: real, y: real): real {
    x * y
  }

  function Dot(xs: Window, ys: Window): real
    requires |xs| == |ys|
  {
    if xs == [] then 0.0
    else Dot(xs[..|xs| - 1], ys[..|ys| - 1]) + Times(xs[|xs| - 1], ys[|ys| - 1])
  }

  /** A multiple of one window taken off another. */
  function Less(xs: Window, t: real, ys: Window): (r: Window)
    requires |xs| == |ys|
    ensures |r| == |xs|
  {
    seq(|xs|, i requires 0 <= i < |xs| => xs[i] - Times(t, ys[i]))
  }

  function Shifted(xs: Window, c: real): (r: Window)
    ensures |r| == |xs|
  {
    seq(|xs|, i requires 0 <= i < |xs| => xs[i] - c)
  }

  function Divided(xs: Window, s: real): (r: Window)
    requires s != 0.0
    ensures |r| == |xs|
  {
    seq(|xs|, i requires 0 <= i < |xs| => xs[i] / s)
  }

  // ---- sums ------------------------------------------------------------------------------

  lemma {:induction false} DotAppend(xs: Window, ys: Window, us: Window, vs: Window)
    requires |xs| == |us| && |ys| == |vs|
    ensures Dot(xs + ys, us + vs) == Dot(xs, us) + Dot(ys, vs)
  {
    if ys == [] {
      assert xs + ys == xs && us + vs == us;
    } else {
      assert (xs + ys)[..|xs + ys| - 1] == xs + ys[..|ys| - 1];
      assert (us + vs)[..|us + vs| - 1] == us + vs[..|vs| - 1];
      DotAppend(xs, ys[..|ys| - 1], us, vs[..|vs| - 1]);
    }
  }

  lemma {:induction false} DotCommutes(xs: Window, ys: Window)
    requires |xs| == |ys|
    ensures Dot(xs, ys) == Dot(ys, xs)
  {
    if xs != [] { DotCommutes(xs[..|xs| - 1], ys[..|ys| - 1]); }
  }

  lemma {:induction false} DotLess(xs: Window, t: real, ys: Window, zs: Window)
    requires |xs| == |ys| == |zs|
    ensures Dot(Less(xs, t, ys), zs) == Dot(xs, zs) - Times(t, Dot(ys, zs))
  {
    if xs != [] {
      var n := |xs| - 1;
      DotLess(xs[..n], t, ys[..n], zs[..n]);
      assert Less(xs, t, ys)[..n] == Less(xs[..n], t, ys[..n]);
      Spread(xs[n], t, ys[n], zs[n], Dot(ys[..n], zs[..n]));
    }
  }

  lemma Spread(x: real, t: real, y: real, z: real, d: real)
    ensures Times(x - Times(t, y), z) - Times(t, d) == Times(x, z) - Times(t, d + Times(y, z))
  {
    assert t * (d + y * z) == t * d + (t * y) * z;
    assert (x - t * y) * z == x * z - (t * y) * z;
  }

  lemma {:induction false} SquaresArePositive(xs: Window)
    ensures Dot(xs, xs) >= 0.0
  {
    if xs != [] { SquaresArePositive(xs[..|xs| - 1]); }
  }

  /** The square of a difference, spelled out. */
  lemma LessSquared(xs: Window, t: real, ys: Window)
    requires |xs| == |ys|
    ensures var d := Less(xs, t, ys);
            Dot(d, d) == Dot(xs, xs) - Times(t, Dot(xs, ys)) - Times(t, Dot(xs, ys)) + Times(t, Times(t, Dot(ys, ys)))
  {
    var d := Less(xs, t, ys);
    DotLess(xs, t, ys, d);
    DotLess(xs, t, ys, xs);
    DotLess(xs, t, ys, ys);
    DotCommutes(d, xs);
    DotCommutes(d, ys);
    DotCommutes(ys, xs);
    TimesOver(t, Dot(xs, ys), Times(t, Dot(ys, ys)));
  }

  lemma TimesOver(t: real, x: real, y: real)
    ensures Times(t, x - y) == Times(t, x) - Times(t, y)
  {
  }

  function Ones(n: nat): (r: Window)
    ensures |r| == n
  {
    seq(n, _ => 1.0)
  }

  lemma ShiftIsLess(xs: Window, c: real)
    ensures Shifted(xs, c) == Less(xs, c, Ones(|xs|))
  {
  }

  lemma {:induction false} DotOnes(xs: Window)
    ensures Dot(Ones(|xs|), xs) == Sum(xs) == Dot(xs, Ones(|xs|))
  {
    if xs != [] {
      DotOnes(xs[..|xs| - 1]);
      assert Ones(|xs|)[..|xs| - 1] == Ones(|xs| - 1);
    }
  }

  lemma {:induction false} OnesSquared(n: nat)
    ensures Dot(Ones(n), Ones(n)) == n as real == Sum(Ones(n))
  {
    if n > 0 {
      OnesSquared(n - 1);
      assert Ones(n)[..n - 1] == Ones(n - 1);
    }
  }

  lemma DotShifted(xs: Window, c: real, zs: Window)
    requires |xs| == |zs|
    ensures Dot(Shifted(xs, c), zs) == Dot(xs, zs) - Times(c, Sum(zs))
  {
    ShiftIsLess(xs, c);
    DotLess(xs, c, Ones(|xs|), zs);
    DotOnes(zs);
  }

  lemma SumShifted(xs: Window, c: real)
    ensures Sum(Shifted(xs, c)) == Sum(xs) - Times(c, |xs| as real)
  {
    DotShifted(xs, c, Ones(|xs|));
    DotOnes(Shifted(xs, c));
    DotOnes(xs);
    OnesSquared(|xs|);
  }

  lemma ShiftedSquared(xs: Window, c: real)
    ensures Dot(Shifted(xs, c), Shifted(xs, c))
         == Dot(xs, xs) - Times(c, Sum(xs)) - Times(c, Sum(xs)) + Times(c, Times(c, |xs| as real))
  {
    ShiftIsLess(xs, c);
    LessSquared(xs, c, Ones(|xs|));
    DotOnes(xs);
    OnesSquared(|xs|);
  }

  lemma {:induction false} DotDivided(xs: Window, s: real, zs: Window)
    requires |xs| == |zs| && s != 0.0
    ensures Dot(Divided(xs, s), zs) == Dot(xs, zs) / s
  {
    if xs != [] {
      var n := |xs| - 1;
      DotDivided(xs[..n], s, zs[..n]);
      assert Divided(xs, s)[..n] == Divided(xs[..n], s);
      SpreadQuotient(Dot(xs[..n], zs[..n]), xs[n], zs[n], s);
    }
  }

  lemma SpreadQuotient(d: real, x: real, z: real, s: real)
    requires s != 0.0
    ensures d / s + Times(x / s, z) == (d + Times(x, z)) / s
  {
    assert (x / s) * z == (x * z) / s;
    assert d / s + (x * z) / s == (d + x * z) / s;
  }

  // ---- mean and deviation ----------------------------------------------------------------

  function Mean(xs: Window): real
    requires xs != []
  {
    Sum(xs) / |xs| as real
  }

  function Variance(xs: Window): real
    requires xs != []
  {
    Dot(Shifted(xs, Mean(xs)), Shifted(xs, Mean(xs))) / |xs| as real
  }

  ghost predicate IsSqrt(sqrt: real -> real) {
    forall x :: x >= 0.0 ==> sqrt(x) >= 0.0 && Times(sqrt(x), sqrt(x)) == x
  }

  /** What the prefix sums give: the mean square less the squared mean. */
  lemma VarianceFromSums(xs: Window)
    requires xs != []
    ensures Variance(xs) == Dot(xs, xs) / |xs| as real - Times(Mean(xs), Mean(xs)) >= 0.0
  {
    ShiftedSquared(xs, Mean(xs));
    SquaresArePositive(Shifted(xs, Mean(xs)));
    VarianceAlgebra(Dot(xs, xs), Sum(xs), |xs| as real, Dot(Shifted(xs, Mean(xs)), Shifted(xs, Mean(xs))));
  }

  lemma VarianceAlgebra(d: real, s: real, n: real, v: real)
    requires n > 0.0 && v == d - Times(s / n, s) - Times(s / n, s) + Times(s / n, Times(s / n, n)) && v >= 0.0
    ensures v / n == d / n - Times(s / n, s / n) >= 0.0
  {
    var m := s / n;
    assert s == m * n;
    assert m * (m * n) == (m * m) * n;
    assert v == d - (m * m) * n;
    assert (d - (m * m) * n) / n == d / n - ((m * m) * n) / n;
    assert ((m * m) * n) / n == m * m;
  }

  lemma ShiftMovesOnlyTheMean(xs: Window, c: real)
    requires xs != []
    ensures Mean(Shifted(xs, c)) == Mean(xs) - c
    ensures Shifted(Shifted(xs, c), Mean(xs) - c) == Shifted(xs, Mean(xs))
    ensures Variance(Shifted(xs, c)) == Variance(xs)
  {
    SumShifted(xs, c);
    var n := |xs| as real;
    assert (Sum(xs) - c * n) / n == Sum(xs) / n - c;
  }

  // ---- z-normalised windows and their scores ---------------------------------------------

  const FLAT_SD := 0.000001

  function Deviation(sqrt: real -> real, xs: Window): real
    requires xs != []
  {
    sqrt(Variance(xs))
  }

  /** Mean 0 and deviation 1, unless the window is flat. */
  function ZNorm(sqrt: real -> real, xs: Window): (z: Option<Window>)
    requires xs != []
    ensures z.Some? <==> Deviation(sqrt, xs) > FLAT_SD
    ensures z.Some? ==> |z.value| == |xs|
  {
    if Deviation(sqrt, xs) > FLAT_SD then Some(Divided(Shifted(xs, Mean(xs)), Deviation(sqrt, xs))) else None
  }

  /** What a z-normalised query is known by. */
  ghost predicate Normal(q: Window) {
    q != [] && Sum(q) == 0.0 && Dot(q, q) == |q| as real
  }

  lemma ZNormIsNormal(sqrt: real -> real, xs: Window)
    requires IsSqrt(sqrt) && xs != [] && ZNorm(sqrt, xs).Some?
    ensures Normal(ZNorm(sqrt, xs).value)
  {
    var c, sd := Shifted(xs, Mean(xs)), Deviation(sqrt, xs);
    DeviationsCancel(xs);
    DividedSum(c, sd);
    DeviationSquared(sqrt, xs);
    DividedSquare(c, sd);
    SelfScore(Dot(c, c), sd, |xs| as real);
  }

  lemma DeviationsCancel(xs: Window)
    requires xs != []
    ensures Sum(Shifted(xs, Mean(xs))) == 0.0
  {
    SumShifted(xs, Mean(xs));
  }

  lemma DeviationSquared(sqrt: real -> real, xs: Window)
    requires IsSqrt(sqrt) && xs != []
    ensures Times(Deviation(sqrt, xs), Deviation(sqrt, xs)) == Variance(xs)
  {
    VarianceFromSums(xs);
  }

  lemma DividedSum(c: Window, sd: real)
    requires sd != 0.0
    ensures Sum(Divided(c, sd)) == Sum(c) / sd
  {
    DotOnes(Divided(c, sd));
    DotOnes(c);
    DotDivided(c, sd, Ones(|c|));
  }

  lemma DividedSquare(c: Window, sd: real)
    requires sd != 0.0
    ensures Dot(Divided(c, sd), Divided(c, sd)) == Dot(c, c) / sd / sd
  {
    DotDivided(c, sd, Divided(c, sd));
    DotCommutes(c, Divided(c, sd));
    DotDivided(c, sd, c);
  }

  lemma SelfScore(d: real, sd: real, n: real)
    requires n > 0.0 && sd > 0.0 && Times(sd, sd) == d / n
    ensures d / sd / sd == n
  {
    assert d == (sd * sd) * n;
    assert ((sd * sd) * n) / sd == sd * n;
    assert (sd * n) / sd == n;
  }

  /** `search_now`: the mean product of two z-normalised windows. */
  function NowScore(z: Window, q: Window): real
    requires |z| == |q| > 0
  {
    Dot(z, q) / |q| as real
  }

  /** `search_history`: the plain cross product with the query, divided once. */
  function HistoryScore(xs: Window, q: Window, sd: real): real
    requires |xs| == |q| > 0 && sd != 0.0
  {
    Dot(xs, q) / Times(|q| as real, sd)
  }

  /** The window need not be normalised first: against a query of sum 0 its mean does not count. */
  lemma ScoresAgree(sqrt: real -> real, xs: Window, q: Window)
    requires |xs| == |q| && Normal(q) && ZNorm(sqrt, xs).Some?
    ensures HistoryScore(xs, q, Deviation(sqrt, xs)) == NowScore(ZNorm(sqrt, xs).value, q)
  {
    var sd := Deviation(sqrt, xs);
    DotDivided(Shifted(xs, Mean(xs)), sd, q);
    DotShifted(xs, Mean(xs), q);
    DivideOnce(Dot(xs, q), |q| as real, sd);
  }

  lemma DivideOnce(d: real, n: real, sd: real)
    requires n > 0.0 && sd > 0.0
    ensures d / Times(n, sd) == d / sd / n
  {
    var x := d / sd / n;
    assert d / sd == x * n;
    assert d == (x * n) * sd;
    assert d == x * (n * sd);
  }

  /** Two normal windows score between -1 and 1. */
  lemma ScoreInRange(z: Window, q: Window)
    requires |z| == |q| && Normal(z) && Normal(q)
    ensures -1.0 <= NowScore(z, q) <= 1.0
  {
    LessSquared(z, 1.0, q);
    SquaresArePositive(Less(z, 1.0, q));
    LessSquared(z, -1.0, q);
    SquaresArePositive(Less(z, -1.0, q));
    var d, n := Dot(z, q), |q| as real;
    assert Times(1.0, d) == d && Times(-1.0, d) == -d;
    assert Times(1.0, Times(1.0, Dot(q, q))) == n && Times(-1.0, Times(-1.0, Dot(q, q))) == n;
    assert -n <= d <= n;
    InUnits(d, n);
  }

  lemma InUnits(d: real, n: real)
    requires n > 0.0 && -n <= d <= n
    ensures -1.0 <= d / n <= 1.0
  {
    var x := d / n;
    assert d == x * n;
    if x > 1.0 { MulAbove(x, 1.0, n); }
    if x < -1.0 { MulAbove(-1.0, x, n); }
  }

  lemma MulAbove(x: real, y: real, n: real)
    requires x > y && n > 0.0
    ensures x * n > y * n
  {
    assert (x - y) * n > 0.0;
  }

  /** A window scores 1 against itself, so nothing matches better than the query. */
  lemma QueryScoresOne(sqrt: real -> real, xs: Window)
    requires IsSqrt(sqrt) && xs != [] && ZNorm(sqrt, xs).Some?
    ensures HistoryScore(xs, ZNorm(sqrt, xs).value, Deviation(sqrt, xs)) == 1.0
  {
    var z := ZNorm(sqrt, xs).value;
    ZNormIsNormal(sqrt, xs);
    ScoresAgree(sqrt, xs, z);
    OverItself(|z| as real);
    assert NowScore(z, z) == Dot(z, z) / |z| as real;
  }

  lemma OverItself(n: real)
    requires n > 0.0
    ensures n / n == 1.0
  {
  }

  /** A constant taken off every number of a window is not seen: not in whether it is flat, not in
      its normal form, not in its score against any normal query. */
  lemma ShiftIsNotSeen(sqrt: real -> real, xs: Window, c: real, q: Window)
    requires |xs| == |q| && Normal(q)
    ensures Deviation(sqrt, Shifted(xs, c)) == Deviation(sqrt, xs)
    ensures ZNorm(sqrt, Shifted(xs, c)) == ZNorm(sqrt, xs)
    ensures Dot(Shifted(xs, c), q) == Dot(xs, q)
  {
    ShiftMovesOnlyTheMean(xs, c);
    DotShifted(xs, c, q);
  }
}
