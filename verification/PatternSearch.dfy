/** Sliding a query window over every stock's history, and over its latest bars only. */
module PatternSearch {
  import opened Wrappers
  import opened Correlation
  import opened Sums

  datatype Axis = Close | Candle

  /** One stock: its four centred log price rows (open, high, low, close), turnover and dates. */
  datatype Series = Series(etf: bool, rows: seq<seq<real>>, turnover: seq<real>, dates: seq<int>) {
    predicate Valid() {
      && |rows| == 4 && |dates| > 0 && |turnover| == |dates|
      && forall k :: 0 <= k < 4 ==> |rows[k]| == |dates|
    }

    function Bars(): nat {
      |dates|
    }

    /** The channels an axis looks at: the close alone, or all four. */
    function Channels(axis: Axis): (r: seq<seq<real>>)
      requires Valid()
      ensures |r| > 0 && forall k :: 0 <= k < |r| ==> |r[k]| == Bars()
    {
      if axis.Close? then [rows[3]] else rows
    }

    function Window(axis: Axis, j: nat, len: nat): (w: seq<real>)
      requires Valid() && j + len <= Bars()
      ensures |w| == |Channels(axis)| * len
      ensures len > 0 ==> w != []
    {
      assert len > 0 ==> |Channels(axis)| * len > 0;
      Flat(Channels(axis), j, len)
    }
  }

  /** The same stretch of several rows, one after the other. */
  function Flat(rows: seq<seq<real>>, j: nat, len: nat): (w: seq<real>)
    requires forall k :: 0 <= k < |rows| ==> j + len <= |rows[k]|
    ensures |w| == |rows| * len
  {
    if rows == [] then []
    else Flat(rows[..|rows| - 1], j, len) + rows[|rows| - 1][j..j + len]
  }

  lemma FlatSnoc(rows: seq<seq<real>>, k: nat, j: nat, len: nat)
    requires k < |rows| && forall k :: 0 <= k < |rows| ==> j + len <= |rows[k]|
    ensures Flat(rows[..k + 1], j, len) == Flat(rows[..k], j, len) + rows[k][j..j + len]
  {
    assert rows[..k + 1][..k] == rows[..k];
  }

  // ---- prefix sums -----------------------------------------------------------------------

  predicate IsCumSum(c: seq<real>, xs: seq<real>) {
    |c| == |xs| + 1 && forall k :: 0 <= k <= |xs| ==> c[k] == Sum(xs[..k])
  }

  method CumSum(xs: seq<real>) returns (c: seq<real>)
    ensures IsCumSum(c, xs)
  {
    c := [0.0];
    for k := 0 to |xs|
      invariant |c| == k + 1 && forall i :: 0 <= i <= k ==> c[i] == Sum(xs[..i])
    {
      assert xs[..k + 1][..k] == xs[..k];
      c := c + [c[k] + xs[k]];
    }
  }

  /** The difference of two prefix sums is the sum over the window between them. */
  lemma CumSumDifference(c: seq<real>, xs: seq<real>, j: nat, len: nat)
    requires IsCumSum(c, xs) && j + len <= |xs|
    ensures c[j + len] - c[j] == Sum(xs[j..j + len])
  {
    SumAppend(xs[..j], xs[j..j + len]);
    assert xs[..j] + xs[j..j + len] == xs[..j + len];
  }

  function Squares(xs: seq<real>): (r: seq<real>)
    ensures |r| == |xs|
  {
    seq(|xs|, i requires 0 <= i < |xs| => Times(xs[i], xs[i]))
  }

  lemma {:induction false} SumOfSquares(xs: seq<real>)
    ensures Sum(Squares(xs)) == Dot(xs, xs)
  {
    if xs != [] {
      assert Squares(xs)[..|xs| - 1] == Squares(xs[..|xs| - 1]);
      SumOfSquares(xs[..|xs| - 1]);
    }
  }


  /** One channel's share of the window sums, added in place. */
  method AddWindowSums(total: array<real>, xs: seq<real>, len: nat)
    requires 0 < len <= |xs| && total.Length == |xs| - len + 1
    modifies total
    ensures forall j :: 0 <= j < total.Length ==> total[j] == old(total[j]) + Sum(xs[j..j + len])
  {
    var c := CumSum(xs);
    for j := 0 to total.Length
      invariant forall i :: 0 <= i < j ==> total[i] == old(total[i]) + Sum(xs[i..i + len])
      invariant forall i :: j <= i < total.Length ==> total[i] == old(total[i])
    {
      CumSumDifference(c, xs, j, len);
      total[j] := total[j] + (c[j + len] - c[j]);
    }
  }

  predicate Aligned(rows: seq<seq<real>>, bars: nat) {
    forall k :: 0 <= k < |rows| ==> |rows[k]| == bars
  }

  /** The sums and the sums of squares of every window of these channels. */
  predicate HasSums(total: seq<real>, sq: seq<real>, rows: seq<seq<real>>, bars: nat, len: nat)
    requires Aligned(rows, bars) && len <= bars
  {
    && |total| == |sq| == bars - len + 1
    && forall j :: 0 <= j < |total| ==>
         total[j] == Sum(Flat(rows, j, len)) && sq[j] == Dot(Flat(rows, j, len), Flat(rows, j, len))
  }

  method AddChannel(total: array<real>, sq: array<real>, rows: seq<seq<real>>, k: nat, bars: nat, len: nat)
    requires Aligned(rows, bars) && 0 < len <= bars && k < |rows| && total != sq
    requires HasSums(total[..], sq[..], rows[..k], bars, len)
    modifies total, sq
    ensures HasSums(total[..], sq[..], rows[..k + 1], bars, len)
  {
    ghost var total0, sq0 := total[..], sq[..];
    AddWindowSums(total, rows[k], len);
    AddWindowSums(sq, Squares(rows[k]), len);
    forall j | 0 <= j < total.Length
      ensures total[j] == Sum(Flat(rows[..k + 1], j, len))
      ensures sq[j] == Dot(Flat(rows[..k + 1], j, len), Flat(rows[..k + 1], j, len))
    {
      assert total[j] == total0[j] + Sum(rows[k][j..j + len]);
      assert sq[j] == sq0[j] + Sum(Squares(rows[k])[j..j + len]);
      OneMoreChannel(rows, k, j, len);
    }
  }

  method ChannelSums(rows: seq<seq<real>>, bars: nat, len: nat) returns (total: array<real>, sq: array<real>)
    requires Aligned(rows, bars) && 0 < len <= bars
    ensures fresh(total) && fresh(sq) && HasSums(total[..], sq[..], rows, bars, len)
  {
    total := new real[bars - len + 1](_ => 0.0);
    sq := new real[bars - len + 1](_ => 0.0);
    for k := 0 to |rows|
      invariant HasSums(total[..], sq[..], rows[..k], bars, len)
    {
      AddChannel(total, sq, rows, k, bars, len);
    }
    assert rows[..|rows|] == rows;
  }

  /** Mean and deviation of every window, from prefix sums: exactly those of the window itself, all
      channels on one scale. */
  method WinStats(rows: seq<seq<real>>, bars: nat, len: nat, sqrt: real -> real)
    returns (means: array<real>, sds: array<real>)
    requires Aligned(rows, bars) && rows != [] && 0 < len <= bars
    ensures fresh(means) && fresh(sds) && means.Length == sds.Length == bars - len + 1
    ensures HasStats(sqrt, rows, bars, len, means[..], sds[..])
  {
    var total, sq := ChannelSums(rows, bars, len);
    means := new real[total.Length];
    sds := new real[total.Length];
    ghost var sums, squares := total[..], sq[..];
    for j := 0 to total.Length
      invariant total[..] == sums && sq[..] == squares
      invariant forall i :: 0 <= i < j ==> IsStats(sqrt, Flat(rows, i, len), means[i], sds[i])
    {
      ghost var w := Flat(rows, j, len);
      assert sums[j] == Sum(w) && squares[j] == Dot(w, w);
      var m, sd := Stats(total[j], sq[j], |rows| * len, sqrt, w);
      means[j] := m;
      sds[j] := sd;
    }
  }

  ghost predicate HasStats(sqrt: real -> real, rows: seq<seq<real>>, bars: nat, len: nat,
                           means: seq<real>, sds: seq<real>)
    requires Aligned(rows, bars) && len <= bars
  {
    && |means| == |sds| == bars - len + 1
    && forall j :: 0 <= j < |means| ==> IsStats(sqrt, Flat(rows, j, len), means[j], sds[j])
  }

  ghost predicate IsStats(sqrt: real -> real, w: seq<real>, mean: real, sd: real) {
    w != [] && mean == Mean(w) && sd == Deviation(sqrt, w)
  }

  method Stats(total: real, sq: real, count: nat, sqrt: real -> real, ghost w: seq<real>) returns (mean: real, sd: real)
    requires count == |w| > 0 && total == Sum(w) && sq == Dot(w, w)
    ensures IsStats(sqrt, w, mean, sd)
  {
    VarianceFromSums(w);
    mean := total / count as real;
    var square := sq / count as real - Times(mean, mean);
    sd := sqrt(if square < 0.0 then 0.0 else square);
  }

  lemma OneMoreChannel(rows: seq<seq<real>>, k: nat, j: nat, len: nat)
    requires k < |rows| && forall k :: 0 <= k < |rows| ==> j + len <= |rows[k]|
    ensures var before, row, after := Flat(rows[..k], j, len), rows[k][j..j + len], Flat(rows[..k + 1], j, len);
            && Sum(after) == Sum(before) + Sum(row)
            && Dot(after, after) == Dot(before, before) + Sum(Squares(rows[k])[j..j + len])
  {
    var before, row := Flat(rows[..k], j, len), rows[k][j..j + len];
    FlatSnoc(rows, k, j, len);
    SumAppend(before, row);
    DotAppend(before, row, before, row);
    SumOfSquares(row);
    assert Squares(row) == Squares(rows[k])[j..j + len];
  }

  // ---- the cross product with the query --------------------------------------------------

  predicate HasCross(cross: seq<real>, rows: seq<seq<real>>, bars: nat, len: nat, q: seq<real>)
    requires Aligned(rows, bars) && len <= bars && |q| == |rows| * len
  {
    |cross| == bars - len + 1 && forall j :: 0 <= j < |cross| ==> cross[j] == Dot(Flat(rows, j, len), q)
  }

  /** `np.correlate(xs, q, mode="valid")`, added in place. */
  method AddCorrelate(cross: array<real>, xs: seq<real>, q: seq<real>)
    requires 0 < |q| <= |xs| && cross.Length == |xs| - |q| + 1
    modifies cross
    ensures forall j :: 0 <= j < cross.Length ==> cross[j] == old(cross[j]) + Dot(xs[j..j + |q|], q)
  {
    for j := 0 to cross.Length
      invariant forall i :: 0 <= i < j ==> cross[i] == old(cross[i]) + Dot(xs[i..i + |q|], q)
      invariant forall i :: j <= i < cross.Length ==> cross[i] == old(cross[i])
    {
      cross[j] := cross[j] + Dot(xs[j..j + |q|], q);
    }
  }

  lemma OneMoreProduct(rows: seq<seq<real>>, k: nat, j: nat, len: nat, q: seq<real>)
    requires k < |rows| && |q| == |rows| * len && forall k :: 0 <= k < |rows| ==> j + len <= |rows[k]|
    ensures k * len + len == (k + 1) * len <= |q|
    ensures Dot(Flat(rows[..k + 1], j, len), q[..(k + 1) * len])
         == Dot(Flat(rows[..k], j, len), q[..k * len]) + Dot(rows[k][j..j + len], q[k * len..k * len + len])
  {
    ChannelFits(k, |rows|, len);
    FlatSnoc(rows, k, j, len);
    assert q[..(k + 1) * len] == q[..k * len] + q[k * len..k * len + len];
    DotAppend(Flat(rows[..k], j, len), rows[k][j..j + len], q[..k * len], q[k * len..k * len + len]);
  }

  lemma ChannelFits(k: nat, channels: nat, len: nat)
    requires k < channels
    ensures k * len + len == (k + 1) * len <= channels * len
  {
    Product(channels - (k + 1), len);
    assert channels * len == (k + 1) * len + (channels - (k + 1)) * len;
  }

  lemma Product(m: nat, n: nat)
    ensures m * n >= 0
  {
  }

  method AddProduct(cross: array<real>, rows: seq<seq<real>>, k: nat, bars: nat, len: nat, q: seq<real>)
    requires Aligned(rows, bars) && 0 < len <= bars && k < |rows| && |q| == |rows| * len
    requires k * len <= |q| && HasCross(cross[..], rows[..k], bars, len, q[..k * len])
    modifies cross
    ensures (k + 1) * len <= |q| && HasCross(cross[..], rows[..k + 1], bars, len, q[..(k + 1) * len])
  {
    ghost var cross0 := cross[..];
    ChannelFits(k, |rows|, len);
    AddCorrelate(cross, rows[k], q[k * len..k * len + len]);
    forall j | 0 <= j < cross.Length
      ensures cross[j] == Dot(Flat(rows[..k + 1], j, len), q[..(k + 1) * len])
    {
      assert cross[j] == cross0[j] + Dot(rows[k][j..j + len], q[k * len..k * len + len]);
      OneMoreProduct(rows, k, j, len, q);
    }
  }

  method Cross(rows: seq<seq<real>>, bars: nat, len: nat, q: seq<real>) returns (cross: array<real>)
    requires Aligned(rows, bars) && 0 < len <= bars && |q| == |rows| * len
    ensures fresh(cross) && HasCross(cross[..], rows, bars, len, q)
  {
    cross := new real[bars - len + 1](_ => 0.0);
    for k := 0 to |rows|
      invariant k * len <= |q| && HasCross(cross[..], rows[..k], bars, len, q[..k * len])
    {
      AddProduct(cross, rows, k, bars, len, q);
    }
    assert rows[..|rows|] == rows && q[..|rows| * len] == q;
  }

  // ---- which windows count ---------------------------------------------------------------

  const EOK := 100000000.0

  datatype Options = Options(axis: Axis, minTurnover: real, excludeEtf: bool, minAfter: nat, noOverlap: bool)

  /** A stock and the bars of it, first to last, that are looked for. */
  datatype Query = Query(stock: nat, first: nat, last: nat) {
    function Len(): int {
      last - first + 1
    }

    predicate Covers(t: int) {
      first <= t <= last
    }
  }

  predicate ValidSearch(c: seq<Series>, q: Query) {
    && (forall i :: 0 <= i < |c| ==> c[i].Valid())
    && q.stock < |c| && q.first <= q.last < c[q.stock].Bars()
  }

  predicate Thick(s: Series, j: nat, len: nat, floor: real)
    requires s.Valid() && 0 < len && j + len <= s.Bars()
  {
    floor > 0.0 ==> Mean(s.turnover[j..j + len]) >= Times(floor, EOK)
  }

  /** The window and the query share a bar. */
  predicate SharesABar(j: nat, q: Query) {
    exists t :: j <= t < j + q.Len() && q.Covers(t)
  }

  /** The window's dates and the query's meet. */
  predicate DatesMeet(c: seq<Series>, q: Query, i: nat, j: nat)
    requires ValidSearch(c, q) && i < |c| && j + q.Len() <= c[i].Bars()
  {
    var d := c[q.stock].dates;
    c[i].dates[j] <= d[q.last] && c[i].dates[j + q.Len() - 1] >= d[q.first]
  }

  predicate Eligible(c: seq<Series>, q: Query, o: Options, i: nat)
    requires ValidSearch(c, q) && i < |c|
  {
    !(o.excludeEtf && c[i].etf) && q.Len() + o.minAfter <= c[i].Bars()
  }

  ghost predicate Kept(c: seq<Series>, q: Query, o: Options, sqrt: real -> real, i: nat, j: nat)
    requires ValidSearch(c, q) && i < |c|
  {
    && j + q.Len() + o.minAfter <= c[i].Bars()
    && Deviation(sqrt, c[i].Window(o.axis, j, q.Len())) > FLAT_SD
    && Thick(c[i], j, q.Len(), o.minTurnover)
    && !(o.noOverlap && DatesMeet(c, q, i, j))
    && !(i == q.stock && SharesABar(j, q))
  }

  ghost function ScoreOf(c: seq<Series>, q: Query, o: Options, sqrt: real -> real, z: seq<real>, i: nat, j: nat)
    : Option<real>
    requires ValidSearch(c, q) && i < |c| && |z| == |c[i].Channels(o.axis)| * q.Len()
  {
    if Kept(c, q, o, sqrt, i, j) then
      var w := c[i].Window(o.axis, j, q.Len());
      Some(HistoryScore(w, z, Deviation(sqrt, w)))
    else None
  }

  // ---- scoring one stock -----------------------------------------------------------------

  method RollMean(xs: seq<real>, len: nat) returns (r: array<real>)
    requires 0 < len <= |xs|
    ensures fresh(r) && r.Length == |xs| - len + 1
    ensures forall j :: 0 <= j < r.Length ==> r[j] == Mean(xs[j..j + len])
  {
    var c := CumSum(xs);
    r := new real[|xs| - len + 1];
    for j := 0 to r.Length
      invariant forall i :: 0 <= i < j ==> r[i] == Mean(xs[i..i + len])
    {
      CumSumDifference(c, xs, j, len);
      r[j] := (c[j + len] - c[j]) / len as real;
    }
  }

  /** `corr[mask] = -inf` */
  method Mask(corr: array<Option<real>>, gone: seq<bool>)
    requires |gone| == corr.Length
    modifies corr
    ensures forall j :: 0 <= j < corr.Length ==> corr[j] == if gone[j] then None else old(corr[j])
  {
    for j := 0 to corr.Length
      invariant forall i :: 0 <= i < j ==> corr[i] == if gone[i] then None else old(corr[i])
      invariant forall i :: j <= i < corr.Length ==> corr[i] == old(corr[i])
    {
      if gone[j] { corr[j] := None; }
    }
  }

  /** `corr[from:to] = -inf` */
  method MaskSlice(corr: array<Option<real>>, from: nat, to: nat)
    requires to <= corr.Length
    modifies corr
    ensures forall j :: 0 <= j < corr.Length ==> corr[j] == if from <= j < to then None else old(corr[j])
  {
    for j := from to if from <= to then to else from
      invariant forall i :: 0 <= i < corr.Length ==> corr[i] == if from <= i < j then None else old(corr[i])
    {
      corr[j] := None;
    }
  }

  /** `corr` before the filters: nothing where the window is flat. */
  ghost function SharpScore(rows: seq<seq<real>>, j: nat, len: nat, z: seq<real>, sqrt: real -> real): Option<real>
    requires (forall k :: 0 <= k < |rows| ==> j + len <= |rows[k]|) && |z| == |rows| * len > 0
  {
    var w := Flat(rows, j, len);
    if Deviation(sqrt, w) > FLAT_SD then Some(HistoryScore(w, z, Deviation(sqrt, w))) else None
  }

  method SharpScores(rows: seq<seq<real>>, bars: nat, len: nat, z: seq<real>, sqrt: real -> real)
    returns (corr: array<Option<real>>)
    requires Aligned(rows, bars) && rows != [] && 0 < len <= bars && |z| == |rows| * len > 0
    ensures fresh(corr) && corr.Length == bars - len + 1
    ensures forall j :: 0 <= j < corr.Length ==> corr[j] == SharpScore(rows, j, len, z, sqrt)
  {
    var means, sd := WinStats(rows, bars, len, sqrt);
    var cross := Cross(rows, bars, len, z);
    var sds, products := sd[..], cross[..];
    assert HasStats(sqrt, rows, bars, len, means[..], sds) && HasCross(products, rows, bars, len, z);
    corr := Divide(sds, products, rows, bars, len, z, sqrt);
  }

  method Divide(sds: seq<real>, products: seq<real>, rows: seq<seq<real>>, bars: nat, len: nat, z: seq<real>,
                ghost sqrt: real -> real)
    returns (corr: array<Option<real>>)
    requires Aligned(rows, bars) && 0 < len <= bars && |z| == |rows| * len > 0 && |sds| == |products| == bars - len + 1
    requires forall j :: 0 <= j < |sds| ==>
               sds[j] == Deviation(sqrt, Flat(rows, j, len)) && products[j] == Dot(Flat(rows, j, len), z)
    ensures fresh(corr) && corr.Length == bars - len + 1
    ensures forall j :: 0 <= j < corr.Length ==> corr[j] == SharpScore(rows, j, len, z, sqrt)
  {
    corr := new Option<real>[|sds|];
    for j := 0 to |sds|
      invariant forall i :: 0 <= i < j ==> corr[i] == SharpScore(rows, i, len, z, sqrt)
    {
      corr[j] := OneScore(products[j], sds[j], |rows| * len, sqrt, Flat(rows, j, len), z);
    }
  }

  method OneScore(cross: real, sd: real, count: nat, ghost sqrt: real -> real, ghost w: seq<real>, ghost z: seq<real>)
    returns (r: Option<real>)
    requires count == |w| == |z| > 0 && cross == Dot(w, z) && sd == Deviation(sqrt, w)
    ensures r == if Deviation(sqrt, w) > FLAT_SD then Some(HistoryScore(w, z, Deviation(sqrt, w))) else None
  {
    if sd <= FLAT_SD {
      return None;
    }
    return Some(cross / Times(count as real, sd));
  }

  /** Windows with too little turnover go. */
  method DropThin(corr: array<Option<real>>, s: Series, len: nat, floor: real)
    requires s.Valid() && 0 < len <= s.Bars() && corr.Length == s.Bars() - len + 1
    modifies corr
    ensures forall j :: 0 <= j < corr.Length ==> corr[j] == if Thick(s, j, len, floor) then old(corr[j]) else None
  {
    if floor > 0.0 {
      var rolled := RollMean(s.turnover, len);
      var means := rolled[..];
      Mask(corr, seq(|means|, j requires 0 <= j < |means| => means[j] < Times(floor, EOK)));
    }
  }

  /** Windows whose dates meet the query's go. */
  method DropContemporary(corr: array<Option<real>>, c: seq<Series>, q: Query, i: nat)
    requires ValidSearch(c, q) && i < |c| && q.Len() <= c[i].Bars() && corr.Length == c[i].Bars() - q.Len() + 1
    modifies corr
    ensures forall j :: 0 <= j < corr.Length ==> corr[j] == if DatesMeet(c, q, i, j) then None else old(corr[j])
  {
    var from, to := c[q.stock].dates[q.first], c[q.stock].dates[q.last];
    var d, len := c[i].dates, q.Len();
    Mask(corr, seq(corr.Length, j requires 0 <= j <= |d| - len => d[j] <= to && d[j + len - 1] >= from));
  }

  /** Windows that share a bar with the query go. */
  method DropSelf(corr: array<Option<real>>, q: Query)
    requires q.first <= q.last < corr.Length + q.Len() - 1
    modifies corr
    ensures forall j :: 0 <= j < corr.Length ==> corr[j] == if SharesABar(j, q) then None else old(corr[j])
  {
    var from := if q.first - q.Len() + 1 > 0 then q.first - q.Len() + 1 else 0;
    var to := if q.last + 1 < corr.Length then q.last + 1 else corr.Length;
    forall j | 0 <= j < corr.Length ensures SharesABar(j, q) <==> from <= j < to {
      if from <= j < to { assert q.Covers(if j < q.first then q.first else j); }
    }
    MaskSlice(corr, from, to);
  }

  /** All of one stock's scores. */
  method Scores(c: seq<Series>, q: Query, o: Options, sqrt: real -> real, z: seq<real>, i: nat)
    returns (corr: array<Option<real>>)
    requires ValidSearch(c, q) && i < |c| && Eligible(c, q, o, i) && |z| == |c[i].Channels(o.axis)| * q.Len()
    ensures fresh(corr) && corr.Length == c[i].Bars() - q.Len() + 1
    ensures forall j :: 0 <= j < corr.Length ==> corr[j] == ScoreOf(c, q, o, sqrt, z, i, j)
  {
    var s, len := c[i], q.Len();
    assert |s.Window(o.axis, 0, len)| > 0;
    corr := SharpScores(s.Channels(o.axis), s.Bars(), len, z, sqrt);
    DropThin(corr, s, len, o.minTurnover);
    if o.minAfter > 0 {
      MaskSlice(corr, corr.Length - o.minAfter, corr.Length);
    }
    if o.noOverlap {
      DropContemporary(corr, c, q, i);
    }
    if i == q.stock {
      DropSelf(corr, q);
    }
  }

  /** `np.argmax`: the first of the best, if anything is left. */
  method ArgMax(corr: array<Option<real>>) returns (best: Option<nat>)
    ensures best.None? <==> forall j :: 0 <= j < corr.Length ==> corr[j].None?
    ensures best.Some? ==>
              && best.value < corr.Length && corr[best.value].Some?
              && forall j :: 0 <= j < corr.Length && corr[j].Some? ==>
                   && corr[j].value <= corr[best.value].value
                   && (j < best.value ==> corr[j].value < corr[best.value].value)
  {
    best := None;
    for j := 0 to corr.Length
      invariant best.None? <==> forall i :: 0 <= i < j ==> corr[i].None?
      invariant best.Some? ==>
        && best.value < j && corr[best.value].Some?
        && forall i :: 0 <= i < j && corr[i].Some? ==>
             corr[i].value <= corr[best.value].value && (i < best.value ==> corr[i].value < corr[best.value].value)
    {
      if corr[j].Some? && (best.None? || corr[j].value > corr[best.value].value) {
        best := Some(j);
      }
    }
  }

  // ---- searching history -----------------------------------------------------------------

  datatype Hit = Hit(score: real, stock: nat, at: nat)

  datatype Error = FlatQuery

  ghost function QueryNorm(c: seq<Series>, q: Query, axis: Axis, sqrt: real -> real): Option<seq<real>>
    requires ValidSearch(c, q)
  {
    ZNorm(sqrt, c[q.stock].Window(axis, q.first, q.Len()))
  }

  /** The stock's best window that counts, the first of equals. */
  ghost predicate IsHit(c: seq<Series>, q: Query, o: Options, sqrt: real -> real, z: seq<real>, h: Hit)
    requires ValidSearch(c, q)
  {
    && h.stock < |c| && Eligible(c, q, o, h.stock) && |z| == |c[h.stock].Channels(o.axis)| * q.Len()
    && ScoreOf(c, q, o, sqrt, z, h.stock, h.at) == Some(h.score)
    && forall j: nat :: Kept(c, q, o, sqrt, h.stock, j) ==>
         var s := ScoreOf(c, q, o, sqrt, z, h.stock, j).value;
         s <= h.score && (j < h.at ==> s < h.score)
  }

  ghost predicate HasWindow(c: seq<Series>, q: Query, o: Options, sqrt: real -> real, i: nat)
    requires ValidSearch(c, q) && i < |c|
  {
    Eligible(c, q, o, i) && exists j: nat :: Kept(c, q, o, sqrt, i, j)
  }

  /** The hits of the first `n` stocks: one, the best, for each that has a window left. */
  ghost predicate HitsUpTo(c: seq<Series>, q: Query, o: Options, sqrt: real -> real, z: seq<real>,
                           hits: seq<Hit>, n: nat)
    requires ValidSearch(c, q) && n <= |c|
  {
    if n == 0 then hits == []
    else if HasWindow(c, q, o, sqrt, n - 1) then
      && hits != [] && hits[|hits| - 1].stock == n - 1 && IsHit(c, q, o, sqrt, z, hits[|hits| - 1])
      && HitsUpTo(c, q, o, sqrt, z, hits[..|hits| - 1], n - 1)
    else HitsUpTo(c, q, o, sqrt, z, hits, n - 1)
  }

  lemma {:induction false} HitsAreTheBest(c: seq<Series>, q: Query, o: Options, sqrt: real -> real, z: seq<real>,
                                          hits: seq<Hit>, n: nat, i: nat)
    requires ValidSearch(c, q) && n <= |c| && HitsUpTo(c, q, o, sqrt, z, hits, n) && i < n
    ensures HasWindow(c, q, o, sqrt, i) <==> exists h :: h in hits && h.stock == i
    ensures forall h :: h in hits ==> h.stock < n && IsHit(c, q, o, sqrt, z, h)
  {
    if HasWindow(c, q, o, sqrt, n - 1) {
      var init, last := hits[..|hits| - 1], hits[|hits| - 1];
      assert hits == init + [last];
      if i < n - 1 {
        HitsAreTheBest(c, q, o, sqrt, z, init, n - 1, i);
      } else if n > 1 {
        HitsAreTheBest(c, q, o, sqrt, z, init, n - 1, 0);
      }
    } else if n > 1 {
      HitsAreTheBest(c, q, o, sqrt, z, hits, n - 1, if i < n - 1 then i else 0);
    }
  }

  method BestOf(c: seq<Series>, q: Query, o: Options, sqrt: real -> real, z: seq<real>, i: nat)
    returns (hit: Option<Hit>)
    requires ValidSearch(c, q) && i < |c| && Eligible(c, q, o, i) && |z| == |c[i].Channels(o.axis)| * q.Len()
    ensures hit.Some? <==> HasWindow(c, q, o, sqrt, i)
    ensures hit.Some? ==> hit.value.stock == i && IsHit(c, q, o, sqrt, z, hit.value)
  {
    var corr := Scores(c, q, o, sqrt, z, i);
    ghost var scores := corr[..];
    assert forall j: nat :: Kept(c, q, o, sqrt, i, j) ==> j < |scores| && scores[j] == ScoreOf(c, q, o, sqrt, z, i, j);
    var best := ArgMax(corr);
    if best.None? {
      return None;
    }
    assert Kept(c, q, o, sqrt, i, best.value);
    return Some(Hit(corr[best.value].value, i, best.value));
  }

  // ---- ranking ---------------------------------------------------------------------------

  /** `sort(reverse=True)` on tuples: by score, then by stock, then by place, the greatest first. */
  predicate RanksBefore(g: Hit, h: Hit) {
    g.score > h.score || (g.score == h.score && (g.stock > h.stock || (g.stock == h.stock && g.at >= h.at)))
  }

  predicate Ranked(hits: seq<Hit>) {
    forall i, j :: 0 <= i < j < |hits| ==> RanksBefore(hits[i], hits[j])
  }

  function Placed(h: Hit, hits: seq<Hit>): seq<Hit> {
    if hits == [] || RanksBefore(h, hits[0]) then [h] + hits else [hits[0]] + Placed(h, hits[1..])
  }

  function Descending(hits: seq<Hit>): seq<Hit> {
    if hits == [] then [] else Placed(hits[|hits| - 1], Descending(hits[..|hits| - 1]))
  }

  lemma {:induction false} PlacedKeeps(h: Hit, hits: seq<Hit>)
    ensures multiset(Placed(h, hits)) == multiset(hits) + multiset{h}
    ensures forall g :: g in Placed(h, hits) <==> g == h || g in hits
  {
    if hits != [] && !RanksBefore(h, hits[0]) {
      assert hits == [hits[0]] + hits[1..];
      PlacedKeeps(h, hits[1..]);
    }
  }

  lemma {:induction false} PlacedRanks(h: Hit, hits: seq<Hit>)
    requires Ranked(hits)
    ensures Ranked(Placed(h, hits))
  {
    if hits != [] && !RanksBefore(h, hits[0]) {
      var rest := Placed(h, hits[1..]);
      PlacedRanks(h, hits[1..]);
      PlacedKeeps(h, hits[1..]);
      forall g | g in rest ensures RanksBefore(hits[0], g) {
        if g != h {
          var k :| 0 <= k < |hits[1..]| && hits[1..][k] == g;
          assert hits[k + 1] == g;
        }
      }
      RanksBeforeAll(hits[0], rest);
    }
  }

  lemma RanksBeforeAll(h: Hit, hits: seq<Hit>)
    requires Ranked(hits) && forall g :: g in hits ==> RanksBefore(h, g)
    ensures Ranked([h] + hits)
  {
    forall i, j | 0 <= i < j < |[h] + hits| ensures RanksBefore(([h] + hits)[i], ([h] + hits)[j]) {
      assert ([h] + hits)[j] == hits[j - 1] && hits[j - 1] in hits;
    }
  }

  /** The ranking is the same hits, in order. */
  lemma {:induction false} DescendingRanks(hits: seq<Hit>)
    ensures multiset(Descending(hits)) == multiset(hits) && Ranked(Descending(hits))
    ensures forall h :: h in Descending(hits) <==> h in hits
  {
    if hits != [] {
      var init, last := hits[..|hits| - 1], hits[|hits| - 1];
      assert hits == init + [last];
      DescendingRanks(init);
      PlacedKeeps(last, Descending(init));
      PlacedRanks(last, Descending(init));
    }
  }

  ghost predicate IsRanking(c: seq<Series>, q: Query, o: Options, sqrt: real -> real, z: seq<real>,
                            found: seq<Hit>, hits: seq<Hit>)
    requires ValidSearch(c, q)
  {
    HitsUpTo(c, q, o, sqrt, z, found, |c|) && hits == Descending(found)
  }

  /** What the search answers: the best window of every stock that has one left, and of no other,
      the best score first, each stock once. */
  lemma RankingHasTheBest(c: seq<Series>, q: Query, o: Options, sqrt: real -> real, z: seq<real>,
                          found: seq<Hit>, hits: seq<Hit>, i: nat)
    requires ValidSearch(c, q) && IsRanking(c, q, o, sqrt, z, found, hits) && i < |c|
    ensures Ranked(hits)
    ensures HasWindow(c, q, o, sqrt, i) <==> exists h :: h in hits && h.stock == i
    ensures forall h :: h in hits ==> IsHit(c, q, o, sqrt, z, h)
    ensures forall g, h :: g in hits && h in hits && g.stock == h.stock ==> g == h
  {
    HitsAreTheBest(c, q, o, sqrt, z, found, |c|, i);
    DescendingRanks(found);
    if HasWindow(c, q, o, sqrt, i) {
      var h :| h in found && h.stock == i;
      assert h in hits;
    }
    forall g, h | g in hits && h in hits && g.stock == h.stock ensures g == h {
      OneBest(c, q, o, sqrt, z, g, h);
    }
  }

  lemma OneBest(c: seq<Series>, q: Query, o: Options, sqrt: real -> real, z: seq<real>, g: Hit, h: Hit)
    requires ValidSearch(c, q) && IsHit(c, q, o, sqrt, z, g) && IsHit(c, q, o, sqrt, z, h) && g.stock == h.stock
    ensures g == h
  {
    assert Kept(c, q, o, sqrt, g.stock, g.at) && Kept(c, q, o, sqrt, h.stock, h.at);
  }

  /** One hit for each stock that has a window left, ranked. A flat query fails at the first stock that
      is not skipped. */
  method SearchHistory(c: seq<Series>, q: Query, o: Options, sqrt: real -> real) returns (r: Result<seq<Hit>, Error>)
    requires ValidSearch(c, q)
    ensures r.Err? <==> QueryNorm(c, q, o.axis, sqrt).None? && exists i :: 0 <= i < |c| && Eligible(c, q, o, i)
    ensures r.Ok? && QueryNorm(c, q, o.axis, sqrt).Some? ==>
              exists found :: IsRanking(c, q, o, sqrt, QueryNorm(c, q, o.axis, sqrt).value, found, r.value)
    ensures r.Ok? && QueryNorm(c, q, o.axis, sqrt).None? ==> r.value == []
  {
    var z := ZNorm(sqrt, c[q.stock].Window(o.axis, q.first, q.Len()));
    var hits := [];
    for i := 0 to |c|
      invariant z.Some? ==> HitsUpTo(c, q, o, sqrt, z.value, hits, i)
      invariant z.None? ==> hits == [] && forall k :: 0 <= k < i ==> !Eligible(c, q, o, k)
    {
      if !(o.excludeEtf && c[i].etf) && q.Len() + o.minAfter <= c[i].Bars() {
        assert Eligible(c, q, o, i);
        if z.None? {
          return Err(FlatQuery);
        }
        var hit := BestOf(c, q, o, sqrt, z.value, i);
        if hit.Some? {
          assert (hits + [hit.value])[..|hits|] == hits;
          hits := hits + [hit.value];
        }
      }
    }
    assert z.Some? ==> IsRanking(c, q, o, sqrt, z.value, hits, Descending(hits));
    return Ok(Descending(hits));
  }

  // ---- searching the latest bars ---------------------------------------------------------

  /** Among the candidates: another stock, long enough, not an excluded ETF, up to date if asked,
      turnover enough. */
  predicate Candidate(c: seq<Series>, q: Query, o: Options, freshOnly: bool, lastDate: int, i: nat)
    requires ValidSearch(c, q) && i < |c|
  {
    && i != q.stock && q.Len() <= c[i].Bars() && !(o.excludeEtf && c[i].etf)
    && (freshOnly ==> c[i].dates[c[i].Bars() - 1] == lastDate)
    && Thick(c[i], c[i].Bars() - q.Len(), q.Len(), o.minTurnover)
  }

  ghost function LatestNorm(c: seq<Series>, q: Query, axis: Axis, sqrt: real -> real, i: nat): Option<seq<real>>
    requires ValidSearch(c, q) && i < |c| && q.Len() <= c[i].Bars()
  {
    ZNorm(sqrt, c[i].Window(axis, c[i].Bars() - q.Len(), q.Len()))
  }

  ghost predicate Listed(c: seq<Series>, q: Query, o: Options, freshOnly: bool, lastDate: int,
                         sqrt: real -> real, i: nat)
    requires ValidSearch(c, q) && i < |c|
  {
    Candidate(c, q, o, freshOnly, lastDate, i) && LatestNorm(c, q, o.axis, sqrt, i).Some?
  }

  /** One turn of the loop: the stock's latest window, if it is listed. */
  method LatestOf(c: seq<Series>, q: Query, o: Options, freshOnly: bool, lastDate: int, sqrt: real -> real, i: nat)
    returns (latest: Option<seq<real>>)
    requires ValidSearch(c, q) && i < |c|
    ensures latest.Some? <==> Listed(c, q, o, freshOnly, lastDate, sqrt, i)
    ensures latest.Some? ==> latest == LatestNorm(c, q, o.axis, sqrt, i)
  {
    var s, len := c[i], q.Len();
    if i == q.stock || s.Bars() < len || (o.excludeEtf && s.etf) {
      return None;
    }
    if freshOnly && s.dates[s.Bars() - 1] != lastDate {
      return None;
    }
    var at := s.Bars() - len;
    if !Thick(s, at, len, o.minTurnover) {
      return None;
    }
    latest := ZNorm(sqrt, s.Window(o.axis, at, len));
  }

  /** The rows of the first `n` stocks: one for each that is listed, with the mean product of its
      latest window and the query. */
  ghost function LatestRows(c: seq<Series>, q: Query, o: Options, freshOnly: bool, lastDate: int, sqrt: real -> real,
                            z: seq<real>, n: nat): seq<Hit>
    requires ValidSearch(c, q) && n <= |c| && |z| == |c[q.stock].Channels(o.axis)| * q.Len() > 0
  {
    if n == 0 then []
    else
      var before := LatestRows(c, q, o, freshOnly, lastDate, sqrt, z, n - 1);
      if Listed(c, q, o, freshOnly, lastDate, sqrt, n - 1) then
        before + [Hit(NowScore(LatestNorm(c, q, o.axis, sqrt, n - 1).value, z), n - 1, c[n - 1].Bars() - q.Len())]
      else before
  }

  method SearchNow(c: seq<Series>, q: Query, o: Options, freshOnly: bool, lastDate: int, sqrt: real -> real)
    returns (r: Result<seq<Hit>, Error>)
    requires ValidSearch(c, q)
    ensures r.Err? <==> QueryNorm(c, q, o.axis, sqrt).None?
                        && exists i :: 0 <= i < |c| && Listed(c, q, o, freshOnly, lastDate, sqrt, i)
    ensures r.Ok? ==> r.value == match QueryNorm(c, q, o.axis, sqrt)
                                 case Some(z) => Descending(LatestRows(c, q, o, freshOnly, lastDate, sqrt, z, |c|))
                                 case None => []
  {
    var z := ZNorm(sqrt, c[q.stock].Window(o.axis, q.first, q.Len()));
    var out := [];
    for i := 0 to |c|
      invariant z.Some? ==> out == LatestRows(c, q, o, freshOnly, lastDate, sqrt, z.value, i)
      invariant z.None? ==> out == [] && forall k :: 0 <= k < i ==> !Listed(c, q, o, freshOnly, lastDate, sqrt, k)
    {
      var latest := LatestOf(c, q, o, freshOnly, lastDate, sqrt, i);
      if latest.Some? {
        if z.None? {
          return Err(FlatQuery);
        }
        out := out + [Hit(NowScore(latest.value, z.value), i, c[i].Bars() - q.Len())];
      }
    }
    return Ok(Descending(out));
  }

  // ---- what ties the two searches together -----------------------------------------------

  /** The latest bars are one of the windows of history: with no bars asked for after a window and
      no dates excluded, a candidate is listed now exactly when history keeps its last window, and
      the score is the same; so its hit in history is at least as good. */
  lemma NowIsTheEndOfHistory(c: seq<Series>, q: Query, o: Options, freshOnly: bool, lastDate: int,
                             sqrt: real -> real, i: nat)
    requires ValidSearch(c, q) && i < |c| && IsSqrt(sqrt) && QueryNorm(c, q, o.axis, sqrt).Some?
    requires o.minAfter == 0 && !o.noOverlap && i != q.stock && q.Len() <= c[i].Bars()
    requires freshOnly ==> c[i].dates[c[i].Bars() - 1] == lastDate
    ensures var at, z := c[i].Bars() - q.Len(), QueryNorm(c, q, o.axis, sqrt).value;
            && (Listed(c, q, o, freshOnly, lastDate, sqrt, i) <==> Eligible(c, q, o, i) && Kept(c, q, o, sqrt, i, at))
            && (Listed(c, q, o, freshOnly, lastDate, sqrt, i) ==>
                  && ScoreOf(c, q, o, sqrt, z, i, at) == Some(NowScore(LatestNorm(c, q, o.axis, sqrt, i).value, z))
                  && forall h: Hit :: IsHit(c, q, o, sqrt, z, h) && h.stock == i ==>
                       h.score >= NowScore(LatestNorm(c, q, o.axis, sqrt, i).value, z))
  {
    var at, z := c[i].Bars() - q.Len(), QueryNorm(c, q, o.axis, sqrt).value;
    if Listed(c, q, o, freshOnly, lastDate, sqrt, i) {
      ZNormIsNormal(sqrt, c[q.stock].Window(o.axis, q.first, q.Len()));
      ScoresAgree(sqrt, c[i].Window(o.axis, at, q.Len()), z);
      assert Kept(c, q, o, sqrt, i, at);
    }
  }

  /** Every score of history is the normalised one of its window, and lies between -1 and 1. */
  lemma HistoryScoresAreCorrelations(c: seq<Series>, q: Query, o: Options, sqrt: real -> real, i: nat, j: nat)
    requires ValidSearch(c, q) && i < |c| && IsSqrt(sqrt) && QueryNorm(c, q, o.axis, sqrt).Some?
    requires Kept(c, q, o, sqrt, i, j)
    ensures var z, w := QueryNorm(c, q, o.axis, sqrt).value, c[i].Window(o.axis, j, q.Len());
            && ZNorm(sqrt, w).Some?
            && ScoreOf(c, q, o, sqrt, z, i, j) == Some(NowScore(ZNorm(sqrt, w).value, z))
            && -1.0 <= NowScore(ZNorm(sqrt, w).value, z) <= 1.0
  {
    var z, w := QueryNorm(c, q, o.axis, sqrt).value, c[i].Window(o.axis, j, q.Len());
    ZNormIsNormal(sqrt, c[q.stock].Window(o.axis, q.first, q.Len()));
    ZNormIsNormal(sqrt, w);
    ScoresAgree(sqrt, w, z);
    ScoreInRange(ZNorm(sqrt, w).value, z);
  }

  /** The self mask takes out exactly the windows that meet the query's bars. */
  lemma SelfMaskIsExact(q: Query, j: nat)
    requires q.first <= q.last
    ensures SharesABar(j, q) <==> q.first - q.Len() + 1 <= j <= q.last
  {
    if q.first - q.Len() + 1 <= j <= q.last { assert q.Covers(if j < q.first then q.first else j); }
  }

  /** On dated bars in order, a window that has a bar dated within the query's dates is taken out. */
  lemma DateMaskCovers(c: seq<Series>, q: Query, i: nat, j: nat, t: nat)
    requires ValidSearch(c, q) && i < |c| && j + q.Len() <= c[i].Bars() && j <= t < j + q.Len()
    requires forall a, b :: 0 <= a <= b < c[i].Bars() ==> c[i].dates[a] <= c[i].dates[b]
    requires c[q.stock].dates[q.first] <= c[i].dates[t] <= c[q.stock].dates[q.last]
    ensures DatesMeet(c, q, i, j)
  {
  }

  // ---- centring --------------------------------------------------------------------------

  predicate Recentred(s: Series, t: Series, shift: real) {
    && s.Valid() && t.Valid() && t.etf == s.etf && t.turnover == s.turnover && t.dates == s.dates
    && forall k :: 0 <= k < 4 ==> t.rows[k] == Shifted(s.rows[k], shift)
  }

  lemma {:induction false} FlatShifted(rows: seq<seq<real>>, shifted: seq<seq<real>>, shift: real, j: nat, len: nat)
    requires |rows| == |shifted| && forall k :: 0 <= k < |rows| ==> shifted[k] == Shifted(rows[k], shift)
    requires forall k :: 0 <= k < |rows| ==> j + len <= |rows[k]| == |shifted[k]|
    ensures Flat(shifted, j, len) == Shifted(Flat(rows, j, len), shift)
  {
    if rows != [] {
      var n := |rows| - 1;
      FlatShifted(rows[..n], shifted[..n], shift, j, len);
      assert shifted[n][j..j + len] == Shifted(rows[n][j..j + len], shift);
    }
  }

  /** Taking one constant off all four channels of each stock, a different one for each stock,
      changes neither the query's normal form, nor which windows count, nor any score. */
  lemma CentringIsNotSeen(c: seq<Series>, d: seq<Series>, shifts: seq<real>, q: Query, o: Options,
                          sqrt: real -> real, i: nat, j: nat)
    requires |c| == |d| == |shifts| && forall k :: 0 <= k < |c| ==> Recentred(c[k], d[k], shifts[k])
    requires ValidSearch(c, q) && i < |c| && IsSqrt(sqrt)
    ensures ValidSearch(d, q) && QueryNorm(d, q, o.axis, sqrt) == QueryNorm(c, q, o.axis, sqrt)
    ensures Kept(d, q, o, sqrt, i, j) <==> Kept(c, q, o, sqrt, i, j)
    ensures forall z | QueryNorm(c, q, o.axis, sqrt) == Some(z) ::
              ScoreOf(d, q, o, sqrt, z, i, j) == ScoreOf(c, q, o, sqrt, z, i, j)
  {
    var w := c[q.stock].Window(o.axis, q.first, q.Len());
    WindowShifted(c[q.stock], d[q.stock], shifts[q.stock], o.axis, q.first, q.Len());
    ShiftMovesOnlyTheMean(w, shifts[q.stock]);
    KeptAlike(c, d, shifts[i], q, o, sqrt, i, j);
    if QueryNorm(c, q, o.axis, sqrt).Some? && Kept(c, q, o, sqrt, i, j) {
      ZNormIsNormal(sqrt, w);
      WindowShifted(c[i], d[i], shifts[i], o.axis, j, q.Len());
      ShiftIsNotSeen(sqrt, c[i].Window(o.axis, j, q.Len()), shifts[i], QueryNorm(c, q, o.axis, sqrt).value);
    }
  }

  lemma KeptAlike(c: seq<Series>, d: seq<Series>, shift: real, q: Query, o: Options, sqrt: real -> real, i: nat, j: nat)
    requires ValidSearch(c, q) && ValidSearch(d, q) && |c| == |d| && i < |c| && Recentred(c[i], d[i], shift)
    requires d[q.stock].dates == c[q.stock].dates
    ensures Kept(d, q, o, sqrt, i, j) <==> Kept(c, q, o, sqrt, i, j)
  {
    if j + q.Len() <= c[i].Bars() {
      WindowShifted(c[i], d[i], shift, o.axis, j, q.Len());
      ShiftMovesOnlyTheMean(c[i].Window(o.axis, j, q.Len()), shift);
    }
  }

  lemma WindowShifted(s: Series, t: Series, shift: real, axis: Axis, j: nat, len: nat)
    requires Recentred(s, t, shift) && j + len <= s.Bars()
    ensures t.Window(axis, j, len) == Shifted(s.Window(axis, j, len), shift)
  {
    FlatShifted(s.Channels(axis), t.Channels(axis), shift, j, len);
  }

  /** One stock's stretch of one channel of the corpus. */
  function Row(ch: array2<real>, k: nat, s: nat, e: nat): (r: seq<real>)
    requires k < ch.Length0 && s <= e <= ch.Length1
    reads ch
    ensures |r| == e - s && forall t :: 0 <= t < e - s ==> r[t] == ch[k, s + t]
  {
    seq(e - s, t requires 0 <= t < e - s reads ch => ch[k, s + t])
  }

  /** The stocks' stretches, one after the other. */
  predicate Stretches(starts: seq<nat>, ends: seq<nat>, bars: nat) {
    && |starts| == |ends| && (forall i :: 0 <= i < |starts| ==> starts[i] < ends[i] <= bars)
    && forall i, j :: 0 <= i < j < |starts| ==> ends[i] <= starts[j]
  }

  method CentreOne(ch: array2<real>, s: nat, e: nat)
    requires ch.Length0 == 4 && s < e <= ch.Length1
    modifies ch
    ensures forall k, t :: 0 <= k < 4 && 0 <= t < ch.Length1 ==>
              ch[k, t] == old(ch[k, t]) - if s <= t < e then Mean(old(Row(ch, 3, s, e))) else 0.0
  {
    var mean := Mean(Row(ch, 3, s, e));
    for k := 0 to 4
      invariant forall m, t :: 0 <= m < 4 && 0 <= t < ch.Length1 ==>
        ch[m, t] == old(ch[m, t]) - if m < k && s <= t < e then mean else 0.0
    {
      for u := s to e
        invariant forall m, t :: 0 <= m < 4 && 0 <= t < ch.Length1 ==>
          ch[m, t] == old(ch[m, t]) - if (m < k && s <= t < e) || (m == k && s <= t < u) then mean else 0.0
      {
        ch[k, u] := ch[k, u] - mean;
      }
    }
  }

  /** Loading takes each stock's mean close off all four of its channels, in place. */
  method Centre(ch: array2<real>, starts: seq<nat>, ends: seq<nat>)
    requires ch.Length0 == 4 && Stretches(starts, ends, ch.Length1)
    modifies ch
    ensures forall i, k :: 0 <= i < |starts| && 0 <= k < 4 ==>
              (Row(ch, k, starts[i], ends[i])
               == Shifted(old(Row(ch, k, starts[i], ends[i])), Mean(old(Row(ch, 3, starts[i], ends[i])))))
  {
    for n := 0 to |starts|
      invariant forall i, k :: 0 <= i < n && 0 <= k < 4 ==>
        (Row(ch, k, starts[i], ends[i])
         == Shifted(old(Row(ch, k, starts[i], ends[i])), Mean(old(Row(ch, 3, starts[i], ends[i])))))
      invariant forall i, k :: n <= i < |starts| && 0 <= k < 4 ==>
        Row(ch, k, starts[i], ends[i]) == old(Row(ch, k, starts[i], ends[i]))
    {
      label before:
      CentreOne(ch, starts[n], ends[n]);
      forall i, k | 0 <= i < |starts| && 0 <= k < 4
        ensures Row(ch, k, starts[i], ends[i])
             == if i == n then
                  Shifted(old@before(Row(ch, k, starts[i], ends[i])), Mean(old@before(Row(ch, 3, starts[i], ends[i]))))
                else old@before(Row(ch, k, starts[i], ends[i]))
      {
        assert i < n ==> ends[i] <= starts[n];
        assert i > n ==> ends[n] <= starts[i];
      }
    }
  }
}
