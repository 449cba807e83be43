/** Coarse depth heatmaps derived from minute points.

    The model reads a point's time and its bucket's start on one clock, so a bucket function takes
    a time to a time. */
module Heatmap {
  import opened Wrappers
  import opened Ordering
  import opened StockSessions

  datatype Level = Level(price: int, qty: int)

  datatype Book = Book(asks: seq<Level>, bids: seq<Level>)

  /** `shown` is the book at the end of the bucket, `peak` the one with the largest total, and the
      walls are the largest quantity seen at each price. */
  datatype Point = Point(t: int, shown: Book, peak: Book, askWalls: seq<Level>, bidWalls: seq<Level>) {
    function Walls(side: Side): seq<Level> {
      if side.Ask? then askWalls else bidWalls
    }
  }

  datatype Side = Ask | Bid

  datatype Error = BadBucket | UnevenBook

  // ---- the order of books ----------------------------------------------------------------

  datatype Key = Key(total: int, levels: seq<int>)

  predicate Even(b: Book) {
    |b.asks| == |b.bids|
  }

  function Total(levels: seq<Level>): int {
    if levels == [] then 0 else levels[0].qty + Total(levels[1..])
  }

  function Interleaved(asks: seq<Level>, bids: seq<Level>): seq<int> {
    if asks == [] || bids == [] then []
    else [asks[0].price, asks[0].qty, bids[0].price, bids[0].qty] + Interleaved(asks[1..], bids[1..])
  }

  function KeyOf(b: Book): Key {
    Key(Total(b.asks) + Total(b.bids), Interleaved(b.asks, b.bids))
  }

  /** The order of tuples: the first difference decides, and a proper prefix is smaller. */
  predicate LexLess(xs: seq<int>, ys: seq<int>) {
    ys != [] && (xs == [] || xs[0] < ys[0] || (xs[0] == ys[0] && LexLess(xs[1..], ys[1..])))
  }

  predicate KeyLess(k: Key, l: Key) {
    k.total < l.total || (k.total == l.total && LexLess(k.levels, l.levels))
  }

  lemma LexTotal(xs: seq<int>, ys: seq<int>)
    ensures xs == ys || LexLess(xs, ys) || LexLess(ys, xs)
    ensures !(LexLess(xs, ys) && LexLess(ys, xs))
    ensures !LexLess(xs, xs)
  {
    if xs != [] && ys != [] && xs[0] == ys[0] {
      LexTotal(xs[1..], ys[1..]);
      if xs[1..] == ys[1..] { assert xs == [xs[0]] + xs[1..] && ys == [ys[0]] + ys[1..]; }
    }
  }

  lemma LexTransitive(xs: seq<int>, ys: seq<int>, zs: seq<int>)
    requires LexLess(xs, ys) && LexLess(ys, zs)
    ensures LexLess(xs, zs)
  {
  }

  lemma KeysOrdered(k: Key, l: Key, m: Key)
    ensures k == l || KeyLess(k, l) || KeyLess(l, k)
    ensures !(KeyLess(k, l) && KeyLess(l, k))
    ensures KeyLess(k, l) && KeyLess(l, m) ==> KeyLess(k, m)
  {
    LexTotal(k.levels, l.levels);
    if LexLess(k.levels, l.levels) && LexLess(l.levels, m.levels) {
      LexTransitive(k.levels, l.levels, m.levels);
    }
  }

  /** The key gives the whole book away, so ties are between equal books. */
  lemma KeyDeterminesBook(b: Book, c: Book)
    requires Even(b) && Even(c) && KeyOf(b) == KeyOf(c)
    ensures b == c
  {
    InterleavedDetermines(b.asks, b.bids, c.asks, c.bids);
  }

  lemma {:induction false} InterleavedDetermines(asks: seq<Level>, bids: seq<Level>,
                                                 asks': seq<Level>, bids': seq<Level>)
    requires |asks| == |bids| && |asks'| == |bids'|
    requires Interleaved(asks, bids) == Interleaved(asks', bids')
    ensures asks == asks' && bids == bids'
  {
    var xs, ys := Interleaved(asks, bids), Interleaved(asks', bids');
    if asks != [] && asks' != [] {
      assert xs[0] == ys[0] && xs[1] == ys[1] && xs[2] == ys[2] && xs[3] == ys[3];
      assert Interleaved(asks[1..], bids[1..]) == xs[4..];
      assert Interleaved(asks'[1..], bids'[1..]) == ys[4..];
      InterleavedDetermines(asks[1..], bids[1..], asks'[1..], bids'[1..]);
      assert asks == [asks[0]] + asks[1..] && bids == [bids[0]] + bids[1..];
      assert asks' == [asks'[0]] + asks'[1..] && bids' == [bids'[0]] + bids'[1..];
    }
  }

  /** What `max` keeps of two: the later one only if its key is greater. */
  function Better(b: Book, c: Book): Book {
    if KeyLess(KeyOf(b), KeyOf(c)) then c else b
  }

  lemma BetterIsAssociative(b: Book, c: Book, d: Book)
    ensures Better(Better(b, c), d) == Better(b, Better(c, d))
  {
    KeysOrdered(KeyOf(b), KeyOf(c), KeyOf(d));
    KeysOrdered(KeyOf(c), KeyOf(d), KeyOf(b));
    KeysOrdered(KeyOf(c), KeyOf(b), KeyOf(d));
    KeysOrdered(KeyOf(b), KeyOf(d), KeyOf(c));
  }

  // ---- the largest quantity at each price ------------------------------------------------

  function Max(x: int, y: int): int {
    if x < y then y else x
  }

  function Merge(m: map<int, nat>, n: map<int, nat>): (r: map<int, nat>)
    ensures r.Keys == m.Keys + n.Keys
    ensures forall p :: p in r ==> r[p] == Max(Count(m, p), Count(n, p))
  {
    map p | p in m.Keys + n.Keys :: Max(Count(m, p), Count(n, p))
  }

  function Quantities(levels: seq<Level>): map<int, nat> {
    if levels == [] then map[]
    else
      var before, l := Quantities(levels[..|levels| - 1]), levels[|levels| - 1];
      before[l.price := Max(Count(before, l.price), l.qty)]
  }

  lemma QuantitiesSnoc(levels: seq<Level>, l: Level)
    ensures Quantities(levels + [l]) == Quantities(levels)[l.price := Max(Count(Quantities(levels), l.price), l.qty)]
  {
    assert (levels + [l])[..|levels|] == levels;
  }

  /** What a price's entry means: the largest quantity of any level there, and never negative. */
  lemma {:induction false} QuantityIsLargest(levels: seq<Level>, p: int)
    ensures p in Quantities(levels) <==> exists l :: l in levels && l.price == p
    ensures forall l :: l in levels && l.price == p ==> l.qty <= Quantities(levels)[p]
    ensures p in Quantities(levels) && Quantities(levels)[p] != 0 ==> Level(p, Quantities(levels)[p]) in levels
  {
    if levels != [] {
      var init, last := levels[..|levels| - 1], levels[|levels| - 1];
      assert levels == init + [last];
      QuantitiesSnoc(init, last);
      QuantityIsLargest(init, p);
    }
  }

  lemma {:induction false} QuantitiesOfBoth(xs: seq<Level>, ys: seq<Level>)
    ensures Quantities(xs + ys) == Merge(Quantities(xs), Quantities(ys))
  {
    if ys == [] {
      assert xs + ys == xs;
      var m: map<int, nat> := Quantities(xs);
      assert Merge(m, map[]) == m;
    } else {
      var init, last := ys[..|ys| - 1], ys[|ys| - 1];
      QuantitiesOfBoth(xs, init);
      assert xs + ys == (xs + init) + [last];
      assert ys == init + [last];
      QuantitiesSnoc(xs + init, last);
      QuantitiesSnoc(init, last);
      MergeRaise(Quantities(xs), Quantities(init), last.price, last.qty);
    }
  }

  lemma MergeRaise(m: map<int, nat>, n: map<int, nat>, p: int, q: int)
    ensures Merge(m, n[p := Max(Count(n, p), q)]) == Merge(m, n)[p := Max(Count(Merge(m, n), p), q)]
  {
    var n' := n[p := Max(Count(n, p), q)];
    var raised, both := Merge(m, n'), Merge(m, n);
    var after := both[p := Max(Count(both, p), q)];
    assert raised.Keys == after.Keys;
    assert Count(both, p) == Max(Count(m, p), Count(n, p)) && Count(n', p) == Max(Count(n, p), q);
    forall k | k in raised ensures raised[k] == after[k] {
      if k != p { assert Count(n', k) == Count(n, k); }
    }
  }

  function Reversed(xs: seq<int>): (r: seq<int>)
    ensures |r| == |xs| && forall i :: 0 <= i < |r| ==> r[i] == xs[|xs| - 1 - i]
    ensures forall x :: x in r <==> x in xs
  {
    var r := seq(|xs|, i requires 0 <= i < |xs| => xs[|xs| - 1 - i]);
    assert forall x :: x in xs ==> x in r by {
      forall x | x in xs ensures x in r {
        var i :| 0 <= i < |xs| && xs[i] == x;
        assert r[|xs| - 1 - i] == x;
      }
    }
    r
  }

  /** Asks from the lowest price up, bids from the highest down. */
  function Prices(s: set<int>, descending: bool): (ps: seq<int>)
    ensures |ps| == |s| && forall p :: p in ps <==> p in s
    ensures forall i, j :: 0 <= i < j < |ps| ==> if descending then ps[i] > ps[j] else ps[i] < ps[j]
  {
    if descending then Reversed(Sorted(s)) else Sorted(s)
  }

  function Listed(m: map<int, nat>, descending: bool): seq<Level> {
    var ps := Prices(m.Keys, descending);
    seq(|ps|, i requires 0 <= i < |ps| => assert ps[i] in ps; Level(ps[i], m[ps[i]]))
  }

  lemma LevelIsListed(m: map<int, nat>, descending: bool, l: Level)
    ensures l in Listed(m, descending) <==> l.price in m && l.qty == m[l.price]
  {
    var ps, levels := Prices(m.Keys, descending), Listed(m, descending);
    if l.price in m && l.qty == m[l.price] {
      var i :| 0 <= i < |ps| && ps[i] == l.price;
      assert levels[i] == l;
    }
  }

  lemma ListedQuantity(m: map<int, nat>, descending: bool, p: int)
    ensures Lookup(Quantities(Listed(m, descending)), p) == Lookup(m, p)
  {
    var levels := Listed(m, descending);
    var back := Quantities(levels);
    forall l ensures l in levels <==> l.price in m && l.qty == m[l.price] { LevelIsListed(m, descending, l); }
    QuantityIsLargest(levels, p);
    if p in m {
      assert Level(p, m[p]) in levels;
      assert p in back && Level(p, back[p]) in levels;
    }
  }

  lemma ListedUndone(m: map<int, nat>, descending: bool)
    ensures Quantities(Listed(m, descending)) == m
  {
    forall p ensures Lookup(Quantities(Listed(m, descending)), p) == Lookup(m, p) {
      ListedQuantity(m, descending, p);
    }
    SameLookups(Quantities(Listed(m, descending)), m);
  }

  // ---- rows summed up --------------------------------------------------------------------

  datatype Summary = Summary(shown: Book, peak: Book, asks: map<int, nat>, bids: map<int, nat>)

  function Of(p: Point): Summary {
    Summary(p.shown, p.peak, Quantities(p.askWalls), Quantities(p.bidWalls))
  }

  function Join(s: Summary, t: Summary): Summary {
    Summary(t.shown, Better(s.peak, t.peak), Merge(s.asks, t.asks), Merge(s.bids, t.bids))
  }

  function Emit(t: int, s: Summary): Point {
    Point(t, s.shown, s.peak, Listed(s.asks, false), Listed(s.bids, true))
  }

  lemma EmitUndone(t: int, s: Summary)
    ensures Of(Emit(t, s)) == s
  {
    ListedUndone(s.asks, false);
    ListedUndone(s.bids, true);
  }

  lemma JoinIsAssociative(s: Summary, t: Summary, u: Summary)
    ensures Join(Join(s, t), u) == Join(s, Join(t, u))
  {
    BetterIsAssociative(s.peak, t.peak, u.peak);
    MergeIsAssociative(s.asks, t.asks, u.asks);
    MergeIsAssociative(s.bids, t.bids, u.bids);
  }

  lemma MergeIsAssociative(l: map<int, nat>, m: map<int, nat>, n: map<int, nat>)
    ensures Merge(Merge(l, m), n) == Merge(l, Merge(m, n))
  {
    var x, y := Merge(Merge(l, m), n), Merge(l, Merge(m, n));
    assert x.Keys == y.Keys;
    forall p | p in x ensures x[p] == y[p] {}
  }

  function Walls(rows: seq<Point>, side: Side): seq<Level> {
    if rows == [] then [] else Walls(rows[..|rows| - 1], side) + rows[|rows| - 1].Walls(side)
  }

  /** `max(rows, key=...)`: the first of the greatest. */
  function Peak(rows: seq<Point>): Book
    requires rows != []
  {
    if |rows| == 1 then rows[0].peak else Better(Peak(rows[..|rows| - 1]), rows[|rows| - 1].peak)
  }

  function SummaryOf(rows: seq<Point>): Summary
    requires rows != []
  {
    Summary(rows[|rows| - 1].shown, Peak(rows), Quantities(Walls(rows, Ask)), Quantities(Walls(rows, Bid)))
  }

  lemma SummarySnoc(rows: seq<Point>, p: Point)
    ensures SummaryOf(rows + [p]) == if rows == [] then Of(p) else Join(SummaryOf(rows), Of(p))
  {
    assert (rows + [p])[..|rows|] == rows;
    QuantitiesOfBoth(Walls(rows, Ask), p.askWalls);
    QuantitiesOfBoth(Walls(rows, Bid), p.bidWalls);
    if rows == [] {
      assert Walls(rows + [p], Ask) == p.askWalls && Walls(rows + [p], Bid) == p.bidWalls;
    }
  }

  /** Among even books the choice does not depend on which of the tied rows comes first: no row's
      book is greater, and every row that ties has the chosen book. */
  lemma {:induction false} PeakIsGreatest(rows: seq<Point>)
    requires rows != [] && forall p :: p in rows ==> Even(p.peak)
    ensures exists p :: p in rows && p.peak == Peak(rows)
    ensures forall p :: p in rows ==> !KeyLess(KeyOf(Peak(rows)), KeyOf(p.peak))
    ensures forall p :: p in rows && KeyOf(p.peak) == KeyOf(Peak(rows)) ==> p.peak == Peak(rows)
  {
    var init, last := rows[..|rows| - 1], rows[|rows| - 1];
    assert rows == init + [last];
    assert last in rows;
    if init == [] {
      KeysOrdered(KeyOf(last.peak), KeyOf(last.peak), KeyOf(last.peak));
    } else {
      PeakIsGreatest(init);
      forall p | p in rows ensures !KeyLess(KeyOf(Peak(rows)), KeyOf(p.peak)) {
        KeysOrdered(KeyOf(Peak(init)), KeyOf(last.peak), KeyOf(p.peak));
        KeysOrdered(KeyOf(last.peak), KeyOf(p.peak), KeyOf(last.peak));
      }
    }
    forall p | p in rows && KeyOf(p.peak) == KeyOf(Peak(rows)) ensures p.peak == Peak(rows) {
      KeyDeterminesBook(p.peak, Peak(rows));
    }
  }

  // ---- consecutive rows of one bucket ----------------------------------------------------

  datatype Cell = Cell(bucket: int, s: Summary)

  function Push(cells: seq<Cell>, k: int, s: Summary): seq<Cell> {
    if cells != [] && cells[|cells| - 1].bucket == k then
      cells[..|cells| - 1] + [Cell(k, Join(cells[|cells| - 1].s, s))]
    else cells + [Cell(k, s)]
  }

  function Grouped(key: int -> int, ps: seq<Point>): seq<Cell> {
    if ps == [] then []
    else Push(Grouped(key, ps[..|ps| - 1]), key(ps[|ps| - 1].t), Of(ps[|ps| - 1]))
  }

  function Emitted(cells: seq<Cell>): seq<Point> {
    seq(|cells|, i requires 0 <= i < |cells| => Emit(cells[i].bucket, cells[i].s))
  }

  lemma GroupedSnoc(key: int -> int, ps: seq<Point>, p: Point)
    ensures Grouped(key, ps + [p]) == Push(Grouped(key, ps), key(p.t), Of(p))
  {
    assert (ps + [p])[..|ps|] == ps;
  }

  lemma EmittedSnoc(cells: seq<Cell>, c: Cell)
    ensures Emitted(cells + [c]) == Emitted(cells) + [Emit(c.bucket, c.s)]
  {
  }

  lemma PushTwice(cells: seq<Cell>, k: int, s: Summary, t: Summary)
    ensures Push(Push(cells, k, s), k, t) == Push(cells, k, Join(s, t))
  {
    if cells != [] && cells[|cells| - 1].bucket == k {
      JoinIsAssociative(cells[|cells| - 1].s, s, t);
    }
  }

  /** Going through a finer bucket first changes nothing, for any two bucket functions that nest on
      the points' times. */
  lemma {:induction false} GroupingComposes(fine: int -> int, coarse: int -> int, ps: seq<Point>)
    requires forall i :: 0 <= i < |ps| ==> coarse(fine(ps[i].t)) == coarse(ps[i].t)
    ensures Grouped(coarse, Emitted(Grouped(fine, ps))) == Grouped(coarse, ps)
  {
    if ps != [] {
      var init, p := ps[..|ps| - 1], ps[|ps| - 1];
      var cells, k := Grouped(fine, init), fine(p.t);
      calc {
        Grouped(coarse, Emitted(Grouped(fine, ps)));
        { assert Grouped(fine, ps) == Push(cells, k, Of(p)); }
        Grouped(coarse, Emitted(Push(cells, k, Of(p))));
        { RegroupedPush(coarse, cells, k, Of(p)); }
        Push(Grouped(coarse, Emitted(cells)), coarse(k), Of(p));
        { GroupingComposes(fine, coarse, init); }
        Push(Grouped(coarse, init), coarse(p.t), Of(p));
        Grouped(coarse, ps);
      }
    }
  }

  lemma RegroupedPush(coarse: int -> int, cells: seq<Cell>, k: int, s: Summary)
    ensures Grouped(coarse, Emitted(Push(cells, k, s))) == Push(Grouped(coarse, Emitted(cells)), coarse(k), s)
  {
    if cells != [] && cells[|cells| - 1].bucket == k {
      var head, last := cells[..|cells| - 1], cells[|cells| - 1].s;
      assert cells == head + [Cell(k, last)];
      RegroupedSnoc(coarse, head, k, last);
      RegroupedSnoc(coarse, head, k, Join(last, s));
      PushTwice(Grouped(coarse, Emitted(head)), coarse(k), last, s);
    } else {
      RegroupedSnoc(coarse, cells, k, s);
    }
  }

  lemma RegroupedSnoc(coarse: int -> int, cells: seq<Cell>, k: int, s: Summary)
    ensures Grouped(coarse, Emitted(cells + [Cell(k, s)])) == Push(Grouped(coarse, Emitted(cells)), coarse(k), s)
  {
    EmittedSnoc(cells, Cell(k, s));
    GroupedSnoc(coarse, Emitted(cells), Emit(k, s));
    EmitUndone(k, s);
  }

  // ---- what grouping means on sorted points ----------------------------------------------

  predicate TimesAscend(ps: seq<Point>) {
    forall i, j :: 0 <= i < j < |ps| ==> ps[i].t <= ps[j].t
  }

  ghost predicate Monotone(key: int -> int, ps: seq<Point>) {
    forall i, j :: 0 <= i < j < |ps| ==> key(ps[i].t) <= key(ps[j].t)
  }

  function InBucket(key: int -> int, ps: seq<Point>, k: int): seq<Point> {
    if ps == [] then []
    else
      InBucket(key, ps[..|ps| - 1], k) + (if key(ps[|ps| - 1].t) == k then [ps[|ps| - 1]] else [])
  }

  predicate Ascends(cells: seq<Cell>) {
    forall i, j :: 0 <= i < j < |cells| ==> cells[i].bucket < cells[j].bucket
  }

  /** The cell of a bucket, if it has one. */
  predicate CellIs(cells: seq<Cell>, k: int, s: Option<Summary>) {
    if s.None? then forall i :: 0 <= i < |cells| ==> cells[i].bucket != k
    else exists i :: 0 <= i < |cells| && cells[i] == Cell(k, s.value)
  }

  function Summarised(rows: seq<Point>): Option<Summary> {
    if rows == [] then None else Some(SummaryOf(rows))
  }

  lemma {:induction false} BucketsAscend(key: int -> int, ps: seq<Point>)
    requires Monotone(key, ps)
    ensures Ascends(Grouped(key, ps))
    ensures ps != [] ==>
              Grouped(key, ps) != [] && Grouped(key, ps)[|Grouped(key, ps)| - 1].bucket == key(ps[|ps| - 1].t)
  {
    if ps != [] {
      var init, p := ps[..|ps| - 1], ps[|ps| - 1];
      BucketsAscend(key, init);
      assert init != [] ==> key(init[|init| - 1].t) <= key(p.t);
      PushAscends(Grouped(key, init), key(p.t), Of(p));
    }
  }

  lemma PushAscends(cells: seq<Cell>, k: int, s: Summary)
    requires Ascends(cells) && (cells != [] ==> cells[|cells| - 1].bucket <= k)
    ensures Ascends(Push(cells, k, s))
    ensures Push(cells, k, s) != [] && Push(cells, k, s)[|Push(cells, k, s)| - 1].bucket == k
  {
  }

  /** One cell for each bucket that has points, the buckets strictly increasing, and each cell
      summing up exactly its bucket's points. */
  lemma {:induction false} GroupedPartitions(key: int -> int, ps: seq<Point>, k: int)
    requires Monotone(key, ps)
    ensures Ascends(Grouped(key, ps)) && CellIs(Grouped(key, ps), k, Summarised(InBucket(key, ps, k)))
  {
    BucketsAscend(key, ps);
    if ps != [] {
      var init, p := ps[..|ps| - 1], ps[|ps| - 1];
      BucketsAscend(key, init);
      GroupedPartitions(key, init, k);
      assert init != [] ==> key(init[|init| - 1].t) <= key(p.t);
      var rows := InBucket(key, init, k);
      PushedCell(Grouped(key, init), k, Summarised(rows), key(p.t), Of(p));
      if key(p.t) == k {
        SummarySnoc(rows, p);
      } else {
        assert rows + [] == rows;
      }
    }
  }

  lemma PushedCell(cells: seq<Cell>, k: int, was: Option<Summary>, b: int, s: Summary)
    requires Ascends(cells) && (cells != [] ==> cells[|cells| - 1].bucket <= b) && CellIs(cells, k, was)
    ensures CellIs(Push(cells, b, s), k,
                   if b != k then was else if was.None? then Some(s) else Some(Join(was.value, s)))
  {
    var after := Push(cells, b, s);
    if was.Some? {
      var i :| 0 <= i < |cells| && cells[i] == Cell(k, was.value);
      if b == k { assert i == |cells| - 1; }
      assert after[i] == if b == k then Cell(k, Join(was.value, s)) else cells[i];
    } else if b == k {
      assert after[|cells|] == Cell(k, s);
    }
  }

  // ---- the derivation --------------------------------------------------------------------

  function BucketStart(midnight: int, bucket: int, date: string, venue: string): int -> int
    requires bucket > 0
  {
    t => midnight + IndicatorBucket(t - midnight, bucket, date, venue)
  }

  predicate AllEven(ps: seq<Point>) {
    forall i :: 0 <= i < |ps| ==> Even(ps[i].peak)
  }

  function Reaggregated(ps: seq<Point>, midnight: int, bucket: int, date: string, venue: string)
    : Result<seq<Point>, Error>
  {
    if bucket <= 0 || bucket % MINUTE != 0 then Err(BadBucket)
    else if bucket == MINUTE then Ok(ps)
    else if !AllEven(ps) then Err(UnevenBook)
    else Ok(Emitted(Grouped(BucketStart(midnight, bucket, date, venue), ps)))
  }

  method PriceMax(rows: seq<Point>, side: Side) returns (levels: seq<Level>)
    ensures levels == Listed(Quantities(Walls(rows, side)), side.Bid?)
  {
    var quantities: map<int, nat> := map[];
    for i := 0 to |rows|
      invariant quantities == Quantities(Walls(rows[..i], side))
    {
      assert rows[..i + 1][..i] == rows[..i];
      quantities := RaiseTo(quantities, Walls(rows[..i], side), rows[i].Walls(side));
    }
    assert rows[..|rows|] == rows;
    levels := Listed(quantities, side.Bid?);
  }

  /** One turn of its outer loop, over the levels of one row. */
  method RaiseTo(quantities: map<int, nat>, ghost before: seq<Level>, seen: seq<Level>) returns (r: map<int, nat>)
    requires quantities == Quantities(before)
    ensures r == Quantities(before + seen)
  {
    r := quantities;
    assert before + seen[..0] == before;
    for j := 0 to |seen|
      invariant r == Quantities(before + seen[..j])
    {
      assert before + seen[..j + 1] == (before + seen[..j]) + [seen[j]];
      QuantitiesSnoc(before + seen[..j], seen[j]);
      r := r[seen[j].price := Max(Count(r, seen[j].price), seen[j].qty)];
    }
    assert seen[..|seen|] == seen;
  }

  method Maximum(rows: seq<Point>) returns (r: Result<Book, Error>)
    requires rows != []
    ensures r == if AllEven(rows) then Ok(Peak(rows)) else Err(UnevenBook)
  {
    if !Even(rows[0].peak) {
      return Err(UnevenBook);
    }
    var best := rows[0].peak;
    for i := 1 to |rows|
      invariant AllEven(rows[..i]) && best == Peak(rows[..i])
    {
      if !Even(rows[i].peak) {
        return Err(UnevenBook);
      }
      assert rows[..i + 1][..i] == rows[..i];
      if KeyLess(KeyOf(best), KeyOf(rows[i].peak)) {
        best := rows[i].peak;
      }
    }
    assert rows[..|rows|] == rows;
    return Ok(best);
  }

  lemma {:induction false} LastBucket(key: int -> int, ps: seq<Point>)
    requires ps != []
    ensures Grouped(key, ps) != [] && Grouped(key, ps)[|Grouped(key, ps)| - 1].bucket == key(ps[|ps| - 1].t)
  {
    var cells := Grouped(key, ps[..|ps| - 1]);
    var k, s := key(ps[|ps| - 1].t), Of(ps[|ps| - 1]);
    assert Push(cells, k, s) != [] && Push(cells, k, s)[|Push(cells, k, s)| - 1].bucket == k;
  }

  lemma {:induction false} RowStartsCell(key: int -> int, ps: seq<Point>, p: Point)
    requires ps != [] ==> key(ps[|ps| - 1].t) != key(p.t)
    ensures Grouped(key, ps + [p]) == Grouped(key, ps) + [Cell(key(p.t), SummaryOf([p]))]
  {
    GroupedSnoc(key, ps, p);
    SummarySnoc([], p);
    assert [] + [p] == [p];
    if ps != [] { LastBucket(key, ps); }
  }

  /** A run of rows of one bucket, after rows that do not end in it, makes one cell. */
  lemma {:induction false} RunMakesOneCell(key: int -> int, ps: seq<Point>, rows: seq<Point>, k: int)
    requires rows != [] && forall p :: p in rows ==> key(p.t) == k
    requires ps != [] ==> key(ps[|ps| - 1].t) != k
    ensures Grouped(key, ps + rows) == Grouped(key, ps) + [Cell(k, SummaryOf(rows))]
  {
    var init, p := rows[..|rows| - 1], rows[|rows| - 1];
    assert rows == init + [p];
    assert p in rows;
    if init == [] {
      assert rows == [p];
      RowStartsCell(key, ps, p);
    } else {
      assert ps + rows == (ps + init) + [p];
      GroupedSnoc(key, ps + init, p);
      SummarySnoc(init, p);
      RunMakesOneCell(key, ps, init, k);
      CellGrows(Grouped(key, ps), k, SummaryOf(init), Of(p));
    }
  }

  lemma CellGrows(cells: seq<Cell>, k: int, s: Summary, t: Summary)
    ensures Push(cells + [Cell(k, s)], k, t) == cells + [Cell(k, Join(s, t))]
  {
    assert (cells + [Cell(k, s)])[..|cells|] == cells;
  }

  /** `groupby`: how far the run of points in one bucket goes. */
  method EndOfGroup(points: seq<Point>, key: int -> int, i: nat) returns (j: nat)
    requires i < |points|
    ensures i < j <= |points| && forall q :: i <= q < j ==> key(points[q].t) == key(points[i].t)
    ensures j < |points| ==> key(points[j - 1].t) != key(points[j].t)
  {
    j := i + 1;
    while j < |points| && key(points[j].t) == key(points[i].t)
      invariant i < j <= |points| && forall q :: i <= q < j ==> key(points[q].t) == key(points[i].t)
    {
      j := j + 1;
    }
  }

  method OneGroup(rows: seq<Point>, k: int) returns (r: Result<Point, Error>)
    requires rows != []
    ensures r == if AllEven(rows) then Ok(Emit(k, SummaryOf(rows))) else Err(UnevenBook)
  {
    var peak := Maximum(rows);
    if peak.Err? {
      return Err(peak.error);
    }
    var asks := PriceMax(rows, Ask);
    var bids := PriceMax(rows, Bid);
    return Ok(Point(k, rows[|rows| - 1].shown, peak.value, asks, bids));
  }

  method Reaggregate(points: seq<Point>, midnight: int, bucket: int, date: string, venue: string)
    returns (r: Result<seq<Point>, Error>)
    ensures r == Reaggregated(points, midnight, bucket, date, venue)
  {
    if bucket <= 0 || bucket % MINUTE != 0 {
      return Err(BadBucket);
    }
    if bucket == MINUTE {
      return Ok(points);
    }
    var key := BucketStart(midnight, bucket, date, venue);
    var out, i := [], 0;
    while i < |points|
      invariant 0 <= i <= |points| && AllEven(points[..i])
      invariant out == Emitted(Grouped(key, points[..i]))
      invariant 0 < i < |points| ==> key(points[i - 1].t) != key(points[i].t)
    {
      var j := EndOfGroup(points, key, i);
      var point := OneGroup(points[i..j], key(points[i].t));
      if point.Err? {
        return Err(point.error);
      }
      out := out + [point.value];
      GroupEmitted(key, points, i, j, key(points[i].t));
      i := j;
    }
    assert points[..|points|] == points;
    return Ok(out);
  }

  lemma GroupEmitted(key: int -> int, points: seq<Point>, i: nat, j: nat, k: int)
    requires i < j <= |points| && forall q :: i <= q < j ==> key(points[q].t) == k
    requires i > 0 ==> key(points[i - 1].t) != k
    ensures Emitted(Grouped(key, points[..j]))
         == Emitted(Grouped(key, points[..i])) + [Emit(k, SummaryOf(points[i..j]))]
    ensures AllEven(points[..i]) && AllEven(points[i..j]) ==> AllEven(points[..j])
  {
    assert points[..i] + points[i..j] == points[..j];
    RunMakesOneCell(key, points[..i], points[i..j], k);
    EmittedSnoc(Grouped(key, points[..i]), Cell(k, SummaryOf(points[i..j])));
  }

  // ---- composing resolutions -------------------------------------------------------------

  /** Deriving the coarser points from the finer ones gives what deriving them from these points
      gives, errors included. */
  predicate ComposesOn(ps: seq<Point>, midnight: int, a: int, b: int, date: string, venue: string) {
    match Reaggregated(ps, midnight, a, date, venue)
    case Ok(fine) => Reaggregated(fine, midnight, b, date, venue) == Reaggregated(ps, midnight, b, date, venue)
    case Err(e) => Reaggregated(ps, midnight, b, date, venue) == Err(e)
  }

  predicate IsStep(bucket: int) {
    bucket > 0 && bucket % MINUTE == 0
  }

  lemma ReaggregationComposes(ps: seq<Point>, midnight: int, a: int, b: int, date: string, venue: string)
    requires IsStep(a) && IsStep(b) && (b == MINUTE ==> a == MINUTE)
    requires forall p :: p in ps ==> NestsAt(a, b, date, venue, p.t - midnight)
    ensures ComposesOn(ps, midnight, a, b, date, venue)
  {
    if a != MINUTE && AllEven(ps) {
      var fine, coarse := BucketStart(midnight, a, date, venue), BucketStart(midnight, b, date, venue);
      forall i | 0 <= i < |ps| ensures coarse(fine(ps[i].t)) == coarse(ps[i].t) {
        assert NestsAt(a, b, date, venue, ps[i].t - midnight);
      }
      GroupingComposes(fine, coarse, ps);
      EmittedPeaksAreEven(fine, ps);
    }
  }

  const NO_BOOK := Book([], [])

  function At(t: int): Point {
    Point(t, NO_BOOK, NO_BOOK, [], [])
  }

  lemma OneCell(key: int -> int, p: Point)
    ensures Grouped(key, [p]) == [Cell(key(p.t), Of(p))]
    ensures Emitted(Grouped(key, [p])) == [Emit(key(p.t), Of(p))]
  {
    assert [p] == [] + [p];
    GroupedSnoc(key, [], p);
    var c := Cell(key(p.t), Of(p));
    EmittedSnoc([], c);
    assert [] + [c] == [c];
  }

  lemma OnePoint(p: Point, midnight: int, b: int, date: string, venue: string)
    requires IsStep(b) && b != MINUTE && Even(p.peak)
    ensures Reaggregated([p], midnight, b, date, venue)
         == Ok([Emit(BucketStart(midnight, b, date, venue)(p.t), Of(p))])
  {
    OneCell(BucketStart(midnight, b, date, venue), p);
  }

  lemma StartsNest(midnight: int, a: int, b: int, date: string, venue: string, t: int)
    requires a > 0 && b > 0
    ensures var fine, coarse := BucketStart(midnight, a, date, venue), BucketStart(midnight, b, date, venue);
            coarse(fine(t)) == coarse(t) <==> NestsAt(a, b, date, venue, t - midnight)
  {
    var x := IndicatorBucket(t - midnight, a, date, venue);
    assert midnight + x - midnight == x;
  }

  /** A single point composes only where the buckets nest at its time. */
  lemma OnePointNeedsNesting(p: Point, midnight: int, a: int, b: int, date: string, venue: string)
    requires IsStep(a) && IsStep(b) && a != MINUTE && b != MINUTE && Even(p.peak)
    ensures ComposesOn([p], midnight, a, b, date, venue) <==> NestsAt(a, b, date, venue, p.t - midnight)
  {
    var fine, coarse := BucketStart(midnight, a, date, venue), BucketStart(midnight, b, date, venue);
    var q := Emit(fine(p.t), Of(p));
    OnePoint(p, midnight, a, date, venue);
    OnePoint(p, midnight, b, date, venue);
    OnePoint(q, midnight, b, date, venue);
    EmitUndone(fine(p.t), Of(p));
    StartsNest(midnight, a, b, date, venue, p.t);
    OneTime(q, p, coarse);
  }

  lemma OneTime(q: Point, p: Point, coarse: int -> int)
    requires Of(q) == Of(p)
    ensures [Emit(coarse(q.t), Of(q))] == [Emit(coarse(p.t), Of(p))] <==> coarse(q.t) == coarse(p.t)
  {
    assert [Emit(coarse(q.t), Of(q))][0].t == coarse(q.t) && [Emit(coarse(p.t), Of(p))][0].t == coarse(p.t);
  }

  /** No coarse bucket starts one millisecond after midnight. */
  lemma NoBucketStartsAtOne(a: int, date: string, venue: string)
    requires IsStep(a)
    ensures IndicatorBucket(1, a, date, venue) != 1
  {
    GridIs(0, a, 1, 1);
    GridIs(UTC_OFFSET, a, 1, 1);
    if (1 - UTC_OFFSET) % a == 0 {
      ModOfMod(1 - UTC_OFFSET, MINUTE, a);
    }
    if 1 % a == 0 {
      ModOfMod(1, MINUTE, a);
    }
  }

  lemma MinutesAreNotDerived(midnight: int, a: int, date: string, venue: string)
    requires IsStep(a) && a != MINUTE
    ensures !ComposesOn([At(midnight + 1)], midnight, a, MINUTE, date, venue)
  {
    var p := At(midnight + 1);
    var t := BucketStart(midnight, a, date, venue)(p.t);
    OnePoint(p, midnight, a, date, venue);
    NoBucketStartsAtOne(a, date, venue);
    assert t != p.t;
    assert [Emit(t, Of(p))][0] != [p][0];
  }

  /** Deriving in two steps is exact on every list of points, at whatever times, exactly when the two
      steps nest. */
  lemma DerivationsCompose(midnight: int, a: int, b: int, date: string, venue: string)
    requires IsStep(a) && IsStep(b)
    ensures (forall ps :: ComposesOn(ps, midnight, a, b, date, venue)) <==> Nests(a, b, date, venue)
  {
    BucketsNest(a, b, date, venue);
    if Nests(a, b, date, venue) {
      assert b >= a by { if b < a { NoMultipleBetween(b, a); } }
      forall ps: seq<Point> ensures ComposesOn(ps, midnight, a, b, date, venue) {
        assert forall p: Point :: p in ps ==> NestsAt(a, b, date, venue, p.t - midnight);
        ReaggregationComposes(ps, midnight, a, b, date, venue);
      }
    }
    if a == MINUTE {
      MinutesNest(b, date, venue);
    } else if b == MINUTE {
      MinutesAreNotDerived(midnight, a, date, venue);
    } else if forall ps :: ComposesOn(ps, midnight, a, b, date, venue) {
      forall t ensures NestsAt(a, b, date, venue, t) {
        assert ComposesOn([At(midnight + t)], midnight, a, b, date, venue);
        OnePointNeedsNesting(At(midnight + t), midnight, a, b, date, venue);
      }
    }
  }

  predicate WithinDay(ps: seq<Point>, midnight: int) {
    forall p :: p in ps ==> 0 <= p.t - midnight < DAY
  }

  ghost predicate DayComposes(midnight: int, a: int, b: int, date: string, venue: string) {
    forall ps :: WithinDay(ps, midnight) ==> ComposesOn(ps, midnight, a, b, date, venue)
  }

  /** And on every list of points within the day exactly when the two steps nest at the day's times,
      which they may do although they do not nest at all times. */
  lemma DayDerivationsCompose(midnight: int, a: int, b: int, date: string, venue: string)
    requires IsStep(a) && IsStep(b)
    ensures DayComposes(midnight, a, b, date, venue) <==> NestsInDay(a, b, date, venue)
  {
    if a == MINUTE {
      MinutesNest(b, date, venue);
      DerivationsCompose(midnight, a, b, date, venue);
      BucketsNest(a, b, date, venue);
    } else if b == MINUTE {
      MinutesAreNotDerived(midnight, a, date, venue);
      assert WithinDay([At(midnight + 1)], midnight);
      NothingNestsInMinutes(a, date, venue);
    } else {
      DayComposesWhereItNests(midnight, a, b, date, venue);
    }
  }

  lemma NothingNestsInMinutes(a: int, date: string, venue: string)
    requires IsStep(a) && a != MINUTE
    ensures !NestsInDay(a, MINUTE, date, venue)
  {
    if Extended(date, venue, a) {
      ShortBucketsDoNotHold(a, MINUTE);
      assert !NestsAt(a, MINUTE, date, venue, UTC_OFFSET - 1);
    } else {
      GridIs(0, a, MINUTE, 0);
      assert !NestsAt(a, MINUTE, date, venue, MINUTE);
    }
  }

  lemma DayComposesWhereItNests(midnight: int, a: int, b: int, date: string, venue: string)
    requires IsStep(a) && IsStep(b) && a != MINUTE && b != MINUTE
    ensures DayComposes(midnight, a, b, date, venue) <==> NestsInDay(a, b, date, venue)
  {
    if NestsInDay(a, b, date, venue) {
      forall ps: seq<Point> | WithinDay(ps, midnight) ensures ComposesOn(ps, midnight, a, b, date, venue) {
        assert forall p: Point :: p in ps ==> NestsAt(a, b, date, venue, p.t - midnight);
        ReaggregationComposes(ps, midnight, a, b, date, venue);
      }
    }
    if DayComposes(midnight, a, b, date, venue) {
      forall t | 0 <= t < DAY ensures NestsAt(a, b, date, venue, t) {
        assert WithinDay([At(midnight + t)], midnight);
        OnePointNeedsNesting(At(midnight + t), midnight, a, b, date, venue);
      }
    }
  }

  lemma MinutesNest(b: int, date: string, venue: string)
    requires IsStep(b)
    ensures Nests(MINUTE, b, date, venue)
  {
    assert HOUR % MINUTE == 0 && UTC_OFFSET % MINUTE == 0;
  }

  /** Four-hour points derived from two-hour ones differ from those derived directly for any point
      at 20:00 on KRX. */
  lemma TwoHourPointsDoNotMakeFourHourPoints(p: Point, midnight: int)
    requires p.t == midnight + AFTERMARKET_CLOSE && Even(p.peak)
    ensures !ComposesOn([p], midnight, 2 * HOUR, 4 * HOUR, "20260914", "KRX")
  {
    TwoHoursDoNotNestInFourAfterClose();
    OnePointNeedsNesting(p, midnight, 2 * HOUR, 4 * HOUR, "20260914", "KRX");
  }

  predicate EvenCells(cells: seq<Cell>) {
    forall i :: 0 <= i < |cells| ==> Even(cells[i].s.peak)
  }

  lemma {:induction false} EmittedPeaksAreEven(key: int -> int, ps: seq<Point>)
    requires AllEven(ps)
    ensures EvenCells(Grouped(key, ps)) && AllEven(Emitted(Grouped(key, ps)))
  {
    if ps != [] {
      var init, p := ps[..|ps| - 1], ps[|ps| - 1];
      EmittedPeaksAreEven(key, init);
      PushKeepsEven(Grouped(key, init), key(p.t), Of(p));
    }
  }

  lemma PushKeepsEven(cells: seq<Cell>, k: int, s: Summary)
    requires EvenCells(cells) && Even(s.peak)
    ensures EvenCells(Push(cells, k, s))
  {
  }

  predicate TimesIncrease(ps: seq<Point>) {
    forall i, j :: 0 <= i < j < |ps| ==> ps[i].t < ps[j].t
  }

  /** On points in order of time, and with buckets that follow time, the derived times strictly
      increase and the derived point of each bucket sums up exactly the bucket's points. */
  lemma DerivedPoints(ps: seq<Point>, midnight: int, b: int, date: string, venue: string, k: int)
    requires IsStep(b) && b != MINUTE && AllEven(ps) && TimesAscend(ps) && FollowsTime(b, date, venue)
    ensures var r := Reaggregated(ps, midnight, b, date, venue);
            && r.Ok? && TimesIncrease(r.value)
            && var rows := InBucket(BucketStart(midnight, b, date, venue), ps, k);
            && (rows == [] ==> forall i :: 0 <= i < |r.value| ==> r.value[i].t != k)
            && (rows != [] ==> exists i :: 0 <= i < |r.value| && r.value[i] == Emit(k, SummaryOf(rows)))
  {
    var key := BucketStart(midnight, b, date, venue);
    BucketsFollowTime(b, date, venue);
    GroupedPartitions(key, ps, k);
    var cells, rows := Grouped(key, ps), InBucket(key, ps, k);
    if rows != [] {
      var i :| 0 <= i < |cells| && cells[i] == Cell(k, SummaryOf(rows));
      assert Emitted(cells)[i] == Emit(k, SummaryOf(rows));
    }
  }

  ghost predicate DerivesInOrder(ps: seq<Point>, midnight: int, b: int, date: string, venue: string) {
    AllEven(ps) && TimesAscend(ps) ==>
      var r := Reaggregated(ps, midnight, b, date, venue);
      r.Ok? && TimesIncrease(r.value)
  }

  lemma TwoCells(key: int -> int, p: Point, q: Point)
    requires key(p.t) != key(q.t)
    ensures Grouped(key, [p] + [q]) == [Cell(key(p.t), Of(p))] + [Cell(key(q.t), Of(q))]
  {
    OneCell(key, p);
    GroupedSnoc(key, [p], q);
  }

  lemma EmittedTwo(c: Cell, d: Cell)
    ensures Emitted([c] + [d]) == [Emit(c.bucket, c.s), Emit(d.bucket, d.s)]
  {
  }

  lemma TwoPoints(p: Point, q: Point, midnight: int, b: int, date: string, venue: string)
    requires IsStep(b) && b != MINUTE && Even(p.peak) && Even(q.peak)
    requires var key := BucketStart(midnight, b, date, venue);
             key(p.t) != key(q.t)
    ensures var key := BucketStart(midnight, b, date, venue);
            Reaggregated([p, q], midnight, b, date, venue) == Ok([Emit(key(p.t), Of(p)), Emit(key(q.t), Of(q))])
  {
    var key := BucketStart(midnight, b, date, venue);
    TwoCells(key, p, q);
    EmittedTwo(Cell(key(p.t), Of(p)), Cell(key(q.t), Of(q)));
    assert [p, q] == [p] + [q];
  }

  /** Every list of points in order of time derives to strictly increasing times exactly when the
      buckets follow time across 20:00. */
  lemma DerivedTimesIncrease(midnight: int, b: int, date: string, venue: string)
    requires IsStep(b) && b != MINUTE
    ensures (forall ps :: DerivesInOrder(ps, midnight, b, date, venue)) <==> FollowsTime(b, date, venue)
  {
    if FollowsTime(b, date, venue) {
      forall ps: seq<Point> ensures DerivesInOrder(ps, midnight, b, date, venue) {
        if AllEven(ps) && TimesAscend(ps) { DerivedPoints(ps, midnight, b, date, venue, 0); }
      }
    } else {
      var p, q := At(midnight + AFTERMARKET_CLOSE - 1), At(midnight + AFTERMARKET_CLOSE);
      FollowsAcrossClose(b, date, venue);
      TwoPoints(p, q, midnight, b, date, venue);
      var r := Reaggregated([p, q], midnight, b, date, venue).value;
      assert r[1].t < r[0].t;
      assert !DerivesInOrder([p, q], midnight, b, date, venue);
    }
  }

  /** Three-hour points of the last moment before 20:00 and of 20:00 on KRX come out in the wrong
      order, at 19:00 and 18:00. */
  lemma ThreeHourPointsGoBack(p: Point, q: Point, midnight: int)
    requires p.t == midnight + AFTERMARKET_CLOSE - 1 && q.t == midnight + AFTERMARKET_CLOSE
    requires Even(p.peak) && Even(q.peak)
    ensures Reaggregated([p, q], midnight, 3 * HOUR, "20260914", "KRX")
         == Ok([Emit(midnight + 19 * HOUR, Of(p)), Emit(midnight + 18 * HOUR, Of(q))])
  {
    ThreeHoursGoBack();
    TwoPoints(p, q, midnight, 3 * HOUR, "20260914", "KRX");
  }
}
