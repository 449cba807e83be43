/** Which bucket of the trading day a time belongs to. Times are milliseconds since midnight. */
module StockSessions {
  import opened Division

  const MINUTE := 60_000
  const HOUR := 3_600_000
  const AFTERMARKET_OPEN := 16 * HOUR
  const AFTERMARKET_CLOSE := 20 * HOUR
  const UTC_OFFSET := 9 * HOUR

  /** The order of strings of one length. */
  predicate Before(s: string, t: string)
    requires |s| == |t|
  {
    s != [] && (s[0] < t[0] || (s[0] == t[0] && Before(s[1..], t[1..])))
  }

  predicate Introduced(date: string) {
    |date| == 8 && (forall i :: 0 <= i < 8 ==> '0' <= date[i] <= '9') && !Before(date, "20260914")
  }

  predicate Extended(date: string, venue: string, bucket: int) {
    bucket >= 2 * HOUR && (venue == "NXT" || venue == "UN" || (venue == "KRX" && Introduced(date)))
  }

  /** The bucket of step `bucket` counted from `origin` that holds `t`. */
  function Grid(origin: int, bucket: int, t: int): int
    requires bucket > 0
  {
    origin + (t - origin) / bucket * bucket
  }

  function IndicatorBucket(t: int, bucket: int, date: string, venue: string): int
    requires bucket > 0
  {
    if !Extended(date, venue, bucket) then t / bucket * bucket
    else if venue == "KRX" && AFTERMARKET_OPEN <= t < AFTERMARKET_CLOSE then
      AFTERMARKET_OPEN + (t - AFTERMARKET_OPEN) / bucket * bucket
    else (t - UTC_OFFSET) / bucket * bucket + UTC_OFFSET
  }

  // ---- grids -----------------------------------------------------------------------------

  /** The bucket is the one boundary at most one step before the time. */
  lemma GridIs(origin: int, b: int, t: int, x: int)
    requires b > 0
    ensures x == Grid(origin, b, t) <==> x <= t < x + b && (x - origin) % b == 0
  {
    var d := t - origin;
    assert d == d / b * b + d % b;
    MultipleMod(d / b, b);
    if x <= t < x + b && (x - origin) % b == 0 {
      var k := (x - origin) / b;
      assert x - origin == k * b;
      QuotientIs(d, b, k);
    }
  }

  lemma MultipleMod(k: int, b: int)
    requires b > 0
    ensures (k * b) % b == 0
  {
    QuotientIs(k * b, b, k);
    assert k * b == (k * b) / b * b + (k * b) % b;
  }

  /** Multiples of a multiple are multiples. */
  lemma ModOfMod(x: int, a: int, b: int)
    requires a > 0 && b > 0 && b % a == 0 && x % b == 0
    ensures x % a == 0
  {
    var k, m := x / b, b / a;
    assert x == k * b && b == m * a;
    assert x == (k * m) * a;
    MultipleMod(k * m, a);
  }

  lemma ModSum(x: int, y: int, a: int)
    requires a > 0 && x % a == 0 && y % a == 0
    ensures (x + y) % a == 0 && (x - y) % a == 0
  {
    var k, m := x / a, y / a;
    assert x == k * a && y == m * a;
    assert x + y == (k + m) * a && x - y == (k - m) * a;
    MultipleMod(k + m, a);
    MultipleMod(k - m, a);
  }

  lemma NoMultipleBetween(x: int, a: int)
    requires 0 < x < a
    ensures x % a != 0
  {
  }

  /** The finer grid has a boundary wherever the coarser one does, so going through it loses nothing. */
  lemma GridsNest(o: int, a: int, p: int, b: int, t: int)
    requires a > 0 && b > 0 && b % a == 0 && (p - o) % a == 0
    ensures Grid(p, b, Grid(o, a, t)) == Grid(p, b, t)
    ensures Grid(p, b, t) <= Grid(o, a, t) <= t
  {
    var x, y := Grid(p, b, t), Grid(o, a, t);
    GridIs(p, b, t, x);
    GridIs(o, a, t, y);
    ModOfMod(x - p, a, b);
    ModSum(x - p, p - o, a);
    if y < x {
      ModSum(x - o, y - o, a);
      assert x - o - (y - o) == x - y;
      NoMultipleBetween(x - y, a);
    }
    GridIs(p, b, y, x);
  }

  lemma GridAscends(o: int, b: int, t: int, u: int)
    requires b > 0 && t <= u
    ensures Grid(o, b, t) <= Grid(o, b, u)
    ensures o <= u ==> o <= Grid(o, b, u)
  {
    var x, y := Grid(o, b, t), Grid(o, b, u);
    GridIs(o, b, t, x);
    GridIs(o, b, u, y);
    if y < x {
      ModSum(x - o, y - o, b);
      assert x - o - (y - o) == x - y;
      NoMultipleBetween(x - y, b);
    }
    if o <= u && y < o {
      GridIs(o, b, o, o);
      ModSum(0, y - o, b);
      NoMultipleBetween(o - y, b);
    }
  }

  // ---- when re-bucketing loses nothing ---------------------------------------------------

  predicate NestsAt(a: int, b: int, date: string, venue: string, t: int)
    requires a > 0 && b > 0
  {
    IndicatorBucket(IndicatorBucket(t, a, date, venue), b, date, venue) == IndicatorBucket(t, b, date, venue)
  }

  /** Ordinary buckets nest exactly when the finer divides the coarser. */
  lemma OrdinaryBucketsNest(a: int, b: int, date: string, venue: string)
    requires 0 < a <= b && !Extended(date, venue, b)
    ensures (forall t :: NestsAt(a, b, date, venue, t)) <==> b % a == 0
  {
    if b % a == 0 {
      forall t ensures NestsAt(a, b, date, venue, t) { GridsNest(0, a, 0, b, t); }
    }
    if NestsAt(a, b, date, venue, b) {
      CoarseBoundaryNeeded(a, b);
    }
  }

  /** Going from ordinary to extended buckets is exact everywhere exactly when the ordinary ones
      have a boundary wherever the extended grid restarts: at 9:00 elsewhere, at 9:00 and 16:00,
      that is on every hour, on KRX. */
  lemma OrdinaryNestInExtended(a: int, b: int, date: string, venue: string)
    requires a > 0 && b > 0 && b % a == 0 && Extended(date, venue, b) && !Extended(date, venue, a)
    ensures (forall t :: NestsAt(a, b, date, venue, t)) <==> (if venue == "KRX" then HOUR else UTC_OFFSET) % a == 0
  {
    var unit := if venue == "KRX" then HOUR else UTC_OFFSET;
    if unit % a == 0 {
      if venue == "KRX" { HoursAreMultiples(a); }
      forall t ensures NestsAt(a, b, date, venue, t) {
        if venue == "KRX" { HourlyNest(a, b, date, t); } else { GridsNest(0, a, UTC_OFFSET, b, t); }
      }
    }
    if forall t :: NestsAt(a, b, date, venue, t) {
      assert NestsAt(a, b, date, venue, UTC_OFFSET) && NestsAt(a, b, date, venue, AFTERMARKET_OPEN);
      NestingNeedsUnits(a, b, date, venue);
    }
  }

  lemma NestingNeedsUnits(a: int, b: int, date: string, venue: string)
    requires a > 0 && b > 0 && b % a == 0 && Extended(date, venue, b) && !Extended(date, venue, a)
    requires NestsAt(a, b, date, venue, UTC_OFFSET) && NestsAt(a, b, date, venue, AFTERMARKET_OPEN)
    ensures (if venue == "KRX" then HOUR else UTC_OFFSET) % a == 0
  {
    GridIs(0, a, UTC_OFFSET, Grid(0, a, UTC_OFFSET));
    BoundaryNeeded(a, b, UTC_OFFSET);
    if venue == "KRX" {
      OpeningNeeded(a, b, date);
      ModSum(AFTERMARKET_OPEN, UTC_OFFSET, a);
      ModSum(UTC_OFFSET, 7 * HOUR, a);
      ModSum(7 * HOUR, 2 * HOUR, a);
      ModSum(5 * HOUR, 2 * HOUR, a);
      ModSum(3 * HOUR, 2 * HOUR, a);
    }
  }

  lemma OpeningNeeded(a: int, b: int, date: string)
    requires a > 0 && b > 0 && Extended(date, "KRX", b) && !Extended(date, "KRX", a)
    requires NestsAt(a, b, date, "KRX", AFTERMARKET_OPEN)
    ensures AFTERMARKET_OPEN % a == 0
  {
    var y := Grid(0, a, AFTERMARKET_OPEN);
    GridIs(0, a, AFTERMARKET_OPEN, y);
    GridIs(UTC_OFFSET, b, y, Grid(UTC_OFFSET, b, y));
    GridIs(AFTERMARKET_OPEN, b, AFTERMARKET_OPEN, AFTERMARKET_OPEN);
  }

  lemma HoursAreMultiples(a: int)
    requires a > 0 && HOUR % a == 0
    ensures UTC_OFFSET % a == 0 && AFTERMARKET_OPEN % a == 0 && AFTERMARKET_CLOSE % a == 0
  {
    MultipleMod(9, HOUR);
    MultipleMod(16, HOUR);
    MultipleMod(20, HOUR);
    ModOfMod(UTC_OFFSET, a, HOUR);
    ModOfMod(AFTERMARKET_OPEN, a, HOUR);
    ModOfMod(AFTERMARKET_CLOSE, a, HOUR);
  }

  lemma CoarseBoundaryNeeded(a: int, b: int)
    requires a > 0 && b > 0 && Grid(0, b, Grid(0, a, b)) == Grid(0, b, b)
    ensures b % a == 0
  {
    GridIs(0, a, b, Grid(0, a, b));
    GridIs(0, b, b, b);
    GridIs(0, b, Grid(0, a, b), b);
  }

  lemma BoundaryNeeded(a: int, b: int, o: int)
    requires a > 0 && b > 0 && Grid(o, b, Grid(0, a, o)) == Grid(o, b, o)
    ensures o % a == 0
  {
    var y := Grid(0, a, o);
    GridIs(0, a, o, y);
    GridIs(o, b, o, o);
    GridIs(o, b, y, o);
  }

  lemma HourlyNest(a: int, b: int, date: string, t: int)
    requires a > 0 && b > 0 && b % a == 0 && Extended(date, "KRX", b) && !Extended(date, "KRX", a)
    requires UTC_OFFSET % a == 0 && AFTERMARKET_OPEN % a == 0 && AFTERMARKET_CLOSE % a == 0
    ensures NestsAt(a, b, date, "KRX", t)
  {
    GridsNest(0, a, UTC_OFFSET, b, t);
    GridsNest(0, a, AFTERMARKET_OPEN, b, t);
    GridsNest(0, a, AFTERMARKET_CLOSE, b, t);
    GridAscends(AFTERMARKET_OPEN, b, t, t);
    GridAscends(AFTERMARKET_CLOSE, b, t, t);
  }

  /** On KRX the grid falls back to the morning's at 20:00. Finer buckets still nest in coarser ones
      if one of them starts at 20:00, if the one that holds 20:00 starts before the aftermarket does,
      or if the morning's and the aftermarket's coarse grids are one. */
  predicate NestAcrossClose(a: int, b: int)
    requires a > 0 && b > 0
  {
    (11 * HOUR) % a == 0 || 11 * HOUR / a * a < 7 * HOUR || (7 * HOUR) % b == 0
  }

  lemma CloseNests(a: int, b: int, date: string)
    requires a > 0 && b > 0 && b % a == 0 && Extended(date, "KRX", a) && Extended(date, "KRX", b)
    ensures NestsAt(a, b, date, "KRX", AFTERMARKET_CLOSE) <==> NestAcrossClose(a, b)
  {
    var y := Grid(UTC_OFFSET, a, AFTERMARKET_CLOSE);
    assert y == UTC_OFFSET + 11 * HOUR / a * a;
    GridIs(UTC_OFFSET, a, AFTERMARKET_CLOSE, y);
    GridsNest(UTC_OFFSET, a, UTC_OFFSET, b, AFTERMARKET_CLOSE);
    if AFTERMARKET_OPEN <= y < AFTERMARKET_CLOSE {
      GridIs(UTC_OFFSET, a, AFTERMARKET_CLOSE, AFTERMARKET_CLOSE);
      SameGrids(UTC_OFFSET, AFTERMARKET_OPEN, b, y);
    }
    if y == AFTERMARKET_CLOSE {
      assert 11 * HOUR / a * a == 11 * HOUR;
      MultipleMod(11 * HOUR / a, a);
    }
  }

  /** Two grids of one step share the bucket of some time only if they are the same grid. */
  lemma SameGrids(o: int, p: int, b: int, t: int)
    requires b > 0
    ensures Grid(o, b, t) == Grid(p, b, t) <==> (p - o) % b == 0
  {
    var x, y := Grid(o, b, t), Grid(p, b, t);
    GridIs(o, b, t, x);
    GridIs(p, b, t, y);
    if x == y {
      ModSum(x - o, x - p, b);
      assert x - o - (x - p) == p - o;
    }
    if (p - o) % b == 0 {
      ModSum(y - p, p - o, b);
      assert y - p + (p - o) == y - o;
      GridIs(o, b, t, y);
    }
  }

  /** Extended buckets nest in extended ones everywhere but, on KRX, after the close at 20:00; there
      they nest at all times exactly when the two steps let them nest at 20:00. */
  lemma ExtendedNest(a: int, b: int, date: string, venue: string)
    requires a > 0 && b > 0 && b % a == 0 && Extended(date, venue, a)
    ensures forall t :: t < AFTERMARKET_CLOSE ==> NestsAt(a, b, date, venue, t)
    ensures (forall t :: NestsAt(a, b, date, venue, t)) <==> (venue == "KRX" ==> NestAcrossClose(a, b))
  {
    assert b >= a by { if b < a { NoMultipleBetween(b, a); } }
    forall t | venue != "KRX" || t < AFTERMARKET_CLOSE ensures NestsAt(a, b, date, venue, t) {
      GridsNest(UTC_OFFSET, a, UTC_OFFSET, b, t);
      GridsNest(AFTERMARKET_OPEN, a, AFTERMARKET_OPEN, b, t);
      GridAscends(AFTERMARKET_OPEN, a, t, t);
    }
    if venue == "KRX" {
      CloseNests(a, b, date);
      forall t | t >= AFTERMARKET_CLOSE && NestsAt(a, b, date, "KRX", AFTERMARKET_CLOSE)
        ensures NestsAt(a, b, date, venue, t)
      {
        LaterNests(a, b, date, t);
      }
    }
  }

  lemma LaterNests(a: int, b: int, date: string, t: int)
    requires a > 0 && b > 0 && b % a == 0 && Extended(date, "KRX", a) && Extended(date, "KRX", b)
    requires t >= AFTERMARKET_CLOSE && NestsAt(a, b, date, "KRX", AFTERMARKET_CLOSE)
    ensures NestsAt(a, b, date, "KRX", t)
  {
    GridsNest(UTC_OFFSET, a, UTC_OFFSET, b, t);
    GridsNest(UTC_OFFSET, a, UTC_OFFSET, b, AFTERMARKET_CLOSE);
    var y := Grid(UTC_OFFSET, a, t);
    GridIs(UTC_OFFSET, a, t, y);
    if y < AFTERMARKET_CLOSE {
      GridIs(UTC_OFFSET, a, AFTERMARKET_CLOSE, y);
    }
  }

  /** When going through the finer step loses nothing, for any two steps. */
  predicate Nests(a: int, b: int, date: string, venue: string)
    requires a > 0 && b > 0
  {
    && b % a == 0
    && (!Extended(date, venue, b)
        || (if !Extended(date, venue, a) then (if venue == "KRX" then HOUR else UTC_OFFSET) % a == 0
            else venue != "KRX" || NestAcrossClose(a, b)))
  }

  lemma BucketsNest(a: int, b: int, date: string, venue: string)
    requires a > 0 && b > 0
    ensures (forall t :: NestsAt(a, b, date, venue, t)) <==> Nests(a, b, date, venue)
  {
    if b % a == 0 {
      assert b >= a by { if b < a { NoMultipleBetween(b, a); } }
      if !Extended(date, venue, b) {
        OrdinaryBucketsNest(a, b, date, venue);
      } else if !Extended(date, venue, a) {
        OrdinaryNestInExtended(a, b, date, venue);
      } else {
        ExtendedNest(a, b, date, venue);
      }
    } else if forall t :: NestsAt(a, b, date, venue, t) {
      assert NestsAt(a, b, date, venue, b) && NestsAt(a, b, date, venue, UTC_OFFSET);
      assert NestsAt(a, b, date, venue, UTC_OFFSET - 1) && NestsAt(a, b, date, venue, UTC_OFFSET - b);
      NestingNeedsMultiple(a, b, date, venue);
    }
  }

  const DAY := 24 * HOUR

  /** The same for the times of the day alone. */
  ghost predicate NestsInDay(a: int, b: int, date: string, venue: string)
    requires a > 0 && b > 0
  {
    forall t :: 0 <= t < DAY ==> NestsAt(a, b, date, venue, t)
  }

  /** If the finer step divides the coarser one, what fails to nest fails within the day: at 9:00,
      16:00 or 20:00. */
  lemma DayDecides(a: int, b: int, date: string, venue: string)
    requires a > 0 && b > 0 && b % a == 0
    ensures NestsInDay(a, b, date, venue) <==> Nests(a, b, date, venue)
  {
    BucketsNest(a, b, date, venue);
    if NestsInDay(a, b, date, venue) && Extended(date, venue, b) {
      assert NestsAt(a, b, date, venue, UTC_OFFSET) && NestsAt(a, b, date, venue, AFTERMARKET_OPEN);
      assert NestsAt(a, b, date, venue, AFTERMARKET_CLOSE);
      if !Extended(date, venue, a) {
        NestingNeedsUnits(a, b, date, venue);
      } else if venue == "KRX" {
        CloseNests(a, b, date);
      }
    }
  }

  /** It need not divide it: hours nest in nine and a half hours on KRX at all times of the day. */
  lemma LongBucketsNestInTheDay()
    ensures var b := 9 * HOUR + 30 * MINUTE;
            NestsInDay(HOUR, b, "20260914", "KRX") && !Nests(HOUR, b, "20260914", "KRX")
  {
    var b := 9 * HOUR + 30 * MINUTE;
    NotBeforeItself("20260914");
    forall t | 0 <= t < DAY ensures NestsAt(HOUR, b, "20260914", "KRX", t) {
      GridIs(0, HOUR, t, Grid(0, HOUR, t));
      LongBucket(t);
      LongBucket(Grid(0, HOUR, t));
    }
  }

  lemma LongBucket(t: int)
    requires 0 <= t < DAY
    ensures (IndicatorBucket(t, 9 * HOUR + 30 * MINUTE, "20260914", "KRX")
             == if t < UTC_OFFSET then -30 * MINUTE else if t < AFTERMARKET_OPEN then UTC_OFFSET
                else if t < AFTERMARKET_CLOSE then AFTERMARKET_OPEN else 18 * HOUR + 30 * MINUTE)
  {
    var b := 9 * HOUR + 30 * MINUTE;
    NotBeforeItself("20260914");
    var n := if t < UTC_OFFSET then -1 else if t < AFTERMARKET_CLOSE then 0 else 1;
    if AFTERMARKET_OPEN <= t < AFTERMARKET_CLOSE {
      QuotientIs(t - AFTERMARKET_OPEN, b, 0);
    } else {
      QuotientIs(t - UTC_OFFSET, b, n);
    }
  }

  lemma NestingNeedsMultiple(a: int, b: int, date: string, venue: string)
    requires a > 0 && b > 0
    requires NestsAt(a, b, date, venue, b) && NestsAt(a, b, date, venue, UTC_OFFSET)
    requires NestsAt(a, b, date, venue, UTC_OFFSET - 1) && NestsAt(a, b, date, venue, UTC_OFFSET - b)
    ensures b % a == 0
  {
    if Extended(date, venue, b) {
      ExtendedNeedMultiple(a, b, date, venue);
    } else if Extended(date, venue, a) {
      ShortBucketsDoNotHold(a, b);
    } else {
      CoarseBoundaryNeeded(a, b);
    }
  }

  /** Before the aftermarket nesting is about two grids. */
  lemma MorningNesting(o: int, a: int, b: int, date: string, venue: string, t: int)
    requires a > 0 && b > 0 && Extended(date, venue, b) && o == (if Extended(date, venue, a) then UTC_OFFSET else 0)
    requires t < AFTERMARKET_OPEN && NestsAt(a, b, date, venue, t)
    ensures Grid(UTC_OFFSET, b, Grid(o, a, t)) == Grid(UTC_OFFSET, b, t)
  {
    GridIs(o, a, t, Grid(o, a, t));
  }

  lemma ExtendedNeedMultiple(a: int, b: int, date: string, venue: string)
    requires a > 0 && b > 0 && Extended(date, venue, b)
    requires NestsAt(a, b, date, venue, UTC_OFFSET) && NestsAt(a, b, date, venue, UTC_OFFSET - b)
    ensures b % a == 0
  {
    var o := if Extended(date, venue, a) then UTC_OFFSET else 0;
    MorningNesting(o, a, b, date, venue, UTC_OFFSET);
    MorningNesting(o, a, b, date, venue, UTC_OFFSET - b);
    GridsNeedMultiple(o, a, b);
  }

  lemma GridsNeedMultiple(o: int, a: int, b: int)
    requires a > 0 && b > 0
    requires Grid(UTC_OFFSET, b, Grid(o, a, UTC_OFFSET)) == Grid(UTC_OFFSET, b, UTC_OFFSET)
    requires Grid(UTC_OFFSET, b, Grid(o, a, UTC_OFFSET - b)) == Grid(UTC_OFFSET, b, UTC_OFFSET - b)
    ensures b % a == 0
  {
    StartNeeded(o, a, b, 0);
    StartNeeded(o, a, b, -1);
    ModSum(UTC_OFFSET - o, UTC_OFFSET - b - o, a);
    assert UTC_OFFSET - o - (UTC_OFFSET - b - o) == b;
  }

  /** Every start of a coarse bucket must be one of the finer grid. */
  lemma StartNeeded(o: int, a: int, b: int, n: int)
    requires a > 0 && b > 0
    requires var t := UTC_OFFSET + n * b;
             Grid(UTC_OFFSET, b, Grid(o, a, t)) == Grid(UTC_OFFSET, b, t)
    ensures (UTC_OFFSET + n * b - o) % a == 0
  {
    var t := UTC_OFFSET + n * b;
    var y := Grid(o, a, t);
    MultipleMod(n, b);
    assert n * b == t - UTC_OFFSET;
    GridIs(o, a, t, y);
    GridIs(UTC_OFFSET, b, t, t);
    GridIs(UTC_OFFSET, b, y, t);
  }

  lemma ShortBucketsDoNotHold(a: int, b: int)
    requires 0 < b < 2 * HOUR <= a
    ensures Grid(0, b, Grid(UTC_OFFSET, a, UTC_OFFSET - 1)) != Grid(0, b, UTC_OFFSET - 1)
  {
    MultipleMod(-1, a);
    assert -1 * a == UTC_OFFSET - a - UTC_OFFSET;
    GridIs(UTC_OFFSET, a, UTC_OFFSET - 1, UTC_OFFSET - a);
    GridIs(0, b, UTC_OFFSET - a, Grid(0, b, UTC_OFFSET - a));
    GridIs(0, b, UTC_OFFSET - 1, Grid(0, b, UTC_OFFSET - 1));
  }

  /** The two coarse steps in use do not nest after the close: 20:00 is in the two-hour bucket of
      19:00 and so, two steps on, in the one of 16:00, but directly in that of 17:00. */
  lemma TwoHoursDoNotNestInFourAfterClose()
    ensures Extended("20260914", "KRX", 2 * HOUR)
    ensures IndicatorBucket(AFTERMARKET_CLOSE, 2 * HOUR, "20260914", "KRX") == 19 * HOUR
    ensures IndicatorBucket(19 * HOUR, 4 * HOUR, "20260914", "KRX") == 16 * HOUR
    ensures IndicatorBucket(AFTERMARKET_CLOSE, 4 * HOUR, "20260914", "KRX") == 17 * HOUR
    ensures !NestsAt(2 * HOUR, 4 * HOUR, "20260914", "KRX", AFTERMARKET_CLOSE)
  {
    NotBeforeItself("20260914");
  }

  lemma NotBeforeItself(s: string)
    ensures !Before(s, s)
  {
  }

  // ---- when buckets follow time ----------------------------------------------------------

  /** The last bucket of the aftermarket does not start after the bucket of 20:00. */
  predicate FollowsTime(b: int, date: string, venue: string)
    requires b > 0
  {
    venue == "KRX" && Extended(date, venue, b) ==> 7 * HOUR + (4 * HOUR - 1) / b * b <= 11 * HOUR / b * b
  }

  /** Later times are never in earlier buckets, exactly when that is so across 20:00. */
  lemma BucketsFollowTime(b: int, date: string, venue: string)
    requires b > 0
    ensures (forall t, u :: t <= u ==> IndicatorBucket(t, b, date, venue) <= IndicatorBucket(u, b, date, venue))
       <==> FollowsTime(b, date, venue)
  {
    FollowsAcrossClose(b, date, venue);
    if FollowsTime(b, date, venue) {
      forall t, u | t <= u ensures IndicatorBucket(t, b, date, venue) <= IndicatorBucket(u, b, date, venue) {
        BucketsAscend(b, date, venue, t, u);
      }
    }
  }

  lemma FollowsAcrossClose(b: int, date: string, venue: string)
    requires b > 0
    ensures IndicatorBucket(AFTERMARKET_CLOSE - 1, b, date, venue) <= IndicatorBucket(AFTERMARKET_CLOSE, b, date, venue)
       <==> FollowsTime(b, date, venue)
  {
    GridAscends(0, b, AFTERMARKET_CLOSE - 1, AFTERMARKET_CLOSE);
    GridAscends(UTC_OFFSET, b, AFTERMARKET_CLOSE - 1, AFTERMARKET_CLOSE);
  }

  /** Three-hour buckets on KRX go back: the last moment before 20:00 is in the one of 19:00 and 20:00
      in that of 18:00. */
  lemma ThreeHoursGoBack()
    ensures Extended("20260914", "KRX", 3 * HOUR)
    ensures IndicatorBucket(AFTERMARKET_CLOSE - 1, 3 * HOUR, "20260914", "KRX") == 19 * HOUR
    ensures IndicatorBucket(AFTERMARKET_CLOSE, 3 * HOUR, "20260914", "KRX") == 18 * HOUR
    ensures !FollowsTime(3 * HOUR, "20260914", "KRX")
  {
    NotBeforeItself("20260914");
  }

  lemma BucketsAscend(b: int, date: string, venue: string, t: int, u: int)
    requires b > 0 && t <= u
    requires (IndicatorBucket(AFTERMARKET_CLOSE - 1, b, date, venue)
              <= IndicatorBucket(AFTERMARKET_CLOSE, b, date, venue))
    ensures IndicatorBucket(t, b, date, venue) <= IndicatorBucket(u, b, date, venue)
  {
    GridAscends(0, b, t, u);
    GridAscends(UTC_OFFSET, b, t, u);
    GridAscends(AFTERMARKET_OPEN, b, t, u);
    GridIs(UTC_OFFSET, b, t, Grid(UTC_OFFSET, b, t));
    if AFTERMARKET_OPEN <= t < AFTERMARKET_CLOSE <= u {
      GridAscends(AFTERMARKET_OPEN, b, t, AFTERMARKET_CLOSE - 1);
      GridAscends(UTC_OFFSET, b, AFTERMARKET_CLOSE, u);
    }
  }
}
