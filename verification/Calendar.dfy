/** The trading-day calendar: one set of covered days, and the answers for a range, a day, a month and
    the session that is on. A date is the number its eight digits spell. */
module Calendar {
  import opened Wrappers
  import opened Division
  import opened Ordering

  datatype Reason = Unavailable | Stale

  datatype Error = BadDate | EndBeforeStart | NoAnswer(reason: Reason)

  function Month(date: nat): nat {
    date / 100
  }

  function FirstOf(month: nat): nat {
    month * 100 + 1
  }

  predicate RealMonth(month: int) {
    1 <= month % 100 <= 12
  }

  /** A `datetime.date`. */
  datatype Day = Day(year: nat, month: nat, day: nat) {
    function Number(): nat {
      year * 10000 + month * 100 + day
    }

    predicate Real() {
      1 <= year <= 9999 && 1 <= month <= 12 && 1 <= day <= DaysIn(year, month)
    }
  }

  predicate Leap(y: nat) {
    y % 4 == 0 && (y % 100 != 0 || y % 400 == 0)
  }

  function DaysIn(year: nat, month: nat): nat {
    if month == 2 then (if Leap(year) then 29 else 28) else if month in {4, 6, 9, 11} then 30 else 31
  }

  function Parse(date: nat): Day {
    Day(date / 10000, date / 100 % 100, date % 100)
  }

  predicate RealDate(date: nat) {
    Parse(date).Real()
  }

  lemma NumberParses(d: Day)
    requires d.month < 100 && d.day < 100
    ensures Parse(d.Number()) == d
  {
    var n := d.Number();
    QuotientIs(n, 10000, d.year);
    QuotientIs(n, 100, d.year * 100 + d.month);
    QuotientIs(d.year * 100 + d.month, 100, d.year);
    assert n % 100 == n - n / 100 * 100;
    assert (n / 100) % 100 == n / 100 - n / 100 / 100 * 100;
  }

  lemma ParseNumbers(n: nat)
    ensures Parse(n).Number() == n
  {
    var q := n / 100;
    assert n == q * 100 + n % 100;
    assert q == q / 100 * 100 + q % 100;
    QuotientIs(n, 10000, q / 100);
  }

  /** Lines of a calendar file: any eight digits. */
  predicate Lines(days: set<int>) {
    forall d :: d in days ==> 0 <= d <= 99_999_999
  }

  lemma GreatestExists(days: set<int>)
    requires days != {}
    ensures exists m :: m in days && forall d :: d in days ==> d <= m
  {
    var up := Sorted(days);
    assert |up| > 0;
    var m := up[|up| - 1];
    assert m in up;
    forall d | d in days ensures d <= m {
      assert d in up;
      var i :| 0 <= i < |up| && up[i] == d;
    }
  }

  /** `max(days)`: what the calendar can answer up to. */
  function CoverageEnd(days: set<int>): (end: Option<int>)
    ensures end.None? <==> days == {}
    ensures end.Some? ==> end.value in days && forall d :: d in days ==> d <= end.value
  {
    if days == {} then None
    else
      GreatestExists(days);
      var m :| m in days && forall d :: d in days ==> d <= m;
      Some(m)
  }

  predicate Covered(days: set<int>, date: int) {
    CoverageEnd(days).Some? && date <= CoverageEnd(days).value
  }

  /** The covered days of one month, if the coverage reaches the month at all. */
  function TradingDaysFor(days: set<int>, month: nat): Option<set<int>> {
    if days == {} || FirstOf(month) > CoverageEnd(days).value then None
    else Some(set d | d in days && d / 100 == month)
  }

  function IsTradingDay(days: set<int>, date: nat): Option<bool> {
    if !Covered(days, date) then None
    else
      match TradingDaysFor(days, Month(date))
      case None => None
      case Some(month) => Some(date in month)
  }

  /** Within the coverage the answer is whether the day is listed. */
  lemma DayAnswer(days: set<int>, date: nat)
    requires date % 100 >= 1
    ensures IsTradingDay(days, date) == if Covered(days, date) then Some(date in days) else None
  {
    assert FirstOf(Month(date)) <= date;
  }

  // ---- a range ---------------------------------------------------------------------------

  function NextMonth(month: nat): nat {
    if month % 100 == 12 then (month / 100 + 1) * 100 + 1 else month + 1
  }

  /** What a range answers: every listed day between its ends that is in a month of the year. */
  predicate InRange(days: set<int>, from: nat, to: nat, d: int) {
    d in days && from <= d <= to && RealMonth(d / 100)
  }

  lemma NextMonthIsNext(month: nat, d: nat)
    requires RealMonth(month)
    ensures RealMonth(NextMonth(month)) && NextMonth(month) > month
    ensures RealMonth(Month(d)) && month < Month(d) ==> NextMonth(month) <= Month(d)
  {
  }

  /** The range's days before a limit, in order. */
  ghost predicate Collected(days: set<int>, start: nat, end: nat, out: seq<int>, limit: nat) {
    Ascending(out) && forall d :: d in out <==> InRange(days, start, end, d) && d < limit
  }

  lemma CollectedThrough(days: set<int>, start: nat, end: nat, out: seq<int>, month: nat)
    requires RealMonth(month) && Collected(days, start, end, out, month * 100 + 100)
    ensures Collected(days, start, end, out, NextMonth(month) * 100)
  {
    forall d: nat | RealMonth(d / 100) ensures d < NextMonth(month) * 100 <==> d < month * 100 + 100 {
      NextMonthIsNext(month, d);
    }
  }

  method TradingDaysInRange(days: set<int>, start: nat, end: nat) returns (r: Result<seq<int>, Error>)
    requires Lines(days)
    ensures r == Err(EndBeforeStart) <==> RealDate(start) && RealDate(end) && end < start
    ensures RealDate(start) && RealDate(end) && start <= end ==>
              && (r == Err(NoAnswer(Unavailable)) <==> days == {})
              && (r == Err(NoAnswer(Stale)) <==> days != {} && !Covered(days, end))
    ensures r == Err(BadDate) <==>
              !RealDate(start) || !RealDate(end) || (start <= end && Covered(days, end) && Month(end) == 9999_12)
    ensures r.Ok? ==> Ascending(r.value) && forall d :: d in r.value <==> InRange(days, start, end, d)
  {
    if !RealDate(start) || !RealDate(end) {
      return Err(BadDate);
    }
    if end < start {
      return Err(EndBeforeStart);
    }
    var known := CoverageEnd(days);
    if known.None? {
      return Err(NoAnswer(Unavailable));
    }
    if end > known.value {
      return Err(NoAnswer(Stale));
    }
    r := MonthByMonth(days, start, end);
  }

  /** Its loop: the months are covered, so asking for their days does not fail. */
  method MonthByMonth(days: set<int>, start: nat, end: nat) returns (r: Result<seq<int>, Error>)
    requires Lines(days) && Covered(days, end) && start <= end
    requires RealMonth(Month(start)) && RealMonth(Month(end)) && Month(end) <= 9999_12 && end % 100 >= 1
    ensures r.Err? <==> Month(end) == 9999_12
    ensures r.Err? ==> r.error == BadDate
    ensures r.Ok? ==> Collected(days, start, end, r.value, end + 1)
  {
    var out: seq<int>, cur := [], Month(start);
    while FirstOf(cur) <= end
      invariant RealMonth(cur) && Month(start) <= cur && cur <= NextMonth(Month(end)) && cur <= 9999_12
      invariant Collected(days, start, end, out, cur * 100)
      decreases Month(end) + 100 - cur
    {
      var month := TradingDaysFor(days, cur);
      if month.None? {
        assert false;
        return Err(NoAnswer(Unavailable));
      }
      out := TakeMonth(days, out, start, end, cur, month.value);
      NextMonthIsNext(cur, end);
      if cur == 9999_12 {
        // the year after does not exist
        return Err(BadDate);
      }
      CollectedThrough(days, start, end, out, cur);
      cur := NextMonth(cur);
    }
    return Ok(out);
  }

  /** One turn of the loop: the month's days between the ends, in order. */
  method TakeMonth(days: set<int>, out0: seq<int>, start: nat, end: nat, cur: nat, month: set<int>)
    returns (out: seq<int>)
    requires Lines(days) && RealMonth(cur) && forall d :: d in month <==> d in days && d / 100 == cur
    requires Collected(days, start, end, out0, cur * 100)
    ensures Collected(days, start, end, out, cur * 100 + 100)
  {
    out := AppendBetween(out0, Sorted(month), start, end);
    forall d ensures d in out <==> InRange(days, start, end, d) && d < cur * 100 + 100 {
      assert d in month <==> d in days && cur * 100 <= d < cur * 100 + 100;
    }
  }

  lemma AscendingSnoc(xs: seq<int>, x: int)
    requires Ascending(xs) && forall d :: d in xs ==> d < x
    ensures Ascending(xs + [x])
  {
    assert forall i :: 0 <= i < |xs| ==> xs[i] in xs;
  }

  method AppendBetween(out0: seq<int>, up: seq<int>, start: nat, end: nat) returns (out: seq<int>)
    requires Ascending(out0) && Ascending(up) && forall d, u :: d in out0 && u in up ==> d < u
    ensures Ascending(out) && forall d :: d in out <==> d in out0 || (d in up && start <= d <= end)
  {
    out := out0;
    for i := 0 to |up|
      invariant Ascending(out)
      invariant forall d :: d in out <==> d in out0 || (d in up[..i] && start <= d <= end)
    {
      assert up[i] in up;
      assert up[..i + 1] == up[..i] + [up[i]];
      if start <= up[i] <= end {
        AscendingSnoc(out, up[i]);
        out := out + [up[i]];
      }
    }
    assert up[..|up|] == up;
  }

  lemma DayAnswerBefore(days: set<int>, end: nat, d: nat)
    requires RealDate(end) && Covered(days, end) && d <= end
    ensures IsTradingDay(days, d) == Some(d in days)
  {
    assert FirstOf(Month(d)) <= end;
  }

  /** Range and day agree on every date of a covered range exactly when no line in it has a month that
      does not exist: `is_trading_day` reads such a line, and no month of a range reaches it. */
  lemma RangeAgreesWithDays(days: set<int>, start: nat, end: nat)
    requires RealDate(end) && Covered(days, end)
    ensures (forall d: nat :: start <= d <= end ==>
               (InRange(days, start, end, d) <==> IsTradingDay(days, d) == Some(true)))
       <==> (forall d: nat :: start <= d <= end && d in days ==> RealMonth(d / 100))
  {
    forall d: nat | start <= d <= end ensures IsTradingDay(days, d) == Some(d in days) {
      DayAnswerBefore(days, end, d);
    }
    if d: nat :| start <= d <= end && d in days && !RealMonth(d / 100) {
      assert !InRange(days, start, end, d);
    }
  }

  /** A line of a thirteenth month is a trading day, and in no range. */
  lemma ThirteenthMonthDisagrees()
    ensures var days, line, end := {2026_13_00, 2027_01_04}, 2026_13_00, 2027_01_04;
            && Lines(days) && RealDate(end) && Covered(days, end)
            && IsTradingDay(days, line) == Some(true)
            && forall start: nat :: !InRange(days, start, end, line)
  {
    var days: set<int> := {2026_13_00, 2027_01_04};
    assert 2027_01_04 in days && 2026_13_00 in days;
    assert CoverageEnd(days) == Some(2027_01_04);
    DayAnswerBefore(days, 2027_01_04, 2026_13_00);
  }

  // ---- a month ---------------------------------------------------------------------------

  function DaysBefore(year: nat, month: nat): nat {
    if month <= 1 then 0 else DaysBefore(year, month - 1) + DaysIn(year, month - 1)
  }

  /** Monday is 0. */
  function Weekday(d: Day): nat
    requires d.year >= 1
  {
    (Ordinal(d) + 6) % 7
  }

  /** 1 January of year 1 is 1. */
  function Ordinal(d: Day): nat
    requires d.year >= 1
  {
    YearDays(d.year) + DaysBefore(d.year, d.month) + d.day
  }

  /** The days of all years before. */
  function YearDays(year: nat): nat
    requires year >= 1
  {
    var y := year - 1;
    365 * y + y / 4 - y / 100 + y / 400
  }

  predicate IsWeekday(date: nat) {
    RealDate(date) && Weekday(Parse(date)) < 5
  }

  function NextDay(d: Day): Day {
    if d.day < DaysIn(d.year, d.month) then d.(day := d.day + 1)
    else if d.month < 12 then Day(d.year, d.month + 1, 1)
    else Day(d.year + 1, 1, 1)
  }

  lemma DivStep(y: nat, k: nat)
    requires y >= 1 && k > 0
    ensures y / k == (y - 1) / k + (if y % k == 0 then 1 else 0)
  {
    var q, r := y / k, y % k;
    assert y == q * k + r;
    if r == 0 {
      QuotientIs(y - 1, k, q - 1);
    } else {
      QuotientIs(y - 1, k, q);
    }
  }

  lemma LeapYears(y: nat)
    ensures (if y % 4 == 0 then 1 else 0) - (if y % 100 == 0 then 1 else 0) + (if y % 400 == 0 then 1 else 0)
         == if Leap(y) then 1 else 0
  {
    Divides(y, 100, 4);
    Divides(y, 4, 25);
  }

  lemma Divides(y: nat, k: nat, m: nat)
    requires k > 0 && m > 0 && k * m > 0
    ensures y % (k * m) == 0 ==> y % k == 0
  {
    if y % (k * m) == 0 {
      var q := y / (k * m);
      assert y == q * (k * m) == (q * m) * k;
      QuotientIs(y, k, q * m);
    }
  }

  lemma NextYear(y: nat)
    requires y >= 1
    ensures YearDays(y + 1) == YearDays(y) + DaysBefore(y, 12) + 31
  {
    DivStep(y, 4);
    DivStep(y, 100);
    DivStep(y, 400);
    LeapYears(y);
    DecemberFirst(y);
  }

  lemma DecemberFirst(y: nat)
    ensures DaysBefore(y, 12) == if Leap(y) then 335 else 334
  {
    assert DaysBefore(y, 1) == 0;
    assert DaysBefore(y, 2) == 31;
    assert DaysBefore(y, 3) == 31 + DaysIn(y, 2);
    assert DaysBefore(y, 5) == 92 + DaysIn(y, 2);
    assert DaysBefore(y, 7) == 153 + DaysIn(y, 2);
    assert DaysBefore(y, 9) == 215 + DaysIn(y, 2);
    assert DaysBefore(y, 11) == 276 + DaysIn(y, 2);
  }

  lemma OrdinalFollows(d: Day)
    requires d.Real()
    ensures Ordinal(NextDay(d)) == Ordinal(d) + 1
  {
    if d.day == DaysIn(d.year, d.month) && d.month == 12 {
      NextYear(d.year);
    }
  }

  /** The day after has the weekday after, across months and leap years. */
  lemma WeekdaysFollow(d: Day)
    requires d.Real()
    ensures Weekday(NextDay(d)) == (Weekday(d) + 1) % 7
  {
    OrdinalFollows(d);
    ModStep(Ordinal(d) + 6);
  }

  lemma ModStep(x: nat)
    ensures (x + 1) % 7 == (x % 7 + 1) % 7
  {
  }

  /** And no real date lies between. */
  lemma NothingBetween(d: Day, n: nat)
    requires d.Real() && d != Day(9999, 12, 31)
    ensures NextDay(d).Real() && d.Number() < NextDay(d).Number()
    ensures RealDate(n) && d.Number() < n ==> NextDay(d).Number() <= n
  {
    ParseNumbers(n);
    if RealDate(n) && d.Number() < n { NextIsFirstAfter(d, Parse(n)); }
  }

  /** Numbers order dates as dates are ordered. */
  lemma NumbersOrder(d: Day, e: Day)
    requires d.month <= 12 && d.day <= 31 && e.month <= 12 && e.day <= 31
    ensures d.Number() < e.Number() <==>
              d.year < e.year || (d.year == e.year && (d.month < e.month || (d.month == e.month && d.day < e.day)))
  {
  }

  lemma NextIsFirstAfter(d: Day, e: Day)
    requires d.Real() && e.Real() && d.Number() < e.Number()
    ensures NextDay(d).Number() <= e.Number()
  {
    NumbersOrder(d, e);
    NumbersOrder(e, NextDay(d));
  }

  method WeekdaysInRange(start: nat, end: nat) returns (r: Result<seq<int>, Error>)
    ensures r == Err(BadDate) <==> !RealDate(start) || !RealDate(end) || (start <= end && end == 9999_1231)
    ensures r == Err(EndBeforeStart) <==> RealDate(start) && RealDate(end) && end < start
    ensures r.Err? ==> !r.error.NoAnswer?
    ensures r.Ok? ==> Ascending(r.value) && forall d: int :: d in r.value <==> start <= d <= end && IsWeekday(d)
  {
    if !RealDate(start) || !RealDate(end) {
      return Err(BadDate);
    }
    if end < start {
      return Err(EndBeforeStart);
    }
    r := WeekdaysBetween(start, end);
  }

  method WeekdaysBetween(start: nat, end: nat) returns (r: Result<seq<int>, Error>)
    requires RealDate(start) && RealDate(end) && start <= end
    ensures r == Err(BadDate) <==> end == 9999_1231
    ensures r.Err? ==> r.error == BadDate
    ensures r.Ok? ==> Ascending(r.value) && forall d: int :: d in r.value <==> start <= d <= end && IsWeekday(d)
  {
    ParseNumbers(start);
    ParseNumbers(end);
    NumberIsSmall(Parse(end));
    r := WeekdaysFrom(Parse(start), end);
  }

  lemma NumberIsSmall(d: Day)
    requires d.Real()
    ensures d.Number() <= 9999_1231
  {
  }

  /** Its loop, from the first day on. */
  method WeekdaysFrom(first: Day, end: nat) returns (r: Result<seq<int>, Error>)
    requires first.Real() && first.Number() <= end <= 9999_1231
    ensures r.Err? <==> end == 9999_1231
    ensures r.Err? ==> r.error == BadDate
    ensures r.Ok? ==> WeekdaysUpTo(r.value, first.Number(), end, end + 1)
  {
    var out: seq<int>, cur := [], first;
    while cur.Number() <= end
      invariant cur.Real() && first.Number() <= cur.Number() && WeekdaysUpTo(out, first.Number(), end, cur.Number())
      decreases end - cur.Number()
    {
      WeekdaysOneMore(out, first.Number(), end, cur);
      if Weekday(cur) < 5 {
        out := out + [cur.Number()];
      }
      if cur == Day(9999, 12, 31) {
        // the day after does not exist
        return Err(BadDate);
      }
      cur := NextDay(cur);
    }
    return Ok(out);
  }

  ghost predicate WeekdaysUpTo(out: seq<int>, start: nat, end: nat, limit: nat) {
    Ascending(out) && forall d: int :: d in out <==> start <= d <= end && d < limit && IsWeekday(d)
  }

  lemma WeekdaysOneMore(out: seq<int>, start: nat, end: nat, cur: Day)
    requires cur.Real() && start <= cur.Number() <= end && WeekdaysUpTo(out, start, end, cur.Number())
    ensures cur != Day(9999, 12, 31) ==>
              NextDay(cur).Real() && cur.Number() < NextDay(cur).Number()
              && WeekdaysUpTo(if Weekday(cur) < 5 then out + [cur.Number()] else out, start, end, NextDay(cur).Number())
    ensures cur == Day(9999, 12, 31) ==> end >= 9999_1231
  {
    NumberParses(cur);
    assert IsWeekday(cur.Number()) <==> Weekday(cur) < 5;
    if cur != Day(9999, 12, 31) {
      NothingBetween(cur, 0);
      forall n: nat | IsWeekday(n) && cur.Number() < n ensures NextDay(cur).Number() <= n {
        NothingBetween(cur, n);
      }
      UpToGrows(out, start, end, cur.Number(), NextDay(cur).Number());
    }
  }

  lemma UpToGrows(out: seq<int>, start: nat, end: nat, cur: nat, next: nat)
    requires start <= cur <= end && cur < next && WeekdaysUpTo(out, start, end, cur)
    requires forall n: nat :: IsWeekday(n) && cur < n ==> next <= n
    ensures WeekdaysUpTo(if IsWeekday(cur) then out + [cur] else out, start, end, next)
  {
    AscendingSnoc(out, cur);
    var grown := if IsWeekday(cur) then out + [cur] else out;
    forall d: int ensures d in grown <==> start <= d <= end && d < next && IsWeekday(d) {
      if d >= 0 && IsWeekday(d) && cur < d { assert next <= d; }
    }
  }

  function Weekdays(month: nat): set<int> {
    set d | month * 100 < d <= month * 100 + 31 && IsWeekday(d)
  }

  lemma DayOfMonthParses(month: nat, day: nat)
    requires day < 100
    ensures Parse(month * 100 + day) == Day(month / 100, month % 100, day)
  {
    NumberParses(Day(month / 100, month % 100, day));
  }

  method AllWeekdaysInMonth(month: nat) returns (out: set<int>)
    requires RealMonth(month) && 1 <= month / 100 <= 9999
    ensures out == Weekdays(month)
  {
    out := {};
    var last := DaysIn(month / 100, month % 100);
    for day := 1 to last + 1
      invariant forall d: int :: d in out <==> month * 100 < d < month * 100 + day && IsWeekday(d)
    {
      var d := month * 100 + day;
      DayOfMonthParses(month, day);
      if Weekday(Parse(d)) < 5 {
        out := out + {d};
      }
    }
    forall d: int ensures d in out <==> d in Weekdays(month) {
      if d in Weekdays(month) {
        DayOfMonthParses(month, d - month * 100);
      }
    }
  }

  predicate Late(guessed: set<int>, today: nat) {
    exists d :: d in guessed && d < today
  }

  /** The month map's days: the listed ones, and every weekday after the coverage; with the reason, if
      a day that should be known by now is not. */
  function Effective(days: set<int>, month: nat, today: nat): (set<int>, Option<Reason>) {
    if days == {} then (Weekdays(month), Some(Unavailable))
    else
      var guessed := set d | d in Weekdays(month) && !Covered(days, d);
      (TradingDaysFor(days, month).GetOr({}) + guessed, if Late(guessed, today) then Some(Stale) else None)
  }

  /** It is exact up to the coverage, agreeing with the day's own answer, and every weekday after; the
      reason is given exactly when the source is empty or a past weekday is not covered. */
  lemma MonthIsExactUpToCoverage(days: set<int>, month: nat, today: nat, d: nat)
    requires RealMonth(month) && Month(d) == month && RealDate(d)
    ensures Covered(days, d) ==> (d in Effective(days, month, today).0 <==> IsTradingDay(days, d) == Some(true))
    ensures !Covered(days, d) ==>
              (d in Effective(days, month, today).0 <==> IsWeekday(d)) && IsTradingDay(days, d) == None
    ensures Effective(days, month, today).1 == Some(Unavailable) <==> days == {}
    ensures Effective(days, month, today).1 == Some(Stale) <==>
              days != {} && exists e :: e in Weekdays(month) && !Covered(days, e) && e < today
  {
    DayAnswer(days, d);
    assert d == month * 100 + d % 100 && 1 <= d % 100 <= 31;
    assert d in Weekdays(month) <==> IsWeekday(d);
    var guessed := set e | e in Weekdays(month) && !Covered(days, e);
    if e :| e in Weekdays(month) && !Covered(days, e) && e < today {
      assert e in guessed;
      assert Late(guessed, today);
    }
  }

  // ---- the session that is on ------------------------------------------------------------

  const RECHECK_S := 60.0

  datatype Memory = Memory(confirmed: set<int>, lastMiss: map<int, real>)

  function Verdict(m: Memory, days: set<int>, today: nat, now: real): (Memory, Option<bool>) {
    if today in m.confirmed then (m, Some(true))
    else if !Covered(days, today) then (m, None)
    else if today in m.lastMiss && now - m.lastMiss[today] < RECHECK_S then (m, Some(false))
    else
      match TradingDaysFor(days, Month(today))
      case None => (m, None)
      case Some(month) =>
        if today in month then (m.(confirmed := m.confirmed + {today}), Some(true))
        else (m.(lastMiss := m.lastMiss[today := now]), Some(false))
  }

  class SessionGate {
    var confirmed: set<int>
    var lastMiss: map<int, real>

    function State(): Memory reads this {
      Memory(confirmed, lastMiss)
    }

    constructor ()
      ensures State() == Memory({}, map[])
    {
      confirmed, lastMiss := {}, map[];
    }

    method IsTradingSessionToday(days: set<int>, today: nat, now: real) returns (r: Option<bool>)
      modifies this
      ensures (State(), r) == Verdict(old(State()), days, today, now)
    {
      if today in confirmed {
        return Some(true);
      }
      if !Covered(days, today) {
        return None;
      }
      if today in lastMiss && now - lastMiss[today] < RECHECK_S {
        return Some(false);
      }
      var month := TradingDaysFor(days, Month(today));
      if month.None? {
        return None;
      }
      if today in month.value {
        confirmed := confirmed + {today};
        return Some(true);
      }
      lastMiss := lastMiss[today := now];
      return Some(false);
    }
  }

  /** One question to the gate: the calendar as it then was, the date, and the time. */
  datatype Question = Question(days: set<int>, today: nat, now: real)

  function After(asked: seq<Question>): Memory {
    if asked == [] then Memory({}, map[])
    else
      var q := asked[|asked| - 1];
      Verdict(After(asked[..|asked| - 1]), q.days, q.today, q.now).0
  }

  function Answer(asked: seq<Question>, n: nat): Option<bool>
    requires n < |asked|
  {
    Verdict(After(asked[..n]), asked[n].days, asked[n].today, asked[n].now).1
  }

  /** The calendar was asked and covers the date, but does not list it. */
  predicate Miss(q: Question, date: nat) {
    q.today == date && Covered(q.days, date) && date !in q.days
  }

  predicate Hit(q: Question, date: nat) {
    q.today == date && date in q.days
  }

  lemma {:induction false} MemoryIsHonest(asked: seq<Question>, n: nat, date: nat)
    requires n <= |asked|
    ensures date in After(asked[..n]).confirmed ==> exists k :: 0 <= k < n && Hit(asked[k], date)
    ensures date in After(asked[..n]).lastMiss ==>
              exists k :: 0 <= k < n && Miss(asked[k], date) && asked[k].now == After(asked[..n]).lastMiss[date]
  {
    if n > 0 {
      assert asked[..n][..n - 1] == asked[..n - 1];
      MemoryIsHonest(asked, n - 1, date);
      var before, q := After(asked[..n - 1]), asked[n - 1];
      assert After(asked[..n]) == Verdict(before, q.days, q.today, q.now).0;
      if date in After(asked[..n]).confirmed && date !in before.confirmed { assert Hit(asked[n - 1], date); }
      var after := After(asked[..n]);
      if date in after.lastMiss && (date !in before.lastMiss || before.lastMiss[date] != after.lastMiss[date]) {
        assert Miss(asked[n - 1], date);
      }
    }
  }

  /** Over any questions, whatever the calendar does in between: a False verdict comes from a covered
      miss now or less than 60 seconds earlier, a True one from a calendar that listed the day, and
      None is given only for a date beyond the coverage. */
  lemma VerdictsHaveReasons(asked: seq<Question>, n: nat)
    requires n < |asked| && asked[n].today % 100 >= 1
    ensures Answer(asked, n) == Some(false) ==>
              exists k :: 0 <= k <= n && Miss(asked[k], asked[n].today)
                          && (k == n || asked[n].now - asked[k].now < RECHECK_S)
    ensures Answer(asked, n) == Some(true) ==> exists k :: 0 <= k <= n && Hit(asked[k], asked[n].today)
    ensures Answer(asked, n) == None ==> !Covered(asked[n].days, asked[n].today)
  {
    var q := asked[n];
    MemoryIsHonest(asked, n, q.today);
    assert FirstOf(Month(q.today)) <= q.today;
    if Answer(asked, n) == Some(false) && !Miss(q, q.today) {
      var k :| 0 <= k < n && Miss(asked[k], q.today) && asked[k].now == After(asked[..n]).lastMiss[q.today];
    }
    if Answer(asked, n) == Some(true) && !Hit(q, q.today) {
      var k :| 0 <= k < n && Hit(asked[k], q.today);
    }
  }
}
