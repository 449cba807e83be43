/** Market breadth: one vote per stock and moving average. Prices and scores are exact. */
module Breadth {
  import opened Wrappers
  import opened Ordering
  import opened Sums

  const PERIODS: seq<nat> := [20, 60, 120]

  datatype Error = BadPrice | BadSessions | TooFewSessions | BadUniverse | BadStates

  // ---- two ways to the same signal -------------------------------------------------------

  predicate Priced(prices: seq<Option<real>>) {
    forall i :: 0 <= i < |prices| && prices[i].Some? ==> prices[i].value > 0.0
  }

  predicate Complete(prices: seq<Option<real>>) {
    forall i :: 0 <= i < |prices| ==> prices[i].Some?
  }

  function Values(prices: seq<Option<real>>): (r: seq<real>)
    ensures |r| == |prices|
  {
    seq(|prices|, i requires 0 <= i < |prices| => prices[i].GetOr(0.0))
  }

  function Missing(prices: seq<Option<real>>): nat {
    if prices == [] then 0
    else Missing(prices[..|prices| - 1]) + (if prices[|prices| - 1].None? then 1 else 0)
  }

  lemma {:induction false} MissingIsIncomplete(prices: seq<Option<real>>)
    ensures Missing(prices) == 0 <==> Complete(prices)
  {
    if prices != [] { MissingIsIncomplete(prices[..|prices| - 1]); }
  }

  lemma {:induction false} MissingAppend(xs: seq<Option<real>>, ys: seq<Option<real>>)
    ensures Missing(xs + ys) == Missing(xs) + Missing(ys)
  {
    if ys == [] {
      assert xs + ys == xs;
    } else {
      assert (xs + ys)[..|xs + ys| - 1] == xs + ys[..|ys| - 1];
      MissingAppend(xs, ys[..|ys| - 1]);
    }
  }

  /** The last `p` prices up to and with `i`. */
  function Last(prices: seq<Option<real>>, i: nat, p: nat): (w: seq<Option<real>>)
    requires i < |prices| && p <= i + 1
    ensures |w| == p
  {
    prices[i + 1 - p..i + 1]
  }

  function Average(window: seq<Option<real>>): real
    requires window != []
  {
    Sum(Values(window)) / |window| as real
  }

  predicate Above(prices: seq<Option<real>>, i: nat, p: nat)
    requires i < |prices| && 0 < p <= i + 1 && prices[i].Some?
  {
    prices[i].value > Average(Last(prices, i, p))
  }

  /** The flags at one session, stated directly: nothing while any of the last 120 prices is missing,
      and otherwise whether the close is strictly above each average. */
  function FlagsAt(prices: seq<Option<real>>, i: nat): Option<seq<bool>>
    requires i < |prices|
  {
    if i < 119 || !Complete(Last(prices, i, 120)) then None
    else
      assert prices[i] == Last(prices, i, 120)[119];
      Some([Above(prices, i, 20), Above(prices, i, 60), Above(prices, i, 120)])
  }

  predicate IsPrefixSums(sums: seq<real>, missing: seq<nat>, prices: seq<Option<real>>, n: nat)
    requires n <= |prices|
  {
    && |sums| == |missing| == n + 1
    && forall k :: 0 <= k <= n ==> sums[k] == Sum(Values(prices[..k])) && missing[k] == Missing(prices[..k])
  }

  method PrefixSums(prices: seq<Option<real>>) returns (r: Result<(seq<real>, seq<nat>), Error>)
    ensures r.Ok? <==> Priced(prices)
    ensures r.Err? ==> r.error == BadPrice
    ensures r.Ok? ==> IsPrefixSums(r.value.0, r.value.1, prices, |prices|)
  {
    var sums, missing: seq<nat> := [0.0], [0];
    for i := 0 to |prices|
      invariant Priced(prices[..i]) && IsPrefixSums(sums, missing, prices, i)
    {
      var price := prices[i];
      if price.Some? && price.value <= 0.0 {
        return Err(BadPrice);
      }
      OneMorePrice(prices, i);
      sums := sums + [sums[i] + price.GetOr(0.0)];
      missing := missing + [missing[i] + (if price.None? then 1 else 0)];
    }
    assert prices[..|prices|] == prices;
    return Ok((sums, missing));
  }

  lemma OneMorePrice(prices: seq<Option<real>>, i: nat)
    requires i < |prices|
    ensures Sum(Values(prices[..i + 1])) == Sum(Values(prices[..i])) + prices[i].GetOr(0.0)
    ensures Missing(prices[..i + 1]) == Missing(prices[..i]) + (if prices[i].None? then 1 else 0)
  {
    assert prices[..i + 1][..i] == prices[..i];
    assert Values(prices[..i + 1])[..i] == Values(prices[..i]);
  }

  lemma WindowSums(sums: seq<real>, missing: seq<nat>, prices: seq<Option<real>>, i: nat, p: nat)
    requires IsPrefixSums(sums, missing, prices, |prices|) && i < |prices| && p <= i + 1
    ensures sums[i + 1] - sums[i + 1 - p] == Sum(Values(Last(prices, i, p)))
    ensures missing[i + 1] == missing[i + 1 - p] <==> Complete(Last(prices, i, p))
  {
    var before, window := prices[..i + 1 - p], Last(prices, i, p);
    assert before + window == prices[..i + 1];
    assert Values(before) + Values(window) == Values(prices[..i + 1]);
    SumAppend(Values(before), Values(window));
    MissingAppend(before, window);
    MissingIsIncomplete(window);
  }

  /** `close * p > sum of the last p` is `close > average`. */
  lemma TimesPeriod(close: real, sum: real, p: nat)
    requires p > 0
    ensures close * p as real > sum <==> close > sum / p as real
  {
    var q, a := p as real, sum / p as real;
    assert a * q == sum;
    if close > a { assert (close - a) * q > 0.0; }
    if close * q > sum { assert (close - a) * q > 0.0; }
  }

  method RollingFlags(prices: seq<Option<real>>) returns (r: Result<seq<Option<seq<bool>>>, Error>)
    ensures r.Ok? <==> Priced(prices)
    ensures r.Ok? ==> |r.value| == |prices| && forall i :: 0 <= i < |prices| ==> r.value[i] == FlagsAt(prices, i)
  {
    var parsed := PrefixSums(prices);
    if parsed.Err? {
      return Err(parsed.error);
    }
    var (sums, missing) := parsed.value;
    var result := [];
    for i := 0 to |prices|
      invariant |result| == i && forall k :: 0 <= k < i ==> result[k] == FlagsAt(prices, k)
    {
      var flags := FlagsHere(prices, sums, missing, i);
      result := result + [flags];
    }
    return Ok(result);
  }

  method FlagsHere(prices: seq<Option<real>>, sums: seq<real>, missing: seq<nat>, i: nat)
    returns (flags: Option<seq<bool>>)
    requires IsPrefixSums(sums, missing, prices, |prices|) && i < |prices|
    ensures flags == FlagsAt(prices, i)
  {
    if i < 119 {
      return None;
    }
    WindowSums(sums, missing, prices, i, 120);
    if missing[i + 1] != missing[i + 1 - 120] {
      return None;
    }
    assert prices[i] == Last(prices, i, 120)[119];
    var value, votes := prices[i].value, [];
    for k := 0 to 3
      invariant |votes| == k && forall m :: 0 <= m < k ==> votes[m] == Above(prices, i, PERIODS[m])
    {
      var p := PERIODS[k];
      WindowSums(sums, missing, prices, i, p);
      TimesPeriod(value, Sum(Values(Last(prices, i, p))), p);
      votes := votes + [value * p as real > sums[i + 1] - sums[i + 1 - p]];
    }
    assert votes == [votes[0], votes[1], votes[2]];
    return Some(votes);
  }

  datatype State = IsAbove | IsEqual | IsBelow | Unavailable

  datatype Signal = Signal(close: Option<real>, average: Option<real>, state: State, missing: seq<int>)

  /** The days of a calendar a history has no price for. */
  function Gaps(history: map<int, real>, days: seq<int>): seq<int> {
    if days == [] then []
    else Gaps(history, days[..|days| - 1]) + (if days[|days| - 1] in history then [] else [days[|days| - 1]])
  }

  function Aligned(history: map<int, real>, days: seq<int>): (r: seq<Option<real>>)
    ensures |r| == |days|
  {
    seq(|days|, i requires 0 <= i < |days| => Lookup(history, days[i]))
  }

  function SignalOf(history: map<int, real>, sessions: seq<int>, period: nat): Signal
    requires 0 < period <= |sessions|
  {
    var required, close := sessions[|sessions| - period..], Lookup(history, sessions[|sessions| - 1]);
    var missing := Gaps(history, required);
    if missing != [] then Signal(close, None, Unavailable, missing)
    else
      var average := Sum(Values(Aligned(history, required))) / period as real;
      var here := close.GetOr(0.0);
      Signal(close, Some(average), if here > average then IsAbove else if here < average then IsBelow else IsEqual, [])
  }

  /** Three signals for each stock, on an explicit calendar. */
  method StockSignals(histories: map<int, map<int, real>>, sessions: seq<int>)
    returns (r: Result<map<int, seq<Signal>>, Error>)
    ensures r.Err? && r.error == BadSessions <==> sessions == [] || !Ascending(sessions)
    ensures r.Err? && r.error == TooFewSessions <==> sessions != [] && Ascending(sessions) && |sessions| < 120
    ensures r.Ok? <==> Ascending(sessions) && |sessions| >= 120
                       && forall code :: code in histories ==> Priced(Aligned(histories[code], sessions))
    ensures r.Ok? ==> IsSignals(histories, sessions, histories.Keys, r.value)
  {
    if sessions == [] || !Ascending(sessions) {
      return Err(BadSessions);
    }
    if |sessions| < 120 {
      return Err(TooFewSessions);
    }
    var result, todo := map[], histories.Keys;
    while todo != {}
      invariant todo <= histories.Keys && IsSignals(histories, sessions, histories.Keys - todo, result)
      invariant forall code :: code in histories && code !in todo ==> Priced(Aligned(histories[code], sessions))
      decreases todo
    {
      Inhabited(todo);
      var code :| code in todo;
      if !Priced(Aligned(histories[code], sessions)) {
        return Err(BadPrice);
      }
      var signals := ThreeSignals(histories[code], sessions);
      result := result[code := signals];
      todo := todo - {code};
    }
    assert histories.Keys - todo == histories.Keys;
    return Ok(result);
  }

  predicate IsSignals(histories: map<int, map<int, real>>, sessions: seq<int>, codes: set<int>,
                      result: map<int, seq<Signal>>)
    requires codes <= histories.Keys && |sessions| >= 120
  {
    && result.Keys == codes
    && forall code :: code in codes ==> AreSignals(histories[code], sessions, result[code])
  }

  predicate AreSignals(history: map<int, real>, sessions: seq<int>, signals: seq<Signal>)
    requires |sessions| >= 120
  {
    |signals| == 3 && forall k :: 0 <= k < 3 ==> signals[k] == SignalOf(history, sessions, PERIODS[k])
  }

  method ThreeSignals(history: map<int, real>, sessions: seq<int>) returns (signals: seq<Signal>)
    requires |sessions| >= 120
    ensures AreSignals(history, sessions, signals)
  {
    signals := [];
    for k := 0 to 3
      invariant |signals| == k && forall m :: 0 <= m < k ==> signals[m] == SignalOf(history, sessions, PERIODS[m])
    {
      signals := signals + [SignalOf(history, sessions, PERIODS[k])];
    }
  }

  lemma {:induction false} GapsAreIncomplete(history: map<int, real>, days: seq<int>)
    ensures Gaps(history, days) == [] <==> Complete(Aligned(history, days))
  {
    if days != [] {
      var n := |days| - 1;
      GapsAreIncomplete(history, days[..n]);
      assert forall i :: 0 <= i < n ==> Aligned(history, days[..n])[i] == Aligned(history, days)[i];
      assert Aligned(history, days)[n] == Lookup(history, days[n]);
    }
  }

  /** At every session the rolling flags and the signals of the calendar up to it agree: no flags
      exactly when the longest average is unavailable, and otherwise a flag exactly where the signal
      is above. */
  lemma FlagsAreSignals(history: map<int, real>, sessions: seq<int>, i: nat, k: nat)
    requires 119 <= i < |sessions| && k < 3
    ensures var flags := FlagsAt(Aligned(history, sessions), i);
            var signal := SignalOf(history, sessions[..i + 1], PERIODS[k]);
            && (flags.None? <==> SignalOf(history, sessions[..i + 1], 120).state == Unavailable)
            && (flags.Some? ==> |flags.value| == 3 && (flags.value[k] <==> signal.state == IsAbove))
  {
    var prices, upTo := Aligned(history, sessions), sessions[..i + 1];
    AlignedWindow(history, sessions, i, 120);
    GapsAreIncomplete(history, upTo[i + 1 - 120..]);
    if FlagsAt(prices, i).Some? {
      var p := PERIODS[k];
      AlignedWindow(history, sessions, i, p);
      assert Complete(Last(prices, i, p)) by {
        assert forall m :: 0 <= m < p ==> Last(prices, i, p)[m] == Last(prices, i, 120)[120 - p + m];
      }
      GapsAreIncomplete(history, upTo[i + 1 - p..]);
      assert prices[i] == Last(prices, i, p)[p - 1];
    }
  }

  lemma AlignedWindow(history: map<int, real>, sessions: seq<int>, i: nat, p: nat)
    requires i < |sessions| && p <= i + 1
    ensures Aligned(history, sessions[..i + 1][i + 1 - p..]) == Last(Aligned(history, sessions), i, p)
  {
  }

  // ---- how long a score has been rising --------------------------------------------------

  const SCORE_TOLERANCE := 0.0000001

  datatype Persistence = Persistence(streak: Option<nat>, atLeast: bool, up5: Option<nat>)

  predicate Known(scores: seq<Option<real>>, i: int) {
    0 <= i < |scores| && scores[i].Some?
  }

  /** The step to `i` is known and a strict increase. */
  predicate Rises(scores: seq<Option<real>>, i: int) {
    Known(scores, i) && Known(scores, i - 1) && scores[i].value - scores[i - 1].value > SCORE_TOLERANCE
  }

  /** The last `k` steps all rise. */
  predicate RisesFor(scores: seq<Option<real>>, k: nat) {
    forall i :: |scores| - k <= i < |scores| ==> Rises(scores, i)
  }

  function RisesAmong(scores: seq<Option<real>>, from: nat, to: nat): nat
    requires from <= to
  {
    if from == to then 0 else RisesAmong(scores, from, to - 1) + (if Rises(scores, to - 1) then 1 else 0)
  }

  predicate LastKnown(scores: seq<Option<real>>, n: nat) {
    |scores| >= n && forall i :: |scores| - n <= i < |scores| ==> Known(scores, i)
  }

  predicate InRange(scores: seq<Option<real>>) {
    forall i :: 0 <= i < |scores| && scores[i].Some? ==> 0.0 <= scores[i].value <= 100.0
  }

  /** The streak is the number of steps at the end that rise; it is a lower bound exactly when the
      step before it is not known, because a score is missing or there is none. */
  method Persists(scores: seq<Option<real>>) returns (r: Result<Persistence, Error>)
    ensures r.Err? <==> !InRange(scores)
    ensures r.Ok? ==> (r.value.streak.Some? <==> Known(scores, |scores| - 1) && Known(scores, |scores| - 2))
    ensures r.Ok? && r.value.streak.Some? ==>
              var k := r.value.streak.value;
              && k < |scores| && RisesFor(scores, k) && !Rises(scores, |scores| - k - 1)
              && (r.value.atLeast <==> !(Known(scores, |scores| - k - 1) && Known(scores, |scores| - k - 2)))
    ensures r.Ok? && r.value.streak.None? ==> !r.value.atLeast
    ensures r.Ok? ==>
              r.value.up5 == if LastKnown(scores, 6) then Some(RisesAmong(scores, |scores| - 5, |scores|)) else None
  {
    if !InRange(scores) {
      return Err(BadStates);
    }
    var streak, censored := None, false;
    if |scores| >= 2 && scores[|scores| - 1].Some? && scores[|scores| - 2].Some? {
      var k, i := 0, |scores| - 1;
      censored := true;
      while i > 0
        invariant 0 <= i && k + i == |scores| - 1 && RisesFor(scores, k) && censored
      {
        if scores[i].None? || scores[i - 1].None? {
          break;
        }
        if scores[i].value - scores[i - 1].value <= SCORE_TOLERANCE {
          censored := false;
          break;
        }
        k, i := k + 1, i - 1;
      }
      streak := Some(k);
    }
    var up5 := None;
    if LastKnown(scores, 6) {
      var ups := 0;
      for i := |scores| - 5 to |scores|
        invariant ups == RisesAmong(scores, |scores| - 5, i)
      {
        assert Known(scores, i) && Known(scores, i - 1);
        if scores[i].value - scores[i - 1].value > SCORE_TOLERANCE {
          ups := ups + 1;
        }
      }
      up5 := Some(ups);
    }
    return Ok(Persistence(streak, censored, up5));
  }

  /** Five rises out of the last five is a streak of at least five. */
  lemma FiveUpIsAStreak(scores: seq<Option<real>>)
    requires |scores| >= 5
    ensures RisesAmong(scores, |scores| - 5, |scores|) == 5 <==> RisesFor(scores, 5)
  {
    RisesCounted(scores, |scores| - 5, |scores|);
  }

  lemma {:induction false} RisesCounted(scores: seq<Option<real>>, from: nat, to: nat)
    requires from <= to
    ensures RisesAmong(scores, from, to) <= to - from
    ensures RisesAmong(scores, from, to) == to - from <==> forall i :: from <= i < to ==> Rises(scores, i)
  {
    if from < to { RisesCounted(scores, from, to - 1); }
  }

  // ---- what changed between two days -----------------------------------------------------

  function Vote(b: bool): int {
    if b then 1 else 0
  }

  datatype Pair = Pair(code: int, was: seq<bool>, now: seq<bool>)

  predicate Three(p: Pair) {
    |p.was| == 3 && |p.now| == 3
  }

  function Votes(flags: seq<bool>): int
    requires |flags| == 3
  {
    Vote(flags[0]) + Vote(flags[1]) + Vote(flags[2])
  }

  function Change(p: Pair, k: nat): int
    requires Three(p) && k < 3
  {
    Vote(p.now[k]) - Vote(p.was[k])
  }

  function Delta(p: Pair): int
    requires Three(p)
  {
    Change(p, 0) + Change(p, 1) + Change(p, 2)
  }

  predicate AllThree(pairs: seq<Pair>) {
    forall i :: 0 <= i < |pairs| ==> Three(pairs[i])
  }

  /** The running totals of the loop over the stocks. */
  datatype Tally = Tally(improved: nat, declined: nat, same: nat, cancelling: nat,
                         entries: seq<nat>, exits: seq<nat>, votesBefore: int, votesNow: int)

  const NO_TALLY := Tally(0, 0, 0, 0, [0, 0, 0], [0, 0, 0], 0, 0)

  function Count3(counts: seq<nat>, p: Pair, sign: int): seq<nat>
    requires |counts| == 3 && Three(p)
  {
    seq(3, k requires 0 <= k < 3 => counts[k] + (if Change(p, k) * sign > 0 then 1 else 0))
  }

  function Counted(t: Tally, p: Pair): Tally
    requires Three(p) && |t.entries| == |t.exits| == 3
  {
    var d := Delta(p);
    Tally(t.improved + Vote(d > 0), t.declined + Vote(d < 0), t.same + Vote(d == 0),
          t.cancelling + Vote(d == 0 && p.was != p.now),
          Count3(t.entries, p, 1), Count3(t.exits, p, -1), t.votesBefore + Votes(p.was), t.votesNow + Votes(p.now))
  }

  function Net(t: Tally, k: nat): int
    requires k < 3 && |t.entries| == |t.exits| == 3
  {
    t.entries[k] as int - t.exits[k] as int
  }

  function TallyOf(pairs: seq<Pair>): (t: Tally)
    requires AllThree(pairs)
    ensures |t.entries| == |t.exits| == 3
  {
    if pairs == [] then NO_TALLY else Counted(TallyOf(pairs[..|pairs| - 1]), pairs[|pairs| - 1])
  }

  function Gains(pairs: seq<Pair>, sign: int): int
    requires AllThree(pairs)
  {
    if pairs == [] then 0
    else
      var d := Delta(pairs[|pairs| - 1]);
      Gains(pairs[..|pairs| - 1], sign) + (if d * sign > 0 then d else 0)
  }

  function Deltas(pairs: seq<Pair>): int
    requires AllThree(pairs)
  {
    if pairs == [] then 0 else Deltas(pairs[..|pairs| - 1]) + Delta(pairs[|pairs| - 1])
  }

  /** Along the stocks, along the periods and by sign, the same total; and every stock is exactly one
      of improved, declined and unchanged. */
  lemma {:induction false} TalliesAddUp(pairs: seq<Pair>)
    requires AllThree(pairs)
    ensures var t := TallyOf(pairs);
            && Deltas(pairs) == t.votesNow - t.votesBefore
            && Net(t, 0) + Net(t, 1) + Net(t, 2) == t.votesNow - t.votesBefore
            && Gains(pairs, 1) + Gains(pairs, -1) == t.votesNow - t.votesBefore
            && t.improved + t.declined + t.same == |pairs| && t.cancelling <= t.same
            && 0 <= t.votesBefore <= 3 * |pairs| && 0 <= t.votesNow <= 3 * |pairs|
  {
    if pairs != [] {
      var init, p := pairs[..|pairs| - 1], pairs[|pairs| - 1];
      TalliesAddUp(init);
      CountedOnce(TallyOf(init), p);
    }
  }

  lemma CountedOnce(t: Tally, p: Pair)
    requires Three(p) && |t.entries| == |t.exits| == 3
    ensures var u := Counted(t, p);
            && Net(u, 0) + Net(u, 1) + Net(u, 2) == Net(t, 0) + Net(t, 1) + Net(t, 2) + Delta(p)
            && u.votesNow - u.votesBefore == t.votesNow - t.votesBefore + Delta(p)
            && u.improved + u.declined + u.same == t.improved + t.declined + t.same + 1
            && u.cancelling - t.cancelling <= u.same - t.same
            && t.votesBefore <= u.votesBefore <= t.votesBefore + 3 && t.votesNow <= u.votesNow <= t.votesNow + 3
  {
    forall k | 0 <= k < 3 ensures Net(Counted(t, p), k) == Net(t, k) + Change(p, k) {}
  }

  datatype StockChange = StockChange(code: int, before: int, now: int, changes: seq<int>, contribution: real)

  datatype PeriodChange = PeriodChange(period: nat, entry: nat, exit: nat, net: int, contribution: real)

  datatype Changes = Changes(
    population: nat, improved: nat, declined: nat, same: nat, cancelling: nat,
    beforeScore: real, score: real, change: real, positive: real, negative: real,
    periods: seq<PeriodChange>, stocks: seq<StockChange>
  )

  function Unit(population: nat): real
    requires population > 0
  {
    100.0 / (population * 3) as real
  }

  function Worth(n: int, unit: real): real {
    n as real * unit
  }

  function StockOf(p: Pair, unit: real): StockChange
    requires Three(p)
  {
    StockChange(p.code, Votes(p.was), Votes(p.now), [Change(p, 0), Change(p, 1), Change(p, 2)], Worth(Delta(p), unit))
  }

  function PeriodOf(t: Tally, k: nat, unit: real): PeriodChange
    requires k < 3 && |t.entries| == |t.exits| == 3
  {
    PeriodChange(PERIODS[k], t.entries[k], t.exits[k], Net(t, k), Worth(Net(t, k), unit))
  }

  function StocksOf(pairs: seq<Pair>, unit: real): seq<StockChange>
    requires AllThree(pairs)
  {
    seq(|pairs|, i requires 0 <= i < |pairs| => StockOf(pairs[i], unit))
  }

  function ReportFrom(population: nat, t: Tally, up: int, down: int, rows: seq<StockChange>, unit: real): Changes
    requires |t.entries| == |t.exits| == 3
  {
    Changes(population, t.improved, t.declined, t.same, t.cancelling,
            Worth(t.votesBefore, unit), Worth(t.votesNow, unit), Worth(t.votesNow - t.votesBefore, unit),
            Worth(up, unit), Worth(down, unit),
            [PeriodOf(t, 0, unit), PeriodOf(t, 1, unit), PeriodOf(t, 2, unit)], rows)
  }

  function Report(pairs: seq<Pair>): Changes
    requires AllThree(pairs) && pairs != []
  {
    var unit := Unit(|pairs|);
    ReportFrom(|pairs|, TallyOf(pairs), Gains(pairs, 1), Gains(pairs, -1), StocksOf(pairs, unit), unit)
  }

  type Flags = map<int, Option<seq<bool>>>

  predicate AllKnown(m: Flags) {
    forall c :: c in m ==> m[c].Some?
  }

  function Pairs(before: Flags, now: Flags): (r: seq<Pair>)
    requires before.Keys == now.Keys && AllKnown(before) && AllKnown(now)
    ensures |r| == |now|
  {
    var codes := Sorted(now.Keys);
    seq(|codes|, i requires 0 <= i < |codes| =>
      assert codes[i] in codes;
      Pair(codes[i], before[codes[i]].value, now[codes[i]].value))
  }

  method EndpointChanges(before: Flags, now: Flags) returns (r: Result<Option<Changes>, Error>)
    ensures r == Err(BadUniverse) <==> before == map[] || before.Keys != now.Keys
    ensures before != map[] && before.Keys == now.Keys ==>
              (r == Ok(None) <==> !(AllKnown(before) && AllKnown(now)))
    ensures before != map[] && before.Keys == now.Keys && AllKnown(before) && AllKnown(now) ==>
              r == if AllThree(Pairs(before, now)) then Ok(Some(Report(Pairs(before, now)))) else Err(BadStates)
  {
    if before == map[] || before.Keys != now.Keys {
      return Err(BadUniverse);
    }
    if !AllKnown(before) || !AllKnown(now) {
      return Ok(None);
    }
    assert |before.Keys| > 0;
    var report := ReportOf(Pairs(before, now));
    return if report.Ok? then Ok(Some(report.value)) else Err(report.error);
  }

  method ReportOf(pairs: seq<Pair>) returns (r: Result<Changes, Error>)
    requires pairs != []
    ensures r == if AllThree(pairs) then Ok(Report(pairs)) else Err(BadStates)
  {
    var unit := Unit(|pairs|);
    var t, up, down, rows := NO_TALLY, 0, 0, [];
    for i := 0 to |pairs|
      invariant AllThree(pairs[..i]) && t == TallyOf(pairs[..i]) && rows == StocksOf(pairs[..i], unit)
      invariant up == Gains(pairs[..i], 1) && down == Gains(pairs[..i], -1)
    {
      if |pairs[i].was| != 3 || |pairs[i].now| != 3 {
        return Err(BadStates);
      }
      OneMorePair(pairs, i, unit);
      var d := Delta(pairs[i]);
      t := Counted(t, pairs[i]);
      up, down := up + (if d > 0 then d else 0), down + (if d < 0 then d else 0);
      rows := rows + [StockOf(pairs[i], unit)];
    }
    assert pairs[..|pairs|] == pairs;
    return Ok(ReportFrom(|pairs|, t, up, down, rows, unit));
  }

  lemma OneMorePair(pairs: seq<Pair>, i: nat, unit: real)
    requires i < |pairs| && AllThree(pairs[..i + 1])
    ensures AllThree(pairs[..i]) && TallyOf(pairs[..i + 1]) == Counted(TallyOf(pairs[..i]), pairs[i])
    ensures StocksOf(pairs[..i + 1], unit) == StocksOf(pairs[..i], unit) + [StockOf(pairs[i], unit)]
    ensures Gains(pairs[..i + 1], 1) == Gains(pairs[..i], 1) + (if Delta(pairs[i]) > 0 then Delta(pairs[i]) else 0)
    ensures Gains(pairs[..i + 1], -1) == Gains(pairs[..i], -1) + (if Delta(pairs[i]) < 0 then Delta(pairs[i]) else 0)
  {
    assert pairs[..i + 1][..i] == pairs[..i];
  }

  // ---- exact attribution -----------------------------------------------------------------

  function StockTotal(stocks: seq<StockChange>): real {
    if stocks == [] then 0.0 else StockTotal(stocks[..|stocks| - 1]) + stocks[|stocks| - 1].contribution
  }

  lemma TimesAdds(m: int, n: int, unit: real)
    ensures Worth(m, unit) + Worth(n, unit) == Worth(m + n, unit)
  {
  }

  lemma {:induction false} StockTotalIs(pairs: seq<Pair>, unit: real)
    requires AllThree(pairs)
    ensures StockTotal(StocksOf(pairs, unit)) == Worth(Deltas(pairs), unit)
  {
    if pairs != [] {
      var init, p := pairs[..|pairs| - 1], pairs[|pairs| - 1];
      StockTotalIs(init, unit);
      assert StocksOf(pairs, unit)[..|pairs| - 1] == StocksOf(init, unit);
      TimesAdds(Deltas(init), Delta(p), unit);
    }
  }

  /** The change in the score is accounted for exactly: stock by stock, average by average, as gains
      and losses, and as the difference of the two scores; and the population divides into improved,
      declined and unchanged. */
  lemma AttributionIsExact(pairs: seq<Pair>)
    requires AllThree(pairs) && pairs != []
    ensures var c := Report(pairs);
            && StockTotal(c.stocks) == c.change
            && c.periods[0].contribution + c.periods[1].contribution + c.periods[2].contribution == c.change
            && c.positive + c.negative == c.change
            && c.score - c.beforeScore == c.change
            && c.improved + c.declined + c.same == c.population
  {
    var t, unit := TallyOf(pairs), Unit(|pairs|);
    TalliesAddUp(pairs);
    StockTotalIs(pairs, unit);
    PeriodsAdd(Net(t, 0), Net(t, 1), Net(t, 2), unit);
    TimesAdds(Gains(pairs, 1), Gains(pairs, -1), unit);
    TimesAdds(t.votesNow - t.votesBefore, t.votesBefore, unit);
  }

  lemma PeriodsAdd(a: int, b: int, c: int, unit: real)
    ensures Worth(a, unit) + Worth(b, unit) + Worth(c, unit) == Worth(a + b + c, unit)
  {
    TimesAdds(a, b, unit);
    TimesAdds(a + b, c, unit);
  }

  // ---- the same score, aggregated --------------------------------------------------------

  datatype PeriodBreadth = PeriodBreadth(total: nat, above: nat, equal: nat, below: nat, unavailable: nat) {
    function AbovePct(): Option<real>
      requires total > 0
    {
      if unavailable > 0 then None else Some((above * 100) as real / total as real)
    }
  }

  function Score(periods: seq<PeriodBreadth>): Option<real>
    requires |periods| == 3 && forall k :: 0 <= k < 3 ==> periods[k].total > 0
  {
    var a, b, c := periods[0].AbovePct(), periods[1].AbovePct(), periods[2].AbovePct();
    if a.None? || b.None? || c.None? then None else Some((a.value + b.value + c.value) / 3.0)
  }

  predicate HasStates(states: map<int, seq<State>>, codes: seq<int>) {
    forall i :: 0 <= i < |codes| ==> codes[i] in states && |states[codes[i]]| == 3
  }

  predicate NoneTwice(codes: seq<int>) {
    forall i, j :: 0 <= i < j < |codes| ==> codes[i] != codes[j]
  }

  function StateCount(codes: seq<int>, states: map<int, seq<State>>, k: nat, state: State): nat
    requires HasStates(states, codes) && k < 3
  {
    if codes == [] then 0
    else StateCount(codes[..|codes| - 1], states, k, state) + (if states[codes[|codes| - 1]][k] == state then 1 else 0)
  }

  function PeriodBreadthOf(codes: seq<int>, states: map<int, seq<State>>, k: nat): PeriodBreadth
    requires HasStates(states, codes) && k < 3
  {
    PeriodBreadth(|codes|, StateCount(codes, states, k, IsAbove), StateCount(codes, states, k, IsEqual),
                  StateCount(codes, states, k, IsBelow), StateCount(codes, states, k, Unavailable))
  }

  method AggregateCodes(codes: seq<int>, states: map<int, seq<State>>) returns (r: Result<seq<PeriodBreadth>, Error>)
    requires forall c :: c in states ==> |states[c]| == 3
    ensures r.Ok? <==> codes != [] && NoneTwice(codes) && HasStates(states, codes)
    ensures r.Ok? ==>
              r.value == [PeriodBreadthOf(codes, states, 0), PeriodBreadthOf(codes, states, 1),
                          PeriodBreadthOf(codes, states, 2)]
  {
    if codes == [] || !NoneTwice(codes) || !HasStates(states, codes) {
      return Err(BadUniverse);
    }
    var periods := [];
    for k := 0 to 3
      invariant |periods| == k && forall m :: 0 <= m < k ==> periods[m] == PeriodBreadthOf(codes, states, m)
    {
      var counts := CountStates(codes, states, k);
      periods := periods + [counts];
    }
    assert periods == [periods[0], periods[1], periods[2]];
    return Ok(periods);
  }

  method CountStates(codes: seq<int>, states: map<int, seq<State>>, k: nat) returns (r: PeriodBreadth)
    requires HasStates(states, codes) && k < 3
    ensures r == PeriodBreadthOf(codes, states, k)
  {
    r := PeriodBreadth(|codes|, 0, 0, 0, 0);
    for i := 0 to |codes|
      invariant r == PeriodBreadthOf(codes[..i], states, k).(total := |codes|)
    {
      assert codes[..i + 1][..i] == codes[..i];
      match states[codes[i]][k] {
        case IsAbove => r := r.(above := r.above + 1);
        case IsEqual => r := r.(equal := r.equal + 1);
        case IsBelow => r := r.(below := r.below + 1);
        case Unavailable => r := r.(unavailable := r.unavailable + 1);
      }
    }
    assert codes[..|codes|] == codes;
  }

  /** The flags are the stocks' states, all of them available. */
  predicate Votes3(pairs: seq<Pair>, codes: seq<int>, states: map<int, seq<State>>)
    requires HasStates(states, codes)
  {
    && |pairs| == |codes| && AllThree(pairs)
    && forall i, k :: 0 <= i < |codes| && 0 <= k < 3 ==>
         states[codes[i]][k] != Unavailable && (pairs[i].now[k] <==> states[codes[i]][k] == IsAbove)
  }

  lemma {:induction false} VotesAreCounts(pairs: seq<Pair>, codes: seq<int>, states: map<int, seq<State>>)
    requires HasStates(states, codes) && Votes3(pairs, codes, states)
    ensures TallyOf(pairs).votesNow
         == (StateCount(codes, states, 0, IsAbove) + StateCount(codes, states, 1, IsAbove)
             + StateCount(codes, states, 2, IsAbove))
    ensures forall k :: 0 <= k < 3 ==> StateCount(codes, states, k, Unavailable) == 0
  {
    if pairs != [] {
      VotesAreCounts(pairs[..|pairs| - 1], codes[..|codes| - 1], states);
    }
  }

  /** For the same flags the two modules give the same score. */
  lemma ScoresAgree(pairs: seq<Pair>, codes: seq<int>, states: map<int, seq<State>>)
    requires HasStates(states, codes) && Votes3(pairs, codes, states) && pairs != []
    ensures Score([PeriodBreadthOf(codes, states, 0), PeriodBreadthOf(codes, states, 1),
                   PeriodBreadthOf(codes, states, 2)])
         == Some(Report(pairs).score)
  {
    VotesAreCounts(pairs, codes, states);
    Average3(StateCount(codes, states, 0, IsAbove), StateCount(codes, states, 1, IsAbove),
             StateCount(codes, states, 2, IsAbove), |codes|);
  }

  lemma Average3(a: nat, b: nat, c: nat, n: nat)
    requires n > 0
    ensures ((a * 100) as real / n as real + (b * 100) as real / n as real + (c * 100) as real / n as real) / 3.0
         == Worth(a + b + c, Unit(n))
  {
    var q := n as real;
    assert (a * 100) as real / q + (b * 100) as real / q + (c * 100) as real / q == ((a + b + c) * 100) as real / q;
    assert (((a + b + c) * 100) as real / q) / 3.0 == ((a + b + c) * 100) as real / (q * 3.0);
    assert (a + b + c) as real * (100.0 / (q * 3.0)) == ((a + b + c) as real * 100.0) / (q * 3.0);
  }
}
