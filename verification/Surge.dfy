/** The surge detector: a value that comes back near the running peak after a dip is marked, and
    the mark follows new highs until the next dip. Over exact reals. */
module Surge {
  import opened Wrappers

  datatype Marker = Marker(at: nat, prevPeak: real, value: real)

  datatype Rule = Rule(approach: real, rearm: real)

  // ---- the loop, as a fold ---------------------------------------------------------------

  datatype State = State(out: seq<Marker>, running: real, armed: bool, active: int)

  const START := State([], 0.0, false, -1)

  predicate WellFormed(s: State) {
    -1 <= s.active < |s.out|
  }

  function Max(x: real, y: real): real {
    if x < y then y else x
  }

  /** How a value stands to the running peak: near it, a dip from it, above it. */
  datatype Flag = Flag(near: bool, dip: bool, high: bool)

  function Advance(s: State, i: nat, v: real, flag: Flag): State
    requires WellFormed(s)
  {
    var armed, active := s.armed || flag.dip, if flag.dip then -1 else s.active;
    if armed && flag.near then
      State(s.out + [Marker(i, s.running, v)], Max(s.running, v), false, |s.out|)
    else if active >= 0 && flag.high then
      State(s.out[active := Marker(i, s.out[active].prevPeak, v)], Max(s.running, v), armed, active)
    else
      State(s.out, Max(s.running, v), armed, active)
  }

  predicate IsDip(rule: Rule, peak: real, v: real) {
    peak > 0.0 && v < rule.rearm * peak
  }

  predicate IsNear(rule: Rule, peak: real, v: real) {
    peak > 0.0 && v >= rule.approach * peak
  }

  predicate IsHigh(peak: real, v: real) {
    peak > 0.0 && v > peak
  }

  function FlagAt(rule: Rule, peak: real, v: real): Flag {
    Flag(IsNear(rule, peak, v), IsDip(rule, peak, v), IsHigh(peak, v))
  }

  function Step(rule: Rule, s: State, i: nat, v: real): State
    requires WellFormed(s)
  {
    Advance(s, i, v, FlagAt(rule, s.running, v))
  }

  function Scan(rule: Rule, vals: seq<real>): (s: State)
    ensures WellFormed(s)
  {
    if vals == [] then START
    else Step(rule, Scan(rule, vals[..|vals| - 1]), |vals| - 1, vals[|vals| - 1])
  }

  lemma ScanSnoc(rule: Rule, vals: seq<real>, i: nat)
    requires i < |vals|
    ensures Scan(rule, vals[..i + 1]) == Step(rule, Scan(rule, vals[..i]), i, vals[i])
  {
    assert vals[..i + 1][..i] == vals[..i];
  }

  method DetectSurge(vals: seq<real>, rule: Rule) returns (out: seq<Marker>)
    ensures out == Scan(rule, vals).out
  {
    out := [];
    var running, armed, active := 0.0, false, -1;
    for i := 0 to |vals|
      invariant State(out, running, armed, active) == Scan(rule, vals[..i])
    {
      ScanSnoc(rule, vals, i);
      out, running, armed, active := Turn(rule, out, running, armed, active, i, vals[i]);
    }
    assert vals[..|vals|] == vals;
  }

  /** One turn of the loop. */
  method Turn(rule: Rule, out0: seq<Marker>, running0: real, armed0: bool, active0: int, i: nat, v: real)
    returns (out: seq<Marker>, running: real, armed: bool, active: int)
    requires -1 <= active0 < |out0|
    ensures State(out, running, armed, active) == Step(rule, State(out0, running0, armed0, active0), i, v)
  {
    out, running, armed, active := out0, running0, armed0, active0;
    if running > 0.0 {
      if v < rule.rearm * running {
        armed, active := true, -1;
      }
      if armed && v >= rule.approach * running {
        out := out + [Marker(i, running, v)];
        active, armed := |out| - 1, false;
      } else if active >= 0 && v > running {
        out := out[active := Marker(i, out[active].prevPeak, v)];
      }
    }
    running := Max(running, v);
  }

  // ---- what a mark is, without the loop --------------------------------------------------

  /** The largest of the values before `i`, and of 0. */
  function Peak(vals: seq<real>, i: nat): real
    requires i <= |vals|
  {
    if i == 0 then 0.0 else Max(Peak(vals, i - 1), vals[i - 1])
  }

  lemma {:induction false} PeakIsLargest(vals: seq<real>, i: nat)
    requires i <= |vals|
    ensures Peak(vals, i) >= 0.0 && forall k :: 0 <= k < i ==> vals[k] <= Peak(vals, i)
    ensures Peak(vals, i) == 0.0 || exists k :: 0 <= k < i && vals[k] == Peak(vals, i)
  {
    if i > 0 { PeakIsLargest(vals, i - 1); }
  }

  predicate Dip(rule: Rule, vals: seq<real>, i: nat)
    requires i < |vals|
  {
    IsDip(rule, Peak(vals, i), vals[i])
  }

  predicate Near(rule: Rule, vals: seq<real>, i: nat)
    requires i < |vals|
  {
    IsNear(rule, Peak(vals, i), vals[i])
  }

  /** Back near the peak, for the first time since some dip. */
  predicate Fires(rule: Rule, vals: seq<real>, i: nat)
    requires i < |vals|
    decreases i
  {
    Near(rule, vals, i) && Armed(rule, vals, i)
  }

  predicate Armed(rule: Rule, vals: seq<real>, i: nat)
    requires i < |vals|
    decreases i, 0
  {
    exists d :: 0 <= d <= i && Dip(rule, vals, d) && forall f :: d <= f < i ==> !Fires(rule, vals, f)
  }

  predicate NoDip(rule: Rule, vals: seq<real>, from: nat, to: nat)
    requires to <= |vals|
  {
    forall d :: from <= d < to ==> !Dip(rule, vals, d)
  }

  /** A new high that a mark set at `f` moves to. */
  predicate Follows(rule: Rule, vals: seq<real>, f: nat, h: nat)
    requires f < h < |vals|
  {
    vals[h] > Peak(vals, h) && NoDip(rule, vals, f + 1, h + 1)
  }

  /** Where the mark set at `f` stands after the first `n` values. */
  function Final(rule: Rule, vals: seq<real>, f: nat, n: nat): (h: nat)
    requires f < n <= |vals|
    ensures f <= h < n
  {
    if n == f + 1 then f
    else if Follows(rule, vals, f, n - 1) then n - 1
    else Final(rule, vals, f, n - 1)
  }

  /** It is the last new high that the mark could follow, or `f` itself. */
  lemma {:induction false} FinalIsLast(rule: Rule, vals: seq<real>, f: nat, n: nat)
    requires f < n <= |vals|
    ensures Final(rule, vals, f, n) > f ==> Follows(rule, vals, f, Final(rule, vals, f, n))
    ensures forall k :: Final(rule, vals, f, n) < k < n ==> !Follows(rule, vals, f, k)
  {
    if n > f + 1 { FinalIsLast(rule, vals, f, n - 1); }
  }

  function Firings(rule: Rule, vals: seq<real>, n: nat): seq<nat>
    requires n <= |vals|
  {
    if n == 0 then []
    else Firings(rule, vals, n - 1) + (if Fires(rule, vals, n - 1) then [n - 1] else [])
  }

  /** They are all of them, in order. */
  lemma {:induction false} FiringsListed(rule: Rule, vals: seq<real>, n: nat)
    requires n <= |vals|
    ensures forall k :: 0 <= k < |Firings(rule, vals, n)| ==>
              Firings(rule, vals, n)[k] < n && Fires(rule, vals, Firings(rule, vals, n)[k])
    ensures forall i: nat :: i < n && Fires(rule, vals, i) ==> i in Firings(rule, vals, n)
    ensures forall i, j :: 0 <= i < j < |Firings(rule, vals, n)| ==>
              Firings(rule, vals, n)[i] < Firings(rule, vals, n)[j]
  {
    if n > 0 { FiringsListed(rule, vals, n - 1); }
  }

  function MarkerOf(rule: Rule, vals: seq<real>, f: nat, n: nat): Marker
    requires f < n <= |vals|
  {
    var h := Final(rule, vals, f, n);
    Marker(h, Peak(vals, f), vals[h])
  }

  lemma {:induction false} PeakGrows(vals: seq<real>, i: nat, j: nat)
    requires i <= j <= |vals|
    ensures Peak(vals, i) <= Peak(vals, j)
  {
    if i < j { PeakGrows(vals, i, j - 1); }
  }

  /** Between two firings there was a dip, and nothing follows a mark across it. */
  lemma DipBetween(rule: Rule, vals: seq<real>, f: nat, g: nat)
    requires f < g < |vals| && Fires(rule, vals, f) && Armed(rule, vals, g)
    ensures !NoDip(rule, vals, f + 1, g + 1)
  {
    var d :| 0 <= d <= g && Dip(rule, vals, d) && forall f :: d <= f < g ==> !Fires(rule, vals, f);
    assert f < d;
  }

  /** A dip before `n` that no firing has answered. */
  predicate Waiting(rule: Rule, vals: seq<real>, n: nat)
    requires n <= |vals|
  {
    exists d :: 0 <= d < n && Dip(rule, vals, d) && forall f :: d <= f < n ==> !Fires(rule, vals, f)
  }

  lemma WaitingSteps(rule: Rule, vals: seq<real>, n: nat)
    requires n < |vals|
    ensures Armed(rule, vals, n) <==> Waiting(rule, vals, n) || Dip(rule, vals, n)
    ensures Waiting(rule, vals, n + 1) <==> Armed(rule, vals, n) && !Fires(rule, vals, n)
  {
    if Waiting(rule, vals, n) {
      var d :| 0 <= d < n && Dip(rule, vals, d) && forall f :: d <= f < n ==> !Fires(rule, vals, f);
      assert Armed(rule, vals, n);
    }
    if Armed(rule, vals, n) && !Fires(rule, vals, n) {
      var d :| 0 <= d <= n && Dip(rule, vals, d) && forall f :: d <= f < n ==> !Fires(rule, vals, f);
      assert forall f :: d <= f < n + 1 ==> !Fires(rule, vals, f);
    }
  }

  ghost predicate Marked(rule: Rule, vals: seq<real>, n: nat, out: seq<Marker>)
    requires n <= |vals|
  {
    var fs := Firings(rule, vals, n);
    && |out| == |fs|
    && forall k :: 0 <= k < |fs| ==> fs[k] < n && out[k] == MarkerOf(rule, vals, fs[k], n)
  }

  /** Whether the last mark still follows new highs. */
  predicate Following(rule: Rule, vals: seq<real>, n: nat)
    requires n <= |vals|
  {
    var fs := Firings(rule, vals, n);
    fs != [] && NoDip(rule, vals, fs[|fs| - 1] + 1, n)
  }

  ghost predicate Explained(rule: Rule, vals: seq<real>, n: nat, s: State)
    requires n <= |vals|
  {
    && s.running == Peak(vals, n)
    && (s.armed <==> Waiting(rule, vals, n))
    && Marked(rule, vals, n, s.out)
    && s.active == (if Following(rule, vals, n) then |s.out| - 1 else -1)
  }

  lemma FiringStep(rule: Rule, vals: seq<real>, n: nat, out: seq<Marker>)
    requires n < |vals| && Fires(rule, vals, n) && Marked(rule, vals, n, out)
    ensures Marked(rule, vals, n + 1, out + [Marker(n, Peak(vals, n), vals[n])])
    ensures Following(rule, vals, n + 1)
  {
    var fs := Firings(rule, vals, n);
    FiringsListed(rule, vals, n);
    forall k | 0 <= k < |fs| ensures MarkerOf(rule, vals, fs[k], n + 1) == out[k] {
      DipBetween(rule, vals, fs[k], n);
    }
  }

  lemma QuietStep(rule: Rule, vals: seq<real>, n: nat, out: seq<Marker>, next: seq<Marker>)
    requires n < |vals| && !Fires(rule, vals, n) && Marked(rule, vals, n, out)
    requires next ==
             if Following(rule, vals, n) && !Dip(rule, vals, n) && vals[n] > Peak(vals, n)
             then out[|out| - 1 := Marker(n, out[|out| - 1].prevPeak, vals[n])] else out
    ensures Marked(rule, vals, n + 1, next)
    ensures Following(rule, vals, n + 1) <==> Following(rule, vals, n) && !Dip(rule, vals, n)
  {
    var fs := Firings(rule, vals, n);
    assert Firings(rule, vals, n + 1) == fs;
    forall k | 0 <= k < |fs| ensures next[k] == MarkerOf(rule, vals, fs[k], n + 1) {
      QuietMark(rule, vals, n, out, next, k);
    }
  }

  lemma FollowsNow(rule: Rule, vals: seq<real>, n: nat, f: nat)
    requires f < n < |vals|
    ensures Follows(rule, vals, f, n) <==>
              NoDip(rule, vals, f + 1, n) && !Dip(rule, vals, n) && vals[n] > Peak(vals, n)
  {
  }

  lemma MarkMoves(rule: Rule, vals: seq<real>, n: nat, f: nat)
    requires f < n < |vals|
    ensures var mark := MarkerOf(rule, vals, f, n);
            MarkerOf(rule, vals, f, n + 1)
            == if NoDip(rule, vals, f + 1, n) && !Dip(rule, vals, n) && vals[n] > Peak(vals, n)
               then Marker(n, mark.prevPeak, vals[n]) else mark
  {
    FollowsNow(rule, vals, n, f);
  }

  lemma EarlierMark(rule: Rule, vals: seq<real>, n: nat, k: nat)
    requires n < |vals| && k < |Firings(rule, vals, n)| - 1
    ensures var f := Firings(rule, vals, n)[k];
            f < n && MarkerOf(rule, vals, f, n + 1) == MarkerOf(rule, vals, f, n)
  {
    DipAfterEarlier(rule, vals, n, k);
    MarkMoves(rule, vals, n, Firings(rule, vals, n)[k]);
  }

  lemma QuietMark(rule: Rule, vals: seq<real>, n: nat, out: seq<Marker>, next: seq<Marker>, k: nat)
    requires n < |vals| && Marked(rule, vals, n, out) && k < |Firings(rule, vals, n)|
    requires next ==
             if Following(rule, vals, n) && !Dip(rule, vals, n) && vals[n] > Peak(vals, n)
             then out[|out| - 1 := Marker(n, out[|out| - 1].prevPeak, vals[n])] else out
    ensures Firings(rule, vals, n)[k] < n && next[k] == MarkerOf(rule, vals, Firings(rule, vals, n)[k], n + 1)
  {
    var fs := Firings(rule, vals, n);
    if k < |fs| - 1 {
      EarlierMark(rule, vals, n, k);
    } else {
      assert fs[k] < n;
      MarkMoves(rule, vals, n, fs[k]);
    }
  }

  lemma DipAfterEarlier(rule: Rule, vals: seq<real>, n: nat, k: nat)
    requires n <= |vals| && k < |Firings(rule, vals, n)| - 1
    ensures Firings(rule, vals, n)[k] < n && !NoDip(rule, vals, Firings(rule, vals, n)[k] + 1, n)
  {
    var fs := Firings(rule, vals, n);
    FiringsListed(rule, vals, n);
    assert fs[k] < fs[|fs| - 1] < n;
    DipBetween(rule, vals, fs[k], fs[|fs| - 1]);
  }

  lemma StepExplained(rule: Rule, vals: seq<real>, i: nat, s: State)
    requires i < |vals| && WellFormed(s) && Explained(rule, vals, i, s)
    ensures Explained(rule, vals, i + 1, Step(rule, s, i, vals[i]))
  {
    WaitingSteps(rule, vals, i);
    var next := Advance(s, i, vals[i], Flag(Near(rule, vals, i), Dip(rule, vals, i), IsHigh(Peak(vals, i), vals[i])));
    if Fires(rule, vals, i) {
      FiringStep(rule, vals, i, s.out);
    } else {
      if Following(rule, vals, i) { FollowedPeakIsPositive(rule, vals, i); }
      QuietStep(rule, vals, i, s.out, next.out);
    }
  }

  lemma FollowedPeakIsPositive(rule: Rule, vals: seq<real>, n: nat)
    requires n <= |vals| && Following(rule, vals, n)
    ensures Peak(vals, n) > 0.0
  {
    FiringsListed(rule, vals, n);
    var fs := Firings(rule, vals, n);
    var f := fs[|fs| - 1];
    assert Near(rule, vals, f);
    PeakGrows(vals, f, n);
  }

  /** The loop's state after `n` values, read off the values. */
  lemma {:induction false} ScanExplained(rule: Rule, vals: seq<real>, n: nat)
    requires n <= |vals|
    ensures Explained(rule, vals, n, Scan(rule, vals[..n]))
  {
    if n == 0 {
      assert vals[..0] == [];
    } else {
      ScanExplained(rule, vals, n - 1);
      ScanSnoc(rule, vals, n - 1);
      StepExplained(rule, vals, n - 1, Scan(rule, vals[..n - 1]));
    }
  }

  // ---- what the marks promise ------------------------------------------------------------

  /** On every input there is one mark for each firing, in order; its index is the last new high
      before the next dip, and its recorded peak the true maximum of all values before the firing. */
  lemma MarksAreTheFirings(rule: Rule, vals: seq<real>, k: nat)
    requires k < |Scan(rule, vals).out|
    ensures var fs := Firings(rule, vals, |vals|);
            && |fs| == |Scan(rule, vals).out| && fs[k] < |vals| && Fires(rule, vals, fs[k])
            && Scan(rule, vals).out[k] == MarkerOf(rule, vals, fs[k], |vals|)
  {
    ScanExplained(rule, vals, |vals|);
    assert vals[..|vals|] == vals;
    FiringsListed(rule, vals, |vals|);
  }

  /** And its value is near that peak, at least `approach` times it. */
  lemma MarksAreNearThePeak(rule: Rule, vals: seq<real>, k: nat)
    requires k < |Scan(rule, vals).out|
    ensures IsNear(rule, Scan(rule, vals).out[k].prevPeak, Scan(rule, vals).out[k].value)
  {
    MarksAreTheFirings(rule, vals, k);
    var f := Firings(rule, vals, |vals|)[k];
    FinalIsAsHigh(rule, vals, f);
    assert Near(rule, vals, f);
    HigherIsNear(rule, Peak(vals, f), vals[f], Scan(rule, vals).out[k].value);
  }

  lemma HigherIsNear(rule: Rule, peak: real, v: real, higher: real)
    requires IsNear(rule, peak, v) && v <= higher
    ensures IsNear(rule, peak, higher)
  {
  }

  lemma FinalIsAsHigh(rule: Rule, vals: seq<real>, f: nat)
    requires f < |vals|
    ensures vals[Final(rule, vals, f, |vals|)] >= vals[f]
  {
    FinalIsLast(rule, vals, f, |vals|);
    PeakIsLargest(vals, Final(rule, vals, f, |vals|));
  }

  /** Marks strictly advance, and between two consecutive ones some value fell below `rearm` times
      the peak before it. */
  lemma MarksAreSeparatedByDips(rule: Rule, vals: seq<real>, k: nat)
    requires k + 1 < |Scan(rule, vals).out|
    ensures var out := Scan(rule, vals).out;
            && out[k].at < out[k + 1].at < |vals|
            && exists d :: out[k].at < d <= out[k + 1].at && Dip(rule, vals, d)
  {
    ScanExplained(rule, vals, |vals|);
    assert vals[..|vals|] == vals;
    FiringsListed(rule, vals, |vals|);
    var fs := Firings(rule, vals, |vals|);
    DipBetween(rule, vals, fs[k], fs[k + 1]);
    var d :| fs[k] + 1 <= d < fs[k + 1] + 1 && Dip(rule, vals, d);
    FinalIsLast(rule, vals, fs[k], |vals|);
    assert Final(rule, vals, fs[k], |vals|) < d;
  }

  lemma {:induction false} MarkIndicesIncrease(rule: Rule, vals: seq<real>, i: nat, j: nat)
    requires i < j < |Scan(rule, vals).out|
    ensures Scan(rule, vals).out[i].at < Scan(rule, vals).out[j].at
  {
    MarksAreSeparatedByDips(rule, vals, j - 1);
    if i < j - 1 { MarkIndicesIncrease(rule, vals, i, j - 1); }
  }

  // ---- marks from flags alone ------------------------------------------------------------

  datatype Marks = Marks(out: seq<nat>, armed: bool, active: int)

  function Mark(m: Marks, i: nat, flag: Flag): (r: Marks)
    requires -1 <= m.active < |m.out|
    ensures -1 <= r.active < |r.out|
  {
    var armed, active := m.armed || flag.dip, if flag.dip then -1 else m.active;
    if armed && flag.near then Marks(m.out + [i], false, |m.out|)
    else if active >= 0 && flag.high then Marks(m.out[active := i], armed, active)
    else Marks(m.out, armed, active)
  }

  function MarksOf(flags: seq<Flag>): (m: Marks)
    ensures -1 <= m.active < |m.out|
  {
    if flags == [] then Marks([], false, -1)
    else Mark(MarksOf(flags[..|flags| - 1]), |flags| - 1, flags[|flags| - 1])
  }

  lemma MarksSnoc(flags: seq<Flag>, i: nat)
    requires i < |flags|
    ensures MarksOf(flags[..i + 1]) == Mark(MarksOf(flags[..i]), i, flags[i])
  {
    assert flags[..i + 1][..i] == flags[..i];
  }

  function Flags(rule: Rule, vals: seq<real>): seq<Flag> {
    seq(|vals|, i requires 0 <= i < |vals| => FlagAt(rule, Peak(vals, i), vals[i]))
  }

  predicate SameMarks(s: State, m: Marks) {
    && |s.out| == |m.out| && s.armed == m.armed && s.active == m.active
    && forall k :: 0 <= k < |s.out| ==> s.out[k].at == m.out[k]
  }

  lemma AdvanceMarks(s: State, m: Marks, i: nat, v: real, flag: Flag)
    requires WellFormed(s) && SameMarks(s, m)
    ensures SameMarks(Advance(s, i, v, flag), Mark(m, i, flag))
  {
  }

  lemma {:induction false} ScanMarks(rule: Rule, vals: seq<real>, n: nat)
    requires n <= |vals|
    ensures SameMarks(Scan(rule, vals[..n]), MarksOf(Flags(rule, vals)[..n]))
    ensures Scan(rule, vals[..n]).running == Peak(vals, n)
  {
    if n == 0 {
      assert vals[..0] == [];
    } else {
      var i := n - 1;
      ScanMarks(rule, vals, i);
      ScanSnoc(rule, vals, i);
      MarksSnoc(Flags(rule, vals), i);
      AdvanceMarks(Scan(rule, vals[..i]), MarksOf(Flags(rule, vals)[..i]), i, vals[i], Flags(rule, vals)[i]);
    }
  }

  // ---- the rebased detector --------------------------------------------------------------

  datatype Error = UnequalLengths

  /** The running peak and the width it is measured in. */
  datatype Scale = Scale(running: real, wref: Option<real>)

  predicate Sound(c: Scale) {
    c.wref.Some? ==> c.wref.value > 0.0
  }

  function Abs(x: real): real {
    if x < 0.0 then -x else x
  }

  predicate OffBy(w: real, u: real, step: real)
    requires u > 0.0
  {
    Abs(w / u - 1.0) > step
  }

  /** The peak carried over to a width that differs by more than the step. */
  function Rebase(c: Scale, step: Option<real>, w: real): (r: Scale)
    requires Sound(c)
    ensures Sound(r)
  {
    if step.None? || w <= 0.0 then c
    else if c.wref.None? then c.(wref := Some(w))
    else if OffBy(w, c.wref.value, step.value) then Scale(c.running * (w / c.wref.value), Some(w))
    else c
  }

  /** After `n` values. */
  function Carried(step: Option<real>, vals: seq<real>, widths: seq<real>, n: nat): (c: Scale)
    requires n <= |vals| == |widths|
    ensures Sound(c)
  {
    if n == 0 then Scale(0.0, None)
    else
      var c := Rebase(Carried(step, vals, widths, n - 1), step, widths[n - 1]);
      c.(running := Max(c.running, vals[n - 1]))
  }

  /** The peak value `i` is compared with. */
  function RebasedPeak(step: Option<real>, vals: seq<real>, widths: seq<real>, i: nat): real
    requires i < |vals| == |widths|
  {
    Rebase(Carried(step, vals, widths, i), step, widths[i]).running
  }

  function RebasedFlags(rule: Rule, step: Option<real>, vals: seq<real>, widths: seq<real>): seq<Flag>
    requires |vals| == |widths|
  {
    seq(|vals|, i requires 0 <= i < |vals| => FlagAt(rule, RebasedPeak(step, vals, widths, i), vals[i]))
  }

  method DetectSurgeRebased(vals: seq<real>, widths: seq<real>, step: Option<real>, rule: Rule)
    returns (r: Result<seq<nat>, Error>)
    ensures r == if |vals| == |widths| then Ok(MarksOf(RebasedFlags(rule, step, vals, widths)).out)
                 else Err(UnequalLengths)
  {
    if |vals| != |widths| {
      return Err(UnequalLengths);
    }
    ghost var flags := RebasedFlags(rule, step, vals, widths);
    var out: seq<nat>, running, armed, active, wref := [], 0.0, false, -1, None;
    for i := 0 to |vals|
      invariant Scale(running, wref) == Carried(step, vals, widths, i)
      invariant Marks(out, armed, active) == MarksOf(flags[..i])
    {
      MarksSnoc(flags, i);
      running, wref := WidthTurn(step, running, wref, widths[i]);
      out, armed, active := IndexTurn(rule, out, running, armed, active, i, vals[i]);
      running := Max(running, vals[i]);
    }
    assert flags[..|vals|] == flags;
    return Ok(out);
  }

  /** One turn of its loop: first the width... */
  method WidthTurn(step: Option<real>, running0: real, wref0: Option<real>, w: real)
    returns (running: real, wref: Option<real>)
    requires Sound(Scale(running0, wref0))
    ensures Scale(running, wref) == Rebase(Scale(running0, wref0), step, w)
  {
    running, wref := running0, wref0;
    if step.Some? && w > 0.0 {
      if wref.None? {
        wref := Some(w);
      } else if OffBy(w, wref.value, step.value) {
        running, wref := running * (w / wref.value), Some(w);
      }
    }
  }

  /** ... then the value. */
  method IndexTurn(rule: Rule, out0: seq<nat>, running: real, armed0: bool, active0: int, i: nat, v: real)
    returns (out: seq<nat>, armed: bool, active: int)
    requires -1 <= active0 < |out0|
    ensures Marks(out, armed, active) == Mark(Marks(out0, armed0, active0), i, FlagAt(rule, running, v))
  {
    out, armed, active := out0, armed0, active0;
    if running > 0.0 {
      if v < rule.rearm * running {
        armed, active := true, -1;
      }
      if armed && v >= rule.approach * running {
        out := out + [i];
        active, armed := |out| - 1, false;
      } else if active >= 0 && v > running {
        out := out[active := i];
      }
    }
  }

  // ---- how the two relate ----------------------------------------------------------------

  /** The width everything is compared with: the first positive one. */
  function Reference(widths: seq<real>, n: nat): (r: Option<real>)
    requires n <= |widths|
    ensures r.Some? ==> r.value > 0.0
  {
    if n == 0 then None
    else if Reference(widths, n - 1).Some? then Reference(widths, n - 1)
    else if widths[n - 1] > 0.0 then Some(widths[n - 1]) else None
  }

  /** No positive width is off the first one by more than the step. */
  predicate Steady(widths: seq<real>, step: Option<real>) {
    step.Some? ==>
      forall i :: 0 <= i < |widths| && widths[i] > 0.0 && Reference(widths, i).Some? ==>
        !OffBy(widths[i], Reference(widths, i).value, step.value)
  }

  lemma {:induction false} SteadyPeak(step: Option<real>, vals: seq<real>, widths: seq<real>, n: nat)
    requires n <= |vals| == |widths| && Steady(widths, step)
    ensures Carried(step, vals, widths, n) == Scale(Peak(vals, n), if step.None? then None else Reference(widths, n))
  {
    if n > 0 { SteadyPeak(step, vals, widths, n - 1); }
  }

  /** Without a step, or while widths are steady, the rebased detector marks what the plain one does. */
  lemma SteadyWidthsChangeNothing(rule: Rule, step: Option<real>, vals: seq<real>, widths: seq<real>)
    requires |vals| == |widths| && Steady(widths, step)
    ensures SameMarks(Scan(rule, vals), MarksOf(RebasedFlags(rule, step, vals, widths)))
  {
    ScanMarks(rule, vals, |vals|);
    assert vals[..|vals|] == vals && Flags(rule, vals)[..|vals|] == Flags(rule, vals);
    forall i | 0 <= i < |vals| ensures Flags(rule, vals)[i] == RebasedFlags(rule, step, vals, widths)[i] {
      SteadyPeak(step, vals, widths, i);
    }
    assert Flags(rule, vals) == RebasedFlags(rule, step, vals, widths);
  }

  /** A density in units of a width. */
  function In(w: real, d: real): real {
    w * d
  }

  predicate IsDensity(density: seq<real>, vals: seq<real>, widths: seq<real>) {
    && |vals| == |widths| == |density|
    && forall i :: 0 <= i < |widths| ==> widths[i] > 0.0 && vals[i] == In(widths[i], density[i])
  }

  /** With step 0 the running peak is the density's, in the current width. */
  lemma {:induction false} DensityPeak(density: seq<real>, vals: seq<real>, widths: seq<real>, n: nat)
    requires IsDensity(density, vals, widths) && n <= |vals|
    ensures var c := Carried(Some(0.0), vals, widths, n);
            if n == 0 then c == Scale(0.0, None)
            else c == Scale(In(widths[n - 1], Peak(density, n)), Some(widths[n - 1]))
  {
    if n > 0 {
      var i := n - 1;
      DensityPeak(density, vals, widths, i);
      DensityBefore(density, vals, widths, i);
      ScaledMax(widths[i], Peak(density, i), density[i]);
    }
  }

  lemma DensityBefore(density: seq<real>, vals: seq<real>, widths: seq<real>, i: nat)
    requires IsDensity(density, vals, widths) && i < |vals|
    requires var c := Carried(Some(0.0), vals, widths, i);
             if i == 0 then c == Scale(0.0, None)
             else c == Scale(In(widths[i - 1], Peak(density, i)), Some(widths[i - 1]))
    ensures Rebase(Carried(Some(0.0), vals, widths, i), Some(0.0), widths[i])
         == Scale(In(widths[i], Peak(density, i)), Some(widths[i]))
  {
    if i > 0 { RebaseDensity(widths[i - 1], widths[i], Peak(density, i)); }
  }

  lemma RebaseDensity(u: real, w: real, p: real)
    requires u > 0.0 && w > 0.0
    ensures Rebase(Scale(In(u, p), Some(u)), Some(0.0), w) == Scale(In(w, p), Some(w))
  {
    Rebasing(u, w, p);
  }

  lemma Rebasing(u: real, w: real, p: real)
    requires u > 0.0 && w > 0.0
    ensures (u * p) * (w / u) == w * p
    ensures OffBy(w, u, 0.0) || w == u
  {
    assert u * (w / u) == w;
    assert (u * p) * (w / u) == (u * (w / u)) * p;
  }

  lemma ScaledOrder(w: real, x: real, y: real)
    requires w > 0.0
    ensures w * x < w * y <==> x < y
    ensures w * x == w * y <==> x == y
  {
    if x < y { assert w * (y - x) > 0.0; }
    if y < x { assert w * (x - y) > 0.0; }
  }

  lemma ScaledMax(w: real, x: real, y: real)
    requires w > 0.0
    ensures Max(In(w, x), In(w, y)) == In(w, Max(x, y))
  {
    ScaledOrder(w, x, y);
  }

  lemma ScaledFlag(rule: Rule, w: real, peak: real, d: real)
    requires w > 0.0
    ensures FlagAt(rule, In(w, peak), In(w, d)) == FlagAt(rule, peak, d)
  {
    ScaledOrder(w, 0.0, peak);
    ScaledOrder(w, peak, d);
    ScaledOrder(w, d, rule.approach * peak);
    ScaledOrder(w, d, rule.rearm * peak);
    assert rule.approach * (w * peak) == w * (rule.approach * peak);
    assert rule.rearm * (w * peak) == w * (rule.rearm * peak);
  }

  lemma DensityFlags(rule: Rule, density: seq<real>, vals: seq<real>, widths: seq<real>)
    requires IsDensity(density, vals, widths)
    ensures Flags(rule, density) == RebasedFlags(rule, Some(0.0), vals, widths)
  {
    forall i | 0 <= i < |vals| ensures Flags(rule, density)[i] == RebasedFlags(rule, Some(0.0), vals, widths)[i] {
      DensityPeak(density, vals, widths, i);
      DensityBefore(density, vals, widths, i);
      ScaledFlag(rule, widths[i], Peak(density, i), density[i]);
    }
  }

  /** With step 0 and positive widths, values that are a density times the width are marked where
      the plain detector marks the density. */
  lemma StepZeroSeesTheDensity(rule: Rule, density: seq<real>, vals: seq<real>, widths: seq<real>)
    requires IsDensity(density, vals, widths)
    ensures SameMarks(Scan(rule, density), MarksOf(RebasedFlags(rule, Some(0.0), vals, widths)))
  {
    ScanMarks(rule, density, |density|);
    assert density[..|density|] == density && Flags(rule, density)[..|density|] == Flags(rule, density);
    DensityFlags(rule, density, vals, widths);
  }

  /** So the plain detector does not see the unit of its values. */
  lemma UnitsDoNotMatter(rule: Rule, density: seq<real>, vals: seq<real>, unit: real)
    requires unit > 0.0 && IsDensity(density, vals, seq(|vals|, _ => unit))
    ensures |Scan(rule, vals).out| == |Scan(rule, density).out|
    ensures forall k :: 0 <= k < |Scan(rule, vals).out| ==> Scan(rule, vals).out[k].at == Scan(rule, density).out[k].at
  {
    var widths := seq(|vals|, _ => unit);
    EqualWidthsAreSteady(widths, unit);
    SteadyWidthsChangeNothing(rule, Some(0.0), vals, widths);
    StepZeroSeesTheDensity(rule, density, vals, widths);
  }

  lemma EqualWidthsAreSteady(widths: seq<real>, unit: real)
    requires unit > 0.0 && forall i :: 0 <= i < |widths| ==> widths[i] == unit
    ensures Steady(widths, Some(0.0))
  {
    forall i | 0 <= i < |widths| && Reference(widths, i).Some?
      ensures !OffBy(widths[i], Reference(widths, i).value, 0.0)
    {
      ReferenceOfEqual(widths, unit, i);
      assert unit / unit == 1.0;
    }
  }

  lemma {:induction false} ReferenceOfEqual(widths: seq<real>, unit: real, n: nat)
    requires n <= |widths| && forall i :: 0 <= i < |widths| ==> widths[i] == unit
    ensures Reference(widths, n).Some? ==> Reference(widths, n).value == unit
  {
    if n > 0 { ReferenceOfEqual(widths, unit, n - 1); }
  }
}
