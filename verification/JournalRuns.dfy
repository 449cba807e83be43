/** Runs of a journal on which a promise fails, each with a reader that shows it. Each is a family:
    the native states are any that fit. */
module JournalRuns {
  import opened Wrappers
  import opened Peaks
  import opened Replication
  import opened Journaling
  import opened JournalProtocol
  import opened JournalReaders

  const DAY := "20261023"

  function Bars(n: nat): map<int, Point> {
    if n == 0 then map[] else Bars(n - 1)[n - 1 := Point(1, 1, (n - 1) * MINUTE_MS)]
  }

  function Side(bars: map<int, Point>): Native {
    Native(Some(map[]), map[TradedBar := bars, AllBar := map[], UnreachedBar := map[]], [])
  }

  /** A key whose ask side has a traded bar in each of its first `n` minutes. */
  function State(n: nat): Natives {
    Natives(Side(Bars(n)), Side(map[]))
  }

  function Hint(x: nat): SideHints {
    SideHints(map[Ask := Hints(map[TradedBar := {x}], {})])
  }

  lemma {:induction false} BarsAre(n: nat)
    ensures Keyed(Bars(n)) && forall x :: x in Bars(n) <==> 0 <= x < n
  {
    if n > 0 { BarsAre(n - 1); }
  }

  lemma StateIsWellFormed(n: nat)
    ensures WellFormedBoth({}, Some(State(n)))
  {
    BarsAre(n);
    assert |RECORD| != |DATE|;
  }

  lemma HintCovers(n: nat)
    ensures Covered(Some(State(n)), Some(State(n + 1)), Hint(n), false)
  {
    var was, now, h := State(n).ask, State(n + 1).ask, Hint(n).sides[Ask];
    forall f, x | Lookup(was.Bars(f), x) != Lookup(now.Bars(f), x) ensures x in h.Minutes(f) {
      match f case TradedBar => case AllBar => case UnreachedBar =>
    }
  }

  function Started(key: Key): World {
    World({}, key, FRESH, Some(State(0)), DAY, None, {}, {})
  }

  /** The world after a step that is taken. */
  function After(w: World, s: Step): World {
    match s
    case Mutate(natives, hints, full) => w.(natives := natives, l := RecordInLedger(w.l, hints, full))
    case Rollover(date) => w.(date := date)
    case SendFirst(value) => w.(firsts := w.firsts + {value})
    case CommitFirst(value) => w.(l := InitialLedger(w.l, value, w.date), base := Some(value))
    case Prepare =>
      if Patches(w.l, w.natives, w.date) && w.l.pending.None? then w
      else w.(prepared := w.prepared + {PreparedIn(w)})
    case Commit(g) => w.(l := CommitInLedger(w.l, g.frame), base := g.natives)
  }

  function Busier(n: nat): Step {
    Mutate(Some(State(n + 1)), Hint(n), false)
  }

  /** A world between two steps: the key's revisions, how many bars it has and how many it had when
      committed last, and the minutes marked if anything is pending. */
  predicate IsAt(w: World, source: nat, sent: nat, bars: nat, base: nat, marked: Option<set<int>>) {
    && w.names == {} && w.date == DAY && w.natives == Some(State(bars)) && w.base == Some(State(base))
    && w.l.source == source && w.l.sent == sent && w.l.sentDate == Some(DAY) && w.l.forceFull.None?
    && w.l.Available(Ask) && (w.l.pending.Some? <==> marked.Some?)
    && (marked.Some? ==> w.l.MarksOf(Ask).Some? && w.l.MarksOf(Ask).value.Minutes(TradedBar).Keys <= marked.value)
  }

  lemma HintMarks(l: Ledger, n: nat, was: set<int>)
    requires l.MarksOf(Ask).Some? ==> l.MarksOf(Ask).value.Minutes(TradedBar).Keys <= was
    ensures var r := RecordInLedger(l, Hint(n), false);
            && r.MarksOf(Ask).Some?
            && r.MarksOf(Ask).value.Minutes(TradedBar).Keys <= was + {n}
  {
    MergedMarks(l, Hint(n), false, Ask);
  }

  lemma Recording(w: World, source: nat, sent: nat, bars: nat, base: nat, marked: Option<set<int>>,
                  next: set<int>) returns (w2: World)
    requires IsAt(w, source, sent, bars, base, marked) && next == marked.GetOr({}) + {bars}
    ensures Next(w, Busier(bars), w2) && w2.prepared == w.prepared
    ensures IsAt(w2, source + 1, sent, bars + 1, base, Some(next))
  {
    w2 := After(w, Busier(bars));
    StateIsWellFormed(bars + 1);
    HintCovers(bars);
    HintMarks(w.l, bars, marked.GetOr({}));
  }

  /** A frame that patches the ask side, prepared at a revision. */
  predicate IsFrame(g: Flight, revision: nat, bars: nat) {
    && g.frame.revision == revision && g.frame.date == DAY && g.natives == Some(State(bars))
    && g.frame.body.Delta? && Ask in g.frame.body.patch.sides && g.frame.body.patch.sides[Ask].Change?
  }

  lemma Preparing(w: World, source: nat, sent: nat, bars: nat, base: nat, marked: set<int>)
    returns (w2: World, g: Flight)
    requires IsAt(w, source, sent, bars, base, Some(marked)) && source >= 1
    ensures Next(w, Prepare, w2) && IsAt(w2, source, sent, bars, base, Some(marked))
    ensures w.prepared <= w2.prepared && g in w2.prepared && IsFrame(g, source, bars)
  {
    w2, g := After(w, Prepare), PreparedIn(w);
    var p := DirtyPatch(w.l, State(bars), DAY);
    assert p.sides[Ask] == SidePatchFor(w.l, Ask, State(bars).ask, DAY, w.l.MarksOf(Ask).value);
  }

  lemma Committing(g: Flight, earlier: nat, shown: nat, w: World, source: nat, sent: nat, bars: nat, base: nat,
                   marked: set<int>) returns (w2: World)
    requires IsAt(w, source, sent, bars, base, Some(marked)) && g in w.prepared && IsFrame(g, earlier, shown)
    ensures Next(w, Commit(g), w2) && w2.prepared == w.prepared
    ensures IsAt(w2, source, earlier, bars, shown, if source <= earlier then None else Some(marked))
  {
    w2 := After(w, Commit(g));
    assert w2.l.Available(Ask) == w.l.Available(Ask);
    if source > earlier {
      assert w2.l.MarksOf(Ask) == Some(Newer(w.l.MarksOf(Ask).value, earlier));
    }
  }

  lemma Opening(key: Key) returns (w0: World, w1: World, w2: World)
    ensures Init(w0) && w0.l.source == 0 && w0.natives == Some(State(0)) && w0.key == key
    ensures Next(w0, SendFirst(State(0)), w1) && w1.l.source == 0
    ensures Next(w1, CommitFirst(State(0)), w2) && IsAt(w2, 1, 1, 0, 0, None)
  {
    StateIsWellFormed(0);
    w0 := Started(key);
    w1 := After(w0, SendFirst(State(0)));
    w2 := After(w1, CommitFirst(State(0)));
  }

  // ---- a commit that goes back -----------------------------------------------------------------

  lemma Longer(run: seq<World>, steps: seq<Step>, s: Step, w: World)
    requires IsRun(run, steps) && Next(run[|steps|], s, w)
    ensures IsRun(run + [w], steps + [s])
  {
    var run', steps' := run + [w], steps + [s];
    forall i | 0 <= i < |steps'| ensures Next(run'[i], steps'[i], run'[i + 1]) {
      if i < |steps| { assert Next(run[i], steps[i], run[i + 1]); }
    }
  }

  lemma Opened(key: Key) returns (run: seq<World>)
    ensures IsRun(run, [SendFirst(State(0)), CommitFirst(State(0))])
    ensures run[0].l.source == 0 && run[0].natives == Some(State(0)) && run[0].key == key
    ensures run[1].l.source == 0 && IsAt(run[2], 1, 1, 0, 0, None)
  {
    var w0, w1, w2 := Opening(key);
    run := [w0, w1, w2];
  }

  lemma Recorded(run: seq<World>, steps: seq<Step>, source: nat, sent: nat, bars: nat, base: nat,
                 marked: Option<set<int>>, next: set<int>)
    returns (run2: seq<World>, steps2: seq<Step>)
    requires IsRun(run, steps) && IsAt(run[|steps|], source, sent, bars, base, marked)
    requires next == marked.GetOr({}) + {bars}
    ensures IsRun(run2, steps2) && |steps2| == |steps| + 1
    ensures run2[..|run|] == run && steps2 == steps + [Busier(bars)]
    ensures IsAt(run2[|steps2|], source + 1, sent, bars + 1, base, Some(next))
    ensures run[|steps|].prepared == run2[|steps2|].prepared
  {
    var w := Recording(run[|steps|], source, sent, bars, base, marked, next);
    Longer(run, steps, Busier(bars), w);
    run2, steps2 := run + [w], steps + [Busier(bars)];
  }

  lemma Prepared(run: seq<World>, steps: seq<Step>, source: nat, sent: nat, bars: nat, base: nat, marked: set<int>)
    returns (run2: seq<World>, steps2: seq<Step>, g: Flight)
    requires IsRun(run, steps) && IsAt(run[|steps|], source, sent, bars, base, Some(marked)) && source >= 1
    ensures IsRun(run2, steps2) && |steps2| == |steps| + 1
    ensures run2[..|run|] == run && steps2 == steps + [Prepare]
    ensures IsAt(run2[|steps2|], source, sent, bars, base, Some(marked))
    ensures run[|steps|].prepared <= run2[|steps2|].prepared
    ensures g in run2[|steps2|].prepared && IsFrame(g, source, bars)
  {
    var w;
    w, g := Preparing(run[|steps|], source, sent, bars, base, marked);
    Longer(run, steps, Prepare, w);
    run2, steps2 := run + [w], steps + [Prepare];
  }

  lemma RecordedAndPrepared(run: seq<World>, steps: seq<Step>, source: nat, sent: nat, bars: nat, base: nat,
                            marked: Option<set<int>>, next: set<int>)
    returns (run2: seq<World>, steps2: seq<Step>, g: Flight)
    requires IsRun(run, steps) && IsAt(run[|steps|], source, sent, bars, base, marked)
    requires next == marked.GetOr({}) + {bars}
    ensures IsRun(run2, steps2) && |steps2| == |steps| + 2
    ensures run2[..|run|] == run && steps2 == steps + [Busier(bars), Prepare]
    ensures IsAt(run2[|run|], source + 1, sent, bars + 1, base, Some(next))
    ensures IsAt(run2[|steps2|], source + 1, sent, bars + 1, base, Some(next))
    ensures run[|steps|].prepared <= run2[|steps2|].prepared
    ensures g in run2[|steps2|].prepared && IsFrame(g, source + 1, bars + 1)
  {
    var run1, steps1 := Recorded(run, steps, source, sent, bars, base, marked, next);
    run2, steps2, g := Prepared(run1, steps1, source + 1, sent, bars + 1, base, next);
    assert run2[|run|] == run2[..|run1|][|run|] == run1[|run|];
    assert run2[..|run|] == run2[..|run1|][..|run|];
  }

  lemma Committed(run: seq<World>, steps: seq<Step>, g: Flight, earlier: nat, shown: nat,
                  source: nat, sent: nat, bars: nat, base: nat, marked: set<int>)
    returns (run2: seq<World>, steps2: seq<Step>)
    requires IsRun(run, steps) && IsAt(run[|steps|], source, sent, bars, base, Some(marked))
    requires g in run[|steps|].prepared && IsFrame(g, earlier, shown)
    ensures IsRun(run2, steps2) && |steps2| == |steps| + 1
    ensures run2[..|run|] == run && steps2 == steps + [Commit(g)]
    ensures IsAt(run2[|steps2|], source, earlier, bars, shown, if source <= earlier then None else Some(marked))
    ensures run[|steps|].prepared == run2[|steps2|].prepared
  {
    var w := Committing(g, earlier, shown, run[|steps|], source, sent, bars, base, marked);
    Longer(run, steps, Commit(g), w);
    run2, steps2 := run + [w], steps + [Commit(g)];
  }

  /** A first frame; a record and the frame `f1` prepared; a record and the frame `f2` prepared. */
  lemma TwoFramesOut(key: Key) returns (run: seq<World>, steps: seq<Step>, f1: Flight, f2: Flight)
    ensures IsRun(run, steps) && |steps| == 6
    ensures steps == [SendFirst(State(0)), CommitFirst(State(0)), Busier(0), Prepare, Busier(1), Prepare]
    ensures run[0].l.source == 0 && run[0].natives == Some(State(0)) && run[1].l.source == 0
    ensures run[0].key == key
    ensures run[3].l.source == 2 && run[3].l.sent == 1 && run[3].natives == Some(State(1))
    ensures run[2].l.source == 1 && run[4].l.source == 2
    ensures IsAt(run[6], 3, 1, 2, 0, Some({0, 1}))
    ensures f1 in run[6].prepared && IsFrame(f1, 2, 1) && f2 in run[6].prepared && IsFrame(f2, 3, 2)
  {
    var run2 := Opened(key);
    var run4, steps4;
    run4, steps4, f1 := RecordedAndPrepared(run2, [SendFirst(State(0)), CommitFirst(State(0))], 1, 1, 0, 0, None, {0});
    assert run4[0] == run2[0] && run4[1] == run2[1] && run4[2] == run2[2];
    run, steps, f2 := RecordedAndPrepared(run4, steps4, 2, 1, 1, 0, Some({0}), {0, 1});
    assert forall i :: 0 <= i <= 4 ==> run[i] == run4[i];
  }

  /** `f2` is committed while `f1` waits; a record follows, then `f1` is committed, and a frame
      prepared. */
  lemma BackwardsThen(run: seq<World>, steps: seq<Step>, f1: Flight, f2: Flight)
    returns (run2: seq<World>, steps2: seq<Step>)
    requires IsRun(run, steps) && |steps| == 6 && IsAt(run[6], 3, 1, 2, 0, Some({0, 1}))
    requires f1 in run[6].prepared && IsFrame(f1, 2, 1) && f2 in run[6].prepared && IsFrame(f2, 3, 2)
    ensures IsRun(run2, steps2) && |steps2| == 10
    ensures run2[..7] == run && steps2 == steps + [Commit(f2), Busier(2), Commit(f1), Prepare]
    ensures run2[7].l.source == 3 && run2[8].l.sent == 3 && IsAt(run2[9], 4, 2, 3, 1, Some({2}))
  {
    var run7, steps7 := Committed(run, steps, f2, 3, 2, 3, 1, 2, 0, {0, 1});
    var run8, steps8 := Recorded(run7, steps7, 3, 3, 2, 2, None, {2});
    var run9, steps9 := Committed(run8, steps8, f1, 2, 1, 4, 3, 3, 2, {2});
    var g;
    run2, steps2, g := Prepared(run9, steps9, 4, 2, 3, 1, {2});
    assert run2[9] == run9[9] && run2[8] == run9[8] == run8[8] && run2[7] == run9[7] == run8[7] == run7[7];
    forall i | 0 <= i < 7 ensures run2[i] == run[i] {
      assert run2[i] == run9[i] == run8[i] == run7[i] == run[i];
    }
  }

  /** What the readers of the run need of it. */
  ghost predicate IsOverlapping(run: seq<World>, steps: seq<Step>, f1: Flight, f2: Flight) {
    && IsRun(run, steps)
    && steps == OverlappingSteps(f1, f2)
    && run[3].l.source == 2 && run[3].l.sent == 1 && run[3].natives == Some(State(1))
    && run[8].l.sent == 3 && IsAt(run[9], 4, 2, 3, 1, Some({2}))
    && f1.frame.revision == 2 && f2.frame.revision == 3
  }

  function OverlappingSteps(f1: Flight, f2: Flight): seq<Step> {
    [SendFirst(State(0)), CommitFirst(State(0)), Busier(0), Prepare, Busier(1), Prepare,
     Commit(f2), Busier(2), Commit(f1), Prepare]
  }

  lemma OrderlyUntilItGoesBack(run: seq<World>, f1: Flight, f2: Flight)
    requires |run| == 11 && run[0].l.source == 0 && run[0].natives == Some(State(0)) && run[1].l.source == 0
    requires run[2].l.source != 0 && run[4].l.source != 0 && run[7].l.source != 0
    requires f2.frame.revision >= run[6].l.sent
    ensures Orderly(run, OverlappingSteps(f1, f2), 8)
  {
  }

  lemma Overlapping(key: Key) returns (run: seq<World>, steps: seq<Step>, f1: Flight, f2: Flight)
    ensures IsOverlapping(run, steps, f1, f2) && Orderly(run, steps, 8) && run[0].key == key
  {
    var run6, steps6;
    run6, steps6, f1, f2 := TwoFramesOut(key);
    run, steps := BackwardsThen(run6, steps6, f1, f2);
    assert steps == OverlappingSteps(f1, f2);
    assert run[0] == run6[0] && run[1] == run6[1] && run[2] == run6[2] && run[3] == run6[3];
    assert run[4] == run6[4] && run[6] == run6[6];
    OrderlyUntilItGoesBack(run, f1, f2);
  }

  lemma MinuteOneIsLost(l: Ledger)
    requires l.MarksOf(Ask).Some? && l.MarksOf(Ask).value.Minutes(TradedBar).Keys <= {2} && l.Available(Ask)
    requires l.source > l.sent && Patches(l, Some(State(3)), DAY)
    ensures !Delivers(l, Some(State(1)), Some(State(3)), DAY)
  {
    BarsAre(1);
    BarsAre(3);
    assert Lookup(State(1).ask.Bars(TradedBar), 1) != Lookup(State(3).ask.Bars(TradedBar), 1);
  }

  /** The reader of the first frame and of `f1` stands at the committed revision with what was committed
      there, takes the next frame without a sign of trouble, and does not hold the native state: the
      minute `f2` carried is gone from the marks. */
  lemma GoingBackLosesAMinute(key: Key) returns (run: seq<World>, steps: seq<Step>, f1: Flight, f2: Flight)
    ensures IsOverlapping(run, steps, f1, f2) && Orderly(run, steps, 8)
    ensures IsFeed(steps, [0, 3], |steps|)
    ensures var e := Reader(run, steps, [0, 3]);
            && e.revision == run[9].l.sent
            && Carries(e.value, run[9].base, Dates(run, steps, [0, 3]))
            && var (o, e2) := ApplyEntry(e, FrameAt(run, steps, 9));
            && o == Returned(true) && e2.revision == run[9].l.source
            && forall d :: !Carries(e2.value, run[9].natives, d)
  {
    run, steps, f1, f2 := Overlapping(key);
    var e, d := ReaderOfBoth(run, steps, f1, f2);
    TakenButNotDelivered(run[9], e, d);
  }

  lemma Taken(w: World, e: Entry, d: Stamps)
    requires IsAt(w, 4, 2, 3, 1, Some({2})) && e.revision == 2 && Carries(e.value, Some(State(1)), d)
    ensures var (o, e2) := ApplyEntry(e, FrameOf(w.l, w.key, w.natives, w.date));
            o == Returned(true) && e2.revision == 4
  {
    StateIsWellFormed(1);
    StateIsWellFormed(3);
    PatchFitsExactly({}, w.l, State(1), State(3), d, DAY);
    PatchingIsSeenByReaders(e.value.value, DirtyPatch(w.l, State(3), DAY));
  }

  lemma TakenButNotDelivered(w: World, e: Entry, d: Stamps)
    requires IsAt(w, 4, 2, 3, 1, Some({2})) && e.revision == 2 && Carries(e.value, Some(State(1)), d)
    ensures var (o, e2) := ApplyEntry(e, FrameOf(w.l, w.key, w.natives, w.date));
            o == Returned(true) && e2.revision == 4 && forall d' :: !Carries(e2.value, w.natives, d')
  {
    Taken(w, e, d);
    MinuteOneIsLost(w.l);
    StateIsWellFormed(1);
    StateIsWellFormed(3);
    forall d' ensures !Carries(ApplyEntry(e, FrameOf(w.l, w.key, w.natives, w.date)).1.value, w.natives, d') {
      NotDeliveredOnAnyDate({}, w.l, w.key, Some(State(1)), w.natives, DAY, e, d, d');
    }
  }

  lemma ReaderOfBoth(run: seq<World>, steps: seq<Step>, f1: Flight, f2: Flight) returns (e: Entry, d: Stamps)
    requires IsOverlapping(run, steps, f1, f2) && Orderly(run, steps, 8)
    ensures IsFeed(steps, [0, 3], |steps|)
    ensures e == Reader(run, steps, [0, 3]) && d == Dates(run, steps, [0, 3])
    ensures e.revision == 2 && Carries(e.value, Some(State(1)), d)
  {
    assert IsFeed(steps, [], 3) && IsOut(steps, 0, 3) && IsOut(steps, 3, 4) && IsFeed(steps, [0], 3);
    HandOne(run, steps, [], 0, 3);
    assert [] + [0] == [0] && [0] + [3] == [0, 3];
    NoLostMarker(run, steps, 3, [0]);
    HandOne(run, steps, [0], 3, 4);
    e, d := Reader(run, steps, [0, 3]), Dates(run, steps, [0, 3]);
  }

  // ---- a record at a first frame's yield -----------------------------------------------------------

  /** The first frame goes out, the key changes and is recorded, and only then is the first frame
      committed, which forgets the key's revision. */
  lemma FirstAndRecord(key: Key) returns (run: seq<World>, steps: seq<Step>)
    ensures IsRun(run, steps) && |steps| == 3 && Orderly(run, steps, 1)
    ensures steps == [SendFirst(State(0)), Busier(0), CommitFirst(State(0))]
    ensures IsAt(run[3], 1, 1, 1, 0, Some({0}))
  {
    var w0 := Started(key);
    var w1 := After(w0, SendFirst(State(0)));
    var w2 := After(w1, Busier(0));
    var w3 := After(w2, CommitFirst(State(0)));
    StateIsWellFormed(0);
    StateIsWellFormed(1);
    HintCovers(0);
    HintMarks(w1.l, 0, {});
    run, steps := [w0, w1, w2, w3], [SendFirst(State(0)), Busier(0), CommitFirst(State(0))];
  }

  lemma RecordedBetween(key: Key) returns (run: seq<World>, steps: seq<Step>, g: Flight)
    ensures IsRun(run, steps) && Orderly(run, steps, 1)
    ensures steps == [SendFirst(State(0)), Busier(0), CommitFirst(State(0)), Prepare, Commit(g)]
    ensures IsAt(run[3], 1, 1, 1, 0, Some({0})) && IsAt(run[5], 1, 1, 1, 1, None)
  {
    run, steps := FirstAndRecord(key);
    var w4;
    w4, g := Preparing(run[3], 1, 1, 1, 0, {0});
    Longer(run, steps, Prepare, w4);
    var w5 := Committing(g, 1, 1, w4, 1, 1, 1, 0, {0});
    Longer(run + [w4], steps + [Prepare], Commit(g), w5);
    assert IsOrderly(run[0], steps[0]);
    run, steps := run + [w4] + [w5], steps + [Prepare] + [Commit(g)];
  }

  lemma OtherStateIsNotHeld(have: Option<NormalValue>, was: Natives, now: Natives, d: Stamps, e: Stamps)
    requires Carries(have, Some(was), d) && !LooksSame(was.ask, now.ask)
    ensures !Carries(have, Some(now), e)
  {
    if Carries(have, Some(now), e) { SameSideLooksSame(was.ask, now.ask, d.ask, e.ask); }
  }

  lemma OneBarIsSeen()
    ensures !LooksSame(State(0).ask, State(1).ask)
  {
    BarsAre(1);
    var was, now := NormalOf(State(0).ask, ""), NormalOf(State(1).ask, "");
    assert was.value.minutes[TradedBar] == Bars(0) && now.value.minutes[TradedBar] == Bars(1);
    assert 0 in Bars(1) && 0 !in Bars(0);
  }

  lemma SameSideLooksSame(was: Native, now: Native, a: string, b: string)
    requires NormalOf(was, a) == NormalOf(now, b)
    ensures LooksSame(was, now)
  {
    if was.meta.Some? {
      assert FieldsOf(was, a)[DATE] == Text(a) && FieldsOf(now, b)[DATE] == Text(b);
      SameOnAnyDate(was, now, a);
    }
  }

  lemma OldStateIsHeld(run: seq<World>, steps: seq<Step>)
    requires IsRun(run, steps) && |steps| == 5 && Orderly(run, steps, 1) && steps[0] == SendFirst(State(0))
    ensures IsFeed(steps, [0], |steps|)
    ensures var e := Reader(run, steps, [0]);
            e.revision == 1 && forall d :: !Carries(e.value, Some(State(1)), d)
  {
    assert IsFeed(steps, [], 1) && IsOut(steps, 0, 1);
    HandOne(run, steps, [], 0, 1);
    assert [] + [0] == [0];
    var e := Reader(run, steps, [0]);
    OutIsPrepared(run, steps, 0, 1);
    AnyFrameDelivers(From(run, steps, 0), Reader(run, steps, []), OnDate(""));
    FirstFrameIsOut(run, steps, 0);
    OneBarIsSeen();
    forall d ensures !Carries(e.value, Some(State(1)), d) {
      OtherStateIsNotHeld(e.value, State(0), State(1), OnDate(run[0].date), d);
    }
  }

  /** The reader of the first frame is at the committed revision, refuses the frame with the change,
      and is left with the state before it once the journal has nothing pending. */
  lemma RecordAtFirstFrameIsLost(key: Key) returns (run: seq<World>, steps: seq<Step>, g: Flight)
    ensures IsRun(run, steps)
    ensures steps == [SendFirst(State(0)), Busier(0), CommitFirst(State(0)), Prepare, Commit(g)]
    ensures run[5].l.pending.None? && run[5].l.sent == run[5].l.source && run[5].natives == Some(State(1))
    ensures IsFeed(steps, [0], |steps|)
    ensures var e := Reader(run, steps, [0]);
            && e.revision == run[5].l.sent
            && ApplyEntry(e, FrameAt(run, steps, 3)) == (Returned(false), e)
            && forall d :: !Carries(e.value, run[5].natives, d)
  {
    run, steps, g := RecordedBetween(key);
    OldStateIsHeld(run, steps);
  }

  // ---- a revision sent again on another date -------------------------------------------------------

  const NEXT_DAY := "20261024"

  /** A frame goes out and is not committed, the date rolls over, and the revision goes out again. */
  lemma SentAgain(key: Key) returns (run: seq<World>, steps: seq<Step>, g: Flight)
    ensures IsRun(run, steps) && Orderly(run, steps, 5)
    ensures steps == [Mutate(Some(State(0)), SideHints(map[]), true), Prepare, Rollover(NEXT_DAY), Prepare, Commit(g)]
    ensures run[1].l.source == 1 && run[1].date == DAY && FrameOf(run[1].l, key, run[1].natives, DAY).body.Full?
    ensures run[1].key == key && run[1].natives == Some(State(0)) && !Patches(run[1].l, run[1].natives, DAY)
    ensures run[5].l.sent == 1 && run[5].l.sentDate == Some(NEXT_DAY) && run[5].base == Some(State(0))
  {
    var w0, s0 := Started(key), Mutate(Some(State(0)), SideHints(map[]), true);
    var w1 := After(w0, s0);
    var w2, w3 := After(w1, Prepare), After(w1, Prepare).(date := NEXT_DAY);
    var w4 := After(w3, Prepare);
    g := PreparedIn(w3);
    StateIsWellFormed(0);
    run, steps := [w0, w1, w2, w3, w4, After(w4, Commit(g))], [s0, Prepare, Rollover(NEXT_DAY), Prepare, Commit(g)];
  }

  /** A reader of the first frame stands at the committed revision on the wrong date. */
  lemma ResendingRedates(key: Key) returns (run: seq<World>, steps: seq<Step>, g: Flight)
    ensures IsRun(run, steps) && Orderly(run, steps, 5)
    ensures steps == [Mutate(Some(State(0)), SideHints(map[]), true), Prepare, Rollover(NEXT_DAY), Prepare, Commit(g)]
    ensures Redated(run, steps, 5) && IsFeed(steps, [1], 5)
    ensures Reader(run, steps, [1]).revision == run[5].l.sent && !AtBase(run[5], Reader(run, steps, [1]))
  {
    run, steps, g := SentAgain(key);
    assert IsOut(steps, 1, 5) && IsFeed(steps, [], 5);
    assert DAY[7] != NEXT_DAY[7];
    assert IsRedatedBy(run, steps, 1, 5) && Shows(run[5].base, Ask);
    assert [] + [1] == [1];
    TakesItsDate(run, steps, [], 1, 5);
    WrongDateIsSeen(run, steps, Reader(run, steps, [1]), 1, 5);
  }
}
