/** Which frames carry a reader from what was last committed to the native state at the moment of
    preparing. Mutation with recording, preparing and committing may interleave in any way, and any
    number of frames may be out at once: as long as no commit goes back and first frames come first, no
    marker is lost.

    The argument is about one key; keys share nothing but the trading date. */
module JournalProtocol {
  import opened Wrappers
  import opened Ordering
  import opened Peaks
  import opened Replication
  import opened Journaling

  /** A prepared frame, with the state it was prepared from. */
  datatype Flight = Flight(frame: Frame, natives: Option<Natives>)

  /** `base` is the native state committed last, at `l.sent` and on `l.sentDate`. `prepared` holds every
      frame ever prepared and `firsts` the value of every first frame that has gone out: a frame may
      be committed at any later time, whatever other generators do meanwhile. */
  datatype World = World(names: set<string>, key: Key, l: Ledger, natives: Option<Natives>, date: string,
                         base: Option<Natives>, prepared: set<Flight>, firsts: set<Natives>)

  datatype Step =
    | Mutate(natives: Option<Natives>, hints: SideHints, full: bool)  // native change and `record` together
    | Rollover(date: string)
    | SendFirst(value: Natives)    // `initial_frames` up to a yield
    | CommitFirst(value: Natives)  // and after it
    | Prepare
    | Commit(g: Flight)

  // ---- what the hints must cover ---------------------------------------------------------

  /** Every changed minute, some record index up to which nothing changed, and every changed
      side. */
  ghost predicate SideCovered(was: Native, now: Native, h: Option<Hints>) {
    match h
    case None => was == now
    case Some(hint) =>
      && (forall f, x :: Lookup(was.Bars(f), x) != Lookup(now.Bars(f), x) ==> x in hint.Minutes(f))
      && (was.record == now.record || exists i :: i in hint.record && Prefix(was.record, i) == Prefix(now.record, i))
  }

  ghost predicate Covered(was: Option<Natives>, now: Option<Natives>, hints: SideHints, full: bool) {
    now.Some? && !full ==>
      && was.Some?
      && SideCovered(was.value.ask, now.value.ask, Lookup(hints.sides, Ask))
      && SideCovered(was.value.bid, now.value.bid, Lookup(hints.sides, Bid))
  }

  function PreparedIn(w: World): Flight
    requires Patches(w.l, w.natives, w.date) ==> w.l.pending.Some?
  {
    Flight(FrameOf(w.l, w.key, w.natives, w.date), w.natives)
  }

  ghost predicate Next(w: World, s: Step, w2: World) {
    match s
    case Mutate(natives, hints, full) =>
      && WellFormedBoth(w.names, natives) && Covered(w.natives, natives, hints, full)
      && w2 == w.(natives := natives, l := RecordInLedger(w.l, hints, full))
    case Rollover(date) => w2 == w.(date := date)
    case SendFirst(value) =>
      && WellFormedBoth(w.names, Some(value))
      && w2 == w.(firsts := w.firsts + {value})
    case CommitFirst(value) =>
      && value in w.firsts
      && w2 == w.(l := InitialLedger(w.l, value, w.date), base := Some(value))
    case Prepare =>
      // any other key raises a `KeyError` and changes nothing
      && w.l.source >= 1 && (Patches(w.l, w.natives, w.date) ==> w.l.pending.Some?)
      && w2 == w.(prepared := w.prepared + {PreparedIn(w)})
    case Commit(g) =>
      && g in w.prepared
      && w2 == w.(l := CommitInLedger(w.l, g.frame), base := g.natives)
  }

  /** A key the journal has not heard of. */
  ghost predicate Init(w: World) {
    && WellFormedBoth(w.names, w.natives)
    && w.l == FRESH && w.base.None? && w.prepared == {} && w.firsts == {}
  }

  ghost predicate IsRun(run: seq<World>, steps: seq<Step>) {
    && |run| == |steps| + 1 && Init(run[0])
    && forall i :: 0 <= i < |steps| ==> Next(run[i], steps[i], run[i + 1])
  }

  /** What the account relies on: no commit goes back behind what was committed, first frames come
      before anything is recorded, show the state as it is, and nothing is recorded until they are
      committed. */
  predicate IsOrderly(w: World, s: Step) {
    match s
    case Mutate(_, _, _) => w.l.source == 0 ==> w.firsts == {}
    case SendFirst(value) => w.l.source == 0 && w.natives == Some(value)
    case CommitFirst(_) => w.l.source == 0
    case Commit(g) => g.frame.revision >= w.l.sent
    case _ => true
  }

  ghost predicate Orderly(run: seq<World>, steps: seq<Step>, n: nat)
    requires |run| == |steps| + 1
  {
    forall i :: 0 <= i < n && i < |steps| ==> IsOrderly(run[i], steps[i])
  }

  const FRESH := Ledger(0, 0, None, None, SideFlags(map[]), None)

  // ---- the invariant ---------------------------------------------------------------------

  predicate MinuteMarked(m: Marks, f: MinuteField, x: int, revision: nat) {
    x in m.Minutes(f) && m.Minutes(f)[x] > revision
  }

  /** Markers newer than `revision` account for every difference between the two states. */
  ghost predicate SideAccounted(was: Native, now: Native, marks: Option<Marks>, revision: nat) {
    match marks
    case None => was == now
    case Some(m) =>
      && (forall f, x :: Lookup(was.Bars(f), x) != Lookup(now.Bars(f), x) ==> MinuteMarked(m, f, x, revision))
      && (was.record == now.record ||
          exists i :: i in m.record && m.record[i] > revision && Prefix(was.record, i) == Prefix(now.record, i))
  }

  /** Whatever separates the state sent at `revision` from the present one is still on record. */
  ghost predicate Accounted(was: Option<Natives>, revision: nat, l: Ledger, now: Option<Natives>) {
    && (l.source == revision ==> now == was)
    && (now.None?
        || (l.forceFull.Some? && l.forceFull.value > revision)
        || (&& was.Some?
            && SideAccounted(was.value.ask, now.value.ask, l.MarksOf(Ask), revision)
            && SideAccounted(was.value.bid, now.value.bid, l.MarksOf(Bid), revision)))
  }

  predicate Shows(n: Option<Natives>, s: SideName) {
    n.Some? && n.value.At(s).meta.Some?
  }

  predicate Flagged(flags: SideFlags, s: SideName) {
    s in flags.sides && flags.sides[s]
  }

  /** Whether a frame says of a side that it is there: a patch says nothing of one it does not name. */
  function Says(body: Body, s: SideName): Option<bool> {
    match body
    case Full(None) => Some(false)
    case Full(Some(v)) => Some(s in v.sides && v.sides[s].Some?)
    case Delta(p) =>
      if s !in p.sides then None else Some(p.sides[s].Change? || p.sides[s].value.Some?)
  }

  /** A side the frame says nothing of has not changed since `was`. */
  predicate SilenceIsSame(was: Option<Natives>, g: Flight, s: SideName) {
    Says(g.frame.body, s).None? ==>
      was.Some? && g.natives.Some? && was.value.At(s) == g.natives.value.At(s)
  }

  ghost predicate FlightOk(w: World, g: Flight) {
    && 1 <= g.frame.revision <= w.l.source && WellFormedBoth(w.names, g.natives)
    && (forall s :: Says(g.frame.body, s).Some? ==> Says(g.frame.body, s).value == Shows(g.natives, s))
    && (g.frame.revision >= w.l.sent ==>
          && Accounted(g.natives, g.frame.revision, w.l, w.natives)
          && forall s :: SilenceIsSame(w.base, g, s))
  }

  /** Of two frames that may still be committed, the later says everything that changed since the
      earlier. */
  ghost predicate PairOk(w: World, c: Flight, g: Flight) {
    w.l.sent <= c.frame.revision <= g.frame.revision ==> forall s :: SilenceIsSame(c.natives, g, s)
  }

  ghost predicate LedgerOk(w: World) {
    && WellFormedBoth(w.names, w.natives) && WellFormedBoth(w.names, w.base)
    && w.l.sent <= w.l.source
    && (w.l.pending.Some? <==> w.l.source > w.l.sent)
    && (w.l.forceFull.Some? ==> w.l.sent < w.l.forceFull.value <= w.l.source)
    && (w.l.sentDate.None? <==> w.l.sent == 0) && (w.l.sentDate.None? ==> w.base.None?)
    && (w.l.sentDate.Some? ==> Accounted(w.base, w.l.sent, w.l, w.natives))
    && (forall s :: Flagged(w.l.available, s) ==> Shows(w.base, s))
    && (w.l.source == 0 ==> w.l == FRESH && forall n :: n in w.firsts ==> w.natives == Some(n))
  }

  ghost predicate Inv(w: World) {
    && LedgerOk(w)
    && (forall g :: g in w.prepared ==> FlightOk(w, g))
    && (forall c, g :: c in w.prepared && g in w.prepared ==> PairOk(w, c, g))
  }

  lemma ShorterPrefix<T>(a: seq<T>, b: seq<T>, i: nat, j: nat)
    requires j <= i && Prefix(a, i) == Prefix(b, i)
    ensures Prefix(a, j) == Prefix(b, j)
  {
    assert Prefix(a, j) == Prefix(Prefix(a, i), j);
    assert Prefix(b, j) == Prefix(Prefix(b, i), j);
  }

  lemma RecordStaysAccounted(was: Native, mid: Native, now: Native, m: Marks, h: Hints, version: nat, revision: nat)
    requires was.record == mid.record ||
             exists i :: i in m.record && m.record[i] > revision && Prefix(was.record, i) == Prefix(mid.record, i)
    requires mid.record == now.record || exists i :: i in h.record && Prefix(mid.record, i) == Prefix(now.record, i)
    requires version > revision
    ensures was.record == now.record ||
            exists i :: i in Merge(m, h, version).record && Merge(m, h, version).record[i] > revision &&
                        Prefix(was.record, i) == Prefix(now.record, i)
  {
    var r := Merge(m, h, version).record;
    if was.record != mid.record && mid.record != now.record {
      var i :| i in m.record && m.record[i] > revision && Prefix(was.record, i) == Prefix(mid.record, i);
      var j :| j in h.record && Prefix(mid.record, j) == Prefix(now.record, j);
      if i <= j {
        ShorterPrefix(mid.record, now.record, j, i);
        assert i in r && r[i] > revision && Prefix(was.record, i) == Prefix(now.record, i);
      } else {
        ShorterPrefix(was.record, mid.record, i, j);
        assert j in r && r[j] > revision && Prefix(was.record, j) == Prefix(now.record, j);
      }
    } else if was.record != mid.record {
      var i :| i in m.record && m.record[i] > revision && Prefix(was.record, i) == Prefix(mid.record, i);
      assert i in r && r[i] > revision;
    } else if mid.record != now.record {
      var j :| j in h.record && Prefix(mid.record, j) == Prefix(now.record, j);
      assert j in r && r[j] > revision;
    }
  }

  lemma MinutesStayAccounted(was: Native, mid: Native, now: Native, m: Marks, h: Hints, version: nat, revision: nat)
    requires forall f, x :: Lookup(was.Bars(f), x) != Lookup(mid.Bars(f), x) ==> MinuteMarked(m, f, x, revision)
    requires forall f, x :: Lookup(mid.Bars(f), x) != Lookup(now.Bars(f), x) ==> x in h.Minutes(f)
    requires version > revision
    ensures forall f, x :: Lookup(was.Bars(f), x) != Lookup(now.Bars(f), x) ==>
              MinuteMarked(Merge(m, h, version), f, x, revision)
  {
    forall f, x | Lookup(was.Bars(f), x) != Lookup(now.Bars(f), x)
      ensures MinuteMarked(Merge(m, h, version), f, x, revision)
    {
      if x !in h.Minutes(f) {
        assert MinuteMarked(m, f, x, revision);
      }
      assert f in m.minutes.Keys + h.minutes.Keys;
      assert Merge(m, h, version).Minutes(f) == Stamp(m.Minutes(f), h.Minutes(f), version);
    }
  }

  /** One mutation with its hints, seen from a revision before it. */
  lemma MutationStaysAccounted(was: Native, mid: Native, now: Native, marks: Option<Marks>, h: Option<Hints>,
                               version: nat, revision: nat)
    requires SideAccounted(was, mid, marks, revision) && SideCovered(mid, now, h) && version > revision
    ensures marks.None? && h.None? ==> was == now
    ensures marks.Some? || h.Some? ==> SideAccounted(was, now, Some(MergeMarks(marks, h, version)), revision)
  {
    if h.Some? {
      var m := marks.GetOr(Marks(map[], map[]));
      MinutesStayAccounted(was, mid, now, m, h.value, version, revision);
      RecordStaysAccounted(was, mid, now, m, h.value, version, revision);
    }
  }

  lemma MergedMarks(l: Ledger, hints: SideHints, full: bool, s: SideName)
    ensures RecordInLedger(l, hints, full).MarksOf(s)
         == if l.MarksOf(s).None? && s !in hints.sides then None
            else Some(MergeMarks(l.MarksOf(s), Lookup(hints.sides, s), l.source + 1))
  {
    var sides := l.pending.GetOr(Pending(map[])).sides;
    assert l.MarksOf(s) == Lookup(sides, s);
  }

  lemma SideMutationStaysAccounted(was: Native, mid: Native, now: Native, l: Ledger, hints: SideHints, full: bool,
                                   s: SideName, revision: nat)
    requires SideAccounted(was, mid, l.MarksOf(s), revision) && SideCovered(mid, now, Lookup(hints.sides, s))
    requires revision <= l.source
    ensures SideAccounted(was, now, RecordInLedger(l, hints, full).MarksOf(s), revision)
  {
    MutationStaysAccounted(was, mid, now, l.MarksOf(s), Lookup(hints.sides, s), l.source + 1, revision);
    MergedMarks(l, hints, full, s);
  }

  lemma MutateKeepsAccount(was: Option<Natives>, revision: nat, l: Ledger, mid: Option<Natives>,
                           now: Option<Natives>, hints: SideHints, full: bool)
    requires Accounted(was, revision, l, mid) && Covered(mid, now, hints, full) && revision <= l.source
    ensures Accounted(was, revision, RecordInLedger(l, hints, full), now)
  {
    if now.Some? && !full && !(l.forceFull.Some? && l.forceFull.value > revision) {
      SideMutationStaysAccounted(was.value.ask, mid.value.ask, now.value.ask, l, hints, full, Ask, revision);
      SideMutationStaysAccounted(was.value.bid, mid.value.bid, now.value.bid, l, hints, full, Bid, revision);
    }
  }

  lemma AlreadyNewer(was: Native, now: Native, m: Marks, revision: nat, dropped: nat)
    requires SideAccounted(was, now, Some(m), revision) && dropped <= revision
    ensures SideAccounted(was, now, Some(Newer(m, dropped)), revision)
  {
    forall f, x | Lookup(was.Bars(f), x) != Lookup(now.Bars(f), x)
      ensures MinuteMarked(Newer(m, dropped), f, x, revision)
    {
      assert MinuteMarked(m, f, x, revision);
    }
    if was.record != now.record {
      var i :| i in m.record && m.record[i] > revision && Prefix(was.record, i) == Prefix(now.record, i);
      assert i in Newer(m, dropped).record;
    }
  }

  /** Dropping markers that are not newer keeps the account from a revision. */
  lemma DropKeepsAccount(was: Option<Natives>, revision: nat, l: Ledger, dropped: nat, now: Option<Natives>)
    requires Accounted(was, revision, l, now) && dropped <= revision <= l.source
    ensures Accounted(was, revision, DropFromLedger(l, dropped), now)
  {
    if l.source > revision && now.Some? && !(l.forceFull.Some? && l.forceFull.value > revision) {
      if l.MarksOf(Ask).Some? {
        AlreadyNewer(was.value.ask, now.value.ask, l.MarksOf(Ask).value, revision, dropped);
      }
      if l.MarksOf(Bid).Some? {
        AlreadyNewer(was.value.bid, now.value.bid, l.MarksOf(Bid).value, revision, dropped);
      }
    }
  }

  /** A marker survives a commit exactly when it is newer than the frame. */
  lemma CommitDropsOnlySentMarkers(l: Ledger, f: Frame, s: SideName, field: MinuteField, x: int)
    requires l.pending.Some? && l.source > f.revision && s in l.pending.value.sides
    ensures var was, now := l.pending.value.sides[s], CommitInLedger(l, f).MarksOf(s);
            && now.Some?
            && (Lookup(now.value.Minutes(field), x)
                == if MinuteMarked(was, field, x, f.revision) then Some(was.Minutes(field)[x]) else None)
            && (forall i :: Lookup(now.value.record, i)
                       == if i in was.record && was.record[i] > f.revision then Some(was.record[i]) else None)
  {
  }

  // ---- what a frame delivers -------------------------------------------------------------

  lemma MinutePatchDelivers(was: map<int, Point>, now: map<int, Point>, dirty: map<int, nat>)
    ensures ApplyMapping(was, MinutePatch(dirty, now)) == now
       <==> forall x :: Lookup(was, x) != Lookup(now, x) ==> x in dirty
  {
    var result := ApplyMapping(was, MinutePatch(dirty, now));
    SameLookups(result, now);
    if result == now {
      forall x | Lookup(was, x) != Lookup(now, x) ensures x in dirty { assert Lookup(result, x) == Lookup(now, x); }
    }
    if forall x :: Lookup(was, x) != Lookup(now, x) ==> x in dirty {
      forall x ensures Lookup(result, x) == Lookup(now, x) { }
    }
  }

  /** The record half of what marks must cover: some marked index up to which nothing changed. */
  predicate RecordCovered(was: seq<Point>, now: seq<Point>, dirty: map<nat, nat>) {
    was == now || exists i :: i in dirty && Prefix(was, i) == Prefix(now, i)
  }

  /** What a reader's record is after the splice from the lowest marked index, if there is one. */
  function Spliced(was: seq<Point>, now: seq<Point>, dirty: map<nat, nat>): seq<Point> {
    if dirty == map[] then was
    else
      Inhabited(dirty.Keys);
      var least: nat := Least(dirty.Keys);
      Prefix(was, least) + Suffix(now, least)
  }

  lemma SpliceDelivers(was: seq<Point>, now: seq<Point>, dirty: map<nat, nat>)
    ensures Spliced(was, now, dirty) == now <==> RecordCovered(was, now, dirty)
  {
    if dirty != map[] {
      assert dirty.Keys != {};
      var least: nat := Least(dirty.Keys);
      if i :| i in dirty && Prefix(was, i) == Prefix(now, i) {
        ShorterPrefix(was, now, i, least);
      }
      assert Prefix(now, least) + Suffix(now, least) == now;
      SamePrefixes(was, now, least);
    }
  }

  lemma SamePrefixes(was: seq<Point>, now: seq<Point>, i: nat)
    ensures Prefix(was, i) + Suffix(now, i) == now ==> Prefix(was, i) == Prefix(now, i)
  {
    if Prefix(was, i) + Suffix(now, i) == now {
      if i <= |now| {
        assert |Suffix(now, i)| == |now| - i;
        assert (Prefix(was, i) + Suffix(now, i))[..i] == Prefix(was, i);
      } else {
        assert Prefix(was, i) + [] == Prefix(was, i);
      }
    }
  }

  lemma RecordSpliced(fields: map<string, Json>, was: seq<Point>, now: Native, date: string, m: Marks)
    requires now.meta.Some? && RECORD in fields && fields[RECORD] == Array(was)
    ensures var arrays := ChangeOf(now, date, m).arrays;
            && (forall a :: a in arrays ==> a in fields && fields[a].Array?)
            && ApplySplices(fields, arrays) == fields[RECORD := Array(Spliced(was, now.record, m.record))]
  {
    if m.record == map[] {
      assert ApplySplices(fields, map[]) == fields;
    }
  }

  /** The fields a reader ends with, whatever date it held the side on: everything is now's, with the
      record as the splice leaves it. */
  lemma FieldsDelivered(names: set<string>, was: Native, now: Native, from: string, date: string, m: Marks)
    requires WellFormed(names, was) && WellFormed(names, now) && was.meta.Some? && now.meta.Some?
    ensures var p := ChangeOf(now, date, m);
            var fields := ApplyMapping(FieldsOf(was, from), p.fields);
            && (forall a :: a in p.arrays ==> a in fields && fields[a].Array?)
            && (ApplySplices(fields, p.arrays)
                == FieldsOf(now, date)[RECORD := Array(Spliced(was.record, now.record, m.record))])
  {
    var fields := ApplyMapping(FieldsOf(was, from), MapPatch(ScalarsOf(now, date), {}));
    ScalarsDelivered(names, was, now, from, date);
    assert |RECORD| != |DATE|;
    RecordSpliced(fields, was.record, now, date, m);
    assert ChangeOf(now, date, m).fields == MapPatch(ScalarsOf(now, date), {});
    Overwritten(now.meta.value, Array(was.record), Array(now.record), Text(date),
                Array(Spliced(was.record, now.record, m.record)));
  }

  lemma Overwritten(m: map<string, Json>, a: Json, b: Json, date: Json, c: Json)
    ensures m[RECORD := a][DATE := date][RECORD := c] == m[RECORD := b][DATE := date][RECORD := c]
  {
    assert |RECORD| != |DATE|;
  }

  lemma ScalarsDelivered(names: set<string>, was: Native, now: Native, from: string, date: string)
    requires WellFormed(names, was) && WellFormed(names, now) && was.meta.Some? && now.meta.Some?
    ensures ApplyMapping(FieldsOf(was, from), MapPatch(ScalarsOf(now, date), {}))
         == now.meta.value[RECORD := Array(was.record)][DATE := Text(date)]
  {
  }

  /** The minutes of one history after the patch, and when they are now's. */
  lemma MinutesDelivered(was: Native, now: Native, m: Marks, f: MinuteField)
    requires f in was.bars && f in now.bars
    ensures (if f in m.minutes then ApplyMapping(was.bars[f], MinutePatch(m.minutes[f], now.Bars(f))) else was.bars[f])
         == now.bars[f]
       <==> forall x :: Lookup(was.Bars(f), x) != Lookup(now.Bars(f), x) ==> x in m.Minutes(f)
  {
    if f in m.minutes {
      MinutePatchDelivers(was.bars[f], now.bars[f], m.minutes[f]);
    } else {
      SameLookups(was.bars[f], now.bars[f]);
      if forall x :: Lookup(was.Bars(f), x) != Lookup(now.Bars(f), x) ==> x in m.Minutes(f) {
        forall x ensures Lookup(was.bars[f], x) == Lookup(now.bars[f], x) { }
      }
    }
  }

  lemma AllMinuteFields()
    ensures forall f: MinuteField :: f in MINUTE_FIELDS
  {
    forall f: MinuteField ensures f in MINUTE_FIELDS {
      match f case TradedBar => case AllBar => case UnreachedBar =>
    }
  }

  /** Every changed minute is marked, and some record index up to which nothing changed. */
  ghost predicate Covers(was: Native, now: Native, m: Marks) {
    && (forall f, x :: Lookup(was.Bars(f), x) != Lookup(now.Bars(f), x) ==> x in m.Minutes(f))
    && RecordCovered(was.record, now.record, m.record)
  }

  lemma AccountedIsCovered(was: Native, now: Native, m: Marks, revision: nat)
    requires SideAccounted(was, now, Some(m), revision)
    ensures Covers(was, now, m)
  {
    forall f, x | Lookup(was.Bars(f), x) != Lookup(now.Bars(f), x) ensures x in m.Minutes(f) {
      assert MinuteMarked(m, f, x, revision);
    }
  }

  /** The dirty patch of a side applies to whatever the reader had of it, on whatever date, and
      gives what the side is now exactly when the marks cover what changed. */
  lemma ChangeDelivers(names: set<string>, was: Native, now: Native, from: string, date: string, m: Marks)
    requires WellFormed(names, was) && WellFormed(names, now) && was.meta.Some? && now.meta.Some?
    ensures SideFits(NormalOf(was, from), ChangeOf(now, date, m))
    ensures ApplySide(NormalOf(was, from), ChangeOf(now, date, m)) == NormalOf(now, date) <==> Covers(was, now, m)
  {
    FieldsDelivered(names, was, now, from, date, m);
    SpliceDelivers(was.record, now.record, m.record);
    AllMinuteFields();
    var out := ApplyChange(NormalOf(was, from).value, ChangeOf(now, date, m));
    FieldsAgree(now, date, Spliced(was.record, now.record, m.record));
    forall f | f in MINUTE_FIELDS
      ensures out.minutes[f] == now.bars[f]
         <==> forall x :: Lookup(was.Bars(f), x) != Lookup(now.Bars(f), x) ==> x in m.Minutes(f)
    {
      MinutesDelivered(was, now, m, f);
    }
    assert out.minutes == now.bars <==> forall f :: f in MINUTE_FIELDS ==> out.minutes[f] == now.bars[f];
  }

  lemma FieldsAgree(now: Native, date: string, record: seq<Point>)
    requires now.meta.Some?
    ensures FieldsOf(now, date)[RECORD := Array(record)] == FieldsOf(now, date) <==> record == now.record
  {
    assert |RECORD| != |DATE|;
    assert FieldsOf(now, date)[RECORD] == Array(now.record);
  }

  // ---- what readers hold -----------------------------------------------------------------

  /** The date each side of a reader's copy was last written on. */
  datatype Stamps = Stamps(ask: string, bid: string) {
    function At(s: SideName): string {
      if s == Ask then ask else bid
    }
  }

  function OnDate(date: string): Stamps {
    Stamps(date, date)
  }

  function Stamped(n: Natives, d: Stamps): View {
    View(NormalOf(n.ask, d.ask), NormalOf(n.bid, d.bid))
  }

  /** A reader's copy is the normal form of the native state, its sides on the dates `d`. */
  predicate Carries(have: Option<NormalValue>, n: Option<Natives>, d: Stamps) {
    if n.None? then have.None? else have.Some? && ViewOf(have.value) == Stamped(n.value, d)
  }

  /** The reader is at the journal's base: its revision, and what was committed there. */
  predicate AtBase(w: World, e: Entry) {
    e.revision == w.l.sent && Carries(e.value, w.base, OnDate(w.l.sentDate.GetOr("")))
  }

  /** The dates a reader's sides carry once it has taken a frame. */
  function StampsAfter(d: Stamps, f: Frame): Stamps {
    match f.body
    case Full(_) => OnDate(f.date)
    case Delta(p) => Stamps(if Ask in p.sides then f.date else d.ask, if Bid in p.sides then f.date else d.bid)
  }

  /** And once it has been handed one, which it may refuse. */
  function StampsHanded(d: Stamps, e: Entry, f: Frame): Stamps {
    if ApplyEntry(e, f).0 == Returned(true) then StampsAfter(d, f) else d
  }

  /** Readers cannot tell two states of a side apart. */
  predicate LooksSame(was: Native, now: Native) {
    NormalOf(was, "") == NormalOf(now, "")
  }

  lemma SameOnAnyDate(was: Native, now: Native, date: string)
    ensures LooksSame(was, now) <==> NormalOf(was, date) == NormalOf(now, date)
  {
    if was.meta.Some? && now.meta.Some? {
      var a, b := was.meta.value[RECORD := Array(was.record)], now.meta.value[RECORD := Array(now.record)];
      if a[DATE := Text("")] == b[DATE := Text("")] { SameBesides(a, b, DATE, Text(""), Text(date)); }
      if a[DATE := Text(date)] == b[DATE := Text(date)] { SameBesides(a, b, DATE, Text(date), Text("")); }
    }
  }

  lemma SameBesides<K, V>(a: map<K, V>, b: map<K, V>, k: K, x: V, y: V)
    requires a[k := x] == b[k := x]
    ensures a[k := y] == b[k := y]
  {
    assert a[k := y] == a[k := x][k := y] && b[k := y] == b[k := x][k := y];
  }

  lemma ValueNormalizes(names: set<string>, n: Natives, date: string)
    requires WellFormed(names, n.ask) && WellFormed(names, n.bid)
    ensures ViewOf(NormalizeValue(NativeValue(n, date))) == Stamped(n, OnDate(date))
  {
    SnapshotNormalizes(names, n.ask, date);
    SnapshotNormalizes(names, n.bid, date);
    NormalViewOfValue(NativeValue(n, date));
  }

  /** What decides whether one side of a patch frame takes a reader of `was` to `now`: an unnamed one
      must look the same; a named one is written whole if it is gone now or not flagged, and else the
      reader must have it and the marks must cover what changed. */
  ghost predicate SideArrives(l: Ledger, s: SideName, was: Native, now: Native) {
    match l.MarksOf(s)
    case None => LooksSame(was, now)
    case Some(m) => now.meta.None? || !l.Available(s) || (was.meta.Some? && Covers(was, now, m))
  }

  predicate SideDone(was: Option<NormalSide>, p: map<SideName, SidePatch>, s: SideName, want: Option<NormalSide>) {
    if s in p then SideFits(was, p[s]) && ApplySide(was, p[s]) == want else was == want
  }

  lemma SidePatchDelivers(names: set<string>, l: Ledger, s: SideName, was: Natives, now: Natives,
                          from: string, date: string)
    requires WellFormed(names, was.At(s)) && WellFormed(names, now.At(s)) && l.pending.Some?
    ensures s in DirtyPatch(l, now, date).sides <==> l.MarksOf(s).Some?
    ensures var p := DirtyPatch(l, now, date).sides;
            (SideDone(NormalOf(was.At(s), from), p, s, NormalOf(now.At(s), if s in p then date else from))
             <==> SideArrives(l, s, was.At(s), now.At(s)))
  {
    var p := DirtyPatch(l, now, date).sides;
    if s in l.pending.value.sides {
      assert p[s] == SidePatchFor(l, s, now.At(s), date, l.MarksOf(s).value);
      if now.At(s).meta.None? || !l.Available(s) {
        SnapshotNormalizes(names, now.At(s), date);
      } else if was.At(s).meta.Some? {
        ChangeDelivers(names, was.At(s), now.At(s), from, date, l.MarksOf(s).value);
      }
    } else {
      assert s !in p;
      SameOnAnyDate(was.At(s), now.At(s), from);
    }
  }

  ghost predicate BothArrive(l: Ledger, was: Natives, now: Natives) {
    SideArrives(l, Ask, was.ask, now.ask) && SideArrives(l, Bid, was.bid, now.bid)
  }

  function PatchedStamps(d: Stamps, p: map<SideName, SidePatch>, date: string): Stamps {
    Stamps(if Ask in p then date else d.ask, if Bid in p then date else d.bid)
  }

  /** Whatever the ledger, a patch frame takes a reader of `was` to `now`, its sides on the dates they
      were written, exactly when each side arrives. */
  lemma DirtyPatchDelivers(names: set<string>, l: Ledger, was: Natives, now: Natives, d: Stamps, date: string)
    requires WellFormed(names, was.ask) && WellFormed(names, was.bid)
    requires WellFormed(names, now.ask) && WellFormed(names, now.bid)
    requires l.pending.Some?
    ensures var p := DirtyPatch(l, now, date);
            var want := Stamped(now, PatchedStamps(d, p.sides, date));
            (ViewFits(Stamped(was, d), p) && PatchView(Stamped(was, d), p) == want)
            <==> BothArrive(l, was, now)
  {
    var p := DirtyPatch(l, now, date);
    SidePatchDelivers(names, l, Ask, was, now, d.ask, date);
    SidePatchDelivers(names, l, Bid, was, now, d.bid, date);
    PatchedSideBySide(Stamped(was, d), p, Stamped(now, PatchedStamps(d, p.sides, date)));
  }

  lemma PatchedSideBySide(view: View, p: Patch, want: View)
    ensures (ViewFits(view, p) && PatchView(view, p) == want)
       <==> SideDone(view.ask, p.sides, Ask, want.ask) && SideDone(view.bid, p.sides, Bid, want.bid)
  {
    if SideDone(view.ask, p.sides, Ask, want.ask) && SideDone(view.bid, p.sides, Bid, want.bid) {
      forall s | s in p.sides ensures SideFits(view.At(s), p.sides[s]) {
        match s case Ask => case Bid =>
      }
    }
  }

  ghost predicate LookSame(was: Option<Natives>, now: Option<Natives>) {
    && (was.Some? <==> now.Some?)
    && (was.Some? ==> LooksSame(was.value.ask, now.value.ask) && LooksSame(was.value.bid, now.value.bid))
  }

  /** When the frame prepared now takes a reader that holds `was` at the committed revision to `now`,
      for any ledger there may be. */
  ghost predicate Delivers(l: Ledger, was: Option<Natives>, now: Option<Natives>, date: string) {
    if l.source <= l.sent then LookSame(was, now)
    else Patches(l, now, date) ==> was.Some? && BothArrive(l, was.value, now.value)
  }

  lemma CarriesBoth(have: Option<NormalValue>, was: Option<Natives>, now: Option<Natives>, d: Stamps)
    requires Carries(have, was, d)
    ensures Carries(have, now, d) <==> LookSame(was, now)
  {
    if was.Some? && now.Some? {
      SameOnAnyDate(was.value.ask, now.value.ask, d.ask);
      SameOnAnyDate(was.value.bid, now.value.bid, d.bid);
    }
  }

  lemma PatchFrameDelivers(names: set<string>, l: Ledger, key: Key, was: Option<Natives>, now: Option<Natives>,
                           date: string, e: Entry, d: Stamps)
    requires WellFormedBoth(names, was) && WellFormedBoth(names, now)
    requires Patches(l, now, date) && l.pending.Some? && l.source > l.sent
    requires e.revision == l.sent && Carries(e.value, was, d)
    ensures var f := FrameOf(l, key, now, date);
            var (o, e2) := ApplyEntry(e, f);
            ((o == Returned(true) && Carries(e2.value, now, StampsAfter(d, f)))
             <==> was.Some? && BothArrive(l, was.value, now.value))
  {
    var p := DirtyPatch(l, now.value, date);
    if was.Some? {
      DirtyPatchDelivers(names, l, was.value, now.value, d, date);
      PatchingIsSeenByReaders(e.value.value, p);
      if p.sides == map[] { NothingToPatch(e.value.value, p); }
    }
  }

  lemma NothingToPatch(v: NormalValue, p: Patch)
    requires p.sides == map[]
    ensures PatchFits(v, p) && ViewOf(ApplyPatch(v, p)) == ViewOf(v)
  {
  }

  /** A reader that holds a state's side holds it on the date it was written. */
  lemma SideIsOnItsDate(names: set<string>, l: Ledger, s: SideName, was: Natives, now: Natives,
                        from: string, date: string, other: string)
    requires WellFormed(names, was.At(s)) && WellFormed(names, now.At(s)) && l.pending.Some?
    requires SideDone(NormalOf(was.At(s), from), DirtyPatch(l, now, date).sides, s, NormalOf(now.At(s), other))
    ensures NormalOf(now.At(s), other)
         == NormalOf(now.At(s), if s in DirtyPatch(l, now, date).sides then date else from)
  {
    var p := DirtyPatch(l, now, date).sides;
    var want := NormalOf(now.At(s), other);
    if now.At(s).meta.Some? {
      assert want.value.fields[DATE] == Text(other);
      if s in p {
        assert p[s] == SidePatchFor(l, s, now.At(s), date, l.pending.value.sides[s]);
        if p[s].Change? {
          assert |RECORD| != |DATE|;
          assert want.value.fields[DATE] == Text(date);
        } else {
          SnapshotNormalizes(names, now.At(s), date);
        }
      } else {
        assert NormalOf(was.At(s), from).value.fields[DATE] == Text(from);
      }
    }
  }

  lemma PatchIsOnItsDates(names: set<string>, l: Ledger, was: Natives, now: Natives, d: Stamps, date: string,
                          other: Stamps)
    requires WellFormed(names, was.ask) && WellFormed(names, was.bid)
    requires WellFormed(names, now.ask) && WellFormed(names, now.bid)
    requires l.pending.Some?
    requires var p := DirtyPatch(l, now, date);
             ViewFits(Stamped(was, d), p) && PatchView(Stamped(was, d), p) == Stamped(now, other)
    ensures Stamped(now, other) == Stamped(now, PatchedStamps(d, DirtyPatch(l, now, date).sides, date))
  {
    PatchedSideBySide(Stamped(was, d), DirtyPatch(l, now, date), Stamped(now, other));
    SideIsOnItsDate(names, l, Ask, was, now, d.ask, date, other.ask);
    SideIsOnItsDate(names, l, Bid, was, now, d.bid, date, other.bid);
  }

  /** The frame prepared now is taken without raising and leaves the reader with the native state, its
      sides on the dates they were written, exactly when `Delivers` says so. */
  lemma FrameDeliversExactly(names: set<string>, l: Ledger, key: Key, was: Option<Natives>, now: Option<Natives>,
                             date: string, e: Entry, d: Stamps)
    requires WellFormedBoth(names, was) && WellFormedBoth(names, now)
    requires Patches(l, now, date) ==> l.pending.Some?
    requires e.revision == l.sent && Carries(e.value, was, d)
    ensures var f := FrameOf(l, key, now, date);
            var (o, e2) := ApplyEntry(e, f);
            (o == Returned(l.source > l.sent) && Carries(e2.value, now, StampsHanded(d, e, f)))
            <==> Delivers(l, was, now, date)
  {
    if l.source <= l.sent {
      CarriesBoth(e.value, was, now, d);
    } else if Patches(l, now, date) {
      PatchFrameDelivers(names, l, key, was, now, date, e, d);
    } else if now.Some? {
      ValueNormalizes(names, now.value, date);
    }
  }

  /** When it does not, the reader does not hold the native state on any other dates either. */
  lemma NotDeliveredOnAnyDate(names: set<string>, l: Ledger, key: Key, was: Option<Natives>, now: Option<Natives>,
                              date: string, e: Entry, d: Stamps, other: Stamps)
    requires WellFormedBoth(names, was) && WellFormedBoth(names, now)
    requires Patches(l, now, date) && l.pending.Some? && l.source > l.sent
    requires e.revision == l.sent && Carries(e.value, was, d) && was.Some? && !Delivers(l, was, now, date)
    requires ApplyEntry(e, FrameOf(l, key, now, date)).0 == Returned(true)
    ensures !Carries(ApplyEntry(e, FrameOf(l, key, now, date)).1.value, now, other)
  {
    var p, e2 := DirtyPatch(l, now.value, date), ApplyEntry(e, FrameOf(l, key, now, date)).1;
    PatchingIsSeenByReaders(e.value.value, p);
    if p.sides == map[] { NothingToPatch(e.value.value, p); }
    DirtyPatchDelivers(names, l, was.value, now.value, d, date);
    if Carries(e2.value, now, other) {
      PatchIsOnItsDates(names, l, was.value, now.value, d, date, other);
    }
  }

  /** While the journal's account holds, what it prepares is delivered. */
  lemma AccountDelivers(w: World)
    requires LedgerOk(w) && w.l.source >= 1 && (Patches(w.l, w.natives, w.date) ==> w.l.pending.Some?)
    ensures Delivers(w.l, w.base, w.natives, w.date)
  {
    if w.l.source > w.l.sent && Patches(w.l, w.natives, w.date) {
      SideIsAccounted(w, Ask);
      SideIsAccounted(w, Bid);
    }
  }

  lemma SideIsAccounted(w: World, s: SideName)
    requires LedgerOk(w) && Patches(w.l, w.natives, w.date) && w.l.pending.Some?
    ensures w.base.Some? && SideArrives(w.l, s, w.base.value.At(s), w.natives.value.At(s))
  {
    var was, now := w.base.value.At(s), w.natives.value.At(s);
    assert SideAccounted(was, now, w.l.MarksOf(s), w.l.sent) by { match s case Ask => case Bid => }
    if w.l.MarksOf(s).Some? {
      AccountedIsCovered(was, now, w.l.MarksOf(s).value, w.l.sent);
      assert w.l.Available(s) ==> Flagged(w.l.available, s);
    }
  }

  /** The heart of the journal: at whatever moment a frame is prepared, handing it to a reader that
      holds the committed base, on whatever dates, cannot raise and leaves the reader with the native
      state of that moment, in normal form and on the frame's date wherever it was written. */
  lemma PreparedFrameDelivers(w: World, e: Entry, d: Stamps)
    requires LedgerOk(w) && w.l.source >= 1 && (Patches(w.l, w.natives, w.date) ==> w.l.pending.Some?)
    requires e.revision == w.l.sent && Carries(e.value, w.base, d)
    ensures var f := FrameOf(w.l, w.key, w.natives, w.date);
            var (o, e2) := ApplyEntry(e, f);
            && o == Returned(w.l.source > w.l.sent) && e2.revision == w.l.source
            && (o.applied ==> !e2.stale)
            && Carries(e2.value, w.natives, StampsHanded(d, e, f))
  {
    AccountDelivers(w);
    FrameDeliversExactly(w.names, w.l, w.key, w.base, w.natives, w.date, e, d);
  }

  /** A patch frame raises exactly when it changes a side the reader does not have. */
  lemma PatchFitsExactly(names: set<string>, l: Ledger, was: Natives, now: Natives, d: Stamps, date: string)
    requires WellFormed(names, was.ask) && WellFormed(names, was.bid)
    requires WellFormed(names, now.ask) && WellFormed(names, now.bid)
    requires l.pending.Some?
    ensures ViewFits(Stamped(was, d), DirtyPatch(l, now, date))
       <==> forall s :: s in l.pending.value.sides && now.At(s).meta.Some? && l.Available(s) ==> was.At(s).meta.Some?
  {
    var p := DirtyPatch(l, now, date);
    forall s | s in l.pending.value.sides
      ensures SideFits(Stamped(was, d).At(s), p.sides[s])
         <==> (now.At(s).meta.Some? && l.Available(s) ==> was.At(s).meta.Some?)
    {
      assert p.sides[s] == SidePatchFor(l, s, now.At(s), date, l.pending.value.sides[s]);
      if now.At(s).meta.Some? && l.Available(s) && was.At(s).meta.Some? {
        ChangeDelivers(names, was.At(s), now.At(s), d.At(s), date, l.pending.value.sides[s]);
      }
    }
  }

  // ---- every interleaving ----------------------------------------------------------------

  lemma CommittedFlag(flags: SideFlags, body: Body, s: SideName)
    ensures Flagged(AvailableAfter(flags, body), s) ==> Says(body, s).GetOr(Flagged(flags, s))
  {
  }

  lemma PreparedSaysWhatShows(l: Ledger, key: Key, n: Option<Natives>, date: string, s: SideName)
    requires Patches(l, n, date) ==> l.pending.Some?
    ensures var said := Says(FrameOf(l, key, n, date).body, s);
            && (said.Some? ==> said.value == Shows(n, s))
            && (said.None? ==> Patches(l, n, date) && l.MarksOf(s).None?)
  {
    if Patches(l, n, date) {
      var p := DirtyPatch(l, n.value, date);
      if s in l.pending.value.sides {
        assert p.sides[s] == SidePatchFor(l, s, n.value.At(s), date, l.pending.value.sides[s]);
      } else {
        assert s !in p.sides;
      }
    }
  }

  /** A side that is unmarked now is as it was at any revision still accounted for. */
  lemma UnmarkedIsSame(was: Option<Natives>, revision: nat, l: Ledger, now: Option<Natives>, s: SideName)
    requires Accounted(was, revision, l, now) && now.Some? && l.forceFull.None? && l.MarksOf(s).None?
    ensures was.Some? && was.value.At(s) == now.value.At(s)
  {
    match s case Ask => case Bid =>
  }

  lemma PreparedIsSilentOnSame(w: World, was: Option<Natives>, revision: nat, s: SideName)
    requires Patches(w.l, w.natives, w.date) ==> w.l.pending.Some?
    requires Patches(w.l, w.natives, w.date) ==> Accounted(was, revision, w.l, w.natives)
    ensures SilenceIsSame(was, PreparedIn(w), s)
  {
    PreparedSaysWhatShows(w.l, w.key, w.natives, w.date, s);
    if Says(PreparedIn(w).frame.body, s).None? {
      UnmarkedIsSame(was, revision, w.l, w.natives, s);
    }
  }

  lemma PreparedFlightOk(w: World)
    requires Inv(w) && w.l.source >= 1 && (Patches(w.l, w.natives, w.date) ==> w.l.pending.Some?)
    ensures FlightOk(w, PreparedIn(w)) && PairOk(w, PreparedIn(w), PreparedIn(w))
    ensures forall c :: c in w.prepared ==> PairOk(w, c, PreparedIn(w)) && PairOk(w, PreparedIn(w), c)
  {
    var g := PreparedIn(w);
    forall s
      ensures Says(g.frame.body, s).Some? ==> Says(g.frame.body, s).value == Shows(g.natives, s)
      ensures SilenceIsSame(w.base, g, s) && SilenceIsSame(w.natives, g, s)
    {
      PreparedSaysWhatShows(w.l, w.key, w.natives, w.date, s);
      PreparedIsSilentOnSame(w, w.base, w.l.sent, s);
    }
    assert Accounted(w.natives, w.l.source, w.l, w.natives);
    forall c | c in w.prepared ensures PairOk(w, c, g) && PairOk(w, g, c) {
      assert FlightOk(w, c) && PairOk(w, c, c);
      if w.l.sent <= c.frame.revision {
        forall s ensures SilenceIsSame(c.natives, g, s) { PreparedIsSilentOnSame(w, c.natives, c.frame.revision, s); }
      }
    }
  }

  lemma PrepareKeepsInv(w: World, w2: World)
    requires Inv(w) && Next(w, Prepare, w2)
    ensures Inv(w2)
  {
    PreparedFlightOk(w);
    forall c | c in w2.prepared ensures FlightOk(w2, c) { OneFlightOk(w, c, w2); }
    forall c, h | c in w2.prepared && h in w2.prepared ensures PairOk(w2, c, h) { OnePairOk(w, c, h, w2); }
  }

  lemma OneFlightOk(w: World, c: Flight, w2: World)
    requires Inv(w) && w.l.source >= 1 && (Patches(w.l, w.natives, w.date) ==> w.l.pending.Some?)
    requires w2 == w.(prepared := w2.prepared) && (c in w.prepared || c == PreparedIn(w))
    ensures FlightOk(w2, c)
  {
    PreparedFlightOk(w);
    assert FlightOk(w, c);
  }

  lemma OnePairOk(w: World, c: Flight, h: Flight, w2: World)
    requires Inv(w) && w.l.source >= 1 && (Patches(w.l, w.natives, w.date) ==> w.l.pending.Some?)
    requires w2 == w.(prepared := w2.prepared)
    requires (c in w.prepared || c == PreparedIn(w)) && (h in w.prepared || h == PreparedIn(w))
    ensures PairOk(w2, c, h)
  {
    PreparedFlightOk(w);
    assert PairOk(w, c, h);
  }

  lemma MutateKeepsInv(w: World, natives: Option<Natives>, hints: SideHints, full: bool, w2: World)
    requires Inv(w) && Next(w, Mutate(natives, hints, full), w2) && IsOrderly(w, Mutate(natives, hints, full))
    ensures Inv(w2)
  {
    if w.l.sentDate.Some? {
      MutateKeepsAccount(w.base, w.l.sent, w.l, w.natives, natives, hints, full);
    }
    forall g | g in w2.prepared ensures FlightOk(w2, g) {
      assert FlightOk(w, g);
      if g.frame.revision >= w.l.sent {
        MutateKeepsAccount(g.natives, g.frame.revision, w.l, w.natives, natives, hints, full);
      }
    }
    forall c, g | c in w2.prepared && g in w2.prepared ensures PairOk(w2, c, g) {
      assert PairOk(w, c, g);
    }
  }

  lemma CommittedLedgerOk(w: World, g: Flight, w2: World)
    requires Inv(w) && Next(w, Commit(g), w2) && g.frame.revision >= w.l.sent
    ensures LedgerOk(w2)
  {
    assert FlightOk(w, g);
    DropKeepsAccount(g.natives, g.frame.revision, w.l, g.frame.revision, w.natives);
    forall s | Flagged(w2.l.available, s) ensures Shows(w2.base, s) {
      CommittedFlag(w.l.available, g.frame.body, s);
      assert SilenceIsSame(w.base, g, s);
      if Says(g.frame.body, s).None? { assert Shows(w.base, s); }
    }
  }

  lemma CommitKeepsInv(w: World, g: Flight, w2: World)
    requires Inv(w) && Next(w, Commit(g), w2) && g.frame.revision >= w.l.sent
    ensures Inv(w2)
  {
    CommittedLedgerOk(w, g, w2);
    forall c | c in w2.prepared ensures FlightOk(w2, c) {
      assert FlightOk(w, c) && PairOk(w, g, c);
      if c.frame.revision >= g.frame.revision {
        DropKeepsAccount(c.natives, c.frame.revision, w.l, g.frame.revision, w.natives);
      }
    }
    forall c, h | c in w2.prepared && h in w2.prepared ensures PairOk(w2, c, h) {
      assert PairOk(w, c, h);
    }
  }

  lemma OtherStepsKeepInv(w: World, s: Step, w2: World)
    requires Inv(w) && Next(w, s, w2) && IsOrderly(w, s) && (s.Rollover? || s.SendFirst? || s.CommitFirst?)
    ensures Inv(w2)
  {
    forall g | g in w2.prepared ensures FlightOk(w2, g) { assert FlightOk(w, g); }
    forall c, g | c in w2.prepared && g in w2.prepared ensures PairOk(w2, c, g) { assert PairOk(w, c, g); }
  }

  lemma StepKeepsInv(w: World, s: Step, w2: World)
    requires Inv(w) && Next(w, s, w2) && IsOrderly(w, s)
    ensures Inv(w2)
  {
    match s
    case Mutate(natives, hints, full) => MutateKeepsInv(w, natives, hints, full, w2);
    case Prepare => PrepareKeepsInv(w, w2);
    case Commit(g) => CommitKeepsInv(w, g, w2);
    case _ => OtherStepsKeepInv(w, s, w2);
  }

  lemma {:induction false} RunKeepsInv(run: seq<World>, steps: seq<Step>, n: nat)
    requires IsRun(run, steps) && n < |run| && Orderly(run, steps, n)
    ensures Inv(run[n])
  {
    if n > 0 {
      RunKeepsInv(run, steps, n - 1);
      assert Next(run[n - 1], steps[n - 1], run[n]) && IsOrderly(run[n - 1], steps[n - 1]);
      StepKeepsInv(run[n - 1], steps[n - 1], run[n]);
    }
  }

  /** A key with nothing pending has been delivered: what was committed last is what there is. */
  lemma IdleMeansDelivered(run: seq<World>, steps: seq<Step>, n: nat)
    requires IsRun(run, steps) && n < |run| && Orderly(run, steps, n)
    requires run[n].l.pending.None? && run[n].l.sentDate.Some?
    ensures run[n].l.sent == run[n].l.source && run[n].base == run[n].natives
  {
    RunKeepsInv(run, steps, n);
  }

  // ---- runs that are not orderly ---------------------------------------------------------

  ghost predicate Typed(w: World) {
    && WellFormedBoth(w.names, w.natives) && WellFormedBoth(w.names, w.base)
    && (forall g :: g in w.prepared ==> WellFormedBoth(w.names, g.natives))
    && (forall n :: n in w.firsts ==> WellFormedBoth(w.names, Some(n)))
  }

  lemma {:induction false} RunIsTyped(run: seq<World>, steps: seq<Step>, n: nat)
    requires IsRun(run, steps) && n < |run|
    ensures Typed(run[n])
  {
    if n > 0 {
      RunIsTyped(run, steps, n - 1);
      assert Next(run[n - 1], steps[n - 1], run[n]);
    }
  }

  /** In any run at all, commits that go back and records at a first frame's yield included: whether
      the frame prepared now takes a reader at the committed base to the native state is decided by
      `Delivers`. */
  lemma AnyRunDeliversExactly(run: seq<World>, steps: seq<Step>, n: nat, e: Entry, d: Stamps)
    requires IsRun(run, steps) && n < |steps| && steps[n].Prepare?
    requires e.revision == run[n].l.sent && Carries(e.value, run[n].base, d)
    ensures var w := run[n];
            && (Patches(w.l, w.natives, w.date) ==> w.l.pending.Some?)
            && var f := FrameOf(w.l, w.key, w.natives, w.date);
            var (o, e2) := ApplyEntry(e, f);
            (o == Returned(w.l.source > w.l.sent) && Carries(e2.value, w.natives, StampsHanded(d, e, f)))
            <==> Delivers(w.l, w.base, w.natives, w.date)
  {
    var w := run[n];
    RunIsTyped(run, steps, n);
    assert Next(w, steps[n], run[n + 1]);
    FrameDeliversExactly(w.names, w.l, w.key, w.base, w.natives, w.date, e, d);
  }

  /** What a commit must find for the frame prepared after it to deliver: of a side that is marked, there
      and flagged, a mark newer than the committed frame for whatever changed since it was prepared. */
  ghost predicate StillOnRecord(l: Ledger, g: Flight, s: SideName, was: Native, now: Native) {
    match l.MarksOf(s)
    case None => LooksSame(was, now)
    case Some(m) =>
      || now.meta.None? || !Flagged(AvailableAfter(l.available, g.frame.body), s)
      || (was.meta.Some? && Covers(was, now, Newer(m, g.frame.revision)))
  }

  ghost predicate CommitDelivers(w: World, g: Flight) {
    if w.l.source <= g.frame.revision then LookSame(g.natives, w.natives)
    else
      w.natives.None? || g.frame.date != w.date || (w.l.forceFull.Some? && w.l.forceFull.value > g.frame.revision)
      || (g.natives.Some? && forall s :: StillOnRecord(w.l, g, s, g.natives.value.At(s), w.natives.value.At(s)))
  }

  /** Exactly when a commit still delivers, in any run and whether it goes back or not: a reader of the
      frame committed, handed the one prepared after the commit. */
  lemma CommitDeliversExactly(run: seq<World>, steps: seq<Step>, n: nat, e: Entry, d: Stamps)
    requires IsRun(run, steps) && n + 1 < |steps| && steps[n].Commit? && steps[n + 1].Prepare?
    requires e.revision == steps[n].g.frame.revision && Carries(e.value, steps[n].g.natives, d)
    ensures var w := run[n + 1];
            && (Patches(w.l, w.natives, w.date) ==> w.l.pending.Some?)
            && var f := FrameOf(w.l, w.key, w.natives, w.date);
            var (o, e2) := ApplyEntry(e, f);
            (o == Returned(w.l.source > w.l.sent) && Carries(e2.value, w.natives, StampsHanded(d, e, f)))
            <==> CommitDelivers(run[n], steps[n].g)
  {
    var w, g, w2 := run[n], steps[n].g, run[n + 1];
    assert Next(w, steps[n], w2) && Next(w2, steps[n + 1], run[n + 2]);
    AnyRunDeliversExactly(run, steps, n + 1, e, d);
    if w.l.source > g.frame.revision && w2.natives.Some? && g.natives.Some? && w.l.pending.Some? {
      SideStillArrives(w.l, g, Ask, g.natives.value.ask, w.natives.value.ask);
      SideStillArrives(w.l, g, Bid, g.natives.value.bid, w.natives.value.bid);
      var was, now := g.natives.value, w.natives.value;
      assert (forall s :: StillOnRecord(w.l, g, s, was.At(s), now.At(s)))
        <==> StillOnRecord(w.l, g, Ask, was.ask, now.ask) && StillOnRecord(w.l, g, Bid, was.bid, now.bid) by {
        BothSides(w.l, g, was, now);
      }
    }
  }

  lemma BothSides(l: Ledger, g: Flight, was: Natives, now: Natives)
    ensures (forall s :: StillOnRecord(l, g, s, was.At(s), now.At(s)))
       <==> StillOnRecord(l, g, Ask, was.At(Ask), now.At(Ask)) && StillOnRecord(l, g, Bid, was.At(Bid), now.At(Bid))
  {
    if StillOnRecord(l, g, Ask, was.At(Ask), now.At(Ask)) && StillOnRecord(l, g, Bid, was.At(Bid), now.At(Bid)) {
      forall s ensures StillOnRecord(l, g, s, was.At(s), now.At(s)) {
        match s case Ask => case Bid =>
      }
    }
  }

  lemma SideStillArrives(l: Ledger, g: Flight, s: SideName, was: Native, now: Native)
    requires l.source > g.frame.revision && l.pending.Some?
    ensures SideArrives(CommitInLedger(l, g.frame), s, was, now) <==> StillOnRecord(l, g, s, was, now)
  {
    var after := CommitInLedger(l, g.frame);
    assert after.MarksOf(s) == if l.MarksOf(s).None? then None else Some(Newer(l.MarksOf(s).value, g.frame.revision));
  }

  // ---- the assumptions are needed --------------------------------------------------------

  /** A key whose removal was delivered takes its next frame exactly when that frame is not a
      patch of some side: when it is removed again, or came back with `full` or on a new date. */
  lemma RemovedKeyNeedsFull(l: Ledger, key: Key, n: Option<Natives>, date: string, e: Entry)
    requires l.pending.Some? && l.source > l.sent && e.revision == l.sent && e.value.None?
    ensures ApplyEntry(e, FrameOf(l, key, n, date)).0.Returned?
       <==> n.None? || l.sentDate != Some(date) || l.forceFull.Some? || l.pending.value.sides == map[]
  {
    if n.Some? && l.sentDate == Some(date) && l.forceFull.None? {
      var p := DirtyPatch(l, n.value, date);
      assert p.sides.Keys == l.pending.value.sides.Keys;
      if l.pending.value.sides == map[] {
        assert p.sides == map[];
      } else {
        assert l.pending.value.sides.Keys != {};
      }
    }
  }

  /** A changed minute nothing marks is not delivered. */
  lemma UnmarkedMinuteStaysBehind(names: set<string>, was: Native, now: Native, from: string, date: string, m: Marks,
                                  f: MinuteField, x: int)
    requires WellFormed(names, was) && WellFormed(names, now) && was.meta.Some? && now.meta.Some?
    requires x !in m.Minutes(f) && Lookup(was.Bars(f), x) != Lookup(now.Bars(f), x)
    ensures SideFits(NormalOf(was, from), ChangeOf(now, date, m))
    ensures ApplySide(NormalOf(was, from), ChangeOf(now, date, m)) != NormalOf(now, date)
  {
    ChangeDelivers(names, was, now, from, date, m);
  }

  /** A side that was emptied and filled again, and is named without a minute it lost: it arrives
      exactly when what was committed last, and so what the reader holds, is the emptied side. */
  lemma RefilledSideArrives(names: set<string>, l: Ledger, s: SideName, was: Natives, now: Natives,
                            from: string, date: string, f: MinuteField, x: int)
    requires WellFormed(names, was.At(s)) && WellFormed(names, now.At(s)) && now.At(s).meta.Some?
    requires l.pending.Some? && s in l.pending.value.sides && l.Available(s) == was.At(s).meta.Some?
    requires x !in now.At(s).Bars(f) && x !in l.pending.value.sides[s].Minutes(f)
    requires was.At(s).meta.Some? ==> x in was.At(s).Bars(f)
    ensures s in DirtyPatch(l, now, date).sides
    ensures (SideDone(NormalOf(was.At(s), from), DirtyPatch(l, now, date).sides, s, NormalOf(now.At(s), date))
             <==> was.At(s).meta.None?)
  {
    SidePatchDelivers(names, l, s, was, now, from, date);
    if was.At(s).meta.Some? {
      assert Lookup(was.At(s).Bars(f), x) != Lookup(now.At(s).Bars(f), x);
    }
  }
}
