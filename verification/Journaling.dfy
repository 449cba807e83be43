/** The sending end that never builds a day's snapshot: dirty markers, each stamped with the
    source revision that set it, say what to read out of the native state when a frame is due. */
module Journaling {
  import opened Wrappers
  import opened Ordering
  import opened Peaks
  import opened Replication

  const RECORD := "all_record_peaks"
  const DATE := "date"

  // ---- native state and its snapshot ---------------------------------------------------

  /** One side of a native state. `meta` is what its snapshot writes besides the histories, and
      is missing while the side has seen no peak; it is computed from neither history. */
  datatype Native = Native(meta: Option<map<string, Json>>, bars: map<MinuteField, map<int, Point>>, record: seq<Point>)
  {
    function Bars(f: MinuteField): map<int, Point> {
      if f in bars then bars[f] else map[]
    }
  }

  datatype Natives = Natives(ask: Native, bid: Native) {
    function At(s: SideName): Native {
      if s == Ask then ask else bid
    }
  }

  /** Every snapshot writes the same scalar names, and files each point under its own minute. */
  predicate WellFormed(names: set<string>, n: Native) {
    && DATE !in names && RECORD !in names
    && (n.meta.Some? ==> n.meta.value.Keys == names)
    && n.bars.Keys == MINUTE_FIELDS
    && forall f :: f in n.bars ==> Keyed(n.bars[f])
  }

  predicate WellFormedBoth(names: set<string>, n: Option<Natives>) {
    n.Some? ==> WellFormed(names, n.value.ask) && WellFormed(names, n.value.bid)
  }

  function FieldsOf(n: Native, date: string): map<string, Json>
    requires n.meta.Some?
  {
    n.meta.value[RECORD := Array(n.record)][DATE := Text(date)]
  }

  /** `{"date": date, **native.snapshot()}`, or `null` */
  function DatedSnapshot(n: Native, date: string): Option<Side> {
    if n.meta.None? then None
    else Some(Side(FieldsOf(n, date), map f | f in n.bars :: SortedPoints(n.bars[f])))
  }

  function NativeValue(n: Natives, date: string): Value {
    Value(map s | s in {Ask, Bid} :: DatedSnapshot(n.At(s), date))
  }

  function NormalOf(n: Native, date: string): Option<NormalSide> {
    if n.meta.None? then None else Some(NormalSide(FieldsOf(n, date), n.bars))
  }

  lemma SnapshotNormalizes(names: set<string>, n: Native, date: string)
    requires WellFormed(names, n)
    ensures Normalize(DatedSnapshot(n, date)) == NormalOf(n, date)
  {
    if n.meta.Some? {
      var side := DatedSnapshot(n, date).value;
      forall f | f in MINUTE_FIELDS ensures ByMinute(SortedPoints(n.bars[f])) == n.bars[f] {
        ByMinuteUndoesSort(n.bars[f]);
      }
      assert Normalize(Some(side)).value.minutes == n.bars;
    }
  }

  // ---- markers -------------------------------------------------------------------------

  /** Dirty minutes and dirty record indices of a side, each with the revision that set it. */
  datatype Marks = Marks(minutes: map<MinuteField, map<int, nat>>, record: map<nat, nat>) {
    function Minutes(f: MinuteField): map<int, nat> {
      if f in minutes then minutes[f] else map[]
    }
  }

  datatype Hints = Hints(minutes: map<MinuteField, set<int>>, record: set<nat>) {
    function Minutes(f: MinuteField): set<int> {
      if f in minutes then minutes[f] else {}
    }
  }

  datatype SideHints = SideHints(sides: map<SideName, Hints>)
  datatype SideFlags = SideFlags(sides: map<SideName, bool>)
  datatype Pending = Pending(sides: map<SideName, Marks>)

  /** `dict.update(dict.fromkeys(marked, version))` */
  function Stamp<K>(marks: map<K, nat>, marked: set<K>, version: nat): map<K, nat> {
    map k | k in marks.Keys + marked :: if k in marked then version else marks[k]
  }

  function Merge(m: Marks, h: Hints, version: nat): Marks {
    Marks(map f | f in m.minutes.Keys + h.minutes.Keys :: Stamp(m.Minutes(f), h.Minutes(f), version),
          Stamp(m.record, h.record, version))
  }

  function Newer(m: Marks, revision: nat): Marks {
    Marks(map f | f in m.minutes :: map x | x in m.minutes[f] && m.minutes[f][x] > revision :: m.minutes[f][x],
          map i | i in m.record && m.record[i] > revision :: m.record[i])
  }

  /** What is on record of a side once its hints, if any, have been added. */
  function MergeMarks(marks: Option<Marks>, h: Option<Hints>, version: nat): Marks {
    var m := marks.GetOr(Marks(map[], map[]));
    if h.None? then m else Merge(m, h.value, version)
  }

  function MergeSides(sides: map<SideName, Marks>, hints: SideHints, version: nat): Pending {
    Pending(map s | s in sides.Keys + hints.sides.Keys ::
              MergeMarks(Lookup(sides, s), Lookup(hints.sides, s), version))
  }

  function NewerSides(p: Pending, revision: nat): Pending {
    Pending(map s | s in p.sides :: Newer(p.sides[s], revision))
  }

  /** The journal's dictionaries read at one key. */
  datatype Ledger = Ledger(source: nat, sent: nat, sentDate: Option<string>, forceFull: Option<nat>,
                           available: SideFlags, pending: Option<Pending>)
  {
    function Available(s: SideName): bool {
      s in available.sides && available.sides[s]
    }

    function MarksOf(s: SideName): Option<Marks> {
      if pending.None? then None else Lookup(pending.value.sides, s)
    }
  }

  function RecordInLedger(l: Ledger, hints: SideHints, full: bool): Ledger {
    var revision := l.source + 1;
    l.(source := revision,
       forceFull := if full then Some(revision) else l.forceFull,
       pending := Some(MergeSides(l.pending.GetOr(Pending(map[])).sides, hints, revision)))
  }

  function MinutePatch(dirty: map<int, nat>, now: map<int, Point>): MapPatch<int, Point> {
    MapPatch(map x | x in dirty && x in now :: now[x], set x | x in dirty && x !in now)
  }

  function ScalarsOf(n: Native, date: string): map<string, Json>
    requires n.meta.Some?
  {
    n.meta.value[DATE := Text(date)]
  }

  function ChangeOf(n: Native, date: string, m: Marks): SidePatch
    requires n.meta.Some?
  {
    Change(MapPatch(ScalarsOf(n, date), {}),
           map f | f in m.minutes :: MinutePatch(m.minutes[f], n.Bars(f)),
           if m.record == map[] then map[]
           else map[RECORD := Splice(Least(m.record.Keys), Suffix(n.record, Least(m.record.Keys)))])
  }

  function SidePatchFor(l: Ledger, s: SideName, n: Native, date: string, m: Marks): SidePatch {
    if n.meta.None? || !l.Available(s) then Replace(DatedSnapshot(n, date)) else ChangeOf(n, date, m)
  }

  function DirtyPatch(l: Ledger, n: Natives, date: string): Patch
    requires l.pending.Some?
  {
    Patch(map s | s in l.pending.value.sides :: SidePatchFor(l, s, n.At(s), date, l.pending.value.sides[s]))
  }

  /** Only a patch reads the markers. */
  predicate Patches(l: Ledger, n: Option<Natives>, date: string) {
    n.Some? && l.sentDate == Some(date) && l.forceFull.None?
  }

  function BodyFor(l: Ledger, n: Option<Natives>, date: string): Body
    requires Patches(l, n, date) ==> l.pending.Some?
  {
    if n.None? then Full(None)
    else if l.sentDate != Some(date) || l.forceFull.Some? then Full(Some(NativeValue(n.value, date)))
    else Delta(DirtyPatch(l, n.value, date))
  }

  function FrameOf(l: Ledger, key: Key, n: Option<Natives>, date: string): Frame
    requires Patches(l, n, date) ==> l.pending.Some?
  {
    Frame("experiment", 1, key, l.sent, l.source, n.None?, date, BodyFor(l, n, date))
  }

  function AvailableAfter(available: SideFlags, body: Body): SideFlags {
    match body
    case Full(None) => SideFlags(map[])
    case Full(Some(v)) => SideFlags(map s | s in v.sides :: v.sides[s].Some?)
    case Delta(p) => SideFlags(available.sides + map s | s in p.sides && p.sides[s].Replace? :: p.sides[s].value.Some?)
  }

  /** Dropping what was sent; a key with nothing pending raises here and keeps it so. */
  function DropFromLedger(l: Ledger, revision: nat): Ledger {
    l.(forceFull := if l.forceFull.Some? && l.forceFull.value <= revision then None else l.forceFull,
       pending := if l.pending.None? || l.source <= revision then None else Some(NewerSides(l.pending.value, revision)))
  }

  function CommitInLedger(l: Ledger, f: Frame): Ledger {
    DropFromLedger(l.(sent := f.revision, sentDate := Some(f.date), available := AvailableAfter(l.available, f.body)),
                   f.revision)
  }

  /** A key's first full frame, from the value given to `initial_frames`. */
  function FirstFrame(key: Key, n: Natives, date: string): Frame {
    Frame("experiment", 1, key, 0, 1, false, date, Full(Some(NativeValue(n, date))))
  }

  /** Once it is out; what was recorded before keeps its marks, and its revision is forgotten. */
  function InitialLedger(l: Ledger, n: Natives, date: string): Ledger {
    l.(source := 1, sent := 1, sentDate := Some(date),
       available := SideFlags(map s | s in {Ask, Bid} :: n.At(s).meta.Some?))
  }

  datatype JournalState = JournalState(
    states: map<Key, Natives>, date: string,
    source: map<Key, nat>, sent: map<Key, nat>, sentDates: map<Key, string>, forceFull: map<Key, nat>,
    available: map<Key, SideFlags>, pending: map<Key, Pending>)
  {
    function At(k: Key): Ledger {
      Ledger(Count(source, k), Count(sent, k), Lookup(sentDates, k), Lookup(forceFull, k),
             Lookup(available, k).GetOr(SideFlags(map[])), Lookup(pending, k))
    }
  }

  class NativeJournal {
    var states: map<Key, Natives>
    var date: string
    var sourceRevisions: map<Key, nat>
    var sent: map<Key, nat>
    var sentDates: map<Key, string>
    var forceFull: map<Key, nat>
    var available: map<Key, SideFlags>
    var pending: map<Key, Pending>

    function State(): JournalState
      reads this
    {
      JournalState(states, date, sourceRevisions, sent, sentDates, forceFull, available, pending)
    }

    predicate Valid()
      reads this
    {
      pending.Keys <= sourceRevisions.Keys
    }

    constructor (states: map<Key, Natives>, date: string)
      ensures this.states == states && this.date == date
      ensures forall k :: State().At(k) == Ledger(0, 0, None, None, SideFlags(map[]), None)
    {
      this.states, this.date := states, date;
      sourceRevisions, sent, sentDates, forceFull, available, pending := map[], map[], map[], map[], map[], map[];
    }

    /** One key of `record`: native mutation and this call happen together. */
    method RecordKey(key: Key, hints: SideHints, full: bool)
      modifies this`sourceRevisions, this`forceFull, this`pending
      ensures State().At(key) == RecordInLedger(old(State()).At(key), hints, full)
      ensures forall k :: k != key ==> State().At(k) == old(State()).At(k)
      ensures old(Valid()) ==> Valid()
    {
      var revision := Count(sourceRevisions, key) + 1;
      sourceRevisions := sourceRevisions[key := revision];
      if full {
        forceFull := forceFull[key := revision];
      }
      var were := if key in pending then pending[key] else Pending(map[]);
      pending := pending[key := MergeSides(were.sides, hints, revision)];
    }

    method Record(hints: map<Key, SideHints>, full: bool)
      requires Valid()
      modifies this`sourceRevisions, this`forceFull, this`pending
      ensures Valid()
      ensures forall k :: State().At(k) ==
                if k in hints then RecordInLedger(old(State()).At(k), hints[k], full) else old(State()).At(k)
    {
      var todo := hints.Keys;
      ghost var done: set<Key> := {};
      while todo != {}
        invariant done !! todo && done + todo == hints.Keys && Valid()
        invariant forall k :: State().At(k) ==
                    if k in done then RecordInLedger(old(State()).At(k), hints[k], full) else old(State()).At(k)
        decreases todo
      {
        var key :| key in todo;
        RecordKey(key, hints[key], full);
        todo, done := todo - {key}, done + {key};
      }
      assert done == hints.Keys;
    }

    method Prepare(key: Key) returns (frame: Frame)
      requires key in sourceRevisions
      requires Patches(State().At(key), Lookup(states, key), date) ==> key in pending
      ensures frame == FrameOf(State().At(key), key, Lookup(states, key), date)
    {
      var revision := sourceRevisions[key];
      var base := Count(sent, key);
      if key !in states {
        return Frame("experiment", 1, key, base, revision, true, date, Full(None));
      }
      if (key !in sentDates || sentDates[key] != date) || key in forceFull {
        return Frame("experiment", 1, key, base, revision, false, date, Full(Some(NativeValue(states[key], date))));
      }
      frame := Frame("experiment", 1, key, base, revision, false, date,
                     Delta(DirtyPatch(State().At(key), states[key], date)));
    }

    /** What `initial_frames` does for a key once its frame is out. */
    method CommitFirst(key: Key, value: Natives)
      requires Valid()
      modifies this`sourceRevisions, this`sent, this`sentDates, this`available
      ensures Valid()
      ensures State().At(key) == InitialLedger(old(State()).At(key), value, date)
      ensures forall k :: k != key ==> State().At(k) == old(State()).At(k)
    {
      sourceRevisions, sent := sourceRevisions[key := 1], sent[key := 1];
      sentDates := sentDates[key := date];
      available := available[key := SideFlags(map s | s in {Ask, Bid} :: value.At(s).meta.Some?)];
    }

    /** A key that is no longer pending raises a `KeyError` half way, with the base already moved. */
    method Commit(frame: Frame) returns (raised: bool)
      requires Valid()
      modifies this`sent, this`sentDates, this`available, this`forceFull, this`pending
      ensures Valid()
      ensures raised <==> frame.key !in old(pending)
      ensures State().At(frame.key) == CommitInLedger(old(State()).At(frame.key), frame)
      ensures forall k :: k != frame.key ==> State().At(k) == old(State()).At(k)
    {
      var key, revision := frame.key, frame.revision;
      sent, sentDates := sent[key := revision], sentDates[key := frame.date];
      var was := if key in available then available[key] else SideFlags(map[]);
      available := available[key := AvailableAfter(was, frame.body)];
      raised := DropMarkers(key, revision);
    }

    /** What was sent is no longer dirty; what was marked after it was prepared still is. */
    method DropMarkers(key: Key, revision: nat) returns (raised: bool)
      requires Valid()
      modifies this`forceFull, this`pending
      ensures Valid()
      ensures raised <==> key !in old(pending)
      ensures State().At(key) == DropFromLedger(old(State()).At(key), revision)
      ensures forall k :: k != key ==> State().At(k) == old(State()).At(k)
    {
      if key in forceFull && forceFull[key] <= revision {
        forceFull := forceFull - {key};
      }
      if key !in pending {
        return true;
      }
      if sourceRevisions[key] <= revision {
        pending := pending - {key};
      } else {
        pending := pending[key := NewerSides(pending[key], revision)];
      }
      return false;
    }
  }
}
