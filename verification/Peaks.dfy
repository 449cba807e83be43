/** The peak histories that travel between the collector and its parent: their wire form,
    the per-minute normal form both ends diff and patch, and the diff and patch themselves.

    A JSON side is an object whose keys are split here by whether they name one of the three
    per-minute lists. Absent lists are empty lists, an absent side reads as `null`. */
module Peaks {
  import opened Wrappers

  datatype Key = Key(code: string, venue: string)

  datatype SideName = Ask | Bid
  datatype MinuteField = TradedBar | AllBar | UnreachedBar

  const MINUTE_FIELDS: set<MinuteField> := {TradedBar, AllBar, UnreachedBar}
  const MINUTE_MS := 60_000

  datatype Point = Point(price: int, qty: int, t_ms: int)
  datatype Json = Null | Number(n: int) | Text(s: string) | Array(points: seq<Point>)

  datatype Side = Side(fields: map<string, Json>, bars: map<MinuteField, seq<Point>>)
  datatype NormalSide = NormalSide(fields: map<string, Json>, minutes: map<MinuteField, map<int, Point>>)

  datatype Value = Value(sides: map<SideName, Option<Side>>)
  datatype NormalValue = NormalValue(sides: map<SideName, Option<NormalSide>>)

  /** What a reader of a key sees: both sides, a missing one being `null`. */
  datatype View = View(ask: Option<NormalSide>, bid: Option<NormalSide>) {
    function At(side: SideName): Option<NormalSide> {
      if side == Ask then ask else bid
    }
  }

  function MinuteOf(p: Point): int {
    p.t_ms / MINUTE_MS
  }

  function GetSide(v: Value, side: SideName): Option<Side> {
    if side in v.sides then v.sides[side] else None
  }

  function GetNormal(v: NormalValue, side: SideName): Option<NormalSide> {
    if side in v.sides then v.sides[side] else None
  }

  function ViewOf(v: NormalValue): View {
    View(GetNormal(v, Ask), GetNormal(v, Bid))
  }

  // ---- normal form -------------------------------------------------------------------

  /** Later points of a minute replace earlier ones. */
  function ByMinute(ps: seq<Point>): map<int, Point> {
    if ps == [] then map[] else
      var last := ps[|ps| - 1];
      ByMinute(ps[..|ps| - 1])[MinuteOf(last) := last]
  }

  function Normalize(side: Option<Side>): Option<NormalSide> {
    match side
    case None => None
    case Some(s) =>
      Some(NormalSide(
             s.fields,
             map f | f in MINUTE_FIELDS :: ByMinute(if f in s.bars then s.bars[f] else [])))
  }

  function NormalizeValue(v: Value): NormalValue {
    NormalValue(map s | s in v.sides :: Normalize(v.sides[s]))
  }

  function NormalView(v: Value): View {
    View(Normalize(GetSide(v, Ask)), Normalize(GetSide(v, Bid)))
  }

  lemma NormalViewOfValue(v: Value)
    ensures ViewOf(NormalizeValue(v)) == NormalView(v)
  {
  }

  // ---- wire form ---------------------------------------------------------------------

  predicate NotAfter(m: map<int, Point>, j: int, k: int)
    requires j in m && k in m
  {
    m[j].t_ms < m[k].t_ms || (m[j].t_ms == m[k].t_ms && j <= k)
  }

  lemma EarliestExists(m: map<int, Point>)
    requires m != map[]
    ensures exists k :: k in m && forall j :: j in m ==> NotAfter(m, k, j)
  {
    assert exists x :: x in m by {
      if forall x :: x !in m { assert false; }
    }
    var x :| x in m;
    var rest := m - {x};
    assert rest.Keys == m.Keys - {x};
    if rest == map[] {
      assert forall j :: j in m ==> j == x || j in rest.Keys;
      assert x in m && forall j :: j in m ==> NotAfter(m, x, j);
    } else {
      EarliestExists(rest);
      var k :| k in rest && forall j :: j in rest ==> NotAfter(rest, k, j);
      assert forall j :: j in m ==> j == x || j in rest;
      var least := if NotAfter(m, k, x) then k else x;
      forall j | j in m ensures NotAfter(m, least, j) {
        if j != x { assert NotAfter(rest, k, j); }
      }
    }
  }

  function Earliest(m: map<int, Point>): (k: int)
    requires m != map[]
    ensures k in m && forall j :: j in m ==> NotAfter(m, k, j)
  {
    EarliestExists(m);
    var k :| k in m && forall j :: j in m ==> NotAfter(m, k, j);
    k
  }

  /** `sorted(points.values(), key=t_ms)`; a tie, which keyed maps never have, falls to the key. */
  function SortedPoints(m: map<int, Point>): (ps: seq<Point>)
    ensures |ps| == |m|
  {
    if m == map[] then [] else
      var k := Earliest(m);
      assert (m - {k}).Keys == m.Keys - {k};
      [m[k]] + SortedPoints(m - {k})
  }

  function Materialize(side: Option<NormalSide>): Option<Side> {
    match side
    case None => None
    case Some(s) => Some(Side(s.fields, map f | f in s.minutes :: SortedPoints(s.minutes[f])))
  }

  /** Every point sits under its own minute. */
  predicate Keyed(m: map<int, Point>) {
    forall k :: k in m ==> MinuteOf(m[k]) == k
  }

  /** Ascending in time, at most one point a minute: what a native history emits. */
  predicate OnePerMinute(ps: seq<Point>) {
    forall i, j :: 0 <= i < j < |ps| ==> MinuteOf(ps[i]) < MinuteOf(ps[j])
  }

  predicate WellSorted(v: Value) {
    forall s :: s in v.sides && v.sides[s].Some? ==>
      forall f :: f in v.sides[s].value.bars ==> OnePerMinute(v.sides[s].value.bars[f])
  }

  /** A side with its absent lists written out as empty ones. */
  function CanonicalSide(side: Option<Side>): Option<Side> {
    match side
    case None => None
    case Some(s) => Some(Side(s.fields, map f | f in MINUTE_FIELDS :: if f in s.bars then s.bars[f] else []))
  }

  lemma {:induction false} ByMinuteKeyed(ps: seq<Point>)
    ensures Keyed(ByMinute(ps))
    ensures forall k :: k in ByMinute(ps) <==> exists i :: 0 <= i < |ps| && MinuteOf(ps[i]) == k
  {
    if ps != [] {
      var front := ps[..|ps| - 1];
      ByMinuteKeyed(front);
      var last := ps[|ps| - 1];
      forall k | k in ByMinute(ps) ensures exists i :: 0 <= i < |ps| && MinuteOf(ps[i]) == k {
        if k != MinuteOf(last) {
          var i :| 0 <= i < |front| && MinuteOf(front[i]) == k;
          assert MinuteOf(ps[i]) == k;
        }
      }
      forall k | exists i :: 0 <= i < |ps| && MinuteOf(ps[i]) == k ensures k in ByMinute(ps) {
        var i :| 0 <= i < |ps| && MinuteOf(ps[i]) == k;
        if i < |front| { assert MinuteOf(front[i]) == k; }
      }
    }
  }

  /** Prepending an earlier minute adds exactly its entry. */
  lemma {:induction false} ByMinuteCons(p: Point, tail: seq<Point>)
    requires forall q :: q in tail ==> MinuteOf(p) < MinuteOf(q)
    ensures ByMinute([p] + tail) == ByMinute(tail)[MinuteOf(p) := p]
  {
    if tail == [] {
      assert [p] + tail == [p];
      assert [p][..0] == [];
      assert ByMinute([p][..0]) == map[];
    } else {
      var front := tail[..|tail| - 1];
      ByMinuteCons(p, front);
      assert ([p] + tail)[..|[p] + tail| - 1] == [p] + front;
      assert tail[|tail| - 1] in tail;
    }
  }

  /** Materialising undoes normalising on every strictly ascending list. */
  lemma {:induction false} SortUndoesByMinute(ps: seq<Point>)
    requires OnePerMinute(ps)
    ensures SortedPoints(ByMinute(ps)) == ps
  {
    if ps != [] {
      var p, tail := ps[0], ps[1..];
      assert ps == [p] + tail;
      forall i | 0 <= i < |tail| ensures MinuteOf(p) < MinuteOf(tail[i]) {
        assert tail[i] == ps[i + 1];
      }
      ByMinuteCons(p, tail);
      ByMinuteKeyed(tail);
      EarliestIsFirst(p, ByMinute(tail));
      TailStaysAscending(ps);
      SortUndoesByMinute(tail);
    }
  }

  lemma TailStaysAscending(ps: seq<Point>)
    requires OnePerMinute(ps) && ps != []
    ensures OnePerMinute(ps[1..])
  {
    forall i, j | 0 <= i < j < |ps[1..]| ensures MinuteOf(ps[1..][i]) < MinuteOf(ps[1..][j]) {
      assert ps[1..][i] == ps[i + 1] && ps[1..][j] == ps[j + 1];
    }
  }

  lemma EarliestIsFirst(p: Point, rest: map<int, Point>)
    requires Keyed(rest) && forall j :: j in rest ==> MinuteOf(p) < j
    ensures SortedPoints(rest[MinuteOf(p) := p]) == [p] + SortedPoints(rest)
  {
    var m := rest[MinuteOf(p) := p];
    var k := Earliest(m);
    assert NotAfter(m, k, MinuteOf(p));
    assert m - {MinuteOf(p)} == rest;
  }

  lemma {:induction false} SortedPointsMembers(m: map<int, Point>)
    ensures forall p :: p in SortedPoints(m) ==> exists k :: k in m && m[k] == p
    decreases |m|
  {
    if m != map[] {
      var k := Earliest(m);
      assert (m - {k}).Keys == m.Keys - {k};
      SortedPointsMembers(m - {k});
    }
  }

  lemma EarliestComesFirst(m: map<int, Point>, k: int)
    requires Keyed(m) && k in m && forall j :: j in m ==> NotAfter(m, k, j)
    ensures forall q :: q in SortedPoints(m - {k}) ==> MinuteOf(m[k]) < MinuteOf(q)
  {
    forall q | q in SortedPoints(m - {k}) ensures MinuteOf(m[k]) < MinuteOf(q) {
      SortedPointsMembers(m - {k});
      var j :| j in m - {k} && (m - {k})[j] == q;
      assert NotAfter(m, k, j);
    }
  }

  /** The list of a keyed map: strictly ascending, and it normalises back to the map. */
  lemma {:induction false} ByMinuteUndoesSort(m: map<int, Point>)
    requires Keyed(m)
    ensures OnePerMinute(SortedPoints(m))
    ensures ByMinute(SortedPoints(m)) == m
    decreases |m|
  {
    if m != map[] {
      var k := Earliest(m);
      var rest := m - {k};
      assert rest.Keys == m.Keys - {k};
      ByMinuteUndoesSort(rest);
      var tail := SortedPoints(rest);
      EarliestComesFirst(m, k);
      PrependEarlier(m[k], tail);
      ByMinuteCons(m[k], tail);
      assert m == rest[k := m[k]];
      assert SortedPoints(m) == [m[k]] + tail;
    }
  }

  lemma PrependEarlier(p: Point, tail: seq<Point>)
    requires OnePerMinute(tail) && forall q :: q in tail ==> MinuteOf(p) < MinuteOf(q)
    ensures OnePerMinute([p] + tail)
  {
    forall i, j | 0 <= i < j < |[p] + tail| ensures MinuteOf(([p] + tail)[i]) < MinuteOf(([p] + tail)[j]) {
      assert ([p] + tail)[j] == tail[j - 1];
    }
  }

  lemma MaterializeUndoesNormalize(side: Option<Side>)
    requires side.Some? ==> forall f :: f in side.value.bars ==> OnePerMinute(side.value.bars[f])
    ensures Materialize(Normalize(side)) == CanonicalSide(side)
  {
    if side.Some? {
      var s := side.value;
      forall f | f in MINUTE_FIELDS
        ensures SortedPoints(ByMinute(if f in s.bars then s.bars[f] else [])) == if f in s.bars then s.bars[f] else []
      {
        SortUndoesByMinute(if f in s.bars then s.bars[f] else []);
      }
      assert Materialize(Normalize(side)).value.bars == CanonicalSide(side).value.bars;
    }
  }

  lemma NormalizeUndoesMaterialize(side: Option<NormalSide>)
    requires side.Some? ==> side.value.minutes.Keys == MINUTE_FIELDS
    requires side.Some? ==> forall f :: f in side.value.minutes ==> Keyed(side.value.minutes[f])
    ensures Normalize(Materialize(side)) == side
  {
    if side.Some? {
      forall f | f in MINUTE_FIELDS ensures ByMinute(SortedPoints(side.value.minutes[f])) == side.value.minutes[f] {
        ByMinuteUndoesSort(side.value.minutes[f]);
      }
      assert Normalize(Materialize(side)).value.minutes == side.value.minutes;
    }
  }

  // ---- patches -----------------------------------------------------------------------

  datatype MapPatch<K, V> = MapPatch(put: map<K, V>, remove: set<K>)

  /** `list[start:] = values` */
  datatype Splice = Splice(start: nat, values: seq<Point>)

  datatype SidePatch =
    | Replace(value: Option<Side>)
    | Change(fields: MapPatch<string, Json>, minutes: map<MinuteField, MapPatch<int, Point>>,
             arrays: map<string, Splice>)

  datatype Patch = Patch(sides: map<SideName, SidePatch>)

  function MappingPatch<K, V(==)>(before: map<K, V>, after: map<K, V>): MapPatch<K, V> {
    MapPatch(map k | k in after && (k !in before || before[k] != after[k]) :: after[k],
             before.Keys - after.Keys)
  }

  function ApplyMapping<K, V>(value: map<K, V>, patch: MapPatch<K, V>): map<K, V> {
    (value + patch.put) - patch.remove
  }

  lemma MappingPatchRoundTrip<K, V>(before: map<K, V>, after: map<K, V>)
    ensures ApplyMapping(before, MappingPatch(before, after)) == after
  {
    var result := ApplyMapping(before, MappingPatch(before, after));
    forall k ensures k in result <==> k in after {
    }
  }

  function Prefix<T>(xs: seq<T>, n: nat): seq<T> {
    if n <= |xs| then xs[..n] else xs
  }

  function Suffix<T>(xs: seq<T>, n: nat): seq<T> {
    if n <= |xs| then xs[n..] else []
  }

  function ApplySplices(fields: map<string, Json>, arrays: map<string, Splice>): map<string, Json>
    requires forall a :: a in arrays ==> a in fields && fields[a].Array?
  {
    map f | f in fields ::
      if f in arrays then Array(Prefix(fields[f].points, arrays[f].start) + arrays[f].values) else fields[f]
  }

  /** Python would raise on anything else: a missing or null side, a missing field, a non-list. */
  predicate ChangeFits(target: Option<NormalSide>, p: SidePatch)
    requires p.Change?
  {
    && target.Some?
    && p.minutes.Keys <= target.value.minutes.Keys
    && var fields := ApplyMapping(target.value.fields, p.fields);
    forall a :: a in p.arrays ==> a in fields && fields[a].Array?
  }

  function ApplyChange(target: NormalSide, p: SidePatch): NormalSide
    requires p.Change? && ChangeFits(Some(target), p)
  {
    NormalSide(
      ApplySplices(ApplyMapping(target.fields, p.fields), p.arrays),
      map f | f in target.minutes ::
        if f in p.minutes then ApplyMapping(target.minutes[f], p.minutes[f]) else target.minutes[f])
  }

  predicate SideFits(target: Option<NormalSide>, p: SidePatch) {
    p.Change? ==> ChangeFits(target, p)
  }

  function ApplySide(target: Option<NormalSide>, p: SidePatch): Option<NormalSide>
    requires SideFits(target, p)
  {
    if p.Replace? then Normalize(p.value) else Some(ApplyChange(target.value, p))
  }

  predicate PatchFits(v: NormalValue, patch: Patch) {
    forall s :: s in patch.sides ==> SideFits(GetNormal(v, s), patch.sides[s])
  }

  function ApplyPatch(v: NormalValue, patch: Patch): NormalValue
    requires PatchFits(v, patch)
  {
    NormalValue(map s | s in v.sides.Keys + patch.sides.Keys ::
                  if s in patch.sides then ApplySide(GetNormal(v, s), patch.sides[s]) else v.sides[s])
  }

  /** Patching and viewing commute, so only what a reader sees matters to a patch. */
  predicate ViewFits(view: View, patch: Patch) {
    forall s :: s in patch.sides ==> SideFits(view.At(s), patch.sides[s])
  }

  function PatchView(view: View, patch: Patch): View
    requires ViewFits(view, patch)
  {
    View(if Ask in patch.sides then ApplySide(view.ask, patch.sides[Ask]) else view.ask,
         if Bid in patch.sides then ApplySide(view.bid, patch.sides[Bid]) else view.bid)
  }

  lemma PatchingIsSeenByReaders(v: NormalValue, patch: Patch)
    ensures PatchFits(v, patch) <==> ViewFits(ViewOf(v), patch)
    ensures PatchFits(v, patch) ==> ViewOf(ApplyPatch(v, patch)) == PatchView(ViewOf(v), patch)
  {
    assert forall s: SideName :: ViewOf(v).At(s) == GetNormal(v, s);
  }

  function SidePatchOf(before: Option<Side>, after: Option<Side>): Option<SidePatch> {
    var was, now := Normalize(before), Normalize(after);
    if was == now then None
    else if was.None? || now.None? || Lookup(was.value.fields, "date") != Lookup(now.value.fields, "date") then
      Some(Replace(after))
    else
      Some(Change(MappingPatch(was.value.fields, now.value.fields),
                  map f | f in MINUTE_FIELDS :: MappingPatch(was.value.minutes[f], now.value.minutes[f]),
                  map[]))
  }

  function PatchOfSides(before: Value, after: Value, sides: seq<SideName>): map<SideName, SidePatch> {
    if sides == [] then map[]
    else
      var change := SidePatchOf(GetSide(before, sides[0]), GetSide(after, sides[0]));
      var rest := PatchOfSides(before, after, sides[1..]);
      if change.None? then rest else rest[sides[0] := change.value]
  }

  function PeakPatch(before: Value, after: Value): Patch {
    Patch(PatchOfSides(before, after, [Ask, Bid]))
  }

  lemma SidePatchRoundTrip(before: Option<Side>, after: Option<Side>)
    ensures var p := SidePatchOf(before, after);
            if p.None? then Normalize(before) == Normalize(after)
            else SideFits(Normalize(before), p.value) && ApplySide(Normalize(before), p.value) == Normalize(after)
  {
    var p := SidePatchOf(before, after);
    if p.Some? && p.value.Change? {
      var was, now := Normalize(before).value, Normalize(after).value;
      MappingPatchRoundTrip(was.fields, now.fields);
      forall f | f in MINUTE_FIELDS
        ensures ApplyMapping(was.minutes[f], p.value.minutes[f]) == now.minutes[f]
      {
        MappingPatchRoundTrip(was.minutes[f], now.minutes[f]);
      }
      var out := ApplyChange(was, p.value);
      assert out.fields == now.fields;
      assert out.minutes == now.minutes;
    }
  }

  /** A patch between any two values, applied to the normal form of the first, fits and gives
      the normal form of the second. */
  lemma PeakPatchRoundTrip(before: Value, after: Value)
    ensures ViewFits(NormalView(before), PeakPatch(before, after))
    ensures PatchView(NormalView(before), PeakPatch(before, after)) == NormalView(after)
  {
    SidePatchRoundTrip(GetSide(before, Ask), GetSide(after, Ask));
    SidePatchRoundTrip(GetSide(before, Bid), GetSide(after, Bid));
    assert [Ask, Bid][1..] == [Bid] && [Bid][1..] == [];
    var none := PatchOfSides(before, after, []);
    assert none == map[];
    assert PatchOfSides(before, after, [Bid]) ==
      var c := SidePatchOf(GetSide(before, Bid), GetSide(after, Bid)); if c.None? then none else none[Bid := c.value];
  }
}
