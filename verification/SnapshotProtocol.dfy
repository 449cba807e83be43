/** A snapshot producer and its replica over a lane that may lose, repeat and reorder frames,
    and over one that does not. */
module SnapshotProtocol {
  import opened Wrappers
  import opened Peaks
  import opened Replication
  import opened Producing

  /** `seen[k][r - 1]` is the value the producer had observed of `k` at source revision `r`;
      `prepared` holds every frame ever prepared, with the value it was prepared for. */
  datatype World = World(p: ProducerState, seen: map<Key, seq<Option<Value>>>,
                         prepared: set<(Frame, Option<Value>)>, r: ReplicaState)
  {
    function Seen(k: Key): seq<Option<Value>> {
      if k in seen then seen[k] else []
    }
  }

  datatype Step =
    | Observe(current: map<Key, Value>)
    | Prepare(key: Key, value: Option<Value>, due: Option<Frame>)
    | Commit(frame: Frame, value: Option<Value>)
    | FullReply(frame: Frame, value: Option<Value>)  // a resynchronisation at some past revision
    | Deliver(frame: Frame, value: Option<Value>)    // late, again or never: any prepared frame
    | Foreign(frame: Frame)                          // from a retired epoch or configuration
    | Heartbeat(expected: map<Key, nat>)

  ghost predicate Records(w: World, q: ProducerState, w2: World) {
    && w2.p == q
    && forall k :: w2.Seen(k)
         == if q.At(k).source == w.p.At(k).source then w.Seen(k) else w.Seen(k) + [q.At(k).latest.GetOr(None)]
  }

  predicate IsFullReply(w: World, f: Frame, v: Option<Value>) {
    && f.epoch == w.p.lane.epoch && f.version == w.p.lane.version
    && 1 <= f.revision <= |w.Seen(f.key)| && w.Seen(f.key)[f.revision - 1] == v
    && f.removed == v.None? && f.body == Full(v)
  }

  ghost predicate Next(w: World, s: Step, w2: World) {
    match s
    case Observe(current) =>
      && Observes(w.p, current, w2.p) && Records(w, w2.p, w2)
      && w2.prepared == w.prepared && w2.r == w.r
    case Prepare(key, value, frame) =>
      && Prepares(w.p, key, value, w2.p, frame) && Records(w, w2.p, w2)
      && w2.prepared == (if frame.Some? then w.prepared + {(frame.value, value)} else w.prepared) && w2.r == w.r
    case Commit(frame, value) =>
      && (frame, value) in w.prepared && frame.key in w.p.latest
      && Commits(w.p, frame, value, w2.p)
      && w2.seen == w.seen && w2.prepared == w.prepared && w2.r == w.r
    case FullReply(frame, value) =>
      && IsFullReply(w, frame, value)
      && w2 == w.(prepared := w.prepared + {(frame, value)})
    case Deliver(frame, value) =>
      && (frame, value) in w.prepared
      && w2 == w.(r := Apply(w.r, frame).1)
    case Foreign(frame) =>
      && (frame.epoch != w.r.epoch || frame.version != w.r.version)
      && w2 == w.(r := Apply(w.r, frame).1)
    case Heartbeat(expected) =>
      w2 == w.(r := w.r.(expected := expected))
  }

  ghost predicate Init(w: World) {
    && w.p == ProducerState(w.p.lane, map[], map[], map[], map[])
    && w.seen == map[] && w.prepared == {}
    && w.r == ReplicaState(w.p.lane.epoch, w.p.lane.version, map[], map[], {}, map[])
  }

  // ---- the invariant -------------------------------------------------------------------

  predicate SlotOk(seen: seq<Option<Value>>, s: Slot) {
    && s.source == |seen| && s.revision <= |seen|
    && s.latest == (if seen == [] then None else Some(seen[|seen| - 1]))
    && s.previous == (if s.revision == 0 then None else Some(seen[s.revision - 1]))
  }

  /** What a frame claims is what was observed: its value at its revision, or a patch between
      two observed values at two observed revisions. */
  predicate FrameOk(lane: Lane, seen: seq<Option<Value>>, f: Frame, v: Option<Value>) {
    && f.epoch == lane.epoch && f.version == lane.version
    && 1 <= f.revision <= |seen| && seen[f.revision - 1] == v && f.removed == v.None?
    && (f.body == Full(v) ||
        (&& v.Some? && 1 <= f.base <= |seen| && seen[f.base - 1].Some?
         && f.body == Delta(PeakPatch(seen[f.base - 1].value, v.value))))
  }

  /** A replica entry at revision `r` holds the normal form of what was observed at `r`. */
  predicate EntryOk(seen: seq<Option<Value>>, e: Entry) {
    && e.revision <= |seen|
    && (e.revision == 0 ==> e.value.None?)
    && (e.revision > 0 ==> Holds(e.value, seen[e.revision - 1]))
  }

  predicate Holds(have: Option<NormalValue>, want: Option<Value>) {
    if want.None? then have.None? else have.Some? && ViewOf(have.value) == NormalView(want.value)
  }

  ghost predicate Inv(w: World) {
    && w.p.Valid()
    && w.r.epoch == w.p.lane.epoch && w.r.version == w.p.lane.version
    && (forall k :: SlotOk(w.Seen(k), w.p.At(k)))
    && (forall k :: EntryOk(w.Seen(k), w.r.At(k)))
    && (forall f, v :: (f, v) in w.prepared ==> FrameOk(w.p.lane, w.Seen(f.key), f, v))
  }

  lemma FrameOkLasts(lane: Lane, seen: seq<Option<Value>>, more: seq<Option<Value>>, f: Frame, v: Option<Value>)
    requires FrameOk(lane, seen, f, v) && seen <= more
    ensures FrameOk(lane, more, f, v)
  {
  }

  /** The entry a faithful frame leaves is again the observed one, later than before or the
      same; nothing it does can raise. */
  lemma FaithfulFrame(lane: Lane, seen: seq<Option<Value>>, e: Entry, f: Frame, v: Option<Value>)
    requires FrameOk(lane, seen, f, v) && EntryOk(seen, e)
    ensures var (o, e2) := ApplyEntry(e, f);
            o.Returned? && EntryOk(seen, e2) && e2.revision >= e.revision
  {
    if f.revision > e.revision && !f.removed {
      match f.body
      case Full(_) => NormalViewOfValue(v.value);
      case Delta(p) =>
        if f.base == e.revision {
          PeakPatchRoundTrip(seen[f.base - 1].value, v.value);
          PatchingIsSeenByReaders(e.value.value, p);
        }
    }
  }

  lemma SlotFrameOk(lane: Lane, k: Key, seen: seq<Option<Value>>, s: Slot, value: Option<Value>)
    requires SlotOk(seen, s) && s.latest == Some(value) && SlotFrame(lane, k, s, value).Some?
    ensures FrameOk(lane, seen, SlotFrame(lane, k, s, value).value, value)
  {
  }

  /** Observing and preparing only ever add one value to a history. */
  lemma HistoriesGrow(w: World, w2: World, k: Key)
    requires SlotOk(w.Seen(k), w.p.At(k)) && Records(w, w2.p, w2)
    requires w2.p.At(k) == w.p.At(k) || exists v :: w2.p.At(k) == NoticeSlot(w.p.At(k), v)
    ensures w.Seen(k) <= w2.Seen(k) && SlotOk(w2.Seen(k), w2.p.At(k))
  {
  }

  lemma NoticingKeepsInv(w: World, w2: World)
    requires Inv(w) && w2.p.Valid() && w2.p.lane == w.p.lane && Records(w, w2.p, w2)
    requires w2.prepared == w.prepared && w2.r == w.r
    requires forall k :: w2.p.At(k) == w.p.At(k) || exists v :: w2.p.At(k) == NoticeSlot(w.p.At(k), v)
    ensures Inv(w2)
  {
    forall k ensures w.Seen(k) <= w2.Seen(k) && SlotOk(w2.Seen(k), w2.p.At(k)) {
      HistoriesGrow(w, w2, k);
    }
    forall k ensures EntryOk(w2.Seen(k), w2.r.At(k)) {
      assert w2.r.At(k) == w.r.At(k) && EntryOk(w.Seen(k), w.r.At(k));
    }
    forall f, v | (f, v) in w2.prepared ensures FrameOk(w2.p.lane, w2.Seen(f.key), f, v) {
      FrameOkLasts(w.p.lane, w.Seen(f.key), w2.Seen(f.key), f, v);
    }
  }

  lemma CommitKeepsInv(w: World, frame: Frame, value: Option<Value>, w2: World)
    requires Inv(w) && Next(w, Commit(frame, value), w2)
    ensures Inv(w2)
  {
    forall k ensures SlotOk(w2.Seen(k), w2.p.At(k)) {
      assert SlotOk(w.Seen(k), w.p.At(k)) && FrameOk(w.p.lane, w.Seen(frame.key), frame, value);
    }
    forall k ensures EntryOk(w2.Seen(k), w2.r.At(k)) {
      assert EntryOk(w.Seen(k), w.r.At(k));
    }
  }

  lemma ReceivingKeepsInv(w: World, f: Frame, w2: World)
    requires Inv(w) && w2 == w.(r := Apply(w.r, f).1)
    requires f.epoch != w.r.epoch || f.version != w.r.version || exists v :: (f, v) in w.prepared
    ensures Inv(w2)
    ensures forall k :: w2.r.At(k).revision >= w.r.At(k).revision
    ensures f.epoch == w.r.epoch && f.version == w.r.version ==> Apply(w.r, f).0.Returned?
  {
    ApplyIsLocal(w.r, f);
    if f.epoch == w.r.epoch && f.version == w.r.version {
      var v :| (f, v) in w.prepared;
      assert FrameOk(w.p.lane, w.Seen(f.key), f, v) && EntryOk(w.Seen(f.key), w.r.At(f.key));
      FaithfulFrame(w.p.lane, w.Seen(f.key), w.r.At(f.key), f, v);
    }
    forall k ensures EntryOk(w2.Seen(k), w2.r.At(k)) && w2.r.At(k).revision >= w.r.At(k).revision {
      assert EntryOk(w.Seen(k), w.r.At(k));
    }
  }

  lemma PrepareKeepsInv(w: World, key: Key, value: Option<Value>, frame: Option<Frame>, w2: World)
    requires Inv(w) && Next(w, Prepare(key, value, frame), w2)
    ensures Inv(w2)
  {
    var mid := w2.(prepared := w.prepared);
    assert forall k :: mid.Seen(k) == w2.Seen(k);
    assert w2.p.At(key) == NoticeSlot(w.p.At(key), value);
    NoticingKeepsInv(w, mid);
    if frame.Some? {
      assert SlotOk(mid.Seen(key), mid.p.At(key));
      SlotFrameOk(w.p.lane, key, w2.Seen(key), w2.p.At(key), value);
    }
    forall f, v | (f, v) in w2.prepared ensures FrameOk(w2.p.lane, w2.Seen(f.key), f, v) {
      if (f, v) in w.prepared { assert (f, v) in mid.prepared; }
    }
  }

  lemma OtherStepsKeepInv(w: World, s: Step, w2: World)
    requires Inv(w) && Next(w, s, w2) && (s.FullReply? || s.Heartbeat?)
    ensures Inv(w2) && forall k :: w2.r.At(k) == w.r.At(k)
  {
    forall k ensures SlotOk(w2.Seen(k), w2.p.At(k)) && EntryOk(w2.Seen(k), w2.r.At(k)) && w2.r.At(k) == w.r.At(k) {
      assert SlotOk(w.Seen(k), w.p.At(k)) && EntryOk(w.Seen(k), w.r.At(k));
    }
    forall f, v | (f, v) in w2.prepared ensures FrameOk(w2.p.lane, w2.Seen(f.key), f, v) {
      assert w2.Seen(f.key) == w.Seen(f.key);
    }
  }

  /** Every step keeps the invariant and turns no key of the replica back. */
  lemma StepKeepsInv(w: World, s: Step, w2: World)
    requires Inv(w) && Next(w, s, w2)
    ensures Inv(w2)
    ensures forall k :: w2.r.At(k).revision >= w.r.At(k).revision
  {
    match s
    case Observe(current) =>
      forall k ensures w2.p.At(k) == w.p.At(k) || exists v :: w2.p.At(k) == NoticeSlot(w.p.At(k), v) {
        if k in w.p.latest || k in current {
          assert w2.p.At(k) == NoticeSlot(w.p.At(k), Lookup(current, k));
        }
      }
      NoticingKeepsInv(w, w2);
    case Prepare(key, value, frame) => PrepareKeepsInv(w, key, value, frame, w2);
    case Commit(frame, value) => CommitKeepsInv(w, frame, value, w2);
    case Deliver(frame, _) => ReceivingKeepsInv(w, frame, w2);
    case Foreign(frame) => ReceivingKeepsInv(w, frame, w2);
    case FullReply(_, _) => OtherStepsKeepInv(w, s, w2);
    case Heartbeat(_) => OtherStepsKeepInv(w, s, w2);
  }

  lemma StepNeverDecreases(w: World, s: Step, w2: World, k: Key)
    requires Inv(w) && Next(w, s, w2)
    ensures w2.r.At(k).revision >= w.r.At(k).revision
  {
    StepKeepsInv(w, s, w2);
  }

  // ---- whole runs over an unreliable lane ------------------------------------------------

  ghost predicate IsRun(run: seq<World>, steps: seq<Step>) {
    && |run| == |steps| + 1 && Init(run[0])
    && forall i :: 0 <= i < |steps| ==> Next(run[i], steps[i], run[i + 1])
  }

  lemma {:induction false} RunKeepsInv(run: seq<World>, steps: seq<Step>, n: nat)
    requires IsRun(run, steps) && n < |run|
    ensures Inv(run[n])
  {
    if n == 0 {
      forall k ensures SlotOk(run[0].Seen(k), run[0].p.At(k)) && EntryOk(run[0].Seen(k), run[0].r.At(k)) {
      }
    } else {
      RunKeepsInv(run, steps, n - 1);
      StepKeepsInv(run[n - 1], steps[n - 1], run[n]);
    }
  }

  /** Whatever was lost, repeated, delayed or overtaken: a key the replica holds at revision `r`
      is the normal form of what the producer observed at `r`, and a key removed at `r` is gone. */
  lemma ReplicaHoldsWhatWasObserved(run: seq<World>, steps: seq<Step>, n: nat, k: Key)
    requires IsRun(run, steps) && n < |run|
    ensures var w := run[n];
            var e := w.r.At(k);
            && (e.revision == 0 ==> e.value.None?)
            && (e.revision > 0 ==>
                  && e.revision <= |w.Seen(k)|
                  && match w.Seen(k)[e.revision - 1] {
                       case None => e.value.None?
                       case Some(v) => e.value.Some? && ViewOf(e.value.value) == NormalView(v)
                     })
  {
    RunKeepsInv(run, steps, n);
    assert EntryOk(run[n].Seen(k), run[n].r.At(k));
  }

  lemma RunStepNeverDecreases(run: seq<World>, steps: seq<Step>, n: nat, k: Key)
    requires IsRun(run, steps) && n < |steps|
    ensures run[n + 1].r.At(k).revision >= run[n].r.At(k).revision
  {
    RunKeepsInv(run, steps, n);
    StepNeverDecreases(run[n], steps[n], run[n + 1], k);
  }

  lemma {:induction false} RevisionsNeverDecrease(run: seq<World>, steps: seq<Step>, m: nat, n: nat, k: Key)
    requires IsRun(run, steps) && m <= n < |run|
    ensures run[n].r.At(k).revision >= run[m].r.At(k).revision
    decreases n - m
  {
    if m < n {
      RevisionsNeverDecrease(run, steps, m, n - 1, k);
      RunStepNeverDecreases(run, steps, n - 1, k);
    }
  }

  /** No delivery of the producer's own frames raises: in particular no patch meets a missing key. */
  lemma DeliveryNeverRaises(run: seq<World>, steps: seq<Step>, n: nat)
    requires IsRun(run, steps) && n < |steps| && steps[n].Deliver?
    ensures Apply(run[n].r, steps[n].frame).0.Returned?
  {
    RunKeepsInv(run, steps, n);
    assert Next(run[n], steps[n], run[n + 1]);
    var f, v := steps[n].frame, steps[n].value;
    assert (f, v) in run[n].prepared;
    assert FrameOk(run[n].p.lane, run[n].Seen(f.key), f, v);
    ReceivingKeepsInv(run[n], f, run[n + 1]);
  }

  /** An exposed key is at least as new as the last heartbeat asked for, and a whole wire value
      of one observed revision. */
  lemma ExposedKeysAreFresh(run: seq<World>, steps: seq<Step>, n: nat, k: Key)
    requires IsRun(run, steps) && n < |run| && k in Snapshot(run[n].r)
    ensures var w := run[n];
            var rev := w.r.At(k).revision;
            && 1 <= rev <= |w.Seen(k)| && rev >= Count(w.r.expected, k) && k !in w.r.stale
            && w.Seen(k)[rev - 1].Some?
            && forall s :: GetSide(Snapshot(w.r)[k], s) == Materialize(NormalView(w.Seen(k)[rev - 1].value).At(s))
  {
    ReplicaHoldsWhatWasObserved(run, steps, n, k);
    var w := run[n];
    var v := w.r.values[k];
    forall s ensures GetSide(Exposed(v), s) == Materialize(ViewOf(v).At(s)) {
    }
  }

  // ---- a lane that keeps its order -------------------------------------------------------

  ghost predicate Lockstep(p: ProducerState, r: ReplicaState) {
    && r.epoch == p.lane.epoch && r.version == p.lane.version
    && forall k :: InStep(p.At(k), r.At(k))
  }

  predicate InStep(s: Slot, e: Entry) {
    && e.revision == s.revision && !e.stale && Holds(e.value, s.Before())
    && (s.revision == 0 <==> s.previous.None?)
    && s.revision <= s.source
    && (s.source == 0 <==> s.latest.None?)
    && (s.revision == s.source ==> s.previous == s.latest)
  }

  lemma NoticingStaysInStep(s: Slot, e: Entry, v: Option<Value>)
    requires InStep(s, e)
    ensures InStep(NoticeSlot(s, v), e)
  {
  }

  lemma DrainingStaysInStep(lane: Lane, k: Key, s: Slot, e: Entry, v: Option<Value>)
    requires InStep(s, e) && s.latest == Some(v)
    ensures match SlotFrame(lane, k, s, v)
            case None => InStep(DrainSlot(s, v), e) && Holds(e.value, v)
            case Some(f) =>
              var (o, e2) := ApplyEntry(e, f);
              o == Returned(true) && InStep(DrainSlot(s, v), e2) && Holds(e2.value, v)
  {
    match SlotFrame(lane, k, s, v)
    case None =>
    case Some(f) =>
      if v.Some? {
        NormalViewOfValue(v.value);
        if f.body.Delta? {
          PeakPatchRoundTrip(s.Before().value, v.value);
          PatchingIsSeenByReaders(e.value.value, f.body.patch);
        }
      }
  }

  /** What one key looks like once the batch has been applied by the frames of their keys. */
  lemma DrainedKeyInStep(current: map<Key, Value>, keys: set<Key>, q: ProducerState, p2: ProducerState,
                         out: seq<Frame>, r: ReplicaState, r2: ReplicaState, k: Key)
    requires Drains(q, current, keys, p2, out) && InStep(q.At(k), r.At(k))
    requires if k in keys then q.At(k).latest == Some(Lookup(current, k)) else q.At(k).previous.None? && k !in current
    requires forall i :: 0 <= i < |out| ==> r2.At(out[i].key) == ApplyEntry(r.At(out[i].key), out[i]).1
    requires (forall i :: 0 <= i < |out| ==> out[i].key != k) ==> r2.At(k) == r.At(k)
    ensures InStep(p2.At(k), r2.At(k)) && Holds(r2.At(k).value, Lookup(current, k))
  {
    if k in keys {
      DrainingStaysInStep(q.lane, k, q.At(k), r.At(k), Lookup(current, k));
      if q.At(k).source != q.At(k).revision {
        var i :| 0 <= i < |out| && out[i].key == k;
        assert Some(out[i]) == SlotFrame(q.lane, k, q.At(k), Lookup(current, k));
      } else {
        forall i | 0 <= i < |out| ensures out[i].key != k {
          assert SlotFrame(q.lane, out[i].key, q.At(out[i].key), Lookup(current, out[i].key)) == Some(out[i]);
        }
      }
    } else {
      forall i | 0 <= i < |out| ensures out[i].key != k { assert out[i].key in keys; }
    }
  }

  lemma ObservedKeyInStep(p: ProducerState, current: map<Key, Value>, q: ProducerState, r: ReplicaState, k: Key)
    requires p.Valid() && Observes(p, current, q) && InStep(p.At(k), r.At(k))
    ensures InStep(q.At(k), r.At(k)) && q.At(k).source >= p.At(k).source
    ensures if k in p.previous.Keys + current.Keys then q.At(k).latest == Some(Lookup(current, k))
            else q.At(k).previous.None? && k !in current
  {
    NoticingStaysInStep(p.At(k), r.At(k), Lookup(current, k));
  }

  lemma BatchIsAcceptable(p: ProducerState, current: map<Key, Value>, q: ProducerState,
                          p2: ProducerState, out: seq<Frame>, r: ReplicaState)
    requires p.Valid() && Lockstep(p, r) && Observes(p, current, q)
    requires Drains(q, current, p.previous.Keys + current.Keys, p2, out)
    ensures SameLane(r, out)
    ensures forall i :: 0 <= i < |out| ==> ApplyEntry(r.At(out[i].key), out[i]).0.Returned?
  {
    forall i | 0 <= i < |out|
      ensures ApplyEntry(r.At(out[i].key), out[i]).0.Returned?
      ensures out[i].epoch == r.epoch && out[i].version == r.version
    {
      var k := out[i].key;
      assert SlotFrame(q.lane, k, q.At(k), Lookup(current, k)) == Some(out[i]);
      ObservedKeyInStep(p, current, q, r, k);
      DrainingStaysInStep(q.lane, k, q.At(k), r.At(k), Lookup(current, k));
    }
  }

  /** Every frame of a snapshot applied in order, in whichever order of the keys: nothing
      raises, both ends agree on every key again, and the replica holds exactly the snapshot. */
  lemma InOrderDeliveryConverges(p: ProducerState, current: map<Key, Value>, q: ProducerState,
                                 p2: ProducerState, out: seq<Frame>, r: ReplicaState)
    requires p.Valid() && Lockstep(p, r) && Observes(p, current, q)
    requires Drains(q, current, p.previous.Keys + current.Keys, p2, out)
    ensures NoneRaises(r, out)
    ensures Lockstep(p2, ApplyAll(r, out))
    ensures forall k :: Holds(ApplyAll(r, out).At(k).value, Lookup(current, k))
    ensures ApplyAll(r, out).expected == r.expected
  {
    var keys := p.previous.Keys + current.Keys;
    forall k ensures InStep(p.At(k), r.At(k)) { }
    BatchIsAcceptable(p, current, q, p2, out, r);
    BatchActsKeyByKey(r, out);
    var r2 := ApplyAll(r, out);
    forall k ensures InStep(p2.At(k), r2.At(k)) && Holds(r2.At(k).value, Lookup(current, k)) {
      ObservedKeyInStep(p, current, q, r, k);
      DrainedKeyInStep(current, keys, q, p2, out, r, r2, k);
    }
  }

  /** Once the replica holds a snapshot and lags behind no heartbeat, it exposes that snapshot:
      the same keys, and each side in canonical form. */
  lemma SnapshotIsCurrent(r: ReplicaState, current: map<Key, Value>)
    requires forall k :: Holds(r.At(k).value, Lookup(current, k)) && !r.At(k).stale
    requires forall k :: k in current ==> Count(r.revisions, k) >= Count(r.expected, k)
    requires forall k :: k in current ==> WellSorted(current[k])
    ensures Snapshot(r).Keys == current.Keys
    ensures forall k, s :: k in current ==> GetSide(Snapshot(r)[k], s) == CanonicalSide(GetSide(current[k], s))
  {
    forall k ensures k in Snapshot(r) <==> k in current {
      assert Holds(r.At(k).value, Lookup(current, k)) && !r.At(k).stale;
    }
    forall k, s | k in current ensures GetSide(Snapshot(r)[k], s) == CanonicalSide(GetSide(current[k], s)) {
      assert Holds(r.At(k).value, Lookup(current, k));
      assert GetSide(Exposed(r.values[k]), s) == Materialize(ViewOf(r.values[k]).At(s));
      assert NormalView(current[k]).At(s) == Normalize(GetSide(current[k], s));
      MaterializeUndoesNormalize(GetSide(current[k], s));
    }
  }

  // ---- whole runs over a reliable lane ---------------------------------------------------

  datatype Pair = Pair(p: ProducerState, r: ReplicaState)

  datatype Turn = Notice(current: map<Key, Value>) | Beat | Send(current: map<Key, Value>)

  ghost predicate NextTurn(w: Pair, t: Turn, w2: Pair) {
    match t
    case Notice(current) => Observes(w.p, current, w2.p) && w2.r == w.r
    case Beat => w2 == w.(r := w.r.(expected := w.p.source))
    case Send(current) =>
      exists q, out :: Sends(w, current, q, w2.p, out) && w2.r == ApplyAll(w.r, out)
  }

  ghost predicate Sends(w: Pair, current: map<Key, Value>, q: ProducerState, p2: ProducerState, out: seq<Frame>) {
    Observes(w.p, current, q) && Drains(q, current, w.p.previous.Keys + current.Keys, p2, out)
  }

  ghost predicate PairInv(w: Pair) {
    && w.p.Valid() && Lockstep(w.p, w.r)
    && forall k :: Count(w.r.expected, k) <= w.p.At(k).source
  }

  ghost predicate IsReliableRun(run: seq<Pair>, turns: seq<Turn>) {
    && |run| == |turns| + 1
    && run[0].p == ProducerState(run[0].p.lane, map[], map[], map[], map[])
    && run[0].r == ReplicaState(run[0].p.lane.epoch, run[0].p.lane.version, map[], map[], {}, map[])
    && forall i :: 0 <= i < |turns| ==> NextTurn(run[i], turns[i], run[i + 1])
  }

  lemma TurnKeepsPairInv(w: Pair, t: Turn, w2: Pair)
    requires PairInv(w) && NextTurn(w, t, w2)
    ensures PairInv(w2)
    ensures t.Send? ==> forall k :: Holds(w2.r.At(k).value, Lookup(t.current, k))
    ensures t.Send? ==> forall k :: k in t.current ==> Count(w2.r.revisions, k) >= Count(w2.r.expected, k)
  {
    match t
    case Notice(current) =>
      forall k ensures InStep(w2.p.At(k), w2.r.At(k)) && Count(w2.r.expected, k) <= w2.p.At(k).source {
        assert InStep(w.p.At(k), w.r.At(k)) && Count(w.r.expected, k) <= w.p.At(k).source;
        NoticingStaysInStep(w.p.At(k), w.r.At(k), Lookup(current, k));
      }
    case Beat =>
      forall k ensures InStep(w2.p.At(k), w2.r.At(k)) { assert InStep(w.p.At(k), w.r.At(k)); }
    case Send(current) =>
      var q, out :| Sends(w, current, q, w2.p, out) && w2.r == ApplyAll(w.r, out);
      InOrderDeliveryConverges(w.p, current, q, w2.p, out, w.r);
      forall k
        ensures Count(w2.r.expected, k) <= w2.p.At(k).source
        ensures k in current ==> Count(w2.r.revisions, k) >= Count(w2.r.expected, k)
      {
        assert Count(w.r.expected, k) <= w.p.At(k).source;
        ObservedKeyInStep(w.p, current, q, w.r, k);
        SentKeyIsLevel(current, w.p.previous.Keys + current.Keys, q, w2.p, out, k);
        assert InStep(w2.p.At(k), w2.r.At(k));
      }
  }

  lemma SentKeyIsLevel(current: map<Key, Value>, keys: set<Key>, q: ProducerState, p2: ProducerState,
                       out: seq<Frame>, k: Key)
    requires Drains(q, current, keys, p2, out)
    requires k in keys ==> q.At(k).latest == Some(Lookup(current, k))
    ensures p2.At(k).source == q.At(k).source
    ensures k in keys ==> p2.At(k).revision == p2.At(k).source
  {
    assert p2.At(k) == if k in keys then DrainSlot(q.At(k), Lookup(current, k)) else q.At(k);
  }

  lemma {:induction false} ReliableRunKeepsInv(run: seq<Pair>, turns: seq<Turn>, n: nat)
    requires IsReliableRun(run, turns) && n < |run|
    ensures PairInv(run[n])
  {
    if n == 0 {
      forall k ensures InStep(run[0].p.At(k), run[0].r.At(k)) { }
    } else {
      ReliableRunKeepsInv(run, turns, n - 1);
      TurnKeepsPairInv(run[n - 1], turns[n - 1], run[n]);
    }
  }

  /** After any history of observations, heartbeats and deliveries, delivering a snapshot makes
      the replica expose that snapshot. */
  lemma DeliveredSnapshotIsExposed(run: seq<Pair>, turns: seq<Turn>, n: nat)
    requires IsReliableRun(run, turns) && n < |turns| && turns[n].Send?
    requires forall k :: k in turns[n].current ==> WellSorted(turns[n].current[k])
    ensures var r, current := run[n + 1].r, turns[n].current;
            && Snapshot(r).Keys == current.Keys
            && forall k, s :: k in current ==> GetSide(Snapshot(r)[k], s) == CanonicalSide(GetSide(current[k], s))
  {
    ReliableRunKeepsInv(run, turns, n);
    TurnKeepsPairInv(run[n], turns[n], run[n + 1]);
    var r := run[n + 1].r;
    forall k ensures !r.At(k).stale { assert InStep(run[n + 1].p.At(k), r.At(k)); }
    SnapshotIsCurrent(r, turns[n].current);
  }
}
