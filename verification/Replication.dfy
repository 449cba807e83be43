/** The frame format and the receiving end: per-key revisions, resynchronisation marks and
    the heartbeat that hides keys which fell behind. */
module Replication {
  import opened Wrappers
  import opened Peaks

  datatype Body = Full(value: Option<Value>) | Delta(patch: Patch)

  /** `date` is the trading date a native journal stamps; a snapshot producer leaves it empty. */
  datatype Frame = Frame(epoch: string, version: int, key: Key, base: nat, revision: nat,
                         removed: bool, date: string, body: Body)

  datatype Outcome = Raised | Returned(applied: bool)

  /** What the replica holds about one key. */
  datatype Entry = Entry(revision: nat, value: Option<NormalValue>, stale: bool)

  datatype ReplicaState = ReplicaState(
    epoch: string, version: int,
    values: map<Key, NormalValue>, revisions: map<Key, nat>,
    stale: set<Key>, expected: map<Key, nat>)
  {
    function At(k: Key): Entry {
      Entry(Count(revisions, k), Lookup(values, k), k in stale)
    }
  }

  function ApplyEntry(e: Entry, f: Frame): (Outcome, Entry) {
    if f.revision <= e.revision then (Returned(false), e)
    else if f.body.Delta? && f.base != e.revision then (Returned(false), e.(stale := true))
    else if f.removed then (Returned(true), Entry(f.revision, None, false))
    else match f.body
      case Full(None) => (Raised, e)
      case Full(Some(v)) => (Returned(true), Entry(f.revision, Some(NormalizeValue(v)), false))
      case Delta(p) =>
        if p.sides == map[] then (Returned(true), Entry(f.revision, e.value, false))
        else if e.value.None? || !PatchFits(e.value.value, p) then (Raised, e)
        else (Returned(true), Entry(f.revision, Some(ApplyPatch(e.value.value, p)), false))
  }

  function Apply(r: ReplicaState, f: Frame): (Outcome, ReplicaState) {
    if f.epoch != r.epoch || f.version != r.version then (Raised, r)
    else
      var (o, e) := ApplyEntry(r.At(f.key), f);
      if o == Returned(true) then
        (o, r.(values := if e.value.Some? then r.values[f.key := e.value.value] else r.values - {f.key},
               revisions := r.revisions[f.key := e.revision],
               stale := r.stale - {f.key}))
      else if e.stale && f.key !in r.stale then (o, r.(stale := r.stale + {f.key}))
      else (o, r)
  }

  /** A frame touches its own key only, and of another epoch or version nothing at all. */
  lemma ApplyIsLocal(r: ReplicaState, f: Frame)
    ensures var (o, r2) := Apply(r, f);
            && r2.expected == r.expected && r2.epoch == r.epoch && r2.version == r.version
            && (forall k :: k != f.key ==> r2.At(k) == r.At(k))
            && (f.epoch != r.epoch || f.version != r.version ==> o == Raised && r2 == r)
            && (f.epoch == r.epoch && f.version == r.version ==> (o, r2.At(f.key)) == ApplyEntry(r.At(f.key), f))
  {
  }

  function Exposed(v: NormalValue): Value {
    Value(map s | s in v.sides :: Materialize(v.sides[s]))
  }

  predicate Fresh(r: ReplicaState, k: Key) {
    k in r.values && k !in r.stale && Count(r.revisions, k) >= Count(r.expected, k)
  }

  function Snapshot(r: ReplicaState): map<Key, Value> {
    map k | k in r.values && Fresh(r, k) :: Exposed(r.values[k])
  }

  class Replica {
    const epoch: string
    const version: int
    var values: map<Key, NormalValue>
    var revisions: map<Key, nat>
    var needsResync: set<Key>
    var expected: map<Key, nat>

    function State(): ReplicaState
      reads this
    {
      ReplicaState(epoch, version, values, revisions, needsResync, expected)
    }

    constructor (epoch: string, version: int)
      ensures State() == ReplicaState(epoch, version, map[], map[], {}, map[])
    {
      this.epoch, this.version := epoch, version;
      values, revisions, needsResync, expected := map[], map[], {}, map[];
    }

    method Heartbeat(sourceRevisions: map<Key, nat>)
      modifies this`expected
      ensures State() == old(State()).(expected := sourceRevisions)
    {
      expected := sourceRevisions;
    }

    /** An exception leaves the state alone here; in Python a patch may raise half way. */
    method ApplyFrame(frame: Frame) returns (outcome: Outcome)
      modifies this`values, this`revisions, this`needsResync
      ensures (outcome, State()) == Apply(old(State()), frame)
    {
      if frame.epoch != epoch || frame.version != version {
        return Raised;
      }
      var key := frame.key;
      var revision := if key in revisions then revisions[key] else 0;
      if frame.revision <= revision {
        return Returned(false);
      }
      if frame.body.Delta? && frame.base != revision {
        assert key in needsResync ==> needsResync + {key} == needsResync;
        needsResync := needsResync + {key};
        return Returned(false);
      }
      if frame.removed {
        values := values - {key};
      } else {
        match frame.body {
          case Full(v) =>
            if v.None? {
              return Raised;
            }
            values := values[key := NormalizeValue(v.value)];
          case Delta(patch) =>
            if patch.sides != map[] {
              if key !in values || !PatchFits(values[key], patch) {
                return Raised;
              }
              values := values[key := ApplyPatch(values[key], patch)];
            } else {
              assert values == if key in values then values[key := values[key]] else values - {key};
            }
        }
      }
      revisions := revisions[key := frame.revision];
      needsResync := needsResync - {key};
      return Returned(true);
    }
  }

  // ---- delivering a batch ------------------------------------------------------------

  function ApplyAll(r: ReplicaState, fs: seq<Frame>): ReplicaState
    decreases |fs|
  {
    if fs == [] then r else ApplyAll(Apply(r, fs[0]).1, fs[1..])
  }

  predicate NoneRaises(r: ReplicaState, fs: seq<Frame>)
    decreases |fs|
  {
    fs == [] || (Apply(r, fs[0]).0.Returned? && NoneRaises(Apply(r, fs[0]).1, fs[1..]))
  }

  predicate DistinctKeys(fs: seq<Frame>) {
    forall i, j :: 0 <= i < j < |fs| ==> fs[i].key != fs[j].key
  }

  predicate SameLane(r: ReplicaState, fs: seq<Frame>) {
    forall i :: 0 <= i < |fs| ==> fs[i].epoch == r.epoch && fs[i].version == r.version
  }

  /** A batch with one frame a key acts on each key by its own frame, whatever the order. */
  lemma {:induction false} BatchActsKeyByKey(r: ReplicaState, fs: seq<Frame>)
    requires DistinctKeys(fs) && SameLane(r, fs)
    requires forall i :: 0 <= i < |fs| ==> ApplyEntry(r.At(fs[i].key), fs[i]).0.Returned?
    ensures NoneRaises(r, fs)
    ensures var r2 := ApplyAll(r, fs);
            && r2.expected == r.expected && r2.epoch == r.epoch && r2.version == r.version
            && (forall i :: 0 <= i < |fs| ==> r2.At(fs[i].key) == ApplyEntry(r.At(fs[i].key), fs[i]).1)
            && (forall k :: (forall i :: 0 <= i < |fs| ==> fs[i].key != k) ==> r2.At(k) == r.At(k))
    decreases |fs|
  {
    if fs != [] {
      var head, tail := fs[0], fs[1..];
      var r1 := Apply(r, head).1;
      ApplyIsLocal(r, head);
      forall i, j | 0 <= i < j < |tail| ensures tail[i].key != tail[j].key {
        assert fs[i + 1].key != fs[j + 1].key;
      }
      forall i | 0 <= i < |tail|
        ensures tail[i].key != head.key && r1.At(tail[i].key) == r.At(tail[i].key)
        ensures tail[i].epoch == r1.epoch && tail[i].version == r1.version
      {
        assert fs[0].key != fs[i + 1].key;
      }
      BatchActsKeyByKey(r1, tail);
      var r2 := ApplyAll(r, fs);
      forall i | 0 <= i < |fs| ensures r2.At(fs[i].key) == ApplyEntry(r.At(fs[i].key), fs[i]).1 {
        if i > 0 { assert fs[i] == tail[i - 1]; }
      }
      forall k | forall i :: 0 <= i < |fs| ==> fs[i].key != k ensures r2.At(k) == r.At(k) {
        assert fs[0].key != k;
        forall i | 0 <= i < |tail| ensures tail[i].key != k { assert fs[i + 1].key != k; }
      }
    }
  }
}
