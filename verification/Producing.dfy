/** The sending end that diffs complete snapshots: what it has observed of each key, what it
    last put on the lane, and the frame between the two. */
module Producing {
  import opened Wrappers
  import opened Peaks
  import opened Replication

  /** What the producer keeps about one key: the value last observed and how many observations
      changed it, the value last committed to the lane and the revision it went out at. */
  datatype Slot = Slot(latest: Option<Option<Value>>, source: nat, previous: Option<Option<Value>>, revision: nat)
  {
    function Before(): Option<Value> {
      previous.GetOr(None)
    }
  }

  datatype Lane = Lane(keySnapshot: bool, epoch: string, version: int)

  datatype ProducerState = ProducerState(
    lane: Lane,
    previous: map<Key, Option<Value>>, revisions: map<Key, nat>,
    latest: map<Key, Option<Value>>, source: map<Key, nat>)
  {
    function At(k: Key): Slot {
      Slot(Lookup(latest, k), Count(source, k), Lookup(previous, k), Count(revisions, k))
    }

    predicate Valid() {
      && latest.Keys == source.Keys
      && previous.Keys == revisions.Keys
      && previous.Keys <= latest.Keys
    }
  }

  function NoticeSlot(s: Slot, value: Option<Value>): Slot {
    if s.latest == Some(value) then s else s.(latest := Some(value), source := s.source + 1)
  }

  /** The frame that carries `value` from the base last committed; none when it already went out. */
  function SlotFrame(lane: Lane, k: Key, s: Slot, value: Option<Value>): Option<Frame> {
    if s.source == s.revision then None
    else
      var before := s.Before();
      Some(Frame(lane.epoch, lane.version, k, s.revision, s.source, value.None?, "",
                 if value.None? || before.None? || lane.keySnapshot then Full(value)
                 else Delta(PeakPatch(before.value, value.value))))
  }

  function CommitSlot(s: Slot, revision: nat, value: Option<Value>): Slot {
    s.(previous := Some(value), revision := revision)
  }

  /** Prepared, yielded and committed in one go. */
  function DrainSlot(s: Slot, value: Option<Value>): Slot {
    var t := NoticeSlot(s, value);
    if t.source == t.revision then t else CommitSlot(t, t.source, value)
  }

  // ---- what each call does to the whole state -------------------------------------------

  ghost predicate Observes(p: ProducerState, current: map<Key, Value>, q: ProducerState) {
    && q.Valid() && q.lane == p.lane
    && forall k :: q.At(k)
         == if k in p.latest || k in current then NoticeSlot(p.At(k), Lookup(current, k)) else p.At(k)
  }

  /** Observed so far: all but the keys still to do. */
  ghost predicate ObservesBut(p: ProducerState, current: map<Key, Value>, q: ProducerState, todo: set<Key>) {
    && q.Valid() && q.lane == p.lane && todo <= p.latest.Keys + current.Keys
    && forall k :: q.At(k)
         == if (k in p.latest || k in current) && k !in todo then NoticeSlot(p.At(k), Lookup(current, k)) else p.At(k)
  }

  lemma OneMoreNoticed(p: ProducerState, current: map<Key, Value>, q: ProducerState, todo: set<Key>, key: Key,
                       r: ProducerState)
    requires ObservesBut(p, current, q, todo) && key in todo && r.Valid() && r.lane == q.lane
    requires r.At(key) == NoticeSlot(q.At(key), Lookup(current, key))
    requires forall k :: k != key ==> r.At(k) == q.At(k)
    ensures ObservesBut(p, current, r, todo - {key})
  {
  }

  ghost predicate Prepares(p: ProducerState, key: Key, value: Option<Value>, q: ProducerState, frame: Option<Frame>) {
    && q.Valid() && q.lane == p.lane && key in q.latest
    && q.At(key) == NoticeSlot(p.At(key), value)
    && (forall k :: k != key ==> q.At(k) == p.At(k))
    && frame == SlotFrame(p.lane, key, q.At(key), value)
  }

  lemma SameSlots(p: ProducerState, q: ProducerState)
    requires p.Valid() && q.Valid() && q.lane == p.lane && forall k :: q.At(k) == p.At(k)
    ensures q == p
  {
    forall k
      ensures Lookup(q.previous, k) == Lookup(p.previous, k) && Lookup(q.latest, k) == Lookup(p.latest, k)
      ensures Lookup(q.revisions, k) == Lookup(p.revisions, k) && Lookup(q.source, k) == Lookup(p.source, k)
    {
      assert q.At(k) == p.At(k);
      assert k in p.previous <==> k in q.previous;
    }
    SameLookups(q.previous, p.previous);
    SameLookups(q.revisions, p.revisions);
    SameLookups(q.latest, p.latest);
    SameLookups(q.source, p.source);
  }

  /** Preparing is called pure. It is exactly when the value is the one noticed last; and whatever is
      prepared, what was committed of any key stays. */
  lemma PreparingIsPureExactly(p: ProducerState, key: Key, value: Option<Value>, q: ProducerState, frame: Option<Frame>)
    requires p.Valid() && Prepares(p, key, value, q, frame)
    ensures q == p <==> Lookup(p.latest, key) == Some(value)
    ensures q.previous == p.previous && q.revisions == p.revisions
  {
    if Lookup(p.latest, key) == Some(value) { SameSlots(p, q); }
    forall k ensures q.At(k).previous == p.At(k).previous && q.At(k).revision == p.At(k).revision {
      if k != key { assert q.At(k) == p.At(k); }
    }
    CommittedStays(p, q);
  }

  lemma CommittedStays(p: ProducerState, q: ProducerState)
    requires p.Valid() && q.Valid()
    requires forall k :: q.At(k).previous == p.At(k).previous && q.At(k).revision == p.At(k).revision
    ensures q.previous == p.previous && q.revisions == p.revisions
  {
    forall k
      ensures Lookup(q.previous, k) == Lookup(p.previous, k) && Lookup(q.revisions, k) == Lookup(p.revisions, k)
    {
      assert q.At(k).previous == p.At(k).previous;
    }
    SameLookups(q.previous, p.previous);
    SameLookups(q.revisions, p.revisions);
  }

  ghost predicate Commits(p: ProducerState, frame: Frame, value: Option<Value>, q: ProducerState) {
    && q.Valid() && q.lane == p.lane
    && q.At(frame.key) == CommitSlot(p.At(frame.key), frame.revision, value)
    && forall k :: k != frame.key ==> q.At(k) == p.At(k)
  }

  /** `keys` drained from an observed state `p`, leaving `q` and yielding `out`. */
  ghost predicate Drains(p: ProducerState, current: map<Key, Value>, keys: set<Key>, q: ProducerState,
                         out: seq<Frame>)
  {
    && q.Valid() && q.lane == p.lane
    && Emitted(p, current, keys, out)
    && forall k :: q.At(k) == if k in keys then DrainSlot(p.At(k), Lookup(current, k)) else p.At(k)
  }

  /** One frame for each of `keys` that is behind, and nothing else; `p` is the state they were
      prepared from. */
  ghost predicate Emitted(p: ProducerState, current: map<Key, Value>, keys: set<Key>, out: seq<Frame>) {
    && DistinctKeys(out)
    && (forall i :: 0 <= i < |out| ==>
          && out[i].key in keys
          && SlotFrame(p.lane, out[i].key, p.At(out[i].key), Lookup(current, out[i].key)) == Some(out[i]))
    && (forall k :: k in keys && p.At(k).source != p.At(k).revision ==> exists i :: 0 <= i < |out| && out[i].key == k)
  }

  lemma EmitOneMore(p: ProducerState, current: map<Key, Value>, keys: set<Key>, key: Key, out: seq<Frame>)
    requires key !in keys && Emitted(p, current, keys, out)
    ensures var frame := SlotFrame(p.lane, key, p.At(key), Lookup(current, key));
            Emitted(p, current, keys + {key}, if frame.Some? then out + [frame.value] else out)
  {
    var frame := SlotFrame(p.lane, key, p.At(key), Lookup(current, key));
    if frame.Some? {
      var longer := out + [frame.value];
      assert longer[|out|].key == key;
      forall k | k in keys && p.At(k).source != p.At(k).revision
        ensures exists i :: 0 <= i < |longer| && longer[i].key == k
      {
        var i :| 0 <= i < |out| && out[i].key == k;
        assert longer[i].key == k;
      }
    }
  }

  class Producer {
    const lane: Lane
    var previous: map<Key, Option<Value>>
    var revisions: map<Key, nat>
    var latest: map<Key, Option<Value>>
    var sourceRevisions: map<Key, nat>

    function State(): ProducerState
      reads this
    {
      ProducerState(lane, previous, revisions, latest, sourceRevisions)
    }

    constructor (lane: Lane)
      ensures State() == ProducerState(lane, map[], map[], map[], map[])
    {
      this.lane := lane;
      previous, revisions, latest, sourceRevisions := map[], map[], map[], map[];
    }

    method Notice(key: Key, value: Option<Value>)
      requires State().Valid()
      modifies this`latest, this`sourceRevisions
      ensures State().Valid() && key in latest
      ensures State().At(key) == NoticeSlot(old(State()).At(key), value)
      ensures forall k :: k != key ==> State().At(k) == old(State()).At(k)
    {
      if key !in latest || latest[key] != value {
        latest := latest[key := value];
        sourceRevisions := sourceRevisions[key := Count(sourceRevisions, key) + 1];
      }
    }

    method Observe(current: map<Key, Value>)
      requires State().Valid()
      modifies this`latest, this`sourceRevisions
      ensures Observes(old(State()), current, State())
    {
      ghost var p := State();
      var todo := latest.Keys + current.Keys;
      while todo != {}
        invariant ObservesBut(p, current, State(), todo)
        decreases todo
      {
        var key :| key in todo;
        ghost var q := State();
        Notice(key, Lookup(current, key));
        OneMoreNoticed(p, current, q, todo, key, State());
        todo := todo - {key};
      }
    }

    method Prepare(key: Key, value: Option<Value>) returns (frame: Option<Frame>)
      requires State().Valid()
      modifies this`latest, this`sourceRevisions
      ensures Prepares(old(State()), key, value, State(), frame)
    {
      Notice(key, value);
      var before := if key in previous then previous[key] else None;
      var revision := if key in revisions then revisions[key] else 0;
      if sourceRevisions[key] == revision {
        return None;
      }
      var body;
      if value.None? || before.None? || lane.keySnapshot {
        body := Full(value);
      } else {
        body := Delta(PeakPatch(before.value, value.value));
      }
      frame := Some(Frame(lane.epoch, lane.version, key, revision, sourceRevisions[key], value.None?, "", body));
    }

    method Commit(frame: Frame, value: Option<Value>)
      requires State().Valid() && frame.key in latest
      modifies this`revisions, this`previous
      ensures Commits(old(State()), frame, value, State())
    {
      revisions := revisions[frame.key := frame.revision];
      previous := previous[frame.key := value];
    }

    /** One turn of the generator: prepare, yield, commit what was yielded. */
    method Turn(key: Key, value: Option<Value>) returns (frame: Option<Frame>)
      requires State().Valid()
      modifies this
      ensures State().Valid()
      ensures frame == SlotFrame(lane, key, NoticeSlot(old(State()).At(key), value), value)
      ensures State().At(key) == DrainSlot(old(State()).At(key), value)
      ensures forall k :: k != key ==> State().At(k) == old(State()).At(k)
    {
      frame := Prepare(key, value);
      if frame.Some? {
        Commit(frame.value, value);
      }
    }

    /** The loop of the generator over `keys`, after the snapshot has been observed. */
    method Drain(keys: set<Key>, current: map<Key, Value>) returns (out: seq<Frame>)
      requires State().Valid()
      requires forall k :: k in keys ==> State().At(k).latest == Some(Lookup(current, k))
      modifies this
      ensures Drains(old(State()), current, keys, State(), out)
    {
      ghost var q := State();
      out := [];
      var todo := keys;
      ghost var done: set<Key> := {};
      while todo != {}
        invariant done !! todo && done + todo == keys && State().Valid()
        invariant forall k :: State().At(k)
                    == if k in done then DrainSlot(q.At(k), Lookup(current, k)) else q.At(k)
        invariant Emitted(q, current, done, out)
        decreases todo
      {
        var key :| key in todo;
        EmitOneMore(q, current, done, key, out);
        var frame := Turn(key, Lookup(current, key));
        if frame.Some? {
          out := out + [frame.value];
        }
        todo, done := todo - {key}, done + {key};
      }
      assert done == keys;
    }

    /** The generator run to its end with nothing in between: each frame is committed as it is
        yielded. The order of the keys does not show in the result. `observed` names the state
        the frames were prepared from. */
    method Frames(current: map<Key, Value>) returns (out: seq<Frame>, ghost observed: ProducerState)
      requires State().Valid()
      modifies this
      ensures Observes(old(State()), current, observed)
      ensures Drains(observed, current, old(previous).Keys + current.Keys, State(), out)
    {
      Observe(current);
      observed := State();
      out := Drain(previous.Keys + current.Keys, current);
    }
  }
}
