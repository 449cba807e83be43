/** Readers of a journal: each is handed whichever of the frames that have gone out, late, again, out of
    order or not at all. What is left of such a history is the list of frames it was handed, so a
    reader at some moment of a run is any list of frames out by then. */
module JournalReaders {
  import opened Wrappers
  import opened Peaks
  import opened Replication
  import opened Journaling
  import opened JournalProtocol

  // ---- the frames of a run -----------------------------------------------------------------

  /** The frame of step `p` has gone out by state `k`. */
  predicate IsOut(steps: seq<Step>, p: nat, k: nat) {
    p < k && p < |steps| && (steps[p].Prepare? || steps[p].SendFirst?)
  }

  /** The state a frame is prepared from; a first frame is one of a key nothing was sent of. */
  function PreparedFrom(w: World, s: Step): World {
    if s.SendFirst? then
      w.(l := FRESH.(source := 1, pending := Some(Pending(map[]))), base := None, natives := Some(s.value))
    else w
  }

  ghost function From(run: seq<World>, steps: seq<Step>, p: nat): World
    requires IsRun(run, steps) && p < |steps|
  {
    PreparedFrom(run[p], steps[p])
  }

  ghost function FrameAt(run: seq<World>, steps: seq<Step>, p: nat): Frame
    requires IsRun(run, steps) && IsOut(steps, p, |steps|)
  {
    var from := From(run, steps, p);
    assert Next(run[p], steps[p], run[p + 1]);
    FrameOf(from.l, from.key, from.natives, from.date)
  }

  lemma FirstFrameIsOut(run: seq<World>, steps: seq<Step>, p: nat)
    requires IsRun(run, steps) && IsOut(steps, p, |steps|)
    ensures steps[p].SendFirst? ==> FrameAt(run, steps, p) == FirstFrame(run[p].key, steps[p].value, run[p].date)
  {
  }

  predicate IsFeed(steps: seq<Step>, feed: seq<nat>, k: nat) {
    forall i :: 0 <= i < |feed| ==> IsOut(steps, feed[i], k)
  }

  lemma FeedFront(steps: seq<Step>, feed: seq<nat>, k: nat)
    requires IsFeed(steps, feed, k) && feed != []
    ensures IsFeed(steps, feed[..|feed| - 1], k) && IsOut(steps, feed[|feed| - 1], |steps|)
    ensures IsFeed(steps, feed, |steps|)
  {
    forall i | 0 <= i < |feed| ensures IsOut(steps, feed[i], |steps|) { assert IsOut(steps, feed[i], k); }
  }

  /** What a reader holds of the key once it has been handed the frames of `feed`. */
  ghost function Reader(run: seq<World>, steps: seq<Step>, feed: seq<nat>): Entry
    requires IsRun(run, steps) && IsFeed(steps, feed, |steps|)
  {
    if feed == [] then Entry(0, None, false)
    else
      FeedFront(steps, feed, |steps|);
      ApplyEntry(Reader(run, steps, feed[..|feed| - 1]), FrameAt(run, steps, feed[|feed| - 1])).1
  }

  /** And the date on which each of its sides was last written, by a frame it took. */
  ghost function Dates(run: seq<World>, steps: seq<Step>, feed: seq<nat>): Stamps
    requires IsRun(run, steps) && IsFeed(steps, feed, |steps|)
  {
    if feed == [] then OnDate("")
    else
      FeedFront(steps, feed, |steps|);
      var front := feed[..|feed| - 1];
      StampsHanded(Dates(run, steps, front), Reader(run, steps, front), FrameAt(run, steps, feed[|feed| - 1]))
  }

  lemma HandOne(run: seq<World>, steps: seq<Step>, feed: seq<nat>, p: nat, k: nat)
    requires IsRun(run, steps) && IsFeed(steps, feed, k) && IsOut(steps, p, k)
    ensures IsFeed(steps, feed + [p], k) && IsFeed(steps, feed, |steps|) && IsFeed(steps, feed + [p], |steps|)
    ensures var e, f := Reader(run, steps, feed), FrameAt(run, steps, p);
            && Reader(run, steps, feed + [p]) == ApplyEntry(e, f).1
            && Dates(run, steps, feed + [p]) == StampsHanded(Dates(run, steps, feed), e, f)
  {
    FeedFront(steps, feed + [p], k);
    assert (feed + [p])[..|feed|] == feed;
    FeedsLast(steps, feed, k, |steps|);
    FeedsLast(steps, feed + [p], k, |steps|);
  }

  lemma FeedsLast(steps: seq<Step>, feed: seq<nat>, j: nat, k: nat)
    requires IsFeed(steps, feed, j) && (j <= k || k == |steps|)
    ensures IsFeed(steps, feed, k)
  {
    forall i | 0 <= i < |feed| ensures IsOut(steps, feed[i], k) {
      assert IsOut(steps, feed[i], j);
    }
  }

  lemma OutIsPrepared(run: seq<World>, steps: seq<Step>, p: nat, k: nat)
    requires IsRun(run, steps) && k < |run| && Orderly(run, steps, k) && IsOut(steps, p, k)
    ensures var from := From(run, steps, p);
            && LedgerOk(from) && from.l.source >= 1 && from.date == run[p].date
            && (Patches(from.l, from.natives, from.date) ==> from.l.pending.Some?)
            && from.natives == run[p].natives
            && (from == run[p] || (from.l.sentDate.None? && from.l.source == 1 && run[p].l.source == 0))
  {
    RunKeepsInv(run, steps, p);
    assert Next(run[p], steps[p], run[p + 1]) && IsOrderly(run[p], steps[p]);
  }

  // ---- what an orderly run keeps ---------------------------------------------------------------

  /** Revisions only grow, and the native state changes only with the source revision. */
  lemma {:induction false} SourceGrows(run: seq<World>, steps: seq<Step>, i: nat, j: nat)
    requires IsRun(run, steps) && i <= j < |run| && Orderly(run, steps, j)
    ensures run[i].l.source <= run[j].l.source && run[i].l.sent <= run[j].l.sent
    ensures run[i].l.source == run[j].l.source ==> run[i].natives == run[j].natives
    decreases j
  {
    if i < j {
      SourceGrows(run, steps, i, j - 1);
      RunKeepsInv(run, steps, j - 1);
      assert Next(run[j - 1], steps[j - 1], run[j]) && IsOrderly(run[j - 1], steps[j - 1]);
    }
  }

  /** From a first frame on the native state stays until the key's second revision. */
  lemma {:induction false} FirstHolds(run: seq<World>, steps: seq<Step>, p: nat, k: nat)
    requires IsRun(run, steps) && p < k < |run| && Orderly(run, steps, k) && steps[p].SendFirst?
    ensures run[k].l.source == 0 ==> steps[p].value in run[k].firsts
    ensures run[k].l.source <= 1 ==> run[k].natives == Some(steps[p].value)
    decreases k
  {
    assert Next(run[k - 1], steps[k - 1], run[k]) && IsOrderly(run[k - 1], steps[k - 1]);
    if p < k - 1 {
      FirstHolds(run, steps, p, k - 1);
    }
  }

  lemma FirstAndLater(run: seq<World>, steps: seq<Step>, p: nat, q: nat, k: nat)
    requires IsRun(run, steps) && k < |run| && Orderly(run, steps, k) && IsOut(steps, p, k) && IsOut(steps, q, k)
    requires steps[p].SendFirst? && From(run, steps, q).l.source == 1
    ensures From(run, steps, q).natives == Some(steps[p].value)
  {
    OutIsPrepared(run, steps, p, k);
    OutIsPrepared(run, steps, q, k);
    if p < q {
      FirstHolds(run, steps, p, q);
    } else if q < p {
      SourceGrows(run, steps, q, p);
      if steps[q].SendFirst? { FirstHolds(run, steps, q, p); }
    }
  }

  /** Two frames of one revision were prepared from one native state. */
  lemma SameRevisionSameState(run: seq<World>, steps: seq<Step>, p: nat, q: nat, k: nat)
    requires IsRun(run, steps) && k < |run| && Orderly(run, steps, k) && IsOut(steps, p, k) && IsOut(steps, q, k)
    requires From(run, steps, p).l.source == From(run, steps, q).l.source
    ensures From(run, steps, p).natives == From(run, steps, q).natives
  {
    if steps[p].SendFirst? {
      FirstAndLater(run, steps, p, q, k);
    } else if steps[q].SendFirst? {
      FirstAndLater(run, steps, q, p, k);
    } else if p <= q {
      SourceGrows(run, steps, p, q);
    } else {
      SourceGrows(run, steps, q, p);
    }
  }

  ghost predicate IsPreparedAt(run: seq<World>, steps: seq<Step>, q: nat, g: Flight, k: nat)
    requires IsRun(run, steps)
  {
    IsOut(steps, q, k) && steps[q].Prepare? && g.frame == FrameAt(run, steps, q) && g.natives == run[q].natives
  }

  lemma {:induction false} PreparedWasOut(run: seq<World>, steps: seq<Step>, g: Flight, k: nat)
    requires IsRun(run, steps) && k < |run| && g in run[k].prepared
    ensures exists q :: IsPreparedAt(run, steps, q, g, k)
  {
    if k > 0 {
      assert Next(run[k - 1], steps[k - 1], run[k]);
      if g in run[k - 1].prepared {
        PreparedWasOut(run, steps, g, k - 1);
        var q :| IsPreparedAt(run, steps, q, g, k - 1);
        assert IsPreparedAt(run, steps, q, g, k);
      } else {
        assert IsPreparedAt(run, steps, k - 1, g, k);
      }
    }
  }

  ghost predicate IsOpenedAt(steps: seq<Step>, q: nat, value: Natives, k: nat) {
    IsOut(steps, q, k) && steps[q] == SendFirst(value)
  }

  lemma {:induction false} FirstWasOut(run: seq<World>, steps: seq<Step>, value: Natives, k: nat)
    requires IsRun(run, steps) && k < |run| && value in run[k].firsts
    ensures exists q :: IsOpenedAt(steps, q, value, k)
  {
    if k > 0 {
      assert Next(run[k - 1], steps[k - 1], run[k]);
      if value in run[k - 1].firsts {
        FirstWasOut(run, steps, value, k - 1);
        var q :| IsOpenedAt(steps, q, value, k - 1);
        assert IsOpenedAt(steps, q, value, k);
      } else {
        assert IsOpenedAt(steps, k - 1, value, k);
      }
    }
  }

  ghost predicate IsCommitted(run: seq<World>, steps: seq<Step>, q: nat, k: nat)
    requires IsRun(run, steps) && k < |run|
  {
    IsOut(steps, q, k) && From(run, steps, q).l.source == run[k].l.sent && From(run, steps, q).natives == run[k].base
  }

  /** What was committed last is a frame that went out. */
  lemma {:induction false} CommittedWasOut(run: seq<World>, steps: seq<Step>, k: nat)
    requires IsRun(run, steps) && k < |run| && Orderly(run, steps, k) && run[k].l.sentDate.Some?
    ensures exists q :: IsCommitted(run, steps, q, k)
  {
    if k > 0 {
      var s := steps[k - 1];
      assert Next(run[k - 1], s, run[k]) && IsOrderly(run[k - 1], s);
      if s.Commit? {
        PreparedWasOut(run, steps, s.g, k - 1);
        var q :| IsPreparedAt(run, steps, q, s.g, k - 1);
        assert IsCommitted(run, steps, q, k);
      } else if s.CommitFirst? {
        FirstWasOut(run, steps, s.value, k - 1);
        var q :| IsOpenedAt(steps, q, s.value, k - 1);
        assert IsCommitted(run, steps, q, k);
      } else {
        CommittedWasOut(run, steps, k - 1);
        var q :| IsCommitted(run, steps, q, k - 1);
        assert IsCommitted(run, steps, q, k);
      }
    }
  }

  // ---- every reader holds what was native ------------------------------------------------------

  /** Handed any frame: a reader that holds the frame's base if it stands at its revision. */
  lemma AnyFrameDelivers(w: World, e: Entry, d: Stamps)
    requires LedgerOk(w) && w.l.source >= 1 && (Patches(w.l, w.natives, w.date) ==> w.l.pending.Some?)
    requires e.revision == w.l.sent && w.l.sentDate.Some? ==> Carries(e.value, w.base, d)
    ensures var f := FrameOf(w.l, w.key, w.natives, w.date);
            var (o, e2) := ApplyEntry(e, f);
            && o.Returned?
            && (if o.applied then e2.revision == w.l.source && Carries(e2.value, w.natives, StampsAfter(d, f))
                else e2.revision == e.revision && e2.value == e.value)
            && (f.revision > e.revision && (f.body.Full? || f.base == e.revision) ==> o.applied)
  {
    if e.revision == w.l.sent && w.l.sentDate.Some? {
      PreparedFrameDelivers(w, e, d);
    } else if w.natives.Some? {
      ValueNormalizes(w.names, w.natives.value, w.date);
    }
  }

  /** A reader's copy is the native state of some frame that is out, at that frame's revision. */
  ghost predicate HoldsFrame(run: seq<World>, steps: seq<Step>, e: Entry, p: nat, d: Stamps, k: nat)
    requires IsRun(run, steps)
  {
    && IsOut(steps, p, k) && e.revision == From(run, steps, p).l.source
    && Carries(e.value, From(run, steps, p).natives, d)
  }

  ghost predicate ReaderOk(run: seq<World>, steps: seq<Step>, e: Entry, d: Stamps, k: nat)
    requires IsRun(run, steps)
  {
    if e.revision == 0 then e.value.None? else exists p :: HoldsFrame(run, steps, e, p, d, k)
  }

  /** A reader at the committed revision of a state holds what was committed there. */
  lemma HoldsBase(run: seq<World>, steps: seq<Step>, e: Entry, d: Stamps, p: nat, k: nat)
    requires IsRun(run, steps) && k < |run| && p <= k && Orderly(run, steps, k) && ReaderOk(run, steps, e, d, k)
    requires e.revision == run[p].l.sent
    ensures Carries(e.value, run[p].base, d)
  {
    RunKeepsInv(run, steps, p);
    if e.revision > 0 {
      var q :| HoldsFrame(run, steps, e, q, d, k);
      CommittedWasOut(run, steps, p);
      var c :| IsCommitted(run, steps, c, p);
      SameRevisionSameState(run, steps, q, c, k);
    }
  }

  /** One more frame handed to a reader. */
  lemma HandingKeepsReader(run: seq<World>, steps: seq<Step>, e: Entry, d: Stamps, p: nat, k: nat)
    requires IsRun(run, steps) && k < |run| && Orderly(run, steps, k)
    requires ReaderOk(run, steps, e, d, k) && IsOut(steps, p, k)
    ensures var f := FrameAt(run, steps, p);
            var (o, e2) := ApplyEntry(e, f);
            && o.Returned? && ReaderOk(run, steps, e2, StampsHanded(d, e, f), k) && e2.revision >= e.revision
            && (steps[p].Prepare? && e.revision == run[p].l.sent ==> e2.revision == run[p].l.source)
  {
    OutIsPrepared(run, steps, p, k);
    var from := From(run, steps, p);
    if e.revision == from.l.sent && from.l.sentDate.Some? {
      HoldsBase(run, steps, e, d, p, k);
    }
    AnyFrameDelivers(from, e, d);
    var f := FrameAt(run, steps, p);
    var (o, e2) := ApplyEntry(e, f);
    if o.applied {
      assert HoldsFrame(run, steps, e2, p, StampsAfter(d, f), k);
    } else if e.revision > 0 {
      var q :| HoldsFrame(run, steps, e, q, d, k);
      assert HoldsFrame(run, steps, e2, q, d, k);
    }
  }

  /** Whatever a reader is handed and however often: at revision `r` it holds the native state of
      revision `r` in normal form, each side on the date on which a frame last wrote it. */
  lemma {:induction false} ReadersHoldWhatWasNative(run: seq<World>, steps: seq<Step>, feed: seq<nat>, k: nat)
    requires IsRun(run, steps) && k < |run| && Orderly(run, steps, k)
    requires IsFeed(steps, feed, k)
    ensures ReaderOk(run, steps, Reader(run, steps, feed), Dates(run, steps, feed), k)
  {
    if feed != [] {
      var front := feed[..|feed| - 1];
      FeedFront(steps, feed, k);
      FeedsLast(steps, front, k, |steps|);
      ReadersHoldWhatWasNative(run, steps, front, k);
      HandingKeepsReader(run, steps, Reader(run, steps, front), Dates(run, steps, front), feed[|feed| - 1], k);
    }
  }

  /** Nothing a reader is handed raises, and its revision never goes back. */
  lemma ReadersNeverRaise(run: seq<World>, steps: seq<Step>, feed: seq<nat>, p: nat, k: nat)
    requires IsRun(run, steps) && k < |run| && Orderly(run, steps, k)
    requires IsFeed(steps, feed, k) && IsOut(steps, p, k)
    ensures ApplyEntry(Reader(run, steps, feed), FrameAt(run, steps, p)).0.Returned?
    ensures IsFeed(steps, feed + [p], |steps|)
    ensures Reader(run, steps, feed + [p]).revision >= Reader(run, steps, feed).revision
  {
    ReadersHoldWhatWasNative(run, steps, feed, k);
    HandingKeepsReader(run, steps, Reader(run, steps, feed), Dates(run, steps, feed), p, k);
    HandOne(run, steps, feed, p, k);
  }

  /** No orderly interleaving of mutations, rollovers, preparations and commits loses a marker, and no
      history of deliveries matters: a reader at the committed revision that is handed the frame prepared next
      holds the native state of that moment, on the frame's date wherever it was written and else on
      the date it was written before. */
  lemma NoLostMarker(run: seq<World>, steps: seq<Step>, n: nat, feed: seq<nat>)
    requires IsRun(run, steps) && n < |steps| && steps[n].Prepare? && Orderly(run, steps, n)
    requires IsFeed(steps, feed, n)
    requires Reader(run, steps, feed).revision == run[n].l.sent
    ensures var e, d, f := Reader(run, steps, feed), Dates(run, steps, feed), FrameAt(run, steps, n);
            var (o, e2) := ApplyEntry(e, f);
            && o == Returned(run[n].l.source > run[n].l.sent)
            && e2.revision == run[n].l.source
            && Carries(e2.value, run[n].natives, StampsHanded(d, e, f))
  {
    assert Next(run[n], steps[n], run[n + 1]);
    RunKeepsInv(run, steps, n);
    ReadersHoldWhatWasNative(run, steps, feed, n);
    HoldsBase(run, steps, Reader(run, steps, feed), Dates(run, steps, feed), n, n);
    PreparedFrameDelivers(run[n], Reader(run, steps, feed), Dates(run, steps, feed));
  }

  // ---- readers at the committed base -----------------------------------------------------------

  lemma CarriesOnDates(have: Option<NormalValue>, n: Option<Natives>, d: Stamps, e: Stamps)
    requires Carries(have, n, d)
    ensures Carries(have, n, e) <==> forall s :: Shows(n, s) ==> d.At(s) == e.At(s)
  {
    if n.Some? {
      SideOnDates(n.value.ask, d.ask, e.ask);
      SideOnDates(n.value.bid, d.bid, e.bid);
      if Carries(have, n, e) {
        forall s | Shows(n, s) ensures d.At(s) == e.At(s) { match s case Ask => case Bid => }
      } else {
        assert !(Shows(n, Ask) ==> d.At(Ask) == e.At(Ask)) || !(Shows(n, Bid) ==> d.At(Bid) == e.At(Bid));
      }
    }
  }

  lemma SideOnDates(n: Native, a: string, b: string)
    ensures NormalOf(n, a) == NormalOf(n, b) <==> n.meta.None? || a == b
  {
    if n.meta.Some? {
      assert FieldsOf(n, a)[DATE] == Text(a) && FieldsOf(n, b)[DATE] == Text(b);
    }
  }

  /** One reader at the committed revision holds what was committed, dates and all, exactly when each
      side the base shows was last written to it on the committed date. */
  lemma ReaderIsAtBase(run: seq<World>, steps: seq<Step>, feed: seq<nat>, k: nat)
    requires IsRun(run, steps) && k < |run| && Orderly(run, steps, k)
    requires IsFeed(steps, feed, k)
    requires Reader(run, steps, feed).revision == run[k].l.sent
    ensures AtBase(run[k], Reader(run, steps, feed))
       <==> forall s :: Shows(run[k].base, s) ==> Dates(run, steps, feed).At(s) == run[k].l.sentDate.GetOr("")
  {
    var e, d, date := Reader(run, steps, feed), Dates(run, steps, feed), run[k].l.sentDate.GetOr("");
    ReadersHoldWhatWasNative(run, steps, feed, k);
    HoldsBase(run, steps, e, d, k, k);
    CarriesOnDates(e.value, run[k].base, d, OnDate(date));
    assert forall s: SideName :: OnDate(date).At(s) == date;
  }

  // ---- every reader at once ----------------------------------------------------------------------

  /** Some frame of the committed revision went out with another date than the one committed, and not
      of a state that shows nothing. */
  ghost predicate Redated(run: seq<World>, steps: seq<Step>, k: nat)
    requires IsRun(run, steps) && k < |run|
  {
    (Shows(run[k].base, Ask) || Shows(run[k].base, Bid)) && exists p :: IsRedatedBy(run, steps, p, k)
  }

  ghost predicate IsRedatedBy(run: seq<World>, steps: seq<Step>, p: nat, k: nat)
    requires IsRun(run, steps) && k < |run|
  {
    && IsOut(steps, p, k) && From(run, steps, p).l.source == run[k].l.sent
    && run[k].l.sentDate != Some(run[p].date)
  }

  ghost predicate NothingRedated(run: seq<World>, steps: seq<Step>, n: nat)
    requires IsRun(run, steps) && n < |run|
  {
    forall k :: 0 <= k <= n ==> !Redated(run, steps, k)
  }

  /** The reader stands at the committed revision only if it holds the committed state, dates and all. */
  ghost predicate AtBaseIfLevel(run: seq<World>, steps: seq<Step>, feed: seq<nat>, k: nat)
    requires IsRun(run, steps) && k < |run|
  {
    IsFeed(steps, feed, k) && Reader(run, steps, feed).revision == run[k].l.sent ==>
      AtBase(run[k], Reader(run, steps, feed))
  }

  /** Committing a revision again, with nothing redated, changes neither its date nor its state. */
  lemma {:induction false} SentDateHolds(run: seq<World>, steps: seq<Step>, p: nat, j: nat)
    requires IsRun(run, steps) && p <= j < |run| && Orderly(run, steps, j) && NothingRedated(run, steps, j)
    requires run[p].l.sent == run[j].l.sent > 0 && (Shows(run[p].base, Ask) || Shows(run[p].base, Bid))
    ensures run[j].l.sentDate == run[p].l.sentDate && run[j].base == run[p].base
    decreases j
  {
    if p < j {
      SourceGrows(run, steps, p, j - 1);
      SourceGrows(run, steps, j - 1, j);
      SentDateHolds(run, steps, p, j - 1);
      assert !Redated(run, steps, j - 1);
      SameRevisionStep(run, steps, j - 1);
    }
  }

  lemma SameRevisionStep(run: seq<World>, steps: seq<Step>, j: nat)
    requires IsRun(run, steps) && j < |steps| && Orderly(run, steps, j + 1) && !Redated(run, steps, j)
    requires run[j].l.sent == run[j + 1].l.sent > 0 && (Shows(run[j].base, Ask) || Shows(run[j].base, Bid))
    ensures run[j + 1].l.sentDate == run[j].l.sentDate && run[j + 1].base == run[j].base
  {
    RunKeepsInv(run, steps, j);
    assert Next(run[j], steps[j], run[j + 1]) && IsOrderly(run[j], steps[j]);
    if steps[j].Commit? { SameFrameCommitted(run, steps, j); }
  }

  lemma SameFrameCommitted(run: seq<World>, steps: seq<Step>, j: nat)
    requires IsRun(run, steps) && j < |steps| && Orderly(run, steps, j) && steps[j].Commit? && !Redated(run, steps, j)
    requires run[j].l.sentDate.Some? && steps[j].g.frame.revision == run[j].l.sent
    requires Shows(run[j].base, Ask) || Shows(run[j].base, Bid)
    ensures steps[j].g.natives == run[j].base && Some(steps[j].g.frame.date) == run[j].l.sentDate
  {
    var g := steps[j].g;
    assert Next(run[j], steps[j], run[j + 1]);
    PreparedWasOut(run, steps, g, j);
    var q :| IsPreparedAt(run, steps, q, g, j);
    CommittedWasOut(run, steps, j);
    var c :| IsCommitted(run, steps, c, j);
    SameRevisionSameState(run, steps, q, c, j);
    assert !IsRedatedBy(run, steps, q, j);
  }

  /** With nothing redated, every frame of a committed revision went out on the committed date. */
  lemma HeldDate(run: seq<World>, steps: seq<Step>, q: nat, p: nat, k: nat)
    requires IsRun(run, steps) && p <= k < |run| && Orderly(run, steps, k) && NothingRedated(run, steps, k)
    requires IsOut(steps, q, k) && From(run, steps, q).l.source == run[p].l.sent
    requires run[p].l.sent > 0 && (Shows(run[p].base, Ask) || Shows(run[p].base, Bid))
    ensures run[p].l.sentDate == Some(run[q].date)
  {
    if q < p {
      assert !Redated(run, steps, p) && !IsRedatedBy(run, steps, q, p);
    } else {
      OutIsPrepared(run, steps, q, k);
      RunKeepsInv(run, steps, p);
      RunKeepsInv(run, steps, q);
      SourceGrows(run, steps, p, q);
      assert Next(run[q], steps[q], run[q + 1]);
      SentDateHolds(run, steps, p, q + 1);
      assert !Redated(run, steps, q + 1) && !IsRedatedBy(run, steps, q, q + 1);
    }
  }

  /** A frame held in full, all sides on its own date. */
  ghost predicate HoldsDated(run: seq<World>, steps: seq<Step>, e: Entry, p: nat, k: nat)
    requires IsRun(run, steps)
  {
    p < |run| && HoldsFrame(run, steps, e, p, OnDate(run[p].date), k)
  }

  ghost predicate IsDated(run: seq<World>, steps: seq<Step>, e: Entry, k: nat)
    requires IsRun(run, steps)
  {
    if e.revision == 0 then e.value.None? else exists q :: HoldsDated(run, steps, e, q, k)
  }

  lemma DatedFrameIsBase(run: seq<World>, steps: seq<Step>, e: Entry, p: nat, k: nat)
    requires IsRun(run, steps) && p <= k < |run| && Orderly(run, steps, k) && NothingRedated(run, steps, k)
    requires IsDated(run, steps, e, k) && e.revision == run[p].l.sent
    ensures AtBase(run[p], e)
  {
    RunKeepsInv(run, steps, p);
    if e.revision > 0 {
      var q: nat :| HoldsDated(run, steps, e, q, k);
      var d := OnDate(run[q].date);
      HoldsBase(run, steps, e, d, p, k);
      if Shows(run[p].base, Ask) || Shows(run[p].base, Bid) { HeldDate(run, steps, q, p, k); }
      CarriesOnDates(e.value, run[p].base, d, OnDate(run[p].l.sentDate.value));
      forall s | Shows(run[p].base, s) ensures d.At(s) == OnDate(run[p].l.sentDate.value).At(s) {
        match s case Ask => case Bid =>
      }
    }
  }

  lemma TakenIsDated(run: seq<World>, steps: seq<Step>, d: Stamps, e: Entry, p: nat, k: nat)
    requires IsRun(run, steps) && k < |run| && IsOut(steps, p, k)
    requires var f := FrameAt(run, steps, p);
             var e2 := ApplyEntry(e, f).1;
             && (f.body.Delta? ==> d == OnDate(f.date))
             && e2.revision == From(run, steps, p).l.source
             && Carries(e2.value, From(run, steps, p).natives, StampsAfter(d, f))
    ensures HoldsDated(run, steps, ApplyEntry(e, FrameAt(run, steps, p)).1, p, k)
  {
    assert StampsAfter(d, FrameAt(run, steps, p)) == OnDate(run[p].date);
  }

  /** With nothing redated, a frame a reader takes leaves all its sides on the frame's date. */
  lemma HandingKeepsDates(run: seq<World>, steps: seq<Step>, e: Entry, p: nat, k: nat)
    requires IsRun(run, steps) && k < |run| && Orderly(run, steps, k) && NothingRedated(run, steps, k)
    requires IsOut(steps, p, k) && IsDated(run, steps, e, k)
    ensures IsDated(run, steps, ApplyEntry(e, FrameAt(run, steps, p)).1, k)
  {
    OutIsPrepared(run, steps, p, k);
    var from, f := From(run, steps, p), FrameAt(run, steps, p);
    var d := OnDate(from.l.sentDate.GetOr(""));
    if e.revision == from.l.sent && from.l.sentDate.Some? {
      DatedFrameIsBase(run, steps, e, p, k);
    }
    AnyFrameDelivers(from, e, d);
    var (o, e2) := ApplyEntry(e, f);
    if o.applied {
      assert f.body.Delta? ==> d == OnDate(f.date);
      TakenIsDated(run, steps, d, e, p, k);
    } else if e.revision > 0 {
      var q :| HoldsDated(run, steps, e, q, k);
      assert HoldsDated(run, steps, e2, q, k);
    }
  }

  lemma {:induction false} ReadersAreDated(run: seq<World>, steps: seq<Step>, feed: seq<nat>, k: nat)
    requires IsRun(run, steps) && k < |run| && Orderly(run, steps, k) && NothingRedated(run, steps, k)
    requires IsFeed(steps, feed, k)
    ensures IsDated(run, steps, Reader(run, steps, feed), k)
  {
    if feed != [] {
      var front := feed[..|feed| - 1];
      FeedFront(steps, feed, k);
      FeedsLast(steps, front, k, |steps|);
      ReadersAreDated(run, steps, front, k);
      HandingKeepsDates(run, steps, Reader(run, steps, front), feed[|feed| - 1], k);
    }
  }

  lemma UndatedReadersAreAtBase(run: seq<World>, steps: seq<Step>, feed: seq<nat>, k: nat)
    requires IsRun(run, steps) && k < |run| && Orderly(run, steps, k) && NothingRedated(run, steps, k)
    ensures AtBaseIfLevel(run, steps, feed, k)
  {
    if IsFeed(steps, feed, k) && Reader(run, steps, feed).revision == run[k].l.sent {
      ReadersAreDated(run, steps, feed, k);
      DatedFrameIsBase(run, steps, Reader(run, steps, feed), k, k);
    }
  }

  // ---- a reader at each committed revision -------------------------------------------------------

  ghost predicate Follows(run: seq<World>, steps: seq<Step>, feed: seq<nat>, k: nat)
    requires IsRun(run, steps) && k < |run|
  {
    IsFeed(steps, feed, k) && Reader(run, steps, feed).revision == run[k].l.sent
  }

  /** Handed a frame at the revision it was prepared on, a reader is at the frame's. */
  lemma FollowsThrough(run: seq<World>, steps: seq<Step>, feed: seq<nat>, q: nat, k: nat)
    requires IsRun(run, steps) && k < |run| && Orderly(run, steps, k) && IsOut(steps, q, k)
    requires if steps[q].Prepare? then Follows(run, steps, feed, q) else feed == []
    ensures IsFeed(steps, feed + [q], k)
    ensures Reader(run, steps, feed + [q]).revision == From(run, steps, q).l.source
  {
    FeedsLast(steps, feed, q, k);
    HandOne(run, steps, feed, q, k);
    ReadersHoldWhatWasNative(run, steps, feed, k);
    HandingKeepsReader(run, steps, Reader(run, steps, feed), Dates(run, steps, feed), q, k);
  }

  lemma CommittedAt(run: seq<World>, steps: seq<Step>, k: nat) returns (q: nat)
    requires IsRun(run, steps) && k < |steps| && steps[k].Commit?
    ensures q < k && IsOut(steps, q, k) && IsOut(steps, q, k + 1) && steps[q].Prepare?
    ensures From(run, steps, q).l.source == run[k + 1].l.sent
  {
    assert Next(run[k], steps[k], run[k + 1]);
    PreparedWasOut(run, steps, steps[k].g, k);
    q :| IsPreparedAt(run, steps, q, steps[k].g, k);
  }

  lemma FirstCommittedAt(run: seq<World>, steps: seq<Step>, k: nat) returns (q: nat)
    requires IsRun(run, steps) && k < |steps| && steps[k].CommitFirst?
    ensures q < k && IsOut(steps, q, k + 1) && steps[q].SendFirst?
    ensures From(run, steps, q).l.source == run[k + 1].l.sent
  {
    assert Next(run[k], steps[k], run[k + 1]);
    FirstWasOut(run, steps, steps[k].value, k);
    q :| IsOpenedAt(steps, q, steps[k].value, k);
  }

  lemma StaysFollower(run: seq<World>, steps: seq<Step>, feed: seq<nat>, k: nat)
    requires IsRun(run, steps) && k < |steps| && !steps[k].Commit? && !steps[k].CommitFirst?
    requires Follows(run, steps, feed, k)
    ensures Follows(run, steps, feed, k + 1)
  {
    assert Next(run[k], steps[k], run[k + 1]);
    FeedsLast(steps, feed, k, k + 1);
  }

  /** At each moment of an orderly run some reader stands at the committed revision. */
  lemma {:induction false} FollowerExists(run: seq<World>, steps: seq<Step>, k: nat)
    requires IsRun(run, steps) && k < |run| && Orderly(run, steps, k)
    ensures exists feed :: Follows(run, steps, feed, k)
  {
    if k == 0 {
      assert Follows(run, steps, [], 0);
    } else if steps[k - 1].Commit? {
      var q := CommittedAt(run, steps, k - 1);
      FollowerExists(run, steps, q);
      var feed :| Follows(run, steps, feed, q);
      FollowsThrough(run, steps, feed, q, k);
      assert Follows(run, steps, feed + [q], k);
    } else if steps[k - 1].CommitFirst? {
      var q := FirstCommittedAt(run, steps, k - 1);
      FollowsThrough(run, steps, [], q, k);
      assert Follows(run, steps, [] + [q], k);
    } else {
      FollowerExists(run, steps, k - 1);
      var feed :| Follows(run, steps, feed, k - 1);
      StaysFollower(run, steps, feed, k - 1);
    }
  }

  // ---- what a redated revision costs -------------------------------------------------------------

  /** A reader on the date of the frame that was not committed. */
  lemma WrongDateIsSeen(run: seq<World>, steps: seq<Step>, e: Entry, p: nat, k: nat)
    requires IsRun(run, steps) && k < |run| && Orderly(run, steps, k) && Redated(run, steps, k)
    requires IsRedatedBy(run, steps, p, k) && HoldsDated(run, steps, e, p, k)
    ensures e.revision == run[k].l.sent && !AtBase(run[k], e)
  {
    var d := OnDate(run[p].date);
    RunKeepsInv(run, steps, k);
    OutIsPrepared(run, steps, p, k);
    HoldsBase(run, steps, e, d, k, k);
    CarriesOnDates(e.value, run[k].base, d, OnDate(run[k].l.sentDate.value));
    var s := if Shows(run[k].base, Ask) then Ask else Bid;
    assert Shows(run[k].base, s) && d.At(s) != OnDate(run[k].l.sentDate.value).At(s);
  }

  /** A reader at the base of the state a frame was prepared from, or a new one if the frame is full,
      takes the frame and is on its date. */
  lemma TakesItsDate(run: seq<World>, steps: seq<Step>, feed: seq<nat>, p: nat, k: nat)
    requires IsRun(run, steps) && k < |run| && Orderly(run, steps, k) && IsOut(steps, p, k) && IsFeed(steps, feed, k)
    requires if FrameAt(run, steps, p).body.Full? then feed == [] else AtBase(run[p], Reader(run, steps, feed))
    ensures IsFeed(steps, feed + [p], k)
    ensures HoldsDated(run, steps, Reader(run, steps, feed + [p]), p, k)
  {
    OutIsPrepared(run, steps, p, k);
    HandOne(run, steps, feed, p, k);
    var e, f := Reader(run, steps, feed), FrameAt(run, steps, p);
    var d := OnDate(f.date);
    AnyFrameDelivers(From(run, steps, p), e, d);
    TakenIsDated(run, steps, d, e, p, k);
  }

  /** Some reader of a redated revision is not at the base: one that took the other frame, or one
      that was already off the base the other frame was prepared on. */
  lemma RedatedIsSeen(run: seq<World>, steps: seq<Step>, k: nat)
    requires IsRun(run, steps) && k < |run| && Orderly(run, steps, k) && Redated(run, steps, k)
    ensures exists j: nat, feed :: j <= k && !AtBaseIfLevel(run, steps, feed, j)
  {
    var p: nat :| IsRedatedBy(run, steps, p, k);
    if FrameAt(run, steps, p).body.Full? {
      TakingItIsSeen(run, steps, [], p, k);
      assert !AtBaseIfLevel(run, steps, [] + [p], k);
    } else {
      FollowerExists(run, steps, p);
      var feed :| Follows(run, steps, feed, p);
      if AtBaseIfLevel(run, steps, feed, p) {
        FeedsLast(steps, feed, p, k);
        TakingItIsSeen(run, steps, feed, p, k);
        assert !AtBaseIfLevel(run, steps, feed + [p], k);
      }
    }
  }

  lemma TakingItIsSeen(run: seq<World>, steps: seq<Step>, feed: seq<nat>, p: nat, k: nat)
    requires IsRun(run, steps) && k < |run| && Orderly(run, steps, k) && Redated(run, steps, k)
    requires IsRedatedBy(run, steps, p, k) && IsFeed(steps, feed, k)
    requires if FrameAt(run, steps, p).body.Full? then feed == [] else AtBase(run[p], Reader(run, steps, feed))
    ensures !AtBaseIfLevel(run, steps, feed + [p], k)
  {
    TakesItsDate(run, steps, feed, p, k);
    WrongDateIsSeen(run, steps, Reader(run, steps, feed + [p]), p, k);
  }

  /** Every reader that stands at a committed revision holds what was committed there, dates and
      all, exactly when no committed revision ever went out with another date as well. */
  lemma ReadersAreAtBase(run: seq<World>, steps: seq<Step>, n: nat)
    requires IsRun(run, steps) && n < |run| && Orderly(run, steps, n)
    ensures (forall k: nat, feed :: k <= n ==> AtBaseIfLevel(run, steps, feed, k)) <==> NothingRedated(run, steps, n)
  {
    if NothingRedated(run, steps, n) {
      forall k: nat, feed | k <= n ensures AtBaseIfLevel(run, steps, feed, k) {
        UndatedReadersAreAtBase(run, steps, feed, k);
      }
    } else {
      var k :| 0 <= k <= n && Redated(run, steps, k);
      RedatedIsSeen(run, steps, k);
    }
  }
}
