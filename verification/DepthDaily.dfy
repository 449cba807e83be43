/** The daily depth store: swept incrementally from the capture tree, merged under a lock, read with
    a fallback between sources. A store is a map from (code, date, source) to a row. */
module DepthDaily {
  import opened Calendar
  import opened Wrappers

  datatype Key = Key(code: string, date: string, src: string)

  datatype Peak = Peak(ask: Option<int>, bid: Option<int>, eligible: nat)

  /** One source's capture of one stock and day: when its meta file was written, and the peak its
      snapshots give, if any. */
  datatype Capture = Capture(mtime: int, peak: Option<Peak>)

  datatype Row = Row(ask: Option<int>, bid: Option<int>, eligible: nat, mtime: int)

  type Store = map<Key, Row>

  /** What computing from scratch gives: the peak, or a sentinel where there is none. */
  function RowFor(mtime: int, peak: Option<Peak>): Row {
    match peak
    case Some(p) => Row(p.ask, p.bid, p.eligible, mtime)
    case None => Row(None, None, 0, mtime)
  }

  function RowOf(c: Capture): Row {
    RowFor(c.mtime, c.peak)
  }

  predicate IsFresh(store: Store, k: Key, c: Capture) {
    k in store && store[k].mtime == c.mtime
  }

  // ---- the tree, as it is walked ---------------------------------------------------------

  datatype CodeDir = CodeDir(name: string, isDir: bool, captures: map<string, Capture>)

  datatype DateDir = DateDir(name: string, isDir: bool, codes: seq<CodeDir>)

  datatype Scope = Scope(codes: Option<set<string>>, dates: Option<set<string>>, sources: seq<string>)

  datatype Entry = Entry(key: Key, capture: Capture)

  /** Eight digits that spell a date. */
  predicate IsDateName(name: string) {
    |name| == 8 && (forall i :: 0 <= i < 8 ==> '0' <= name[i] <= '9') && RealDate(Number(name))
  }

  function Number(digits: string): nat
    requires forall i :: 0 <= i < |digits| ==> '0' <= digits[i] <= '9'
  {
    if digits == "" then 0
    else Number(digits[..|digits| - 1]) * 10 + (digits[|digits| - 1] as int - '0' as int)
  }

  predicate Allows(names: Option<set<string>>, name: string) {
    names.None? || name in names.value
  }

  function SourceEntries(date: string, c: CodeDir, sources: seq<string>): seq<Entry> {
    if sources == [] then []
    else
      var src := sources[|sources| - 1];
      SourceEntries(date, c, sources[..|sources| - 1])
      + (if src in c.captures then [Entry(Key(c.name, date, src), c.captures[src])] else [])
  }

  function CodeEntries(date: string, codes: seq<CodeDir>, scope: Scope): seq<Entry> {
    if codes == [] then []
    else
      var c := codes[|codes| - 1];
      CodeEntries(date, codes[..|codes| - 1], scope)
      + (if c.isDir && Allows(scope.codes, c.name) then SourceEntries(date, c, scope.sources) else [])
  }

  function Entries(tree: seq<DateDir>, scope: Scope): seq<Entry> {
    if tree == [] then []
    else
      var d := tree[|tree| - 1];
      Entries(tree[..|tree| - 1], scope)
      + (if d.isDir && IsDateName(d.name) && Allows(scope.dates, d.name) then CodeEntries(d.name, d.codes, scope)
         else [])
  }

  // ---- scanning --------------------------------------------------------------------------

  datatype Progress = Progress(rows: seq<(Key, Row)>, scanned: nat, computed: nat, skipped: nat, noData: nat)

  const NOTHING_YET := Progress([], 0, 0, 0, 0)

  function Visit(p: Progress, known: Store, e: Entry): Progress {
    if IsFresh(known, e.key, e.capture) then p.(scanned := p.scanned + 1, skipped := p.skipped + 1)
    else if e.capture.peak.None? then
      p.(rows := p.rows + [(e.key, RowOf(e.capture))], scanned := p.scanned + 1, noData := p.noData + 1)
    else
      p.(rows := p.rows + [(e.key, RowOf(e.capture))], scanned := p.scanned + 1, computed := p.computed + 1)
  }

  function Scan(p: Progress, known: Store, es: seq<Entry>): Progress {
    if es == [] then p else Visit(Scan(p, known, es[..|es| - 1]), known, es[|es| - 1])
  }

  lemma {:induction false} ScanBoth(p: Progress, known: Store, es: seq<Entry>, fs: seq<Entry>)
    ensures Scan(p, known, es + fs) == Scan(Scan(p, known, es), known, fs)
  {
    if fs == [] {
      assert es + fs == es;
    } else {
      assert (es + fs)[..|es + fs| - 1] == es + fs[..|fs| - 1];
      ScanBoth(p, known, es, fs[..|fs| - 1]);
    }
  }

  lemma ScanOneMore(p: Progress, known: Store, es: seq<Entry>, e: Entry)
    ensures Scan(p, known, es + [e]) == Visit(Scan(p, known, es), known, e)
  {
    assert (es + [e])[..|es|] == es;
  }

  lemma OneMoreSource(date: string, c: CodeDir, sources: seq<string>, i: nat)
    requires i < |sources|
    ensures var es, src := SourceEntries(date, c, sources[..i]), sources[i];
            SourceEntries(date, c, sources[..i + 1])
            == if src in c.captures then es + [Entry(Key(c.name, date, src), c.captures[src])] else es
  {
    assert sources[..i + 1][..i] == sources[..i];
  }

  /** One capture that is there: skipped while its fingerprint is the stored one, else computed. */
  method VisitOne(p0: Progress, known: Store, key: Key, capture: Capture) returns (p: Progress)
    ensures p == Visit(p0, known, Entry(key, capture))
  {
    p := p0.(scanned := p0.scanned + 1);
    if key in known && known[key].mtime == capture.mtime {
      return p.(skipped := p.skipped + 1);
    }
    if capture.peak.None? {
      return p.(rows := p.rows + [(key, Row(None, None, 0, capture.mtime))], noData := p.noData + 1);
    }
    var peak := capture.peak.value;
    p := p.(rows := p.rows + [(key, Row(peak.ask, peak.bid, peak.eligible, capture.mtime))],
            computed := p.computed + 1);
  }

  method ScanSources(p0: Progress, known: Store, date: string, c: CodeDir, sources: seq<string>) returns (p: Progress)
    ensures p == Scan(p0, known, SourceEntries(date, c, sources))
  {
    p := p0;
    for i := 0 to |sources|
      invariant p == Scan(p0, known, SourceEntries(date, c, sources[..i]))
    {
      OneMoreSource(date, c, sources, i);
      var src := sources[i];
      if src !in c.captures {
        continue;
      }
      var key, capture := Key(c.name, date, src), c.captures[src];
      ScanOneMore(p0, known, SourceEntries(date, c, sources[..i]), Entry(key, capture));
      p := VisitOne(p, known, key, capture);
    }
    assert sources[..|sources|] == sources;
  }

  method ScanCodes(p0: Progress, known: Store, date: string, codes: seq<CodeDir>, scope: Scope) returns (p: Progress)
    ensures p == Scan(p0, known, CodeEntries(date, codes, scope))
  {
    p := p0;
    for i := 0 to |codes|
      invariant p == Scan(p0, known, CodeEntries(date, codes[..i], scope))
    {
      assert codes[..i + 1][..i] == codes[..i];
      assert CodeEntries(date, codes[..i], scope) + [] == CodeEntries(date, codes[..i], scope);
      ScanBoth(p0, known, CodeEntries(date, codes[..i], scope), SourceEntries(date, codes[i], scope.sources));
      if codes[i].isDir && Allows(scope.codes, codes[i].name) {
        p := ScanSources(p, known, date, codes[i], scope.sources);
      }
    }
    assert codes[..|codes|] == codes;
  }

  method ScanTree(known: Store, tree: seq<DateDir>, scope: Scope) returns (p: Progress)
    ensures p == Scan(NOTHING_YET, known, Entries(tree, scope))
  {
    p := NOTHING_YET;
    for i := 0 to |tree|
      invariant p == Scan(NOTHING_YET, known, Entries(tree[..i], scope))
    {
      assert tree[..i + 1][..i] == tree[..i];
      assert Entries(tree[..i], scope) + [] == Entries(tree[..i], scope);
      ScanBoth(NOTHING_YET, known, Entries(tree[..i], scope), CodeEntries(tree[i].name, tree[i].codes, scope));
      if tree[i].isDir && IsDateName(tree[i].name) && Allows(scope.dates, tree[i].name) {
        p := ScanCodes(p, known, tree[i].name, tree[i].codes, scope);
      }
    }
    assert tree[..|tree|] == tree;
  }

  // ---- merging ---------------------------------------------------------------------------

  /** New rows over the current ones, the last of a key winning. */
  function Merged(current: Store, rows: seq<(Key, Row)>): Store {
    if rows == [] then current
    else Merged(current, rows[..|rows| - 1])[rows[|rows| - 1].0 := rows[|rows| - 1].1]
  }

  class DepthStore {
    var rows: Store

    constructor ()
      ensures rows == map[]
    {
      rows := map[];
    }

    /** What the lock protects: load again, merge, write. */
    method Merge(news: seq<(Key, Row)>) returns (total: nat)
      modifies this
      ensures rows == Merged(old(rows), news) && total == |rows|
    {
      var current := rows;
      for i := 0 to |news|
        invariant current == Merged(rows, news[..i])
        invariant rows == old(rows)
      {
        assert news[..i + 1][..i] == news[..i];
        current := current[news[i].0 := news[i].1];
      }
      assert news[..|news|] == news;
      rows := current;
      total := |rows|;
    }

    /** `meanwhile` is what other sweeps commit between this one's load and its merge. */
    method Sweep(tree: seq<DateDir>, scope: Scope, meanwhile: seq<(Key, Row)>) returns (p: Progress, total: nat)
      modifies this
      ensures p == Scan(NOTHING_YET, old(rows), Entries(tree, scope))
      ensures rows == Merged(Merged(old(rows), meanwhile), p.rows)
      ensures total == if p.rows == [] then |old(rows)| else |rows|
    {
      var existing := rows;
      p := ScanTree(existing, tree, scope);
      var _ := Merge(meanwhile);
      if p.rows != [] {
        total := Merge(p.rows);
      } else {
        total := |existing|;
      }
    }
  }

  // ---- what one sweep achieves -----------------------------------------------------------

  /** The directory a name stands for is there once. */
  predicate DistinctNames(tree: seq<DateDir>) {
    && (forall i, j :: 0 <= i < j < |tree| ==> tree[i].name != tree[j].name)
    && forall d :: d in tree ==> forall i, j :: 0 <= i < j < |d.codes| ==> d.codes[i].name != d.codes[j].name
  }

  /** The capture of a key that the scope reaches. */
  predicate Reaches(tree: seq<DateDir>, scope: Scope, k: Key, c: Capture) {
    && IsDateName(k.date) && Allows(scope.dates, k.date) && Allows(scope.codes, k.code) && k.src in scope.sources
    && exists d :: d in tree && d.isDir && d.name == k.date && Holds(d, k, c)
  }

  predicate Holds(d: DateDir, k: Key, c: Capture) {
    exists dir :: dir in d.codes && dir.isDir && dir.name == k.code && k.src in dir.captures && dir.captures[k.src] == c
  }

  lemma {:induction false} SourceEntriesAre(date: string, c: CodeDir, sources: seq<string>, e: Entry)
    ensures e in SourceEntries(date, c, sources) <==>
              e.key.date == date && e.key.code == c.name && e.key.src in sources
              && e.key.src in c.captures && c.captures[e.key.src] == e.capture
  {
    if sources != [] {
      SourceEntriesAre(date, c, sources[..|sources| - 1], e);
      assert sources == sources[..|sources| - 1] + [sources[|sources| - 1]];
    }
  }

  lemma {:induction false} CodeEntriesAre(date: string, codes: seq<CodeDir>, scope: Scope, e: Entry)
    ensures e in CodeEntries(date, codes, scope) <==>
              e.key.date == date && Allows(scope.codes, e.key.code) && e.key.src in scope.sources
              && exists dir :: dir in codes && dir.isDir && dir.name == e.key.code
                               && e.key.src in dir.captures && dir.captures[e.key.src] == e.capture
  {
    if codes != [] {
      var init, c := codes[..|codes| - 1], codes[|codes| - 1];
      assert codes == init + [c];
      CodeEntriesAre(date, init, scope, e);
      SourceEntriesAre(date, c, scope.sources, e);
    }
  }

  /** The walk finds exactly the captures in scope. */
  lemma {:induction false} EntriesAre(tree: seq<DateDir>, scope: Scope, e: Entry)
    ensures e in Entries(tree, scope) <==> Reaches(tree, scope, e.key, e.capture)
  {
    if tree != [] {
      var init, d := tree[..|tree| - 1], tree[|tree| - 1];
      assert tree == init + [d];
      EntriesAre(init, scope, e);
      CodeEntriesAre(d.name, d.codes, scope, e);
    }
  }

  /** A key has one capture. */
  lemma OneCapture(tree: seq<DateDir>, scope: Scope, k: Key, c: Capture, c': Capture)
    requires DistinctNames(tree) && Reaches(tree, scope, k, c) && Reaches(tree, scope, k, c')
    ensures c == c'
  {
    var d :| d in tree && d.isDir && d.name == k.date && Holds(d, k, c);
    var d' :| d' in tree && d'.isDir && d'.name == k.date && Holds(d', k, c');
    var i :| 0 <= i < |tree| && tree[i] == d;
    var i' :| 0 <= i' < |tree| && tree[i'] == d';
    assert i == i';
    OneInDay(d, k, c, c');
  }

  lemma OneInDay(d: DateDir, k: Key, c: Capture, c': Capture)
    requires forall i, j :: 0 <= i < j < |d.codes| ==> d.codes[i].name != d.codes[j].name
    requires Holds(d, k, c) && Holds(d, k, c')
    ensures c == c'
  {
    var dir :| dir in d.codes && dir.isDir && dir.name == k.code && k.src in dir.captures && dir.captures[k.src] == c;
    var dir' :|
      dir' in d.codes && dir'.isDir && dir'.name == k.code && k.src in dir'.captures && dir'.captures[k.src] == c';
    var j :| 0 <= j < |d.codes| && d.codes[j] == dir;
    var j' :| 0 <= j' < |d.codes| && d.codes[j'] == dir';
    assert j == j';
  }

  lemma {:induction false} ScanCounts(known: Store, es: seq<Entry>)
    ensures var p := Scan(NOTHING_YET, known, es);
            && p.scanned == |es| == p.computed + p.skipped + p.noData && |p.rows| == p.computed + p.noData
  {
    if es != [] { ScanCounts(known, es[..|es| - 1]); }
  }

  predicate Recomputed(known: Store, e: Entry, r: (Key, Row)) {
    !IsFresh(known, e.key, e.capture) && r == (e.key, RowOf(e.capture))
  }

  /** The new rows are those of the captures whose fingerprint has changed. */
  lemma {:induction false} ScanRows(known: Store, es: seq<Entry>, r: (Key, Row))
    ensures r in Scan(NOTHING_YET, known, es).rows <==> exists e :: e in es && Recomputed(known, e, r)
  {
    if es != [] {
      var init, e := es[..|es| - 1], es[|es| - 1];
      assert es == init + [e];
      ScanRows(known, init, r);
      assert (exists f :: f in es && Recomputed(known, f, r))
        <==> (exists f :: f in init && Recomputed(known, f, r)) || Recomputed(known, e, r) by {
        if Recomputed(known, e, r) { assert e in es; }
      }
    }
  }

  lemma {:induction false} MergedAt(current: Store, rows: seq<(Key, Row)>, k: Key)
    ensures k in Merged(current, rows) <==> k in current || exists r :: r in rows && r.0 == k
    ensures k in Merged(current, rows) ==>
              (if exists r :: r in rows && r.0 == k then (k, Merged(current, rows)[k]) in rows
               else k in current && Merged(current, rows)[k] == current[k])
  {
    if rows != [] {
      var init, last := rows[..|rows| - 1], rows[|rows| - 1];
      assert rows == init + [last];
      MergedAt(current, init, k);
    }
  }

  /** Wherever a row's fingerprint is its capture's, the row is what the capture gives: what the
      meta file's time is for. */
  ghost predicate Honest(store: Store, tree: seq<DateDir>, scope: Scope) {
    forall k, c :: Reaches(tree, scope, k, c) && IsFresh(store, k, c) ==> store[k] == RowOf(c)
  }

  ghost function Swept(store: Store, tree: seq<DateDir>, scope: Scope): Store {
    Merged(store, Scan(NOTHING_YET, store, Entries(tree, scope)).rows)
  }

  /** An incremental sweep leaves every row in scope as computing from scratch would, and every
      other row as it was; it loses no key and adds only keys in scope. */
  lemma SweepIsFromScratch(store: Store, tree: seq<DateDir>, scope: Scope, k: Key)
    requires DistinctNames(tree) && Honest(store, tree, scope)
    ensures forall c :: Reaches(tree, scope, k, c) ==>
              k in Swept(store, tree, scope) && Swept(store, tree, scope)[k] == RowOf(c)
    ensures (forall c :: !Reaches(tree, scope, k, c)) ==>
              Lookup(Swept(store, tree, scope), k) == Lookup(store, k)
  {
    var es := Entries(tree, scope);
    var rows := Scan(NOTHING_YET, store, es).rows;
    MergedAt(store, rows, k);
    forall r | r in rows && r.0 == k ensures exists c :: Reaches(tree, scope, k, c) && r.1 == RowOf(c) {
      ScanRows(store, es, r);
      var e :| e in es && Recomputed(store, e, r);
      EntriesAre(tree, scope, e);
    }
    forall c | Reaches(tree, scope, k, c)
      ensures k in Swept(store, tree, scope) && Swept(store, tree, scope)[k] == RowOf(c)
    {
      var e := Entry(k, c);
      EntriesAre(tree, scope, e);
      ScanRows(store, es, (k, RowOf(c)));
      if !IsFresh(store, k, c) { assert Recomputed(store, e, (k, RowOf(c))); }
      if exists r :: r in rows && r.0 == k {
        var r := (k, Swept(store, tree, scope)[k]);
        assert r in rows;
        var c' :| Reaches(tree, scope, k, c') && r.1 == RowOf(c');
        OneCapture(tree, scope, k, c, c');
      }
    }
  }

  /** Repeating a sweep skips all it scans and changes nothing. */
  lemma RepeatSkipsAll(store: Store, tree: seq<DateDir>, scope: Scope)
    requires DistinctNames(tree) && Honest(store, tree, scope)
    ensures var again := Swept(store, tree, scope);
            var p := Scan(NOTHING_YET, again, Entries(tree, scope));
            && p.rows == [] && p.skipped == p.scanned && p.computed == 0 && p.noData == 0
            && Swept(again, tree, scope) == again
  {
    var again, es := Swept(store, tree, scope), Entries(tree, scope);
    ScanCounts(again, es);
    var rows := Scan(NOTHING_YET, again, es).rows;
    if rows != [] {
      var r := rows[0];
      ScanRows(again, es, r);
      var e :| e in es && Recomputed(again, e, r);
      EntriesAre(tree, scope, e);
      SweepIsFromScratch(store, tree, scope, e.key);
      assert false;
    }
  }

  // ---- sweeps that overlap ---------------------------------------------------------------

  /** A sweep under way: the rows it loaded, the capture time it has just read, and its new rows. */
  datatype Running = Running(known: Store, looking: Option<(Key, int)>, rows: seq<(Key, Row)>)

  /** The tree's captures, the store, a clock no meta file is older than, and the running sweeps. */
  datatype World = World(tree: map<Key, Capture>, store: Store, clock: int, running: map<nat, Running>)

  datatype Step =
    | Record(key: Key, peak: Option<Peak>)
    | Forget(key: Key)
    | Begin(id: nat)
    | Look(id: nat, key: Key)
    | Skip(id: nat)
    | Compute(id: nat)
    | Commit(id: nat)

  ghost predicate Start(w: World) {
    w.tree == map[] && w.store == map[] && w.running == map[]
  }

  ghost predicate Next(w: World, step: Step, w': World) {
    match step
    case Record(k, peak) =>
      // every write of a meta file has a time of its own
      w' == w.(tree := w.tree[k := Capture(w.clock, peak)], clock := w.clock + 1)
    case Forget(k) =>
      w' == w.(tree := w.tree - {k})
    case Begin(id) =>
      id !in w.running && w' == w.(running := w.running[id := Running(w.store, None, [])])
    case Look(id, k) =>
      && id in w.running && k in w.tree
      && w' == w.(running := w.running[id := w.running[id].(looking := Some((k, w.tree[k].mtime)))])
    case Skip(id) =>
      && id in w.running && w.running[id].looking.Some?
      && var s := w.running[id];
      && s.looking.value.0 in s.known && s.known[s.looking.value.0].mtime == s.looking.value.1
      && w' == w.(running := w.running[id := s.(looking := None)])
    case Compute(id) =>
      // the capture may have been replaced, or be gone, since its time was read
      && id in w.running && w.running[id].looking.Some?
      && var s := w.running[id];
      && var (k, mtime) := s.looking.value;
      && !(k in s.known && s.known[k].mtime == mtime)
      && var peak := if k in w.tree then w.tree[k].peak else None;
      && w' == w.(running := w.running[id := s.(looking := None, rows := s.rows + [(k, RowFor(mtime, peak))])])
    case Commit(id) =>
      && id in w.running
      && w' == w.(store := Merged(w.store, w.running[id].rows), running := w.running - {id})
  }

  /** A row is a past one, and right for the capture if its fingerprint is the capture's. */
  predicate Right(w: World, k: Key, r: Row) {
    r.mtime < w.clock && (k in w.tree && w.tree[k].mtime == r.mtime ==> r == RowOf(w.tree[k]))
  }

  predicate AllRight(w: World, store: Store) {
    forall k :: k in store ==> Right(w, k, store[k])
  }

  predicate RunningRight(w: World, s: Running) {
    && AllRight(w, s.known)
    && (s.looking.Some? ==> s.looking.value.1 < w.clock)
    && forall i :: 0 <= i < |s.rows| ==> Right(w, s.rows[i].0, s.rows[i].1)
  }

  predicate Inv(w: World) {
    && (forall k :: k in w.tree ==> w.tree[k].mtime < w.clock)
    && AllRight(w, w.store)
    && forall id :: id in w.running ==> RunningRight(w, w.running[id])
  }

  lemma MergeStaysRight(w: World, rows: seq<(Key, Row)>)
    requires AllRight(w, w.store) && forall i :: 0 <= i < |rows| ==> Right(w, rows[i].0, rows[i].1)
    ensures AllRight(w, Merged(w.store, rows))
  {
    forall k | k in Merged(w.store, rows) ensures Right(w, k, Merged(w.store, rows)[k]) {
      MergedAt(w.store, rows, k);
    }
  }

  lemma StepKeepsInv(w: World, step: Step, w': World)
    requires Inv(w) && Next(w, step, w')
    ensures Inv(w')
  {
    match step
    case Record(_, _) | Forget(_) =>
      TreeStepKeepsInv(w, step, w');
    case Commit(id) =>
      assert RunningRight(w, w.running[id]);
      MergeStaysRight(w, w.running[id].rows);
      forall i | i in w'.running ensures RunningRight(w', w'.running[i]) {
        assert RunningRight(w, w.running[i]);
      }
    case _ =>
      SweepStepKeepsInv(w, step, w');
  }

  lemma TreeStepKeepsInv(w: World, step: Step, w': World)
    requires Inv(w) && Next(w, step, w') && (step.Record? || step.Forget?)
    ensures Inv(w')
  {
    assert forall k, r :: Right(w, k, r) ==> Right(w', k, r);
    forall id | id in w'.running ensures RunningRight(w', w'.running[id]) {
      assert RunningRight(w, w.running[id]);
    }
  }

  lemma SweepStepKeepsInv(w: World, step: Step, w': World)
    requires Inv(w) && Next(w, step, w') && !step.Record? && !step.Forget? && !step.Commit?
    ensures Inv(w')
  {
    assert forall k, r :: Right(w, k, r) ==> Right(w', k, r);
    forall id | id in w'.running ensures RunningRight(w', w'.running[id]) {
      if id in w.running { assert RunningRight(w, w.running[id]); }
    }
  }

  ghost predicate IsRun(run: seq<World>, steps: seq<Step>) {
    && |run| == |steps| + 1 && Start(run[0])
    && forall i :: 0 <= i < |steps| ==> Next(run[i], steps[i], run[i + 1])
  }

  /** However sweeps, captures and removals interleave, a row whose fingerprint is its capture's is
      right: a skipped capture never hides a wrong row. */
  lemma {:induction false} RunsStayHonest(run: seq<World>, steps: seq<Step>, n: nat)
    requires IsRun(run, steps) && n < |run|
    ensures Inv(run[n])
    ensures forall k :: k in run[n].tree && IsFresh(run[n].store, k, run[n].tree[k]) ==>
              run[n].store[k] == RowOf(run[n].tree[k])
  {
    if n > 0 {
      RunsStayHonest(run, steps, n - 1);
      assert Next(run[n - 1], steps[n - 1], run[n]);
      StepKeepsInv(run[n - 1], steps[n - 1], run[n]);
    }
    assert forall k :: k in run[n].store ==> Right(run[n], k, run[n].store[k]);
  }

  /** And no key that any sweep has written is ever lost. */
  lemma {:induction false} KeysAreNeverLost(run: seq<World>, steps: seq<Step>, m: nat, n: nat, k: Key)
    requires IsRun(run, steps) && m <= n < |run|
    requires k in run[m].store
    ensures k in run[n].store
  {
    if m < n {
      KeysAreNeverLost(run, steps, m, n - 1, k);
      assert Next(run[n - 1], steps[n - 1], run[n]);
      if steps[n - 1].Commit? { MergedAt(run[n - 1].store, run[n - 1].running[steps[n - 1].id].rows, k); }
    }
  }

  lemma CommitWritesItsKeys(w: World, id: nat, w': World, r: (Key, Row))
    requires Next(w, Commit(id), w') && r in w.running[id].rows
    ensures r.0 in w'.store
  {
    MergedAt(w.store, w.running[id].rows, r.0);
  }

  /** The last row of a key, which is the one a merge keeps. */
  function LastRow(rows: seq<(Key, Row)>, k: Key): Option<Row> {
    if rows == [] then None
    else if rows[|rows| - 1].0 == k then Some(rows[|rows| - 1].1)
    else LastRow(rows[..|rows| - 1], k)
  }

  lemma {:induction false} LastRowWins(current: Store, rows: seq<(Key, Row)>, k: Key)
    ensures Lookup(Merged(current, rows), k) == if LastRow(rows, k).Some? then LastRow(rows, k) else Lookup(current, k)
  {
    if rows != [] { LastRowWins(current, rows[..|rows| - 1], k); }
  }

  /** After a commit a capture's row is current, and then right, exactly when the sweep's own last row
      for it is of the present capture, or the sweep has none and the row was current before. */
  lemma CommitLeavesCurrent(w: World, id: nat, w': World, k: Key)
    requires Inv(w) && Next(w, Commit(id), w') && k in w.tree
    ensures w'.tree == w.tree
    ensures IsFresh(w'.store, k, w.tree[k])
       <==> (var own := LastRow(w.running[id].rows, k);
             if own.Some? then own.value.mtime == w.tree[k].mtime else IsFresh(w.store, k, w.tree[k]))
    ensures IsFresh(w'.store, k, w.tree[k]) ==> w'.store[k] == RowOf(w.tree[k])
  {
    StepKeepsInv(w, Commit(id), w');
    LastRowWins(w.store, w.running[id].rows, k);
    if k in w'.store { assert Right(w', k, w'.store[k]); }
  }

  /** A slow sweep can outdate a row: it computes, the stock is captured again, another sweep
      computes and commits the new row, and then the slow one commits its own. */
  function SlowSweep(k: Key, first: Option<Peak>, second: Option<Peak>): seq<World> {
    var none := Running(map[], None, []);
    var w0 := World(map[], map[], 0, map[]);
    var w1 := w0.(tree := w0.tree[k := Capture(0, first)], clock := 1);
    var w2 := w1.(running := w1.running[1 := none]);
    var w3 := w2.(running := w2.running[1 := none.(looking := Some((k, 0)))]);
    var w4 := w3.(running := w3.running[1 := none.(rows := [] + [(k, RowFor(0, first))])]);
    var w5 := w4.(tree := w4.tree[k := Capture(1, second)], clock := 2);
    var w6 := w5.(running := w5.running[2 := none]);
    var w7 := w6.(running := w6.running[2 := none.(looking := Some((k, 1)))]);
    var w8 := w7.(running := w7.running[2 := none.(rows := [] + [(k, RowFor(1, second))])]);
    var w9 := w8.(store := Merged(w8.store, w8.running[2].rows), running := w8.running - {2});
    var w10 := w9.(store := Merged(w9.store, w9.running[1].rows), running := w9.running - {1});
    [w0, w1, w2, w3, w4, w5, w6, w7, w8, w9, w10]
  }

  function SlowSteps(k: Key, first: Option<Peak>, second: Option<Peak>): seq<Step> {
    [Record(k, first), Begin(1), Look(1, k), Compute(1), Record(k, second),
     Begin(2), Look(2, k), Compute(2), Commit(2), Commit(1)]
  }

  lemma SlowSweepIsRun(k: Key, first: Option<Peak>, second: Option<Peak>)
    ensures IsRun(SlowSweep(k, first, second), SlowSteps(k, first, second))
  {
    var run, steps := SlowSweep(k, first, second), SlowSteps(k, first, second);
    forall i | 0 <= i < |steps| ensures Next(run[i], steps[i], run[i + 1]) {
    }
  }

  lemma SlowSweepOutdates(k: Key, first: Option<Peak>, second: Option<Peak>)
    ensures IsRun(SlowSweep(k, first, second), SlowSteps(k, first, second))
    ensures IsFresh(SlowSweep(k, first, second)[9].store, k, Capture(1, second))
    ensures SlowSweep(k, first, second)[10].store == map[k := RowFor(0, first)]
    ensures SlowSweep(k, first, second)[10].tree == map[k := Capture(1, second)]
  {
    SlowSweepIsRun(k, first, second);
    var run := SlowSweep(k, first, second);
    MergedOne(map[], k, RowFor(1, second));
    MergedOne(run[9].store, k, RowFor(0, first));
    assert run[8].running[2].rows == [(k, RowFor(1, second))];
    assert run[9].running[1].rows == [(k, RowFor(0, first))];
  }

  lemma MergedOne(current: Store, k: Key, r: Row)
    ensures Merged(current, [(k, r)]) == current[k := r]
  {
    assert [(k, r)][..0] == [];
  }

  // ---- reading with a fallback -----------------------------------------------------------

  function Priority(src: string): nat {
    if src == "hogaplay" then 0 else if src == "kiwoom_live" then 1 else 99
  }

  predicate Usable(store: Store, code: string, date: string, src: string) {
    Key(code, date, src) in store && store[Key(code, date, src)].eligible > 0
  }

  predicate Has(store: Store, code: string, date: string, src: string) {
    Key(code, date, src) in store
  }

  /** `select_with_fallback`: sentinels go first, then the best source left is taken. Unregistered
      sources tie, and any of them may be the one kept. */
  ghost predicate Selected(store: Store, code: string, date: string, src: string) {
    Usable(store, code, date, src) && forall s :: Usable(store, code, date, s) ==> Priority(src) <= Priority(s)
  }

  /** With the steps swapped: the best source is taken, then dropped if it is a sentinel. */
  ghost predicate SelectedIfSwapped(store: Store, code: string, date: string, src: string) {
    Usable(store, code, date, src) && forall s :: Has(store, code, date, s) ==> Priority(src) <= Priority(s)
  }

  ghost function UsableSources(store: Store, code: string, date: string): set<string> {
    set k | k in store && k.code == code && k.date == date && Usable(store, code, date, k.src) :: k.src
  }

  lemma BestSource(srcs: set<string>) returns (best: string)
    requires exists s :: s in srcs
    ensures best in srcs && forall s :: s in srcs ==> Priority(best) <= Priority(s)
    decreases |srcs|
  {
    best :| best in srcs;
    var rest := srcs - {best};
    if exists s :: s in rest {
      var other := BestSource(rest);
      var better := if Priority(other) < Priority(best) then other else best;
      forall s | s in srcs ensures Priority(better) <= Priority(s) {
        assert s == best || s in rest;
      }
      best := better;
    } else {
      forall s | s in srcs ensures s == best {
        assert s !in rest;
      }
    }
  }

  /** A day has a selected row exactly when it has a usable one; which source it is is settled
      unless the best are unregistered. */
  lemma SelectionCoversUsableDays(store: Store, code: string, date: string)
    ensures (exists src :: Selected(store, code, date, src)) <==> (exists src :: Usable(store, code, date, src))
    ensures forall s, t ::
              Selected(store, code, date, s) && Selected(store, code, date, t) && Priority(s) < 99 ==> s == t
  {
    if exists src :: Usable(store, code, date, src) {
      var src :| Usable(store, code, date, src);
      var srcs := UsableSources(store, code, date);
      assert Key(code, date, src) in store && src in srcs;
      var best := BestSource(srcs);
      forall s | Usable(store, code, date, s) ensures Priority(best) <= Priority(s) {
        assert Key(code, date, s) in store && s in srcs;
      }
      assert Selected(store, code, date, best);
    }
  }

  /** Swapped, a usable day is lost exactly when some source that beats all its usable ones has only
      a sentinel. */
  lemma SwappingLosesDays(store: Store, code: string, date: string)
    requires exists src :: Usable(store, code, date, src)
    ensures (forall src :: !SelectedIfSwapped(store, code, date, src)) <==>
              (exists top :: Has(store, code, date, top)
                 && forall src :: Usable(store, code, date, src) ==> Priority(top) < Priority(src))
  {
    SelectionCoversUsableDays(store, code, date);
    var best :| Selected(store, code, date, best);
    if forall src :: !SelectedIfSwapped(store, code, date, src) {
      assert !SelectedIfSwapped(store, code, date, best);
      var top :| Has(store, code, date, top) && Priority(top) < Priority(best);
    }
  }
}
