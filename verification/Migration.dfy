/** Moving each stock-day's capture files under a venue directory, and back. A tree maps the paths
    below the capture root to files and directories. */
module Migration {
  import opened Wrappers

  type Path = seq<string>

  datatype Node = File(content: string) | Dir

  type Tree = map<Path, Node>

  datatype Move = Move(src: Path, dst: Path)

  const SOURCE := "kiwoom_live"
  const VENUE := "KRX"

  function Elements(ps: seq<Path>): set<Path> {
    set p | p in ps
  }

  function Parent(p: Path): Path
    requires p != []
  {
    p[..|p| - 1]
  }

  /** Everything in the tree is in a directory of the tree. */
  predicate WellFormed(t: Tree) {
    forall p :: p in t ==> p != [] && (|p| > 1 ==> Parent(p) in t && t[Parent(p)].Dir?)
  }

  // ---- making directories and renaming ---------------------------------------------------

  predicate CanMkdir(t: Tree, d: Path) {
    d == [] || (if d in t then t[d].Dir? else CanMkdir(t, Parent(d)))
  }

  /** `mkdir(parents=True, exist_ok=True)` */
  function Mkdir(t: Tree, d: Path): Tree {
    if d == [] || d in t then t else Mkdir(t, Parent(d))[d := Dir]
  }

  lemma {:induction false} MkdirAdds(t: Tree, d: Path)
    ensures forall p :: p in t ==> p in Mkdir(t, d) && Mkdir(t, d)[p] == t[p]
    ensures forall p :: p in Mkdir(t, d) && p !in t ==> Mkdir(t, d)[p] == Dir && p <= d
    ensures d == [] || d in Mkdir(t, d)
  {
    if d != [] && d !in t { MkdirAdds(t, Parent(d)); }
  }

  datatype Status = Going | DestinationExists | Raised

  datatype Progress = Progress(tree: Tree, moved: nat, status: Status)

  function MoveOne(t: Tree, m: Move): (Tree, Status)
    requires m.dst != []
  {
    if !CanMkdir(t, Parent(m.dst)) then (t, Raised)
    else
      var made := Mkdir(t, Parent(m.dst));
      if m.dst in made then (made, DestinationExists)
      else if m.src !in made then (made, Raised)
      else ((made - {m.src})[m.dst := made[m.src]], Going)
  }

  predicate Proper(moves: seq<Move>) {
    forall i :: 0 <= i < |moves| ==> moves[i].dst != []
  }

  function Applied(t: Tree, moves: seq<Move>): Progress
    requires Proper(moves)
  {
    if moves == [] then Progress(t, 0, Going)
    else
      var p := Applied(t, moves[..|moves| - 1]);
      if p.status != Going then p
      else
        var (tree, status) := MoveOne(p.tree, moves[|moves| - 1]);
        Progress(tree, if status == Going then p.moved + 1 else p.moved, status)
  }

  class CaptureTree {
    var nodes: Tree
    var live: Tree

    /** The trees below the two roots: the captures, and the files still being written. */
    constructor (t: Tree, live: Tree)
      ensures nodes == t && this.live == live
    {
      nodes, this.live := t, live;
    }

    /** One file at a time; it stops where a destination exists and does not go on after an error. */
    method ApplyMoves(moves: seq<Move>) returns (moved: nat, status: Status)
      requires Proper(moves)
      modifies this`nodes
      ensures Applied(old(nodes), moves) == Progress(nodes, moved, status)
    {
      moved, status := 0, Going;
      var i := 0;
      while i < |moves| && status == Going
        invariant 0 <= i <= |moves|
        invariant Applied(old(nodes), moves[..i]) == Progress(nodes, moved, status)
      {
        assert moves[..i + 1][..i] == moves[..i];
        status := Rename(moves[i]);
        if status == Going {
          moved := moved + 1;
        }
        i := i + 1;
      }
      StoppedStays(old(nodes), moves, i);
    }

    method Rename(m: Move) returns (status: Status)
      requires m.dst != []
      modifies this`nodes
      ensures (nodes, status) == MoveOne(old(nodes), m)
    {
      if !CanMkdir(nodes, Parent(m.dst)) {
        return Raised;
      }
      nodes := Mkdir(nodes, Parent(m.dst));
      if m.dst in nodes {
        return DestinationExists;
      }
      if m.src !in nodes {
        return Raised;
      }
      nodes := (nodes - {m.src})[m.dst := nodes[m.src]];
      return Going;
    }

    /** The pruning step of `main`: only what the plan calls stale. */
    method Prune(stale: seq<Path>)
      modifies this`nodes
      ensures nodes == old(nodes) - Elements(stale)
    {
      for i := 0 to |stale|
        invariant nodes == old(nodes) - Elements(stale[..i])
      {
        assert Elements(stale[..i + 1]) == Elements(stale[..i]) + {stale[i]};
        nodes := nodes - {stale[i]};
      }
      assert stale[..|stale|] == stale;
    }

    /** After going back: venue directories that are empty go. */
    method CleanUp()
      modifies this`nodes
      ensures nodes == CleanedUp(old(nodes))
    {
      var venues := Listing(set p | p in nodes && IsVenueDir(p) && nodes[p].Dir?);
      assert forall k :: 0 <= k < |venues| ==> venues[k] in venues;
      for i := 0 to |venues|
        invariant nodes == old(nodes) - EmptyAmong(old(nodes), venues[..i])
        invariant forall k :: 0 <= k < |venues| ==> |venues[k]| == 4
      {
        OneCleaned(old(nodes), venues, i);
        if Empty(nodes, venues[i]) {
          nodes := nodes - {venues[i]};
        }
      }
      assert venues[..|venues|] == venues;
      ghost var t := old(nodes);
      assert EmptyAmong(t, venues) == set p | p in t && IsVenueDir(p) && t[p].Dir? && Empty(t, p);
    }

    /** The other root's moves come after all of this one's. */
    method ApplyLive(moves: seq<Move>) returns (status: Status)
      requires Proper(moves)
      modifies this`live
      ensures Applied(old(live), moves).status == status && live == Applied(old(live), moves).tree
    {
      var other := new CaptureTree(live, map[]);
      var _, stopped := other.ApplyMoves(moves);
      live := other.nodes;
      return stopped;
    }

    /** The whole program: plan, and with `apply` move, prune if asked, and clean up after going back. */
    method Run(reverse: bool, apply: bool, prune: bool) returns (code: int, ghost plan: Plan, ghost jsonl: seq<Path>)
      requires WellFormed(nodes) && WellFormed(live)
      modifies this
      ensures IsPlan(old(nodes), reverse, plan) && IsJsonlPlan(old(live), reverse, jsonl)
      ensures code == 0 || code == 1
      ensures !apply || NothingToDo(plan, jsonl, prune) ==> code == 0 && nodes == old(nodes) && live == old(live)
      ensures apply && !NothingToDo(plan, jsonl, prune) ==>
                var done := Applied(old(nodes), MovesOf(plan.moving, reverse));
                var after := Applied(old(live), JsonlMoves(jsonl, reverse));
                && (code == 0 <==> done.status == Going && after.status == Going)
                && live == (if done.status == Going then after.tree else old(live))
                && nodes == if code == 1 then done.tree else
                     var pruned := if prune then done.tree - Elements(plan.stale) else done.tree;
                     if reverse then CleanedUp(pruned) else pruned
    {
      var made := MakePlan(nodes, reverse);
      var files := PlanJsonl(live, reverse);
      plan, jsonl := made, files;
      if (made.moving == [] && files == [] && !(prune && made.stale != [])) || !apply {
        return 0, plan, jsonl;
      }
      var _, status := ApplyMoves(MovesOf(made.moving, reverse));
      if status != Going {
        return 1, plan, jsonl;
      }
      status := ApplyLive(JsonlMoves(files, reverse));
      if status != Going {
        return 1, plan, jsonl;
      }
      if prune {
        Prune(made.stale);
      }
      if reverse {
        CleanUp();
      }
      return 0, plan, jsonl;
    }
  }

  /** Then not even an empty venue directory goes. */
  predicate NothingToDo(plan: Plan, jsonl: seq<Path>, prune: bool) {
    plan.moving == [] && jsonl == [] && !(prune && plan.stale != [])
  }

  function EmptyAmong(t: Tree, ps: seq<Path>): set<Path> {
    set p | p in ps && Empty(t, p)
  }

  /** Removing other empty directories of the same depth does not make one empty. */
  lemma StillEmpty(t: Tree, gone: seq<Path>, p: Path)
    requires |p| == 4 && forall k :: 0 <= k < |gone| ==> |gone[k]| == 4
    ensures Empty(t - EmptyAmong(t, gone), p) <==> Empty(t, p)
  {
    forall q | q in t && p < q ensures q in t - EmptyAmong(t, gone) {}
  }

  lemma OneCleaned(t: Tree, venues: seq<Path>, i: nat)
    requires i < |venues| && forall k :: 0 <= k < |venues| ==> |venues[k]| == 4
    ensures var now := t - EmptyAmong(t, venues[..i]);
            t - EmptyAmong(t, venues[..i + 1]) == if Empty(now, venues[i]) then now - {venues[i]} else now
  {
    StillEmpty(t, venues[..i], venues[i]);
    assert venues[..i + 1] == venues[..i] + [venues[i]];
    var more := if Empty(t, venues[i]) then {venues[i]} else {};
    assert EmptyAmong(t, venues[..i + 1]) == EmptyAmong(t, venues[..i]) + more;
  }

  lemma {:induction false} StoppedStays(t: Tree, moves: seq<Move>, i: nat)
    requires Proper(moves) && i <= |moves| && (i < |moves| ==> Applied(t, moves[..i]).status != Going)
    ensures Applied(t, moves) == Applied(t, moves[..i])
    decreases |moves| - i
  {
    if i == |moves| {
      assert moves[..i] == moves;
    } else {
      assert moves[..i + 1][..i] == moves[..i];
      StoppedStays(t, moves, i + 1);
    }
  }

  predicate IsVenueDir(p: Path) {
    |p| == 4 && p[2] == SOURCE && p[3] == VENUE
  }

  predicate Empty(t: Tree, d: Path) {
    forall p :: p in t ==> !(d < p)
  }

  function CleanedUp(t: Tree): Tree {
    t - (set p | p in t && IsVenueDir(p) && t[p].Dir? && Empty(t, p))
  }

  // ---- nothing is lost or overwritten ----------------------------------------------------

  function Holding(t: Tree, c: string): set<Path> {
    set p | p in t && t[p] == File(c)
  }

  lemma RenamingConserves(t: Tree, src: Path, dst: Path, c: string)
    requires src in t && dst !in t
    ensures |Holding((t - {src})[dst := t[src]], c)| == |Holding(t, c)|
  {
    var after := (t - {src})[dst := t[src]];
    if t[src] == File(c) {
      assert Holding(after, c) == Holding(t, c) - {src} + {dst};
    } else {
      assert Holding(after, c) == Holding(t, c);
    }
  }

  lemma MkdirConserves(t: Tree, d: Path, c: string)
    ensures Holding(Mkdir(t, d), c) == Holding(t, c)
  {
    MkdirAdds(t, d);
  }

  lemma MoveOneConserves(t: Tree, m: Move, c: string)
    requires m.dst != []
    ensures |Holding(MoveOne(t, m).0, c)| == |Holding(t, c)|
    ensures forall p :: p in t && p != m.src ==> p in MoveOne(t, m).0 && MoveOne(t, m).0[p] == t[p]
    ensures m.src in t && m.src !in MoveOne(t, m).0 ==>
              m.dst !in t && m.dst in MoveOne(t, m).0 && MoveOne(t, m).0[m.dst] == t[m.src]
  {
    var made := Mkdir(t, Parent(m.dst));
    MkdirAdds(t, Parent(m.dst));
    MkdirConserves(t, Parent(m.dst), c);
    if m.src in made && m.dst !in made {
      RenamingConserves(made, m.src, m.dst, c);
    }
  }

  /** However far applying gets, and whatever the files moved: every content is still there as often as it
      was, every path that is no move's source still holds what it held, and a source that is gone is
      at its destination, which did not exist before. */
  lemma {:induction false} NothingIsLost(t: Tree, moves: seq<Move>, c: string)
    requires Proper(moves) && forall m :: m in moves ==> m.src in t && t[m.src].File?
    ensures |Holding(Applied(t, moves).tree, c)| == |Holding(t, c)|
    ensures forall p :: p in t && (forall m :: m in moves ==> p != m.src) ==>
              p in Applied(t, moves).tree && Applied(t, moves).tree[p] == t[p]
  {
    if moves != [] {
      var init, last := moves[..|moves| - 1], moves[|moves| - 1];
      assert moves == init + [last];
      NothingIsLost(t, init, c);
      MoveOneConserves(Applied(t, init).tree, last, c);
    }
  }

  // ---- the plan --------------------------------------------------------------------------

  predicate IsSourceDir(t: Tree, d: Path) {
    d in t && |d| == 3 && d[2] == SOURCE && t[d].Dir?
  }

  predicate IsChild(d: Path, p: Path) {
    |p| == |d| + 1 && Parent(p) == d
  }

  /** A directory with a directory in it counts as migrated. */
  predicate Migrated(t: Tree, d: Path) {
    exists p :: p in t && IsChild(d, p) && t[p].Dir?
  }

  predicate Loose(t: Tree, p: Path) {
    p in t && |p| == 4 && t[p].File? && IsSourceDir(t, Parent(p))
  }

  function Forwards(p: Path): Move
    requires |p| == 4
  {
    Move(p, Parent(p) + [VENUE, p[3]])
  }

  function Backwards(p: Path): Move
    requires |p| == 5
  {
    Move(p, p[..3] + [p[4]])
  }

  predicate PlannedForwards(t: Tree, p: Path) {
    Loose(t, p) && !Migrated(t, Parent(p))
  }

  predicate PlannedBackwards(t: Tree, p: Path) {
    p in t && |p| == 5 && t[p].File? && IsVenueDir(Parent(p)) && IsSourceDir(t, p[..3])
  }

  predicate Stale(t: Tree, p: Path) {
    Loose(t, p) && Migrated(t, Parent(p)) && p[3] != "meta.json"
  }

  predicate SourceMeta(t: Tree, p: Path) {
    Loose(t, p) && Migrated(t, Parent(p)) && p[3] == "meta.json"
  }

  predicate Distinct(ps: seq<Path>) {
    forall i, j :: 0 <= i < j < |ps| ==> ps[i] != ps[j]
  }

  method Listing(s: set<Path>) returns (ps: seq<Path>)
    ensures Distinct(ps) && forall p :: p in ps <==> p in s
  {
    ps := [];
    var todo := s;
    while todo != {}
      invariant todo <= s && Distinct(ps) && forall p :: p in ps <==> p in s && p !in todo
      decreases todo
    {
      var p :| p in todo;
      ps := ps + [p];
      todo := todo - {p};
    }
  }

  predicate Planned(t: Tree, reverse: bool, p: Path) {
    if reverse then PlannedBackwards(t, p) else PlannedForwards(t, p)
  }

  /** One source directory's part of the plan: the files to move and those that stay. */
  method PlanDir(t: Tree, d: Path, reverse: bool) returns (moving: seq<Path>, stale: seq<Path>, sourceMeta: seq<Path>)
    requires WellFormed(t) && IsSourceDir(t, d)
    ensures Distinct(moving) && forall p :: p in moving <==> Planned(t, reverse, p) && p[..3] == d
    ensures forall p :: p in stale <==> !reverse && Stale(t, p) && p[..3] == d
    ensures forall p :: p in sourceMeta <==> !reverse && SourceMeta(t, p) && p[..3] == d
  {
    if reverse {
      moving := PlanDirBack(t, d);
      return moving, [], [];
    }
    var loose := LooseIn(t, d);
    if Migrated(t, d) {
      stale, sourceMeta := SplitMeta(loose);
      moving := [];
    } else {
      moving, stale, sourceMeta := loose, [], [];
    }
  }

  method PlanDirBack(t: Tree, d: Path) returns (moving: seq<Path>)
    requires WellFormed(t) && IsSourceDir(t, d)
    ensures Distinct(moving) && forall p :: p in moving <==> PlannedBackwards(t, p) && p[..3] == d
  {
    var venue := d + [VENUE];
    forall p | p in t && t[p].File? ensures PlannedBackwards(t, p) && p[..3] == d <==> IsChild(venue, p) {
      if IsChild(venue, p) { assert p[..3] == Parent(p)[..3] == d; }
    }
    if venue !in t || !t[venue].Dir? {
      return [];
    }
    moving := Listing(set p | p in t && IsChild(venue, p) && t[p].File?);
  }

  method LooseIn(t: Tree, d: Path) returns (loose: seq<Path>)
    requires WellFormed(t) && IsSourceDir(t, d)
    ensures Distinct(loose) && forall p :: p in loose <==> Loose(t, p) && p[..3] == d
  {
    loose := Listing(set p | p in t && IsChild(d, p) && t[p].File?);
    assert forall p :: Loose(t, p) ==> p[..3] == Parent(p);
  }

  method SplitMeta(loose: seq<Path>) returns (stale: seq<Path>, sourceMeta: seq<Path>)
    requires forall p :: p in loose ==> |p| == 4
    ensures forall p :: p in stale <==> p in loose && p[3] != "meta.json"
    ensures forall p :: p in sourceMeta <==> p in loose && p[3] == "meta.json"
  {
    stale, sourceMeta := [], [];
    for i := 0 to |loose|
      invariant forall p :: p in stale <==> p in loose[..i] && p in loose && p[3] != "meta.json"
      invariant forall p :: p in sourceMeta <==> p in loose[..i] && p in loose && p[3] == "meta.json"
    {
      assert loose[i] in loose && loose[..i + 1] == loose[..i] + [loose[i]];
      if loose[i][3] == "meta.json" {
        sourceMeta := sourceMeta + [loose[i]];
      } else {
        stale := stale + [loose[i]];
      }
    }
    assert loose[..|loose|] == loose;
  }

  datatype Plan = Plan(moving: seq<Path>, stale: seq<Path>, sourceMeta: seq<Path>)

  ghost predicate IsPlan(t: Tree, reverse: bool, plan: Plan) {
    && Distinct(plan.moving)
    && (forall p :: p in plan.moving <==> Planned(t, reverse, p))
    && (forall p :: p in plan.stale <==> !reverse && Stale(t, p))
    && (forall p :: p in plan.sourceMeta <==> !reverse && SourceMeta(t, p))
  }

  function MovesOf(ps: seq<Path>, reverse: bool): (moves: seq<Move>)
    requires forall p :: p in ps ==> |p| == if reverse then 5 else 4
    ensures |moves| == |ps| && Proper(moves)
  {
    seq(|ps|, i requires 0 <= i < |ps| => assert ps[i] in ps; if reverse then Backwards(ps[i]) else Forwards(ps[i]))
  }

  ghost predicate PlansFor(t: Tree, reverse: bool, dirs: seq<Path>, plan: Plan) {
    && Distinct(plan.moving)
    && (forall p :: p in plan.moving <==> Planned(t, reverse, p) && p[..3] in dirs)
    && (forall p :: p in plan.stale <==> !reverse && Stale(t, p) && p[..3] in dirs)
    && (forall p :: p in plan.sourceMeta <==> !reverse && SourceMeta(t, p) && p[..3] in dirs)
  }

  method MakePlan(t: Tree, reverse: bool) returns (plan: Plan)
    requires WellFormed(t)
    ensures IsPlan(t, reverse, plan)
  {
    var dirs := Listing(set d | d in t && IsSourceDir(t, d));
    plan := Plan([], [], []);
    for i := 0 to |dirs|
      invariant PlansFor(t, reverse, dirs[..i], plan)
    {
      assert dirs[i] in dirs;
      var moving, stale, sourceMeta := PlanDir(t, dirs[i], reverse);
      ghost var before := plan;
      plan := Plan(plan.moving + moving, plan.stale + stale, plan.sourceMeta + sourceMeta);
      PlanGrows(t, reverse, dirs, i, before, Plan(moving, stale, sourceMeta));
    }
    assert dirs[..|dirs|] == dirs;
    forall p | Planned(t, reverse, p) || Stale(t, p) || SourceMeta(t, p) ensures p[..3] in dirs {
      if Loose(t, p) { assert p[..3] == Parent(p); }
    }
  }

  lemma PlanGrows(t: Tree, reverse: bool, dirs: seq<Path>, i: nat, before: Plan, more: Plan)
    requires i < |dirs| && Distinct(dirs) && PlansFor(t, reverse, dirs[..i], before)
    requires PlansFor(t, reverse, [dirs[i]], more)
    ensures PlansFor(t, reverse, dirs[..i + 1],
                     Plan(before.moving + more.moving, before.stale + more.stale,
                          before.sourceMeta + more.sourceMeta))
  {
    assert dirs[..i + 1] == dirs[..i] + [dirs[i]];
    assert dirs[i] !in dirs[..i];
    var all := before.moving + more.moving;
    forall j, k | 0 <= j < k < |all| ensures all[j] != all[k] {
      if j < |before.moving| <= k {
        assert all[j] in before.moving && all[k] in more.moving;
      }
    }
  }

  // ---- the plan of the other root ----------------------------------------------------------

  const JSONL := ".jsonl"

  /** The suffix of a name starts at its last dot, unless that is its first character. */
  predicate IsJsonl(name: string) {
    |name| > |JSONL| && name[|name| - |JSONL|..] == JSONL
  }

  /** A directory named in digits; others, such as `_archive`, are passed over. */
  predicate IsDateDir(t: Tree, d: Path) {
    d in t && |d| == 1 && t[d].Dir? && d[0] != "" && forall i :: 0 <= i < |d[0]| ==> '0' <= d[0][i] <= '9'
  }

  predicate PlannedJsonl(t: Tree, reverse: bool, p: Path) {
    && p in t && t[p].File? && |p| == (if reverse then 3 else 2) && IsJsonl(p[|p| - 1]) && IsDateDir(t, p[..1])
    && (if reverse then p[1] == VENUE else !Migrated(t, Parent(p)))
  }

  ghost predicate IsJsonlPlan(t: Tree, reverse: bool, ps: seq<Path>) {
    Distinct(ps) && forall p :: p in ps <==> PlannedJsonl(t, reverse, p)
  }

  function JsonlMove(p: Path, reverse: bool): Move
    requires |p| == if reverse then 3 else 2
  {
    Move(p, if reverse then [p[0], p[2]] else [p[0], VENUE, p[1]])
  }

  function JsonlMoves(ps: seq<Path>, reverse: bool): (moves: seq<Move>)
    requires forall p :: p in ps ==> |p| == if reverse then 3 else 2
    ensures |moves| == |ps| && Proper(moves)
  {
    seq(|ps|, i requires 0 <= i < |ps| => assert ps[i] in ps; JsonlMove(ps[i], reverse))
  }

  method PlanJsonl(t: Tree, reverse: bool) returns (ps: seq<Path>)
    requires WellFormed(t)
    ensures IsJsonlPlan(t, reverse, ps)
  {
    var dirs := Listing(set d | d in t && IsDateDir(t, d));
    ps := [];
    for i := 0 to |dirs|
      invariant Distinct(ps) && forall p :: p in ps <==> PlannedJsonl(t, reverse, p) && p[..1] in dirs[..i]
    {
      assert dirs[i] in dirs;
      var more := PlanDateDir(t, dirs[i], reverse);
      assert dirs[..i + 1] == dirs[..i] + [dirs[i]];
      ghost var all := ps + more;
      forall j, k | 0 <= j < k < |all| ensures all[j] != all[k] {
        if j < |ps| <= k { assert all[j] in ps && all[k] in more; }
      }
      ps := ps + more;
    }
    assert dirs[..|dirs|] == dirs;
  }

  method PlanDateDir(t: Tree, d: Path, reverse: bool) returns (ps: seq<Path>)
    requires WellFormed(t) && IsDateDir(t, d)
    ensures Distinct(ps) && forall p :: p in ps <==> PlannedJsonl(t, reverse, p) && p[..1] == d
  {
    var from := if reverse then d + [VENUE] else d;
    forall p | p in t && |p| == |from| + 1 && IsJsonl(p[|p| - 1]) && t[p].File?
      ensures IsChild(from, p) && (!reverse ==> !Migrated(t, d)) <==> PlannedJsonl(t, reverse, p) && p[..1] == d
    {
      if IsChild(from, p) { assert p[..1] == Parent(p)[..1] == d; }
      if p[..1] == d && (reverse ==> p[1] == VENUE) { assert Parent(p) == from; }
    }
    if (reverse && (from !in t || !t[from].Dir?)) || (!reverse && Migrated(t, d)) {
      return [];
    }
    ps := Listing(set p | p in t && IsChild(from, p) && IsJsonl(p[|p| - 1]) && t[p].File?);
  }

  // ---- what a forward run does -----------------------------------------------------------

  function Origin(p: Path): Path
    requires |p| == 5
  {
    p[..3] + [p[4]]
  }

  predicate MovedFrom(done: seq<Path>, d: Path) {
    exists i :: 0 <= i < |done| && |done[i]| == 4 && Parent(done[i]) == d
  }

  /** The tree once these files have been moved forwards. */
  function ForwardAt(t: Tree, done: seq<Path>, p: Path): Option<Node> {
    if p in done then None
    else if |p| == 5 && IsVenueDir(Parent(p)) && Origin(p) in done && Origin(p) in t then Some(t[Origin(p)])
    else if IsVenueDir(p) && MovedFrom(done, Parent(p)) then Some(Dir)
    else Lookup(t, p)
  }

  ghost predicate ForwardDone(t: Tree, done: seq<Path>, u: Tree) {
    forall p :: Lookup(u, p) == ForwardAt(t, done, p)
  }

  /** No file that is to move is called as the venue directory. */
  predicate NoVenueFile(t: Tree) {
    forall p :: p in t && PlannedForwards(t, p) ==> p[3] != VENUE
  }

  lemma VenueIsNew(t: Tree, p: Path)
    requires WellFormed(t) && NoVenueFile(t) && PlannedForwards(t, p)
    ensures Parent(p) + [VENUE] !in t && Forwards(p).dst !in t
  {
    var venue, dst := Parent(p) + [VENUE], Forwards(p).dst;
    assert IsChild(Parent(p), venue);
    assert Parent(dst) == venue;
    if venue in t { assert PlannedForwards(t, venue); }
  }

  lemma ForwardStep(t: Tree, done: seq<Path>, p: Path, u: Tree)
    requires WellFormed(t) && NoVenueFile(t) && PlannedForwards(t, p) && p !in done
    requires (forall q :: q in done ==> PlannedForwards(t, q)) && ForwardDone(t, done, u)
    ensures MoveOne(u, Forwards(p)).1 == Going && ForwardDone(t, done + [p], MoveOne(u, Forwards(p)).0)
  {
    var d, venue, dst := Parent(p), Parent(p) + [VENUE], Forwards(p).dst;
    assert Parent(venue) == d && Parent(dst) == venue && Origin(dst) == p;
    assert Lookup(u, p) == ForwardAt(t, done, p) == Lookup(t, p);
    assert Lookup(u, d) == ForwardAt(t, done, d) == Lookup(t, d);
    VenueIsNew(t, p);
    assert Lookup(u, venue) == ForwardAt(t, done, venue);
    assert Lookup(u, dst) == ForwardAt(t, done, dst) == None;
    assert CanMkdir(u, d);
    var made := if venue in u then u else u[venue := Dir];
    assert Mkdir(u, venue) == made;
    var v := (made - {p})[dst := made[p]];
    assert MoveOne(u, Forwards(p)) == (v, Going);
    forall q ensures Lookup(v, q) == ForwardAt(t, done + [p], q) {
      assert Lookup(u, q) == ForwardAt(t, done, q);
      MovedFromOneMore(done, p, q);
      PlacesOf(p, q);
    }
  }

  /** Only the destination comes from `p`, and only the venue directory is beside it. */
  lemma PlacesOf(p: Path, q: Path)
    requires |p| == 4
    ensures |q| == 5 && IsVenueDir(Parent(q)) && Origin(q) == p ==> q == Forwards(p).dst
    ensures IsVenueDir(q) && Parent(q) == Parent(p) ==> q == Parent(p) + [VENUE]
  {
    if |q| == 5 && IsVenueDir(Parent(q)) && Origin(q) == p {
      assert q[..3] == Origin(q)[..3] == Parent(p);
      assert q == q[..3] + [q[3], q[4]];
    }
    if IsVenueDir(q) { assert q == Parent(q) + [q[3]]; }
  }

  lemma MovedFromOneMore(done: seq<Path>, p: Path, q: Path)
    requires |p| == 4
    ensures IsVenueDir(q) ==>
              (MovedFrom(done + [p], Parent(q)) <==> MovedFrom(done, Parent(q)) || Parent(p) == Parent(q))
  {
    if IsVenueDir(q) {
      var all := done + [p];
      if MovedFrom(done, Parent(q)) {
        var i :| 0 <= i < |done| && |done[i]| == 4 && Parent(done[i]) == Parent(q);
        assert all[i] == done[i];
      }
      assert all[|done|] == p;
    }
  }

  ghost predicate Movable(t: Tree, ps: seq<Path>) {
    Distinct(ps) && forall p :: p in ps ==> PlannedForwards(t, p)
  }

  lemma MovesOfInit(t: Tree, ps: seq<Path>)
    requires Movable(t, ps) && ps != []
    ensures Movable(t, ps[..|ps| - 1]) && PlannedForwards(t, ps[|ps| - 1]) && ps[|ps| - 1] !in ps[..|ps| - 1]
    ensures MovesOf(ps, false)[..|ps| - 1] == MovesOf(ps[..|ps| - 1], false)
    ensures MovesOf(ps, false)[|ps| - 1] == Forwards(ps[|ps| - 1])
  {
    assert ps[|ps| - 1] in ps;
  }

  lemma {:induction false} ForwardRun(t: Tree, ps: seq<Path>)
    requires WellFormed(t) && NoVenueFile(t) && Movable(t, ps)
    ensures var r := Applied(t, MovesOf(ps, false));
            r.status == Going && r.moved == |ps| && ForwardDone(t, ps, r.tree)
  {
    if ps != [] {
      var init, p := ps[..|ps| - 1], ps[|ps| - 1];
      MovesOfInit(t, ps);
      ForwardRun(t, init);
      assert init + [p] == ps;
      ForwardStep(t, init, p, Applied(t, MovesOf(init, false)).tree);
    }
  }

  lemma StopsByTheLast(t: Tree, ps: seq<Path>)
    requires Movable(t, ps) && ps != []
    requires Movable(t, ps[..|ps| - 1]) && PlannedForwards(t, ps[|ps| - 1])
    requires var before := Applied(t, MovesOf(ps[..|ps| - 1], false));
             before.status == Going ==> MoveOne(before.tree, Forwards(ps[|ps| - 1])).1 != Going
    ensures Applied(t, MovesOf(ps, false)).status != Going
  {
    MovesOfInit(t, ps);
  }

  lemma {:induction false} VenueFileStops(t: Tree, ps: seq<Path>, k: nat)
    requires WellFormed(t) && Movable(t, ps) && k < |ps| && |ps[k]| == 4 && ps[k][3] == VENUE
    ensures Applied(t, MovesOf(ps, false)).status != Going
    decreases |ps|
  {
    var init, p := ps[..|ps| - 1], ps[|ps| - 1];
    MovesOfInit(t, ps);
    if k < |ps| - 1 {
      VenueFileStops(t, init, k);
    } else {
      FileStaysUntilMoved(t, init, p);
      FileIsNoDirectory(Applied(t, MovesOf(init, false)).tree, p);
    }
    StopsByTheLast(t, ps);
  }

  lemma FileIsNoDirectory(t: Tree, p: Path)
    requires |p| == 4 && p[3] == VENUE && p in t && t[p].File?
    ensures MoveOne(t, Forwards(p)) == (t, Raised)
  {
    assert p == Parent(p) + [VENUE];
    assert Parent(Forwards(p).dst) == p;
  }

  lemma FileStaysUntilMoved(t: Tree, ps: seq<Path>, p: Path)
    requires WellFormed(t) && Movable(t, ps) && PlannedForwards(t, p) && p !in ps
    ensures p in Applied(t, MovesOf(ps, false)).tree && Applied(t, MovesOf(ps, false)).tree[p] == t[p]
  {
    var moves := MovesOf(ps, false);
    forall m | m in moves ensures m.src in t && t[m.src].File? && m.src != p {
      var i :| 0 <= i < |moves| && moves[i] == m;
      assert ps[i] in ps;
    }
    NothingIsLost(t, moves, "");
  }

  /** A forward run goes through to the end exactly when no file to be moved has the venue's name,
      where the venue directory has to be made. */
  lemma ForwardCompletes(t: Tree, plan: Plan)
    requires WellFormed(t) && IsPlan(t, false, plan)
    ensures Applied(t, MovesOf(plan.moving, false)).status == Going <==> NoVenueFile(t)
  {
    if NoVenueFile(t) {
      ForwardRun(t, plan.moving);
    } else {
      var p :| p in t && PlannedForwards(t, p) && p[3] == VENUE;
      assert p in plan.moving;
      var k :| 0 <= k < |plan.moving| && plan.moving[k] == p;
      VenueFileStops(t, plan.moving, k);
    }
  }

  ghost predicate Completed(t: Tree, plan: Plan, u: Tree) {
    && WellFormed(t) && IsPlan(t, false, plan)
    && Applied(t, MovesOf(plan.moving, false)) == Progress(u, |plan.moving|, Going)
  }

  lemma CompletedIsDone(t: Tree, plan: Plan, u: Tree)
    requires Completed(t, plan, u)
    ensures NoVenueFile(t) && ForwardDone(t, plan.moving, u)
  {
    ForwardCompletes(t, plan);
    ForwardRun(t, plan.moving);
  }

  /** After a completed forward run there is nothing more to move. */
  lemma ForwardIsDoneOnce(t: Tree, plan: Plan, u: Tree, p: Path)
    requires Completed(t, plan, u)
    ensures !PlannedForwards(u, p)
  {
    CompletedIsDone(t, plan, u);
    if Loose(u, p) {
      var d := Parent(p);
      assert Lookup(u, p) == ForwardAt(t, plan.moving, p) && Lookup(u, d) == ForwardAt(t, plan.moving, d);
      assert p !in plan.moving && Loose(t, p) && !PlannedForwards(t, p);
      var q :| q in t && IsChild(d, q) && t[q].Dir?;
      assert q !in plan.moving && Lookup(u, q) == ForwardAt(t, plan.moving, q);
      assert q in u && u[q].Dir?;
    }
  }

  /** A directory that was migrated before is left as it is, loose files and all, unless pruned. */
  lemma MigratedIsUntouched(t: Tree, plan: Plan, u: Tree, d: Path, p: Path)
    requires Completed(t, plan, u) && IsSourceDir(t, d) && Migrated(t, d) && |p| > 3 && p[..3] == d
    ensures Lookup(u, p) == Lookup(t, p)
  {
    CompletedIsDone(t, plan, u);
    assert Lookup(u, p) == ForwardAt(t, plan.moving, p);
    assert forall q :: q in plan.moving ==> PlannedForwards(t, q) && Parent(q) != d;
    assert |p| == 4 ==> Parent(p) == d;
    assert |p| == 5 ==> Parent(Origin(p)) == p[..3];
    assert forall i :: 0 <= i < |plan.moving| ==> plan.moving[i] in plan.moving;
  }

  /** Pruning after a completed run takes the stale files and nothing else: a source's own meta file,
      for one, is still what it was. */
  lemma PruningTakesOnlyStale(t: Tree, plan: Plan, u: Tree, p: Path)
    requires Completed(t, plan, u)
    ensures Lookup(u - Elements(plan.stale), p) == if Stale(t, p) then None else Lookup(u, p)
    ensures SourceMeta(t, p) ==> Lookup(u - Elements(plan.stale), p) == Lookup(t, p)
  {
    if SourceMeta(t, p) {
      assert p[..3] == Parent(p);
      MigratedIsUntouched(t, plan, u, Parent(p), p);
    }
  }

  const DAY := ["20260803"]
  const STOCK := DAY + ["005930"]
  const LIVE := STOCK + [SOURCE]
  const LIVE_DIRS: Tree := map[DAY := Dir, STOCK := Dir, LIVE := Dir]

  lemma LiveDirs()
    ensures WellFormed(LIVE_DIRS) && IsSourceDir(LIVE_DIRS, LIVE) && |LIVE| == 3
    ensures Parent(LIVE) == STOCK && Parent(STOCK) == DAY
  {
  }

  lemma OneMove(t: Tree, m: Move)
    requires m.dst != []
    ensures Applied(t, [m]) == Progress(MoveOne(t, m).0, if MoveOne(t, m).1 == Going then 1 else 0, MoveOne(t, m).1)
  {
    assert [m][..0] == [];
    assert Applied(t, [m][..0]) == Progress(t, 0, Going);
  }

  /** A loose file called `KRX` is planned, and stops the run at its own move. */
  lemma LooseVenueFileStops(content: string)
    ensures var p := LIVE + [VENUE];
            var t := LIVE_DIRS[p := File(content)];
            && WellFormed(t) && PlannedForwards(t, p)
            && Applied(t, [Forwards(p)]) == Progress(t, 0, Raised)
  {
    var p := LIVE + [VENUE];
    var t := LIVE_DIRS[p := File(content)];
    LiveDirs();
    assert Parent(p) == LIVE && Parent(Forwards(p).dst) == p;
    OneMove(t, Forwards(p));
  }

  // ---- directories without a venue directory -----------------------------------------------

  predicate HasVenue(t: Tree, d: Path) {
    d + [VENUE] in t && t[d + [VENUE]].Dir?
  }

  /** The loose files of a directory without a venue directory end in one. */
  ghost predicate AsDocumented(t: Tree, u: Tree) {
    forall p :: Loose(t, p) && !HasVenue(t, Parent(p)) ==> Lookup(u, Forwards(p).dst) == Some(t[p])
  }

  lemma NothingWithoutVenue(t: Tree, p: Path)
    requires WellFormed(t) && |p| == 4 && !HasVenue(t, Parent(p))
    ensures Forwards(p).dst !in t
  {
    assert Parent(Forwards(p).dst) == Parent(p) + [VENUE];
  }

  lemma AtDestination(t: Tree, done: seq<Path>, p: Path)
    requires |p| == 4 && p[2] == SOURCE && p in t && Forwards(p).dst !in done
    ensures ForwardAt(t, done, Forwards(p).dst) == if p in done then Some(t[p]) else Lookup(t, Forwards(p).dst)
  {
    assert Parent(Forwards(p).dst) == p[..3] + [VENUE];
    assert Origin(Forwards(p).dst) == p;
  }

  lemma MovedUnlessMigrated(t: Tree, plan: Plan, u: Tree, p: Path)
    requires Completed(t, plan, u) && Loose(t, p) && !HasVenue(t, Parent(p))
    ensures Lookup(u, Forwards(p).dst) == Some(t[p]) <==> !Migrated(t, Parent(p))
  {
    CompletedIsDone(t, plan, u);
    NothingWithoutVenue(t, p);
    assert p in plan.moving <==> PlannedForwards(t, p);
    assert Forwards(p).dst !in plan.moving;
    AtDestination(t, plan.moving, p);
    assert Lookup(u, Forwards(p).dst) == ForwardAt(t, plan.moving, Forwards(p).dst);
  }

  /** The text says that a directory without a venue directory is migrated. A completed run does so
      exactly when every source directory that has some directory and a loose file has that one. */
  lemma DocumentedExactly(t: Tree, plan: Plan, u: Tree)
    requires Completed(t, plan, u)
    ensures AsDocumented(t, u) <==> forall p :: Loose(t, p) && Migrated(t, Parent(p)) ==> HasVenue(t, Parent(p))
  {
    forall p | Loose(t, p) && !HasVenue(t, Parent(p))
      ensures Lookup(u, Forwards(p).dst) == Some(t[p]) <==> !Migrated(t, Parent(p))
    {
      MovedUnlessMigrated(t, plan, u, p);
    }
  }

  /** Moving writes nothing over what there is. */
  lemma OnlyNewPaths(t: Tree, done: seq<Path>, p: Path)
    requires WellFormed(t) && NoVenueFile(t) && (forall q :: q in done ==> PlannedForwards(t, q))
    ensures p in t && t[p].File? && p !in done ==> ForwardAt(t, done, p) == Some(t[p])
  {
    if |p| == 5 && IsVenueDir(Parent(p)) && Origin(p) in done {
      VenueIsNew(t, Origin(p));
      OriginIsHome(p);
    }
    if IsVenueDir(p) && MovedFrom(done, Parent(p)) {
      var i :| 0 <= i < |done| && |done[i]| == 4 && Parent(done[i]) == Parent(p);
      assert done[i] in done && p == Parent(done[i]) + [VENUE];
      VenueIsNew(t, done[i]);
    }
  }

  lemma UnmovedStays(t: Tree, plan: Plan, u: Tree, p: Path)
    requires Completed(t, plan, u) && p in t && t[p].File?
    ensures !PlannedForwards(t, p) ==> Lookup(u, p) == Some(t[p])
    ensures PlannedForwards(t, p) ==> Lookup(u, Forwards(p).dst) == Some(t[p])
  {
    CompletedIsDone(t, plan, u);
    if PlannedForwards(t, p) {
      var dst := Forwards(p).dst;
      assert p in plan.moving && dst !in plan.moving && Parent(p)[2] == SOURCE;
      AtDestination(t, plan.moving, p);
      assert Lookup(u, dst) == ForwardAt(t, plan.moving, dst);
    } else {
      assert Lookup(u, p) == ForwardAt(t, plan.moving, p) && p !in plan.moving;
      OnlyNewPaths(t, plan.moving, p);
    }
  }

  lemma CameFrom(t: Tree, plan: Plan, u: Tree, q: Path)
    requires Completed(t, plan, u) && q in u && u[q].File?
    ensures (q in t && t[q] == u[q])
         || (|q| == 5 && PlannedForwards(t, Origin(q)) && t[Origin(q)] == u[q])
  {
    CompletedIsDone(t, plan, u);
    assert Lookup(u, q) == ForwardAt(t, plan.moving, q);
  }

  /** Pruning after a completed run loses a content exactly when it was in stale files only. */
  lemma PruningLosesExactly(t: Tree, plan: Plan, u: Tree, c: string)
    requires Completed(t, plan, u)
    ensures Holding(u - Elements(plan.stale), c) == {} <==> forall p :: p in Holding(t, c) ==> Stale(t, p)
  {
    var pruned := u - Elements(plan.stale);
    forall p | p in Holding(t, c) && !Stale(t, p) ensures Holding(pruned, c) != {} {
      UnmovedStays(t, plan, u, p);
      var q := if PlannedForwards(t, p) then Forwards(p).dst else p;
      assert q in Holding(pruned, c);
    }
    forall q | q in Holding(pruned, c) ensures exists p :: p in Holding(t, c) && !Stale(t, p) {
      CameFrom(t, plan, u, q);
      var p := if q in t && t[q] == u[q] then q else Origin(q);
      assert p in Holding(t, c) && !Stale(t, p);
    }
  }

  const OTHER := LIVE + ["NXT"]
  const BARS := LIVE + ["a.parquet"]

  function OtherVenue(content: string): Tree {
    LIVE_DIRS[OTHER := Dir][BARS := File(content)]
  }

  /** A source directory with another directory and no venue directory: its loose file is not planned
      but stale, and pruning takes the only copy of its content. */
  lemma OtherVenueIsPruned(content: string)
    ensures var t, plan := OtherVenue(content), Plan([], [BARS], []);
            && !HasVenue(t, LIVE) && Completed(t, plan, t) && !AsDocumented(t, t)
            && Holding(t, content) == {BARS} && Holding(t - Elements(plan.stale), content) == {}
  {
    var t, plan := OtherVenue(content), Plan([], [BARS], []);
    OtherVenueIsPlanned(content);
    assert Holding(t, content) == {BARS};
    assert BARS in plan.stale;
    PruningLosesExactly(t, plan, t, content);
    MovedUnlessMigrated(t, plan, t, BARS);
  }

  lemma OtherVenueIsWellFormed(content: string)
    ensures WellFormed(OtherVenue(content)) && IsChild(LIVE, OTHER) && Parent(BARS) == LIVE
  {
    var t := OtherVenue(content);
    LiveDirs();
    assert Parent(OTHER) == LIVE && Parent(BARS) == LIVE && t[LIVE].Dir?;
    forall p | p in t ensures p != [] && (|p| > 1 ==> Parent(p) in t && t[Parent(p)].Dir?) {
      if p in LIVE_DIRS { assert |p| > 1 ==> Parent(p) in LIVE_DIRS && LIVE_DIRS[Parent(p)].Dir?; }
    }
  }

  lemma OtherVenueIsPlanned(content: string)
    ensures var t, plan := OtherVenue(content), Plan([], [BARS], []);
            Completed(t, plan, t) && Loose(t, BARS) && Migrated(t, LIVE) && Parent(BARS) == LIVE && !HasVenue(t, LIVE)
  {
    var t := OtherVenue(content);
    LiveDirs();
    OtherVenueIsWellFormed(content);
    assert OTHER in t && t[OTHER].Dir? && Migrated(t, LIVE);
    assert BARS[3] != "meta.json" && OTHER[3] != VENUE && BARS[3] != VENUE && (LIVE + [VENUE])[3] == VENUE;
    assert forall p :: p in t && t[p].File? ==> p == BARS;
    assert Loose(t, BARS);
    assert IsPlan(t, false, Plan([], [BARS], []));
  }

  // ---- a run that was interrupted ----------------------------------------------------------

  /** What a rerun makes of a file an interrupted run had not come to. */
  lemma LeftOver(t: Tree, done: seq<Path>, v: Tree, p: Path)
    requires WellFormed(t) && NoVenueFile(t) && Movable(t, done) && ForwardDone(t, done, v)
    requires PlannedForwards(t, p) && p !in done
    ensures Loose(v, p) && v[p] == t[p]
    ensures PlannedForwards(v, p) <==> !MovedFrom(done, Parent(p))
    ensures Stale(v, p) <==> MovedFrom(done, Parent(p)) && p[3] != "meta.json"
  {
    var d, venue := Parent(p), Parent(p) + [VENUE];
    assert Lookup(v, p) == ForwardAt(t, done, p) == Lookup(t, p);
    assert Lookup(v, d) == ForwardAt(t, done, d) == Lookup(t, d);
    assert Lookup(v, venue) == ForwardAt(t, done, venue) && IsChild(d, venue);
    VenueIsNew(t, p);
    assert venue !in done;
    if Migrated(v, d) {
      var q :| q in v && IsChild(d, q) && v[q].Dir?;
      assert Lookup(v, q) == ForwardAt(t, done, q);
    }
  }

  /** Even making the venue directory, with nothing moved yet, is enough. */
  lemma MadeDirectoryIsEnough(t: Tree, done: seq<Path>, v: Tree, p: Path)
    requires WellFormed(t) && NoVenueFile(t) && Movable(t, done) && ForwardDone(t, done, v)
    requires PlannedForwards(t, p) && p !in done
    ensures var w := Mkdir(v, Parent(Forwards(p).dst));
            Loose(w, p) && !PlannedForwards(w, p) && (Stale(w, p) <==> p[3] != "meta.json")
  {
    var d, venue := Parent(p), Parent(p) + [VENUE];
    LeftOver(t, done, v, p);
    assert Parent(Forwards(p).dst) == venue && IsChild(d, venue);
    MkdirAdds(v, venue);
    var w := Mkdir(v, venue);
    assert Lookup(v, venue) == ForwardAt(t, done, venue);
    VenueIsNew(t, p);
    assert venue in w && w[venue].Dir?;
  }

  ghost predicate NoneHalfMoved(done: seq<Path>, rest: seq<Path>) {
    forall p :: p in rest && |p| == 4 ==> !MovedFrom(done, Parent(p))
  }

  lemma InterruptedIsWellFormed(t: Tree, done: seq<Path>, v: Tree)
    requires WellFormed(t) && NoVenueFile(t) && Movable(t, done) && ForwardDone(t, done, v)
    ensures WellFormed(v) && NoVenueFile(v)
  {
    forall q | q in v ensures q != [] && (|q| > 1 ==> Parent(q) in v && v[Parent(q)].Dir?) {
      assert Lookup(v, q) == ForwardAt(t, done, q);
      if |q| > 1 { ParentStays(t, done, v, q); }
    }
    forall q | q in v && PlannedForwards(v, q) ensures q[3] != VENUE {
      PlannedAgain(t, done, v, q);
    }
  }

  lemma ParentStays(t: Tree, done: seq<Path>, v: Tree, q: Path)
    requires WellFormed(t) && NoVenueFile(t) && Movable(t, done) && ForwardDone(t, done, v) && q in v && |q| > 1
    ensures Parent(q) in v && v[Parent(q)].Dir?
  {
    var d := Parent(q);
    assert Lookup(v, q) == ForwardAt(t, done, q) && Lookup(v, d) == ForwardAt(t, done, d);
    if |q| == 5 && IsVenueDir(d) && Origin(q) in done && Origin(q) in t {
      OriginIsHome(q);
      assert Parent(d) == q[..3] == Parent(Origin(q));
      var i :| 0 <= i < |done| && done[i] == Origin(q);
      assert MovedFrom(done, Parent(d));
      VenueIsNew(t, Origin(q));
      assert d == Parent(d) + [VENUE];
    } else if IsVenueDir(q) && MovedFrom(done, d) {
      var i :| 0 <= i < |done| && |done[i]| == 4 && Parent(done[i]) == d;
      assert done[i] in done && PlannedForwards(t, done[i]);
    } else {
      assert q in t && t[d].Dir?;
      assert d in done ==> PlannedForwards(t, d);
    }
  }

  lemma MigratedStays(t: Tree, done: seq<Path>, v: Tree, d: Path)
    requires Movable(t, done) && ForwardDone(t, done, v) && Migrated(t, d) && |d| == 3
    ensures Migrated(v, d)
  {
    var q :| q in t && IsChild(d, q) && t[q].Dir?;
    assert Lookup(v, q) == ForwardAt(t, done, q);
    assert q !in done;
    assert q in v && v[q].Dir?;
  }

  /** A rerun plans nothing that was not planned. */
  lemma PlannedAgain(t: Tree, done: seq<Path>, v: Tree, p: Path)
    requires WellFormed(t) && NoVenueFile(t) && Movable(t, done) && ForwardDone(t, done, v) && PlannedForwards(v, p)
    ensures PlannedForwards(t, p) && p !in done && !MovedFrom(done, Parent(p))
  {
    var d := Parent(p);
    assert Lookup(v, p) == ForwardAt(t, done, p) && Lookup(v, d) == ForwardAt(t, done, d);
    if Migrated(t, d) { MigratedStays(t, done, v, d); }
    LeftOver(t, done, v, p);
  }

  lemma PlanBegins(t: Tree, plan: Plan, k: nat)
    requires IsPlan(t, false, plan) && k <= |plan.moving|
    ensures Movable(t, plan.moving[..k])
  {
    forall p | p in plan.moving[..k] ensures PlannedForwards(t, p) { assert p in plan.moving; }
  }

  /** The tree when a run stops after `k` moves. */
  ghost function StoppedAfter(t: Tree, plan: Plan, k: nat): Tree
    requires IsPlan(t, false, plan) && k <= |plan.moving|
  {
    PlanBegins(t, plan, k);
    Applied(t, MovesOf(plan.moving[..k], false)).tree
  }

  /** The tree after an interrupted run and the plan of the next. */
  ghost predicate Rerun(t: Tree, plan: Plan, k: nat, v: Tree, again: Plan) {
    && WellFormed(t) && NoVenueFile(t) && IsPlan(t, false, plan) && k <= |plan.moving|
    && v == StoppedAfter(t, plan, k) && IsPlan(v, false, again)
  }

  lemma RerunGoesOn(t: Tree, plan: Plan, k: nat, v: Tree, again: Plan)
    requires Rerun(t, plan, k, v, again)
    ensures Movable(t, plan.moving[..k]) && ForwardDone(t, plan.moving[..k], v)
    ensures Movable(v, again.moving) && Applied(v, MovesOf(again.moving, false)).status == Going
    ensures ForwardDone(v, again.moving, Applied(v, MovesOf(again.moving, false)).tree)
    ensures forall p :: p in again.moving ==> p in plan.moving && p !in plan.moving[..k]
  {
    var done := plan.moving[..k];
    PlanBegins(t, plan, k);
    ForwardRun(t, done);
    InterruptedIsWellFormed(t, done, v);
    ForwardRun(v, again.moving);
    forall p | p in again.moving ensures p in plan.moving && p !in done {
      PlannedAgain(t, done, v, p);
    }
  }

  lemma NotPlannedStays(v: Tree, again: Plan, p: Path)
    requires WellFormed(v) && NoVenueFile(v) && IsPlan(v, false, again) && Movable(v, again.moving)
    requires ForwardDone(v, again.moving, Applied(v, MovesOf(again.moving, false)).tree)
    requires p in v && v[p].File? && !PlannedForwards(v, p)
    ensures p in Applied(v, MovesOf(again.moving, false)).tree
  {
    OnlyNewPaths(v, again.moving, p);
    assert Lookup(Applied(v, MovesOf(again.moving, false)).tree, p) == ForwardAt(v, again.moving, p);
  }

  lemma MovedIsGone(t: Tree, plan: Plan, u: Tree, p: Path)
    requires Completed(t, plan, u) && p in plan.moving
    ensures p !in u
  {
    CompletedIsDone(t, plan, u);
    assert Lookup(u, p) == ForwardAt(t, plan.moving, p);
  }

  lemma RestIsLeft(plan: Plan, k: nat, p: Path)
    requires Distinct(plan.moving) && k <= |plan.moving| && p in plan.moving[k..]
    ensures p in plan.moving && p !in plan.moving[..k]
  {
  }

  lemma HalfMovedStays(t: Tree, plan: Plan, k: nat, v: Tree, again: Plan, p: Path)
    requires Rerun(t, plan, k, v, again)
    requires p in plan.moving[k..] && |p| == 4 && MovedFrom(plan.moving[..k], Parent(p))
    ensures p in plan.moving && p in Applied(v, MovesOf(again.moving, false)).tree
  {
    RerunGoesOn(t, plan, k, v, again);
    RestIsLeft(plan, k, p);
    LeftOver(t, plan.moving[..k], v, p);
    InterruptedIsWellFormed(t, plan.moving[..k], v);
    NotPlannedStays(v, again, p);
  }

  lemma AgainIsUnmoved(t: Tree, plan: Plan, k: nat, v: Tree, again: Plan, p: Path)
    requires Rerun(t, plan, k, v, again)
    ensures p in again.moving ==> Lookup(v, p) == Lookup(t, p)
  {
    RerunGoesOn(t, plan, k, v, again);
    if p in again.moving { LeftOver(t, plan.moving[..k], v, p); }
  }

  lemma RestIsPlanned(t: Tree, plan: Plan, k: nat, v: Tree, again: Plan, p: Path)
    requires Rerun(t, plan, k, v, again) && NoneHalfMoved(plan.moving[..k], plan.moving[k..])
    ensures p in plan.moving <==> p in plan.moving[..k] || p in again.moving
  {
    var done := plan.moving[..k];
    assert plan.moving == done + plan.moving[k..];
    RerunGoesOn(t, plan, k, v, again);
    if p in plan.moving && p !in done {
      assert p in plan.moving[k..] && |p| == 4 && !MovedFrom(done, Parent(p));
      LeftOver(t, done, v, p);
    }
  }

  lemma MovedFromEither(all: seq<Path>, a: seq<Path>, b: seq<Path>, d: Path)
    requires forall p :: p in all <==> p in a || p in b
    ensures MovedFrom(all, d) <==> MovedFrom(a, d) || MovedFrom(b, d)
  {
    MovedFromSome(all, d);
    MovedFromSome(a, d);
    MovedFromSome(b, d);
  }

  lemma MovedFromSome(done: seq<Path>, d: Path)
    ensures MovedFrom(done, d) <==> exists p :: p in done && |p| == 4 && Parent(p) == d
  {
    if p :| p in done && |p| == 4 && Parent(p) == d {
      var i :| 0 <= i < |done| && done[i] == p;
    }
    if MovedFrom(done, d) {
      var i :| 0 <= i < |done| && |done[i]| == 4 && Parent(done[i]) == d;
      assert done[i] in done;
    }
  }

  lemma RerunAgrees(t: Tree, plan: Plan, k: nat, v: Tree, again: Plan, q: Path)
    requires Rerun(t, plan, k, v, again) && NoneHalfMoved(plan.moving[..k], plan.moving[k..])
    ensures ForwardAt(v, again.moving, q) == ForwardAt(t, plan.moving, q)
  {
    var done := plan.moving[..k];
    RerunGoesOn(t, plan, k, v, again);
    forall p ensures p in plan.moving <==> p in done || p in again.moving { RestIsPlanned(t, plan, k, v, again, p); }
    assert Lookup(v, q) == ForwardAt(t, done, q);
    if |q| == 5 && IsVenueDir(Parent(q)) {
      AgainIsUnmoved(t, plan, k, v, again, Origin(q));
    }
    if IsVenueDir(q) {
      MovedFromEither(plan.moving, done, again.moving, Parent(q));
      assert q !in plan.moving;
    }
  }

  /** Running it again after an interruption is called safe. The rerun always goes through
      to the end, but it ends where one uninterrupted run would have exactly when the interruption
      left no directory with some of its files moved and some not. */
  lemma RerunIsSafeExactly(t: Tree, plan: Plan, u: Tree, k: nat, v: Tree, again: Plan)
    requires Completed(t, plan, u) && k <= |plan.moving|
    requires v == StoppedAfter(t, plan, k) && IsPlan(v, false, again)
    ensures var r := Applied(v, MovesOf(again.moving, false));
            r.status == Going && (r.tree == u <==> NoneHalfMoved(plan.moving[..k], plan.moving[k..]))
  {
    CompletedIsDone(t, plan, u);
    RerunGoesOn(t, plan, k, v, again);
    var done, rest, w := plan.moving[..k], plan.moving[k..], Applied(v, MovesOf(again.moving, false)).tree;
    if NoneHalfMoved(done, rest) {
      forall q ensures Lookup(w, q) == Lookup(u, q) {
        RerunAgrees(t, plan, k, v, again, q);
      }
      SameLookups(w, u);
    } else {
      var p :| p in rest && |p| == 4 && MovedFrom(done, Parent(p));
      HalfMovedStays(t, plan, k, v, again, p);
      MovedIsGone(t, plan, u, p);
    }
  }

  const MORE_BARS := LIVE + ["b.parquet"]

  function TwoFiles(a: string, b: string): Tree {
    LIVE_DIRS[BARS := File(a)][MORE_BARS := File(b)]
  }

  /** One of two files is moved, and the run stops: the rerun plans nothing, and with pruning it takes
      the only copy of the other. */
  lemma RerunPrunesTheRest(a: string, b: string)
    requires a != b
    ensures Movable(TwoFiles(a, b), [BARS, MORE_BARS])
    ensures var v, again := Applied(TwoFiles(a, b), [Forwards(BARS)]).tree, Plan([], [MORE_BARS], []);
            && Completed(v, again, v)
            && Holding(v, b) == {MORE_BARS} && Holding(v - Elements(again.stale), b) == {}
  {
    TwoFilesAreMovable(a, b);
    LiveFiles();
    var v := RestIsPruned(TwoFiles(a, b), BARS, MORE_BARS);
  }

  lemma RestIsPruned(t: Tree, p: Path, q: Path) returns (v: Tree)
    requires WellFormed(t) && NoVenueFile(t) && PlannedForwards(t, p) && PlannedForwards(t, q) && p != q
    requires (forall r :: r in t && t[r].File? ==> r == p || r == q) && t[p] != t[q]
    requires Parent(p) == Parent(q) && q[3] != "meta.json"
    ensures v == Applied(t, [Forwards(p)]).tree && Completed(v, Plan([], [q], []), v)
    ensures Holding(v, t[q].content) == {q} && Holding(v - Elements([q]), t[q].content) == {}
  {
    ForwardRun(t, [p]);
    assert MovesOf([p], false) == [Forwards(p)];
    v := Applied(t, [Forwards(p)]).tree;
    OneOfTwoMoved(t, p, q, v);
    InterruptedIsWellFormed(t, [p], v);
    NothingToMove(v, [q]);
    OnlyCopyGoes(v, q, t[q].content);
  }

  lemma OnlyCopyGoes(v: Tree, q: Path, c: string)
    requires Holding(v, c) == {q}
    ensures Holding(v - Elements([q]), c) == {}
  {
    assert q in [q] && q in Elements([q]);
    assert Holding(v - Elements([q]), c) <= Holding(v, c);
  }

  lemma NothingToMove(v: Tree, stale: seq<Path>)
    requires WellFormed(v) && IsPlan(v, false, Plan([], stale, []))
    ensures Completed(v, Plan([], stale, []), v)
  {
    assert MovesOf([], false) == [];
  }

  lemma LiveFiles()
    ensures |BARS| == 4 && Parent(BARS) == LIVE && BARS[3] != VENUE && BARS[3] != "meta.json"
    ensures |MORE_BARS| == 4 && Parent(MORE_BARS) == LIVE && MORE_BARS[3] != VENUE && MORE_BARS[3] != "meta.json"
    ensures BARS[3] != MORE_BARS[3]
  {
  }

  lemma TwoFilesAreMovable(a: string, b: string)
    ensures var t := TwoFiles(a, b);
            && WellFormed(t) && NoVenueFile(t) && Movable(t, [BARS, MORE_BARS])
            && PlannedForwards(t, BARS) && PlannedForwards(t, MORE_BARS)
  {
    var t := TwoFiles(a, b);
    LiveDirs();
    LiveFiles();
    FilesAdded(LIVE_DIRS, LIVE, BARS, MORE_BARS, File(a), File(b));
  }

  lemma FilesAdded(t: Tree, d: Path, p: Path, q: Path, a: Node, b: Node)
    requires WellFormed(t) && IsSourceDir(t, d) && (forall r :: r in t ==> t[r].Dir? && |r| <= 3)
    requires |p| == 4 && |q| == 4 && Parent(p) == d && Parent(q) == d && p[3] != q[3]
    requires a.File? && b.File? && p[3] != VENUE && q[3] != VENUE
    ensures var t2 := t[p := a][q := b];
            && WellFormed(t2) && NoVenueFile(t2) && Movable(t2, [p, q])
            && PlannedForwards(t2, p) && PlannedForwards(t2, q)
  {
    var t2 := t[p := a][q := b];
    assert !Migrated(t2, d);
    assert t2[d].Dir? && PlannedForwards(t2, p) && PlannedForwards(t2, q);
  }

  lemma OneOfTwoMoved(t: Tree, p: Path, q: Path, v: Tree)
    requires WellFormed(t) && NoVenueFile(t) && PlannedForwards(t, p) && PlannedForwards(t, q) && p != q
    requires (forall r :: r in t && t[r].File? ==> r == p || r == q) && t[p] != t[q]
    requires ForwardDone(t, [p], v) && Parent(p) == Parent(q) && q[3] != "meta.json"
    ensures Holding(v, t[q].content) == {q} && IsPlan(v, false, Plan([], [q], []))
  {
    assert [p][0] == p && MovedFrom([p], Parent(q));
    LeftOver(t, [p], v, q);
    forall r | r in v && v[r].File? ensures r == q || (|r| == 5 && v[r] == t[p]) {
      assert Lookup(v, r) == ForwardAt(t, [p], r);
    }
    forall r ensures !PlannedForwards(v, r) && !SourceMeta(v, r) && (Stale(v, r) <==> r == q) {
    }
  }

  // ---- what a run back does ----------------------------------------------------------------

  /** The tree once these files have gone back. */
  function ReturnedAt(t: Tree, done: seq<Path>, p: Path): Option<Node> {
    if |p| == 4 && Forwards(p).dst in done && Forwards(p).dst in t then Some(t[Forwards(p).dst])
    else if p in done then None
    else Lookup(t, p)
  }

  ghost predicate ReturnDone(t: Tree, done: seq<Path>, v: Tree) {
    forall p :: Lookup(v, p) == ReturnedAt(t, done, p)
  }

  ghost predicate Returnable(t: Tree, ps: seq<Path>) {
    Distinct(ps) && forall p :: p in ps ==> PlannedBackwards(t, p)
  }

  /** Going back to where it came from and forwards again is the same place. */
  lemma OriginIsHome(p: Path)
    requires |p| == 5 && IsVenueDir(Parent(p))
    ensures Backwards(p) == Move(p, Origin(p)) && Parent(Origin(p)) == p[..3]
    ensures forall q :: |q| == 4 ==> (Forwards(q).dst == p <==> q == Origin(p))
  {
    assert p == p[..3] + [p[3], p[4]] && p[3] == Parent(p)[3];
    forall q: Path | |q| == 4 ensures Forwards(q).dst == p <==> q == Origin(p) {
      assert q == Parent(q) + [q[3]];
      assert Forwards(q).dst[..3] == Parent(q) && Forwards(q).dst[4] == q[3];
    }
  }

  lemma ReturnStep(t: Tree, done: seq<Path>, p: Path, v: Tree)
    requires Returnable(t, done) && PlannedBackwards(t, p) && p !in done && ReturnDone(t, done, v)
    ensures Lookup(v, Origin(p)) == Lookup(t, Origin(p))
    ensures MoveOne(v, Backwards(p)).1 == if Origin(p) in t then DestinationExists else Going
    ensures Origin(p) !in t ==> ReturnDone(t, done + [p], MoveOne(v, Backwards(p)).0)
  {
    var home, d := Origin(p), p[..3];
    OriginIsHome(p);
    assert Lookup(v, d) == ReturnedAt(t, done, d) == Lookup(t, d);
    assert Lookup(v, p) == ReturnedAt(t, done, p) == Lookup(t, p);
    assert Lookup(v, home) == ReturnedAt(t, done, home) == Lookup(t, home);
    assert CanMkdir(v, d) && Mkdir(v, d) == v;
    if home !in t {
      var w := (v - {p})[home := v[p]];
      assert MoveOne(v, Backwards(p)) == (w, Going);
      forall q ensures Lookup(w, q) == ReturnedAt(t, done + [p], q) {
        assert Lookup(v, q) == ReturnedAt(t, done, q);
      }
    }
  }

  lemma ReturnableInit(t: Tree, ps: seq<Path>)
    requires Returnable(t, ps) && ps != []
    ensures Returnable(t, ps[..|ps| - 1]) && PlannedBackwards(t, ps[|ps| - 1]) && ps[|ps| - 1] !in ps[..|ps| - 1]
    ensures MovesOf(ps, true)[..|ps| - 1] == MovesOf(ps[..|ps| - 1], true)
    ensures MovesOf(ps, true)[|ps| - 1] == Backwards(ps[|ps| - 1])
    ensures ps[..|ps| - 1] + [ps[|ps| - 1]] == ps
  {
    assert ps[|ps| - 1] in ps;
  }

  /** Nothing stands where these files go. */
  predicate HomesAreFree(t: Tree, ps: seq<Path>) {
    forall i :: 0 <= i < |ps| && |ps[i]| == 5 ==> Origin(ps[i]) !in t
  }

  lemma {:induction false} ReturnRun(t: Tree, ps: seq<Path>)
    requires Returnable(t, ps)
    ensures var r := Applied(t, MovesOf(ps, true));
            && (r.status == Going <==> HomesAreFree(t, ps))
            && (r.status == Going ==> r.moved == |ps| && ReturnDone(t, ps, r.tree))
  {
    if ps != [] {
      var init, p := ps[..|ps| - 1], ps[|ps| - 1];
      ReturnableInit(t, ps);
      ReturnRun(t, init);
      assert HomesAreFree(t, ps) <==> HomesAreFree(t, init) && Origin(p) !in t by {
        assert forall i :: 0 <= i < |init| ==> init[i] == ps[i];
      }
      if HomesAreFree(t, init) {
        ReturnStep(t, init, p, Applied(t, MovesOf(init, true)).tree);
      }
    }
  }

  /** A run back goes through to the end exactly when no file that goes back has the name of
      something in its source directory, such as a source's own `meta.json`. */
  lemma ReverseCompletes(t: Tree, plan: Plan)
    requires IsPlan(t, true, plan)
    ensures Applied(t, MovesOf(plan.moving, true)).status == Going
       <==> forall p :: p in t && PlannedBackwards(t, p) ==> Origin(p) !in t
  {
    ReturnRun(t, plan.moving);
    if HomesAreFree(t, plan.moving) {
      forall p | p in t && PlannedBackwards(t, p) ensures Origin(p) !in t {
        assert p in plan.moving;
      }
    }
    if forall p :: p in t && PlannedBackwards(t, p) ==> Origin(p) !in t {
      forall i | 0 <= i < |plan.moving| && |plan.moving[i]| == 5 ensures Origin(plan.moving[i]) !in t {
        assert plan.moving[i] in plan.moving;
      }
    }
  }

  const THEIRS := LIVE + [VENUE, "meta.json"]
  const OURS := LIVE + ["meta.json"]

  function TwoMetas(ours: string, theirs: string): Tree {
    LIVE_DIRS[LIVE + [VENUE] := Dir][THEIRS := File(theirs)][OURS := File(ours)]
  }

  lemma TwoMetasAreWellFormed(ours: string, theirs: string)
    ensures WellFormed(TwoMetas(ours, theirs)) && PlannedBackwards(TwoMetas(ours, theirs), THEIRS)
    ensures Origin(THEIRS) == OURS
  {
    LiveDirs();
    assert Parent(THEIRS) == LIVE + [VENUE] && Parent(LIVE + [VENUE]) == LIVE && Parent(OURS) == LIVE;
    assert THEIRS[..3] == LIVE && IsVenueDir(Parent(THEIRS));
    forall p | p in TwoMetas(ours, theirs)
      ensures p != [] && (|p| > 1 ==> Parent(p) in TwoMetas(ours, theirs) && TwoMetas(ours, theirs)[Parent(p)].Dir?)
    {
      if p in LIVE_DIRS { assert |p| > 1 ==> Parent(p) in LIVE_DIRS && LIVE_DIRS[Parent(p)].Dir?; }
    }
  }

  /** A source's own meta file stops the run back at the venue's. */
  lemma SourceMetaStopsTheWayBack(ours: string, theirs: string)
    ensures WellFormed(TwoMetas(ours, theirs)) && PlannedBackwards(TwoMetas(ours, theirs), THEIRS)
    ensures (Applied(TwoMetas(ours, theirs), [Backwards(THEIRS)])
             == Progress(TwoMetas(ours, theirs), 0, DestinationExists))
  {
    var t := TwoMetas(ours, theirs);
    TwoMetasAreWellFormed(ours, theirs);
    OriginIsHome(THEIRS);
    OneMove(t, Backwards(THEIRS));
    StopsAt(t, Backwards(THEIRS));
  }

  lemma StopsAt(t: Tree, m: Move)
    requires m.dst != [] && m.dst in t && (Parent(m.dst) == [] || (Parent(m.dst) in t && t[Parent(m.dst)].Dir?))
    ensures MoveOne(t, m) == (t, DestinationExists)
  {
  }

  // ---- and back --------------------------------------------------------------------------

  /** No source directory has a directory in it yet. */
  predicate NoVenues(t: Tree) {
    forall d :: d in t && IsSourceDir(t, d) ==> !Migrated(t, d)
  }

  /** The tree while files go back: these are home again, and only venue directories are new. */
  function BackAt(t: Tree, u: Tree, done: seq<Path>, p: Path): Option<Node> {
    if |p| == 4 && Forwards(p).dst in done then Lookup(t, p)
    else if p in done then None
    else Lookup(u, p)
  }

  ghost predicate BackDone(t: Tree, u: Tree, done: seq<Path>, v: Tree) {
    forall p :: Lookup(v, p) == BackAt(t, u, done, p)
  }

  lemma {:induction false} AncestorsAreDirs(t: Tree, q: Path, p: Path)
    requires WellFormed(t) && p in t && q != [] && q < p
    ensures q in t && t[q].Dir?
  {
    if |p| > |q| + 1 {
      AncestorsAreDirs(t, q, Parent(p));
    } else {
      assert Parent(p) == q;
    }
  }

  /** Before the first migration nothing is at or below a venue directory's path but files so named. */
  lemma NothingBelowVenue(t: Tree, p: Path)
    requires WellFormed(t) && NoVenues(t) && |p| >= 4 && IsVenueDir(p[..4])
    ensures p in t ==> |p| == 4 && t[p].File?
  {
    var q := p[..4];
    if p in t {
      if |p| > 4 { AncestorsAreDirs(t, q, p); } else { assert q == p; }
      AncestorsAreDirs(t, Parent(q), q);
      assert IsSourceDir(t, Parent(q)) && IsChild(Parent(q), q);
    }
  }

  ghost predicate Returning(t: Tree, plan: Plan, u: Tree, ps: seq<Path>) {
    Completed(t, plan, u) && NoVenues(t) && Distinct(ps) && forall p :: p in ps ==> PlannedBackwards(u, p)
  }

  /** What goes back came from here. */
  lemma BackOrigin(t: Tree, plan: Plan, u: Tree, p: Path)
    requires Completed(t, plan, u) && NoVenues(t) && |p| == 5 && IsVenueDir(Parent(p))
    ensures PlannedBackwards(u, p) <==> Origin(p) in plan.moving
    ensures Origin(p) in plan.moving ==> Lookup(u, p) == Lookup(t, Origin(p)) && Forwards(Origin(p)).dst == p
  {
    CompletedIsDone(t, plan, u);
    var d := p[..3];
    assert Lookup(u, p) == ForwardAt(t, plan.moving, p) && Lookup(u, d) == ForwardAt(t, plan.moving, d) == Lookup(t, d);
    assert p[..4] == Parent(p);
    NothingBelowVenue(t, p);
    assert Parent(Origin(p)) == d && p == d + [VENUE, p[4]];
  }

  lemma HomesAreLeft(t: Tree, plan: Plan, u: Tree, p: Path)
    requires Completed(t, plan, u) && NoVenues(t) && PlannedBackwards(u, p)
    ensures Origin(p) !in u && Origin(p) in t && Lookup(u, p) == Lookup(t, Origin(p))
  {
    CompletedIsDone(t, plan, u);
    BackOrigin(t, plan, u, p);
    assert PlannedForwards(t, Origin(p));
    assert Lookup(u, Origin(p)) == ForwardAt(t, plan.moving, Origin(p));
  }

  lemma BackRun(t: Tree, plan: Plan, u: Tree, ps: seq<Path>)
    requires Returning(t, plan, u, ps)
    ensures var r := Applied(u, MovesOf(ps, true));
            r.status == Going && r.moved == |ps| && BackDone(t, u, ps, r.tree)
  {
    ReturnRun(u, ps);
    forall p | p in ps ensures Origin(p) !in u && Origin(p) in t && Lookup(u, p) == Lookup(t, Origin(p)) {
      HomesAreLeft(t, plan, u, p);
    }
    assert HomesAreFree(u, ps);
    var v := Applied(u, MovesOf(ps, true)).tree;
    forall p ensures Lookup(v, p) == BackAt(t, u, ps, p) {
      assert Lookup(v, p) == ReturnedAt(u, ps, p);
      if |p| == 4 && Forwards(p).dst in ps { OriginIsHome(Forwards(p).dst); }
    }
  }

  /** Forwards and back, with the empty venue directories removed, is the tree there was, from any
      tree that has no venue directories yet. */
  lemma ForwardsAndBack(t: Tree, plan: Plan, u: Tree, back: Plan)
    requires Completed(t, plan, u) && NoVenues(t) && IsPlan(u, true, back)
    ensures var r := Applied(u, MovesOf(back.moving, true));
            r.status == Going && CleanedUp(r.tree) == t
  {
    var ps := back.moving;
    BackRun(t, plan, u, ps);
    var v := Applied(u, MovesOf(ps, true)).tree;
    forall q ensures Lookup(CleanedUp(v), q) == Lookup(t, q) {
      HomeAgain(t, plan, u, back, v, q);
    }
    SameLookups(CleanedUp(v), t);
  }

  lemma HomeAgain(t: Tree, plan: Plan, u: Tree, back: Plan, v: Tree, q: Path)
    requires Completed(t, plan, u) && NoVenues(t) && IsPlan(u, true, back) && BackDone(t, u, back.moving, v)
    ensures Lookup(CleanedUp(v), q) == Lookup(t, q)
  {
    CompletedIsDone(t, plan, u);
    VenuesAreEmpty(t, plan, u, back, v, q);
    assert Lookup(v, q) == BackAt(t, u, back.moving, q) && Lookup(u, q) == ForwardAt(t, plan.moving, q);
    if |q| == 4 {
      assert Origin(Forwards(q).dst) == q && Parent(Forwards(q).dst) == Parent(q) + [VENUE];
      if q in plan.moving { BackOrigin(t, plan, u, Forwards(q).dst); }
    }
    if |q| == 5 && IsVenueDir(Parent(q)) {
      BackOrigin(t, plan, u, q);
      assert q[..4] == Parent(q);
      NothingBelowVenue(t, q);
    }
  }

  /** Going back leaves a directory at a venue's path only where forwards made one, and empty. */
  lemma VenuesAreEmpty(t: Tree, plan: Plan, u: Tree, back: Plan, v: Tree, q: Path)
    requires Completed(t, plan, u) && NoVenues(t) && IsPlan(u, true, back) && BackDone(t, u, back.moving, v)
    ensures IsVenueDir(q) && q in v && v[q].Dir? ==> q !in t && Empty(v, q)
    ensures IsVenueDir(q) && MovedFrom(plan.moving, Parent(q)) ==> q in v && v[q].Dir?
  {
    if IsVenueDir(q) {
      CompletedIsDone(t, plan, u);
      assert q[..4] == q;
      NothingBelowVenue(t, q);
      assert q !in plan.moving;
      assert Parent(Forwards(q).dst) == Parent(q) + [VENUE] && Origin(Forwards(q).dst) == q;
      BackOrigin(t, plan, u, Forwards(q).dst);
      assert Lookup(v, q) == BackAt(t, u, back.moving, q) && Lookup(u, q) == ForwardAt(t, plan.moving, q);
      forall p | p in v && q < p ensures false {
        assert p[..4] == q;
        NothingBelowVenue(t, p);
        assert Lookup(v, p) == BackAt(t, u, back.moving, p) && Lookup(u, p) == ForwardAt(t, plan.moving, p);
        if |p| == 5 { BackOrigin(t, plan, u, p); }
      }
    }
  }
}
