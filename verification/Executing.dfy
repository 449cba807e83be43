/** The process-mode executor: worker slots that outlive their callers, replaceable pools, and
    counted admission.

    A pool is named by the order in which it was made. What the event loop does between two
    awaits is one step; `shutdown` runs on another thread and may come between any two steps. */
module Executing {
  import opened Wrappers

  /** How a hand-over or a job ended: as it should, with `BrokenProcessPool`, or in another way. */
  datatype Outcome = Done | Broken | Other

  // ---- the object's fields, as a value ---------------------------------------------------

  datatype Core = Core(slots: nat, pool: Option<nat>, made: nat, respawns: nat, pending: nat, rejections: nat) {
    function Ensured(): Core {
      if pool.None? then this.(pool := Some(made), made := made + 1) else this
    }

    /** Only the pool asked for is discarded; asking for none means whichever is there. */
    predicate Discards(expected: Option<nat>) {
      pool.Some? && (expected.None? || expected == pool)
    }

    function Discarded(expected: Option<nat>): Core {
      if Discards(expected) then this.(pool := None, respawns := respawns + 1) else this
    }

    /** The callback of a finished job: a broken pool goes first, then the slot comes back. */
    function Released(outcome: Outcome, from: nat): Core {
      var cleaned := if outcome.Broken? then Discarded(Some(from)) else this;
      cleaned.(slots := cleaned.slots + 1)
    }

    function Closed(): Core {
      this.(pool := None)
    }
  }

  class ComputeExecutor {
    const maxWorkers: nat
    const maxPending: nat
    var slots: nat
    var pool: Option<nat>
    var made: nat
    var respawns: nat
    var pending: nat
    var rejections: nat

    function State(): Core reads this {
      Core(slots, pool, made, respawns, pending, rejections)
    }

    constructor (workers: int, pendingCap: int)
      ensures maxWorkers == (if workers < 1 then 1 else workers)
      ensures maxPending == (if pendingCap < 1 then 1 else pendingCap)
      ensures State() == Core(maxWorkers, None, 0, 0, 0, 0)
    {
      maxWorkers := if workers < 1 then 1 else workers;
      maxPending := if pendingCap < 1 then 1 else pendingCap;
      slots := if workers < 1 then 1 else workers;
      pool, made, respawns, pending, rejections := None, 0, 0, 0, 0;
    }

    /** Coming into `admission`. */
    method Enter() returns (admitted: bool)
      modifies `pending, `rejections
      ensures admitted <==> old(pending) < maxPending
      ensures admitted ==> pending == old(pending) + 1 && rejections == old(rejections)
      ensures !admitted ==> pending == old(pending) && rejections == old(rejections) + 1
    {
      if pending >= maxPending {
        rejections := rejections + 1;
        return false;
      }
      pending := pending + 1;
      return true;
    }

    /** Leaving it, however the body ended. */
    method Leave()
      requires pending > 0
      modifies `pending
      ensures pending == old(pending) - 1
    {
      pending := pending - 1;
    }

    method EnsurePool() returns (p: nat)
      modifies `pool, `made
      ensures State() == old(State()).Ensured() && pool == Some(p)
    {
      if pool.None? {
        pool, made := Some(made), made + 1;
      }
      p := pool.value;
    }

    method DiscardPool(expected: Option<nat>) returns (closed: Option<nat>)
      modifies `pool, `respawns
      ensures State() == old(State()).Discarded(expected)
      ensures closed == if old(State()).Discards(expected) then old(pool) else None
    {
      if expected.Some? && pool != expected {
        return None;
      }
      closed, pool := pool, None;
      if closed.Some? {
        respawns := respawns + 1;
      }
    }

    method ReleaseSlot(outcome: Outcome, from: nat) returns (closed: Option<nat>)
      modifies `pool, `respawns, `slots
      ensures State() == old(State()).Released(outcome, from)
      ensures closed.Some? ==> outcome.Broken? && closed == Some(from) == old(pool)
    {
      closed := None;
      if outcome.Broken? {
        closed := DiscardPool(Some(from));
      }
      slots := slots + 1;
    }

    /** The end of `run` up to its await, with the pool in hand: the job is handed to the pool, or
        the pool is found broken, or the hand-over fails in another way. */
    method Submit(handed: Outcome, p: nat) returns (started: bool)
      modifies `pool, `respawns, `slots
      ensures started <==> handed.Done?
      ensures State() == if started then old(State()) else old(State()).Released(handed, p)
    {
      match handed {
        case Done =>
          return true;
        case Broken =>
          slots := slots + 1;
          var _ := DiscardPool(Some(p));
          return false;
        case Other =>
          slots := slots + 1;
          return false;
      }
    }

    method Shutdown() returns (closed: Option<nat>)
      modifies `pool
      ensures State() == old(State()).Closed() && closed == old(pool)
    {
      closed, pool := pool, None;
    }
  }

  // ---- the executor among its callers, jobs and dying workers ----------------------------

  datatype Cause = Breakage | Shutdown

  datatype Retirement = Retirement(pool: nat, cause: Cause)

  /** A submitted job: where it runs, and how it ended once it has. Its slot is still out. */
  datatype Job = Job(pool: nat, ended: Option<Outcome>)

  /** The one caller inside `run` between its first await and its second. */
  datatype Submitting = Submitting(ticket: nat, pool: Option<nat>)

  /** A ticket is one acquisition of a slot. `broken` are the pools that have lost a worker. */
  datatype World = World(
    core: Core,
    inside: set<nat>,
    tickets: nat,
    submitting: Option<Submitting>,
    jobs: map<nat, Job>,
    returned: seq<nat>,
    broken: set<nat>,
    retired: seq<Retirement>
  )

  datatype Step =
    | EnterStep(caller: nat)
    | LeaveStep(caller: nat)
    | AcquireStep
    | EnsureStep
    | EnsureFailsStep
    | SubmitStep(handed: Outcome)
    | BreakStep(pool: nat)
    | EndStep(job: nat, outcome: Outcome)
    | CallbackStep(job: nat)
    | ShutdownStep

  function Retire(retired: seq<Retirement>, before: Core, after: Core, cause: Cause): seq<Retirement> {
    if before.pool.Some? && after.pool.None? then retired + [Retirement(before.pool.value, cause)] else retired
  }

  predicate Next(cap: nat, w: World, step: Step, w': World) {
    match step
    case EnterStep(c) =>
      && c !in w.inside
      && w' == (if w.core.pending < cap
                then w.(core := w.core.(pending := w.core.pending + 1), inside := w.inside + {c})
                else w.(core := w.core.(rejections := w.core.rejections + 1)))
    case LeaveStep(c) =>
      && c in w.inside && w.core.pending > 0
      && w' == w.(core := w.core.(pending := w.core.pending - 1), inside := w.inside - {c})
    case AcquireStep =>
      && w.submitting.None? && w.core.slots > 0
      && w' == w.(core := w.core.(slots := w.core.slots - 1), tickets := w.tickets + 1,
                  submitting := Some(Submitting(w.tickets, None)))
    case EnsureStep =>
      && w.submitting.Some? && w.submitting.value.pool.None?
      && w' == w.(core := w.core.Ensured(),
                  submitting := Some(w.submitting.value.(pool := w.core.Ensured().pool)))
    case EnsureFailsStep =>
      && w.submitting.Some? && w.submitting.value.pool.None?
      && w' == w.(core := w.core.(slots := w.core.slots + 1), submitting := None,
                  returned := w.returned + [w.submitting.value.ticket])
    case SubmitStep(handed) =>
      && w.submitting.Some? && w.submitting.value.pool.Some?
      && var Submitting(ticket, pool) := w.submitting.value;
      && (handed.Broken? ==> pool.value in w.broken)
      && w' == (if handed.Done? then
                  w.(submitting := None, jobs := w.jobs[ticket := Job(pool.value, None)])
                else
                  var core := w.core.Released(handed, pool.value);
                  w.(core := core, submitting := None, returned := w.returned + [ticket],
                     retired := Retire(w.retired, w.core, core, Breakage)))
    case BreakStep(p) =>
      && p < w.core.made
      && w' == w.(broken := w.broken + {p})
    case EndStep(t, outcome) =>
      && t in w.jobs && w.jobs[t].ended.None?
      && (outcome.Broken? ==> w.jobs[t].pool in w.broken)
      && w' == w.(jobs := w.jobs[t := w.jobs[t].(ended := Some(outcome))])
    case CallbackStep(t) =>
      && w.submitting.None? && t in w.jobs && w.jobs[t].ended.Some?
      && var core := w.core.Released(w.jobs[t].ended.value, w.jobs[t].pool);
      && w' == w.(core := core, jobs := w.jobs - {t}, returned := w.returned + [t],
                  retired := Retire(w.retired, w.core, core, Breakage))
    case ShutdownStep =>
      w' == w.(core := w.core.Closed(), retired := Retire(w.retired, w.core, w.core.Closed(), Cause.Shutdown))
  }

  ghost predicate Start(max: nat, w: World) {
    w == World(Core(max, None, 0, 0, 0, 0), {}, 0, None, map[], [], {}, [])
  }

  // ---- what every step keeps -------------------------------------------------------------

  function Busy(w: World): nat {
    if w.submitting.Some? then 1 else 0
  }

  /** Who has a ticket's slot: the caller inside `run`, a job, or nobody any more. */
  predicate Outstanding(w: World, t: nat) {
    (w.submitting.Some? && w.submitting.value.ticket == t) || t in w.jobs
  }

  predicate CountInv(max: nat, w: World) {
    && w.core.slots + |w.jobs| + Busy(w) == max
    && (w.submitting.Some? ==> w.submitting.value.ticket !in w.jobs)
  }

  /** Every ticket's slot is either out or has come back, and comes back once. */
  ghost predicate TicketsInv(w: World) {
    && (forall t: nat :: t < w.tickets <==> (Outstanding(w, t) || t in w.returned))
    && (forall t: nat :: Outstanding(w, t) ==> t !in w.returned)
    && (forall i, j :: 0 <= i < j < |w.returned| ==> w.returned[i] != w.returned[j])
  }

  predicate AdmissionInv(cap: nat, w: World) {
    w.core.pending == |w.inside| <= cap
  }

  ghost predicate Gone(w: World, p: nat) {
    exists i :: 0 <= i < |w.retired| && w.retired[i].pool == p
  }

  ghost predicate PoolsInv(w: World) {
    && (forall p: nat :: p < w.core.made <==> (w.core.pool == Some(p) || Gone(w, p)))
    && (forall p: nat :: Gone(w, p) ==> w.core.pool != Some(p))
    && (forall i, j :: 0 <= i < j < |w.retired| ==> w.retired[i].pool != w.retired[j].pool)
    && (forall i :: 0 <= i < |w.retired| && w.retired[i].cause.Breakage? ==> w.retired[i].pool in w.broken)
    && w.core.respawns == Breakages(w.retired)
  }

  /** The pool in the submitting caller's hand is the current one, unless a shutdown came between. */
  ghost predicate HandInv(w: World) {
    w.submitting.Some? && w.submitting.value.pool.Some? && w.core.pool != w.submitting.value.pool ==>
      exists i :: 0 <= i < |w.retired| && w.retired[i] == Retirement(w.submitting.value.pool.value, Cause.Shutdown)
  }

  /** Jobs run in pools that were made, and end broken only in a pool that broke. */
  predicate JobsInv(w: World) {
    && (w.submitting.Some? && w.submitting.value.pool.Some? ==> w.submitting.value.pool.value < w.core.made)
    && forall t :: t in w.jobs ==>
         w.jobs[t].pool < w.core.made && (w.jobs[t].ended == Some(Broken) ==> w.jobs[t].pool in w.broken)
  }

  function Breakages(retired: seq<Retirement>): nat {
    if retired == [] then 0
    else Breakages(retired[..|retired| - 1]) + (if retired[|retired| - 1].cause.Breakage? then 1 else 0)
  }

  ghost predicate Inv(max: nat, cap: nat, w: World) {
    CountInv(max, w) && TicketsInv(w) && AdmissionInv(cap, w) && PoolsInv(w) && HandInv(w) && JobsInv(w)
  }

  lemma StartKeepsInv(max: nat, cap: nat, w: World)
    requires Start(max, w)
    ensures Inv(max, cap, w)
  {
  }

  lemma CountKept(max: nat, cap: nat, w: World, step: Step, w': World)
    requires CountInv(max, w) && TicketsInv(w) && Next(cap, w, step, w')
    ensures CountInv(max, w')
  {
    match step
    case AcquireStep =>
      assert !Outstanding(w, w.tickets);
    case SubmitStep(handed) =>
      if handed.Done? {
        JobAdded(w.jobs, w.submitting.value.ticket, Job(w.submitting.value.pool.value, None));
      }
    case EndStep(t, outcome) =>
      assert w'.jobs.Keys == w.jobs.Keys;
    case CallbackStep(t) =>
      JobRemoved(w.jobs, t);
    case _ =>
  }

  lemma TicketsKept(max: nat, cap: nat, w: World, step: Step, w': World)
    requires CountInv(max, w) && TicketsInv(w) && Next(cap, w, step, w')
    ensures TicketsInv(w')
  {
    match step
    case AcquireStep =>
      forall t: nat ensures Outstanding(w', t) <==> Outstanding(w, t) || t == w.tickets {}
      assert !(Outstanding(w, w.tickets) || w.tickets in w.returned);
    case EnsureFailsStep =>
      TicketReturned(w, w.submitting.value.ticket, w');
    case SubmitStep(handed) =>
      if handed.Done? {
        forall t: nat ensures Outstanding(w', t) <==> Outstanding(w, t) {}
      } else {
        TicketReturned(w, w.submitting.value.ticket, w');
      }
    case CallbackStep(t) =>
      TicketReturned(w, t, w');
    case _ =>
      forall t: nat ensures Outstanding(w', t) <==> Outstanding(w, t) {}
  }

  lemma TicketReturned(w: World, ticket: nat, w': World)
    requires TicketsInv(w) && Outstanding(w, ticket)
    requires w'.tickets == w.tickets && w'.returned == w.returned + [ticket]
    requires forall t: nat :: Outstanding(w', t) <==> Outstanding(w, t) && t != ticket
    ensures TicketsInv(w')
  {
  }

  lemma JobAdded(jobs: map<nat, Job>, t: nat, job: Job)
    requires t !in jobs
    ensures |jobs[t := job]| == |jobs| + 1
  {
    assert jobs[t := job].Keys == jobs.Keys + {t};
  }

  lemma JobRemoved(jobs: map<nat, Job>, t: nat)
    requires t in jobs
    ensures |jobs - {t}| == |jobs| - 1
  {
    assert (jobs - {t}).Keys == jobs.Keys - {t};
  }

  // ---- pools -----------------------------------------------------------------------------

  /** Nothing happens to the current pool, or it is retired as the step's cause says. */
  ghost predicate PoolStep(w: World, w': World, cause: Cause) {
    && w'.core.made == w.core.made
    && w.broken <= w'.broken
    && if w'.core.pool == w.core.pool then w'.retired == w.retired && w'.core.respawns == w.core.respawns
       else
         && w.core.pool.Some? && w'.core.pool.None?
         && w'.retired == w.retired + [Retirement(w.core.pool.value, cause)]
         && w'.core.respawns == w.core.respawns + (if cause.Breakage? then 1 else 0)
         && (cause.Breakage? ==> w.core.pool.value in w'.broken)
  }

  lemma PoolStepKeepsInv(w: World, w': World, cause: Cause)
    requires PoolsInv(w) && PoolStep(w, w', cause)
    ensures PoolsInv(w')
    ensures forall p: nat :: Gone(w', p) <==> Gone(w, p) || (w'.core.pool != w.core.pool && Some(p) == w.core.pool)
  {
    if w'.core.pool != w.core.pool {
      var p := w.core.pool.value;
      assert w'.retired[..|w.retired|] == w.retired;
      assert w'.retired[|w.retired|].pool == p;
      forall q: nat ensures Gone(w', q) <==> Gone(w, q) || q == p {
        if Gone(w, q) {
          var i :| 0 <= i < |w.retired| && w.retired[i].pool == q;
          assert w'.retired[i].pool == q;
        }
      }
      forall i | 0 <= i < |w.retired| ensures w.retired[i].pool != p {
        if w.retired[i].pool == p { assert Gone(w, p); }
      }
    }
  }

  lemma PoolMade(w: World, w': World)
    requires PoolsInv(w) && w.core.pool.None?
    requires w'.core == w.core.Ensured() && w'.retired == w.retired && w'.broken == w.broken
    ensures PoolsInv(w')
  {
    assert !Gone(w, w.core.made);
    forall p: nat ensures Gone(w', p) <==> Gone(w, p) {}
  }

  lemma IsPoolStep(cap: nat, w: World, step: Step, w': World)
    requires JobsInv(w) && Next(cap, w, step, w') && !(step.EnsureStep? && w.core.pool.None?)
    ensures PoolStep(w, w', if step.ShutdownStep? then Cause.Shutdown else Breakage)
  {
  }

  lemma PoolsKept(cap: nat, w: World, step: Step, w': World)
    requires PoolsInv(w) && JobsInv(w) && Next(cap, w, step, w')
    ensures PoolsInv(w')
  {
    if step.EnsureStep? && w.core.pool.None? {
      PoolMade(w, w');
    } else {
      IsPoolStep(cap, w, step, w');
      PoolStepKeepsInv(w, w', if step.ShutdownStep? then Cause.Shutdown else Breakage);
    }
  }

  lemma CurrentPoolWasMade(w: World)
    requires PoolsInv(w)
    ensures w.core.pool.Some? ==> w.core.pool.value < w.core.made
  {
  }

  lemma JobsKept(cap: nat, w: World, step: Step, w': World)
    requires PoolsInv(w) && JobsInv(w) && Next(cap, w, step, w')
    ensures JobsInv(w')
  {
    CurrentPoolWasMade(w);
    assert w'.core.made >= w.core.made && w.broken <= w'.broken;
    forall t | t in w'.jobs
      ensures w'.jobs[t].pool < w'.core.made && (w'.jobs[t].ended == Some(Broken) ==> w'.jobs[t].pool in w'.broken)
    {
      if t in w.jobs { assert w.jobs[t].pool < w.core.made; }
    }
  }

  lemma HandKept(cap: nat, w: World, step: Step, w': World)
    requires HandInv(w) && Next(cap, w, step, w')
    ensures HandInv(w')
  {
    if w'.submitting.Some? && w'.submitting.value.pool.Some? && w'.core.pool != w'.submitting.value.pool {
      var gone := Retirement(w'.submitting.value.pool.value, Cause.Shutdown);
      if w.core.pool == w.submitting.value.pool {
        assert step.ShutdownStep? && w'.retired[|w.retired|] == gone;
      } else {
        var i :| 0 <= i < |w.retired| && w.retired[i] == gone;
        assert w'.retired[i] == gone;
      }
    }
  }

  // ---- whole runs ------------------------------------------------------------------------

  lemma StepKeepsInv(max: nat, cap: nat, w: World, step: Step, w': World)
    requires Inv(max, cap, w) && Next(cap, w, step, w')
    ensures Inv(max, cap, w')
  {
    CountKept(max, cap, w, step, w');
    TicketsKept(max, cap, w, step, w');
    PoolsKept(cap, w, step, w');
    JobsKept(cap, w, step, w');
    HandKept(cap, w, step, w');
  }

  ghost predicate IsRun(max: nat, cap: nat, run: seq<World>, steps: seq<Step>) {
    && |run| == |steps| + 1 && Start(max, run[0])
    && forall i :: 0 <= i < |steps| ==> Next(cap, run[i], steps[i], run[i + 1])
  }

  lemma {:induction false} RunKeepsInv(max: nat, cap: nat, run: seq<World>, steps: seq<Step>, n: nat)
    requires IsRun(max, cap, run, steps) && n < |run|
    ensures Inv(max, cap, run[n])
  {
    if n == 0 {
      StartKeepsInv(max, cap, run[0]);
    } else {
      RunKeepsInv(max, cap, run, steps, n - 1);
      assert Next(cap, run[n - 1], steps[n - 1], run[n]);
      StepKeepsInv(max, cap, run[n - 1], steps[n - 1], run[n]);
    }
  }

  /** In every reachable state the free slots, the submitted jobs whose callback has not run and
      the caller in between add up to the workers, so jobs never exceed them, callers or none;
      every acquisition is outstanding or has come back exactly once; and once nothing is
      outstanding all slots are free again. */
  lemma SlotsAreConserved(max: nat, cap: nat, run: seq<World>, steps: seq<Step>, n: nat)
    requires IsRun(max, cap, run, steps) && n < |run|
    ensures run[n].core.slots + |run[n].jobs| + Busy(run[n]) == max
    ensures |run[n].jobs| <= max
    ensures forall t: nat :: t < run[n].tickets <==> (Outstanding(run[n], t) || t in run[n].returned)
    ensures forall t: nat :: Outstanding(run[n], t) ==> t !in run[n].returned
    ensures forall i, j :: 0 <= i < j < |run[n].returned| ==> run[n].returned[i] != run[n].returned[j]
    ensures (forall t: nat :: !Outstanding(run[n], t)) ==> run[n].core.slots == max
  {
    RunKeepsInv(max, cap, run, steps, n);
    var w := run[n];
    if forall t: nat :: !Outstanding(w, t) {
      if w.submitting.Some? { assert Outstanding(w, w.submitting.value.ticket); }
      assert w.jobs.Keys == {} by {
        forall t | t in w.jobs ensures false { assert Outstanding(w, t); }
      }
    }
  }

  lemma AdmissionIsCounted(max: nat, cap: nat, run: seq<World>, steps: seq<Step>, n: nat)
    requires IsRun(max, cap, run, steps) && n < |run|
    ensures run[n].core.pending == |run[n].inside| <= cap
  {
    RunKeepsInv(max, cap, run, steps, n);
  }

  /** No pool is retired twice, the current one has never been retired, every pool ever made is
      the current one or retired, and `respawns` counts those retired because they broke. */
  lemma PoolsRetireOnce(max: nat, cap: nat, run: seq<World>, steps: seq<Step>, n: nat)
    requires IsRun(max, cap, run, steps) && n < |run|
    ensures forall i, j :: 0 <= i < j < |run[n].retired| ==> run[n].retired[i].pool != run[n].retired[j].pool
    ensures forall p: nat :: p < run[n].core.made <==> (run[n].core.pool == Some(p) || Gone(run[n], p))
    ensures forall p: nat :: Gone(run[n], p) ==> run[n].core.pool != Some(p)
    ensures run[n].core.respawns == Breakages(run[n].retired)
    ensures forall i :: 0 <= i < |run[n].retired| && run[n].retired[i].cause.Breakage? ==>
              run[n].retired[i].pool in run[n].broken
  {
    RunKeepsInv(max, cap, run, steps, n);
  }

  // ---- what single steps do in a reachable state ------------------------------------------

  /** A job's callback retires no pool but the job's own, and that only when the job found it
      broken and it is still the current one. A late callback, whose pool a shutdown or an earlier
      callback has retired, retires nothing. */
  lemma CallbackRetiresOnlyItsOwn(max: nat, cap: nat, w: World, job: nat, w': World)
    requires Inv(max, cap, w) && Next(cap, w, CallbackStep(job), w')
    ensures w'.core.pool != w.core.pool <==> w.jobs[job].ended == Some(Broken) && w.core.pool == Some(w.jobs[job].pool)
    ensures w'.core.pool != w.core.pool ==>
              w'.retired == w.retired + [Retirement(w.jobs[job].pool, Breakage)]
    ensures Gone(w, w.jobs[job].pool) ==>
              w'.core.pool == w.core.pool && w'.retired == w.retired && w'.core.respawns == w.core.respawns
  {
  }

  /** Whoever takes the slot that a broken job's callback frees is given another pool, however
      many steps of other callers lie in between. */
  lemma WokenCallerGetsALivePool(max: nat, cap: nat, run: seq<World>, steps: seq<Step>, released: nat, n: nat)
    requires IsRun(max, cap, run, steps) && released <= n < |steps|
    requires steps[released].CallbackStep? && steps[n].EnsureStep?
    requires Next(cap, run[released], steps[released], run[released + 1])
    requires run[released].jobs[steps[released].job].ended == Some(Broken)
    ensures run[n + 1].submitting.value.pool != Some(run[released].jobs[steps[released].job].pool)
  {
    var p := run[released].jobs[steps[released].job].pool;
    RunKeepsInv(max, cap, run, steps, released);
    RunKeepsInv(max, cap, run, steps, released + 1);
    assert Gone(run[released + 1], p);
    GoneStaysGone(max, cap, run, steps, released + 1, n + 1, p);
    RunKeepsInv(max, cap, run, steps, n + 1);
    assert Next(cap, run[n], steps[n], run[n + 1]);
  }

  lemma {:induction false} GoneStaysGone(max: nat, cap: nat, run: seq<World>, steps: seq<Step>, m: nat, n: nat, p: nat)
    requires IsRun(max, cap, run, steps) && m <= n < |run| && Gone(run[m], p)
    ensures Gone(run[n], p)
  {
    if m < n {
      GoneStaysGone(max, cap, run, steps, m, n - 1, p);
      assert Next(cap, run[n - 1], steps[n - 1], run[n]);
      var i :| 0 <= i < |run[n - 1].retired| && run[n - 1].retired[i].pool == p;
      assert run[n].retired[i].pool == p;
    }
  }

  /** A caller hands its job to the current pool, or to one that a shutdown has just closed: never
      to one retired because it broke. */
  lemma NothingIsHandedToARetiredBrokenPool(max: nat, cap: nat, w: World, handed: Outcome, w': World, i: nat)
    requires Inv(max, cap, w) && Next(cap, w, SubmitStep(handed), w')
    requires i < |w.retired| && w.retired[i].pool == w.submitting.value.pool.value
    ensures w.retired[i].cause == Cause.Shutdown
    ensures w'.retired == w.retired && w'.core.pool == w.core.pool
  {
    var p := w.submitting.value.pool.value;
    assert Gone(w, p);
    var j :| 0 <= j < |w.retired| && w.retired[j] == Retirement(p, Cause.Shutdown);
    if i < j { assert false; }
    if j < i { assert false; }
  }
}
