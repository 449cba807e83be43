/** Taking over the capture queue: instances that contend for one exclusive lock, each trying again
    until it runs or stops. An attempt is two steps, before and after its one await. */
module QueueRuntime {
  import opened Wrappers

  datatype Phase = Disabled | Acquiring | Contended | Restoring | Starting | Running | Failed | Stopping

  datatype Trouble = NoTrouble | HeldByOther | Raised(phase: Phase)

  datatype Instance = Instance(disabled: bool, phase: Phase, epoch: nat, attempts: nat, trouble: Trouble)

  function Fresh(disabled: bool): Instance {
    Instance(disabled, if disabled then Disabled else Acquiring, 0, 0, NoTrouble)
  }

  /** An instance and the holder of the lock: all that an attempt touches. */
  datatype View = View(inst: Instance, holder: Option<nat>)

  predicate Ready(v: View, id: nat) {
    v.inst.phase == Running && v.holder == Some(id)
  }

  /** How taking the lock goes: an instance that has it keeps it; it may also raise. */
  datatype Attempt = Skipped | Ended | Waiting

  function Begun(v: View, id: nat, raises: bool): (View, Attempt) {
    if v.inst.disabled || Ready(v, id) || v.inst.phase == Stopping then (v, Skipped)
    else
      var tried := v.inst.(attempts := v.inst.attempts + 1);
      if v.holder == Some(id) then (v.(inst := tried.(phase := Restoring)), Waiting)
      else if raises then (v.(inst := tried.(phase := Failed, trouble := Raised(Acquiring))), Ended)
      else if v.holder.Some? then (v.(inst := tried.(phase := Contended, trouble := HeldByOther)), Ended)
      else (View(tried.(phase := Restoring), Some(id)), Waiting)
  }

  datatype Outcome = LoadFails | CancelledWaiting | ActivateFails | Activated

  /** The rest of an attempt that got the lock. */
  function Finished(v: View, id: nat, outcome: Outcome): View {
    var inst := match outcome
      case LoadFails => v.inst.(phase := Failed, trouble := Raised(v.inst.phase))
      case CancelledWaiting => v.inst
      case ActivateFails => v.inst.(phase := Failed, trouble := Raised(Starting))
      case Activated => v.inst.(phase := Running, epoch := v.inst.epoch + 1, trouble := NoTrouble);
    View(inst, if inst.phase != Running && v.holder == Some(id) then None else v.holder)
  }

  // ---- the objects -----------------------------------------------------------------------

  class QueueLock {
    var holder: Option<nat>

    constructor ()
      ensures holder == None
    {
      holder := None;
    }

    method Acquire(id: nat, raises: bool) returns (r: Option<bool>)
      modifies this
      ensures r == if old(holder) == Some(id) then Some(true) else if raises then None else Some(old(holder).None?)
      ensures holder == if r == Some(true) then Some(id) else old(holder)
    {
      if holder == Some(id) {
        return Some(true);
      }
      if raises {
        return None;
      }
      if holder.Some? {
        return Some(false);
      }
      holder := Some(id);
      return Some(true);
    }

    method Release(id: nat)
      modifies this
      ensures holder == if old(holder) == Some(id) then None else old(holder)
    {
      if holder == Some(id) {
        holder := None;
      }
    }
  }

  class CaptureQueueRuntime {
    const id: nat
    const disabled: bool
    const lock: QueueLock
    var phase: Phase
    var epoch: nat
    var attempts: nat
    var trouble: Trouble

    function State(): View reads this, lock {
      View(Instance(disabled, phase, epoch, attempts, trouble), lock.holder)
    }

    constructor (id: nat, disabled: bool, lock: QueueLock)
      ensures this.id == id && this.lock == lock && State() == View(Fresh(disabled), lock.holder)
    {
      this.id, this.disabled, this.lock := id, disabled, lock;
      phase := if disabled then Disabled else Acquiring;
      epoch, attempts, trouble := 0, 0, NoTrouble;
    }

    method BeginAttempt(raises: bool) returns (r: Attempt)
      modifies this, lock
      ensures (State(), r) == Begun(old(State()), id, raises)
    {
      if disabled || (phase == Running && lock.holder == Some(id)) || phase == Stopping {
        return Skipped;
      }
      attempts := attempts + 1;
      phase := Acquiring;
      var acquired := lock.Acquire(id, raises);
      if acquired.None? {
        phase, trouble := Failed, Raised(phase);
        return Ended;
      }
      if !acquired.value {
        phase, trouble := Contended, HeldByOther;
        return Ended;
      }
      phase := Restoring;
      return Waiting;
    }

    method FinishAttempt(outcome: Outcome)
      modifies this, lock
      ensures State() == Finished(old(State()), id, outcome)
    {
      match outcome {
        case LoadFails =>
          phase, trouble := Failed, Raised(phase);
        case CancelledWaiting =>
        case ActivateFails =>
          phase := Starting;
          phase, trouble := Failed, Raised(phase);
        case Activated =>
          phase := Starting;
          epoch := epoch + 1;
          phase, trouble := Running, NoTrouble;
      }
      if phase != Running {
        lock.Release(id);
      }
    }

    /** `begin_capture_shutdown`, at any time, and the end of `run`. */
    method Stop()
      modifies this
      ensures State() == old(State()).(inst := old(State()).inst.(phase := Stopping))
    {
      phase := Stopping;
    }
  }

  // ---- several instances -----------------------------------------------------------------

  /** An instance, its attempts at the await, and whether its `run` has ended. */
  datatype Actor = Actor(inst: Instance, waiting: nat, ended: bool)

  /** One activation: whose, and whether the lock was its own at that moment. */
  datatype Activation = Activation(id: nat, held: bool)

  datatype World = World(actors: map<nat, Actor>, holder: Option<nat>, activations: seq<Activation>)

  datatype Step =
    | Begin(id: nat, raises: bool)
    | Finish(id: nat, outcome: Outcome)
    | BeginShutdown(id: nat)
    | End(id: nat)
    | Release(id: nat)

  ghost predicate Start(w: World) {
    && w.holder == None && w.activations == []
    && forall i :: i in w.actors ==> w.actors[i] == Actor(Fresh(w.actors[i].inst.disabled), 0, false)
  }

  function ViewOf(w: World, id: nat): View
    requires id in w.actors
  {
    View(w.actors[id].inst, w.holder)
  }

  function Updated(w: World, id: nat, v: View, waiting: nat): World
    requires id in w.actors
  {
    w.(actors := w.actors[id := w.actors[id].(inst := v.inst, waiting := waiting)], holder := v.holder)
  }

  predicate Next(w: World, step: Step, w': World) {
    && step.id in w.actors
    && var a := w.actors[step.id];
    && match step
       case Begin(id, raises) =>
         && !a.ended
         && var (v, r) := Begun(ViewOf(w, id), id, raises);
         && w' == Updated(w, id, v, if r == Waiting then a.waiting + 1 else a.waiting)
       case Finish(id, outcome) =>
         && a.waiting > 0
         && var next := Updated(w, id, Finished(ViewOf(w, id), id, outcome), a.waiting - 1);
         && var active := Activation(id, w.holder == Some(id));
         && w' == (if outcome == Activated then next.(activations := w.activations + [active])
                   else next)
       case BeginShutdown(id) =>
         w' == w.(actors := w.actors[id := a.(inst := a.inst.(phase := Stopping))])
       case End(id) =>
         // cancelled while sleeping, or once its attempt has unwound
         && a.waiting == 0
         && w' == w.(actors := w.actors[id := a.(inst := a.inst.(phase := Stopping), ended := true)])
       case Release(id) =>
         // the lifespan, after the workers have stopped
         && a.ended
         && w' == w.(holder := if w.holder == Some(id) then None else w.holder)
  }

  /** The program calls `attempt` only from one task, so never while one of the instance waits. */
  predicate Serial(w: World, step: Step) {
    step.Begin? && step.id in w.actors ==> w.actors[step.id].waiting == 0
  }

  function ActivationsOf(activations: seq<Activation>, id: nat): nat {
    if activations == [] then 0
    else
      ActivationsOf(activations[..|activations| - 1], id)
      + (if activations[|activations| - 1].id == id then 1 else 0)
  }

  predicate ActorInv(w: World, id: nat)
    requires id in w.actors
  {
    var a := w.actors[id];
    && a.waiting <= 1
    && (a.waiting == 1 ==> w.holder == Some(id))
    && (a.inst.phase == Running ==> w.holder == Some(id))
    && (w.holder == Some(id) ==> a.waiting == 1 || a.inst.phase in {Running, Stopping})
    && (a.inst.disabled ==> a.waiting == 0 && w.holder != Some(id) && a.inst.phase in {Disabled, Stopping})
    && (a.ended ==> a.waiting == 0 && a.inst.phase == Stopping)
    && a.inst.epoch == ActivationsOf(w.activations, id)
  }

  predicate Inv(w: World) {
    && (forall id :: id in w.actors ==> ActorInv(w, id))
    && (w.holder.Some? ==> w.holder.value in w.actors)
    && forall k :: 0 <= k < |w.activations| ==> w.activations[k].held
  }

  lemma StepKeepsInv(w: World, step: Step, w': World)
    requires Inv(w) && Next(w, step, w') && Serial(w, step)
    ensures Inv(w')
  {
    assert ActorInv(w, step.id);
    if step.Finish? && step.outcome == Activated {
      assert w'.activations[..|w.activations|] == w.activations;
    }
    forall id | id in w'.actors ensures ActorInv(w', id) {
      assert ActorInv(w, id);
    }
  }

  /** A stretch of a run: any states one serial step apart. */
  ghost predicate IsStretch(run: seq<World>, steps: seq<Step>) {
    && |run| == |steps| + 1
    && forall i :: 0 <= i < |steps| ==> Next(run[i], steps[i], run[i + 1]) && Serial(run[i], steps[i])
  }

  ghost predicate IsRun(run: seq<World>, steps: seq<Step>) {
    IsStretch(run, steps) && Start(run[0])
  }

  lemma {:induction false} RunKeepsInv(run: seq<World>, steps: seq<Step>, n: nat)
    requires IsRun(run, steps) && n < |run|
    ensures Inv(run[n])
  {
    if n > 0 {
      RunKeepsInv(run, steps, n - 1);
      assert Next(run[n - 1], steps[n - 1], run[n]);
      StepKeepsInv(run[n - 1], steps[n - 1], run[n]);
    }
  }

  predicate IsRunning(w: World, id: nat) {
    id in w.actors && w.actors[id].inst.phase == Running
  }

  /** Over any serial schedule of failures and cancellations: at most one instance runs, and the one
      that does is ready; only an instance that waits, runs or is stopping holds the lock; queues
      were activated only by the holder of the lock; and each epoch counts the instance's
      activations. */
  lemma OneOwner(run: seq<World>, steps: seq<Step>, n: nat)
    requires IsRun(run, steps) && n < |run|
    ensures forall i, j :: IsRunning(run[n], i) && IsRunning(run[n], j) ==> i == j
    ensures forall i :: IsRunning(run[n], i) ==> Ready(ViewOf(run[n], i), i)
    ensures run[n].holder.Some? ==>
              && run[n].holder.value in run[n].actors
              && var a := run[n].actors[run[n].holder.value];
              a.waiting == 1 || a.inst.phase in {Running, Stopping}
    ensures forall k :: 0 <= k < |run[n].activations| ==> run[n].activations[k].held
    ensures forall i :: i in run[n].actors ==> run[n].actors[i].inst.epoch == ActivationsOf(run[n].activations, i)
    ensures forall i :: i in run[n].actors && run[n].actors[i].inst.disabled ==>
              run[n].holder != Some(i) && run[n].actors[i].inst.epoch == 0
  {
    RunKeepsInv(run, steps, n);
    forall i | i in run[n].actors ensures ActorInv(run[n], i) {}
    DisabledNeverActivates(run, steps, n);
  }

  lemma {:induction false} DisabledNeverActivates(run: seq<World>, steps: seq<Step>, n: nat)
    requires IsRun(run, steps) && n < |run|
    ensures forall i :: i in run[n].actors && run[n].actors[i].inst.disabled ==> run[n].actors[i].inst.epoch == 0
  {
    if n > 0 {
      DisabledNeverActivates(run, steps, n - 1);
      RunKeepsInv(run, steps, n - 1);
      assert Next(run[n - 1], steps[n - 1], run[n]);
      assert ActorInv(run[n - 1], steps[n - 1].id);
    }
  }

  /** At every moment of a run, an instance with no attempt waiting that neither runs nor is
      stopping has given the lock back; and no attempt ends with the lock unless it ends running. */
  lemma UnfinishedAttemptsRelease(run: seq<World>, steps: seq<Step>, n: nat, id: nat)
    requires IsRun(run, steps) && n < |run| && id in run[n].actors
    requires var a := run[n].actors[id];
             || (a.waiting == 0 && a.inst.phase !in {Running, Stopping})
             || (n > 0 && steps[n - 1].Finish? && steps[n - 1].id == id && a.inst.phase != Running)
    ensures run[n].holder != Some(id)
  {
    RunKeepsInv(run, steps, n);
    assert ActorInv(run[n], id);
    if n > 0 {
      assert Next(run[n - 1], steps[n - 1], run[n]);
    }
  }

  /** Nothing is stuck: while no attempt waits and nothing runs or is stopping, the lock is free, and
      the next instance to try takes it and, if all goes well, runs. */
  lemma NextAttemptSucceeds(w: World, id: nat, w1: World, w2: World)
    requires Inv(w) && id in w.actors && !w.actors[id].inst.disabled && !w.actors[id].ended
    requires forall i :: i in w.actors ==> w.actors[i].waiting == 0 && w.actors[i].inst.phase !in {Running, Stopping}
    requires Next(w, Begin(id, false), w1) && Next(w1, Finish(id, Activated), w2)
    ensures w.holder == None && Ready(ViewOf(w2, id), id)
  {
    assert ActorInv(w, id);
    forall i | i in w.actors ensures w.holder != Some(i) {
      assert ActorInv(w, i);
    }
  }

  /** A shutdown that begins while an attempt waits does not stop it: the attempt still activates
      and runs, with the lock. */
  lemma ShutdownDoesNotStopAWaitingAttempt(w: World, id: nat, w1: World, w2: World)
    requires Inv(w) && id in w.actors && w.actors[id].waiting == 1
    requires Next(w, BeginShutdown(id), w1) && Next(w1, Finish(id, Activated), w2)
    ensures w1.actors[id].inst.phase == Stopping && Ready(ViewOf(w2, id), id)
  {
    assert ActorInv(w, id);
  }

  // ---- when a shutdown is final ------------------------------------------------------------

  predicate IsStopping(w: World, id: nat) {
    id in w.actors && w.actors[id].inst.phase == Stopping
  }

  ghost predicate LeadsTo(w: World, run: seq<World>, steps: seq<Step>, end: World) {
    IsStretch(run, steps) && run[0] == w && run[|steps|] == end
  }

  /** Whatever happens from here on, the instance stays in its shutdown and activates nothing. */
  ghost predicate Final(w: World, id: nat) {
    id in w.actors &&
    forall run, steps, end :: LeadsTo(w, run, steps, end) ==>
      IsStopping(end, id) && end.actors[id].inst.epoch == w.actors[id].inst.epoch
  }

  lemma {:induction false} StoppedStays(run: seq<World>, steps: seq<Step>, n: nat, id: nat)
    requires IsStretch(run, steps) && n < |run|
    requires IsStopping(run[0], id) && run[0].actors[id].waiting == 0
    ensures IsStopping(run[n], id) && run[n].actors[id].waiting == 0
    ensures run[n].actors[id].inst.epoch == run[0].actors[id].inst.epoch
  {
    if n > 0 {
      StoppedStays(run, steps, n - 1, id);
      assert Next(run[n - 1], steps[n - 1], run[n]);
    }
  }

  /** A shutdown is final exactly when no attempt of the instance waits. */
  lemma ShutdownIsFinal(w: World, id: nat)
    requires Inv(w) && IsStopping(w, id)
    ensures Final(w, id) <==> w.actors[id].waiting == 0
  {
    if w.actors[id].waiting == 0 {
      forall run, steps, end | LeadsTo(w, run, steps, end)
        ensures IsStopping(end, id) && end.actors[id].inst.epoch == w.actors[id].inst.epoch
      {
        StoppedStays(run, steps, |steps|, id);
      }
    } else {
      assert ActorInv(w, id);
      var w1 := Updated(w, id, Finished(ViewOf(w, id), id, Activated), 0)
                .(activations := w.activations + [Activation(id, true)]);
      var run, steps := [w, w1], [Finish(id, Activated)];
      assert LeadsTo(w, run, steps, w1) && !IsStopping(w1, id);
    }
  }

  /** Over any run: after its shutdown began an instance activates only if an attempt of it waited at
      that moment. */
  lemma OnlyAWaitingAttemptOutlivesShutdown(run: seq<World>, steps: seq<Step>, m: nat, n: nat, id: nat)
    requires IsRun(run, steps) && m < n < |run| && steps[m] == BeginShutdown(id)
    ensures id in run[m].actors
    ensures !IsStopping(run[n], id) || run[n].actors[id].inst.epoch != run[m].actors[id].inst.epoch
            ==> run[m].actors[id].waiting == 1
  {
    RunKeepsInv(run, steps, m);
    assert Next(run[m], steps[m], run[m + 1]);
    assert ActorInv(run[m], id);
    if run[m].actors[id].waiting == 0 {
      var rest, after := run[m + 1..], steps[m + 1..];
      assert IsStretch(rest, after);
      StoppedStays(rest, after, n - m - 1, id);
    }
  }

  /** How the waiting attempt ends decides: only a cancelled one leaves the shutdown in force; a
      failed one leaves the instance free to try, and to activate, again. */
  lemma WaitingAttemptDecidesShutdown(w: World, id: nat, outcome: Outcome, w': World)
    requires Inv(w) && IsStopping(w, id) && Next(w, Finish(id, outcome), w')
    ensures Final(w', id) <==> outcome == CancelledWaiting
  {
    assert ActorInv(w, id);
    StepKeepsInv(w, Finish(id, outcome), w');
    if outcome == CancelledWaiting {
      ShutdownIsFinal(w', id);
    } else {
      var run, steps: seq<Step> := [w'], [];
      assert LeadsTo(w', run, steps, w') && !IsStopping(w', id);
    }
  }

  /** A shutdown that begins while an attempt waits is forgotten if the attempt then fails: the next
      attempt is let through, serially, and can run. */
  lemma FailedAttemptForgetsShutdown(w: World, id: nat, outcome: Outcome, w1: World, w2: World, w3: World, w4: World)
    requires Inv(w) && id in w.actors && w.actors[id].waiting == 1 && outcome in {LoadFails, ActivateFails}
    requires Next(w, BeginShutdown(id), w1) && Next(w1, Finish(id, outcome), w2)
    requires Next(w2, Begin(id, false), w3) && Next(w3, Finish(id, Activated), w4)
    ensures w1.actors[id].inst.phase == Stopping && w2.actors[id].inst.phase == Failed
    ensures Serial(w2, Begin(id, false)) && w3.actors[id].waiting == 1 && Ready(ViewOf(w4, id), id)
  {
    assert ActorInv(w, id);
  }

  /** Serial attempts are needed. From every state in which an attempt waits, a second one of the
      same instance is let through; when the first then fails it takes the lock from the second,
      which activates without it, and another instance can run at the same time. */
  lemma OverlapBreaksOwnership(w: World, id: nat, other: nat)
    returns (w1: World, w2: World, w3: World, w4: World, w5: World)
    requires Inv(w) && id in w.actors && w.actors[id].waiting == 1 && w.actors[id].inst.phase == Restoring
    requires !w.actors[id].ended
    requires other in w.actors && other != id && !w.actors[other].inst.disabled && !w.actors[other].ended
    requires w.actors[other].inst.phase != Stopping
    ensures Next(w, Begin(id, false), w1) && !Serial(w, Begin(id, false))
    ensures Next(w1, Finish(id, LoadFails), w2) && Next(w2, Finish(id, Activated), w3)
    ensures w3.activations == w.activations + [Activation(id, false)]
    ensures Next(w3, Begin(other, false), w4) && Next(w4, Finish(other, Activated), w5)
    ensures w5.actors[id].inst.phase == Running && w5.actors[other].inst.phase == Running
  {
    assert ActorInv(w, id) && ActorInv(w, other);
    w1 := Updated(w, id, Begun(ViewOf(w, id), id, false).0, 2);
    w2 := Updated(w1, id, Finished(ViewOf(w1, id), id, LoadFails), 1);
    w3 := Updated(w2, id, Finished(ViewOf(w2, id), id, Activated), 0)
          .(activations := w.activations + [Activation(id, false)]);
    w4 := Updated(w3, other, Begun(ViewOf(w3, other), other, false).0, 1);
    w5 := Updated(w4, other, Finished(ViewOf(w4, other), other, Activated), 0)
          .(activations := w4.activations + [Activation(other, true)]);
  }
}
