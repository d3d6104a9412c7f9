/** Stopping: once `done` is closed the loop can end and the pool can drain, whatever has been lost before. */
module ConsumerStop {
  import opened Wrappers
  import opened Consumer
  import opened ConsumerInvariant
  import opened ConsumerProgress
  import opened ConsumerSafety

  /** The steps of a loop that gives up and of a pool that drains. */
  predicate IsStopStep(step: Step) {
    || step.CheckDone? || step.ConnectFails? || step.StopConsuming?
    || step.Take? || step.Settle? || step.RetryAck? || step.Exit?
  }

  predicate HasStopped(s: State) {
    s.proc.loop.Stopped? && s.proc.jobs == [] && forall w | 0 <= w < |s.proc.workers| :: s.proc.workers[w].Exited?
  }

  ghost predicate IsStopping(cfg: Config, s: State) { Shape(cfg, s) && s.proc.alive && s.proc.done }

  function LoopLeft(loop: Loop): nat {
    match loop case Top => 1 case Connecting => 2 case Consuming(_) => 1 case Stopped => 0
  }

  function StopLeft(s: State): nat { LoopLeft(s.proc.loop) + 2 * |s.proc.jobs| + Efforts(s.proc.workers) }

  /** Until everything has stopped, one of these steps is enabled. */
  lemma NextStop(cfg: Config, s: State) returns (step: Step)
    requires IsStopping(cfg, s) && !HasStopped(s)
    ensures Enabled(cfg, s, step) && IsStopStep(step)
  {
    if s.proc.lockedBy.Some? {
      step := RetryAck(s.proc.lockedBy.value);
    } else if s.proc.loop.Top? {
      step := CheckDone;
    } else if s.proc.loop.Connecting? {
      step := ConnectFails;
    } else if s.proc.loop.Consuming? {
      step := StopConsuming;
    } else if exists w: nat :: IsRunning(s, w) {
      var w: nat :| IsRunning(s, w);
      step := Settle(w, if s.proc.workers[w].delivery.msg.key in cfg.handlers then Success else NoHandler);
    } else if s.proc.jobs != [] {
      assert !IsRunning(s, 0);
      step := Take(0);
    } else {
      var w: nat :| w < |s.proc.workers| && !s.proc.workers[w].Exited?;
      assert !IsRunning(s, w);
      step := Exit(w);
    }
  }

  lemma StopDecreases(cfg: Config, s: State, step: Step)
    requires IsStopping(cfg, s) && Enabled(cfg, s, step) && IsStopStep(step)
    ensures IsStopping(cfg, Apply(cfg, s, step)) && StopLeft(Apply(cfg, s, step)) < StopLeft(s)
  {
    ShapeStep(cfg, s, step);
    StopStays(cfg, s, step);
    if step.Take? || step.Settle? || step.RetryAck? || step.Exit? {
      EffortsUpdate(s.proc.workers, step.worker, Apply(cfg, s, step).proc.workers[step.worker]);
    }
  }

  lemma StopStays(cfg: Config, s: State, step: Step)
    requires Enabled(cfg, s, step) && IsStopStep(step)
    ensures Apply(cfg, s, step).proc.alive == s.proc.alive && Apply(cfg, s, step).proc.done == s.proc.done
  {
  }

  /** All of them together are few: the deliveries on `jobs` twice, two for each worker, and two for the loop. */
  lemma {:induction false} StopsSoon(cfg: Config, s: State, steps: seq<Step>)
    requires IsStopping(cfg, s) && IsRun(cfg, s, steps) && forall i | 0 <= i < |steps| :: IsStopStep(steps[i])
    ensures |steps| <= 2 * |s.proc.jobs| + 2 * |s.proc.workers| + 2
    ensures |steps| <= StopLeft(s)
    decreases |steps|
  {
    EffortsAtMost(s.proc.workers);
    if steps != [] {
      StopDecreases(cfg, s, steps[0]);
      StopsSoon(cfg, Apply(cfg, s, steps[0]), steps[1..]);
    }
  }

  lemma {:induction false} EffortsAtMost(workers: seq<Worker>)
    ensures Efforts(workers) <= 2 * |workers|
  {
    if workers != [] { EffortsAtMost(workers[..|workers| - 1]); }
  }

  lemma {:induction false} CanStop(cfg: Config, s: State) returns (steps: seq<Step>)
    requires IsStopping(cfg, s)
    ensures IsRun(cfg, s, steps) && (forall i | 0 <= i < |steps| :: IsStopStep(steps[i]))
    ensures HasStopped(After(cfg, s, steps))
    decreases StopLeft(s)
  {
    steps := [];
    if !HasStopped(s) {
      var step := NextStop(cfg, s);
      StopDecreases(cfg, s, step);
      var rest := CanStop(cfg, Apply(cfg, s, step));
      StepThen(cfg, s, step, rest);
      steps := [step] + rest;
    }
  }

  /** From every reachable state of a living process that was told to stop, such steps end with the loop stopped, `jobs`
      closed and empty, every worker gone, and each delivery that was put on `jobs` acked or nacked. */
  lemma StopCompletes(cfg: Config, s: State) returns (steps: seq<Step>)
    requires Reachable(cfg, s) && s.proc.alive && s.proc.done
    ensures IsRun(cfg, s, steps) && (forall i | 0 <= i < |steps| :: IsStopStep(steps[i]))
    ensures var t := After(cfg, s, steps); HasStopped(t) && t.proc.jobsClosed && t.past.accepted == t.past.settled
  {
    ReachableInv(cfg, s);
    steps := CanStop(cfg, s);
    ReachableAfter(cfg, s, steps);
    ReachableInv(cfg, After(cfg, s, steps));
    DrainedPoolSettledAll(cfg, After(cfg, s, steps));
  }

  lemma ReachableAfter(cfg: Config, s: State, steps: seq<Step>)
    requires Reachable(cfg, s) && IsRun(cfg, s, steps)
    ensures Reachable(cfg, After(cfg, s, steps))
  {
    var before :| IsRun(cfg, Initial(cfg), before) && After(cfg, Initial(cfg), before) == s;
    RunConcat(cfg, Initial(cfg), before, steps);
  }
}
