/** Quiet runs end: every step but an arrival lowers a measure of the whole queue, and as long as some
    message is neither done nor dead another step is possible. */
module ConsumerProgress {
  import opened RetryHeader
  import opened Consumer
  import opened ConsumerInvariant
  import opened ConsumerQuiet

  function RetriesLeft(cfg: Config, msg: Msg): nat { AtLeastZero(cfg.maxRetries - Count(msg)) }

  function Weight(cfg: Config, s: State, c: nat): nat {
    if c !in s.broker.copies then 0
    else
      var left := RetriesLeft(cfg, s.broker.copies[c].msg);
      match s.broker.copies[c].at
      case Ready => 10 * left + 7
      case Waiting => 10 * left + 8
      case Unacked(_) => if Superseded(s, c) then 0 else 10 * left + 1
      case Done => 0
      case Dead => 0
  }

  function Total(cfg: Config, s: State, n: nat): nat {
    if n == 0 then 0 else Total(cfg, s, n - 1) + Weight(cfg, s, n - 1)
  }

  function Effort(worker: Worker): nat { match worker case Idle => 1 case Running(_) => 2 case Exited => 0 }

  function Efforts(workers: seq<Worker>): nat {
    if workers == [] then 0 else Efforts(workers[..|workers| - 1]) + Effort(workers[|workers| - 1])
  }

  function InProcess(s: State): nat {
    4 * |s.proc.inbox| + (if s.proc.hand.Some? then 3 else 0) + 2 * |s.proc.jobs| + Efforts(s.proc.workers)
    + (if s.proc.loop.Consuming? then 1 else 0) + (if s.proc.done then 0 else 1)
  }

  /** An upper bound on the steps still to come if nothing else arrives. */
  function Measure(cfg: Config, s: State): nat { Total(cfg, s, s.broker.nextCopy) + InProcess(s) }

  lemma {:induction false} EffortsUpdate(workers: seq<Worker>, w: nat, now: Worker)
    requires w < |workers|
    ensures Efforts(workers[w := now]) + Effort(workers[w]) == Efforts(workers) + Effort(now)
    decreases |workers|
  {
    var last := |workers| - 1;
    if w == last {
      assert workers[w := now][..last] == workers[..last];
    } else {
      assert workers[w := now][..last] == workers[..last][w := now];
      EffortsUpdate(workers[..last], w, now);
    }
  }

  /** If only copy `k` weighs differently, the totals differ by exactly that. */
  lemma {:induction false} TotalDiff(cfg: Config, s: State, t: State, n: nat, k: nat)
    requires forall c: nat | c < n && c != k :: Weight(cfg, s, c) == Weight(cfg, t, c)
    ensures Total(cfg, t, n) + (if k < n then Weight(cfg, s, k) else 0)
         == Total(cfg, s, n) + (if k < n then Weight(cfg, t, k) else 0)
  {
    if n > 0 { TotalDiff(cfg, s, t, n - 1, k); }
  }

  /** The copy whose weight a step changes, if any. */
  lemma SameWeight(cfg: Config, s: State, step: Step, c: nat)
    requires Shape(cfg, s) && HeldKnown(s) && Steady(s) && Enabled(cfg, s, step)
    requires IsQuietStep(step) && c < s.broker.nextCopy
    requires step.Deliver? || step.Expire? ==> c != step.copy
    requires (step.Settle? || step.RetryPublish? || step.RetryAck?) && c in s.broker.copies ==>
               s.broker.copies[c].at != Unacked(s.proc.workers[step.worker].delivery.tag)
    ensures Weight(cfg, s, c) == Weight(cfg, Apply(cfg, s, step), c)
  {
    var t := Apply(cfg, s, step);
    assert c in s.broker.copies <==> c in t.broker.copies;
    if c in s.broker.copies {
      assert s.broker.copies[c] == t.broker.copies[c];
      SupersededStep(cfg, s, step, c);
    }
  }

  ghost predicate Tracked(cfg: Config, s: State) {
    Shape(cfg, s) && HeldOnce(s) && HeldKnown(s) && HeldBacked(s) && CopiesKnown(s) && Steady(s)
  }

  lemma Decreases(cfg: Config, s: State, step: Step)
    requires Tracked(cfg, s) && Enabled(cfg, s, step) && IsQuietStep(step) && !step.Arrive?
    requires cfg.maxRetries <= MAX_INT32
    ensures Measure(cfg, Apply(cfg, s, step)) < Measure(cfg, s)
  {
    match step {
      case Settle(w, _) => SettleDecreases(cfg, s, step, w);
      case RetryAck(w) => SettleDecreases(cfg, s, step, w);
      case RetryPublish(w) => PublishDecreases(cfg, s, w);
      case _ => MoveDecreases(cfg, s, step);
    }
  }

  lemma MoveDecreases(cfg: Config, s: State, step: Step)
    requires Tracked(cfg, s) && Enabled(cfg, s, step)
    requires IsQuietStep(step) && !step.Arrive? && !step.Settle? && !step.RetryAck? && !step.RetryPublish?
    ensures Measure(cfg, Apply(cfg, s, step)) < Measure(cfg, s)
  {
    var t := Apply(cfg, s, step);
    var k := if step.Deliver? || step.Expire? then step.copy else s.broker.nextCopy;
    forall c: nat | c < s.broker.nextCopy && c != k
      ensures Weight(cfg, s, c) == Weight(cfg, t, c)
    {
      SameWeight(cfg, s, step, c);
    }
    TotalDiff(cfg, s, t, s.broker.nextCopy, k);
    if step.Take? || step.Exit? { EffortsUpdate(s.proc.workers, step.worker, t.proc.workers[step.worker]); }
  }

  /** A worker that gives up its delivery changes the weight of the copy behind it alone. */
  lemma OtherWeights(cfg: Config, s: State, step: Step, k: nat)
    requires Tracked(cfg, s) && Enabled(cfg, s, step) && (step.Settle? || step.RetryPublish? || step.RetryAck?)
    requires k in s.broker.copies && s.broker.copies[k].at == Unacked(s.proc.workers[step.worker].delivery.tag)
    ensures var n, t := s.broker.nextCopy, Apply(cfg, s, step);
            Total(cfg, t, n) + Weight(cfg, s, k) == Total(cfg, s, n) + Weight(cfg, t, k)
  {
    forall c: nat | c < s.broker.nextCopy && c != k
      ensures Weight(cfg, s, c) == Weight(cfg, Apply(cfg, s, step), c)
    {
      SameWeight(cfg, s, step, c);
    }
    TotalDiff(cfg, s, Apply(cfg, s, step), s.broker.nextCopy, k);
  }

  lemma SettleDecreases(cfg: Config, s: State, step: Step, w: nat)
    requires Tracked(cfg, s) && Enabled(cfg, s, step)
    requires (step.Settle? || step.RetryAck?) && step.worker == w
    ensures Measure(cfg, Apply(cfg, s, step)) < Measure(cfg, s)
  {
    var k := Backing(s, Pool(w));
    OtherWeights(cfg, s, step, k);
    EffortsUpdate(s.proc.workers, w, Idle);
  }

  lemma PublishDecreases(cfg: Config, s: State, w: nat)
    requires Tracked(cfg, s) && Enabled(cfg, s, RetryPublish(w)) && cfg.maxRetries <= MAX_INT32
    ensures Measure(cfg, Apply(cfg, s, RetryPublish(w))) < Measure(cfg, s)
  {
    var k := Backing(s, Pool(w));
    OtherWeights(cfg, s, RetryPublish(w), k);
    CountRises(s.broker.copies[k].msg.headers);
  }

  predicate NoArrivals(steps: seq<Step>) { forall i | 0 <= i < |steps| :: !steps[i].Arrive? }

  lemma QuietBefore(cfg: Config, s: State, steps: seq<Step>)
    requires Inv(cfg, s) && Quiet(cfg, s) && IsRun(cfg, s, steps) && After(cfg, s, steps).past.quiet
    ensures s.past.quiet
    decreases |steps|
  {
    if steps != [] {
      InvStep(cfg, s, steps[0]);
      QuietStep(cfg, s, steps[0]);
      QuietBefore(cfg, Apply(cfg, s, steps[0]), steps[1..]);
      StaysQuiet(cfg, s, steps[0]);
    }
  }

  lemma StepAndRest(cfg: Config, s: State, steps: seq<Step>)
    requires Inv(cfg, s) && Quiet(cfg, s) && steps != [] && IsRun(cfg, s, steps) && !steps[0].Arrive?
    requires After(cfg, s, steps).past.quiet && cfg.maxRetries <= MAX_INT32
    ensures var t := Apply(cfg, s, steps[0]);
            Inv(cfg, t) && Quiet(cfg, t) && Measure(cfg, t) < Measure(cfg, s)
  {
    InvStep(cfg, s, steps[0]);
    QuietStep(cfg, s, steps[0]);
    QuietBefore(cfg, Apply(cfg, s, steps[0]), steps[1..]);
    StaysQuiet(cfg, s, steps[0]);
    Decreases(cfg, s, steps[0]);
  }

  /** A quiet run in which nothing more arrives has at most `Measure` steps. */
  lemma {:induction false} QuietRunsEnd(cfg: Config, s: State, steps: seq<Step>)
    requires Inv(cfg, s) && Quiet(cfg, s) && IsRun(cfg, s, steps) && NoArrivals(steps)
    requires After(cfg, s, steps).past.quiet && cfg.maxRetries <= MAX_INT32
    ensures |steps| <= Measure(cfg, s)
    decreases |steps|
  {
    if steps != [] {
      var t := Apply(cfg, s, steps[0]);
      StepAndRest(cfg, s, steps);
      QuietRunsEnd(cfg, t, steps[1..]);
    }
  }

  ghost predicate Pending(s: State) {
    exists c :: c in s.broker.copies && !s.broker.copies[c].at.Done? && !s.broker.copies[c].at.Dead?
  }

  /** The steps of broker, loop and workers that process messages. */
  predicate IsWork(step: Step) {
    || step.Deliver? || step.Expire? || step.Receive? || step.Enqueue? || step.Take?
    || step.Settle? || step.RetryPublish? || step.RetryAck?
  }

  /** What the callback of each message always comes to. */
  type Verdict = nat -> Outcome

  /** A step that agrees with that: only a transient error is retried. */
  predicate Follows(s: State, step: Step, verdict: Verdict) {
    match step
    case Settle(w, outcome) =>
      IsRunning(s, w) && !outcome.NoHandler? ==> outcome == verdict(s.proc.workers[w].delivery.msg.id)
    case RetryPublish(w) => IsRunning(s, w) ==> verdict(s.proc.workers[w].delivery.msg.id).TransientError?
    case _ => true
  }

  /** What a worker does once its callback has come to the verdict. */
  function Response(cfg: Config, s: State, w: nat, verdict: Verdict): Step
    requires IsRunning(s, w)
  {
    var msg := s.proc.workers[w].delivery.msg;
    if msg.key !in cfg.handlers then Settle(w, NoHandler)
    else if verdict(msg.id).TransientError? && Attempts(s, w) < cfg.maxRetries then RetryPublish(w)
    else Settle(w, verdict(msg.id))
  }

  /** Some worker is running or can take a delivery, or a delivery can move on, whenever one is held. */
  lemma HeldMovesOn(cfg: Config, s: State, p: Place, verdict: Verdict) returns (step: Step)
    requires Shape(cfg, s) && Steady(s) && s.proc.loop.Consuming? && cfg.workers > 0 && At(s, p).Some?
    requires forall id :: !verdict(id).NoHandler?
    ensures Enabled(cfg, s, step) && IsWork(step) && Follows(s, step, verdict)
  {
    if exists w: nat :: IsRunning(s, w) && s.proc.lockedBy.None? {
      var w: nat :| IsRunning(s, w) && s.proc.lockedBy.None?;
      step := Response(cfg, s, w, verdict);
    } else if s.proc.lockedBy.Some? {
      step := RetryAck(s.proc.lockedBy.value);
    } else if s.proc.jobs != [] {
      assert !IsRunning(s, 0);
      step := Take(0);
    } else if s.proc.hand.Some? {
      step := Enqueue;
    } else {
      step := Receive;
    }
  }

  /** No quiet state is stuck: while the loop consumes and a message is neither done nor dead, a step that
      processes messages is enabled, whatever the callbacks come to. */
  lemma NeverStuck(cfg: Config, s: State, verdict: Verdict) returns (step: Step)
    requires Inv(cfg, s) && Quiet(cfg, s) && s.past.quiet && s.proc.loop.Consuming? && cfg.workers > 0 && Pending(s)
    requires forall id :: !verdict(id).NoHandler?
    ensures Enabled(cfg, s, step) && IsWork(step) && Follows(s, step, verdict)
    ensures Apply(cfg, s, step).past.quiet
  {
    var c :| c in s.broker.copies && !s.broker.copies[c].at.Done? && !s.broker.copies[c].at.Dead?;
    match s.broker.copies[c].at
    case Waiting => step := Expire(c);
    case Unacked(tag) =>
      assert IsHeld(s, tag);
      var p :| Holds(s, p, tag);
      step := HeldMovesOn(cfg, s, p, verdict);
    case Ready =>
      if |UnackedCopies(s.broker.copies)| < cfg.workers {
        step := Deliver(c);
      } else {
        var e :| e in UnackedCopies(s.broker.copies);
        assert IsHeld(s, s.broker.copies[e].at.tag);
        var p :| Holds(s, p, s.broker.copies[e].at.tag);
        step := HeldMovesOn(cfg, s, p, verdict);
      }
  }

  /** The place of the delivery that a step in the process moves or settles. */
  function WorkPlace(step: Step): Place
    requires IsWork(step) && !step.Deliver? && !step.Expire?
  {
    match step
    case Receive => Inbox(0)
    case Enqueue => Hand
    case Take(_) => Job(0)
    case Settle(w, _) => Pool(w)
    case RetryPublish(w) => Pool(w)
    case RetryAck(w) => Pool(w)
  }

  /** And with every message done or dead there is nothing left to do. */
  lemma NothingLeft(cfg: Config, s: State, step: Step)
    requires Inv(cfg, s) && Quiet(cfg, s) && s.past.quiet && Enabled(cfg, s, step) && IsWork(step)
    ensures Pending(s)
  {
    if !step.Deliver? && !step.Expire? {
      WorkIsAt(cfg, s, step);
      var c := Backing(s, WorkPlace(step));
    }
  }

  lemma WorkIsAt(cfg: Config, s: State, step: Step)
    requires PoolShape(cfg, s) && Enabled(cfg, s, step) && IsWork(step) && !step.Deliver? && !step.Expire?
    ensures At(s, WorkPlace(step)).Some?
  {
  }

  /** A stopped loop was told to stop. */
  predicate StoppedWhenDone(s: State) { s.proc.alive && s.proc.loop.Stopped? ==> s.proc.done }

  lemma {:induction false} StopsWhenDone(cfg: Config, s: State, steps: seq<Step>)
    requires StoppedWhenDone(s) && IsRun(cfg, s, steps)
    ensures StoppedWhenDone(After(cfg, s, steps))
    decreases |steps|
  {
    if steps != [] {
      StopStep(cfg, s, steps[0]);
      StopsWhenDone(cfg, Apply(cfg, s, steps[0]), steps[1..]);
    }
  }

  lemma StopStep(cfg: Config, s: State, step: Step)
    requires StoppedWhenDone(s) && Enabled(cfg, s, step)
    ensures StoppedWhenDone(Apply(cfg, s, step))
  {
  }

  lemma WorkStep(cfg: Config, s: State, step: Step)
    requires Inv(cfg, s) && Quiet(cfg, s) && s.past.quiet && s.proc.loop.Consuming?
    requires Enabled(cfg, s, step) && IsWork(step) && cfg.maxRetries <= MAX_INT32
    ensures var t := Apply(cfg, s, step);
            Inv(cfg, t) && Quiet(cfg, t) && t.past.quiet && t.proc.loop.Consuming? && Measure(cfg, t) < Measure(cfg, s)
  {
    InvStep(cfg, s, step);
    QuietStep(cfg, s, step);
    StaysConsuming(cfg, s, step);
    Decreases(cfg, s, step);
  }

  lemma StaysConsuming(cfg: Config, s: State, step: Step)
    requires Enabled(cfg, s, step) && IsWork(step)
    ensures Apply(cfg, s, step).past.quiet == s.past.quiet
    ensures Apply(cfg, s, step).proc.loop == s.proc.loop && Apply(cfg, s, step).proc.done == s.proc.done
  {
  }

  ghost predicate CanWork(cfg: Config, s: State) {
    Inv(cfg, s) && Quiet(cfg, s) && s.past.quiet && s.proc.loop.Consuming?
  }

  predicate AllFollow(cfg: Config, s: State, steps: seq<Step>, verdict: Verdict)
    requires IsRun(cfg, s, steps)
    decreases |steps|
  {
    steps == [] ||
    (Follows(s, steps[0], verdict) && AllFollow(cfg, Apply(cfg, s, steps[0]), steps[1..], verdict))
  }

  /** The run processes messages, with these verdicts, until every one is done or dead. */
  ghost predicate WorksOff(cfg: Config, s: State, steps: seq<Step>, verdict: Verdict) {
    && IsRun(cfg, s, steps) && (forall i | 0 <= i < |steps| :: IsWork(steps[i])) && AllFollow(cfg, s, steps, verdict)
    && After(cfg, s, steps).past.quiet && !Pending(After(cfg, s, steps))
  }

  lemma WorksOffThen(cfg: Config, s: State, step: Step, rest: seq<Step>, verdict: Verdict)
    requires Enabled(cfg, s, step) && IsWork(step) && Follows(s, step, verdict)
    requires WorksOff(cfg, Apply(cfg, s, step), rest, verdict)
    ensures WorksOff(cfg, s, [step] + rest, verdict)
  {
    StepThen(cfg, s, step, rest);
    assert forall i | 0 < i < |[step] + rest| :: ([step] + rest)[i] == rest[i - 1];
    assert ([step] + rest)[1..] == rest;
  }

  lemma NextWork(cfg: Config, s: State, verdict: Verdict) returns (step: Step)
    requires CanWork(cfg, s) && cfg.workers > 0 && cfg.maxRetries <= MAX_INT32 && Pending(s)
    requires forall id :: !verdict(id).NoHandler?
    ensures Enabled(cfg, s, step) && IsWork(step) && Follows(s, step, verdict)
    ensures CanWork(cfg, Apply(cfg, s, step)) && Measure(cfg, Apply(cfg, s, step)) < Measure(cfg, s)
  {
    step := NeverStuck(cfg, s, verdict);
    WorkStep(cfg, s, step);
  }

  /** From every quiet state in which the loop consumes, the whole queue can be worked off, whatever the callbacks
      come to. */
  lemma {:induction false} Drains(cfg: Config, s: State, verdict: Verdict) returns (steps: seq<Step>)
    requires CanWork(cfg, s) && cfg.workers > 0 && cfg.maxRetries <= MAX_INT32
    requires forall id :: !verdict(id).NoHandler?
    ensures WorksOff(cfg, s, steps, verdict)
    decreases Measure(cfg, s)
  {
    steps := [];
    if Pending(s) {
      var step := NextWork(cfg, s, verdict);
      var rest := Drains(cfg, Apply(cfg, s, step), verdict);
      WorksOffThen(cfg, s, step, rest, verdict);
      steps := [step] + rest;
    }
  }
}
