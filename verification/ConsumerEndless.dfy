/** A retry limit above 2^31-1 is no limit: the count in the header starts again from zero before it gets there,
    so a message whose callback always fails is retried without end. */
module ConsumerEndless {
  import opened Wrappers
  import opened RetryHeader
  import opened Consumer
  import opened ConsumerQuiet
  import opened ConsumerProgress
  import opened ConsumerSafety

  ghost predicate IdleProcess(cfg: Config, s: State) {
    && s.proc.alive && s.proc.channel == Some(0) && !s.proc.done && s.proc.loop == Consuming(0)
    && s.proc.inbox == [] && s.proc.hand.None? && s.proc.jobs == [] && s.proc.lockedBy.None?
    && |s.proc.workers| == cfg.workers && forall w | 0 <= w < cfg.workers :: s.proc.workers[w].Idle?
  }

  /** The queue holds message 0 and nothing else, ready, below the limit, and its callback has run `n` times. */
  ghost predicate AtRest(cfg: Config, s: State, n: nat) {
    && IdleProcess(cfg, s) && s.broker.open == {0} && s.broker.nextCopy > 0 && s.past.quiet
    && s.past.runs.Keys == {0} && s.past.runs[0] == n
    && var c := s.broker.nextCopy - 1;
       && s.broker.copies.Keys == {c} && s.broker.copies[c].at.Ready?
       && var msg := s.broker.copies[c].msg;
          msg.id == 0 && msg.key in cfg.handlers && RetryCount(msg.headers) < cfg.maxRetries
  }

  /** A worker runs the callback of the one message, for the `n`-th time. */
  ghost predicate AtCallback(cfg: Config, s: State, n: nat) {
    && s.proc.alive && s.proc.channel == Some(0) && !s.proc.done && s.proc.loop == Consuming(0)
    && s.proc.inbox == [] && s.proc.hand.None? && s.proc.jobs == [] && s.proc.lockedBy.None?
    && |s.proc.workers| == cfg.workers > 0 && s.proc.workers[0].Running?
    && (forall w | 1 <= w < cfg.workers :: s.proc.workers[w].Idle?)
    && s.broker.open == {0} && s.broker.nextCopy > 0 && s.past.quiet
    && s.past.runs.Keys == {0} && s.past.runs[0] == n
    && var d := s.proc.workers[0].delivery;
       && d.tag.session == 0 && s.broker.copies == map[s.broker.nextCopy - 1 := Copy(d.msg, Unacked(d.tag))]
       && d.msg.id == 0 && d.msg.key in cfg.handlers && RetryCount(d.msg.headers) < cfg.maxRetries
  }

  lemma ToCallback(cfg: Config, s: State, n: nat) returns (steps: seq<Step>)
    requires AtRest(cfg, s, n) && cfg.workers > 0
    ensures |steps| == 4 && IsRun(cfg, s, steps) && AtCallback(cfg, After(cfg, s, steps), n + 1)
    ensures forall i | 0 <= i < 4 :: !steps[i].Arrive?
  {
    var c := s.broker.nextCopy - 1;
    assert UnackedCopies(s.broker.copies) == {};
    var s1 := Apply(cfg, s, Deliver(c));
    assert |s1.proc.inbox| == 1;
    var s2 := Apply(cfg, s1, Receive);
    assert s2.proc.inbox == [] && s2.proc.hand.Some?;
    var s3 := Apply(cfg, s2, Enqueue);
    assert |s3.proc.jobs| == 1 && s3.proc.workers == s.proc.workers;
    var s4 := Apply(cfg, s3, Take(0));
    assert s4.proc.jobs == [];
    assert s4.broker.copies == map[c := s1.broker.copies[c]];
    steps := [Deliver(c)] + ([Receive] + ([Enqueue] + ([Take(0)] + [])));
    StepThen(cfg, s3, Take(0), []);
    StepThen(cfg, s2, Enqueue, [Take(0)] + []);
    StepThen(cfg, s1, Receive, [Enqueue] + ([Take(0)] + []));
    StepThen(cfg, s, Deliver(c), [Receive] + ([Enqueue] + ([Take(0)] + [])));
  }

  lemma ToRest(cfg: Config, s: State, n: nat) returns (steps: seq<Step>)
    requires AtCallback(cfg, s, n) && cfg.maxRetries > MAX_INT32
    ensures |steps| == 3 && IsRun(cfg, s, steps) && AtRest(cfg, After(cfg, s, steps), n)
    ensures forall i | 0 <= i < 3 :: !steps[i].Arrive?
  {
    var c := s.broker.nextCopy;
    CountRises(s.proc.workers[0].delivery.msg.headers);
    var s1 := Apply(cfg, s, RetryPublish(0));
    var s2 := Apply(cfg, s1, RetryAck(0));
    assert s2.broker.copies.Keys == {c};
    var s3 := Apply(cfg, s2, Expire(c));
    steps := [RetryPublish(0)] + ([RetryAck(0)] + ([Expire(c)] + []));
    StepThen(cfg, s2, Expire(c), []);
    StepThen(cfg, s1, RetryAck(0), [Expire(c)] + []);
    StepThen(cfg, s, RetryPublish(0), [RetryAck(0)] + ([Expire(c)] + []));
  }

  lemma {:induction false} Cycles(cfg: Config, s: State, n: nat, more: nat) returns (steps: seq<Step>)
    requires AtRest(cfg, s, n) && cfg.workers > 0 && cfg.maxRetries > MAX_INT32
    ensures |steps| == 7 * more && IsRun(cfg, s, steps) && AtRest(cfg, After(cfg, s, steps), n + more)
    ensures forall i | 0 <= i < |steps| :: !steps[i].Arrive?
  {
    steps := [];
    if more > 0 {
      var rest := Cycles(cfg, s, n, more - 1);
      var t := After(cfg, s, rest);
      var a := ToCallback(cfg, t, n + more - 1);
      var b := ToRest(cfg, After(cfg, t, a), n + more);
      RunConcat(cfg, t, a, b);
      RunConcat(cfg, s, rest, a + b);
      steps := rest + (a + b);
    }
  }

  /** One message has arrived on an empty queue. */
  function Queued(cfg: Config, key: string): State { Apply(cfg, Initial(cfg), Arrive(Msg(0, key, map[]))) }

  /** Without losses, and without anything else arriving, there are runs of every length from the same state, and
      they run the callback of one message as often as one likes. */
  lemma RetriesNeverEnd(cfg: Config, key: string, n: nat) returns (steps: seq<Step>)
    requires cfg.workers > 0 && key in cfg.handlers && cfg.maxRetries > MAX_INT32
    ensures Reachable(cfg, Queued(cfg, key)) && IsRun(cfg, Queued(cfg, key), steps) && NoArrivals(steps)
    ensures |steps| == 7 * n
    ensures var t := After(cfg, Queued(cfg, key), steps);
            Reachable(cfg, t) && t.past.quiet && 0 in t.past.first && 0 in t.past.runs && t.past.runs[0] == n
  {
    var s := Queued(cfg, key);
    StepThen(cfg, Initial(cfg), Arrive(Msg(0, key, map[])), []);
    assert AtRest(cfg, s, 0);
    steps := Cycles(cfg, s, 0, n);
    RunConcat(cfg, Initial(cfg), [Arrive(Msg(0, key, map[]))] + [], steps);
    ReachableInv(cfg, After(cfg, s, steps));
  }

  /** Over all runs without losses the callback of a message runs at most as often as the limit allows. */
  ghost predicate LimitHolds(cfg: Config) {
    forall s, id | Reachable(cfg, s) && s.past.quiet && id in s.past.first && id in s.past.runs ::
      s.past.runs[id] <= Max(cfg.maxRetries - s.past.first[id], 0) + 1
  }

  lemma LimitHoldsExactlyWhen(cfg: Config)
    requires cfg.workers > 0 && cfg.handlers != {}
    ensures LimitHolds(cfg) <==> cfg.maxRetries <= MAX_INT32
  {
    if cfg.maxRetries <= MAX_INT32 {
      forall s, id | Reachable(cfg, s) && s.past.quiet && id in s.past.first && id in s.past.runs
        ensures s.past.runs[id] <= Max(cfg.maxRetries - s.past.first[id], 0) + 1
      {
        CallbackRunsBounded(cfg, s, id);
      }
    } else {
      var key :| key in cfg.handlers;
      var steps := RetriesNeverEnd(cfg, key, cfg.maxRetries + 2);
      var t := After(cfg, Queued(cfg, key), steps);
      assert t.past.runs[0] > Max(cfg.maxRetries - t.past.first[0], 0) + 1;
    }
  }
}
