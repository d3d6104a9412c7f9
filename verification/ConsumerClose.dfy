/** `Close` against a consume loop that is reconnecting at the time. */
module ConsumerClose {
  import opened Consumer
  import opened ConsumerInvariant
  import opened ConsumerCopies
  import opened ConsumerSafety

  /** The process goes on: it is not killed and does not crash. */
  predicate Survives(step: Step) { !step.Kill? && !step.RetryOnNilChannel? && !step.Restart? }

  predicate OneProcess(steps: seq<Step>) { steps == [] || (Survives(steps[0]) && OneProcess(steps[1..])) }

  /** `Close` has returned, and the loop will not connect again. */
  predicate ClosedForGood(s: State) { s.proc.done && s.proc.channel.None? && !s.proc.loop.Connecting? }

  lemma {:induction false} StaysClosed(cfg: Config, s: State, steps: seq<Step>)
    requires ClosedForGood(s) && IsRun(cfg, s, steps) && OneProcess(steps)
    ensures ClosedForGood(After(cfg, s, steps))
    decreases |steps|
  {
    if steps != [] {
      ClosedStep(cfg, s, steps[0]);
      StaysClosed(cfg, Apply(cfg, s, steps[0]), steps[1..]);
    }
  }

  lemma ClosedStep(cfg: Config, s: State, step: Step)
    requires ClosedForGood(s) && Enabled(cfg, s, step) && Survives(step)
    ensures ClosedForGood(Apply(cfg, s, step))
  {
  }

  ghost predicate Reopens(cfg: Config, s: State, steps: seq<Step>) {
    IsRun(cfg, s, steps) && OneProcess(steps) && After(cfg, s, steps).proc.channel.Some?
  }

  /** After `Close` has closed the channel, the same process can open a session again exactly if its loop was
      already past the check of `done`, about to connect. */
  lemma ReopensExactlyWhen(cfg: Config, s: State)
    requires Enabled(cfg, s, CloseChannel)
    ensures (exists steps :: Reopens(cfg, Apply(cfg, s, CloseChannel), steps)) <==> s.proc.loop.Connecting?
  {
    var t := Apply(cfg, s, CloseChannel);
    if s.proc.loop.Connecting? {
      assert IsRun(cfg, Apply(cfg, t, Connect), []);
      assert [Connect][1..] == [] && OneProcess([Connect]);
      assert Reopens(cfg, t, [Connect]);
    } else {
      forall steps | IsRun(cfg, t, steps) && OneProcess(steps)
        ensures After(cfg, t, steps).proc.channel.None?
      {
        StaysClosed(cfg, t, steps);
      }
    }
  }

  /** The loop has ended, and copy `c` is unacked with a delivery in the library's buffer, where nobody reads it. */
  ghost predicate Abandoned(s: State, c: nat, i: nat) {
    && s.proc.loop.Stopped? && i < |s.proc.inbox|
    && c in s.broker.copies && s.broker.copies[c].at == Unacked(s.proc.inbox[i].tag)
  }

  /** Such a session, opened after `Close`, takes messages out of the queue. */
  lemma CloseCanAbandon(cfg: Config, s: State, c: nat) returns (steps: seq<Step>)
    requires Reachable(cfg, s) && Enabled(cfg, s, CloseChannel) && s.proc.loop.Connecting? && cfg.workers > 0
    requires c in s.broker.copies && s.broker.copies[c].at.Ready?
    ensures IsRun(cfg, s, steps) && OneProcess(steps) && steps != [] && steps[0] == CloseChannel
    ensures var t := After(cfg, s, steps);
            && Abandoned(t, c, 0)
            && t.proc.alive && t.proc.jobsClosed && t.proc.channel.Some? && t.proc.channel.value in t.broker.open
  {
    ReachableInv(cfg, s);
    NothingUnacked(cfg, s);
    var s1 := Apply(cfg, s, CloseChannel);
    var s2 := Apply(cfg, s1, Connect);
    var s3 := Apply(cfg, s2, StopConsuming);
    assert s3.broker.copies == s.broker.copies;
    steps := [CloseChannel] + ([Connect] + ([StopConsuming] + ([Deliver(c)] + [])));
    StepThen(cfg, s3, Deliver(c), []);
    StepThen(cfg, s2, StopConsuming, [Deliver(c)] + []);
    StepThen(cfg, s1, Connect, [StopConsuming] + ([Deliver(c)] + []));
    StepThen(cfg, s, CloseChannel, [Connect] + ([StopConsuming] + ([Deliver(c)] + [])));
    OneProcessFour(CloseChannel, Connect, StopConsuming, Deliver(c));
  }

  lemma OneProcessFour(a: Step, b: Step, c: Step, d: Step)
    requires Survives(a) && Survives(b) && Survives(c) && Survives(d)
    ensures OneProcess([a] + ([b] + ([c] + ([d] + []))))
  {
    assert OneProcess([d] + []);
    assert ([c] + ([d] + []))[1..] == [d] + [];
    assert ([b] + ([c] + ([d] + [])))[1..] == [c] + ([d] + []);
    assert ([a] + ([b] + ([c] + ([d] + []))))[1..] == [b] + ([c] + ([d] + []));
  }

  lemma NothingUnacked(cfg: Config, s: State)
    requires Inv(cfg, s) && s.proc.loop.Connecting?
    ensures UnackedCopies(s.broker.copies) == {}
  {
  }

  lemma AbandonedStep(cfg: Config, s: State, step: Step, c: nat, i: nat)
    requires Inv(cfg, s) && Abandoned(s, c, i) && Enabled(cfg, s, step) && Survives(step) && KeepsSession(step)
    ensures Abandoned(Apply(cfg, s, step), c, i)
  {
    var tag := s.proc.inbox[i].tag;
    assert Holds(s, Inbox(i), tag);
    assert forall p | p != Inbox(i) :: !Holds(s, p, tag);
    Untouched(cfg, s, step, c);
  }

  /** It keeps them as long as the process lives and the session is neither lost nor closed. */
  lemma {:induction false} AbandonedStays(cfg: Config, s: State, steps: seq<Step>, c: nat, i: nat)
    requires Inv(cfg, s) && Abandoned(s, c, i) && IsRun(cfg, s, steps) && OneProcess(steps) && KeepSession(steps)
    ensures Abandoned(After(cfg, s, steps), c, i)
    decreases |steps|
  {
    if steps != [] {
      InvStep(cfg, s, steps[0]);
      AbandonedStep(cfg, s, steps[0], c, i);
      AbandonedStays(cfg, Apply(cfg, s, steps[0]), steps[1..], c, i);
    }
  }

  /** The case is reachable: the session is lost, the loop reconnects, and then `Close` is called. */
  lemma CloseWhileConnecting() returns (s: State)
    ensures Reachable(ONE_WORKER, s) && Enabled(ONE_WORKER, s, CloseChannel) && s.proc.loop.Connecting?
    ensures 0 in s.broker.copies && s.broker.copies[0].at.Ready?
  {
    s := AtQueue();
    s := Then(ONE_WORKER, s, LoseSession(0));
    s := Then(ONE_WORKER, s, Reconnect);
    s := Then(ONE_WORKER, s, CheckDone);
    s := Then(ONE_WORKER, s, SignalDone);
  }
}
