/** How messages end while nothing is lost, closed or refused: as their callbacks say, after exactly as many runs. */
module ConsumerEnds {
  import opened RetryHeader
  import opened Consumer
  import opened ConsumerInvariant
  import opened ConsumerQuiet
  import opened ConsumerProgress
  import opened ConsumerSafety

  /** A transient failure is final only once the limit is used up: its callback has then run as often as the limit
      allows. */
  lemma LastFailureAtLimit(cfg: Config, s: State, w: nat)
    requires HeldBacked(s) && Steady(s) && RunsMatch(cfg, s) && CountsBounded(cfg, s)
    requires Enabled(cfg, s, Settle(w, TransientError))
    ensures var id := s.proc.workers[w].delivery.msg.id;
            && id in s.past.first && id in s.past.runs
            && s.past.runs[id] == Max(cfg.maxRetries - s.past.first[id], 0) + 1
  {
    var c := Backing(s, Pool(w));
    assert At(s, Pool(w)).Some? && !Locks(s, Pool(w));
    var msg := s.proc.workers[w].delivery.msg;
    assert RunsAre(s, msg, 1);
    assert CopyBounded(cfg, s, c);
  }

  lemma LastFailureIsExact(cfg: Config, s: State, w: nat)
    requires Reachable(cfg, s) && s.past.quiet && cfg.maxRetries <= MAX_INT32
    requires Enabled(cfg, s, Settle(w, TransientError))
    ensures var id := s.proc.workers[w].delivery.msg.id;
            && id in s.past.first && id in s.past.runs
            && s.past.runs[id] == Max(cfg.maxRetries - s.past.first[id], 0) + 1
  {
    ReachableQuiet(cfg, s);
    LastFailureAtLimit(cfg, s, w);
  }

  // ---------------------------------------------------------------- every message

  /** How often a callback with this verdict runs in all. */
  function RunsInAll(cfg: Config, first: nat, outcome: Outcome): nat {
    if outcome.TransientError? then Max(cfg.maxRetries - first, 0) + 1 else 1
  }

  predicate IsRetried(cfg: Config, msg: Msg, verdict: Verdict) {
    msg.key in cfg.handlers && verdict(msg.id).TransientError?
  }

  /** A message without a handler ends dead and is never run; one whose callback succeeds ends done, and any other
      dead, after exactly the runs that its verdict makes. */
  predicate EndsRight(cfg: Config, s: State, c: nat, verdict: Verdict)
    requires c in s.broker.copies
  {
    var msg, at := s.broker.copies[c].msg, s.broker.copies[c].at;
    && msg.id in s.past.first && msg.id in s.past.runs
    && (!IsRetried(cfg, msg, verdict) ==> Count(msg) == s.past.first[msg.id])
    && (at.Done? ==> msg.key in cfg.handlers && verdict(msg.id).Success?)
    && (at.Dead? ==> msg.key !in cfg.handlers || !verdict(msg.id).Success?)
    && (at.Done? || at.Dead? ==>
          s.past.runs[msg.id] ==
          if msg.key in cfg.handlers then RunsInAll(cfg, s.past.first[msg.id], verdict(msg.id)) else 0)
  }

  ghost predicate AllEndRight(cfg: Config, s: State, verdict: Verdict) {
    forall c | c in s.broker.copies :: EndsRight(cfg, s, c, verdict)
  }

  ghost predicate Ending(cfg: Config, s: State, verdict: Verdict) {
    && Inv(cfg, s) && Steady(s) && OneLive(s) && RunsMatch(cfg, s) && CountsBounded(cfg, s)
    && AllEndRight(cfg, s, verdict)
  }

  /** The copy that a worker settles. */
  lemma SettledRight(cfg: Config, s: State, w: nat, outcome: Outcome, c: nat, verdict: Verdict)
    requires HeldBacked(s) && Steady(s) && CopiesKnown(s) && RunsMatch(cfg, s) && CountsBounded(cfg, s)
    requires Enabled(cfg, s, Settle(w, outcome)) && Follows(s, Settle(w, outcome), verdict)
    requires c in s.broker.copies && s.broker.copies[c].at == Unacked(s.proc.workers[w].delivery.tag)
    requires EndsRight(cfg, s, c, verdict)
    ensures c in Apply(cfg, s, Settle(w, outcome)).broker.copies
    ensures EndsRight(cfg, Apply(cfg, s, Settle(w, outcome)), c, verdict)
  {
    OwnRuns(cfg, s, w, c);
    if outcome.TransientError? { LastFailureAtLimit(cfg, s, w); }
    Settled(cfg, s, w, outcome, c);
  }

  lemma OwnRuns(cfg: Config, s: State, w: nat, c: nat)
    requires HeldBacked(s) && Steady(s) && CopiesKnown(s) && RunsMatch(cfg, s) && IsRunning(s, w) && Lockable(s)
    requires c in s.broker.copies && s.broker.copies[c].at == Unacked(s.proc.workers[w].delivery.tag)
    ensures s.broker.copies[c].msg == s.proc.workers[w].delivery.msg
    ensures RunsAre(s, s.broker.copies[c].msg, if s.broker.copies[c].msg.key in cfg.handlers then 1 else 0)
  {
    assert At(s, Pool(w)).Some? && !Locks(s, Pool(w));
    var b := Backing(s, Pool(w));
    assert b == c;
  }

  lemma Settled(cfg: Config, s: State, w: nat, outcome: Outcome, c: nat)
    requires Enabled(cfg, s, Settle(w, outcome)) && s.proc.workers[w].delivery.tag.session in s.broker.open
    requires c in s.broker.copies && s.broker.copies[c].at == Unacked(s.proc.workers[w].delivery.tag)
    ensures var t := Apply(cfg, s, Settle(w, outcome));
            && c in t.broker.copies && t.broker.copies[c].msg == s.broker.copies[c].msg
            && t.broker.copies[c].at == (if outcome.Success? then Done else Dead)
            && t.past.runs == s.past.runs && t.past.first == s.past.first
  {
  }

  /** The copy that a retry stores. */
  lemma RetriedRight(cfg: Config, s: State, w: nat, verdict: Verdict)
    requires Ending(cfg, s, verdict) && Enabled(cfg, s, RetryPublish(w)) && Follows(s, RetryPublish(w), verdict)
    ensures s.broker.nextCopy in Apply(cfg, s, RetryPublish(w)).broker.copies
    ensures EndsRight(cfg, Apply(cfg, s, RetryPublish(w)), s.broker.nextCopy, verdict)
  {
    var b := Backing(s, Pool(w));
    assert EndsRight(cfg, s, b, verdict);
  }

  /** Every other copy keeps where it is, or moves between the queue and the process. */
  lemma OthersRight(cfg: Config, s: State, step: Step, c: nat, verdict: Verdict)
    requires Inv(cfg, s) && Steady(s) && OneLive(s) && c in s.broker.copies && EndsRight(cfg, s, c, verdict)
    requires Enabled(cfg, s, step) && IsQuietStep(step) && c in Apply(cfg, s, step).broker.copies
    requires step.Settle? ==> s.broker.copies[c].at != Unacked(s.proc.workers[step.worker].delivery.tag)
    ensures EndsRight(cfg, Apply(cfg, s, step), c, verdict)
  {
    CopiesStay(cfg, s, step, c);
    StaysFinal(cfg, s, step, c);
    SameEnd(cfg, s, step, c);
  }

  lemma SameEnd(cfg: Config, s: State, step: Step, c: nat)
    requires HeldOnce(s) && HeldBacked(s) && Steady(s) && OneLive(s) && CopiesKnown(s)
    requires c in s.broker.copies && Enabled(cfg, s, step) && IsQuietStep(step)
    ensures var t, id := Apply(cfg, s, step), s.broker.copies[c].msg.id;
            && id in t.past.first && t.past.first[id] == s.past.first[id] && id in t.past.runs
            && (s.broker.copies[c].at.Done? || s.broker.copies[c].at.Dead? ==> t.past.runs[id] == s.past.runs[id])
  {
    RunsKept(cfg, s, step, s.broker.copies[c].msg.id);
    if step.Take? && (s.broker.copies[c].at.Done? || s.broker.copies[c].at.Dead?) {
      NotTaken(cfg, s, step.worker, c);
    }
  }

  /** The message that a worker takes is neither done nor dead. */
  lemma NotTaken(cfg: Config, s: State, w: nat, c: nat)
    requires HeldOnce(s) && HeldBacked(s) && Steady(s) && OneLive(s) && Enabled(cfg, s, Take(w))
    requires c in s.broker.copies && (s.broker.copies[c].at.Done? || s.broker.copies[c].at.Dead?)
    ensures s.broker.copies[c].msg.id != s.proc.jobs[0].msg.id
  {
    assert At(s, Job(0)).Some?;
    NotQueued(s, Job(0), c);
  }

  lemma StaysFinal(cfg: Config, s: State, step: Step, c: nat)
    requires Enabled(cfg, s, step) && IsQuietStep(step) && c < s.broker.nextCopy
    requires c in s.broker.copies && c in Apply(cfg, s, step).broker.copies
    requires step.Settle? ==> s.broker.copies[c].at != Unacked(s.proc.workers[step.worker].delivery.tag)
    ensures var after := Apply(cfg, s, step).broker.copies[c].at;
            after.Done? || after.Dead? ==> after == s.broker.copies[c].at
  {
  }

  lemma EndStep(cfg: Config, s: State, step: Step, verdict: Verdict)
    requires Ending(cfg, s, verdict) && Enabled(cfg, s, step) && IsQuietStep(step) && Follows(s, step, verdict)
    ensures AllEndRight(cfg, Apply(cfg, s, step), verdict)
  {
    var t := Apply(cfg, s, step);
    forall c | c in t.broker.copies
      ensures EndsRight(cfg, t, c, verdict)
    {
      if c !in s.broker.copies {
        NewCopy(cfg, s, step, c);
        if step.RetryPublish? { RetriedRight(cfg, s, step.worker, verdict); }
      } else if step.Settle? && s.broker.copies[c].at == Unacked(s.proc.workers[step.worker].delivery.tag) {
        SettledRight(cfg, s, step.worker, step.outcome, c, verdict);
      } else {
        OthersRight(cfg, s, step, c, verdict);
      }
    }
  }

  /** Over every run without losses in which the callbacks keep to their verdicts. */
  lemma {:induction false} EndRun(cfg: Config, s: State, steps: seq<Step>, verdict: Verdict)
    requires Inv(cfg, s) && Quiet(cfg, s) && AllEndRight(cfg, s, verdict)
    requires IsRun(cfg, s, steps) && AllFollow(cfg, s, steps, verdict)
    requires After(cfg, s, steps).past.quiet && cfg.maxRetries <= MAX_INT32
    ensures AllEndRight(cfg, After(cfg, s, steps), verdict)
    decreases |steps|
  {
    if steps != [] {
      var t := Apply(cfg, s, steps[0]);
      InvStep(cfg, s, steps[0]);
      QuietStep(cfg, s, steps[0]);
      QuietBefore(cfg, t, steps[1..]);
      StaysQuiet(cfg, s, steps[0]);
      EndStep(cfg, s, steps[0], verdict);
      EndRun(cfg, t, steps[1..], verdict);
    }
  }

  /** From an empty queue: whatever has ended by now has ended right. */
  lemma WhatEndedIsRight(cfg: Config, steps: seq<Step>, verdict: Verdict)
    requires IsRun(cfg, Initial(cfg), steps) && AllFollow(cfg, Initial(cfg), steps, verdict)
    requires After(cfg, Initial(cfg), steps).past.quiet && cfg.maxRetries <= MAX_INT32
    ensures AllEndRight(cfg, After(cfg, Initial(cfg), steps), verdict)
  {
    InitialInv(cfg);
    InitialQuiet(cfg);
    EndRun(cfg, Initial(cfg), steps, verdict);
  }

  /** The message has a copy that is done or dead, and has been run as often as its verdict asks for. */
  ghost predicate HasEnded(cfg: Config, s: State, id: nat, verdict: Verdict) {
    exists c ::
      && c in s.broker.copies && s.broker.copies[c].msg.id == id
      && (s.broker.copies[c].at.Done? || s.broker.copies[c].at.Dead?) && EndsRight(cfg, s, c, verdict)
  }

  lemma EndedOnceIdle(cfg: Config, s: State, id: nat, verdict: Verdict)
    requires AllKept(s) && AllEndRight(cfg, s, verdict) && !Pending(s) && id in s.past.first
    ensures HasEnded(cfg, s, id, verdict)
  {
    var c :| c in s.broker.copies && s.broker.copies[c].msg.id == id;
    assert EndsRight(cfg, s, c, verdict);
  }

  lemma {:induction false} FollowConcat(cfg: Config, s: State, first: seq<Step>, then': seq<Step>, verdict: Verdict)
    requires IsRun(cfg, s, first) && AllFollow(cfg, s, first, verdict)
    requires IsRun(cfg, After(cfg, s, first), then') && AllFollow(cfg, After(cfg, s, first), then', verdict)
    ensures IsRun(cfg, s, first + then') && AllFollow(cfg, s, first + then', verdict)
    decreases |first|
  {
    RunConcat(cfg, s, first, then');
    if first == [] {
      assert first + then' == then';
    } else {
      assert (first + then')[1..] == first[1..] + then';
      FollowConcat(cfg, Apply(cfg, s, first[0]), first[1..], then', verdict);
    }
  }

  /** And every run without losses, in which nobody asked to stop, can be continued until every message that ever
      arrived has ended right. */
  lemma EveryMessageEnds(cfg: Config, steps: seq<Step>, verdict: Verdict) returns (more: seq<Step>)
    requires IsRun(cfg, Initial(cfg), steps) && AllFollow(cfg, Initial(cfg), steps, verdict)
    requires var s := After(cfg, Initial(cfg), steps); s.past.quiet && !s.proc.done
    requires cfg.workers > 0 && cfg.maxRetries <= MAX_INT32 && forall id :: !verdict(id).NoHandler?
    ensures WorksOff(cfg, After(cfg, Initial(cfg), steps), more, verdict)
    ensures var s := After(cfg, Initial(cfg), steps);
            var t := After(cfg, s, more);
            forall id | id in s.past.first ::
                 id in t.past.first && t.past.first[id] == s.past.first[id] && HasEnded(cfg, t, id, verdict)
  {
    var s := After(cfg, Initial(cfg), steps);
    assert Reachable(cfg, s);
    ReachableQuiet(cfg, s);
    ReachableConsuming(cfg, s);
    more := Drains(cfg, s, verdict);
    var t := After(cfg, s, more);
    FollowConcat(cfg, Initial(cfg), steps, more, verdict);
    RunConcat(cfg, Initial(cfg), steps, more);
    WhatEndedIsRight(cfg, steps + more, verdict);
    InvRun(cfg, s, more);
    forall id | id in s.past.first
      ensures id in t.past.first && t.past.first[id] == s.past.first[id] && HasEnded(cfg, t, id, verdict)
    {
      FirstStays(cfg, s, more, id);
      EndedOnceIdle(cfg, t, id, verdict);
    }
  }

  lemma {:induction false} FirstStays(cfg: Config, s: State, steps: seq<Step>, id: nat)
    requires IsRun(cfg, s, steps) && id in s.past.first
    ensures id in After(cfg, s, steps).past.first && After(cfg, s, steps).past.first[id] == s.past.first[id]
    decreases |steps|
  {
    if steps != [] {
      FirstStep(cfg, s, steps[0], id);
      FirstStays(cfg, Apply(cfg, s, steps[0]), steps[1..], id);
    }
  }

  lemma FirstStep(cfg: Config, s: State, step: Step, id: nat)
    requires Enabled(cfg, s, step) && id in s.past.first
    ensures id in Apply(cfg, s, step).past.first && Apply(cfg, s, step).past.first[id] == s.past.first[id]
  {
  }

  // ---------------------------------------------------------------- what ends a message

  predicate IsEnded(s: State, c: nat) {
    c in s.broker.copies && (s.broker.copies[c].at.Done? || s.broker.copies[c].at.Dead?)
  }

  /** A worker acks the copy's delivery after a success, or nacks it for good: without a handler, after a panic or a
      permanent error, or after a transient one at the limit. */
  predicate Ends(cfg: Config, s: State, step: Step, c: nat) {
    && step.Settle? && IsRunning(s, step.worker) && c in s.broker.copies
    && s.broker.copies[c].at == Unacked(s.proc.workers[step.worker].delivery.tag)
    && (step.outcome.NoHandler? <==> s.proc.workers[step.worker].delivery.msg.key !in cfg.handlers)
    && (step.outcome.TransientError? ==> cfg.maxRetries <= Attempts(s, step.worker))
  }

  /** Nothing else ends a message, in particular no lost session, refused retry, crash or restart, and what has ended
      stays as it is. */
  lemma OnlySettlingEnds(cfg: Config, s: State, step: Step, c: nat)
    requires Enabled(cfg, s, step) && c < s.broker.nextCopy
    ensures IsEnded(s, c) ==> IsEnded(Apply(cfg, s, step), c)
                              && Apply(cfg, s, step).broker.copies[c] == s.broker.copies[c]
    ensures !IsEnded(s, c) && IsEnded(Apply(cfg, s, step), c) ==>
              Ends(cfg, s, step, c)
              && Apply(cfg, s, step).broker.copies[c].at == (if step.outcome.Success? then Done else Dead)
  {
  }

  lemma NewIsNotEnded(cfg: Config, s: State, step: Step, c: nat)
    requires Enabled(cfg, s, step) && c !in s.broker.copies
    ensures !IsEnded(Apply(cfg, s, step), c)
  {
  }

  /** Step `k` of the run ended the copy, and made of it what its outcome says. */
  ghost predicate SettledIn(cfg: Config, s: State, steps: seq<Step>, k: nat, c: nat, at: Location) {
    && k < |steps| && IsRun(cfg, s, steps[..k]) && Ends(cfg, After(cfg, s, steps[..k]), steps[k], c)
    && at == (if steps[k].outcome.Success? then Done else Dead)
  }

  /** So in every run, lossy or not, a copy that is done or dead at the end was acked or nacked by a worker in some
      step, and is what that worker's outcome made it. */
  lemma {:induction false} EndedWasSettled(cfg: Config, s: State, steps: seq<Step>, c: nat) returns (k: nat)
    requires Inv(cfg, s) && IsRun(cfg, s, steps) && !IsEnded(s, c) && IsEnded(After(cfg, s, steps), c)
    ensures SettledIn(cfg, s, steps, k, c, After(cfg, s, steps).broker.copies[c].at)
    decreases |steps|
  {
    var t, at := Apply(cfg, s, steps[0]), After(cfg, s, steps).broker.copies[c].at;
    InvStep(cfg, s, steps[0]);
    if IsEnded(t, c) {
      StaysEnded(cfg, t, steps[1..], c);
      SettledFirst(cfg, s, steps, c, at);
      k := 0;
    } else {
      var j := EndedWasSettled(cfg, t, steps[1..], c);
      SettledLater(cfg, s, steps, j, c, at);
      k := j + 1;
    }
  }

  lemma SettledFirst(cfg: Config, s: State, steps: seq<Step>, c: nat, at: Location)
    requires CopiesKnown(s) && steps != [] && Enabled(cfg, s, steps[0])
    requires !IsEnded(s, c) && IsEnded(Apply(cfg, s, steps[0]), c)
    requires Apply(cfg, s, steps[0]).broker.copies[c].at == at
    ensures SettledIn(cfg, s, steps, 0, c, at)
  {
    FirstEnds(cfg, s, steps[0], c);
    assert steps[..0] == [] && IsRun(cfg, s, []);
  }

  lemma SettledLater(cfg: Config, s: State, steps: seq<Step>, j: nat, c: nat, at: Location)
    requires steps != [] && Enabled(cfg, s, steps[0])
    requires SettledIn(cfg, Apply(cfg, s, steps[0]), steps[1..], j, c, at)
    ensures SettledIn(cfg, s, steps, j + 1, c, at)
  {
    assert steps[..j + 1] == [steps[0]] + steps[1..][..j];
    StepThen(cfg, s, steps[0], steps[1..][..j]);
  }

  lemma FirstEnds(cfg: Config, s: State, step: Step, c: nat)
    requires CopiesKnown(s) && Enabled(cfg, s, step) && !IsEnded(s, c) && IsEnded(Apply(cfg, s, step), c)
    ensures Ends(cfg, s, step, c)
    ensures Apply(cfg, s, step).broker.copies[c].at == (if step.outcome.Success? then Done else Dead)
  {
    if c !in s.broker.copies { NewIsNotEnded(cfg, s, step, c); } else { OnlySettlingEnds(cfg, s, step, c); }
  }

  lemma {:induction false} StaysEnded(cfg: Config, s: State, steps: seq<Step>, c: nat)
    requires Inv(cfg, s) && IsRun(cfg, s, steps) && IsEnded(s, c)
    ensures IsEnded(After(cfg, s, steps), c) && After(cfg, s, steps).broker.copies[c] == s.broker.copies[c]
    decreases |steps|
  {
    if steps != [] {
      InvStep(cfg, s, steps[0]);
      OnlySettlingEnds(cfg, s, steps[0], c);
      StaysEnded(cfg, Apply(cfg, s, steps[0]), steps[1..], c);
    }
  }

  // ---------------------------------------------------------------- contents

  /** The same message, but for its retry count. */
  predicate SameButCount(msg: Msg, sent: Msg) {
    && msg.id == sent.id && msg.key == sent.key
    && msg.headers - {RETRY_COUNT_KEY} == sent.headers - {RETRY_COUNT_KEY}
  }

  /** Every copy and every delivery carries what was sent under its id. */
  ghost predicate AsSent(s: State, sent: nat -> Msg) {
    && (forall c | c in s.broker.copies :: SameButCount(s.broker.copies[c].msg, sent(s.broker.copies[c].msg.id)))
    && (forall p | At(s, p).Some? :: SameButCount(At(s, p).value.msg, sent(At(s, p).value.msg.id)))
  }

  predicate Sends(step: Step, sent: nat -> Msg) { step.Arrive? ==> step.msg == sent(step.msg.id) }

  lemma AsSentStep(cfg: Config, s: State, step: Step, sent: nat -> Msg)
    requires Inv(cfg, s) && AsSent(s, sent) && Enabled(cfg, s, step) && Sends(step, sent)
    ensures AsSent(Apply(cfg, s, step), sent)
  {
    var t := Apply(cfg, s, step);
    forall c | c in t.broker.copies
      ensures SameButCount(t.broker.copies[c].msg, sent(t.broker.copies[c].msg.id))
    {
      if c in s.broker.copies { CopiesStay(cfg, s, step, c); } else { NewAsSent(cfg, s, step, sent, c); }
    }
    forall p | At(t, p).Some?
      ensures SameButCount(At(t, p).value.msg, sent(At(t, p).value.msg.id))
    {
      HeldAsSent(cfg, s, step, sent, p);
    }
  }

  lemma NewAsSent(cfg: Config, s: State, step: Step, sent: nat -> Msg, c: nat)
    requires Shape(cfg, s) && CopiesKnown(s) && HeldKnown(s) && HeldBacked(s) && AsSent(s, sent)
    requires Enabled(cfg, s, step) && Sends(step, sent)
    requires c in Apply(cfg, s, step).broker.copies && c !in s.broker.copies
    ensures var msg := Apply(cfg, s, step).broker.copies[c].msg; SameButCount(msg, sent(msg.id))
  {
    NewCopy(cfg, s, step, c);
    if step.RetryPublish? { RetryAsSent(cfg, s, step.worker, sent); }
  }

  lemma RetryAsSent(cfg: Config, s: State, w: nat, sent: nat -> Msg)
    requires AsSent(s, sent) && Enabled(cfg, s, RetryPublish(w))
    ensures var msg := Apply(cfg, s, RetryPublish(w)).broker.copies[s.broker.nextCopy].msg;
            SameButCount(msg, sent(msg.id))
  {
    assert At(s, Pool(w)).Some?;
    var msg := s.proc.workers[w].delivery.msg;
    assert Stamped(msg.headers, Attempts(s, w) + 1) - {RETRY_COUNT_KEY} == msg.headers - {RETRY_COUNT_KEY};
  }

  lemma HeldAsSent(cfg: Config, s: State, step: Step, sent: nat -> Msg, p: Place)
    requires Shape(cfg, s) && AsSent(s, sent) && Enabled(cfg, s, step) && At(Apply(cfg, s, step), p).Some?
    ensures var msg := At(Apply(cfg, s, step), p).value.msg; SameButCount(msg, sent(msg.id))
  {
    if !IsNew(s, step, p) { Moves(cfg, s, step, p); }
  }

  /** Over every run, lossy or not: a copy differs from the message that arrived under its id in the retry count
      alone. */
  lemma {:induction false} ContentsKept(cfg: Config, s: State, steps: seq<Step>, sent: nat -> Msg)
    requires Inv(cfg, s) && AsSent(s, sent) && IsRun(cfg, s, steps)
    requires forall i | 0 <= i < |steps| :: Sends(steps[i], sent)
    ensures AsSent(After(cfg, s, steps), sent)
    decreases |steps|
  {
    if steps != [] {
      InvStep(cfg, s, steps[0]);
      AsSentStep(cfg, s, steps[0], sent);
      ContentsKept(cfg, Apply(cfg, s, steps[0]), steps[1..], sent);
    }
  }

  lemma ContentsKeptFromStart(cfg: Config, steps: seq<Step>, sent: nat -> Msg)
    requires IsRun(cfg, Initial(cfg), steps) && forall i | 0 <= i < |steps| :: Sends(steps[i], sent)
    ensures AsSent(After(cfg, Initial(cfg), steps), sent)
  {
    InitialInv(cfg);
    InitialAsSent(cfg, sent);
    ContentsKept(cfg, Initial(cfg), steps, sent);
  }

  lemma InitialAsSent(cfg: Config, sent: nat -> Msg)
    ensures AsSent(Initial(cfg), sent)
  {
  }
}
