/** How many live copies a message has: one when it arrives, and one more for each step that duplicates it. */
module ConsumerCopies {
  import opened Wrappers
  import opened Consumer
  import opened ConsumerInvariant

  /** A copy of a message, but not the one that a pending retry ack is about to remove. */
  ghost predicate LiveCopy(s: State, id: nat, c: nat) {
    c in s.broker.copies && s.broker.copies[c].msg.id == id && !Superseded(s, c)
  }

  ghost function Live(s: State, id: nat): set<nat> { set c | c in s.broker.copies && LiveCopy(s, id, c) }

  /** Worker `w` has published a retry and not yet acked its original, which was delivered by an open session. */
  predicate AckPending(s: State, w: nat) {
    s.proc.lockedBy == Some(w) && IsRunning(s, w) && s.proc.workers[w].delivery.tag.session in s.broker.open
  }

  /** The three ways to duplicate a message: a retry is published for a delivery whose session is gone, so that
      the original is queued again as well, or the session is lost, or the process dies, between a retry publish
      and the ack that follows it. */
  predicate Duplicates(s: State, step: Step, id: nat) {
    match step
    case RetryPublish(w) =>
      && IsRunning(s, w) && s.proc.workers[w].delivery.msg.id == id
      && s.proc.workers[w].delivery.tag.session !in s.broker.open
    case LoseSession(n) =>
      && s.proc.lockedBy.Some? && AckPending(s, s.proc.lockedBy.value)
      && s.proc.workers[s.proc.lockedBy.value].delivery.msg.id == id
      && s.proc.workers[s.proc.lockedBy.value].delivery.tag.session == n
    case Kill =>
      && s.proc.lockedBy.Some? && AckPending(s, s.proc.lockedBy.value)
      && s.proc.workers[s.proc.lockedBy.value].delivery.msg.id == id
    case _ => false
  }

  predicate Brings(step: Step, id: nat) { step.Arrive? && step.msg.id == id }

  ghost predicate Known(cfg: Config, s: State) {
    Shape(cfg, s) && HeldOnce(s) && HeldKnown(s) && HeldBacked(s) && CopiesKnown(s)
  }

  /** No copy is unacked under the tag of a closed session. */
  lemma NoneUnder(cfg: Config, s: State, tag: Tag)
    requires Known(cfg, s) && tag.session !in s.broker.open
    ensures forall c | c in s.broker.copies :: s.broker.copies[c].at != Unacked(tag)
  {
  }

  /** The copy behind a worker's delivery. */
  lemma Behind(cfg: Config, s: State, w: nat) returns (c: nat)
    requires Known(cfg, s) && IsRunning(s, w) && s.proc.workers[w].delivery.tag.session in s.broker.open
    ensures var d := s.proc.workers[w].delivery;
            && c in s.broker.copies && s.broker.copies[c] == Copy(d.msg, Unacked(d.tag))
            && forall e | e in s.broker.copies && s.broker.copies[e].at == Unacked(d.tag) :: e == c
  {
    var d := s.proc.workers[w].delivery;
    assert At(s, Pool(w)) == Some(d);
    assert Backed(s, d);
    c :| c in s.broker.copies && s.broker.copies[c] == Copy(d.msg, Unacked(d.tag));
  }

  predicate Under(s: State, c: nat, tag: Tag) { c in s.broker.copies && s.broker.copies[c].at == Unacked(tag) }

  lemma PublishedCopy(cfg: Config, s: State, w: nat, id: nat, c: nat)
    requires CopiesKnown(s) && Enabled(cfg, s, RetryPublish(w))
    ensures var d := s.proc.workers[w].delivery;
            LiveCopy(Apply(cfg, s, RetryPublish(w)), id, c) <==>
              if c == s.broker.nextCopy then d.msg.id == id else LiveCopy(s, id, c) && !Under(s, c, d.tag)
  {
  }

  /** What counting needs to know of a step. */
  lemma LiveDiffers(s: State, t: State, id: nat, gone: set<nat>, come: set<nat>)
    requires forall c :: LiveCopy(t, id, c) <==> c in come || (LiveCopy(s, id, c) && c !in gone)
    requires (forall c | c in gone :: LiveCopy(s, id, c)) && forall c | c in come :: !LiveCopy(s, id, c)
    ensures |Live(t, id)| == |Live(s, id)| - |gone| + |come|
  {
    var before, after := Live(s, id), Live(t, id);
    assert gone <= before && come !! before;
    assert after == (before - gone) + come;
  }

  lemma PublishLive(cfg: Config, s: State, w: nat, id: nat)
    requires Known(cfg, s) && Enabled(cfg, s, RetryPublish(w))
    ensures |Live(Apply(cfg, s, RetryPublish(w)), id)| ==
            |Live(s, id)| + (if Duplicates(s, RetryPublish(w), id) then 1 else 0)
  {
    var t, n, d := Apply(cfg, s, RetryPublish(w)), s.broker.nextCopy, s.proc.workers[w].delivery;
    forall c
      ensures LiveCopy(t, id, c) <==> if c == n then d.msg.id == id else LiveCopy(s, id, c) && !Under(s, c, d.tag)
    {
      PublishedCopy(cfg, s, w, id, c);
    }
    assert !LiveCopy(s, id, n);
    var gone := {};
    if d.tag.session in s.broker.open {
      var c := Behind(cfg, s, w);
      if d.msg.id == id { gone := {c}; }
    } else {
      NoneUnder(cfg, s, d.tag);
    }
    LiveDiffers(s, t, id, gone, if d.msg.id == id then {n} else {});
  }

  /** A lost session or a dead process leaves all copies of its deliveries live. */
  lemma LostCopy(cfg: Config, s: State, step: Step, id: nat, c: nat)
    requires Known(cfg, s) && Enabled(cfg, s, step) && (step.Kill? || step.LoseSession? || step.RetryOnNilChannel?)
    ensures LiveCopy(Apply(cfg, s, step), id, c) <==> c in s.broker.copies && s.broker.copies[c].msg.id == id
  {
  }

  lemma LossLive(cfg: Config, s: State, step: Step, id: nat)
    requires Known(cfg, s) && Enabled(cfg, s, step) && (step.Kill? || step.LoseSession? || step.RetryOnNilChannel?)
    ensures |Live(Apply(cfg, s, step), id)| == |Live(s, id)| + (if Duplicates(s, step, id) then 1 else 0)
  {
    var t := Apply(cfg, s, step);
    forall c
      ensures LiveCopy(t, id, c) <==> c in s.broker.copies && s.broker.copies[c].msg.id == id
    {
      LostCopy(cfg, s, step, id, c);
    }
    var come := {};
    if s.proc.lockedBy.Some? && AckPending(s, s.proc.lockedBy.value) {
      var c := Behind(cfg, s, s.proc.lockedBy.value);
      if s.broker.copies[c].msg.id == id { come := {c}; }
    }
    LiveDiffers(s, t, id, {}, come);
  }

  /** No other step but an arrival makes or ends a live copy. */
  lemma SameCopies(cfg: Config, s: State, step: Step, id: nat, c: nat)
    requires Known(cfg, s) && Enabled(cfg, s, step)
    requires !step.Kill? && !step.LoseSession? && !step.RetryOnNilChannel? && !step.RetryPublish?
    ensures LiveCopy(Apply(cfg, s, step), id, c) <==> LiveCopy(s, id, c) || (Brings(step, id) && c == s.broker.nextCopy)
  {
    if c in s.broker.copies {
      SameOldCopy(cfg, s, step, id, c);
    } else if c in Apply(cfg, s, step).broker.copies {
      NewCopy(cfg, s, step, c);
    }
  }

  lemma SameOldCopy(cfg: Config, s: State, step: Step, id: nat, c: nat)
    requires Known(cfg, s) && Enabled(cfg, s, step) && c in s.broker.copies
    requires !step.Kill? && !step.LoseSession? && !step.RetryOnNilChannel? && !step.RetryPublish?
    ensures LiveCopy(Apply(cfg, s, step), id, c) <==> LiveCopy(s, id, c)
  {
    CopiesStay(cfg, s, step, c);
    if s.proc.lockedBy.Some? && IsRunning(s, s.proc.lockedBy.value) {
      var tag := s.proc.workers[s.proc.lockedBy.value].delivery.tag;
      assert Holds(s, Pool(s.proc.lockedBy.value), tag);
      if s.broker.copies[c].at != Unacked(tag) { NotUnder(cfg, s, step, c, tag); }
    }
  }

  lemma LiveStep(cfg: Config, s: State, step: Step, id: nat)
    requires Known(cfg, s) && Enabled(cfg, s, step)
    ensures |Live(Apply(cfg, s, step), id)| ==
            |Live(s, id)| + (if Duplicates(s, step, id) || Brings(step, id) then 1 else 0)
  {
    if step.RetryPublish? {
      PublishLive(cfg, s, step.worker, id);
    } else if step.Kill? || step.LoseSession? || step.RetryOnNilChannel? {
      LossLive(cfg, s, step, id);
    } else {
      forall c
        ensures LiveCopy(Apply(cfg, s, step), id, c) <==>
                LiveCopy(s, id, c) || (Brings(step, id) && c == s.broker.nextCopy)
      {
        SameCopies(cfg, s, step, id, c);
      }
      LiveDiffers(s, Apply(cfg, s, step), id, {}, if Brings(step, id) then {s.broker.nextCopy} else {});
    }
  }

  // ---------------------------------------------------------------- runs

  /** How often a run duplicates a message. */
  function Duplications(cfg: Config, s: State, steps: seq<Step>, id: nat): nat
    requires IsRun(cfg, s, steps)
    decreases |steps|
  {
    if steps == [] then 0
    else (if Duplicates(s, steps[0], id) then 1 else 0) + Duplications(cfg, Apply(cfg, s, steps[0]), steps[1..], id)
  }

  function Arrived(s: State, id: nat): nat { if id in s.past.first then 1 else 0 }

  lemma ArrivedStep(cfg: Config, s: State, step: Step, id: nat)
    requires Enabled(cfg, s, step)
    ensures Arrived(Apply(cfg, s, step), id) == Arrived(s, id) + (if Brings(step, id) then 1 else 0)
  {
  }

  /** Conservation: over every run the live copies of a message change by its arrival and its duplications. */
  lemma {:induction false} LiveRun(cfg: Config, s: State, steps: seq<Step>, id: nat)
    requires Inv(cfg, s) && IsRun(cfg, s, steps)
    ensures |Live(After(cfg, s, steps), id)| + Arrived(s, id) ==
            |Live(s, id)| + Arrived(After(cfg, s, steps), id) + Duplications(cfg, s, steps, id)
    decreases |steps|
  {
    if steps != [] {
      var t := Apply(cfg, s, steps[0]);
      InvStep(cfg, s, steps[0]);
      LiveStep(cfg, s, steps[0], id);
      ArrivedStep(cfg, s, steps[0], id);
      LiveRun(cfg, t, steps[1..], id);
    }
  }

  // ---------------------------------------------------------------- runs that keep their session

  /** No session is lost or closed, and the process is not killed. */
  predicate KeepsSession(step: Step) { !step.LoseSession? && !step.CloseChannel? && !step.Kill? }

  predicate KeepSession(steps: seq<Step>) { steps == [] || (KeepsSession(steps[0]) && KeepSession(steps[1..])) }

  ghost predicate Fresh(s: State, p: Place) { At(s, p).Some? && At(s, p).value.tag.session in s.broker.open }

  /** The stored channel is open, and all that the process holds was delivered by it. */
  ghost predicate Attached(s: State) {
    && s.proc.alive && s.proc.channel.Some? && s.proc.channel.value in s.broker.open
    && forall p :: At(s, p).Some? ==> Fresh(s, p)
  }

  lemma AttachedStep(cfg: Config, s: State, step: Step)
    requires Shape(cfg, s) && Attached(s) && Enabled(cfg, s, step) && KeepsSession(step)
    ensures Attached(Apply(cfg, s, step))
  {
    var t := Apply(cfg, s, step);
    forall p | At(t, p).Some?
      ensures Fresh(t, p)
    {
      if !IsNew(s, step, p) {
        Moves(cfg, s, step, p);
        assert Fresh(s, Origin(s, step, p));
      }
    }
  }

  lemma AttachedNeverDuplicates(cfg: Config, s: State, step: Step, id: nat)
    requires Attached(s) && Enabled(cfg, s, step) && KeepsSession(step)
    ensures !Duplicates(s, step, id)
  {
    if step.RetryPublish? { assert Fresh(s, Pool(step.worker)); }
  }

  lemma {:induction false} AttachedRun(cfg: Config, s: State, steps: seq<Step>, id: nat)
    requires Inv(cfg, s) && Attached(s) && IsRun(cfg, s, steps) && KeepSession(steps)
    ensures Attached(After(cfg, s, steps)) && Duplications(cfg, s, steps, id) == 0
    decreases |steps|
  {
    if steps != [] {
      InvStep(cfg, s, steps[0]);
      AttachedStep(cfg, s, steps[0]);
      AttachedNeverDuplicates(cfg, s, steps[0], id);
      AttachedRun(cfg, Apply(cfg, s, steps[0]), steps[1..], id);
    }
  }

  lemma InitialAttached(cfg: Config)
    ensures Attached(Initial(cfg)) && forall id :: Live(Initial(cfg), id) == {} && Arrived(Initial(cfg), id) == 0
  {
  }
}
