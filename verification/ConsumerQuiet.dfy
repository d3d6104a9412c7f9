/** Runs in which no session is lost or closed, no process dies and no retry publish is refused: every
    message then has exactly one live copy, and its callback runs are exactly its retry count. */
module ConsumerQuiet {
  import opened Wrappers
  import opened RetryHeader
  import opened Consumer
  import opened ConsumerInvariant

  function Count(msg: Msg): nat { RetryCount(msg.headers) }

  function Max(a: int, b: int): int { if a > b then a else b }

  /** The process is up, on one open session, and all it holds was delivered by that session. */
  ghost predicate Steady(s: State) {
    && s.proc.alive && s.proc.channel.Some? && s.broker.open == {s.proc.channel.value}
    && forall p, tag :: Holds(s, p, tag) ==> tag.session == s.proc.channel.value
  }

  ghost predicate OneLive(s: State) {
    forall c, e | c in s.broker.copies && e in s.broker.copies && !Superseded(s, c) && !Superseded(s, e) ::
      s.broker.copies[c].msg.id == s.broker.copies[e].msg.id ==> c == e
  }

  ghost predicate AllHeld(s: State) {
    forall c :: c in s.broker.copies && s.broker.copies[c].at.Unacked? ==> IsHeld(s, s.broker.copies[c].at.tag)
  }

  ghost predicate IsHeld(s: State, tag: Tag) { exists p :: Holds(s, p, tag) }

  predicate Locks(s: State, p: Place) { p.Pool? && s.proc.lockedBy == Some(p.w) }

  /** What a message's callback has run so far, seen from its copy's retry count. */
  predicate RunsAre(s: State, msg: Msg, extra: nat) {
    && msg.id in s.past.first && msg.id in s.past.runs
    && s.past.runs[msg.id] == Count(msg) - s.past.first[msg.id] + extra
  }

  ghost predicate RunsMatch(cfg: Config, s: State) {
    && (forall c :: c in s.broker.copies && (s.broker.copies[c].at.Ready? || s.broker.copies[c].at.Waiting?)
          ==> RunsAre(s, s.broker.copies[c].msg, 0))
    && (forall p :: At(s, p).Some? && !Locks(s, p) ==>
          RunsAre(s, At(s, p).value.msg, if p.Pool? && At(s, p).value.msg.key in cfg.handlers then 1 else 0))
  }

  ghost predicate CountsBounded(cfg: Config, s: State) {
    && (forall c :: c in s.broker.copies && s.broker.copies[c].msg.id in s.past.first ==>
          CopyBounded(cfg, s, c))
    && (forall id :: id in s.past.first && id in s.past.runs ==>
          s.past.runs[id] <= Max(cfg.maxRetries - s.past.first[id], 0) + 1)
  }

  ghost predicate Quiet(cfg: Config, s: State) {
    s.past.quiet ==>
      && Steady(s) && OneLive(s) && (s.proc.loop.Consuming? ==> AllHeld(s))
      && (cfg.maxRetries <= MAX_INT32 ==> RunsMatch(cfg, s) && CountsBounded(cfg, s))
  }

  lemma InitialQuiet(cfg: Config)
    ensures Quiet(cfg, Initial(cfg))
  {
  }

  /** The steps a quiet run can take. */
  predicate IsQuietStep(step: Step) {
    || step.Arrive? || step.Deliver? || step.Expire? || step.Receive? || step.Enqueue? || step.Take?
    || step.Settle? || step.RetryPublish? || step.RetryAck? || step.SignalDone? || step.StopConsuming? || step.Exit?
  }

  lemma StaysQuiet(cfg: Config, s: State, step: Step)
    requires Shape(cfg, s) && Quiet(cfg, s) && Enabled(cfg, s, step) && Apply(cfg, s, step).past.quiet
    ensures s.past.quiet && IsQuietStep(step)
  {
  }

  lemma SteadyStep(cfg: Config, s: State, step: Step)
    requires Shape(cfg, s) && Steady(s) && Enabled(cfg, s, step) && IsQuietStep(step)
    ensures Steady(Apply(cfg, s, step))
  {
    forall p, tag | Holds(Apply(cfg, s, step), p, tag)
      ensures tag.session == s.proc.channel.value
    {
      if !IsNew(s, step, p) {
        Moves(cfg, s, step, p);
        assert Holds(s, Origin(s, step, p), tag);
      }
    }
  }

  lemma AllHeldStep(cfg: Config, s: State, step: Step)
    requires Shape(cfg, s) && CopiesKnown(s) && HeldKnown(s) && HeldBacked(s) && Steady(s) && AllHeld(s)
    requires Enabled(cfg, s, step) && IsQuietStep(step) && !step.StopConsuming?
    ensures AllHeld(Apply(cfg, s, step))
  {
    var t := Apply(cfg, s, step);
    forall c | c in t.broker.copies && t.broker.copies[c].at.Unacked?
      ensures IsHeld(t, t.broker.copies[c].at.tag)
    {
      var tag := t.broker.copies[c].at.tag;
      OldTag(cfg, s, step, c);
      if step == Deliver(c) {
        assert Holds(t, Inbox(|s.proc.inbox|), tag);
      } else {
        var p :| Holds(s, p, tag);
        NotReleased(cfg, s, step, c, p);
        Onward(cfg, s, step, p);
        assert Holds(t, NextPlace(s, step, p), tag);
      }
    }
  }

  /** A worker that gives up its delivery leaves no copy behind under that tag. */
  lemma NotReleased(cfg: Config, s: State, step: Step, c: nat, p: Place)
    requires Steady(s) && Enabled(cfg, s, step) && IsQuietStep(step)
    requires c in Apply(cfg, s, step).broker.copies && c in s.broker.copies
    requires Apply(cfg, s, step).broker.copies[c].at.Unacked?
    requires s.broker.copies[c] == Apply(cfg, s, step).broker.copies[c]
    requires Holds(s, p, s.broker.copies[c].at.tag)
    ensures !((step.Settle? || step.RetryAck?) && p == Pool(step.worker))
  {
  }

  function NextPlace(s: State, step: Step, p: Place): Place {
    match step
    case Receive => if p == Inbox(0) then Hand else if p.Inbox? then Inbox(AtLeastZero(p.i - 1)) else p
    case Enqueue => if p.Hand? then Job(|s.proc.jobs|) else p
    case Take(w) => Next(step, p)
    case _ => p
  }

  lemma Onward(cfg: Config, s: State, step: Step, p: Place)
    requires Enabled(cfg, s, step) && IsQuietStep(step) && !step.StopConsuming? && At(s, p).Some?
    requires !((step.Settle? || step.RetryAck?) && p == Pool(step.worker))
    ensures At(Apply(cfg, s, step), NextPlace(s, step, p)) == At(s, p)
  {
  }

  /** The copy behind a held delivery. */
  lemma Backing(s: State, p: Place) returns (c: nat)
    requires HeldBacked(s) && Steady(s) && At(s, p).Some?
    ensures c in s.broker.copies && s.broker.copies[c] == Copy(At(s, p).value.msg, Unacked(At(s, p).value.tag))
  {
    var d := At(s, p).value;
    assert Holds(s, p, d.tag);
    assert Backed(s, d);
    c :| c in s.broker.copies && s.broker.copies[c] == Copy(d.msg, Unacked(d.tag));
  }

  /** Two held deliveries of one message are the same delivery, unless a retry ack is pending. */
  lemma SameDelivery(s: State, p: Place, q: Place)
    requires HeldOnce(s) && HeldBacked(s) && Steady(s) && OneLive(s)
    requires At(s, p).Some? && At(s, q).Some? && !Locks(s, p) && !Locks(s, q)
    requires At(s, p).value.msg.id == At(s, q).value.msg.id
    ensures p == q
  {
    var c := Backing(s, p);
    var e := Backing(s, q);
    assert !Superseded(s, c) by { NotLocked(s, p, c); }
    assert !Superseded(s, e) by { NotLocked(s, q, e); }
    assert Holds(s, q, At(s, p).value.tag);
    assert Holds(s, p, At(s, p).value.tag);
  }

  lemma NotLocked(s: State, p: Place, c: nat)
    requires HeldOnce(s) && At(s, p).Some? && !Locks(s, p)
    requires c in s.broker.copies && s.broker.copies[c].at == Unacked(At(s, p).value.tag)
    ensures !Superseded(s, c)
  {
    if Superseded(s, c) {
      var tag := At(s, p).value.tag;
      assert Holds(s, p, tag) && Holds(s, Pool(s.proc.lockedBy.value), tag);
    }
  }

  /** A held delivery's message is not queued as well, unless a retry ack is pending. */
  lemma NotQueued(s: State, p: Place, c: nat)
    requires HeldOnce(s) && HeldBacked(s) && Steady(s) && OneLive(s)
    requires At(s, p).Some? && !Locks(s, p) && c in s.broker.copies && !s.broker.copies[c].at.Unacked?
    ensures s.broker.copies[c].msg.id != At(s, p).value.msg.id
  {
    var e := Backing(s, p);
    NotLocked(s, p, e);
  }

  lemma SupersededStep(cfg: Config, s: State, step: Step, c: nat)
    requires Shape(cfg, s) && HeldKnown(s) && Steady(s) && Enabled(cfg, s, step) && IsQuietStep(step)
    requires c in s.broker.copies && c in Apply(cfg, s, step).broker.copies && c < s.broker.nextCopy
    ensures Superseded(s, c) ==> Superseded(Apply(cfg, s, step), c)
    ensures !Superseded(s, c) && Superseded(Apply(cfg, s, step), c) ==>
              step.RetryPublish? && s.broker.copies[c].at == Unacked(s.proc.workers[step.worker].delivery.tag)
  {
    if s.proc.lockedBy.Some? {
      assert Holds(s, Pool(s.proc.lockedBy.value), s.proc.workers[s.proc.lockedBy.value].delivery.tag);
    }
  }

  lemma OneLiveStep(cfg: Config, s: State, step: Step)
    requires Shape(cfg, s) && HeldKnown(s) && HeldBacked(s) && CopiesKnown(s) && Steady(s) && OneLive(s)
    requires Enabled(cfg, s, step) && IsQuietStep(step)
    ensures OneLive(Apply(cfg, s, step))
  {
    var t := Apply(cfg, s, step);
    forall c, e | c in t.broker.copies && e in t.broker.copies && !Superseded(t, c) && !Superseded(t, e)
                  && t.broker.copies[c].msg.id == t.broker.copies[e].msg.id
      ensures c == e
    {
      if c in s.broker.copies && e in s.broker.copies {
        CopiesStay(cfg, s, step, c);
        CopiesStay(cfg, s, step, e);
        SupersededStep(cfg, s, step, c);
        SupersededStep(cfg, s, step, e);
      } else if c in s.broker.copies {
        OnlyNew(cfg, s, step, c, e);
      } else if e in s.broker.copies {
        OnlyNew(cfg, s, step, e, c);
      } else {
        NewCopy(cfg, s, step, c);
        NewCopy(cfg, s, step, e);
      }
    }
  }

  /** A copy that a step adds is the only live one of its message. */
  lemma OnlyNew(cfg: Config, s: State, step: Step, old': nat, new': nat)
    requires Shape(cfg, s) && HeldKnown(s) && HeldBacked(s) && CopiesKnown(s) && Steady(s) && OneLive(s)
    requires Enabled(cfg, s, step) && IsQuietStep(step)
    requires old' in s.broker.copies && old' in Apply(cfg, s, step).broker.copies
    requires new' in Apply(cfg, s, step).broker.copies && new' !in s.broker.copies
    requires Apply(cfg, s, step).broker.copies[old'].msg.id == Apply(cfg, s, step).broker.copies[new'].msg.id
    ensures Superseded(Apply(cfg, s, step), old')
  {
    NewCopy(cfg, s, step, new');
    if step.RetryPublish? {
      var b := Backing(s, Pool(step.worker));
      assert !Superseded(s, b) && !Superseded(s, old');
      assert old' == b;
    }
  }

  lemma RunsMatchStep(cfg: Config, s: State, step: Step)
    requires Shape(cfg, s) && HeldOnce(s) && HeldBacked(s) && CopiesKnown(s)
    requires Steady(s) && OneLive(s) && RunsMatch(cfg, s)
    requires Enabled(cfg, s, step) && IsQuietStep(step) && cfg.maxRetries <= MAX_INT32
    ensures RunsMatch(cfg, Apply(cfg, s, step))
  {
    var t := Apply(cfg, s, step);
    forall c | c in t.broker.copies && (t.broker.copies[c].at.Ready? || t.broker.copies[c].at.Waiting?)
      ensures RunsAre(t, t.broker.copies[c].msg, 0)
    {
      QueuedRuns(cfg, s, step, c);
    }
    forall p | At(t, p).Some? && !Locks(t, p)
      ensures RunsAre(t, At(t, p).value.msg, if p.Pool? && At(t, p).value.msg.key in cfg.handlers then 1 else 0)
    {
      HeldRuns(cfg, s, step, p);
    }
  }

  /** What a step does to the run count of a message it does not start running. */
  lemma RunsFrame(cfg: Config, s: State, step: Step, msg: Msg)
    requires Enabled(cfg, s, step) && IsQuietStep(step) && msg.id in s.past.first && msg.id in s.past.runs
    requires step.Take? ==> s.proc.jobs[0].msg.id != msg.id
    ensures var t := Apply(cfg, s, step);
            && msg.id in t.past.first && msg.id in t.past.runs
            && t.past.first[msg.id] == s.past.first[msg.id] && t.past.runs[msg.id] == s.past.runs[msg.id]
  {
  }

  lemma QueuedRuns(cfg: Config, s: State, step: Step, c: nat)
    requires HeldOnce(s) && HeldBacked(s) && CopiesKnown(s) && Steady(s) && OneLive(s) && RunsMatch(cfg, s)
    requires Enabled(cfg, s, step) && IsQuietStep(step) && cfg.maxRetries <= MAX_INT32
    requires c in Apply(cfg, s, step).broker.copies
    requires Apply(cfg, s, step).broker.copies[c].at.Ready? || Apply(cfg, s, step).broker.copies[c].at.Waiting?
    ensures RunsAre(Apply(cfg, s, step), Apply(cfg, s, step).broker.copies[c].msg, 0)
  {
    if c in s.broker.copies {
      CopiesStay(cfg, s, step, c);
      StillQueued(cfg, s, step, c);
      if step.Take? { NotQueued(s, Job(0), c); }
      RunsFrame(cfg, s, step, s.broker.copies[c].msg);
    } else if step.RetryPublish? {
      RetriedRuns(cfg, s, step.worker);
    }
  }

  lemma RetriedRuns(cfg: Config, s: State, w: nat)
    requires RunsMatch(cfg, s) && Enabled(cfg, s, RetryPublish(w)) && cfg.maxRetries <= MAX_INT32
    ensures var t := Apply(cfg, s, RetryPublish(w));
            RunsAre(t, t.broker.copies[s.broker.nextCopy].msg, 0)
  {
    assert At(s, Pool(w)).Some? && !Locks(s, Pool(w));
    CountRises(s.proc.workers[w].delivery.msg.headers);
  }

  lemma StillQueued(cfg: Config, s: State, step: Step, c: nat)
    requires Enabled(cfg, s, step) && IsQuietStep(step) && c in s.broker.copies && c < s.broker.nextCopy
    requires c in Apply(cfg, s, step).broker.copies
    requires Apply(cfg, s, step).broker.copies[c].at.Ready? || Apply(cfg, s, step).broker.copies[c].at.Waiting?
    ensures s.broker.copies[c].at.Ready? || s.broker.copies[c].at.Waiting?
  {
  }

  lemma HeldRuns(cfg: Config, s: State, step: Step, p: Place)
    requires Shape(cfg, s) && HeldOnce(s) && HeldBacked(s) && Steady(s) && OneLive(s) && RunsMatch(cfg, s)
    requires Enabled(cfg, s, step) && IsQuietStep(step)
    requires At(Apply(cfg, s, step), p).Some? && !Locks(Apply(cfg, s, step), p)
    ensures var msg := At(Apply(cfg, s, step), p).value.msg;
            RunsAre(Apply(cfg, s, step), msg, if p.Pool? && msg.key in cfg.handlers then 1 else 0)
  {
    if IsNew(s, step, p) {
      RunsFrame(cfg, s, step, s.broker.copies[step.copy].msg);
    } else if step.Take? && p == Pool(step.worker) {
      assert !Locks(s, Job(0)) && At(s, Job(0)).Some?;
    } else {
      Moves(cfg, s, step, p);
      NotLockedBefore(cfg, s, step, p);
      StillRuns(cfg, s, step, Origin(s, step, p));
    }
  }

  lemma StillRuns(cfg: Config, s: State, step: Step, o: Place)
    requires HeldOnce(s) && HeldBacked(s) && Steady(s) && OneLive(s) && RunsMatch(cfg, s)
    requires Enabled(cfg, s, step) && IsQuietStep(step) && At(s, o).Some? && !Locks(s, o)
    requires step.Take? ==> o != Job(0)
    ensures var msg := At(s, o).value.msg;
            RunsAre(Apply(cfg, s, step), msg, if o.Pool? && msg.key in cfg.handlers then 1 else 0)
  {
    var msg := At(s, o).value.msg;
    if step.Take? && s.proc.jobs[0].msg.id == msg.id { SameDelivery(s, Job(0), o); }
    RunsFrame(cfg, s, step, msg);
  }

  lemma NotLockedBefore(cfg: Config, s: State, step: Step, p: Place)
    requires Shape(cfg, s) && Enabled(cfg, s, step) && IsQuietStep(step)
    requires At(Apply(cfg, s, step), p).Some? && !Locks(Apply(cfg, s, step), p) && !IsNew(s, step, p)
    ensures !Locks(s, Origin(s, step, p))
  {
  }

  predicate CopyBounded(cfg: Config, s: State, c: nat)
    requires c in s.broker.copies && s.broker.copies[c].msg.id in s.past.first
  {
    var first := s.past.first[s.broker.copies[c].msg.id];
    first <= Count(s.broker.copies[c].msg) <= Max(first, cfg.maxRetries)
  }

  lemma CountsBoundedStep(cfg: Config, s: State, step: Step)
    requires HeldBacked(s) && CopiesKnown(s) && Steady(s) && RunsMatch(cfg, s) && CountsBounded(cfg, s)
    requires Enabled(cfg, s, step) && IsQuietStep(step) && cfg.maxRetries <= MAX_INT32
    ensures CountsBounded(cfg, Apply(cfg, s, step))
  {
    var t := Apply(cfg, s, step);
    forall c | c in t.broker.copies && t.broker.copies[c].msg.id in t.past.first
      ensures CopyBounded(cfg, t, c)
    {
      CopyBoundedStep(cfg, s, step, c);
    }
    forall id | id in t.past.first && id in t.past.runs
      ensures t.past.runs[id] <= Max(cfg.maxRetries - t.past.first[id], 0) + 1
    {
      RunsBounded(cfg, s, step, id);
    }
  }

  lemma CopyBoundedStep(cfg: Config, s: State, step: Step, c: nat)
    requires HeldBacked(s) && CopiesKnown(s) && Steady(s) && CountsBounded(cfg, s)
    requires Enabled(cfg, s, step) && IsQuietStep(step) && cfg.maxRetries <= MAX_INT32
    requires c in Apply(cfg, s, step).broker.copies
    requires Apply(cfg, s, step).broker.copies[c].msg.id in Apply(cfg, s, step).past.first
    ensures CopyBounded(cfg, Apply(cfg, s, step), c)
  {
    if c in s.broker.copies {
      CopiesStay(cfg, s, step, c);
      RunsKept(cfg, s, step, s.broker.copies[c].msg.id);
    } else if step.RetryPublish? {
      RetryBounded(cfg, s, step.worker);
      assert c == s.broker.nextCopy;
    }
  }

  lemma RetryBounded(cfg: Config, s: State, w: nat)
    requires HeldBacked(s) && CopiesKnown(s) && Steady(s) && CountsBounded(cfg, s)
    requires Enabled(cfg, s, RetryPublish(w)) && cfg.maxRetries <= MAX_INT32
    ensures var t, c := Apply(cfg, s, RetryPublish(w)), s.broker.nextCopy;
            && c in t.broker.copies && t.broker.copies[c].msg.id in t.past.first
            && CopyBounded(cfg, t, c)
  {
    var b := Backing(s, Pool(w));
    assert CopyBounded(cfg, s, b);
    CountRises(s.broker.copies[b].msg.headers);
  }

  lemma RunsBounded(cfg: Config, s: State, step: Step, id: nat)
    requires HeldBacked(s) && CopiesKnown(s) && Steady(s) && RunsMatch(cfg, s) && CountsBounded(cfg, s)
    requires Enabled(cfg, s, step) && IsQuietStep(step)
    requires id in Apply(cfg, s, step).past.first && id in Apply(cfg, s, step).past.runs
    ensures var t := Apply(cfg, s, step);
            t.past.runs[id] <= Max(cfg.maxRetries - t.past.first[id], 0) + 1
  {
    if step.Take? && id == s.proc.jobs[0].msg.id {
      var b := Backing(s, Job(0));
      assert At(s, Job(0)).Some? && !Locks(s, Job(0));
      assert CopyBounded(cfg, s, b);
    } else if id in s.past.first {
      RunsKept(cfg, s, step, id);
    }
  }

  lemma RunsKept(cfg: Config, s: State, step: Step, id: nat)
    requires Enabled(cfg, s, step) && IsQuietStep(step) && id in s.past.first && id in s.past.runs
    ensures var t := Apply(cfg, s, step);
            && id in t.past.first && id in t.past.runs && t.past.first[id] == s.past.first[id]
            && ((step.Take? && s.proc.jobs[0].msg.id == id) || t.past.runs[id] == s.past.runs[id])
  {
  }

  lemma QuietStep(cfg: Config, s: State, step: Step)
    requires Inv(cfg, s) && Quiet(cfg, s) && Enabled(cfg, s, step)
    ensures Quiet(cfg, Apply(cfg, s, step))
  {
    if Apply(cfg, s, step).past.quiet {
      StaysQuiet(cfg, s, step);
      SteadyStep(cfg, s, step);
      OneLiveStep(cfg, s, step);
      if Apply(cfg, s, step).proc.loop.Consuming? { AllHeldStep(cfg, s, step); }
      if cfg.maxRetries <= MAX_INT32 {
        RunsMatchStep(cfg, s, step);
        CountsBoundedStep(cfg, s, step);
      }
    }
  }

  lemma {:induction false} QuietRun(cfg: Config, s: State, steps: seq<Step>)
    requires Inv(cfg, s) && Quiet(cfg, s) && IsRun(cfg, s, steps)
    ensures Inv(cfg, After(cfg, s, steps)) && Quiet(cfg, After(cfg, s, steps))
    decreases |steps|
  {
    if steps != [] {
      InvStep(cfg, s, steps[0]);
      QuietStep(cfg, s, steps[0]);
      QuietRun(cfg, Apply(cfg, s, steps[0]), steps[1..]);
    }
  }
}
