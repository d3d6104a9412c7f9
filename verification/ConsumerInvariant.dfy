/** What every reachable state of the consumer satisfies. */
module ConsumerInvariant {
  import opened Wrappers
  import opened Consumer

  /** The places in the process where a delivery can be. */
  datatype Place = Inbox(i: nat) | Hand | Job(i: nat) | Pool(w: nat)

  function At(s: State, p: Place): Option<Delivery> {
    match p
    case Inbox(i) => if i < |s.proc.inbox| then Some(s.proc.inbox[i]) else None
    case Hand => s.proc.hand
    case Job(i) => if i < |s.proc.jobs| then Some(s.proc.jobs[i]) else None
    case Pool(w) => if IsRunning(s, w) then Some(s.proc.workers[w].delivery) else None
  }

  predicate Holds(s: State, p: Place, tag: Tag) { At(s, p).Some? && At(s, p).value.tag == tag }

  ghost predicate HasCopy(copies: map<nat, Copy>, id: nat) { exists c :: c in copies && copies[c].msg.id == id }

  ghost predicate Backed(s: State, d: Delivery) {
    exists c :: c in s.broker.copies && s.broker.copies[c] == Copy(d.msg, Unacked(d.tag))
  }

  predicate Issued(s: State, tag: Tag) {
    tag.session < s.broker.nextSession && (tag.session == s.broker.nextSession - 1 ==> tag.number < s.broker.nextNumber)
  }

  /** The worker between its retry publish and its ack holds `opMu`; its original is about to go. */
  predicate Superseded(s: State, c: nat)
    requires c in s.broker.copies
  {
    && s.proc.lockedBy.Some? && IsRunning(s, s.proc.lockedBy.value)
    && s.broker.copies[c].at == Unacked(s.proc.workers[s.proc.lockedBy.value].delivery.tag)
  }

  // ---------------------------------------------------------------- shape of the process

  /** The channel and the loop. */
  predicate LoopShape(s: State) {
    && s.broker.open <= (if s.proc.channel.Some? then {s.proc.channel.value} else {})
    && (s.proc.channel.Some? ==> s.proc.channel.value == s.broker.nextSession - 1)
    && (s.proc.loop.Top? || s.proc.loop.Connecting? ==> s.proc.channel.None? && s.proc.hand.None? && s.proc.inbox == [])
    && (s.proc.loop.Consuming? ==> s.proc.loop.session == s.broker.nextSession - 1)
    && (s.proc.loop.Stopped? ==> s.proc.hand.None?)
    && (s.proc.jobsClosed <==> s.proc.loop.Stopped?)
    && (!s.proc.alive ==> s.proc.loop.Stopped? && s.proc.channel.None?)
  }

  /** The `jobs` channel and the pool. */
  ghost predicate PoolShape(cfg: Config, s: State) {
    && |s.proc.workers| == cfg.workers
    && |s.proc.jobs| <= cfg.workers
    && (s.proc.lockedBy.Some? ==> IsRunning(s, s.proc.lockedBy.value))
    && (!s.proc.alive ==> s.proc.jobs == [] && forall w | 0 <= w < |s.proc.workers| :: s.proc.workers[w].Exited?)
    && (forall w | 0 <= w < |s.proc.workers| :: s.proc.workers[w].Exited? ==> s.proc.jobsClosed && s.proc.jobs == [])
  }

  ghost predicate Shape(cfg: Config, s: State) { LoopShape(s) && PoolShape(cfg, s) }

  // ---------------------------------------------------------------- deliveries

  ghost predicate HeldOnce(s: State) {
    forall p, q, tag :: Holds(s, p, tag) && Holds(s, q, tag) ==> p == q
  }

  ghost predicate HeldKnown(s: State) {
    forall p, tag :: Holds(s, p, tag) ==>
      Issued(s, tag) && tag !in s.past.settled && At(s, p).value.msg.id in s.past.first
  }

  ghost predicate HeldBacked(s: State) {
    forall p :: At(s, p).Some? && At(s, p).value.tag.session in s.broker.open ==> Backed(s, At(s, p).value)
  }

  ghost predicate InPipeline(s: State, tag: Tag) {
    exists p: Place :: (p.Job? || p.Pool?) && Holds(s, p, tag)
  }

  /** What went into `jobs` is still on its way or has had its one ack or nack. */
  ghost predicate Accounted(s: State) {
    && (forall tag :: tag in s.past.accepted ==> tag in s.past.settled || InPipeline(s, tag))
    && (forall tag :: tag in s.past.settled ==> tag in s.past.accepted && Issued(s, tag))
    && (forall p: Place, tag: Tag :: (p.Job? || p.Pool?) && Holds(s, p, tag) ==> tag in s.past.accepted)
  }

  // ---------------------------------------------------------------- copies

  ghost predicate CopiesKnown(s: State) {
    && (forall c :: c in s.broker.copies ==> c < s.broker.nextCopy && s.broker.copies[c].msg.id in s.past.first)
    && s.past.runs.Keys == s.past.first.Keys
    && (forall c :: c in s.broker.copies && s.broker.copies[c].at.Unacked? ==>
          Issued(s, s.broker.copies[c].at.tag) && s.broker.copies[c].at.tag.session in s.broker.open)
    && (forall c, e :: c in s.broker.copies && e in s.broker.copies
                       && s.broker.copies[c].at.Unacked? && s.broker.copies[c].at == s.broker.copies[e].at
          ==> c == e)
  }

  ghost predicate RetryStored(s: State) {
    s.proc.lockedBy.Some? && IsRunning(s, s.proc.lockedBy.value) ==>
      var d := s.proc.workers[s.proc.lockedBy.value].delivery;
      exists c :: && c in s.broker.copies
                  && s.broker.copies[c].msg.id == d.msg.id && s.broker.copies[c].at != Unacked(d.tag)
  }

  ghost predicate AllKept(s: State) {
    forall id :: id in s.past.first ==> HasCopy(s.broker.copies, id)
  }

  ghost predicate Inv(cfg: Config, s: State) {
    && Shape(cfg, s)
    && HeldOnce(s) && HeldKnown(s) && HeldBacked(s) && Accounted(s)
    && CopiesKnown(s) && RetryStored(s) && AllKept(s)
  }

  lemma InitialInv(cfg: Config)
    ensures Inv(cfg, Initial(cfg))
  {
  }

  /** The steps of a worker. */
  predicate IsWorkerStep(step: Step) {
    step.Take? || step.Settle? || step.RetryPublish? || step.RetryAck? || step.RetryRefused? || step.Exit?
  }

  /** A worker's step changes no other worker. */
  lemma OtherWorkers(cfg: Config, s: State, step: Step)
    requires Enabled(cfg, s, step) && IsWorkerStep(step)
    ensures var t := Apply(cfg, s, step);
            && step.worker < |s.proc.workers| == |t.proc.workers|
            && (forall w | 0 <= w < |s.proc.workers| && w != step.worker :: t.proc.workers[w] == s.proc.workers[w])
            && t.proc.alive == s.proc.alive && t.proc.jobsClosed == s.proc.jobsClosed
  {
  }

  lemma LoopShapeWorker(cfg: Config, s: State, step: Step)
    requires LoopShape(s) && Enabled(cfg, s, step) && IsWorkerStep(step)
    ensures LoopShape(Apply(cfg, s, step))
  {
  }

  lemma LoopShapeOther(cfg: Config, s: State, step: Step)
    requires LoopShape(s) && Enabled(cfg, s, step) && !IsWorkerStep(step)
    ensures LoopShape(Apply(cfg, s, step))
  {
  }

  lemma PoolShapeWorker(cfg: Config, s: State, step: Step)
    requires PoolShape(cfg, s) && Enabled(cfg, s, step) && IsWorkerStep(step)
    ensures PoolShape(cfg, Apply(cfg, s, step))
  {
    OtherWorkers(cfg, s, step);
    var t := Apply(cfg, s, step);
    assert step.Exit? || !t.proc.workers[step.worker].Exited?;
  }

  lemma PoolShapeOther(cfg: Config, s: State, step: Step)
    requires Shape(cfg, s) && Enabled(cfg, s, step) && !IsWorkerStep(step)
    ensures PoolShape(cfg, Apply(cfg, s, step))
  {
  }

  lemma ShapeStep(cfg: Config, s: State, step: Step)
    requires Shape(cfg, s) && Enabled(cfg, s, step)
    ensures Shape(cfg, Apply(cfg, s, step))
  {
    if IsWorkerStep(step) {
      LoopShapeWorker(cfg, s, step);
      PoolShapeWorker(cfg, s, step);
    } else {
      LoopShapeOther(cfg, s, step);
      PoolShapeOther(cfg, s, step);
    }
  }

  /** Where the delivery at place `p` after a step was before it. */
  function Origin(s: State, step: Step, p: Place): Place {
    match step
    case Receive => (match p case Hand => Inbox(0) case Inbox(i) => Inbox(i + 1) case _ => p)
    case Enqueue => if p == Job(|s.proc.jobs|) then Hand else p
    case Take(w) => if p == Pool(w) then Job(0) else if p.Job? then Job(p.i + 1) else p
    case _ => p
  }

  predicate IsNew(s: State, step: Step, p: Place) { step.Deliver? && p == Inbox(|s.proc.inbox|) }

  lemma WorkerMoves(cfg: Config, s: State, step: Step, p: Place)
    requires Enabled(cfg, s, step) && IsWorkerStep(step) && At(Apply(cfg, s, step), p).Some?
    ensures At(s, Origin(s, step, p)) == At(Apply(cfg, s, step), p)
  {
    OtherWorkers(cfg, s, step);
  }

  lemma OtherMoves(cfg: Config, s: State, step: Step, p: Place)
    requires PoolShape(cfg, s) && Enabled(cfg, s, step) && !IsWorkerStep(step)
    requires At(Apply(cfg, s, step), p).Some? && !IsNew(s, step, p)
    ensures At(s, Origin(s, step, p)) == At(Apply(cfg, s, step), p)
  {
  }

  /** No step invents or copies a delivery: only `Deliver` brings one in. */
  lemma Moves(cfg: Config, s: State, step: Step, p: Place)
    requires Shape(cfg, s) && Enabled(cfg, s, step)
    requires At(Apply(cfg, s, step), p).Some? && !IsNew(s, step, p)
    ensures At(s, Origin(s, step, p)) == At(Apply(cfg, s, step), p)
  {
    if IsWorkerStep(step) { WorkerMoves(cfg, s, step, p); } else { OtherMoves(cfg, s, step, p); }
  }

  lemma OriginsDiffer(cfg: Config, s: State, step: Step, p: Place, q: Place)
    requires Shape(cfg, s) && Enabled(cfg, s, step) && p != q
    requires At(Apply(cfg, s, step), p).Some? && At(Apply(cfg, s, step), q).Some?
    ensures Origin(s, step, p) != Origin(s, step, q)
  {
  }

  lemma HeldOnceStep(cfg: Config, s: State, step: Step)
    requires Inv(cfg, s) && Enabled(cfg, s, step)
    ensures HeldOnce(Apply(cfg, s, step))
  {
    var t := Apply(cfg, s, step);
    forall p, q, tag | Holds(t, p, tag) && Holds(t, q, tag) && p != q
      ensures false
    {
      OriginsDiffer(cfg, s, step, p, q);
      if !IsNew(s, step, p) { Moves(cfg, s, step, p); assert Holds(s, Origin(s, step, p), tag); }
      if !IsNew(s, step, q) { Moves(cfg, s, step, q); assert Holds(s, Origin(s, step, q), tag); }
    }
  }

  lemma HeldKnownStep(cfg: Config, s: State, step: Step)
    requires Shape(cfg, s) && HeldOnce(s) && HeldKnown(s) && Accounted(s) && CopiesKnown(s) && Enabled(cfg, s, step)
    ensures HeldKnown(Apply(cfg, s, step))
  {
    var t := Apply(cfg, s, step);
    forall p, tag | Holds(t, p, tag)
      ensures Issued(t, tag) && tag !in t.past.settled && At(t, p).value.msg.id in t.past.first
    {
      if IsNew(s, step, p) {
        assert tag == Tag(s.proc.channel.value, s.broker.nextNumber);
      } else {
        Moves(cfg, s, step, p);
        assert Holds(s, Origin(s, step, p), tag);
        if tag in t.past.settled { NewlySettled(cfg, s, step, tag); }
      }
    }
  }

  lemma NewlySettled(cfg: Config, s: State, step: Step, tag: Tag)
    requires Enabled(cfg, s, step) && tag in Apply(cfg, s, step).past.settled && tag !in s.past.settled
    ensures step.Settle? || step.RetryAck? || step.RetryRefused?
    ensures Holds(s, Pool(step.worker), tag)
    ensures !IsRunning(Apply(cfg, s, step), step.worker)
  {
  }

  /** A step keeps every copy's message; only the ack that follows a stored retry removes a copy. */
  lemma CopiesStay(cfg: Config, s: State, step: Step, c: nat)
    requires Enabled(cfg, s, step) && c in s.broker.copies && c < s.broker.nextCopy
    ensures var t := Apply(cfg, s, step);
            if c in t.broker.copies then t.broker.copies[c].msg == s.broker.copies[c].msg
            else step.RetryAck? && s.broker.copies[c].at == Unacked(s.proc.workers[step.worker].delivery.tag)
  {
  }

  /** The tags whose copies a step may touch. */
  predicate Touches(s: State, step: Step, tag: Tag) {
    match step
    case LoseSession(session) => tag.session == session
    case Settle(w, _) => Holds(s, Pool(w), tag)
    case RetryAck(w) => Holds(s, Pool(w), tag)
    case RetryRefused(w) => Holds(s, Pool(w), tag)
    case CloseChannel => true
    case RetryOnNilChannel(_) => true
    case Kill => true
    case _ => false
  }

  lemma Untouched(cfg: Config, s: State, step: Step, c: nat)
    requires Shape(cfg, s) && Enabled(cfg, s, step) && c in s.broker.copies && c < s.broker.nextCopy
    requires s.broker.copies[c].at.Unacked? && s.broker.copies[c].at.tag.session in s.broker.open
    requires !Touches(s, step, s.broker.copies[c].at.tag)
    ensures c in Apply(cfg, s, step).broker.copies && Apply(cfg, s, step).broker.copies[c] == s.broker.copies[c]
  {
  }

  lemma HeldBackedStep(cfg: Config, s: State, step: Step)
    requires Shape(cfg, s) && HeldOnce(s) && HeldKnown(s) && HeldBacked(s) && CopiesKnown(s) && Enabled(cfg, s, step)
    ensures HeldBacked(Apply(cfg, s, step))
  {
    var t := Apply(cfg, s, step);
    forall p | At(t, p).Some? && At(t, p).value.tag.session in t.broker.open
      ensures Backed(t, At(t, p).value)
    {
      var d := At(t, p).value;
      if IsNew(s, step, p) {
        assert t.broker.copies[step.copy] == Copy(d.msg, Unacked(d.tag));
      } else {
        Moves(cfg, s, step, p);
        var o := Origin(s, step, p);
        assert Holds(s, o, d.tag);
        assert d.tag.session in s.broker.open;
        var c :| c in s.broker.copies && s.broker.copies[c] == Copy(d.msg, Unacked(d.tag));
        assert !Touches(s, step, d.tag);
        Untouched(cfg, s, step, c);
      }
    }
  }

  lemma AcceptedStep(cfg: Config, s: State, step: Step, p: Place, tag: Tag)
    requires Shape(cfg, s) && Accounted(s) && Enabled(cfg, s, step)
    requires (p.Job? || p.Pool?) && Holds(Apply(cfg, s, step), p, tag)
    ensures tag in Apply(cfg, s, step).past.accepted
  {
    Moves(cfg, s, step, p);
    assert Holds(s, Origin(s, step, p), tag);
  }

  lemma SettledStep(cfg: Config, s: State, step: Step, tag: Tag)
    requires Shape(cfg, s) && HeldKnown(s) && Accounted(s) && Enabled(cfg, s, step)
    requires tag in Apply(cfg, s, step).past.settled
    ensures tag in Apply(cfg, s, step).past.accepted && Issued(Apply(cfg, s, step), tag)
  {
    if tag !in s.past.settled { NewlySettled(cfg, s, step, tag); }
  }

  lemma AccountedStep(cfg: Config, s: State, step: Step)
    requires Shape(cfg, s) && HeldKnown(s) && Accounted(s) && Enabled(cfg, s, step)
    ensures Accounted(Apply(cfg, s, step))
  {
    var t := Apply(cfg, s, step);
    forall p: Place, tag: Tag | (p.Job? || p.Pool?) && Holds(t, p, tag)
      ensures tag in t.past.accepted
    {
      AcceptedStep(cfg, s, step, p, tag);
    }
    forall tag | tag in t.past.settled
      ensures tag in t.past.accepted && Issued(t, tag)
    {
      SettledStep(cfg, s, step, tag);
    }
    forall tag | tag in t.past.accepted && tag !in t.past.settled
      ensures InPipeline(t, tag)
    {
      StaysInPipeline(cfg, s, step, tag);
    }
  }

  lemma StaysInPipeline(cfg: Config, s: State, step: Step, tag: Tag)
    requires Shape(cfg, s) && Enabled(cfg, s, step)
    requires tag in s.past.accepted && tag !in s.past.settled ==> InPipeline(s, tag)
    requires tag in Apply(cfg, s, step).past.accepted && tag !in Apply(cfg, s, step).past.settled
    ensures InPipeline(Apply(cfg, s, step), tag)
  {
    if tag in s.past.accepted {
      var p: Place :| (p.Job? || p.Pool?) && Holds(s, p, tag);
      Forward(cfg, s, step, p);
      assert Holds(Apply(cfg, s, step), Next(step, p), tag);
    } else {
      assert Holds(Apply(cfg, s, step), Job(|s.proc.jobs|), tag);
    }
  }

  /** Where a delivery in the pipeline is after a step that does not settle it. */
  function Next(step: Step, p: Place): Place {
    if !step.Take? || !p.Job? then p else if p.i == 0 then Pool(step.worker) else Job(p.i - 1)
  }

  lemma Forward(cfg: Config, s: State, step: Step, p: Place)
    requires Shape(cfg, s) && Enabled(cfg, s, step) && (p.Job? || p.Pool?) && At(s, p).Some?
    requires At(s, p).value.tag in Apply(cfg, s, step).past.accepted
    requires At(s, p).value.tag !in Apply(cfg, s, step).past.settled
    ensures At(Apply(cfg, s, step), Next(step, p)) == At(s, p)
  {
  }

  lemma CopiesKnownStep(cfg: Config, s: State, step: Step)
    requires Shape(cfg, s) && CopiesKnown(s) && HeldKnown(s) && HeldBacked(s) && Enabled(cfg, s, step)
    ensures CopiesKnown(Apply(cfg, s, step))
  {
    var t := Apply(cfg, s, step);
    forall c | c in t.broker.copies
      ensures c < t.broker.nextCopy && t.broker.copies[c].msg.id in t.past.first
    {
      if c in s.broker.copies { CopiesStay(cfg, s, step, c); } else { NewCopy(cfg, s, step, c); }
    }
    forall c | c in t.broker.copies && t.broker.copies[c].at.Unacked?
      ensures Issued(t, t.broker.copies[c].at.tag) && t.broker.copies[c].at.tag.session in t.broker.open
    {
      OldTag(cfg, s, step, c);
    }
    forall c, e | c in t.broker.copies && e in t.broker.copies
                  && t.broker.copies[c].at.Unacked? && t.broker.copies[c].at == t.broker.copies[e].at
      ensures c == e
    {
      OldTag(cfg, s, step, c);
      OldTag(cfg, s, step, e);
    }
  }

  lemma NewCopy(cfg: Config, s: State, step: Step, c: nat)
    requires Shape(cfg, s) && CopiesKnown(s) && HeldKnown(s) && HeldBacked(s) && Enabled(cfg, s, step)
    requires c in Apply(cfg, s, step).broker.copies && c !in s.broker.copies
    ensures step.Arrive? || step.RetryPublish?
    ensures var t := Apply(cfg, s, step);
            && c == s.broker.nextCopy && t.broker.nextCopy == c + 1
            && t.broker.copies[c].msg.id in t.past.first && !t.broker.copies[c].at.Unacked?
  {
    if step.RetryPublish? { assert Holds(s, Pool(step.worker), s.proc.workers[step.worker].delivery.tag); }
  }

  /** A copy that is unacked after a step was so before, under the same tag, unless just delivered. */
  lemma OldTag(cfg: Config, s: State, step: Step, c: nat)
    requires Shape(cfg, s) && CopiesKnown(s) && HeldKnown(s) && HeldBacked(s) && Enabled(cfg, s, step)
    requires c in Apply(cfg, s, step).broker.copies && Apply(cfg, s, step).broker.copies[c].at.Unacked?
    ensures var t := Apply(cfg, s, step);
            && Issued(t, t.broker.copies[c].at.tag) && t.broker.copies[c].at.tag.session in t.broker.open
            && (if step == Deliver(c) then t.broker.copies[c].at.tag == Tag(s.proc.channel.value, s.broker.nextNumber)
                else c in s.broker.copies && s.broker.copies[c] == t.broker.copies[c])
  {
    if c !in s.broker.copies { NewCopy(cfg, s, step, c); }
    StillIssued(cfg, s, step, c);
  }

  lemma StillIssued(cfg: Config, s: State, step: Step, c: nat)
    requires Shape(cfg, s) && CopiesKnown(s) && Enabled(cfg, s, step)
    requires c in s.broker.copies && c in Apply(cfg, s, step).broker.copies
    requires Apply(cfg, s, step).broker.copies[c].at.Unacked?
    ensures var t := Apply(cfg, s, step);
            && Issued(t, t.broker.copies[c].at.tag) && t.broker.copies[c].at.tag.session in t.broker.open
            && (if step == Deliver(c) then t.broker.copies[c].at.tag == Tag(s.proc.channel.value, s.broker.nextNumber)
                else s.broker.copies[c] == t.broker.copies[c])
  {
    var t := Apply(cfg, s, step);
    if step != Deliver(c) {
      SameCopy(cfg, s, step, c);
      var tag := s.broker.copies[c].at.tag;
      assert Issued(s, tag) && tag.session in s.broker.open;
      StillOpen(cfg, s, step, c);
    }
  }

  lemma SameCopy(cfg: Config, s: State, step: Step, c: nat)
    requires Enabled(cfg, s, step) && step != Deliver(c)
    requires (step.Arrive? || step.RetryPublish? ==> c != s.broker.nextCopy)
    requires c in s.broker.copies && c in Apply(cfg, s, step).broker.copies
    requires Apply(cfg, s, step).broker.copies[c].at.Unacked?
    ensures s.broker.copies[c] == Apply(cfg, s, step).broker.copies[c]
  {
  }

  lemma StillOpen(cfg: Config, s: State, step: Step, c: nat)
    requires Shape(cfg, s) && Enabled(cfg, s, step)
    requires c in s.broker.copies && s.broker.copies[c].at.Unacked?
    requires Issued(s, s.broker.copies[c].at.tag) && s.broker.copies[c].at.tag.session in s.broker.open
    requires c in Apply(cfg, s, step).broker.copies && Apply(cfg, s, step).broker.copies[c] == s.broker.copies[c]
    ensures Issued(Apply(cfg, s, step), s.broker.copies[c].at.tag)
    ensures s.broker.copies[c].at.tag.session in Apply(cfg, s, step).broker.open
  {
  }

  lemma RetryStoredStep(cfg: Config, s: State, step: Step)
    requires Shape(cfg, s) && HeldKnown(s) && CopiesKnown(s) && RetryStored(s) && Enabled(cfg, s, step)
    ensures RetryStored(Apply(cfg, s, step))
  {
    var t := Apply(cfg, s, step);
    if t.proc.lockedBy.Some? && IsRunning(t, t.proc.lockedBy.value) {
      var d := t.proc.workers[t.proc.lockedBy.value].delivery;
      if step.RetryPublish? {
        assert s.broker.nextCopy in t.broker.copies;
      } else {
        assert Holds(s, Pool(s.proc.lockedBy.value), d.tag);
        var c :| && c in s.broker.copies
                 && s.broker.copies[c].msg.id == d.msg.id && s.broker.copies[c].at != Unacked(d.tag);
        CopiesStay(cfg, s, step, c);
        NotUnder(cfg, s, step, c, d.tag);
        assert c in t.broker.copies && t.broker.copies[c].msg.id == d.msg.id && t.broker.copies[c].at != Unacked(d.tag);
      }
    }
  }

  lemma NotUnder(cfg: Config, s: State, step: Step, c: nat, tag: Tag)
    requires Shape(cfg, s) && Enabled(cfg, s, step) && Issued(s, tag)
    requires c in s.broker.copies && s.broker.copies[c].at != Unacked(tag)
    ensures c in Apply(cfg, s, step).broker.copies ==> Apply(cfg, s, step).broker.copies[c].at != Unacked(tag)
  {
  }

  lemma AllKeptStep(cfg: Config, s: State, step: Step)
    requires Shape(cfg, s) && HeldBacked(s) && CopiesKnown(s) && RetryStored(s) && AllKept(s) && Enabled(cfg, s, step)
    ensures AllKept(Apply(cfg, s, step))
  {
    var t := Apply(cfg, s, step);
    forall id | id in t.past.first
      ensures HasCopy(t.broker.copies, id)
    {
      if id in s.past.first {
        var c :| c in s.broker.copies && s.broker.copies[c].msg.id == id;
        CopiesStay(cfg, s, step, c);
        if c !in t.broker.copies {
          var e := Replacement(cfg, s, step.worker, c);
          CopiesStay(cfg, s, step, e);
        }
      } else {
        assert t.broker.copies[s.broker.nextCopy].msg.id == id;
      }
    }
  }

  /** The copy that a retry stored before its original `c` is acked away. */
  lemma Replacement(cfg: Config, s: State, w: nat, c: nat) returns (e: nat)
    requires HeldBacked(s) && CopiesKnown(s) && RetryStored(s)
    requires s.proc.lockedBy == Some(w) && IsRunning(s, w)
    requires c in s.broker.copies && s.broker.copies[c].at == Unacked(s.proc.workers[w].delivery.tag)
    ensures e in s.broker.copies && s.broker.copies[e].msg.id == s.broker.copies[c].msg.id
    ensures s.broker.copies[e].at != s.broker.copies[c].at
  {
    var d := s.proc.workers[w].delivery;
    assert At(s, Pool(w)) == Some(d);
    assert Backed(s, d);
    e :| e in s.broker.copies && s.broker.copies[e].msg.id == d.msg.id && s.broker.copies[e].at != Unacked(d.tag);
  }

  lemma InvStep(cfg: Config, s: State, step: Step)
    requires Inv(cfg, s) && Enabled(cfg, s, step)
    ensures Inv(cfg, Apply(cfg, s, step))
  {
    ShapeStep(cfg, s, step);
    HeldOnceStep(cfg, s, step);
    HeldKnownStep(cfg, s, step);
    HeldBackedStep(cfg, s, step);
    AccountedStep(cfg, s, step);
    CopiesKnownStep(cfg, s, step);
    RetryStoredStep(cfg, s, step);
    AllKeptStep(cfg, s, step);
  }

  lemma {:induction false} InvRun(cfg: Config, s: State, steps: seq<Step>)
    requires Inv(cfg, s) && IsRun(cfg, s, steps)
    ensures Inv(cfg, After(cfg, s, steps))
    decreases |steps|
  {
    if steps != [] {
      InvStep(cfg, s, steps[0]);
      InvRun(cfg, Apply(cfg, s, steps[0]), steps[1..]);
    }
  }
}
