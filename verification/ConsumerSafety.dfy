/** What the consumer promises, over every run from an empty queue. */
module ConsumerSafety {
  import opened Wrappers
  import opened RetryHeader
  import opened Consumer
  import opened ConsumerInvariant
  import opened ConsumerQuiet
  import opened ConsumerProgress
  import opened ConsumerCopies

  ghost predicate Reachable(cfg: Config, s: State) {
    exists steps :: IsRun(cfg, Initial(cfg), steps) && After(cfg, Initial(cfg), steps) == s
  }

  lemma ReachableInv(cfg: Config, s: State)
    requires Reachable(cfg, s)
    ensures Inv(cfg, s)
  {
    var steps :| IsRun(cfg, Initial(cfg), steps) && After(cfg, Initial(cfg), steps) == s;
    InitialInv(cfg);
    InvRun(cfg, Initial(cfg), steps);
  }

  lemma ReachableQuiet(cfg: Config, s: State)
    requires Reachable(cfg, s)
    ensures Inv(cfg, s) && Quiet(cfg, s)
  {
    var steps :| IsRun(cfg, Initial(cfg), steps) && After(cfg, Initial(cfg), steps) == s;
    InitialInv(cfg);
    InitialQuiet(cfg);
    QuietRun(cfg, Initial(cfg), steps);
  }

  /** No message that ever arrived is lost: not by crashes, lost sessions, refused publishes or restarts. */
  lemma NothingLost(cfg: Config, s: State, id: nat)
    requires Reachable(cfg, s) && id in s.past.first
    ensures HasCopy(s.broker.copies, id)
  {
    ReachableInv(cfg, s);
  }

  /** In every run, lossy or not, a message has one live copy, and one more for each step that duplicated it. */
  lemma LiveCopiesCounted(cfg: Config, steps: seq<Step>, id: nat)
    requires IsRun(cfg, Initial(cfg), steps) && id in After(cfg, Initial(cfg), steps).past.first
    ensures |Live(After(cfg, Initial(cfg), steps), id)| == 1 + Duplications(cfg, Initial(cfg), steps, id)
  {
    InitialInv(cfg);
    InitialAttached(cfg);
    LiveRun(cfg, Initial(cfg), steps, id);
  }

  ghost predicate HasOneLiveCopy(s: State, id: nat) {
    exists c :: LiveCopy(s, id, c) && forall e :: LiveCopy(s, id, e) ==> e == c
  }

  /** So it has exactly one exactly if no step duplicated it, and in particular while no session is lost or closed
      and the process is not killed. */
  lemma ExactlyOneLiveCopy(cfg: Config, steps: seq<Step>, id: nat)
    requires IsRun(cfg, Initial(cfg), steps) && id in After(cfg, Initial(cfg), steps).past.first
    ensures HasOneLiveCopy(After(cfg, Initial(cfg), steps), id) <==> Duplications(cfg, Initial(cfg), steps, id) == 0
    ensures KeepSession(steps) ==> HasOneLiveCopy(After(cfg, Initial(cfg), steps), id)
  {
    var s := After(cfg, Initial(cfg), steps);
    LiveCopiesCounted(cfg, steps, id);
    OneLiveCopy(s, id);
    if KeepSession(steps) {
      InitialInv(cfg);
      InitialAttached(cfg);
      AttachedRun(cfg, Initial(cfg), steps, id);
    }
  }

  lemma Singleton(a: set<nat>)
    ensures |a| == 1 <==> exists c :: c in a && forall e :: e in a ==> e == c
  {
    if c :| c in a && forall e :: e in a ==> e == c {
      assert a == {c};
    }
    if |a| == 1 {
      var c :| c in a;
      assert |a - {c}| == 0;
      assert a == {c};
    }
  }

  lemma OneLiveCopy(s: State, id: nat)
    ensures HasOneLiveCopy(s, id) <==> |Live(s, id)| == 1
  {
    Singleton(Live(s, id));
    assert forall c :: c in Live(s, id) <==> LiveCopy(s, id, c);
  }

  /** While nothing was lost, a message that arrived with count n has its callback run at most
      max(maxRetries - n, 0) + 1 times. */
  lemma CallbackRunsBounded(cfg: Config, s: State, id: nat)
    requires Reachable(cfg, s) && s.past.quiet && id in s.past.first && cfg.maxRetries <= MAX_INT32
    ensures id in s.past.runs && s.past.runs[id] <= Max(cfg.maxRetries - s.past.first[id], 0) + 1
  {
    ReachableQuiet(cfg, s);
  }

  /** While nothing is lost, closed or refused and nobody asked to stop, a step that processes messages is enabled
      exactly as long as some message is neither done nor dead. */
  lemma WorkGoesOnExactlyWhilePending(cfg: Config, s: State)
    requires Reachable(cfg, s) && s.past.quiet && !s.proc.done && cfg.workers > 0
    ensures (exists step :: Enabled(cfg, s, step) && IsWork(step)) <==> Pending(s)
  {
    ReachableQuiet(cfg, s);
    ReachableConsuming(cfg, s);
    if Pending(s) {
      var step := NeverStuck(cfg, s, _ => Success);
    }
    forall step | Enabled(cfg, s, step) && IsWork(step)
      ensures Pending(s)
    {
      NothingLeft(cfg, s, step);
    }
  }

  lemma ReachableConsuming(cfg: Config, s: State)
    requires Reachable(cfg, s) && s.past.quiet && !s.proc.done
    ensures s.proc.loop.Consuming?
  {
    ReachableQuiet(cfg, s);
    var steps :| IsRun(cfg, Initial(cfg), steps) && After(cfg, Initial(cfg), steps) == s;
    StopsWhenDone(cfg, Initial(cfg), steps);
  }

  predicate Settles(step: Step) { step.Settle? || step.RetryAck? || step.RetryRefused? }

  /** An ack or nack takes effect on the copy that was delivered, wherever else the message may be; once
      the session is gone it changes nothing at all, in particular nothing of a later session. */
  lemma SettleHitsOwnCopy(cfg: Config, s: State, step: Step) returns (c: nat)
    requires Reachable(cfg, s) && Enabled(cfg, s, step) && Settles(step)
    ensures var d := s.proc.workers[step.worker].delivery;
            var t := Apply(cfg, s, step);
            if d.tag.session !in s.broker.open then t.broker.copies == s.broker.copies
            else
              && c in s.broker.copies && s.broker.copies[c] == Copy(d.msg, Unacked(d.tag))
              && t.broker.copies - {c} == s.broker.copies - {c}
              && match step
                 case RetryAck(_) => c !in t.broker.copies
                 case RetryRefused(_) => c in t.broker.copies && t.broker.copies[c] == Copy(d.msg, Ready)
                 case Settle(_, outcome) =>
                   c in t.broker.copies && t.broker.copies[c] == Copy(d.msg, if outcome.Success? then Done else Dead)
  {
    ReachableInv(cfg, s);
    var d := s.proc.workers[step.worker].delivery;
    c := 0;
    if d.tag.session in s.broker.open {
      assert At(s, Pool(step.worker)) == Some(d);
      assert Backed(s, d);
      c :| c in s.broker.copies && s.broker.copies[c] == Copy(d.msg, Unacked(d.tag));
      forall e | e in s.broker.copies && e != c
        ensures s.broker.copies[e].at != Unacked(d.tag)
      {
      }
    }
    SettleEffect(cfg, s, step, c);
  }

  /** `c` is the only copy under the tag that is settled, if the session is open. */
  lemma SettleEffect(cfg: Config, s: State, step: Step, c: nat)
    requires Enabled(cfg, s, step) && Settles(step)
    requires var d := s.proc.workers[step.worker].delivery;
             d.tag.session in s.broker.open ==>
               && c in s.broker.copies && s.broker.copies[c] == Copy(d.msg, Unacked(d.tag))
               && forall e | e in s.broker.copies && e != c :: s.broker.copies[e].at != Unacked(d.tag)
    ensures var d := s.proc.workers[step.worker].delivery;
            var t := Apply(cfg, s, step);
            if d.tag.session !in s.broker.open then t.broker.copies == s.broker.copies
            else
              && t.broker.copies - {c} == s.broker.copies - {c}
              && match step
                 case RetryAck(_) => c !in t.broker.copies
                 case RetryRefused(_) => c in t.broker.copies && t.broker.copies[c] == Copy(d.msg, Ready)
                 case Settle(_, outcome) =>
                   c in t.broker.copies && t.broker.copies[c] == Copy(d.msg, if outcome.Success? then Done else Dead)
  {
  }

  /** Each delivery gets at most one ack or nack call: no tag is settled twice by one process. */
  lemma OneCallPerDelivery(cfg: Config, s: State, step: Step)
    requires Reachable(cfg, s) && Enabled(cfg, s, step) && Settles(step)
    ensures var tag := s.proc.workers[step.worker].delivery.tag;
            tag in s.past.accepted && tag !in s.past.settled && tag in Apply(cfg, s, step).past.settled
  {
    ReachableInv(cfg, s);
    assert Holds(s, Pool(step.worker), s.proc.workers[step.worker].delivery.tag);
  }

  /** When the pool has drained after a close, every delivery that was put on `jobs` has had its call. */
  lemma DrainedPoolSettledAll(cfg: Config, s: State)
    requires Reachable(cfg, s) && s.proc.jobs == [] && forall w | 0 <= w < |s.proc.workers| :: s.proc.workers[w].Exited?
    ensures s.past.accepted == s.past.settled
  {
    ReachableInv(cfg, s);
    forall tag | tag in s.past.accepted
      ensures tag in s.past.settled
    {
      assert forall p: Place | p.Job? || p.Pool? :: At(s, p).None?;
    }
  }

  /** `jobs` is closed at most once, nothing is sent on it afterwards, and workers leave only then. */
  lemma NoSendAfterClose(cfg: Config, s: State, step: Step)
    requires Reachable(cfg, s) && s.proc.jobsClosed && Enabled(cfg, s, step) && !step.Restart?
    ensures !step.Enqueue? && !step.CheckDone? && !step.StopConsuming?
    ensures Apply(cfg, s, step).proc.jobsClosed && |Apply(cfg, s, step).proc.jobs| <= |s.proc.jobs|
  {
    ReachableInv(cfg, s);
  }

  // ---------------------------------------------------------------- prefetch

  ghost predicate Prefetched(cfg: Config, s: State) { |UnackedCopies(s.broker.copies)| <= cfg.workers }

  lemma SubsetSize<T>(a: set<T>, b: set<T>)
    requires a <= b
    ensures |a| <= |b|
  {
    assert b == a + (b - a);
  }

  lemma PrefetchedStep(cfg: Config, s: State, step: Step)
    requires Inv(cfg, s) && Prefetched(cfg, s) && Enabled(cfg, s, step)
    ensures Prefetched(cfg, Apply(cfg, s, step))
  {
    var before := UnackedCopies(s.broker.copies);
    var after := UnackedCopies(Apply(cfg, s, step).broker.copies);
    if step.Deliver? {
      assert after == before + {step.copy};
    } else {
      forall c | c in after
        ensures c in before
      {
        OldTag(cfg, s, step, c);
      }
      SubsetSize(after, before);
    }
  }

  lemma {:induction false} PrefetchedRun(cfg: Config, s: State, steps: seq<Step>)
    requires Inv(cfg, s) && Prefetched(cfg, s) && IsRun(cfg, s, steps)
    ensures Prefetched(cfg, After(cfg, s, steps))
    decreases |steps|
  {
    if steps != [] {
      InvStep(cfg, s, steps[0]);
      PrefetchedStep(cfg, s, steps[0]);
      PrefetchedRun(cfg, Apply(cfg, s, steps[0]), steps[1..]);
    }
  }

  /** Distinct places hold deliveries of distinct unacked copies. */
  lemma {:induction false} CopiesBehind(s: State, places: set<Place>) returns (behind: set<nat>)
    requires HeldOnce(s) && HeldBacked(s) && CopiesKnown(s) && forall p | p in places :: Fresh(s, p)
    ensures |behind| == |places|
    ensures forall c | c in behind :: c in s.broker.copies && s.broker.copies[c].at.Unacked?
              && exists p | p in places :: Holds(s, p, s.broker.copies[c].at.tag)
  {
    behind := {};
    if places != {} {
      var p :| p in places;
      var rest := CopiesBehind(s, places - {p});
      assert Backed(s, At(s, p).value);
      var c :| c in s.broker.copies && s.broker.copies[c] == Copy(At(s, p).value.msg, Unacked(At(s, p).value.tag));
      if c in rest {
        var q :| q in places - {p} && Holds(s, q, s.broker.copies[c].at.tag);
        assert Holds(s, p, s.broker.copies[c].at.tag);
        assert false;
      }
      behind := rest + {c};
      assert Holds(s, p, s.broker.copies[c].at.tag);
    }
  }

  /** In every run, lossy or not, the process as a whole (buffer, loop, `jobs` and pool) holds at most `workers`
      deliveries of the open session: the prefetch limit. */
  lemma HeldWithinPrefetch(cfg: Config, s: State, places: set<Place>)
    requires Reachable(cfg, s) && forall p | p in places :: Fresh(s, p)
    ensures |places| <= cfg.workers
  {
    ReachableInv(cfg, s);
    var steps :| IsRun(cfg, Initial(cfg), steps) && After(cfg, Initial(cfg), steps) == s;
    InitialInv(cfg);
    PrefetchedRun(cfg, Initial(cfg), steps);
    var behind := CopiesBehind(s, places);
    SubsetSize(behind, UnackedCopies(s.broker.copies));
  }

  /** While no session is lost or closed and the process is not killed, all that it holds is of the open session. */
  lemma AllHeldAreFresh(cfg: Config, steps: seq<Step>, p: Place)
    requires IsRun(cfg, Initial(cfg), steps) && KeepSession(steps)
    ensures At(After(cfg, Initial(cfg), steps), p).Some? ==> Fresh(After(cfg, Initial(cfg), steps), p)
  {
    InitialInv(cfg);
    InitialAttached(cfg);
    AttachedRun(cfg, Initial(cfg), steps, 0);
  }

  function JobPlaces(n: nat): set<Place> { set i | 0 <= i < n :: Job(i) }

  lemma {:induction false} JobPlacesSize(n: nat)
    ensures |JobPlaces(n)| == n
  {
    if n > 0 {
      JobPlacesSize(n - 1);
      assert JobPlaces(n) == JobPlaces(n - 1) + {Job(n - 1)};
    }
  }

  /** The loop has a delivery in hand, and that or one on `jobs` is of a session that is gone. */
  ghost predicate LoopHoldsStale(s: State) {
    exists p: Place :: (p.Hand? || p.Job?) && At(s, p).Some? && !Fresh(s, p)
  }

  lemma JobsWithinPrefetch(cfg: Config, s: State)
    requires Reachable(cfg, s) && s.proc.hand.Some? && !LoopHoldsStale(s)
    ensures |s.proc.jobs| + 1 <= cfg.workers
  {
    JobPlacesSize(|s.proc.jobs|);
    var places := JobPlaces(|s.proc.jobs|) + {Hand};
    forall p | p in places
      ensures Fresh(s, p)
    {
      assert At(s, p).Some?;
    }
    HeldWithinPrefetch(cfg, s, places);
  }

  /** So the consume loop only ever blocks on `jobs` because of a delivery of a lost session. */
  lemma LoopBlocksOnlyWhenStale(cfg: Config, s: State)
    requires Reachable(cfg, s) && s.proc.hand.Some? && !Enabled(cfg, s, Enqueue)
    ensures LoopHoldsStale(s)
  {
    ReachableInv(cfg, s);
    if !LoopHoldsStale(s) { JobsWithinPrefetch(cfg, s); }
  }

  /** And never while no session is lost or closed and the process is not killed. */
  lemma LoopNeverBlocks(cfg: Config, steps: seq<Step>)
    requires IsRun(cfg, Initial(cfg), steps) && KeepSession(steps)
    requires After(cfg, Initial(cfg), steps).proc.hand.Some?
    ensures Enabled(cfg, After(cfg, Initial(cfg), steps), Enqueue)
  {
    var s := After(cfg, Initial(cfg), steps);
    if !Enabled(cfg, s, Enqueue) {
      LoopBlocksOnlyWhenStale(cfg, s);
      var p: Place :| (p.Hand? || p.Job?) && At(s, p).Some? && !Fresh(s, p);
      AllHeldAreFresh(cfg, steps, p);
    }
  }

  function RunningCount(workers: seq<Worker>): nat {
    if workers == [] then 0
    else RunningCount(workers[..|workers| - 1]) + (if workers[|workers| - 1].Running? then 1 else 0)
  }

  /** In every run, lossy or not: at most `workers` callbacks run and at most 2 * workers + 1 deliveries
      have left the client library. */
  lemma BoundedConcurrency(cfg: Config, s: State)
    requires Reachable(cfg, s)
    ensures RunningCount(s.proc.workers) <= cfg.workers
    ensures |s.proc.jobs| + (if s.proc.hand.Some? then 1 else 0) + RunningCount(s.proc.workers) <= 2 * cfg.workers + 1
  {
    ReachableInv(cfg, s);
    RunningAtMost(s.proc.workers);
  }

  lemma {:induction false} RunningAtMost(workers: seq<Worker>)
    ensures RunningCount(workers) <= |workers|
    decreases |workers|
  {
    if workers != [] { RunningAtMost(workers[..|workers| - 1]); }
  }

  // ---------------------------------------------------------------- what loss can do

  /** A worker can dereference a nil channel, but only with a delivery whose session is gone already. */
  lemma NilChannelOnlyWhenStale(cfg: Config, s: State, w: nat)
    requires Reachable(cfg, s) && WantsRetry(cfg, s, w)
    ensures Enabled(cfg, s, RetryOnNilChannel(w)) <==> s.proc.channel.None?
    ensures Enabled(cfg, s, RetryOnNilChannel(w)) ==> s.proc.workers[w].delivery.tag.session !in s.broker.open
  {
    ReachableInv(cfg, s);
    if s.proc.channel.None? { NothingOpenOnNil(s); }
  }

  lemma NothingOpenOnNil(s: State)
    requires LoopShape(s) && s.proc.channel.None?
    ensures s.broker.open == {}
  {
  }

  const ONE_WORKER := Config(1, 1, {"report"})
  const REPORT := Msg(0, "report", map[])

  lemma Then(cfg: Config, s: State, step: Step) returns (t: State)
    requires Reachable(cfg, s) && Enabled(cfg, s, step)
    ensures t == Apply(cfg, s, step) && Reachable(cfg, t)
  {
    var steps :| IsRun(cfg, Initial(cfg), steps) && After(cfg, Initial(cfg), steps) == s;
    RunAppend(cfg, Initial(cfg), steps, step);
    t := Apply(cfg, s, step);
  }

  const FIRST_TAG := Tag(0, 1)
  const BUSY := [Running(Delivery(FIRST_TAG, REPORT))]
  const RAN_ONCE := Past(map[0 := 0], map[0 := 1], {FIRST_TAG}, {}, true)

  lemma AtQueue() returns (s: State)
    ensures Reachable(ONE_WORKER, s)
    ensures s == State(Broker(map[0 := Copy(REPORT, Ready)], 1, {0}, 1, 1),
                       Process(true, Some(0), false, Consuming(0), [], None, [], false, [Idle], None),
                       Past(map[0 := 0], map[0 := 0], {}, {}, true))
  {
    s := Initial(ONE_WORKER);
    assert IsRun(ONE_WORKER, s, []);
    s := Then(ONE_WORKER, s, Arrive(REPORT));
  }

  lemma AtInbox() returns (s: State)
    ensures Reachable(ONE_WORKER, s)
    ensures s == State(Broker(map[0 := Copy(REPORT, Unacked(FIRST_TAG))], 1, {0}, 1, 2),
                       Process(true, Some(0), false, Consuming(0), [Delivery(FIRST_TAG, REPORT)], None, [], false,
                               [Idle], None),
                       Past(map[0 := 0], map[0 := 0], {}, {}, true))
  {
    s := AtQueue();
    assert UnackedCopies(s.broker.copies) == {};
    s := Then(ONE_WORKER, s, Deliver(0));
  }

  lemma AtLoop() returns (s: State)
    ensures Reachable(ONE_WORKER, s)
    ensures s == State(Broker(map[0 := Copy(REPORT, Unacked(FIRST_TAG))], 1, {0}, 1, 2),
                       Process(true, Some(0), false, Consuming(0), [], Some(Delivery(FIRST_TAG, REPORT)), [], false,
                               [Idle], None),
                       Past(map[0 := 0], map[0 := 0], {}, {}, true))
  {
    s := AtInbox();
    s := Then(ONE_WORKER, s, Receive);
  }

  lemma AtJobs() returns (s: State)
    ensures Reachable(ONE_WORKER, s)
    ensures s == State(Broker(map[0 := Copy(REPORT, Unacked(FIRST_TAG))], 1, {0}, 1, 2),
                       Process(true, Some(0), false, Consuming(0), [], None, [Delivery(FIRST_TAG, REPORT)], false,
                               [Idle], None),
                       Past(map[0 := 0], map[0 := 0], {FIRST_TAG}, {}, true))
  {
    s := AtLoop();
    s := Then(ONE_WORKER, s, Enqueue);
  }

  lemma AtWorker() returns (s: State)
    ensures Reachable(ONE_WORKER, s)
    ensures s == State(Broker(map[0 := Copy(REPORT, Unacked(FIRST_TAG))], 1, {0}, 1, 2),
                       Process(true, Some(0), false, Consuming(0), [], None, [], false, BUSY, None), RAN_ONCE)
  {
    s := AtJobs();
    s := Then(ONE_WORKER, s, Take(0));
  }

  lemma SessionLost() returns (s: State)
    ensures Reachable(ONE_WORKER, s)
    ensures s == State(Broker(map[0 := Copy(REPORT, Ready)], 1, {}, 1, 2),
                       Process(true, Some(0), false, Consuming(0), [], None, [], false, BUSY, None),
                       RAN_ONCE.(quiet := false))
  {
    s := AtWorker();
    s := Then(ONE_WORKER, s, LoseSession(0));
  }

  /** The worker still runs its callback; the session has been lost and its channel forgotten. */
  lemma ChannelForgotten() returns (s: State)
    ensures Reachable(ONE_WORKER, s)
    ensures s == State(Broker(map[0 := Copy(REPORT, Ready)], 1, {}, 1, 2),
                       Process(true, None, false, Top, [], None, [], false, BUSY, None), RAN_ONCE.(quiet := false))
  {
    s := SessionLost();
    s := Then(ONE_WORKER, s, Reconnect);
  }

  /** The crash is reachable: the session is lost and closed while the callback runs, then a retry. */
  lemma RetryCanCrash() returns (s: State)
    ensures Reachable(ONE_WORKER, s) && Enabled(ONE_WORKER, s, RetryOnNilChannel(0))
  {
    s := ChannelForgotten();
  }

  lemma Reconnected() returns (s: State)
    ensures Reachable(ONE_WORKER, s)
    ensures s == State(Broker(map[0 := Copy(REPORT, Ready)], 1, {1}, 2, 1),
                       Process(true, Some(1), false, Consuming(1), [], None, [], false, BUSY, None),
                       RAN_ONCE.(quiet := false))
  {
    s := ChannelForgotten();
    s := Then(ONE_WORKER, s, CheckDone);
    s := Then(ONE_WORKER, s, Connect);
  }

  /** Exactly-once does not survive a lost session: after a reconnect the worker's retry is stored, and
      its ack fails, while the original is queued again. */
  lemma LossCanDuplicate() returns (s: State)
    ensures Reachable(ONE_WORKER, s) && LiveCopy(s, 0, 0) && LiveCopy(s, 0, 1)
  {
    s := Reconnected();
    s := Then(ONE_WORKER, s, RetryPublish(0));
    s := Then(ONE_WORKER, s, RetryAck(0));
  }
}
