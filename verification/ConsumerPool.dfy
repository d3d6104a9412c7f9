/** The bound on concurrent callbacks is reached: every worker of the pool can be running at once. */
module ConsumerPool {
  import opened Wrappers
  import opened RetryHeader
  import opened Consumer
  import opened ConsumerSafety

  /** Nothing is queued in the process, and the next message has the next number. */
  predicate IsIdle(s: State, k: nat) {
    && s.proc.channel.Some? && s.proc.channel.value in s.broker.open && s.proc.loop.Consuming?
    && s.proc.inbox == [] && s.proc.hand.None? && s.proc.jobs == [] && s.proc.lockedBy.None?
    && s.broker.nextCopy == k && (forall id | id in s.past.first :: id < k) && forall c | c in s.broker.copies :: c < k
  }

  /** The first `k` workers run a callback each. */
  predicate AreRunning(workers: seq<Worker>, k: nat, key: string) {
    && (forall w | 0 <= w < |workers| && w < k :: workers[w].Running? && workers[w].delivery.msg.key == key)
    && forall w | k <= w < |workers| :: workers[w].Idle?
  }

  predicate IsFilled(cfg: Config, s: State, k: nat, key: string) {
    && IsIdle(s, k) && |s.proc.workers| == cfg.workers && AreRunning(s.proc.workers, k, key)
    && |UnackedCopies(s.broker.copies)| == k
  }

  /** One message is in the process, delivered under the tag. */
  predicate IsDelivered(s: State, k: nat, d: Delivery) {
    && s.proc.loop.Consuming? && s.proc.hand.None? && s.proc.inbox == [d] && s.proc.jobs == []
    && s.proc.lockedBy.None? && s.proc.channel.Some? && s.proc.channel.value in s.broker.open
    && s.broker.nextCopy == k + 1 && (forall id | id in s.past.first :: id <= k)
    && forall c | c in s.broker.copies :: c <= k
  }

  lemma DeliverOne(cfg: Config, s: State, k: nat, msg: Msg) returns (t: State, d: Delivery)
    requires Reachable(cfg, s) && IsIdle(s, k) && |UnackedCopies(s.broker.copies)| == k < cfg.workers && msg.id == k
    ensures Reachable(cfg, t) && IsDelivered(t, k, d) && d.msg == msg && t.proc.workers == s.proc.workers
    ensures |UnackedCopies(t.broker.copies)| == k + 1
  {
    var s1 := Then(cfg, s, Arrive(msg));
    assert UnackedCopies(s1.broker.copies) == UnackedCopies(s.broker.copies);
    t := Then(cfg, s1, Deliver(k));
    assert UnackedCopies(t.broker.copies) == UnackedCopies(s.broker.copies) + {k};
    d := t.proc.inbox[0];
  }

  lemma TakeOne(cfg: Config, s: State, k: nat, d: Delivery) returns (t: State)
    requires Reachable(cfg, s) && IsDelivered(s, k, d) && k < |s.proc.workers| == cfg.workers
    requires s.proc.workers[k].Idle?
    ensures Reachable(cfg, t) && IsIdle(t, k + 1) && t.proc.workers == s.proc.workers[k := Running(d)]
    ensures t.broker.copies == s.broker.copies
  {
    var s1 := Then(cfg, s, Receive);
    var s2 := Then(cfg, s1, Enqueue);
    t := Then(cfg, s2, Take(k));
  }

  /** One more message gets all the way to a worker. */
  lemma OneMore(cfg: Config, s: State, k: nat, key: string) returns (t: State)
    requires Reachable(cfg, s) && IsFilled(cfg, s, k, key) && k < cfg.workers
    ensures Reachable(cfg, t) && IsFilled(cfg, t, k + 1, key)
  {
    var u, d := DeliverOne(cfg, s, k, Msg(k, key, map[]));
    t := TakeOne(cfg, u, k, d);
  }

  lemma {:induction false} Fill(cfg: Config, k: nat, key: string) returns (s: State)
    requires k <= cfg.workers
    ensures Reachable(cfg, s) && IsFilled(cfg, s, k, key)
  {
    if k == 0 {
      s := Initial(cfg);
      assert IsRun(cfg, s, []) && After(cfg, s, []) == s;
      assert UnackedCopies(s.broker.copies) == {};
    } else {
      var before := Fill(cfg, k - 1, key);
      s := OneMore(cfg, before, k - 1, key);
    }
  }

  lemma {:induction false} AllCounted(workers: seq<Worker>)
    requires forall w | 0 <= w < |workers| :: workers[w].Running?
    ensures RunningCount(workers) == |workers|
  {
    if workers != [] { AllCounted(workers[..|workers| - 1]); }
  }

  /** For every pool and every routing key there is a run after which all workers run a callback of that key. */
  lemma AllCanRun(cfg: Config, key: string) returns (s: State)
    ensures Reachable(cfg, s) && RunningCount(s.proc.workers) == cfg.workers == |s.proc.workers|
    ensures forall w | 0 <= w < |s.proc.workers| :: IsRunning(s, w) && s.proc.workers[w].delivery.msg.key == key
  {
    s := Fill(cfg, cfg.workers, key);
    AllCounted(s.proc.workers);
  }
}
