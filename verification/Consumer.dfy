/** The RabbitMQ consumer as a state machine: the broker's queue, the open AMQP channel, the client
    library's delivery buffer, the consume loop, the `jobs` channel and the worker pool.  Every step is
    one action that no other action can interleave with; `opMu` is held across two steps only by a
    worker between its retry publish and the ack that follows. */
module Consumer {
  import opened Wrappers
  import opened RetryHeader

  datatype Config = Config(workers: nat, maxRetries: nat, handlers: set<string>)

  /** A delivery tag, unique within the session (AMQP channel) that issued it. */
  datatype Tag = Tag(session: nat, number: nat)

  datatype Msg = Msg(id: nat, key: string, headers: Table)

  datatype Delivery = Delivery(tag: Tag, msg: Msg)

  /** Where the broker keeps a copy of a message. */
  datatype Location = Ready | Unacked(tag: Tag) | Waiting | Dead | Done

  datatype Copy = Copy(msg: Msg, at: Location)

  datatype Loop = Top | Connecting | Consuming(session: nat) | Stopped

  datatype Worker = Idle | Running(delivery: Delivery) | Exited

  /** The broker: its copies of messages, the channels it considers open, and its counters. */
  datatype Broker = Broker(copies: map<nat, Copy>, nextCopy: nat, open: set<nat>, nextSession: nat, nextNumber: nat)

  /** The process: `s.proc.channel`, the consume loop, the library's buffer, the delivery the loop is about to
      put on `jobs`, the `jobs` channel, the pool, and the worker that keeps `opMu` across two steps. */
  datatype Process = Process(
    alive: bool, channel: Option<nat>, done: bool, loop: Loop, inbox: seq<Delivery>, hand: Option<Delivery>,
    jobs: seq<Delivery>, jobsClosed: bool, workers: seq<Worker>, lockedBy: Option<nat>)

  /** History: first retry count and callback runs by message id, tags sent on `jobs` and tags acked or
      nacked by this process, and whether nothing has been lost, closed or refused so far. */
  datatype Past = Past(first: map<nat, nat>, runs: map<nat, nat>, accepted: set<Tag>, settled: set<Tag>, quiet: bool)

  datatype State = State(broker: Broker, proc: Process, past: Past)

  /** What a callback run comes to; a missing handler counts as an outcome. */
  datatype Outcome = NoHandler | Success | Panicked | PermanentError | TransientError

  datatype Step =
    // environment and broker
    | Arrive(msg: Msg)
    | Deliver(copy: nat)
    | Expire(copy: nat)
    | LoseSession(session: nat)
    // consume loop
    | Receive
    | Enqueue
    | Reconnect
    | CheckDone
    | ConnectFails
    | Connect
    | StopConsuming
    // workers
    | Take(worker: nat)
    | Settle(worker: nat, outcome: Outcome)
    | RetryPublish(worker: nat)
    | RetryAck(worker: nat)
    | RetryRefused(worker: nat)
    | RetryOnNilChannel(worker: nat)
    | Exit(worker: nat)
    // owner of the subscriber
    | SignalDone
    | CloseChannel
    | Kill
    | Restart

  // ---------------------------------------------------------------- broker operations

  function Requeued(copies: map<nat, Copy>, session: nat): map<nat, Copy> {
    map c | c in copies ::
      if copies[c].at.Unacked? && copies[c].at.tag.session == session then copies[c].(at := Ready) else copies[c]
  }

  /** Ack or nack of a tag: the broker knows it only while the session that issued it is open. */
  function Moved(s: State, tag: Tag, to: Location): map<nat, Copy> {
    map c | c in s.broker.copies ::
      if tag.session in s.broker.open && s.broker.copies[c].at == Unacked(tag) then s.broker.copies[c].(at := to)
      else s.broker.copies[c]
  }

  function Discarded(s: State, tag: Tag): map<nat, Copy> {
    map c | c in s.broker.copies && !(tag.session in s.broker.open && s.broker.copies[c].at == Unacked(tag)) ::
      s.broker.copies[c]
  }

  function UnackedCopies(copies: map<nat, Copy>): set<nat> {
    set c | c in copies && copies[c].at.Unacked?
  }

  // ---------------------------------------------------------------- steps

  predicate Lockable(s: State) { s.proc.lockedBy.None? }

  predicate IsRunning(s: State, w: nat) { w < |s.proc.workers| && s.proc.workers[w].Running? }

  function Attempts(s: State, w: nat): nat
    requires IsRunning(s, w)
  {
    RetryCount(s.proc.workers[w].delivery.msg.headers)
  }

  /** A worker whose callback asked for a retry that the limit still allows. */
  predicate WantsRetry(cfg: Config, s: State, w: nat) {
    && IsRunning(s, w)
    && s.proc.workers[w].delivery.msg.key in cfg.handlers
    && Attempts(s, w) < cfg.maxRetries
    && Lockable(s)
  }

  predicate Enabled(cfg: Config, s: State, step: Step) {
    match step
    case Arrive(msg) => msg.id !in s.past.first
    case Deliver(c) =>
      && s.proc.channel.Some? && s.proc.channel.value in s.broker.open
      && c in s.broker.copies && s.broker.copies[c].at.Ready?
      && |UnackedCopies(s.broker.copies)| < cfg.workers
    case Expire(c) => c in s.broker.copies && s.broker.copies[c].at.Waiting?
    case LoseSession(session) => session in s.broker.open
    case Receive => s.proc.loop.Consuming? && s.proc.hand.None? && s.proc.inbox != []
    case Enqueue => s.proc.loop.Consuming? && s.proc.hand.Some? && |s.proc.jobs| < cfg.workers
    case Reconnect =>
      s.proc.loop.Consuming? && s.proc.hand.None? && s.proc.loop.session !in s.broker.open && Lockable(s)
    case CheckDone => s.proc.loop.Top?
    case ConnectFails => s.proc.loop.Connecting? && Lockable(s)
    case Connect => s.proc.loop.Connecting? && Lockable(s)
    case StopConsuming => s.proc.loop.Consuming? && s.proc.done
    case Take(w) => w < |s.proc.workers| && s.proc.workers[w].Idle? && s.proc.jobs != []
    case Settle(w, outcome) =>
      && IsRunning(s, w) && Lockable(s)
      && (outcome.NoHandler? <==> s.proc.workers[w].delivery.msg.key !in cfg.handlers)
      && (outcome.TransientError? ==> Attempts(s, w) >= cfg.maxRetries)
    case RetryPublish(w) => WantsRetry(cfg, s, w) && s.proc.channel.Some? && s.proc.channel.value in s.broker.open
    case RetryRefused(w) => WantsRetry(cfg, s, w) && s.proc.channel.Some?
    case RetryOnNilChannel(w) => WantsRetry(cfg, s, w) && s.proc.channel.None?
    case RetryAck(w) => s.proc.lockedBy == Some(w) && IsRunning(s, w)
    case Exit(w) => w < |s.proc.workers| && s.proc.workers[w].Idle? && s.proc.jobs == [] && s.proc.jobsClosed
    case SignalDone => s.proc.alive && !s.proc.done
    case CloseChannel => s.proc.alive && s.proc.done && Lockable(s)
    case Kill => s.proc.alive
    case Restart => !s.proc.alive
  }

  /** The process dies, by a signal or by an unrecovered panic: the broker sees its sessions close. */
  function Crashed(s: State): State {
    State(s.broker.(open := {}, copies := map c | c in s.broker.copies ::
                      if s.broker.copies[c].at.Unacked? then s.broker.copies[c].(at := Ready) else s.broker.copies[c]),
          Process(false, None, s.proc.done, Stopped, [], None, [], true, seq(|s.proc.workers|, _ => Exited), None),
          s.past.(accepted := {}, settled := {}, quiet := false))
  }

  /** `closeLocked`: channel and connection are closed and forgotten. */
  function ChannelClosed(s: State): State {
    if s.proc.channel.None? then s
    else
      var session := s.proc.channel.value;
      s.(broker := s.broker.(copies := Requeued(s.broker.copies, session), open := s.broker.open - {session}),
         proc := s.proc.(channel := None))
  }

  /** `startConsumeSessionLocked` succeeds on a new connection. */
  function Connected(s: State): State {
    var session := s.broker.nextSession;
    s.(broker := s.broker.(open := s.broker.open + {session}, nextSession := session + 1, nextNumber := 1),
       proc := s.proc.(channel := Some(session), loop := Consuming(session)))
  }

  /** `NewSubscriber` and `Start` succeed. */
  function Started(cfg: Config, s: State): State {
    Connected(s.(proc := Process(true, None, false, Connecting, [], None, [], false,
                                 seq(cfg.workers, _ => Idle), None)))
  }

  /** The worker has made its one ack or nack call and goes back to the `jobs` channel. */
  function Released(s: State, w: nat, copies: map<nat, Copy>): State
    requires IsRunning(s, w)
  {
    State(s.broker.(copies := copies), s.proc.(workers := s.proc.workers[w := Idle], lockedBy := None),
          s.past.(settled := s.past.settled + {s.proc.workers[w].delivery.tag}))
  }

  function ApplyBroker(s: State, step: Step): State
    requires step.Arrive? || (step.Deliver? && step.copy in s.broker.copies && s.proc.channel.Some?)
          || (step.Expire? && step.copy in s.broker.copies) || step.LoseSession?
  {
    match step
    case Arrive(msg) =>
      State(s.broker.(copies := s.broker.copies[s.broker.nextCopy := Copy(msg, Ready)],
                      nextCopy := s.broker.nextCopy + 1),
            s.proc,
            s.past.(first := s.past.first[msg.id := RetryCount(msg.headers)], runs := s.past.runs[msg.id := 0]))
    case Deliver(c) =>
      var tag := Tag(s.proc.channel.value, s.broker.nextNumber);
      var copy := s.broker.copies[c];
      State(s.broker.(copies := s.broker.copies[c := copy.(at := Unacked(tag))], nextNumber := s.broker.nextNumber + 1),
            s.proc.(inbox := s.proc.inbox + [Delivery(tag, copy.msg)]),
            s.past)
    case Expire(c) =>
      s.(broker := s.broker.(copies := s.broker.copies[c := s.broker.copies[c].(at := Ready)]))
    case LoseSession(session) =>
      State(s.broker.(copies := Requeued(s.broker.copies, session), open := s.broker.open - {session}),
            s.proc, s.past.(quiet := false))
  }

  function Counted(cfg: Config, runs: map<nat, nat>, msg: Msg): map<nat, nat> {
    if msg.key in cfg.handlers && msg.id in runs then runs[msg.id := runs[msg.id] + 1] else runs
  }

  function Apply(cfg: Config, s: State, step: Step): State
    requires Enabled(cfg, s, step)
  {
    match step
    case Receive => s.(proc := s.proc.(hand := Some(s.proc.inbox[0]), inbox := s.proc.inbox[1..]))
    case Enqueue =>
      var d := s.proc.hand.value;
      s.(proc := s.proc.(jobs := s.proc.jobs + [d], hand := None),
         past := s.past.(accepted := s.past.accepted + {d.tag}))
    case Reconnect => var u := ChannelClosed(s); u.(proc := u.proc.(loop := Top, inbox := []))
    case CheckDone =>
      s.(proc := if s.proc.done then s.proc.(loop := Stopped, jobsClosed := true) else s.proc.(loop := Connecting))
    case ConnectFails => s.(proc := s.proc.(loop := Top))
    case Connect => Connected(s)
    case StopConsuming => s.(proc := s.proc.(loop := Stopped, jobsClosed := true, hand := None, inbox := []))
    case Take(w) =>
      var d := s.proc.jobs[0];
      s.(proc := s.proc.(jobs := s.proc.jobs[1..], workers := s.proc.workers[w := Running(d)]),
         past := s.past.(runs := Counted(cfg, s.past.runs, d.msg)))
    case Settle(w, outcome) =>
      Released(s, w, Moved(s, s.proc.workers[w].delivery.tag, if outcome.Success? then Done else Dead))
    case RetryPublish(w) =>
      var msg := s.proc.workers[w].delivery.msg;
      var again := msg.(headers := Stamped(msg.headers, Attempts(s, w) + 1));
      s.(broker := s.broker.(copies := s.broker.copies[s.broker.nextCopy := Copy(again, Waiting)],
                             nextCopy := s.broker.nextCopy + 1),
         proc := s.proc.(lockedBy := Some(w)))
    case RetryAck(w) => Released(s, w, Discarded(s, s.proc.workers[w].delivery.tag))
    case RetryRefused(w) =>
      var u := Released(s, w, Moved(s, s.proc.workers[w].delivery.tag, Ready));
      u.(past := u.past.(quiet := false))
    case Exit(w) => s.(proc := s.proc.(workers := s.proc.workers[w := Exited]))
    case SignalDone => s.(proc := s.proc.(done := true))
    case CloseChannel => var u := ChannelClosed(s); u.(past := u.past.(quiet := false))
    case RetryOnNilChannel(_) => Crashed(s)
    case Kill => Crashed(s)
    case Restart => Started(cfg, s)
    case _ => ApplyBroker(s, step)
  }

  /** A subscriber whose first session has just started on an empty queue. */
  function Initial(cfg: Config): State {
    Started(cfg, State(Broker(map[], 0, {}, 0, 1),
                       Process(false, None, false, Stopped, [], None, [], true, [], None),
                       Past(map[], map[], {}, {}, true)))
  }

  predicate IsRun(cfg: Config, s: State, steps: seq<Step>)
    decreases |steps|
  {
    steps == [] || (Enabled(cfg, s, steps[0]) && IsRun(cfg, Apply(cfg, s, steps[0]), steps[1..]))
  }

  function After(cfg: Config, s: State, steps: seq<Step>): State
    requires IsRun(cfg, s, steps)
    decreases |steps|
  {
    if steps == [] then s else After(cfg, Apply(cfg, s, steps[0]), steps[1..])
  }

  lemma StepThen(cfg: Config, s: State, step: Step, more: seq<Step>)
    requires Enabled(cfg, s, step) && IsRun(cfg, Apply(cfg, s, step), more)
    ensures IsRun(cfg, s, [step] + more)
    ensures After(cfg, s, [step] + more) == After(cfg, Apply(cfg, s, step), more)
  {
    assert ([step] + more)[1..] == more;
  }

  lemma {:induction false} RunConcat(cfg: Config, s: State, first: seq<Step>, then': seq<Step>)
    requires IsRun(cfg, s, first) && IsRun(cfg, After(cfg, s, first), then')
    ensures IsRun(cfg, s, first + then')
    ensures After(cfg, s, first + then') == After(cfg, After(cfg, s, first), then')
    decreases |first|
  {
    if first == [] {
      assert first + then' == then';
    } else {
      RunConcat(cfg, Apply(cfg, s, first[0]), first[1..], then');
      assert first + then' == [first[0]] + (first[1..] + then');
      StepThen(cfg, s, first[0], first[1..] + then');
    }
  }

  lemma {:induction false} RunAppend(cfg: Config, s: State, steps: seq<Step>, step: Step)
    requires IsRun(cfg, s, steps) && Enabled(cfg, After(cfg, s, steps), step)
    ensures IsRun(cfg, s, steps + [step])
    ensures After(cfg, s, steps + [step]) == Apply(cfg, After(cfg, s, steps), step)
    decreases |steps|
  {
    if steps == [] {
      assert (steps + [step])[1..] == [];
    } else {
      RunAppend(cfg, Apply(cfg, s, steps[0]), steps[1..], step);
      assert (steps + [step])[1..] == steps[1..] + [step];
    }
  }
}
