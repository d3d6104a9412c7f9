/** The custom-area hub and its clients' write pumps together: their steps are taken in any order. */
module HubRuns {
  import opened Text
  import opened Hubs

  /** A step of the hub's loop or of a pump. */
  datatype Step =
    | Register(client: Client)
    | Unregister(client: Client)
    | Broadcast(message: string)
    | BeginFrame(pump: WritePump)
    | AddQueued(pump: WritePump)
    | EndFrame(pump: WritePump)

  /** The clients in `pool` have been registered or are still new. */
  ghost predicate PoolIsFine(pool: set<Client>, all: set<Client>)
    reads pool
  {
    all <= pool && forall c | c in pool :: c.Valid() && (c !in all ==> c.sent == [] && !c.closed)
  }

  /** Each pump drains a client of its own. */
  ghost predicate PumpsAreFine(pool: set<Client>, pumps: set<WritePump>)
    reads pumps, pool`sent, pool`taken, pool`buffer
  {
    && (forall p | p in pumps :: p.client in pool && p.Valid())
    && (forall p, q | p in pumps && q in pumps && p != q :: p.client != q.client)
  }

  ghost predicate IsSystem(hub: Hub, pool: set<Client>, pumps: set<WritePump>)
    reads hub, hub.all, pool, pumps
  {
    hub.Valid() && PoolIsFine(pool, hub.all) && PumpsAreFine(pool, pumps)
  }

  /** A client is registered once, when it is new. */
  ghost predicate IsProper(hub: Hub, pool: set<Client>, step: Step)
    reads hub
  {
    match step
    case Register(c) => c in pool - hub.all
    case Unregister(c) => c in pool
    case _ => true
  }

  ghost function Says(step: Step): seq<string> { if step.Broadcast? then [step.message] else [] }

  /** The messages broadcast in a run, in order. */
  ghost function Broadcasts(steps: seq<Step>): seq<string> {
    if steps == [] then [] else Says(steps[0]) + Broadcasts(steps[1..])
  }

  ghost function Joins(step: Step): set<Client> { if step.Register? then {step.client} else {} }

  /** A pump's step is taken if it is possible. */
  method TakeStep(hub: Hub, pool: set<Client>, pumps: set<WritePump>, step: Step)
    requires IsSystem(hub, pool, pumps) && IsProper(hub, pool, step)
    modifies hub, pool, pumps
    ensures IsSystem(hub, pool, pumps) && hub.stream == old(hub.stream) + Says(step)
    ensures hub.all == old(hub.all) + Joins(step)
  {
    match step
    case Register(c) => TakeRegister(hub, pool, pumps, c);
    case Unregister(c) => TakeUnregister(hub, pool, pumps, c);
    case Broadcast(m) => TakeBroadcast(hub, pool, pumps, m);
    case _ => TakePumpStep(hub, pool, pumps, step);
  }

  method TakeRegister(hub: Hub, pool: set<Client>, pumps: set<WritePump>, c: Client)
    requires IsSystem(hub, pool, pumps) && c in pool - hub.all
    modifies hub, c`from
    ensures IsSystem(hub, pool, pumps) && hub.stream == old(hub.stream) && hub.all == old(hub.all) + {c}
  {
    hub.Register(c);
    assert PumpsAreFine(pool, pumps);
  }

  method TakeUnregister(hub: Hub, pool: set<Client>, pumps: set<WritePump>, c: Client)
    requires IsSystem(hub, pool, pumps) && c in pool
    modifies hub, c`closed, c`until
    ensures IsSystem(hub, pool, pumps) && hub.stream == old(hub.stream) && hub.all == old(hub.all)
  {
    hub.Unregister(c);
    assert PumpsAreFine(pool, pumps);
  }

  method TakeBroadcast(hub: Hub, pool: set<Client>, pumps: set<WritePump>, message: string)
    requires IsSystem(hub, pool, pumps)
    modifies hub, hub.clients
    ensures IsSystem(hub, pool, pumps) && hub.stream == old(hub.stream) + [message] && hub.all == old(hub.all)
  {
    hub.Broadcast(message);
  }

  /** A possible step has been taken: a frame opened, extended by one message or written. */
  twostate predicate HasMoved(p: WritePump, step: Step)
    reads p, p.client
  {
    && (step.BeginFrame? && old(!p.writing && p.client.buffer != []) ==>
          p.writing && p.queued == |old(p.client.buffer)| - 1)
    && (step.AddQueued? && old(p.writing && p.queued > 0) ==> p.writing && p.queued == old(p.queued) - 1)
    && (step.EndFrame? && old(p.writing && p.queued == 0) ==> !p.writing && p.wire == old(p.wire + [p.frame]))
  }

  method TakePumpStep(hub: Hub, pool: set<Client>, pumps: set<WritePump>, step: Step)
    requires IsSystem(hub, pool, pumps) && (step.BeginFrame? || step.AddQueued? || step.EndFrame?)
    modifies pool, pumps
    ensures IsSystem(hub, pool, pumps) && (step.pump in pumps ==> HasMoved(step.pump, step))
  {
    var p := step.pump;
    if p !in pumps { return; }
    if step.BeginFrame? && !p.writing && p.client.buffer != [] {
      TakeBegin(hub, pool, pumps, p);
    } else if step.AddQueued? && p.writing && p.queued > 0 {
      TakeAdd(hub, pool, pumps, p);
    } else if step.EndFrame? && p.writing && p.queued == 0 {
      TakeEnd(hub, pool, pumps, p);
    }
  }

  method TakeBegin(hub: Hub, pool: set<Client>, pumps: set<WritePump>, p: WritePump)
    requires IsSystem(hub, pool, pumps) && p in pumps && !p.writing && p.client.buffer != []
    modifies p, p.client`buffer, p.client`taken
    ensures IsSystem(hub, pool, pumps) && HasMoved(p, BeginFrame(p))
  {
    p.BeginFrame();
  }

  method TakeAdd(hub: Hub, pool: set<Client>, pumps: set<WritePump>, p: WritePump)
    requires IsSystem(hub, pool, pumps) && p in pumps && p.writing && p.queued > 0
    modifies p, p.client`buffer, p.client`taken
    ensures IsSystem(hub, pool, pumps) && HasMoved(p, AddQueued(p))
  {
    p.AddQueued();
  }

  method TakeEnd(hub: Hub, pool: set<Client>, pumps: set<WritePump>, p: WritePump)
    requires IsSystem(hub, pool, pumps) && p in pumps && p.writing && p.queued == 0
    modifies p
    ensures IsSystem(hub, pool, pumps) && HasMoved(p, EndFrame(p))
  {
    p.EndFrame();
  }

  /** Every step of the run is one of clients in the pool, each registered once. */
  ghost predicate AreProper(pool: set<Client>, all: set<Client>, steps: seq<Step>)
    decreases |steps|
  {
    steps == [] ||
    (&& (steps[0].Register? ==> steps[0].client in pool - all)
     && (steps[0].Unregister? ==> steps[0].client in pool)
     && AreProper(pool, all + Joins(steps[0]), steps[1..]))
  }

  /** What the browser reads by splitting a client's frames at newlines is a prefix of the broadcasts since the
      client joined, if they contain no newline. */
  ghost predicate ReadsPrefix(hub: Hub, p: WritePump)
    reads hub, p, p.client
  {
    FreeOf(p.client.sent, NL) ==>
      p.client.from <= |hub.stream| && SplitAll(p.wire, NL) <= hub.stream[p.client.from..]
  }

  lemma AllReadPrefixes(hub: Hub, pool: set<Client>, pumps: set<WritePump>)
    requires IsSystem(hub, pool, pumps)
    ensures forall p | p in pumps && p.client in hub.all :: ReadsPrefix(hub, p)
  {
    forall p | p in pumps && p.client in hub.all
      ensures ReadsPrefix(hub, p)
    {
      if FreeOf(p.client.sent, NL) { p.WireIsPrefix(hub.stream); }
    }
  }

  method TakeSteps(hub: Hub, pool: set<Client>, pumps: set<WritePump>, steps: seq<Step>)
    requires IsSystem(hub, pool, pumps) && AreProper(pool, hub.all, steps)
    modifies hub, pool, pumps
    ensures IsSystem(hub, pool, pumps) && hub.stream == old(hub.stream) + Broadcasts(steps)
    decreases |steps|
  {
    if steps == [] { return; }
    ghost var before := hub.stream;
    TakeStep(hub, pool, pumps, steps[0]);
    TakeSteps(hub, pool, pumps, steps[1..]);
    Regroup(before, Says(steps[0]), Broadcasts(steps[1..]));
  }

  lemma Regroup(a: seq<string>, b: seq<string>, c: seq<string>)
    ensures a + b + c == a + (b + c)
  {
  }

  /** Over every run of steps of the hub and of the pumps, in any order: hub, channels and pumps stay valid,
      `connectedClients` is the number of clients, the stream grows by the run's broadcasts, and every browser reads
      a prefix of it. */
  method Run(hub: Hub, pool: set<Client>, pumps: set<WritePump>, steps: seq<Step>)
    requires IsSystem(hub, pool, pumps) && AreProper(pool, hub.all, steps)
    modifies hub, pool, pumps
    ensures IsSystem(hub, pool, pumps) && hub.connectedClients == |hub.clients|
    ensures hub.stream == old(hub.stream) + Broadcasts(steps)
    ensures forall p | p in pumps && p.client in hub.all :: ReadsPrefix(hub, p)
  {
    TakeSteps(hub, pool, pumps, steps);
    AllReadPrefixes(hub, pool, pumps);
  }
}
