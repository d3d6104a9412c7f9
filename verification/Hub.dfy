/** The two WebSocket hubs: clients with a buffered send channel each, fed by a loop that never blocks on
    them, and drained by a write pump each.  Every method is one step of the hub loop, of its owner or of a
    pump; they run concurrently, so steps may come in any order. */
module Hubs {
  import opened Text

  const CAPACITY: nat := 256
  const NL := '\n'

  /** A client's send channel. */
  class Client {
    var buffer: seq<string>
    var closed: bool
    // all messages ever sent on the channel, and those its pump has taken out
    ghost var sent: seq<string>
    ghost var taken: seq<string>
    // where in the hub's broadcast stream the client joined and, once closed, was dropped
    ghost var from: nat
    ghost var until: nat

    constructor ()
      ensures Valid() && sent == [] && !closed
    {
      buffer, closed, sent, taken := [], false, [], [];
    }

    /** The channel is first in, first out and bounded. */
    ghost predicate Valid()
      reads this`sent, this`taken, this`buffer
    {
      sent == taken + buffer && |buffer| <= CAPACITY
    }

    /** The client was sent exactly the broadcasts from its registration to its drop, or to now. */
    ghost predicate Follows(stream: seq<string>)
      reads this`sent, this`closed, this`from, this`until
    {
      var end := if closed then until else |stream|;
      from <= end <= |stream| && sent == stream[from..end]
    }

    /** A send that does not block: with the buffer full the channel is closed instead. */
    method Offer(message: string, ghost stream: seq<string>) returns (ok: bool)
      requires Valid() && !closed && Follows(stream)
      modifies this
      ensures Valid() && ok == (old(|buffer|) < CAPACITY) && closed == !ok
      ensures Follows(stream + [message]) && from == old(from) && taken == old(taken) && old(buffer) <= buffer
      ensures closed ==> until == |stream|
    {
      ok := |buffer| < CAPACITY;
      if ok {
        buffer, sent := buffer + [message], sent + [message];
      } else {
        closed, until := true, |stream|;
      }
    }

    method Close(ghost stream: seq<string>)
      requires Valid() && !closed && Follows(stream)
      modifies this`closed, this`until
      ensures closed && Follows(stream) && until == |stream|
    {
      closed, until := true, |stream|;
    }

    method Take() returns (message: string)
      requires Valid() && buffer != []
      modifies this`buffer, this`taken
      ensures Valid() && buffer == old(buffer)[1..] && message == old(buffer)[0] && taken == old(taken) + [message]
    {
      message := buffer[0];
      buffer, taken := buffer[1..], taken + [message];
    }

    /** A dropped client's run stays what it was. */
    lemma StillFollows(stream: seq<string>, message: string)
      requires closed && Follows(stream)
      ensures Follows(stream + [message])
    {
      assert (stream + [message])[from..until] == stream[from..until];
    }
  }

  /** A client's write pump: the frames it has written and the one in progress, with the number of queued
      messages it has still to add. */
  class WritePump {
    const client: Client
    var wire: seq<string>
    var writing: bool
    var frame: string
    var queued: nat
    ghost var finished: seq<seq<string>>
    ghost var parts: seq<string>

    constructor (client: Client)
      requires client.Valid() && client.taken == []
      ensures Valid() && this.client == client && wire == [] && !writing
    {
      this.client := client;
      wire, writing, frame, queued, finished, parts := [], false, "", 0, [], [];
    }

    /** The messages in the frames are those taken from the channel, in order, and the pump never waits for
        a message it has counted on. */
    ghost predicate Valid()
      reads this, client`sent, client`taken, client`buffer
    {
      && client.Valid()
      && client.taken == Flatten(finished) + parts
      && |wire| == |finished|
      && (forall i | 0 <= i < |wire| :: finished[i] != [] && wire[i] == Join(finished[i], NL))
      && (if writing then parts != [] && frame == Join(parts, NL) && queued <= |client.buffer| else parts == [])
    }

    /** Takes a message and opens a frame for it; `n := len(c.send)` is read right after. */
    method BeginFrame()
      requires Valid() && !writing && client.buffer != []
      modifies this, client`buffer, client`taken
      ensures Valid() && writing && queued == |client.buffer| && wire == old(wire)
      ensures frame == old(client.buffer)[0] && client.buffer == old(client.buffer)[1..]
    {
      frame := client.Take();
      writing, parts := true, [frame];
      queued := |client.buffer|;
    }

    /** One more queued message joins the frame: the receive always finds one. */
    method AddQueued()
      requires Valid() && writing && queued > 0
      modifies this, client`buffer, client`taken
      ensures Valid() && writing && queued == old(queued) - 1 && wire == old(wire)
      ensures frame == old(frame) + [NL] + old(client.buffer)[0] && client.buffer == old(client.buffer)[1..]
    {
      var message := client.Take();
      frame := frame + [NL] + message;
      assert (parts + [message])[..|parts + [message]| - 1] == parts;
      parts := parts + [message];
      queued := queued - 1;
    }

    method EndFrame()
      requires Valid() && writing && queued == 0
      modifies this
      ensures Valid() && !writing && wire == old(wire) + [old(frame)]
    {
      wire := wire + [frame];
      assert (finished + [parts])[..|finished|] == finished;
      finished := finished + [parts];
      writing, parts := false, [];
    }

    /** The three in a row, with no broadcast in between: one frame with everything that was queued. */
    method WriteFrame()
      requires Valid() && !writing && client.buffer != []
      modifies this, client`buffer, client`taken
      ensures Valid() && !writing && client.buffer == [] && wire == old(wire) + [Join(old(client.buffer), NL)]
    {
      ghost var all := client.buffer;
      BeginFrame();
      ghost var k := 1;
      assert all[..1] == [all[0]];
      while queued > 0
        invariant Valid() && writing && queued == |client.buffer| && wire == old(wire)
        invariant 1 <= k <= |all| && client.buffer == all[k..] && frame == Join(all[..k], NL)
      {
        AddQueued();
        assert all[..k + 1][..k] == all[..k];
        k := k + 1;
      }
      assert all[..k] == all;
      EndFrame();
    }

    /** What the browser reads by splitting the frames at newlines is a prefix of the broadcasts since the
        client joined, if no message contains a newline; all of them up to its drop once it has drained. */
    lemma WireIsPrefix(stream: seq<string>)
      requires Valid() && client.Follows(stream) && FreeOf(client.sent, NL)
      ensures client.from <= |stream| && SplitAll(wire, NL) <= stream[client.from..]
      ensures !writing && client.buffer == [] ==>
                SplitAll(wire, NL) == stream[client.from..if client.closed then client.until else |stream|]
    {
      assert client.sent == Flatten(finished) + parts + client.buffer;
      assert FreeOf(Flatten(finished), NL);
      SplitJoined(wire, finished, NL);
      assert client.sent <= stream[client.from..];
    }
  }

  /** A hub step takes nothing out of a channel and leaves closed channels alone. */
  twostate predicate OnlyFed(clients: set<Client>)
    reads clients
  {
    forall c | c in clients :: c.taken == old(c.taken) && old(c.buffer) <= c.buffer && c.from == old(c.from)
      && (old(c.closed) ==> c.closed && c.sent == old(c.sent) && c.until == old(c.until))
  }

  /** `clients` are the open ones of `all` clients ever registered, and each follows the stream. */
  ghost predicate Tracked(clients: set<Client>, all: set<Client>, stream: seq<string>)
    reads all
  {
    clients <= all && forall c | c in all :: c.Valid() && c.closed == (c !in clients) && c.Follows(stream)
  }

  lemma JoinTracked(clients: set<Client>, all: set<Client>, stream: seq<string>, client: Client)
    requires Tracked(clients, all, stream) && client !in all
    requires client.Valid() && client.sent == [] && !client.closed && client.from == |stream|
    ensures Tracked(clients + {client}, all + {client}, stream)
  {
    assert client.Follows(stream);
  }

  lemma DroppedStillFollow(dropped: set<Client>, stream: seq<string>, message: string)
    requires forall c | c in dropped :: c.closed && c.Follows(stream)
    ensures forall c | c in dropped :: c.Follows(stream + [message])
  {
    forall c | c in dropped
      ensures c.Follows(stream + [message])
    {
      c.StillFollows(stream, message);
    }
  }

  /** A client has been sent the message, or else dropped: the latter exactly if its buffer was full. */
  twostate predicate Served(c: Client, stays: bool, message: string, stream: seq<string>)
    reads c
  {
    && c.Valid() && c.closed == !stays && c.Follows(stream + [message]) && (c.closed ==> c.until == |stream|)
    && (stays <==> old(|c.buffer|) < CAPACITY)
    && c.taken == old(c.taken) && old(c.buffer) <= c.buffer && c.from == old(c.from)
  }

  /** The broadcast branch of both loops: sends to every client that has room and drops the others, in any
      order. */
  method SendToAll(clients: set<Client>, message: string, ghost all: set<Client>, ghost stream: seq<string>)
    returns (left: set<Client>)
    requires Tracked(clients, all, stream)
    modifies clients
    ensures left <= clients && Tracked(left, all, stream + [message]) && OnlyFed(all)
    ensures forall c | c in clients :: c in left <==> old(|c.buffer|) < CAPACITY
    ensures forall c | c in clients - left :: c.until == |stream|
  {
    DroppedStillFollow(all - clients, stream, message);
    left := clients;
    var rest := clients;
    while rest != {}
      invariant rest <= left <= clients
      invariant forall c | c in rest :: unchanged(c)
      invariant forall c | c in clients - rest :: Served(c, c in left, message, stream)
    {
      var c :| c in rest;
      var ok := c.Offer(message, stream);
      if !ok { left := left - {c}; }
      rest := rest - {c};
    }
    assert forall c | c in clients :: Served(c, c in left, message, stream);
  }

  method CloseAll(clients: set<Client>, ghost all: set<Client>, ghost stream: seq<string>)
    requires Tracked(clients, all, stream)
    modifies clients
    ensures Tracked({}, all, stream) && OnlyFed(all)
    ensures forall c | c in clients :: c.until == |stream| && c.sent == old(c.sent)
  {
    var rest := clients;
    while rest != {}
      invariant rest <= clients
      invariant forall c | c in rest :: unchanged(c)
      invariant forall c | c in clients - rest :: Finished(c, stream)
    {
      var c :| c in rest;
      c.Close(stream);
      rest := rest - {c};
    }
    assert forall c | c in clients :: Finished(c, stream);
  }

  /** A client's channel has been closed with what was queued in it. */
  twostate predicate Finished(c: Client, stream: seq<string>)
    reads c
  {
    && c.Valid() && c.closed && c.Follows(stream) && c.until == |stream|
    && c.sent == old(c.sent) && c.taken == old(c.taken) && c.buffer == old(c.buffer) && c.from == old(c.from)
  }

  /** The hub of the custom-area dashboard. */
  class Hub {
    var clients: set<Client>
    var connectedClients: nat
    ghost var all: set<Client>
    ghost var stream: seq<string>

    /** Holds after every step of the loop. */
    ghost predicate Valid()
      reads this, all
    {
      Tracked(clients, all, stream) && connectedClients == |clients|
    }

    constructor ()
      ensures Valid() && clients == {} && stream == [] && all == {}
    {
      clients, connectedClients, all, stream := {}, 0, {}, [];
    }

    method Register(client: Client)
      requires Valid() && client !in all && client.Valid() && client.sent == [] && !client.closed
      modifies this, client`from
      ensures Valid() && clients == old(clients) + {client} && all == old(all) + {client} && stream == old(stream)
      ensures client.from == |stream|
    {
      client.from := |stream|;
      JoinTracked(clients, all, stream, client);
      clients, all := clients + {client}, all + {client};
      connectedClients := |clients|;
    }

    method Unregister(client: Client)
      requires Valid()
      modifies this, client`closed, client`until
      ensures Valid() && clients == old(clients) - {client} && all == old(all) && stream == old(stream)
      ensures if client in old(clients) then client.closed && client.until == |stream| else unchanged(client)
    {
      if client in clients {
        clients := clients - {client};
        client.Close(stream);
        connectedClients := |clients|;
      }
    }

    /** A broadcast reaches every client with room; the others are dropped without it. */
    method Broadcast(message: string)
      requires Valid()
      modifies this, clients
      ensures Valid() && stream == old(stream) + [message] && all == old(all) && clients <= old(clients)
      ensures forall c | c in old(clients) :: c in clients <==> old(|c.buffer|) < CAPACITY
      ensures OnlyFed(all)
    {
      var left := SendToAll(clients, message, all, stream);
      ghost var next := stream + [message];
      assert Tracked(left, all, next) && OnlyFed(all);
      connectedClients := |left|;
      clients, stream := left, next;
      assert Tracked(clients, all, stream);
    }
  }

  /** The hub of the brand dashboard: no cached count, a broadcast counter, and a `Stop` from outside. */
  class WebSocketHub {
    var clients: set<Client>
    var lastBroadcast: nat
    ghost var all: set<Client>
    ghost var stream: seq<string>

    ghost predicate Valid()
      reads this, all
    {
      Tracked(clients, all, stream) && lastBroadcast == |stream|
    }

    constructor ()
      ensures Valid() && clients == {} && stream == [] && all == {}
    {
      clients, lastBroadcast, all, stream := {}, 0, {}, [];
    }

    method Register(client: Client)
      requires Valid() && client !in all && client.Valid() && client.sent == [] && !client.closed
      modifies this, client`from
      ensures Valid() && clients == old(clients) + {client} && all == old(all) + {client} && stream == old(stream)
      ensures client.from == |stream|
    {
      client.from := |stream|;
      JoinTracked(clients, all, stream, client);
      clients, all := clients + {client}, all + {client};
    }

    method Unregister(client: Client)
      requires Valid()
      modifies this, client`closed, client`until
      ensures Valid() && clients == old(clients) - {client} && all == old(all) && stream == old(stream)
      ensures if client in old(clients) then client.closed && client.until == |stream| else unchanged(client)
    {
      if client in clients {
        clients := clients - {client};
        client.Close(stream);
      }
    }

    method Broadcast(message: string)
      requires Valid()
      modifies this, clients
      ensures Valid() && stream == old(stream) + [message] && all == old(all) && clients <= old(clients)
      ensures forall c | c in old(clients) :: c in clients <==> old(|c.buffer|) < CAPACITY
      ensures OnlyFed(all)
    {
      var left := SendToAll(clients, message, all, stream);
      clients, lastBroadcast, stream := left, lastBroadcast + 1, stream + [message];
    }

    /** Closes every channel once; what was queued stays readable. */
    method Stop()
      requires Valid()
      modifies this, clients
      ensures Valid() && clients == {} && all == old(all) && stream == old(stream) && OnlyFed(all)
      ensures forall c | c in old(clients) :: c.until == |stream| && c.sent == old(c.sent)
    {
      CloseAll(clients, all, stream);
      clients := {};
    }
  }
}
