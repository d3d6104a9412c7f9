/** The connection and channel of the RabbitMQ subscriber.  Each call of the client library succeeds or fails
    as `fault` says; the network is what is open, as the broker and the client see it. */
module Session {
  import opened Wrappers

  /** The call that fails. */
  datatype Fault = NoFault | Dial | OpenChannel | DeclareExchange | DeclareQueue | SetQos | Bind(key: string) | Register

  datatype Channel = Channel(conn: nat, prefetch: nat, consuming: bool)

  /** Open connections, open channels, and the routing keys bound to each queue. */
  datatype Net = Net(conns: set<nat>, channels: map<nat, Channel>, bindings: set<(string, string)>, next: nat) {
    function ChannelGone(c: nat): Net { this.(channels := channels - {c}) }

    /** A connection takes its channels with it. */
    function ConnGone(k: nat): Net {
      this.(conns := conns - {k}, channels := map c | c in channels && channels[c].conn != k :: channels[c])
    }

    function Dialled(): Net { this.(conns := conns + {next}, next := next + 1) }

    function Opened(k: nat): Net { this.(channels := channels[next := Channel(k, 0, false)], next := next + 1) }

    function WithQos(c: nat, prefetch: nat): Net
      requires c in channels
    {
      this.(channels := channels[c := channels[c].(prefetch := prefetch)])
    }

    function WithConsumer(c: nat): Net
      requires c in channels
    {
      this.(channels := channels[c := channels[c].(consuming := true)])
    }

    function WithBinding(queue: string, key: string): Net { this.(bindings := bindings + {(queue, key)}) }

    predicate NothingOpen() { conns == {} && channels == map[] }
  }

  /** Nothing is open but what the subscriber has stored. */
  ghost predicate Tidy(net: Net, conn: Option<nat>, channel: Option<nat>) {
    && (forall k | k in net.conns :: conn == Some(k) && k < net.next)
    && (forall c | c in net.channels :: channel == Some(c) && net.channels[c].conn in net.conns && c < net.next)
    && (channel.Some? ==> conn.Some?)
  }

  lemma ClosingLeavesNothing(net: Net, conn: Option<nat>, channel: Option<nat>)
    requires Tidy(net, conn, channel)
    ensures conn.None? ==> net.NothingOpen()
    ensures conn.Some? && channel.Some? ==> net.ChannelGone(channel.value).ConnGone(conn.value).NothingOpen()
    ensures conn.Some? && channel.None? ==> net.ConnGone(conn.value).NothingOpen()
  {
  }

  class Subscriber {
    var conn: Option<nat>
    var channel: Option<nat>
    var queue: string
    var done: bool
    var net: Net

    ghost predicate Valid() reads this { Tidy(net, conn, channel) }

    method CloseLocked()
      requires Valid()
      modifies this`conn, this`channel, this`net
      ensures conn.None? && channel.None? && net.NothingOpen()
      ensures net.bindings == old(net.bindings) && net.next == old(net.next)
    {
      ClosingLeavesNothing(net, conn, channel);
      if channel.Some? {
        net := net.ChannelGone(channel.value);
        channel := None;
      }
      if conn.Some? {
        net := net.ConnGone(conn.value);
        conn := None;
      }
    }

    /** A new connection with a channel, and nothing else open; on failure nothing at all. */
    method ReconnectLocked(fault: Fault) returns (ok: bool)
      requires Valid()
      modifies this`conn, this`channel, this`net
      ensures ok == (fault !in {Dial, OpenChannel, DeclareExchange, DeclareQueue})
      ensures ok ==> conn == Some(old(net.next)) && channel == Some(old(net.next) + 1)
                     && net.conns == {conn.value} && net.channels == map[channel.value := Channel(conn.value, 0, false)]
      ensures !ok ==> conn.None? && channel.None? && net.NothingOpen()
      ensures net.bindings == old(net.bindings) && Valid()
    {
      CloseLocked();
      if fault == Dial { return false; }
      var newConn := net.next;
      net := net.Dialled();
      if fault == OpenChannel {
        net := net.ConnGone(newConn);
        return false;
      }
      var ch := net.next;
      net := net.Opened(newConn);
      if fault == DeclareExchange || fault == DeclareQueue {
        net := net.ChannelGone(ch).ConnGone(newConn);
        return false;
      }
      conn, channel := Some(newConn), Some(ch);
      return true;
    }

    predicate MustReconnect() reads this { conn.None? || conn.value !in net.conns || channel.None? }

    /** On success one channel consumes, with the prefetch limit of the pool and all routing keys bound; on
        failure nothing stays open and nothing stale is stored, so that the next attempt dials afresh. */
    method StartConsumeSessionLocked(keys: seq<string>, workers: nat, fault: Fault) returns (ok: bool)
      requires Valid()
      modifies this`conn, this`channel, this`net
      ensures Valid()
      ensures ok ==> conn.Some? && channel.Some? && net.conns == {conn.value}
                     && net.channels == map[channel.value := Channel(conn.value, workers, true)]
                     && forall key | key in keys :: (queue, key) in net.bindings
      ensures !ok ==> conn.None? && channel.None? && net.NothingOpen() && MustReconnect()
      ensures ok == if old(MustReconnect()) then fault.NoFault? || (fault.Bind? && fault.key !in keys)
                    else old(channel.value in net.channels) && fault != SetQos && fault != Register
                         && !(fault.Bind? && fault.key in keys)
    {
      if MustReconnect() {
        var connected := ReconnectLocked(fault);
        if !connected { return false; }
      }
      if fault == SetQos || channel.value !in net.channels {
        CloseLocked();
        return false;
      }
      net := net.WithQos(channel.value, workers);
      for i := 0 to |keys|
        invariant conn.Some? && channel.Some? && Valid() && net.conns == {conn.value}
        invariant channel.value in net.channels && net.channels[channel.value].prefetch == workers
        invariant !(fault.Bind? && fault.key in keys[..i])
        invariant forall key | key in keys[..i] :: (queue, key) in net.bindings
      {
        if fault == Bind(keys[i]) {
          CloseLocked();
          return false;
        }
        net := net.WithBinding(queue, keys[i]);
        assert keys[..i + 1] == keys[..i] + [keys[i]];
      }
      assert keys[..|keys|] == keys;
      if fault == Register {
        CloseLocked();
        return false;
      }
      net := net.WithConsumer(channel.value);
      return true;
    }

    /** The broker, the network or the library closes the connection or the channel. */
    method Lose(channelOnly: bool)
      requires Valid() && conn.Some? && channel.Some?
      modifies this`net
      ensures Valid()
      ensures net == if channelOnly then old(net).ChannelGone(channel.value) else old(net).ConnGone(conn.value)
    {
      net := if channelOnly then net.ChannelGone(channel.value) else net.ConnGone(conn.value);
    }

    /** Whatever the library's own errors, the first of which is returned, nothing stays open. */
    method Close(channelErr: Option<string>, connErr: Option<string>) returns (err: Option<string>)
      requires Valid()
      modifies this
      ensures done && conn.None? && channel.None? && net.NothingOpen()
      ensures err == if old(channel).Some? && channelErr.Some? then channelErr
                     else if old(conn).Some? then connErr else None
    {
      done := true;
      err := None;
      ClosingLeavesNothing(net, conn, channel);
      if channel.Some? {
        net := net.ChannelGone(channel.value);
        if channelErr.Some? { err := channelErr; }
        channel := None;
      }
      if conn.Some? {
        net := net.ConnGone(conn.value);
        if connErr.Some? && err.None? { err := connErr; }
        conn := None;
      }
    }
  }

  /** What happens to the subscriber's connection: attempts to consume, losses, and closing by the loop or by
      `Close`. */
  datatype Event = Attempt(keys: seq<string>, workers: nat, fault: Fault) | Loss(channelOnly: bool) | Reset | Shutdown

  /** Over every run of these, from any start, nothing is ever open but what the subscriber has stored, and nothing at
      all right after it was closed. */
  method Run(s: Subscriber, events: seq<Event>)
    requires s.Valid()
    modifies s
    ensures s.Valid()
    ensures events != [] && (events[|events| - 1].Reset? || events[|events| - 1].Shutdown?) ==> s.net.NothingOpen()
  {
    for i := 0 to |events|
      invariant s.Valid()
      invariant i > 0 && (events[i - 1].Reset? || events[i - 1].Shutdown?) ==> s.net.NothingOpen()
    {
      match events[i]
      case Attempt(keys, workers, fault) =>
        var ok := s.StartConsumeSessionLocked(keys, workers, fault);
      case Loss(channelOnly) =>
        if s.conn.Some? && s.channel.Some? { s.Lose(channelOnly); }
      case Reset =>
        s.CloseLocked();
      case Shutdown =>
        var err := s.Close(None, None);
    }
  }
}
