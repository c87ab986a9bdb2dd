/**
 * The server side of the OSC sync protocol: the heartbeat announcer, the
 * per-tick receive loop (/ping handshake and /data decoding), the client
 * registry, the log of recent ping senders, and the four /data senders.
 *
 * The transport is replaced by two logs: `sent` records every message the
 * server hands to a sender (where it goes, its address and arguments), and
 * `published` records every decoded packet handed to the new-data event.
 * The pure functions below say what each operation does to a ServerState;
 * the class OscServer does the same work imperatively and is proved to
 * agree with them.
 */
module ServerOscManager {
  import opened Wrappers
  import opened Osc
  import opened KeyOrder

  const DefaultSendHost: string := "127.0.0.1"
  const DefaultSendPort: int32 := 7776
  const DefaultReceivePort: int32 := 7777
  const HelloIntervalMillis: int := 3000
  const MaxSavedSubjects: nat := 20

  /** A host and port a sender is set up to send to. */
  datatype Endpoint = Endpoint(host: string, port: int32)

  /** A registered client: its unicast sender's target, absent while the sender was never set up. */
  datatype Session = Session(target: Option<Endpoint>)

  /** Which sender a message went out on. */
  datatype Route =
    | Multicast(group: Endpoint)
    | Unicast(client: string, target: Option<Endpoint>)

  /** A message handed to a sender. */
  datatype Outgoing = Outgoing(route: Route, address: string, args: seq<Arg>)

  datatype Config = Config(sendHost: string, sendPort: int32, receivePort: int32)

  /** The values a settings file gives for each key, absent when the key is missing. */
  datatype SettingsFile = SettingsFile(host: Option<string>, sendPort: Option<int32>, receivePort: Option<int32>)

  datatype ServerState = ServerState(
    initialised: bool,
    config: Config,
    lastHelloMillis: int32,
    helloIntervalMillis: int,
    clients: map<string, Session>,
    subjects: seq<string>,
    sent: seq<Outgoing>,
    published: seq<DataPacket>)

  /** The state of a server that was constructed but not yet initialised. */
  const Unstarted: ServerState :=
    ServerState(false, Config("", 0, 0), 0, 0, map[], [], [], [])

  /**
   * What every reachable state satisfies: a session's sender, once set up,
   * targets the session's own host; every logged subject is registered; an
   * initialised server uses the 3000 ms heartbeat interval.
   */
  ghost predicate Coherent(s: ServerState)
  {
    (forall h :: h in s.clients && s.clients[h].target.Some? ==> s.clients[h].target.value.host == h) &&
    (forall j :: 0 <= j < |s.subjects| ==> s.subjects[j] in s.clients) &&
    (s.initialised ==> s.helloIntervalMillis == HelloIntervalMillis)
  }

  // ---------------------------------------------------------------------------
  // Initialisation

  function Initialise(s: ServerState, host: string, sendPort: int32, receivePort: int32): ServerState
  {
    s.(initialised := true, config := Config(host, sendPort, receivePort),
       lastHelloMillis := 0, helloIntervalMillis := HelloIntervalMillis)
  }

  /** The configuration read from a settings file; each missing key, or a missing file, gives the default. */
  function ResolveSettings(file: Option<SettingsFile>): (c: Config)
    ensures file.None? ==> c == Config(DefaultSendHost, DefaultSendPort, DefaultReceivePort)
    ensures file.Some? && file.value.sendPort.Some? ==> c.sendPort == file.value.sendPort.value
    ensures file.Some? && file.value.sendPort.None? ==> c.sendPort == DefaultSendPort
    ensures file.Some? ==> c.sendHost == (if file.value.host.Some? then file.value.host.value else DefaultSendHost)
    ensures file.Some? ==> c.receivePort == (if file.value.receivePort.Some? then file.value.receivePort.value else DefaultReceivePort)
  {
    match file
    case None => Config(DefaultSendHost, DefaultSendPort, DefaultReceivePort)
    case Some(f) =>
      Config(if f.host.Some? then f.host.value else DefaultSendHost,
             if f.sendPort.Some? then f.sendPort.value else DefaultSendPort,
             if f.receivePort.Some? then f.receivePort.value else DefaultReceivePort)
  }

  // ---------------------------------------------------------------------------
  // One tick: heartbeat, receive loop, log trim

  function MulticastGroup(c: Config): Endpoint
  {
    Endpoint(c.sendHost, c.sendPort)
  }

  function HelloMessage(c: Config): Outgoing
  {
    Outgoing(Multicast(MulticastGroup(c)), "/hello", [I32(c.receivePort)])
  }

  predicate HelloDue(s: ServerState, now: int32)
  {
    now as int - s.lastHelloMillis as int > s.helloIntervalMillis
  }

  /** The heartbeat: a /hello on the multicast group once the interval has passed. */
  function Announce(s: ServerState, now: int32): ServerState
  {
    if HelloDue(s, now) then s.(sent := s.sent + [HelloMessage(s.config)], lastHelloMillis := now)
    else s
  }

  /** The /pong arguments: the sender's id, the server's clock, the sender's timestamp. */
  function PongArgs(args: seq<Arg>, now: int32): seq<Arg>
  {
    [I32(ArgAsInt32(args, 0)), I32(now), I32(ArgAsInt32(args, 1))]
  }

  /** The two /pong messages answering a /ping: unicast to the sender, then on the multicast group. */
  function PongPair(c: Config, now: int32, m: Message): seq<Outgoing>
  {
    var pong := PongArgs(m.args, now);
    [Outgoing(Unicast(m.remoteHost, Some(Endpoint(m.remoteHost, c.sendPort))), "/pong", pong),
     Outgoing(Multicast(MulticastGroup(c)), "/pong", pong)]
  }

  /** Handling one received message, routed by its address. */
  function Dispatch(s: ServerState, now: int32, m: Message): ServerState
  {
    if m.address == "/ping" then
      var h := m.remoteHost;
      s.(clients := s.clients[h := Session(Some(Endpoint(h, s.config.sendPort)))],
         subjects := s.subjects + [h],
         sent := s.sent + PongPair(s.config, now, m))
    else if m.address == "/data" then
      s.(published := s.published + [Decode(m.args)])
    else
      s
  }

  /** Handling every waiting message, in arrival order. */
  function Drain(s: ServerState, now: int32, inbox: seq<Message>): ServerState
    decreases |inbox|
  {
    if inbox == [] then s
    else Dispatch(Drain(s, now, inbox[..|inbox| - 1]), now, inbox[|inbox| - 1])
  }

  /** The log trim: one oldest entry goes when the log holds more than 20. */
  function TrimLog(log: seq<string>): (r: seq<string>)
    ensures |r| <= |log| && r == log[|log| - |r|..]
    ensures |log| > MaxSavedSubjects ==> |r| == |log| - 1 && |r| >= MaxSavedSubjects
    ensures |log| <= MaxSavedSubjects ==> |r| == |log|
  {
    if |log| > MaxSavedSubjects then log[1..] else log
  }

  /** One tick of an initialised server; before initialisation nothing runs. */
  function Step(s: ServerState, now: int32, inbox: seq<Message>): ServerState
  {
    if !s.initialised then s
    else
      var d := Drain(Announce(s, now), now, inbox);
      d.(subjects := TrimLog(d.subjects))
  }

  // ---------------------------------------------------------------------------
  // Sending /data

  /** A /data message on the sender of registered client `key`. */
  function DataTo(clients: map<string, Session>, key: string, args: seq<Arg>): Outgoing
    requires key in clients
  {
    Outgoing(Unicast(key, clients[key].target), "/data", args)
  }

  /** One /data message per key, in the order of `keys`. */
  function Fanout(clients: map<string, Session>, keys: seq<string>, args: seq<Arg>): seq<Outgoing>
    requires forall k :: k in keys ==> k in clients
    decreases |keys|
  {
    if keys == [] then []
    else Fanout(clients, keys[..|keys| - 1], args) + [DataTo(clients, keys[|keys| - 1], args)]
  }

  lemma FanoutStep(clients: map<string, Session>, keys: seq<string>, j: nat, args: seq<Arg>)
    requires j < |keys|
    requires forall k :: k in keys ==> k in clients
    ensures forall k :: k in keys[..j] ==> k in clients
    ensures Fanout(clients, keys[..j + 1], args) == Fanout(clients, keys[..j], args) + [DataTo(clients, keys[j], args)]
  {
    assert keys[..j + 1][..j] == keys[..j];
  }

  /** The messages of the broadcast loop, one per key of `keys`, built in order. */
  method FanoutLoop(clients: map<string, Session>, keys: seq<string>, args: seq<Arg>) returns (batch: seq<Outgoing>)
    requires forall k :: k in keys ==> k in clients
    ensures batch == Fanout(clients, keys, args)
  {
    batch := [];
    for j := 0 to |keys|
      invariant batch == Fanout(clients, keys[..j], args)
    {
      FanoutStep(clients, keys, j, args);
      var key := keys[j];
      batch := batch + [Outgoing(Unicast(key, clients[key].target), "/data", args)];
    }
    assert keys[..|keys|] == keys;
  }

  /** Sending to every registered client, in the registry's key order. */
  function Broadcast(s: ServerState, args: seq<Arg>): ServerState
  {
    if !s.initialised then s
    else s.(sent := s.sent + Fanout(s.clients, SortedKeys(s.clients.Keys), args))
  }

  /** Sending to one client; a client not yet registered is registered first, its sender never set up. */
  function SendTo(s: ServerState, args: seq<Arg>, clientID: string): ServerState
  {
    if !s.initialised then s
    else
      var clients := if clientID in s.clients then s.clients else s.clients[clientID := Session(None)];
      s.(clients := clients, sent := s.sent + [DataTo(clients, clientID, args)])
  }

  // ---------------------------------------------------------------------------
  // The receive loop in closed form

  /** The senders of the /ping messages, in arrival order. */
  function PingHosts(inbox: seq<Message>): seq<string>
    decreases |inbox|
  {
    if inbox == [] then []
    else
      var m := inbox[|inbox| - 1];
      PingHosts(inbox[..|inbox| - 1]) + (if m.address == "/ping" then [m.remoteHost] else [])
  }

  /** The /pong messages the receive loop sends, two per /ping. */
  function Pongs(c: Config, now: int32, inbox: seq<Message>): seq<Outgoing>
    decreases |inbox|
  {
    if inbox == [] then []
    else
      var m := inbox[|inbox| - 1];
      Pongs(c, now, inbox[..|inbox| - 1]) + (if m.address == "/ping" then PongPair(c, now, m) else [])
  }

  /** The packets the receive loop publishes, one per /data message. */
  function Packets(inbox: seq<Message>): seq<DataPacket>
    decreases |inbox|
  {
    if inbox == [] then []
    else
      var m := inbox[|inbox| - 1];
      Packets(inbox[..|inbox| - 1]) + (if m.address == "/data" then [Decode(m.args)] else [])
  }

  /** The session every pinging host ends up with: a sender set up to (host, send port). */
  function PingSessions(port: int32, inbox: seq<Message>): map<string, Session>
  {
    map h | h in PingHosts(inbox) :: Session(Some(Endpoint(h, port)))
  }

  /** The receive loop touches only the registry, the log and the two output logs. */
  lemma {:induction false} DrainFrame(s: ServerState, now: int32, inbox: seq<Message>)
    ensures Drain(s, now, inbox) == s.(clients := Drain(s, now, inbox).clients,
                                       subjects := Drain(s, now, inbox).subjects,
                                       sent := Drain(s, now, inbox).sent,
                                       published := Drain(s, now, inbox).published)
    decreases |inbox|
  {
    if inbox != [] {
      DrainFrame(s, now, inbox[..|inbox| - 1]);
    }
  }

  /** Every pinging host is (re)registered with a sender set up to (host, send port); no other entry changes. */
  lemma {:induction false} DrainClients(s: ServerState, now: int32, inbox: seq<Message>)
    ensures Drain(s, now, inbox).clients == s.clients + PingSessions(s.config.sendPort, inbox)
    decreases |inbox|
  {
    var port := s.config.sendPort;
    if inbox == [] {
      assert PingSessions(port, inbox) == map[];
      assert s.clients + map[] == s.clients;
    } else {
      var init, m := inbox[..|inbox| - 1], inbox[|inbox| - 1];
      DrainClients(s, now, init);
      DrainFrame(s, now, init);
      if m.address == "/ping" {
        var h := m.remoteHost;
        assert PingHosts(inbox) == PingHosts(init) + [h];
        assert PingSessions(port, inbox) == PingSessions(port, init)[h := Session(Some(Endpoint(h, port)))];
        assert (s.clients + PingSessions(port, init))[h := Session(Some(Endpoint(h, port)))]
            == s.clients + PingSessions(port, inbox);
      } else {
        assert PingHosts(inbox) == PingHosts(init);
        assert PingSessions(port, inbox) == PingSessions(port, init);
      }
    }
  }

  /** The log gains the senders of the /ping messages, in arrival order, and keeps its prefix. */
  lemma {:induction false} DrainSubjects(s: ServerState, now: int32, inbox: seq<Message>)
    ensures Drain(s, now, inbox).subjects == s.subjects + PingHosts(inbox)
    decreases |inbox|
  {
    if inbox != [] {
      DrainSubjects(s, now, inbox[..|inbox| - 1]);
    }
  }

  /** The receive loop sends exactly the /pong pairs, in arrival order. */
  lemma {:induction false} DrainSent(s: ServerState, now: int32, inbox: seq<Message>)
    ensures Drain(s, now, inbox).sent == s.sent + Pongs(s.config, now, inbox)
    decreases |inbox|
  {
    if inbox != [] {
      DrainSent(s, now, inbox[..|inbox| - 1]);
      DrainFrame(s, now, inbox[..|inbox| - 1]);
    }
  }

  /** The receive loop publishes exactly one decoded packet per /data message, in arrival order. */
  lemma {:induction false} DrainPublished(s: ServerState, now: int32, inbox: seq<Message>)
    ensures Drain(s, now, inbox).published == s.published + Packets(inbox)
    decreases |inbox|
  {
    if inbox != [] {
      DrainPublished(s, now, inbox[..|inbox| - 1]);
    }
  }

  /**
   * The receive loop's whole effect: pinging hosts are (re)registered, their
   * names appended to the log, two pongs sent per ping, one packet published
   * per /data message; everything else is unchanged.
   */
  lemma DrainClosedForm(s: ServerState, now: int32, inbox: seq<Message>)
    ensures Drain(s, now, inbox) ==
      s.(clients := s.clients + PingSessions(s.config.sendPort, inbox),
         subjects := s.subjects + PingHosts(inbox),
         sent := s.sent + Pongs(s.config, now, inbox),
         published := s.published + Packets(inbox))
  {
    DrainFrame(s, now, inbox);
    DrainClients(s, now, inbox);
    DrainSubjects(s, now, inbox);
    DrainSent(s, now, inbox);
    DrainPublished(s, now, inbox);
  }

  lemma DispatchPreservesCoherent(s: ServerState, now: int32, m: Message)
    requires Coherent(s)
    ensures Coherent(Dispatch(s, now, m))
  {
  }

  lemma {:induction false} DrainPreservesCoherent(s: ServerState, now: int32, inbox: seq<Message>)
    requires Coherent(s)
    ensures Coherent(Drain(s, now, inbox))
    decreases |inbox|
  {
    if inbox != [] {
      DrainPreservesCoherent(s, now, inbox[..|inbox| - 1]);
      DispatchPreservesCoherent(Drain(s, now, inbox[..|inbox| - 1]), now, inbox[|inbox| - 1]);
    }
  }

  lemma TrimPreservesCoherent(s: ServerState)
    requires Coherent(s)
    ensures Coherent(s.(subjects := TrimLog(s.subjects)))
  {
  }

  lemma StepPreservesCoherent(s: ServerState, now: int32, inbox: seq<Message>)
    requires Coherent(s)
    ensures Coherent(Step(s, now, inbox))
  {
    if s.initialised {
      var a := Announce(s, now);
      DrainPreservesCoherent(a, now, inbox);
      TrimPreservesCoherent(Drain(a, now, inbox));
    }
  }

  lemma SendToPreservesCoherent(s: ServerState, args: seq<Arg>, clientID: string)
    requires Coherent(s)
    ensures Coherent(SendTo(s, args, clientID))
  {
  }

  lemma BroadcastPreservesCoherent(s: ServerState, args: seq<Arg>)
    requires Coherent(s)
    ensures Coherent(Broadcast(s, args))
  {
  }

  // ---------------------------------------------------------------------------
  // The server object

  class OscServer {
    var initialised: bool
    var sendHost: string
    var sendPort: int32
    var receivePort: int32
    var lastHelloMillis: int32
    var helloIntervalMillis: int
    var clients: map<string, Session>
    var subjects: seq<string>
    var sent: seq<Outgoing>
    var published: seq<DataPacket>

    function State(): ServerState
      reads this
    {
      ServerState(initialised, Config(sendHost, sendPort, receivePort), lastHelloMillis,
                  helloIntervalMillis, clients, subjects, sent, published)
    }

    ghost predicate Valid()
      reads this
    {
      Coherent(State())
    }

    /** A new server is not initialised; its timer and configuration are given placeholder values. */
    constructor ()
      ensures Valid() && State() == Unstarted
    {
      initialised := false;
      sendHost, sendPort, receivePort := "", 0, 0;
      lastHelloMillis, helloIntervalMillis := 0, 0;
      clients, subjects, sent, published := map[], [], [], [];
    }

    method Init(host: string, serverSendPort: int32, serverReceivePort: int32)
      requires Valid()
      modifies this
      ensures Valid()
      ensures State() == Initialise(old(State()), host, serverSendPort, serverReceivePort)
    {
      sendHost := host;
      sendPort := serverSendPort;
      receivePort := serverReceivePort;
      lastHelloMillis := 0;
      helloIntervalMillis := HelloIntervalMillis;
      initialised := true;
    }

    /** Initialisation from a settings file's values; the file reading itself is outside the model. */
    method InitFromSettings(file: Option<SettingsFile>)
      requires Valid()
      modifies this
      ensures Valid()
      ensures var c := ResolveSettings(file);
        State() == Initialise(old(State()), c.sendHost, c.sendPort, c.receivePort)
    {
      var host := DefaultSendHost;
      var port := DefaultSendPort;
      var receive := DefaultReceivePort;
      if file.Some? {
        var f := file.value;
        host := if f.host.Some? then f.host.value else DefaultSendHost;
        port := if f.sendPort.Some? then f.sendPort.value else DefaultSendPort;
        receive := if f.receivePort.Some? then f.receivePort.value else DefaultReceivePort;
      }
      Init(host, port, receive);
    }

    /** One update tick at server time `now`, with `inbox` the messages waiting on the receiver. */
    method Tick(now: int32, inbox: seq<Message>)
      requires Valid()
      modifies this
      ensures Valid()
      ensures State() == Step(old(State()), now, inbox)
    {
      if !initialised {
        return;
      }
      SendHelloIfDue(now);
      ghost var announced := State();
      var i := 0;
      while i < |inbox|
        invariant 0 <= i <= |inbox|
        invariant State() == Drain(announced, now, inbox[..i])
      {
        assert inbox[..i + 1][..i] == inbox[..i];
        Receive(now, inbox[i]);
        i := i + 1;
      }
      assert inbox[..|inbox|] == inbox;
      TrimSubjects();
      StepPreservesCoherent(old(State()), now, inbox);
    }

    /** The heartbeat at the start of a tick. */
    method SendHelloIfDue(now: int32)
      modifies this
      ensures State() == Announce(old(State()), now)
    {
      if now as int - lastHelloMillis as int > helloIntervalMillis {
        sent := sent + [Outgoing(Multicast(Endpoint(sendHost, sendPort)), "/hello", [I32(receivePort)])];
        lastHelloMillis := now;
      }
    }

    /** Handles one message taken from the receiver. */
    method Receive(now: int32, m: Message)
      modifies this
      ensures State() == Dispatch(old(State()), now, m)
    {
      if m.address == "/ping" {
        var h := m.remoteHost;
        clients := clients[h := Session(Some(Endpoint(h, sendPort)))];
        subjects := subjects + [h];
        var remoteId := ArgAsInt32(m.args, 0);
        var remoteTime := ArgAsInt32(m.args, 1);
        var pong := [I32(remoteId), I32(now), I32(remoteTime)];
        sent := sent + [Outgoing(Unicast(h, clients[h].target), "/pong", pong)];
        sent := sent + [Outgoing(Multicast(Endpoint(sendHost, sendPort)), "/pong", pong)];
      }
      if m.address == "/data" {
        var packet := DecodeData(m.args);
        published := published + [packet];
      }
    }

    /** The log trim at the end of a tick. */
    method TrimSubjects()
      modifies this
      ensures State() == old(State()).(subjects := TrimLog(old(subjects)))
    {
      if |subjects| > MaxSavedSubjects {
        subjects := subjects[1..];
      }
    }

    /** Hands `args` as a /data message to every registered client's sender, in key order. */
    method SendToAll(args: seq<Arg>)
      requires Valid() && initialised
      modifies this
      ensures Valid()
      ensures State() == Broadcast(old(State()), args)
    {
      var order := SortedKeys(clients.Keys);
      var batch := FanoutLoop(clients, order, args);
      BroadcastPreservesCoherent(State(), args);
      sent := sent + batch;
    }

    /** Hands `args` as a /data message to the sender of `clientID`, registering it if absent. */
    method SendToClient(args: seq<Arg>, clientID: string)
      requires Valid() && initialised
      modifies this
      ensures Valid()
      ensures State() == SendTo(old(State()), args, clientID)
    {
      if clientID !in clients {
        clients := clients[clientID := Session(None)];
      }
      sent := sent + [Outgoing(Unicast(clientID, clients[clientID].target), "/data", args)];
    }

    method BroadcastData(strings: seq<string>, ints: seq<int32>, floats: seq<Float>)
      requires Valid()
      modifies this
      ensures Valid()
      ensures State() == Broadcast(old(State()), DataArgs(strings, ints, floats))
    {
      if !initialised {
        return;
      }
      var args := BuildDataArgs(strings, ints, floats);
      SendToAll(args);
    }

    method SendDataTo(strings: seq<string>, ints: seq<int32>, floats: seq<Float>, clientID: string)
      requires Valid()
      modifies this
      ensures Valid()
      ensures State() == SendTo(old(State()), DataArgs(strings, ints, floats), clientID)
    {
      if !initialised {
        return;
      }
      var args := BuildDataArgs(strings, ints, floats);
      SendToClient(args, clientID);
    }

    method BroadcastPacket(packet: DataPacket)
      requires Valid()
      modifies this
      ensures Valid()
      ensures State() == Broadcast(old(State()), PacketArgs(packet))
    {
      if !initialised {
        return;
      }
      var args := BuildDataArgs(packet.strings, packet.ints, packet.floats);
      SendToAll(args);
    }

    method SendPacketTo(packet: DataPacket, clientID: string)
      requires Valid()
      modifies this
      ensures Valid()
      ensures State() == SendTo(old(State()), PacketArgs(packet), clientID)
    {
      if !initialised {
        return;
      }
      var args := BuildDataArgs(packet.strings, packet.ints, packet.floats);
      SendToClient(args, clientID);
    }
  }
}
