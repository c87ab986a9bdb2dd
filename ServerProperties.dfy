/**
 * What the server promises, stated over the specification functions of
 * ServerOscManager: the heartbeat cadence, the /ping handshake, the receive
 * loop's routing, the log trim and the /data senders.
 */
module ServerProperties {
  import opened Wrappers
  import opened Osc
  import opened KeyOrder
  import opened ServerOscManager

  /** How many messages of `inbox` carry `address`. */
  function CountAddress(inbox: seq<Message>, address: string): nat
    decreases |inbox|
  {
    if inbox == [] then 0
    else CountAddress(inbox[..|inbox| - 1], address) + (if inbox[|inbox| - 1].address == address then 1 else 0)
  }

  // ---------------------------------------------------------------------------
  // The receive loop

  /** Draining two batches one after the other is draining them as one. */
  lemma {:induction false} DrainAppend(s: ServerState, now: int32, a: seq<Message>, b: seq<Message>)
    ensures Drain(s, now, a + b) == Drain(Drain(s, now, a), now, b)
    decreases |b|
  {
    if b == [] {
      assert a + b == a;
    } else {
      assert (a + b)[..|a + b| - 1] == a + b[..|b| - 1];
      DrainAppend(s, now, a, b[..|b| - 1]);
    }
  }

  /** A message that is neither /ping nor /data changes nothing and sends nothing. */
  lemma UnknownAddressIgnored(s: ServerState, now: int32, a: seq<Message>, m: Message, b: seq<Message>)
    requires m.address != "/ping" && m.address != "/data"
    ensures Drain(s, now, a + [m] + b) == Drain(s, now, a + b)
  {
    DrainAppend(s, now, a + [m], b);
    DrainAppend(s, now, a, [m]);
    assert [m][..0] == [];
    DrainAppend(s, now, a, b);
  }

  /** Each /ping contributes its sender to the log and two /pong messages; the counts follow the pings. */
  lemma {:induction false} PingCounts(c: Config, now: int32, inbox: seq<Message>)
    ensures |PingHosts(inbox)| == CountAddress(inbox, "/ping")
    ensures |Pongs(c, now, inbox)| == 2 * CountAddress(inbox, "/ping")
    ensures forall j :: 0 <= j < |Pongs(c, now, inbox)| ==> Pongs(c, now, inbox)[j].address == "/pong"
    decreases |inbox|
  {
    if inbox != [] {
      PingCounts(c, now, inbox[..|inbox| - 1]);
    }
  }

  /** Exactly one packet is published per /data message. */
  lemma {:induction false} OnePacketPerData(inbox: seq<Message>)
    ensures |Packets(inbox)| == CountAddress(inbox, "/data")
    decreases |inbox|
  {
    if inbox != [] {
      OnePacketPerData(inbox[..|inbox| - 1]);
    }
  }

  /** The /ping handshake: get-or-create the sender's session, point it at (host, send port), log the host, pong twice. */
  lemma PingHandshake(s: ServerState, now: int32, m: Message)
    requires m.address == "/ping"
    ensures var t := Dispatch(s, now, m); var h := m.remoteHost;
      && t.clients.Keys == s.clients.Keys + {h}
      && t.clients[h].target == Some(Endpoint(h, s.config.sendPort))
      && |t.clients| == |s.clients| + (if h in s.clients then 0 else 1)
      && (forall k :: k in s.clients && k != h ==> t.clients[k] == s.clients[k])
      && t.subjects == s.subjects + [h]
      && t.published == s.published
  {
  }

  /** The pong answering a /ping whose first two arguments are id and t (any further ones are ignored) carries [id, now, t], once to the sender and once to the multicast group. */
  lemma PongEchoesPing(s: ServerState, now: int32, m: Message, id: int32, time: int32)
    requires m.address == "/ping" && |m.args| >= 2 && m.args[0] == I32(id) && m.args[1] == I32(time)
    ensures var pong := [I32(id), I32(now), I32(time)];
      Dispatch(s, now, m).sent == s.sent +
        [Outgoing(Unicast(m.remoteHost, Some(Endpoint(m.remoteHost, s.config.sendPort))), "/pong", pong),
         Outgoing(Multicast(MulticastGroup(s.config)), "/pong", pong)]
  {
  }

  /** Starting from an empty registry, the registry holds one session per distinct pinging host. */
  lemma RegistryCountsDistinctHosts(s: ServerState, now: int32, inbox: seq<Message>)
    requires s.clients == map[]
    ensures Drain(s, now, inbox).clients.Keys == set h | h in PingHosts(inbox)
    ensures |Drain(s, now, inbox).clients| == |set h | h in PingHosts(inbox)|
  {
  }

  // ---------------------------------------------------------------------------
  // A whole tick

  /** A tick's outgoing messages: a /hello first when the interval has passed, then the pongs. */
  lemma TickSent(s: ServerState, now: int32, inbox: seq<Message>)
    requires s.initialised
    ensures Step(s, now, inbox).sent ==
      s.sent + (if HelloDue(s, now) then [HelloMessage(s.config)] else []) + Pongs(s.config, now, inbox)
  {
    DrainSent(Announce(s, now), now, inbox);
  }

  /** A /hello goes out exactly when more than the interval has passed; only then does the timer move, to now. */
  lemma HelloExactlyWhenDue(s: ServerState, now: int32, inbox: seq<Message>)
    requires s.initialised
    ensures var t := Step(s, now, inbox);
      && ((exists j :: |s.sent| <= j < |t.sent| && t.sent[j].address == "/hello") <==> HelloDue(s, now))
      && (HelloDue(s, now) ==> t.sent[|s.sent|] == HelloMessage(s.config) && t.lastHelloMillis == now)
      && (!HelloDue(s, now) ==> t.lastHelloMillis == s.lastHelloMillis)
      && t.config == s.config && t.helloIntervalMillis == s.helloIntervalMillis
  {
    var a := Announce(s, now);
    var t := Step(s, now, inbox);
    TickSent(s, now, inbox);
    DrainFrame(a, now, inbox);
    PingCounts(s.config, now, inbox);
    var pongs := Pongs(s.config, now, inbox);
    var hello := if HelloDue(s, now) then [HelloMessage(s.config)] else [];
    forall j | |s.sent| + |hello| <= j < |t.sent|
      ensures t.sent[j].address == "/pong"
    {
      assert t.sent[j] == pongs[j - |s.sent| - |hello|];
    }
    if HelloDue(s, now) {
      assert t.sent[|s.sent|].address == "/hello";
    }
  }

  /** The log after a tick: the pinging hosts appended, then at most one oldest entry trimmed. */
  lemma TickLog(s: ServerState, now: int32, inbox: seq<Message>)
    requires s.initialised
    ensures Step(s, now, inbox).subjects == TrimLog(s.subjects + PingHosts(inbox))
    ensures |Step(s, now, inbox).subjects| ==
      var n := |s.subjects| + CountAddress(inbox, "/ping");
      if n > MaxSavedSubjects then n - 1 else n
  {
    DrainSubjects(Announce(s, now), now, inbox);
    PingCounts(s.config, now, inbox);
  }

  /** With at most one ping per tick, a log of at most 20 entries stays at most 20. */
  lemma LogBoundedAtOnePingPerTick(s: ServerState, now: int32, inbox: seq<Message>)
    requires |s.subjects| <= MaxSavedSubjects && CountAddress(inbox, "/ping") <= 1
    ensures |Step(s, now, inbox).subjects| <= MaxSavedSubjects
  {
    if s.initialised {
      TickLog(s, now, inbox);
    }
  }

  /** The trim is one entry per tick, not a cap: two or more pings per tick on a full log make it grow. */
  lemma LogGrowsUnderBurst(s: ServerState, now: int32, inbox: seq<Message>)
    requires s.initialised && |s.subjects| >= MaxSavedSubjects && CountAddress(inbox, "/ping") >= 2
    ensures |Step(s, now, inbox).subjects| == |s.subjects| + CountAddress(inbox, "/ping") - 1
    ensures |Step(s, now, inbox).subjects| > |s.subjects|
  {
    TickLog(s, now, inbox);
  }

  /** Before initialisation a tick and every send leave the state as it is. */
  lemma NothingBeforeInit(s: ServerState, now: int32, inbox: seq<Message>, args: seq<Arg>, clientID: string)
    requires !s.initialised
    ensures Step(s, now, inbox) == s
    ensures Broadcast(s, args) == s
    ensures SendTo(s, args, clientID) == s
  {
  }

  // ---------------------------------------------------------------------------
  // Sending /data

  lemma {:induction false} FanoutAt(clients: map<string, Session>, keys: seq<string>, args: seq<Arg>)
    requires forall k :: k in keys ==> k in clients
    ensures |Fanout(clients, keys, args)| == |keys|
    ensures forall j :: 0 <= j < |keys| ==> Fanout(clients, keys, args)[j] == DataTo(clients, keys[j], args)
    decreases |keys|
  {
    if keys != [] {
      FanoutAt(clients, keys[..|keys| - 1], args);
    }
  }

  /** One message per key, each on that key's sender, in the order of `keys`, reaching every key listed. */
  lemma FanoutDelivers(clients: map<string, Session>, keys: seq<string>, args: seq<Arg>)
    requires forall k :: k in keys ==> k in clients
    ensures var out := Fanout(clients, keys, args);
      && |out| == |keys|
      && (forall j :: 0 <= j < |out| ==>
            out[j].address == "/data" && out[j].args == args && out[j].route.Unicast?
            && out[j].route.client == keys[j] && out[j] == DataTo(clients, keys[j], args))
      && (forall k :: k in keys ==> exists j :: 0 <= j < |out| && out[j].route.client == k)
  {
  }

  /** A broadcast sends `args` once to every registered client, in ascending key order, and changes no session. */
  lemma BroadcastReachesEveryClientOnce(s: ServerState, args: seq<Arg>)
    requires s.initialised
    ensures var t := Broadcast(s, args); var out := t.sent[|s.sent|..];
      && t.clients == s.clients
      && t.sent[..|s.sent|] == s.sent
      && |out| == |s.clients|
      && (forall j :: 0 <= j < |out| ==>
            out[j].address == "/data" && out[j].args == args && out[j].route.Unicast?
            && out[j].route.client in s.clients && out[j] == DataTo(s.clients, out[j].route.client, args))
      && (forall k :: k in s.clients ==> exists j :: 0 <= j < |out| && out[j].route.client == k)
      && (forall i, j :: 0 <= i < j < |out| ==> KeyLess(out[i].route.client, out[j].route.client))
  {
    var order := SortedKeys(s.clients.Keys);
    var t := Broadcast(s, args);
    var out := t.sent[|s.sent|..];
    assert out == Fanout(s.clients, order, args);
    FanoutDelivers(s.clients, order, args);
    assert |s.clients| == |s.clients.Keys|;
  }

  /** A send to one client sends one message on that client's sender and registers the client if it was unknown. */
  lemma SendToReachesOneClient(s: ServerState, args: seq<Arg>, clientID: string)
    requires s.initialised
    ensures var t := SendTo(s, args, clientID);
      && t.sent == s.sent + [Outgoing(Unicast(clientID, t.clients[clientID].target), "/data", args)]
      && t.clients.Keys == s.clients.Keys + {clientID}
      && (forall k :: k in s.clients ==> t.clients[k] == s.clients[k])
      && (clientID !in s.clients ==> t.clients[clientID].target == None && |t.clients| == |s.clients| + 1)
  {
  }

  /** In a coherent state, every broadcast message on a set-up sender goes to that client's own host. */
  lemma BroadcastTargetsOwnHosts(s: ServerState, args: seq<Arg>)
    requires Coherent(s) && s.initialised
    ensures var t := Broadcast(s, args);
      forall j :: |s.sent| <= j < |t.sent| && t.sent[j].route.Unicast? && t.sent[j].route.target.Some? ==>
        t.sent[j].route.target.value.host == t.sent[j].route.client
  {
    var t := Broadcast(s, args);
    BroadcastReachesEveryClientOnce(s, args);
    forall j | |s.sent| <= j < |t.sent| && t.sent[j].route.Unicast? && t.sent[j].route.target.Some?
      ensures t.sent[j].route.target.value.host == t.sent[j].route.client
    {
      assert t.sent[j] == t.sent[|s.sent|..][j - |s.sent|];
    }
  }

  /** In a coherent state, every host in the log is registered, so sending to it registers no new client. */
  lemma SendToLoggedHostKeepsRegistry(s: ServerState, args: seq<Arg>, j: nat)
    requires Coherent(s) && s.initialised && j < |s.subjects|
    ensures SendTo(s, args, s.subjects[j]).clients == s.clients
  {
  }

  // ---------------------------------------------------------------------------
  // Worked examples

  /** Values ["a"], [1, 2], [f] go out as the arguments "a", 1, 2, f in that order. */
  lemma BroadcastArgsExample(f: Float)
    ensures DataArgs(["a"], [1, 2], [f]) == [Str("a"), I32(1), I32(2), F32(f)]
  {
  }

  /** Arguments 1, "x", f decode to ints [1], floats [f], strings ["x"]. */
  lemma DecodeExample(f: Float)
    ensures Decode([I32(1), Str("x"), F32(f)]) == DataPacket([1], [f], ["x"])
  {
    DecodeAppend([I32(1)], [Str("x")]);
    DecodeAppend([I32(1), Str("x")], [F32(f)]);
    assert [I32(1)] + [Str("x")] == [I32(1), Str("x")];
    assert [I32(1), Str("x")] + [F32(f)] == [I32(1), Str("x"), F32(f)];
  }

  /**
   * With init at clock 0, ticks at clock 0, 1000 and 3001 send one /hello, at
   * 3001: init sets the timer to 0 and the test is strictly greater than 3000.
   */
  lemma HeartbeatCadence(host: string, sendPort: int32, receivePort: int32)
    ensures var s0 := Initialise(Unstarted, host, sendPort, receivePort);
      var s1 := Step(s0, 0, []);
      var s2 := Step(s1, 1000, []);
      var s3 := Step(s2, 3001, []);
      s1.sent == [] && s2.sent == [] && s3.sent == [HelloMessage(s0.config)] && s3.lastHelloMillis == 3001
  {
  }
}
