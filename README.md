# ofxOSCSync server: a Dafny model

This project models the server half of ofxOSCSync's discovery and data
protocol (`ofxServerOscManager`). Each update tick, the server sends a `/hello`
heartbeat on its multicast sender when more than 3000 ms have passed. It then
drains every waiting OSC message:

- a `/ping [id, t]` registers (or re-binds) a session for the sender's host,
  appends the host to the recent-subjects log, and answers with
  `/pong [id, now, t]`, first to the host and then on the multicast group;
- a `/data` message is decoded into a `DataPacket` and published.

After the drain, one oldest log entry is dropped when the log holds more than
20. Four `sendData` variants encode strings, then ints, then floats into a
`/data` message. Two of them send it to every registered client, in the
registry's key order. The other two send it to one client, registering that
client first if it is unknown. Before `init`, nothing happens.

Files:

- `Wrappers.dfy`: `Option`.
- `Osc.dfy`: OSC argument types, 32-bit narrowing, and `/data` decoding
  (`Decode`, `DecodeData`) and encoding (`DataArgs`, `BuildDataArgs`), with
  round-trip lemmas.
- `KeyOrder.dfy`: the order in which a `std::map<string, …>` visits its keys.
  `KeyLess` is lexicographic order, and `SortedKeys` is the unique ascending
  enumeration of a key set.
- `ServerOscManager.dfy`: `ServerState` and the specification functions
  (`Announce`, `Dispatch`, `Drain`, `TrimLog`, `Step`, `Broadcast`, `SendTo`).
  The class `OscServer` has the source's fields and imperative methods, each
  proved equal to its specification function. `Coherent` is the state
  invariant the methods keep.
- `ServerProperties.dfy`: lemmas about the specification functions.

The transport becomes two logs on the state. `sent` records each message
handed to a sender, as a route (the multicast group, or a client's unicast
sender with its target), an address and arguments. `published` records each
packet handed to the new-data event. The clock is the parameter `now` of
`Tick`, and the waiting messages are its parameter `inbox`.

`init` sets the heartbeat timer to 0 and the test is `now - last > 3000`.
So with `init` at clock 0, ticks at clock 0 and 1000 send nothing and a tick
at 3001 sends the `/hello` (`ServerProperties.HeartbeatCadence`).

`Coherent` is the state invariant every operation keeps. A sender that has
been set up targets its client's own host, and every host in the log is
registered. `BroadcastTargetsOwnHosts` and `SendToLoggedHostKeepsRegistry`
are the properties that rely on it.

## Model

| member | source | states |
|---|---|---|
| `Osc.Narrow32` | src/Server/ofxServerOscManager.cpp:116-118 | An INT64 argument read as int32 keeps its value when it fits and is congruent to it modulo 2^32 otherwise |
| `Osc.ArgAsInt32` | src/Server/ofxServerOscManager.cpp:98-99 | The ping reader and the `/data` decoder read an int argument the same way (`IntValue(arg) == [r]`); an argument the decoder puts in no int list, or a missing one, reads as 0 |
| `Osc.DecodeData` | src/Server/ofxServerOscManager.cpp:111-128 | The decode loop yields exactly `Decode(args)`: the int, float and string subsequences of the arguments |
| `Osc.DecodeAppend` | src/Server/ofxServerOscManager.cpp:113-128 | Decoding preserves order within each type: the packet of a + b is the packet of a followed by that of b, per type |
| `Osc.DecodeDropsOther` | src/Server/ofxServerOscManager.cpp:115-127 | An argument of any other type can be removed without changing the packet |
| `Osc.DecodeCount` | src/Server/ofxServerOscManager.cpp:113-128 | ints + floats + strings + ignored arguments = number of arguments, so ints + floats + strings <= number of arguments |
| `Osc.BuildDataArgs` | src/Server/ofxServerOscManager.cpp:189-205 | The three append loops build all strings, then all ints, then all floats, each in input order |
| `Osc.EncodeDecode` | src/Server/ofxServerOscManager.cpp:192-205 | Decoding the arguments built from strings, ints and floats gives back exactly those three sequences |
| `Osc.PacketRoundTrip` | src/Server/ofxServerOscManager.cpp:245-257 | A packet sent with the packet overloads decodes back to the same packet |
| `KeyOrder.SortedKeys` | src/Server/ofxServerOscManager.cpp:207-210 | The registry's iteration order lists every key exactly once, in strictly ascending lexicographic order |
| `KeyOrder.AscendingUnique` | src/Server/ofxServerOscManager.cpp:207-210 | Two strictly ascending enumerations of the same keys are equal, so the broadcast order is fully determined |
| `KeyOrder.LeastExists` | src/Server/ofxServerOscManager.cpp:207-210 | Every non-empty key set has a least key, the first key the map visits |
| `ServerOscManager.ResolveSettings` | src/Server/ofxServerOscManager.cpp:19-36 | With no settings file the configuration is 127.0.0.1 / 7776 / 7777; with a file, host, send port and receive port each take the file's value, or their default when the key is missing |
| `ServerOscManager.TrimLog` | src/Server/ofxServerOscManager.cpp:138-142 | The trimmed log is a suffix of the log, one entry shorter and still at least 20 when the log held over 20, and unchanged otherwise |
| `ServerOscManager.FanoutLoop` | src/Server/ofxServerOscManager.cpp:207-210 | The broadcast loop builds one `/data` message per key, in key order, each on that client's sender |
| `ServerOscManager.DrainClients` | src/Server/ofxServerOscManager.cpp:87-88 | After the drain, every pinging host's session targets (host, send port), and every other entry is unchanged |
| `ServerOscManager.DrainSubjects` | src/Server/ofxServerOscManager.cpp:90 | The drain appends the pinging hosts to the log in arrival order, duplicates included, and keeps the old log as prefix |
| `ServerOscManager.DrainSent` | src/Server/ofxServerOscManager.cpp:98-108 | The drain sends exactly the pong pairs of the pings, in arrival order, after what was sent before |
| `ServerOscManager.DrainPublished` | src/Server/ofxServerOscManager.cpp:110-130 | The drain publishes the decoded packet of each `/data` message, in arrival order |
| `ServerOscManager.DrainFrame` | src/Server/ofxServerOscManager.cpp:79-132 | The receive loop changes only the registry, the log and the two output logs |
| `ServerOscManager.DrainClosedForm` | src/Server/ofxServerOscManager.cpp:79-132 | The receive loop's whole effect in closed form: registry union ping sessions, log + ping hosts, sent + pongs, published + packets |
| `ServerOscManager.StepPreservesCoherent` | src/Server/ofxServerOscManager.cpp:61-143 | A tick keeps the invariants: set-up senders target their own host, logged hosts are registered, the interval is 3000 ms |
| `ServerOscManager.OscServer.constructor` | src/Server/ofxServerOscManager.cpp:5-8 | A new server is not initialised and has an empty registry and log |
| `ServerOscManager.OscServer.Init` | src/Server/ofxServerOscManager.cpp:42-57 | Sets host and ports, timer 0, interval 3000 ms and `initialised`; the registry and logs are untouched |
| `ServerOscManager.OscServer.InitFromSettings` | src/Server/ofxServerOscManager.cpp:19-36 | Initialises with the settings file's values or their defaults |
| `ServerOscManager.OscServer.Tick` | src/Server/ofxServerOscManager.cpp:61-143 | The update tick produces exactly `Step(old state, now, inbox)` and keeps `Valid()` |
| `ServerOscManager.OscServer.SendHelloIfDue` | src/Server/ofxServerOscManager.cpp:66-76 | Sends `/hello [receivePort]` on the multicast group and moves the timer to now exactly when the interval has passed |
| `ServerOscManager.OscServer.Receive` | src/Server/ofxServerOscManager.cpp:85-131 | Handles one message as `Dispatch`: ping handshake, `/data` publish, or nothing |
| `ServerOscManager.OscServer.TrimSubjects` | src/Server/ofxServerOscManager.cpp:138-142 | Trims the log as `TrimLog` and changes nothing else |
| `ServerOscManager.OscServer.SendToAll` | src/Server/ofxServerOscManager.cpp:207-210 | Appends one `/data` message per registered client, in key order, and changes nothing else |
| `ServerOscManager.OscServer.SendToClient` | src/Server/ofxServerOscManager.cpp:235 | Registers the client with an unset sender if it is absent, then sends one `/data` message on its sender |
| `ServerOscManager.OscServer.BroadcastData` | src/Server/ofxServerOscManager.cpp:185-211 | No-op before init; otherwise broadcasts strings ++ ints ++ floats |
| `ServerOscManager.OscServer.SendDataTo` | src/Server/ofxServerOscManager.cpp:213-236 | No-op before init; otherwise sends strings ++ ints ++ floats to one client, registering it if absent |
| `ServerOscManager.OscServer.BroadcastPacket` | src/Server/ofxServerOscManager.cpp:238-265 | No-op before init; otherwise broadcasts the packet's strings ++ ints ++ floats |
| `ServerOscManager.OscServer.SendPacketTo` | src/Server/ofxServerOscManager.cpp:267-290 | No-op before init; otherwise sends the packet's strings ++ ints ++ floats to one client, registering it if absent |
| `ServerProperties.DrainAppend` | src/Server/ofxServerOscManager.cpp:79-132 | Draining two batches one after the other is the same as draining them together |
| `ServerProperties.UnknownAddressIgnored` | src/Server/ofxServerOscManager.cpp:85-131 | A message that is neither `/ping` nor `/data`, anywhere in the inbox, changes no state and sends nothing |
| `ServerProperties.PingCounts` | src/Server/ofxServerOscManager.cpp:85-109 | Each ping adds one log entry and two messages, all addressed `/pong` |
| `ServerProperties.OnePacketPerData` | src/Server/ofxServerOscManager.cpp:110-131 | Exactly one packet is published per `/data` message |
| `ServerProperties.PingHandshake` | src/Server/ofxServerOscManager.cpp:87-90 | After a ping from h, h is registered with target (h, send port); the registry grows by one only if h was new; other entries and the packets are unchanged; the log gains h |
| `ServerProperties.PongEchoesPing` | src/Server/ofxServerOscManager.cpp:98-108 | A ping whose first two arguments are id and t (further arguments ignored) is answered by two `/pong [id, now, t]`, first to the sender's target and then to the multicast group |
| `ServerProperties.RegistryCountsDistinctHosts` | src/Server/ofxServerOscManager.cpp:87-88 | From an empty registry, the registry holds exactly one session per distinct pinging host |
| `ServerProperties.TickSent` | src/Server/ofxServerOscManager.cpp:66-108 | A tick sends the `/hello` (when due) first, then the pongs, and nothing else |
| `ServerProperties.HelloExactlyWhenDue` | src/Server/ofxServerOscManager.cpp:66-76 | A `/hello` goes out in a tick iff now - last > interval; then the timer becomes now, otherwise it is unchanged |
| `ServerProperties.TickLog` | src/Server/ofxServerOscManager.cpp:138-142 | The log after a tick is `TrimLog(old log + ping hosts)`; its length drops by one only when it would exceed 20 |
| `ServerProperties.LogBoundedAtOnePingPerTick` | src/Server/ofxServerOscManager.cpp:138-142 | With at most one ping per tick, a log of at most 20 entries stays at most 20 |
| `ServerProperties.LogGrowsUnderBurst` | src/Server/ofxServerOscManager.cpp:138-142 | With two or more pings per tick on a log of 20 or more, the log grows: the trim removes one entry, not down to 20 |
| `ServerProperties.NothingBeforeInit` | src/Server/ofxServerOscManager.cpp:185-290 | Before init every send returns at its guard (lines 187, 215, 240, 269), and a tick does nothing because `_update` is only registered by `init` (line 54); the state is unchanged |
| `ServerProperties.FanoutDelivers` | src/Server/ofxServerOscManager.cpp:207-210 | The broadcast messages are one per listed key, on that key's sender, in list order, with the given arguments |
| `ServerProperties.BroadcastReachesEveryClientOnce` | src/Server/ofxServerOscManager.cpp:207-210 | A broadcast sends one message per registered client, reaching each client, in strictly ascending key order, and leaves the registry unchanged |
| `ServerProperties.SendToReachesOneClient` | src/Server/ofxServerOscManager.cpp:235 | A send to one client adds exactly one message, inserts the client with an unset sender if absent, and leaves other entries unchanged |
| `ServerProperties.BroadcastTargetsOwnHosts` | src/Server/ofxServerOscManager.cpp:87-88 | In a coherent state, every broadcast message on a set-up sender goes to that client's own host, since senders are only ever set up to (remote host, send port) |
| `ServerProperties.SendToLoggedHostKeepsRegistry` | src/Server/ofxServerOscManager.cpp:90 | In a coherent state, every logged host is registered, so a send to a logged host leaves the registry unchanged |
| `ServerProperties.BroadcastArgsExample` | src/Server/ofxServerOscManager.cpp:192-205 | Values ["a"], [1, 2], [f] are sent as the arguments "a", 1, 2, f |
| `ServerProperties.DecodeExample` | src/Server/ofxServerOscManager.cpp:113-128 | Arguments 1, "x", f decode to ints [1], floats [f], strings ["x"] |
| `ServerProperties.HeartbeatCadence` | src/Server/ofxServerOscManager.cpp:51-76 | With init at clock 0, ticks at clock 0, 1000 and 3001 send exactly one `/hello`, at 3001 |

## Left out

- Reading the XML settings file (lines 25-32) is file I/O. `InitFromSettings` receives the values the file gives for each key. The send-port key the code reads is spelled `Settings:Server:SendPost`.
- `draw()` (lines 147-180) is console and bitmap rendering and is not modelled.
- The ofxOsc transport is not part of this model: socket setup, `sendMessage`, `hasWaitingMessages` and `getNextMessage`. Sends are records in `sent`, and the waiting messages are the `inbox` sequence. What a sender that was never set up does with a message is library behaviour. The model records that message with an absent target.
- Registering `_update` with the update event (line 54), removing it in the destructor (line 14), and `ofNotifyEvent` (line 130) are not modelled as such. A tick before `init` is a no-op, because the listener only exists after `init`, and publishing appends to `published`.
- `ofGetElapsedTimeMillis()` is the parameter `now`. The code reads the clock at line 66 on every tick, at line 75 when the `/hello` goes out, and at line 104 once per `/ping`. The model uses one `now` for all of them, so every `/pong` of a tick carries the same server time.
- `Osc.ArgAsInt32`: ofxOsc's reading of a missing or non-integer argument is library behaviour. The model reads such an argument as 0, and an INT64 as its two's-complement narrowing.
- `ServerOscManager.HelloDue`: the subtraction `now - last` is exact here. The C++ int subtraction could overflow, which the model does not reproduce.
- Float values are kept opaque, as a 32-bit pattern, because the server only copies them.
- Before `init`, the constructor leaves the C++ ints uninitialised. The model gives them 0 and an empty host. No operation reads them before `init`.
- `KeyOrder.KeyLess` compares characters by code point. `std::string` compares `char` values as `unsigned char`, which gives the same order for byte strings.
