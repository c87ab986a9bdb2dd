/**
 * The OSC values the server exchanges: typed message arguments, the decoded
 * form of a /data message (DataPacket), and the rules that turn /data
 * arguments into a packet and values into /data arguments.
 */
module Osc {

  newtype int32 = x: int | -0x8000_0000 <= x < 0x8000_0000
  newtype int64 = x: int | -0x8000_0000_0000_0000 <= x < 0x8000_0000_0000_0000

  /** An OSC float32, kept as its bit pattern: the server only copies floats. */
  datatype Float = Float(bits: bv32)

  /**
   * One typed OSC argument. Other stands for every type tag the server does
   * not read (blob, double, true, false, nil, ...), with its tag character.
   */
  datatype Arg =
    | I32(i: int32)
    | I64(l: int64)
    | F32(f: Float)
    | Str(s: string)
    | Other(tag: char)

  /** A received message: its address pattern, its arguments and the host it came from. */
  datatype Message = Message(address: string, args: seq<Arg>, remoteHost: string)

  /** The three same-typed value lists of a /data message. */
  datatype DataPacket = DataPacket(ints: seq<int32>, floats: seq<Float>, strings: seq<string>)

  const Modulus32: int := 0x1_0000_0000

  /** A 64-bit integer converted to a 32-bit int by two's-complement wrap-around. */
  function Narrow32(v: int64): (r: int32)
    ensures -0x8000_0000 <= v as int < 0x8000_0000 ==> r as int == v as int
    ensures (v as int - r as int) % Modulus32 == 0
  {
    var shifted := v as int + 0x8000_0000;
    var q := shifted / Modulus32;
    assert v as int - (shifted % Modulus32 - 0x8000_0000) == q * Modulus32;
    (shifted % Modulus32 - 0x8000_0000) as int32
  }

  /**
   * Argument `index` read as a 32-bit int, the same way the /data decoder
   * reads the ints it keeps; a missing argument, or one the decoder would not
   * put in its int list, reads as 0.
   */
  function ArgAsInt32(args: seq<Arg>, index: nat): (r: int32)
    ensures index < |args| && (args[index].I32? || args[index].I64?) ==> IntValue(args[index]) == [r]
    ensures index >= |args| || IntValue(args[index]) == [] ==> r == 0
  {
    if index < |args| then
      match args[index]
      case I32(v) => v
      case I64(v) => Narrow32(v)
      case _ => 0
    else 0
  }

  // ---------------------------------------------------------------------------
  // Decoding a /data message

  /** What one argument contributes to the packet's int list. */
  function IntValue(a: Arg): seq<int32>
  {
    match a
    case I32(v) => [v]
    case I64(v) => [Narrow32(v)]
    case _ => []
  }

  /** What one argument contributes to the packet's float list. */
  function FloatValue(a: Arg): seq<Float>
  {
    if a.F32? then [a.f] else []
  }

  /** What one argument contributes to the packet's string list. */
  function StringValue(a: Arg): seq<string>
  {
    if a.Str? then [a.s] else []
  }

  /** The values `pick` takes from each argument, in argument order. */
  function Collect<T>(args: seq<Arg>, pick: Arg -> seq<T>): seq<T>
    decreases |args|
  {
    if args == [] then []
    else Collect(args[..|args| - 1], pick) + pick(args[|args| - 1])
  }

  /** The packet a /data message decodes to. */
  function Decode(args: seq<Arg>): DataPacket
  {
    DataPacket(Collect(args, IntValue), Collect(args, FloatValue), Collect(args, StringValue))
  }

  /** The number of arguments whose type the decoder ignores. */
  function IgnoredCount(args: seq<Arg>): nat
    decreases |args|
  {
    if args == [] then 0
    else IgnoredCount(args[..|args| - 1]) + (if args[|args| - 1].Other? then 1 else 0)
  }

  /** Decodes the arguments of a /data message in one pass, as the server's receive loop does. */
  method DecodeData(args: seq<Arg>) returns (packet: DataPacket)
    ensures packet == Decode(args)
  {
    var ints: seq<int32> := [];
    var floats: seq<Float> := [];
    var strings: seq<string> := [];
    for i := 0 to |args|
      invariant ints == Collect(args[..i], IntValue)
      invariant floats == Collect(args[..i], FloatValue)
      invariant strings == Collect(args[..i], StringValue)
    {
      assert args[..i + 1][..i] == args[..i];
      match args[i]
      case I32(v) => ints := ints + [v];
      case I64(v) => ints := ints + [Narrow32(v)];
      case F32(f) => floats := floats + [f];
      case Str(s) => strings := strings + [s];
      case Other(_) =>
    }
    assert args[..|args|] == args;
    packet := DataPacket(ints, floats, strings);
  }

  // ---------------------------------------------------------------------------
  // Encoding a /data message

  function StringArgs(strings: seq<string>): (r: seq<Arg>)
  {
    seq(|strings|, j requires 0 <= j < |strings| => Str(strings[j]))
  }

  function IntArgs(ints: seq<int32>): (r: seq<Arg>)
  {
    seq(|ints|, j requires 0 <= j < |ints| => I32(ints[j]))
  }

  function FloatArgs(floats: seq<Float>): (r: seq<Arg>)
  {
    seq(|floats|, j requires 0 <= j < |floats| => F32(floats[j]))
  }

  /** The arguments of an outgoing /data message: all strings, then all ints, then all floats. */
  function DataArgs(strings: seq<string>, ints: seq<int32>, floats: seq<Float>): seq<Arg>
  {
    StringArgs(strings) + IntArgs(ints) + FloatArgs(floats)
  }

  /** The arguments of an outgoing /data message built from a packet. */
  function PacketArgs(packet: DataPacket): seq<Arg>
  {
    DataArgs(packet.strings, packet.ints, packet.floats)
  }

  /** Builds the argument list of an outgoing /data message with three append loops. */
  method BuildDataArgs(strings: seq<string>, ints: seq<int32>, floats: seq<Float>) returns (args: seq<Arg>)
    ensures args == DataArgs(strings, ints, floats)
  {
    args := [];
    for j := 0 to |strings|
      invariant args == StringArgs(strings[..j])
    {
      args := args + [Str(strings[j])];
    }
    assert strings[..|strings|] == strings;
    ghost var prefix := args;
    for j := 0 to |ints|
      invariant args == prefix + IntArgs(ints[..j])
    {
      args := args + [I32(ints[j])];
    }
    assert ints[..|ints|] == ints;
    prefix := args;
    for j := 0 to |floats|
      invariant args == prefix + FloatArgs(floats[..j])
    {
      args := args + [F32(floats[j])];
    }
    assert floats[..|floats|] == floats;
  }

  // ---------------------------------------------------------------------------
  // Properties of decoding and encoding

  /** Collecting is compositional: the values of a + b are those of a followed by those of b. */
  lemma {:induction false} CollectAppend<T>(a: seq<Arg>, b: seq<Arg>, pick: Arg -> seq<T>)
    ensures Collect(a + b, pick) == Collect(a, pick) + Collect(b, pick)
    decreases |b|
  {
    if b == [] {
      assert a + b == a;
    } else {
      var b' := b[..|b| - 1];
      assert (a + b)[..|a + b| - 1] == a + b';
      CollectAppend(a, b', pick);
    }
  }

  /** Decoding preserves order within each type: the packet of a + b is the packet of a followed by that of b. */
  lemma DecodeAppend(a: seq<Arg>, b: seq<Arg>)
    ensures Decode(a + b).ints == Decode(a).ints + Decode(b).ints
    ensures Decode(a + b).floats == Decode(a).floats + Decode(b).floats
    ensures Decode(a + b).strings == Decode(a).strings + Decode(b).strings
  {
    CollectAppend(a, b, IntValue);
    CollectAppend(a, b, FloatValue);
    CollectAppend(a, b, StringValue);
  }

  /** An argument of an ignored type can be removed without changing the packet. */
  lemma DecodeDropsOther(a: seq<Arg>, tag: char, b: seq<Arg>)
    ensures Decode(a + [Other(tag)] + b) == Decode(a + b)
  {
    DecodeAppend(a + [Other(tag)], b);
    DecodeAppend(a, [Other(tag)]);
    DecodeAppend(a, b);
  }

  /** Every int, float or string argument lands in the packet and every other argument is dropped. */
  lemma {:induction false} DecodeCount(args: seq<Arg>)
    ensures |Decode(args).ints| + |Decode(args).floats| + |Decode(args).strings| + IgnoredCount(args) == |args|
    ensures |Decode(args).ints| + |Decode(args).floats| + |Decode(args).strings| <= |args|
    decreases |args|
  {
    if args != [] {
      DecodeCount(args[..|args| - 1]);
    }
  }

  lemma {:induction false} CollectStringArgs<T>(strings: seq<string>, pick: Arg -> seq<T>)
    requires forall s :: pick(Str(s)) == []
    ensures Collect(StringArgs(strings), pick) == []
    decreases |strings|
  {
    if strings != [] {
      var init := strings[..|strings| - 1];
      assert StringArgs(strings)[..|strings| - 1] == StringArgs(init);
      CollectStringArgs(init, pick);
    }
  }

  lemma {:induction false} CollectIntArgs<T>(ints: seq<int32>, pick: Arg -> seq<T>)
    requires forall v :: pick(I32(v)) == []
    ensures Collect(IntArgs(ints), pick) == []
    decreases |ints|
  {
    if ints != [] {
      var init := ints[..|ints| - 1];
      assert IntArgs(ints)[..|ints| - 1] == IntArgs(init);
      CollectIntArgs(init, pick);
    }
  }

  lemma {:induction false} CollectFloatArgs<T>(floats: seq<Float>, pick: Arg -> seq<T>)
    requires forall f :: pick(F32(f)) == []
    ensures Collect(FloatArgs(floats), pick) == []
    decreases |floats|
  {
    if floats != [] {
      var init := floats[..|floats| - 1];
      assert FloatArgs(floats)[..|floats| - 1] == FloatArgs(init);
      CollectFloatArgs(init, pick);
    }
  }

  lemma {:induction false} DecodeStringArgs(strings: seq<string>)
    ensures Collect(StringArgs(strings), StringValue) == strings
    decreases |strings|
  {
    if strings != [] {
      var init := strings[..|strings| - 1];
      assert StringArgs(strings)[..|strings| - 1] == StringArgs(init);
      DecodeStringArgs(init);
    }
  }

  lemma {:induction false} DecodeIntArgs(ints: seq<int32>)
    ensures Collect(IntArgs(ints), IntValue) == ints
    decreases |ints|
  {
    if ints != [] {
      var init := ints[..|ints| - 1];
      assert IntArgs(ints)[..|ints| - 1] == IntArgs(init);
      DecodeIntArgs(init);
    }
  }

  lemma {:induction false} DecodeFloatArgs(floats: seq<Float>)
    ensures Collect(FloatArgs(floats), FloatValue) == floats
    decreases |floats|
  {
    if floats != [] {
      var init := floats[..|floats| - 1];
      assert FloatArgs(floats)[..|floats| - 1] == FloatArgs(init);
      DecodeFloatArgs(init);
    }
  }

  /** Round trip: decoding the arguments the server sends for some values gives back exactly those values. */
  lemma EncodeDecode(strings: seq<string>, ints: seq<int32>, floats: seq<Float>)
    ensures Decode(DataArgs(strings, ints, floats)) == DataPacket(ints, floats, strings)
  {
    var s, i, f := StringArgs(strings), IntArgs(ints), FloatArgs(floats);
    DecodeAppend(s + i, f);
    DecodeAppend(s, i);
    DecodeStringArgs(strings);
    DecodeIntArgs(ints);
    DecodeFloatArgs(floats);
    CollectStringArgs(strings, IntValue);
    CollectStringArgs(strings, FloatValue);
    CollectIntArgs(ints, FloatValue);
    CollectIntArgs(ints, StringValue);
    CollectFloatArgs(floats, IntValue);
    CollectFloatArgs(floats, StringValue);
  }

  /** Forwarding a received packet sends arguments that decode to that same packet. */
  lemma PacketRoundTrip(packet: DataPacket)
    ensures Decode(PacketArgs(packet)) == packet
  {
    EncodeDecode(packet.strings, packet.ints, packet.floats);
  }
}
