/** Plain-data views of the engine objects the foldback strip looks at:
    signal types, ports, channel counts, bundles and routes. */
module Types {

  datatype Option<T> = None | Some(value: T)

  /** ARDOUR's DataType. Iteration and `<` both follow the declaration order,
      which runs from the most likely type to the least likely; NIL is last. */
  datatype DataType = Audio | Midi | Nil

  /** The numeric symbol behind a DataType, which `<` compares. */
  function Rank(t: DataType): (r: nat)
    ensures r <= 2
    ensures (r == 2) == (t == Nil)
  {
    match t
    case Audio => 0
    case Midi => 1
    case Nil => 2
  }

  /** The types visited from DataType::begin() to DataType::end(): the walk stops before NIL. */
  const Iteration: seq<DataType> := [Audio, Midi]

  /** DataType::front(), the most likely type. */
  const Front: DataType := Audio

  /** Iteration and `<` run in the same order, and front() is the first type
      iterated. */
  lemma IterationFollowsRank()
    ensures forall i, j :: 0 <= i < j < |Iteration| ==> Rank(Iteration[i]) < Rank(Iteration[j])
    ensures Front == Iteration[0]
    ensures forall i :: 0 <= i < |Iteration| ==> Iteration[i] != Nil
  {
  }

  /** A port: its full name, its type and the names of the ports it is connected to. */
  datatype Port = Port(name: string, kind: DataType, connections: seq<string>)

  /** Port::connected(): the port has at least one connection. */
  predicate Connected(p: Port)
  {
    |p.connections| > 0
  }

  /** The ports of type t, in their order (PortSet::begin(t) .. end(t)). */
  function OfType(ports: seq<Port>, t: DataType): (r: seq<Port>)
    ensures |r| <= |ports|
  {
    if ports == [] then []
    else
      var init := OfType(ports[..|ports| - 1], t);
      var last := ports[|ports| - 1];
      if last.kind == t then init + [last] else init
  }

  /** The ports of type t are exactly the given ports having type t. */
  lemma {:induction false} OfTypeMembers(ports: seq<Port>, t: DataType)
    ensures forall p :: p in OfType(ports, t) <==> p in ports && p.kind == t
  {
    if ports != [] {
      var init := ports[..|ports| - 1];
      var last := ports[|ports| - 1];
      OfTypeMembers(init, t);
      assert ports == init + [last];
      assert forall p :: p in ports <==> p in init || p == last;
    }
  }

  /** ChanCount: a number of channels per real type. */
  datatype ChanCount = ChanCount(audio: nat, midi: nat)
  {
    /** ChanCount::n(t); it is indexed by the real types only. */
    function N(t: DataType): nat
      requires t != Nil
    {
      if t == Audio then audio else midi
    }
  }

  /** IO::n_ports(): how many ports of each real type there are. */
  function PortCount(ports: seq<Port>): ChanCount
  {
    ChanCount(|OfType(ports, Audio)|, |OfType(ports, Midi)|)
  }

  /** One more port of a real type counts once, for its own type only. */
  lemma PortCountSnoc(ports: seq<Port>, p: Port, t: DataType)
    requires t != Nil
    ensures PortCount(ports + [p]).N(t) == PortCount(ports).N(t) + (if p.kind == t then 1 else 0)
  {
    assert (ports + [p])[..|ports|] == ports;
  }

  /** Every port is counted exactly once: the audio and MIDI counts and the
      NIL-typed ports together make up all the ports. */
  lemma {:induction false} PortCountPartition(ports: seq<Port>)
    ensures PortCount(ports).N(Audio) + PortCount(ports).N(Midi) + |OfType(ports, Nil)| == |ports|
  {
    if ports != [] {
      var init := ports[..|ports| - 1];
      PortCountPartition(init);
      assert ports == init + [ports[|ports| - 1]];
      PortCountSnoc(init, ports[|ports| - 1], Audio);
      PortCountSnoc(init, ports[|ports| - 1], Midi);
    }
  }

  /** One channel of a bundle: its name, type and the ports it stands for. */
  datatype Channel = Channel(name: string, kind: DataType, ports: seq<string>)

  /** A bundle: a named group of channels. `isInput` is ports_are_inputs();
      `isUser` tells a UserBundle from the others. */
  datatype Bundle = Bundle(name: string, isInput: bool, isUser: bool, channels: seq<Channel>)

  /** How many channels of type t a sequence of channels has. */
  function ChannelsOfType(cs: seq<Channel>, t: DataType): (n: nat)
    ensures n <= |cs|
  {
    if cs == [] then 0
    else ChannelsOfType(cs[..|cs| - 1], t) + (if cs[|cs| - 1].kind == t then 1 else 0)
  }

  /** Bundle::nchannels(). */
  function NChannels(b: Bundle): ChanCount
  {
    ChanCount(ChannelsOfType(b.channels, Audio), ChannelsOfType(b.channels, Midi))
  }

  /** Bundle::has_same_ports(): equal channel counts and, channel by channel,
      the same port lists. */
  predicate SamePorts(a: Bundle, b: Bundle)
  {
    && NChannels(a) == NChannels(b)
    && |a.channels| == |b.channels|
    && forall i :: 0 <= i < |a.channels| ==> a.channels[i].ports == b.channels[i].ports
  }

  /** Bundle::operator==: the same channels (names, types and ports). */
  predicate SameBundle(a: Bundle, b: Bundle)
  {
    a.channels == b.channels
  }

  /** A route as the strip sees it. Two values stand for the same route
      object exactly when they are equal. */
  datatype Route = Route(
    id: nat,
    name: string,
    isMaster: bool,
    input: Bundle,        // input()->bundle()
    output: Bundle,       // output()->bundle()
    outputPorts: seq<Port>) // output()->ports()

  /** Route::n_outputs(). */
  function NOutputs(r: Route): ChanCount
  {
    PortCount(r.outputPorts)
  }
}
