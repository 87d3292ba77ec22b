/** FoldbackStrip::guess_main_type: the signal type a route's IO is most
    probably meant to carry. */
module MainType {
  import opened Types

  /** The least (most likely) type among the connected ports; NIL when no port
      of a real type is connected, since NIL is the starting value and ranks last. */
  function LeastConnectedType(ports: seq<Port>): (t: DataType)
    ensures forall i :: 0 <= i < |ports| && Connected(ports[i]) ==> Rank(t) <= Rank(ports[i].kind)
    ensures t == Nil || exists i :: 0 <= i < |ports| && Connected(ports[i]) && ports[i].kind == t
    decreases |ports|
  {
    if ports == [] then Nil
    else
      var init := ports[..|ports| - 1];
      var last := ports[|ports| - 1];
      var t0 := LeastConnectedType(init);
      assert forall i :: 0 <= i < |init| ==> init[i] == ports[i];
      if Connected(last) && Rank(last.kind) < Rank(t0) then last.kind else t0
  }

  /** The first type of order that some port has, if any. */
  function FirstTypeWithPorts(ports: seq<Port>, order: seq<DataType>): (r: Option<DataType>)
    ensures r.None? <==> forall k :: 0 <= k < |order| ==> |OfType(ports, order[k])| == 0
    ensures r.Some? ==> exists k :: 0 <= k < |order| && order[k] == r.value && |OfType(ports, r.value)| > 0
                                    && forall j :: 0 <= j < k ==> |OfType(ports, order[j])| == 0
    decreases |order|
  {
    if order == [] then None
    else if |OfType(ports, order[0])| > 0 then Some(order[0])
    else
      var r := FirstTypeWithPorts(ports, order[1..]);
      assert forall k :: 1 <= k < |order| ==> order[k] == order[1..][k - 1];
      r
  }

  /** Some connected port has a real type. */
  predicate SomeTypedConnection(ports: seq<Port>)
  {
    exists i :: 0 <= i < |ports| && Connected(ports[i]) && ports[i].kind != Nil
  }

  /** The result of guess_main_type(ports, favorConnected). */
  function MainType(ports: seq<Port>, favorConnected: bool): (t: DataType)
    ensures t != Nil
    // A) and B): the most likely type among the connected ports
    ensures favorConnected && SomeTypedConnection(ports) ==>
      && (exists i :: 0 <= i < |ports| && Connected(ports[i]) && ports[i].kind == t)
      && forall i :: 0 <= i < |ports| && Connected(ports[i]) ==> Rank(t) <= Rank(ports[i].kind)
    // C): otherwise the most likely type among all ports
    ensures !(favorConnected && SomeTypedConnection(ports)) && |OfType(ports, Audio)| > 0 ==> t == Audio
    ensures !(favorConnected && SomeTypedConnection(ports)) ==>
      (|OfType(ports, Audio)| == 0 && |OfType(ports, Midi)| > 0 ==> t == Midi)
    // no port at all of a real type: DataType::front()
    ensures |OfType(ports, Audio)| == 0 && |OfType(ports, Midi)| == 0 ==> t == Front
  {
    var least := LeastConnectedType(ports);
    OfTypeMembers(ports, Audio);
    OfTypeMembers(ports, Midi);
    if favorConnected && least != Nil then least
    else
      match FirstTypeWithPorts(ports, Iteration)
      case Some(t) => t
      case None => Front
  }

  /** The loop of guess_main_type, proved to compute MainType. */
  method GuessMainType(ports: seq<Port>, favorConnected: bool) returns (t: DataType)
    ensures t == MainType(ports, favorConnected)
  {
    if favorConnected {
      var ty := Nil;
      for i := 0 to |ports|
        invariant ty == LeastConnectedType(ports[..i])
      {
        assert ports[..i + 1][..i] == ports[..i];
        if Connected(ports[i]) && Rank(ports[i].kind) < Rank(ty) {
          ty := ports[i].kind;
        }
      }
      assert ports[..|ports|] == ports;
      if ty != Nil {
        return ty;
      }
    }
    for k := 0 to |Iteration|
      invariant forall j :: 0 <= j < k ==> |OfType(ports, Iteration[j])| == 0
    {
      if |OfType(ports, Iteration[k])| > 0 {
        return Iteration[k];
      }
    }
    return Front;
  }
}
