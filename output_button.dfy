/** FoldbackStrip::update_io_button: the short label shown on the output
    button, chosen by a cascade of guesses about where the outputs go. */
module OutputButton {
  import opened Types
  import opened Text
  import MainType

  /** Appended when ports of other types than the main one are connected too. */
  const CirclePlus: string := "\U{2295}"

  /** The marker after which a physical playback port's name carries its number. */
  const Playback: string := "playback_"

  /** What the labelling asks of the session and of the audio engine. */
  datatype SessionView = SessionView(
    routes: seq<Route>,               // Session::get_routes(), in order
    bundles: seq<Bundle>,             // Session::bundles(), in order
    physicalOutputs: seq<string>,     // the engine's physical outputs of the main type
    prettyNames: map<string, string>) // get_pretty_name_by_name; an absent name gives ""

  // ---------------------------------------------------------------------
  // Counting

  /** The number of connections of all the given ports. */
  function TotalConnections(ports: seq<Port>): nat
  {
    if ports == [] then 0
    else TotalConnections(ports[..|ports| - 1]) + |ports[|ports| - 1].connections|
  }

  /** The number of connections of the ports of type dt. */
  function TypedConnections(ports: seq<Port>, dt: DataType): nat
  {
    TotalConnections(OfType(ports, dt))
  }

  predicate EachHasOneConnection(ports: seq<Port>)
  {
    forall i :: 0 <= i < |ports| ==> |ports[i].connections| == 1
  }

  /** Adding one port adds its connections. */
  lemma TotalSnoc(ports: seq<Port>, p: Port)
    ensures TotalConnections(ports + [p]) == TotalConnections(ports) + |p.connections|
  {
    assert (ports + [p])[..|ports|] == ports;
  }

  /** Adding one port to the sequence adds it to its type's ports. */
  lemma OfTypeSnoc(ports: seq<Port>, p: Port, t: DataType)
    ensures OfType(ports + [p], t) == OfType(ports, t) + (if p.kind == t then [p] else [])
  {
    assert (ports + [p])[..|ports|] == ports;
  }

  /** A sum of connection counts is zero exactly when no port is connected. */
  lemma {:induction false} NoConnections(ports: seq<Port>)
    ensures TotalConnections(ports) == 0 <==> forall i :: 0 <= i < |ports| ==> !Connected(ports[i])
  {
    if ports != [] {
      var init := ports[..|ports| - 1];
      NoConnections(init);
      assert forall i :: 0 <= i < |init| ==> init[i] == ports[i];
    }
  }

  /** The main-typed connections are some of all connections: typed <= total. */
  lemma {:induction false} TypedAtMostTotal(ports: seq<Port>, dt: DataType)
    ensures TypedConnections(ports, dt) <= TotalConnections(ports)
  {
    if ports != [] {
      var init := ports[..|ports| - 1];
      var last := ports[|ports| - 1];
      TypedAtMostTotal(init, dt);
      if last.kind == dt {
        TotalSnoc(OfType(init, dt), last);
      }
    }
  }

  /** With the guessed main type, no main-typed connection exists exactly when
      no port of a real type is connected at all. */
  lemma DisconnectedExactly(ports: seq<Port>)
    ensures TypedConnections(ports, MainType.MainType(ports, true)) == 0 <==> !MainType.SomeTypedConnection(ports)
  {
    var dt := MainType.MainType(ports, true);
    var typed := OfType(ports, dt);
    OfTypeMembers(ports, dt);
    NoConnections(typed);
    if MainType.SomeTypedConnection(ports) {
      var i :| 0 <= i < |ports| && Connected(ports[i]) && ports[i].kind == dt;
      assert ports[i] in typed;
      var k :| 0 <= k < |typed| && typed[k] == ports[i];
    } else {
      forall k | 0 <= k < |typed| ensures !Connected(typed[k]) {
        assert typed[k] in ports;
      }
    }
  }

  // ---------------------------------------------------------------------
  // The cases of the cascade

  /** The first route of the session whose output bundle our outputs are
      exclusively connected to (the source asks about the other route's
      output bundle). */
  function FirstRouteFedBy(routes: seq<Route>, feeds: Bundle -> bool): (r: Option<string>)
    ensures r.None? <==> forall i :: 0 <= i < |routes| ==> !feeds(routes[i].output)
    ensures r.Some? ==> exists k :: 0 <= k < |routes| && feeds(routes[k].output) && routes[k].name == r.value
                                    && forall j :: 0 <= j < k ==> !feeds(routes[j].output)
    decreases |routes|
  {
    if routes == [] then None
    else if feeds(routes[0].output) then Some(routes[0].name)
    else
      var r := FirstRouteFedBy(routes[1..], feeds);
      assert forall i :: 1 <= i < |routes| ==> routes[i] == routes[1..][i - 1];
      r
  }

  /** The first user bundle of the session our outputs are exclusively connected to. */
  function FirstUserBundleFedBy(bundles: seq<Bundle>, feeds: Bundle -> bool): (r: Option<string>)
    ensures r.None? <==> forall i :: 0 <= i < |bundles| ==> !(bundles[i].isUser && feeds(bundles[i]))
    ensures r.Some? ==> exists k :: 0 <= k < |bundles| && bundles[k].isUser && feeds(bundles[k]) && bundles[k].name == r.value
                                    && forall j :: 0 <= j < k ==> !(bundles[j].isUser && feeds(bundles[j]))
    decreases |bundles|
  {
    if bundles == [] then None
    else if bundles[0].isUser && feeds(bundles[0]) then Some(bundles[0].name)
    else
      var r := FirstUserBundleFedBy(bundles[1..], feeds);
      assert forall i :: 1 <= i < |bundles| ==> bundles[i] == bundles[1..][i - 1];
      r
  }

  function PrettyName(names: map<string, string>, s: string): string
  {
    if s in names then names[s] else ""
  }

  /** The first physical output, in the engine's order, that the port is connected to. */
  function FirstConnectedPhysical(p: Port, phys: seq<string>): Option<string>
    decreases |phys|
  {
    if phys == [] then None
    else if phys[0] in p.connections then Some(phys[0])
    else FirstConnectedPhysical(p, phys[1..])
  }

  /** FirstConnectedPhysical finds nothing exactly when the port reaches no
      physical output, and otherwise the earliest one it reaches. */
  lemma {:induction false} FirstConnectedPhysicalIsFirst(p: Port, phys: seq<string>)
    ensures var r := FirstConnectedPhysical(p, phys);
      r.None? <==> forall k :: 0 <= k < |phys| ==> phys[k] !in p.connections
    ensures var r := FirstConnectedPhysical(p, phys);
      r.Some? ==> exists k :: 0 <= k < |phys| && phys[k] == r.value && r.value in p.connections
                              && forall j :: 0 <= j < k ==> phys[j] !in p.connections
    decreases |phys|
  {
    if phys != [] && phys[0] !in p.connections {
      FirstConnectedPhysicalIsFirst(p, phys[1..]);
      assert forall k :: 1 <= k < |phys| ==> phys[k] == phys[1..][k - 1];
      var r := FirstConnectedPhysical(p, phys);
      if r.Some? {
        var k :| 0 <= k < |phys[1..]| && phys[1..][k] == r.value && r.value in p.connections
                 && forall j :: 0 <= j < k ==> phys[1..][j] !in p.connections;
        assert phys[k + 1] == r.value;
        assert forall j :: 0 <= j < k + 1 ==> phys[j] !in p.connections;
      }
    }
  }

  /** One port's part of a physical label: the pretty name of the physical
      output it is connected to, else what follows "playback_" in that
      output's name, else "" (the attempt fails). */
  function PhysicalPiece(p: Port, phys: seq<string>, names: map<string, string>): string
  {
    match FirstConnectedPhysical(p, phys)
    case None => ""
    case Some(s) =>
      var pn := PrettyName(names, s);
      if pn != "" then pn
      else
        match IndexOf(s, Playback)
        case None => ""
        case Some(k) => s[k + |Playback|..]
  }

  /** The ports' pieces, in port order. */
  function Pieces(typed: seq<Port>, phys: seq<string>, names: map<string, string>): (ps: seq<string>)
    ensures |ps| == |typed|
  {
    if typed == [] then []
    else Pieces(typed[..|typed| - 1], phys, names) + [PhysicalPiece(typed[|typed| - 1], phys, names)]
  }

  /** Each port's piece, by index. */
  lemma {:induction false} PiecesAt(typed: seq<Port>, phys: seq<string>, names: map<string, string>)
    ensures forall i :: 0 <= i < |typed| ==> Pieces(typed, phys, names)[i] == PhysicalPiece(typed[i], phys, names)
  {
    if typed != [] {
      var init := typed[..|typed| - 1];
      PiecesAt(init, phys, names);
      assert forall i :: 0 <= i < |init| ==> init[i] == typed[i];
    }
  }

  /** What the physical loop leaves after writing the pieces ps: each piece
      in turn is written after a '/' (but the first), and an empty piece
      erases everything. */
  function Accumulate(ps: seq<string>): string
  {
    if ps == [] then ""
    else
      var pn := ps[|ps| - 1];
      var init := ps[..|ps| - 1];
      var l := Accumulate(init);
      if pn == "" then ""
      else if init == [] then pn
      else if l == "" then ""
      else l + "/" + pn
  }

  /** The label the physical-output attempt leaves, "" when it fails. */
  function PhysicalLabel(typed: seq<Port>, phys: seq<string>, names: map<string, string>): string
  {
    Accumulate(Pieces(typed, phys, names))
  }

  /** One more piece, by the definition. */
  lemma AccumulateSnoc(init: seq<string>, pn: string)
    ensures var l := Accumulate(init);
      Accumulate(init + [pn]) == if pn == "" then "" else if init == [] then pn else if l == "" then "" else l + "/" + pn
  {
    assert (init + [pn])[..|init|] == init;
  }

  /** Writing the pieces fails exactly when there is none or one is empty;
      otherwise it is the pieces joined with '/'. */
  lemma {:induction false} AccumulateJoins(ps: seq<string>)
    ensures Accumulate(ps) == "" <==> |ps| == 0 || exists i :: 0 <= i < |ps| && ps[i] == ""
    ensures Accumulate(ps) != "" ==> Accumulate(ps) == Join(ps, '/')
    decreases |ps|
  {
    if ps != [] {
      var init := ps[..|ps| - 1];
      var pn := ps[|ps| - 1];
      assert ps == init + [pn];
      AccumulateSnoc(init, pn);
      AccumulateJoins(init);
      assert forall i :: 0 <= i < |init| ==> init[i] == ps[i];
      if init != [] {
        JoinSnoc(init, pn, '/');
      }
    }
  }

  /** One more non-empty piece after non-empty pieces adds a '/' (but for the
      first piece) and that piece. */
  lemma AccumulateStep(init: seq<string>, pn: string)
    requires forall k :: 0 <= k < |init| ==> init[k] != ""
    requires pn != ""
    ensures Accumulate(init + [pn]) == (if |init| > 0 then Accumulate(init) + "/" else Accumulate(init)) + pn
  {
    AccumulateJoins(init);
    AccumulateSnoc(init, pn);
  }

  /** The physical attempt fails exactly when there is no port or some port has
      no piece; otherwise it is the pieces joined with '/'. */
  lemma PhysicalLabelJoins(typed: seq<Port>, phys: seq<string>, names: map<string, string>)
    ensures var r := PhysicalLabel(typed, phys, names);
      r == "" <==> |typed| == 0 || exists i :: 0 <= i < |typed| && PhysicalPiece(typed[i], phys, names) == ""
    ensures var r := PhysicalLabel(typed, phys, names);
      r != "" ==> r == Join(Pieces(typed, phys, names), '/')
  {
    AccumulateJoins(Pieces(typed, phys, names));
    PiecesAt(typed, phys, names);
  }

  /** The physical loop's invariant carried over one more non-empty piece. */
  lemma AccumulateInvStep(done: seq<string>, pn: string, temp: string)
    requires forall k :: 0 <= k < |done| ==> done[k] != ""
    requires pn != "" && temp == Accumulate(done)
    ensures forall k :: 0 <= k < |done| + 1 ==> (done + [pn])[k] != ""
    ensures (if |done| > 0 then temp + "/" else temp) + pn == Accumulate(done + [pn])
  {
    AccumulateStep(done, pn);
  }

  /** The pieces of one port more. */
  lemma PiecesPrefixStep(typed: seq<Port>, i: nat, phys: seq<string>, names: map<string, string>)
    requires i < |typed|
    ensures Pieces(typed[..i + 1], phys, names) == Pieces(typed[..i], phys, names) + [PhysicalPiece(typed[i], phys, names)]
  {
    assert typed[..i + 1][..i] == typed[..i];
  }

  /** One port without a piece erases the whole physical label. */
  lemma PhysicalEmptyPiece(typed: seq<Port>, phys: seq<string>, names: map<string, string>, i: nat)
    requires i < |typed| && PhysicalPiece(typed[i], phys, names) == ""
    ensures PhysicalLabel(typed, phys, names) == ""
  {
    PhysicalLabelJoins(typed, phys, names);
  }

  /** The physical label can be cut back into the ports' pieces when no piece
      holds a '/' itself; its first piece is the first port's, so it never
      starts with the separator. */
  lemma PhysicalLabelSplits(typed: seq<Port>, phys: seq<string>, names: map<string, string>)
    requires PhysicalLabel(typed, phys, names) != ""
    requires forall i :: 0 <= i < |typed| ==> '/' !in PhysicalPiece(typed[i], phys, names)
    ensures Split(PhysicalLabel(typed, phys, names), '/') == Pieces(typed, phys, names)
    ensures PhysicalLabel(typed, phys, names)[0] != '/'
  {
    PiecesAt(typed, phys, names);
    AccumulateSplits(Pieces(typed, phys, names));
  }

  /** Written pieces without '/' split back into the pieces. */
  lemma AccumulateSplits(ps: seq<string>)
    requires Accumulate(ps) != ""
    requires forall i :: 0 <= i < |ps| ==> '/' !in ps[i]
    ensures Split(Accumulate(ps), '/') == ps
    ensures Accumulate(ps)[0] != '/'
  {
    AccumulateJoins(ps);
    SplitJoin(ps, '/');
    var r := Accumulate(ps);
    var first := FindFirstOf(r, {'/'});
    assert Split(r, '/')[0] == r[..first];
    assert ps[0] != "";
  }

  /** A port connected to a physical output called c + "playback_" + n, with no
      pretty name and no earlier "playback_", is shown as n. */
  lemma PlaybackPiece(p: Port, phys: seq<string>, names: map<string, string>, c: string, n: string)
    requires FirstConnectedPhysical(p, phys) == Some(c + Playback + n)
    requires PrettyName(names, c + Playback + n) == ""
    requires forall j: nat :: j < |c| ==> !OccursAt(c + Playback + n, Playback, j)
    ensures PhysicalPiece(p, phys, names) == n
  {
    var s := c + Playback + n;
    assert s[|c|..|c| + |Playback|] == Playback;
    assert OccursAt(s, Playback, |c|);
    IndexOfIsFirst(s, Playback);
    assert s[|c| + |Playback|..] == n;
  }

  /** The JACK client part of a port name: the text before its first ':'. */
  function ClientName(c: string): (r: string)
    ensures r <= c
    ensures ':' !in r
    ensures |r| < |c| ==> c[|r|] == ':'
  {
    c[..FindFirstOf(c, {':'})]
  }

  predicate Distinct(s: seq<string>)
  {
    forall i, j :: 0 <= i < j < |s| ==> s[i] != s[j]
  }

  /** A new connection keeps the recorded ones pairwise different. */
  lemma DistinctSnoc(s: seq<string>, c: string)
    requires Distinct(s) && c !in s
    ensures Distinct(s + [c])
  {
    assert forall i :: 0 <= i < |s| ==> (s + [c])[i] == s[i];
  }

  /** The connections recorded so far and the client name guessed so far. */
  datatype ClientScanState = ClientScanState(recorded: seq<string>, client: string)

  /** The client-name loop: a repeated connection stops it before it is
      recorded; a client that differs from the guess stops it after it is
      recorded; an empty guess is replaced by the next client. */
  function ClientScan(conns: seq<string>, recorded: seq<string>, client: string): ClientScanState
    decreases |conns|
  {
    if conns == [] then ClientScanState(recorded, client)
    else
      var c := conns[0];
      if c in recorded then ClientScanState(recorded, client)
      else
        var name := ClientName(c);
        var guess := if client == "" then name else client;
        if guess != name then ClientScanState(recorded + [c], guess)
        else ClientScan(conns[1..], recorded + [c], guess)
  }

  /** The one connection of each main-typed port. */
  function FirstConnections(typed: seq<Port>): seq<string>
    requires EachHasOneConnection(typed)
  {
    seq(|typed|, i requires 0 <= i < |typed| && |typed[i].connections| == 1 => typed[i].connections[0])
  }

  /** The client-name attempt: it succeeds when every main-typed port got its
      connection recorded. */
  function ClientLabel(typed: seq<Port>): Option<string>
    requires EachHasOneConnection(typed)
  {
    var st := ClientScan(FirstConnections(typed), [], "");
    if |st.recorded| == |typed| then Some(st.client) else None
  }

  /** The scan records a prefix of the connections after what it was given,
      and records no connection twice. */
  lemma {:induction false} ClientScanRecordsPrefix(conns: seq<string>, recorded: seq<string>, client: string)
    requires Distinct(recorded)
    ensures var r := ClientScan(conns, recorded, client).recorded;
      && |recorded| <= |r| <= |recorded| + |conns|
      && r == recorded + conns[..|r| - |recorded|]
      && Distinct(r)
  {
    ClientScanPrefix(conns, recorded, client);
    ClientScanDistinct(conns, recorded, client);
    var r := ClientScan(conns, recorded, client).recorded;
    assert r == recorded + conns[..|r| - |recorded|];
  }

  lemma {:induction false} ClientScanPrefix(conns: seq<string>, recorded: seq<string>, client: string)
    ensures var r := ClientScan(conns, recorded, client).recorded;
      && |recorded| <= |r| <= |recorded| + |conns|
      && (forall k :: 0 <= k < |recorded| ==> r[k] == recorded[k])
      && (forall k :: |recorded| <= k < |r| ==> r[k] == conns[k - |recorded|])
    decreases |conns|
  {
    if conns != [] && conns[0] !in recorded {
      var c := conns[0];
      var rec := recorded + [c];
      var guess := if client == "" then ClientName(c) else client;
      if guess == ClientName(c) {
        ClientScanPrefix(conns[1..], rec, guess);
      }
    }
  }

  lemma {:induction false} ClientScanDistinct(conns: seq<string>, recorded: seq<string>, client: string)
    requires Distinct(recorded)
    ensures Distinct(ClientScan(conns, recorded, client).recorded)
    decreases |conns|
  {
    if conns != [] && conns[0] !in recorded {
      var c := conns[0];
      DistinctSnoc(recorded, c);
      var guess := if client == "" then ClientName(c) else client;
      if guess == ClientName(c) {
        ClientScanDistinct(conns[1..], recorded + [c], guess);
      }
    }
  }

  /** A client label is only given when the ports' connections are pairwise different. */
  lemma ClientLabelDistinct(typed: seq<Port>)
    requires EachHasOneConnection(typed)
    requires ClientLabel(typed).Some?
    ensures Distinct(FirstConnections(typed))
  {
    var conns := FirstConnections(typed);
    ClientScanRecordsPrefix(conns, [], "");
    var r := ClientScan(conns, [], "").recorded;
    assert |r| == |conns|;
    assert conns[..|conns|] == conns;
    assert r == conns;
  }

  /** With the guess c already made, distinct connections whose clients are c,
      except perhaps the very last one, are all recorded and keep c. */
  lemma {:induction false} ClientScanAgreeing(conns: seq<string>, recorded: seq<string>, c: string)
    requires c != ""
    requires Distinct(recorded + conns)
    requires forall i :: 0 <= i < |conns| - 1 ==> ClientName(conns[i]) == c
    ensures ClientScan(conns, recorded, c) == ClientScanState(recorded + conns, c)
    decreases |conns|
  {
    if conns != [] {
      var all := recorded + conns;
      assert all[|recorded|] == conns[0];
      assert forall k :: 0 <= k < |recorded| ==> all[k] == recorded[k];
      assert conns[0] !in recorded;
      assert recorded + [conns[0]] + conns[1..] == all;
      assert forall i :: 0 <= i < |conns| - 2 ==> conns[1..][i] == conns[i + 1];
      if ClientName(conns[0]) == c {
        ClientScanAgreeing(conns[1..], recorded + [conns[0]], c);
      } else {
        assert |conns| == 1;
        assert conns == [conns[0]];
      }
    }
  }

  /** The client label of distinct connections whose clients all equal the
      first port's client, except perhaps the last port's: a client named only
      by the last port is not noticed. */
  lemma ClientLabelAgreeing(typed: seq<Port>)
    requires EachHasOneConnection(typed)
    requires |typed| > 0
    requires Distinct(FirstConnections(typed))
    requires ClientName(typed[0].connections[0]) != ""
    requires forall i :: 0 <= i < |typed| - 1 ==> ClientName(typed[i].connections[0]) == ClientName(typed[0].connections[0])
    ensures ClientLabel(typed) == Some(ClientName(typed[0].connections[0]))
  {
    var conns := FirstConnections(typed);
    var c := ClientName(conns[0]);
    assert [conns[0]] + conns[1..] == conns;
    assert [] + [conns[0]] == [conns[0]];
    assert forall i :: 0 <= i < |conns| - 2 ==> conns[1..][i] == conns[i + 1];
    ClientScanAgreeing(conns[1..], [conns[0]], c);
    assert ClientScan(conns, [], "") == ClientScan(conns[1..], [conns[0]], c);
  }

  /** Two outputs going to two different clients, "a" and "b", are labelled "a". */
  lemma ClientLabelLastMismatchExample()
    ensures ClientLabel([Port("out 1", Audio, ["a:in"]), Port("out 2", Audio, ["b:in"])]) == Some("a")
  {
    var typed := [Port("out 1", Audio, ["a:in"]), Port("out 2", Audio, ["b:in"])];
    assert FindFirstOf("a:in", {':'}) == 1;
    assert ClientName("a:in") == "a";
    ClientLabelAgreeing(typed);
  }

  /** Two outputs both on "program x:foo": the second connection is a
      duplicate, so the scan stops short and there is no client label. */
  lemma ClientLabelDuplicateExample()
    ensures ClientLabel([Port("out 1", Audio, ["program x:foo"]), Port("out 2", Audio, ["program x:foo"])]).None?
  {
    var typed := [Port("out 1", Audio, ["program x:foo"]), Port("out 2", Audio, ["program x:foo"])];
    var conns := FirstConnections(typed);
    assert conns == ["program x:foo", "program x:foo"];
    var guess := ClientName("program x:foo");
    assert conns[1..][0] in [conns[0]];
    assert ClientScan(conns[1..], [conns[0]], guess).recorded == [conns[0]];
  }

  /** A connection with an empty client part leaves the guess empty, so the
      next connection's client becomes the guess. */
  lemma ClientScanEmptyName(conns: seq<string>, recorded: seq<string>)
    requires |conns| >= 2 && conns[0] != conns[1]
    requires conns[0] !in recorded && conns[1] !in recorded
    requires ClientName(conns[0]) == ""
    ensures ClientScan(conns, recorded, "")
         == ClientScan(conns[2..], recorded + [conns[0], conns[1]], ClientName(conns[1]))
  {
    var rest := conns[1..];
    assert rest[0] == conns[1] && rest[1..] == conns[2..];
    assert conns[1] !in recorded + [conns[0]];
    assert recorded + [conns[0]] + [conns[1]] == recorded + [conns[0], conns[1]];
  }

  /** An output on ":x" (no client part) and one on "b:y" are labelled "b". */
  lemma ClientLabelEmptyGuessExample()
    ensures ClientLabel([Port("out 1", Audio, [":x"]), Port("out 2", Audio, ["b:y"])]) == Some("b")
  {
    var typed := [Port("out 1", Audio, [":x"]), Port("out 2", Audio, ["b:y"])];
    var conns := FirstConnections(typed);
    assert conns == [":x", "b:y"];
    assert FindFirstOf(":x", {':'}) == 0;
    assert ClientName(":x") == "";
    assert FindFirstOf("b:y", {':'}) == 1;
    assert ClientName("b:y") == "b";
    ClientScanEmptyName(conns, []);
    assert conns[2..] == [];
  }

  /** Outputs on ":x" and ":y" have no client part: the guess stays empty,
      every connection is recorded, and the label is the empty string. */
  lemma ClientLabelAllEmptyExample()
    ensures ClientLabel([Port("out 1", Audio, [":x"]), Port("out 2", Audio, [":y"])]) == Some("")
  {
    var typed := [Port("out 1", Audio, [":x"]), Port("out 2", Audio, [":y"])];
    var conns := FirstConnections(typed);
    assert conns == [":x", ":y"];
    assert FindFirstOf(":x", {':'}) == 0;
    assert FindFirstOf(":y", {':'}) == 0;
    ClientScanEmptyName(conns, []);
    assert conns[2..] == [];
  }

  /** A client that differs from the guess at any port but the last one stops
      the scan short. */
  lemma {:induction false} ClientScanMismatch(conns: seq<string>, recorded: seq<string>, c: string, k: nat)
    requires c != ""
    requires k < |conns| - 1
    requires ClientName(conns[k]) != c
    ensures |ClientScan(conns, recorded, c).recorded| < |recorded| + |conns|
    decreases |conns|
  {
    if conns[0] !in recorded && ClientName(conns[0]) == c {
      ClientScanMismatch(conns[1..], recorded + [conns[0]], c, k - 1);
    }
  }

  /** When the first port names a client and a port before the last names
      another, there is no client label. */
  lemma ClientLabelMismatch(typed: seq<Port>, k: nat)
    requires 0 < k < |typed| - 1
    requires EachHasOneConnection(typed)
    requires ClientName(typed[0].connections[0]) != ""
    requires ClientName(typed[k].connections[0]) != ClientName(typed[0].connections[0])
    ensures ClientLabel(typed).None?
  {
    var conns := FirstConnections(typed);
    var c := ClientName(conns[0]);
    assert conns[1..][k - 1] == conns[k];
    assert [] + [conns[0]] == [conns[0]];
    ClientScanMismatch(conns[1..], [conns[0]], c, k - 1);
    assert ClientScan(conns, [], "") == ClientScan(conns[1..], [conns[0]], c);
  }

  // ---------------------------------------------------------------------
  // The whole label

  /** The label before the circled-plus suffix. */
  function BaseLabel(ports: seq<Port>, dt: DataType, sv: SessionView, feeds: Bundle -> bool): string
  {
    var typed := OfType(ports, dt);
    if TotalConnections(typed) == 0 then "-"
    else
      match FirstRouteFedBy(sv.routes, feeds)
      case Some(name) => name
      case None =>
        match FirstUserBundleFedBy(sv.bundles, feeds)
        case Some(name) => name
        case None =>
          var phys := if EachHasOneConnection(typed) then PhysicalLabel(typed, sv.physicalOutputs, sv.prettyNames) else "";
          if phys != "" then phys
          else
            var client := if EachHasOneConnection(typed) then ClientLabel(typed) else None;
            if client.Some? then client.value
            else "*" + NatToString(TotalConnections(ports)) + "*"
  }

  /** The suffix: a circled plus when other-typed connections exist. */
  function Suffix(ports: seq<Port>, dt: DataType): string
  {
    if TotalConnections(ports) > TypedConnections(ports, dt) then CirclePlus else ""
  }

  /** The text update_io_button puts on the output button. `feeds` answers
      Bundle::connected_to for our output bundle, the main type and exclusive
      connections. */
  function OutputLabel(ports: seq<Port>, sv: SessionView, feeds: Bundle -> bool): (text: string)
    ensures var dt := MainType.MainType(ports, true);
      TotalConnections(ports) > TypedConnections(ports, dt) ==> |text| > 0 && text[|text| - 1] == CirclePlus[0]
    ensures !MainType.SomeTypedConnection(ports) ==>
      text == (if TotalConnections(ports) > 0 then "-" + CirclePlus else "-")
  {
    var dt := MainType.MainType(ports, true);
    DisconnectedExactly(ports);
    BaseLabel(ports, dt, sv, feeds) + Suffix(ports, dt)
  }

  /** When no case before the last applies, the label shows the total count
      between stars. */
  lemma OddLabel(ports: seq<Port>, sv: SessionView, feeds: Bundle -> bool)
    requires MainType.SomeTypedConnection(ports)
    requires FirstRouteFedBy(sv.routes, feeds).None? && FirstUserBundleFedBy(sv.bundles, feeds).None?
    requires var typed := OfType(ports, MainType.MainType(ports, true));
      || !EachHasOneConnection(typed)
      || (PhysicalLabel(typed, sv.physicalOutputs, sv.prettyNames) == "" && ClientLabel(typed).None?)
    ensures var dt := MainType.MainType(ports, true);
      OutputLabel(ports, sv, feeds) == "*" + NatToString(TotalConnections(ports)) + "*" + Suffix(ports, dt)
  {
    DisconnectedExactly(ports);
  }

  /** The first route whose output bundle we feed names the button. */
  lemma RouteCase(ports: seq<Port>, sv: SessionView, feeds: Bundle -> bool)
    requires MainType.SomeTypedConnection(ports)
    requires FirstRouteFedBy(sv.routes, feeds).Some?
    ensures var dt := MainType.MainType(ports, true);
      OutputLabel(ports, sv, feeds) == FirstRouteFedBy(sv.routes, feeds).value + Suffix(ports, dt)
  {
    DisconnectedExactly(ports);
  }

  /** Failing a route, the first user bundle we feed names the button. */
  lemma BundleCase(ports: seq<Port>, sv: SessionView, feeds: Bundle -> bool)
    requires MainType.SomeTypedConnection(ports)
    requires FirstRouteFedBy(sv.routes, feeds).None?
    requires FirstUserBundleFedBy(sv.bundles, feeds).Some?
    ensures var dt := MainType.MainType(ports, true);
      OutputLabel(ports, sv, feeds) == FirstUserBundleFedBy(sv.bundles, feeds).value + Suffix(ports, dt)
  {
    DisconnectedExactly(ports);
  }

  /** Failing a route and a bundle, one connection per main-typed port, each to
      a physical output with a piece, shows the pieces joined with '/'. */
  lemma PhysicalCase(ports: seq<Port>, sv: SessionView, feeds: Bundle -> bool)
    requires MainType.SomeTypedConnection(ports)
    requires FirstRouteFedBy(sv.routes, feeds).None? && FirstUserBundleFedBy(sv.bundles, feeds).None?
    requires var typed := OfType(ports, MainType.MainType(ports, true));
      EachHasOneConnection(typed) && PhysicalLabel(typed, sv.physicalOutputs, sv.prettyNames) != ""
    ensures var dt := MainType.MainType(ports, true);
      var typed := OfType(ports, dt);
      OutputLabel(ports, sv, feeds) == Join(Pieces(typed, sv.physicalOutputs, sv.prettyNames), '/') + Suffix(ports, dt)
  {
    DisconnectedExactly(ports);
    var typed := OfType(ports, MainType.MainType(ports, true));
    PhysicalLabelJoins(typed, sv.physicalOutputs, sv.prettyNames);
  }

  /** Failing a route, a bundle and the physical pieces, a client name common
      to the connections names the button. */
  lemma ClientCase(ports: seq<Port>, sv: SessionView, feeds: Bundle -> bool)
    requires MainType.SomeTypedConnection(ports)
    requires FirstRouteFedBy(sv.routes, feeds).None? && FirstUserBundleFedBy(sv.bundles, feeds).None?
    requires var typed := OfType(ports, MainType.MainType(ports, true));
      && EachHasOneConnection(typed)
      && PhysicalLabel(typed, sv.physicalOutputs, sv.prettyNames) == ""
      && ClientLabel(typed).Some?
    ensures var dt := MainType.MainType(ports, true);
      var typed := OfType(ports, dt);
      OutputLabel(ports, sv, feeds) == ClientLabel(typed).value + Suffix(ports, dt)
  {
    DisconnectedExactly(ports);
  }

  // ---------------------------------------------------------------------
  // The loops of update_io_button

  /** The counters after one more port. */
  lemma CountStep(ports: seq<Port>, p: Port, dt: DataType)
    ensures TotalConnections(ports + [p]) == TotalConnections(ports) + |p.connections|
    ensures TypedConnections(ports + [p], dt) == TypedConnections(ports, dt) + (if p.kind == dt then |p.connections| else 0)
    ensures EachHasOneConnection(OfType(ports + [p], dt)) ==
      (EachHasOneConnection(OfType(ports, dt)) && (p.kind == dt ==> |p.connections| == 1))
  {
    TotalSnoc(ports, p);
    OfTypeSnoc(ports, p, dt);
    if p.kind == dt {
      TotalSnoc(OfType(ports, dt), p);
      var o := OfType(ports, dt);
      assert forall i :: 0 <= i < |o| ==> (o + [p])[i] == o[i];
      assert (o + [p])[|o|] == p;
    }
  }

  /** The counters over one port more of the same ports. */
  lemma CountPrefixStep(ports: seq<Port>, i: nat, dt: DataType)
    requires i < |ports|
    ensures TotalConnections(ports[..i + 1]) == TotalConnections(ports[..i]) + |ports[i].connections|
    ensures TypedConnections(ports[..i + 1], dt) == TypedConnections(ports[..i], dt) + (if ports[i].kind == dt then |ports[i].connections| else 0)
    ensures EachHasOneConnection(OfType(ports[..i + 1], dt)) ==
      (EachHasOneConnection(OfType(ports[..i], dt)) && (ports[i].kind == dt ==> |ports[i].connections| == 1))
  {
    assert ports[..i + 1] == ports[..i] + [ports[i]];
    CountStep(ports[..i], ports[i], dt);
  }

  /** The first loop: total and main-typed connection counts, and whether each
      main-typed port has exactly one connection. */
  method CountConnections(ports: seq<Port>, dt: DataType) returns (total: nat, typed: nat, eachOne: bool)
    ensures total == TotalConnections(ports)
    ensures typed == TypedConnections(ports, dt)
    ensures eachOne == EachHasOneConnection(OfType(ports, dt))
  {
    total, typed, eachOne := 0, 0, true;
    for i := 0 to |ports|
      invariant total == TotalConnections(ports[..i])
      invariant typed == TypedConnections(ports[..i], dt)
      invariant eachOne == EachHasOneConnection(OfType(ports[..i], dt))
    {
      var port := ports[i];
      CountPrefixStep(ports, i, dt);
      var count := |port.connections|;
      total := total + count;
      if port.kind == dt {
        typed := typed + count;
        eachOne := eachOne && count == 1;
      }
    }
    assert ports[..|ports|] == ports;
  }

  /** The scan of the session's routes. */
  method FindRouteFedBy(routes: seq<Route>, feeds: Bundle -> bool) returns (r: Option<string>)
    ensures r == FirstRouteFedBy(routes, feeds)
  {
    r := None;
    var i := 0;
    while i < |routes|
      invariant 0 <= i <= |routes|
      invariant forall j :: 0 <= j < i ==> !feeds(routes[j].output)
    {
      if feeds(routes[i].output) {
        r := Some(routes[i].name);
        return;
      }
      i := i + 1;
    }
  }

  /** The scan of the session's bundles, skipping those that are not user bundles. */
  method FindUserBundleFedBy(bundles: seq<Bundle>, feeds: Bundle -> bool) returns (r: Option<string>)
    ensures r == FirstUserBundleFedBy(bundles, feeds)
  {
    r := None;
    var i := 0;
    while i < |bundles|
      invariant 0 <= i <= |bundles|
      invariant forall j :: 0 <= j < i ==> !(bundles[j].isUser && feeds(bundles[j]))
    {
      if bundles[i].isUser && feeds(bundles[i]) {
        r := Some(bundles[i].name);
        return;
      }
      i := i + 1;
    }
  }

  /** The inner loop of the physical attempt: one port's piece. */
  method PhysicalPieceOf(p: Port, phys: seq<string>, names: map<string, string>) returns (pn: string)
    ensures pn == PhysicalPiece(p, phys, names)
  {
    pn := "";
    var k := 0;
    while k < |phys|
      invariant 0 <= k <= |phys|
      invariant FirstConnectedPhysical(p, phys[k..]) == FirstConnectedPhysical(p, phys)
    {
      var s := phys[k];
      assert phys[k..][1..] == phys[k + 1..];
      if s in p.connections {
        pn := PrettyName(names, s);
        if pn == "" {
          var start := IndexOf(s, Playback);
          if start.Some? {
            pn := s[start.value + |Playback|..];
          }
        }
        return;
      }
      k := k + 1;
    }
  }

  /** The physical-output attempt over the main-typed ports. */
  method PhysicalAttempt(typed: seq<Port>, phys: seq<string>, names: map<string, string>) returns (temp: string)
    ensures temp == PhysicalLabel(typed, phys, names)
  {
    ghost var done: seq<string> := [];
    temp := "";
    var i := 0;
    while i < |typed|
      invariant 0 <= i <= |typed|
      invariant done == Pieces(typed[..i], phys, names)
      invariant forall k :: 0 <= k < i ==> done[k] != ""
      invariant temp == Accumulate(done)
    {
      var pn := PhysicalPieceOf(typed[i], phys, names);
      PiecesPrefixStep(typed, i, phys, names);
      if pn == "" {
        temp := "";
        PhysicalEmptyPiece(typed, phys, names, i);
        return;
      }
      AccumulateInvStep(done, pn, temp);
      if i > 0 {
        temp := temp + "/";
      }
      temp := temp + pn;
      done := done + [pn];
      i := i + 1;
    }
    assert typed[..|typed|] == typed;
  }

  /** The client-name attempt over the main-typed ports. */
  method ClientAttempt(typed: seq<Port>) returns (found: bool, client: string)
    requires EachHasOneConnection(typed)
    ensures found == ClientLabel(typed).Some?
    ensures found ==> client == ClientLabel(typed).value
  {
    ghost var conns := FirstConnections(typed);
    var maybeClient := "";
    var connections: seq<string> := [];
    var i := 0;
    while i < |typed|
      invariant 0 <= i <= |typed|
      invariant ClientScan(conns, [], "") == ClientScan(conns[i..], connections, maybeClient)
    {
      var connection := typed[i].connections[0];
      assert conns[i..][0] == connection;
      assert conns[i..][1..] == conns[i + 1..];
      var j := 0;
      while j < |connections| && connections[j] != connection
        invariant 0 <= j <= |connections|
        invariant forall k :: 0 <= k < j ==> connections[k] != connection
      {
        j := j + 1;
      }
      if j < |connections| {
        break;
      }
      connections := connections + [connection];
      var name := ClientName(connection);
      if maybeClient == "" {
        maybeClient := name;
      }
      if maybeClient != name {
        break;
      }
      i := i + 1;
    }
    found := |connections| == |typed|;
    client := maybeClient;
  }

  /** update_io_button's label, step by step as the source builds it. */
  method UpdateIoButton(ports: seq<Port>, sv: SessionView, feeds: Bundle -> bool) returns (text: string)
    ensures text == OutputLabel(ports, sv, feeds)
  {
    var dt := MainType.GuessMainType(ports, true);
    var total, typed, eachOne := CountConnections(ports, dt);
    var typedPorts := OfType(ports, dt);
    var haveLabel := false;
    text := "";

    if typed == 0 {
      text := "-";
      haveLabel := true;
    }
    if !haveLabel {
      var route := FindRouteFedBy(sv.routes, feeds);
      if route.Some? {
        text := route.value;
        haveLabel := true;
      }
    }
    if !haveLabel {
      var bundle := FindUserBundleFedBy(sv.bundles, feeds);
      if bundle.Some? {
        text := bundle.value;
        haveLabel := true;
      }
    }
    if !haveLabel && eachOne {
      var temp := PhysicalAttempt(typedPorts, sv.physicalOutputs, sv.prettyNames);
      if temp != "" {
        text := temp;
        haveLabel := true;
      }
    }
    if !haveLabel && eachOne {
      var found, client := ClientAttempt(typedPorts);
      if found {
        text := client;
        haveLabel := true;
      }
    }
    if !haveLabel {
      text := "*" + NatToString(total) + "*";
    }
    if total > typed {
      text := text + CirclePlus;
    }
  }
}
