/** The state the foldback strip keeps and updates: its route and the list of
    bundles offered in the output menu (output_menu_bundles). */
module Strip {
  import opened Types
  import MainType
  import FoldbackSelect

  /** The filters of maybe_add_bundle_to_output_menu before the duplicate test:
      an input bundle, not the route's own input, not the monitor input unless
      the route is the master, and as many channels as the route has outputs
      (all types for NIL, else those of type t). */
  predicate Offerable(b: Bundle, route: Route, monitorInput: Option<Bundle>, t: DataType)
  {
    && b.isInput
    && !SameBundle(b, route.input)
    && !(!route.isMaster && monitorInput.Some? && SamePorts(b, monitorInput.value))
    && (if t == Nil then NChannels(b) == NOutputs(route) else NChannels(b).N(t) == NOutputs(route).N(t))
  }

  /** Some entry of list has the same ports as b. */
  predicate HasSamePortsIn(list: seq<Bundle>, b: Bundle)
  {
    exists i :: 0 <= i < |list| && SamePorts(b, list[i])
  }

  /** No two entries of list have the same ports. */
  predicate NoTwoSamePorts(list: seq<Bundle>)
  {
    forall i, j :: 0 <= i < j < |list| ==> !SamePorts(list[i], list[j])
  }

  /** has_same_ports is an equivalence. */
  lemma SamePortsEquivalence(a: Bundle, b: Bundle, c: Bundle)
    ensures SamePorts(a, a)
    ensures SamePorts(a, b) ==> SamePorts(b, a)
    ensures SamePorts(a, b) && SamePorts(b, c) ==> SamePorts(a, c)
  {
  }

  /** The bundles output_press offers, in the order it tries them: the master
      bus input, the other routes' inputs (sorted by name by the caller), the
      user bundles, then every other bundle. */
  function OutputMenuCandidates(master: Option<Route>, routesByName: seq<Route>, bundles: seq<Bundle>): seq<Bundle>
  {
    var masterInput := if master.Some? then [master.value.input] else [];
    var inputs := seq(|routesByName|, i requires 0 <= i < |routesByName| => routesByName[i].input);
    masterInput + inputs + UserBundles(bundles, true) + UserBundles(bundles, false)
  }

  /** The candidates are exactly the master input, the routes' inputs and the
      session's bundles. */
  lemma OutputMenuCandidatesMembers(master: Option<Route>, routesByName: seq<Route>, bundles: seq<Bundle>)
    ensures forall b :: b in OutputMenuCandidates(master, routesByName, bundles) <==>
      (master.Some? && b == master.value.input) || (exists r :: r in routesByName && b == r.input) || b in bundles
  {
    var inputs := seq(|routesByName|, i requires 0 <= i < |routesByName| => routesByName[i].input);
    UserBundlesMembers(bundles, true);
    UserBundlesMembers(bundles, false);
    forall b | b in inputs ensures exists r :: r in routesByName && b == r.input {
      var i :| 0 <= i < |inputs| && inputs[i] == b;
      assert routesByName[i] in routesByName;
    }
    forall b | exists r :: r in routesByName && b == r.input ensures b in inputs {
      var r :| r in routesByName && b == r.input;
      var i :| 0 <= i < |routesByName| && routesByName[i] == r;
      assert inputs[i] == b;
    }
  }

  /** The bundles whose user flag is user, in order. */
  function UserBundles(bundles: seq<Bundle>, user: bool): seq<Bundle>
  {
    if bundles == [] then []
    else
      var init := bundles[..|bundles| - 1];
      var last := bundles[|bundles| - 1];
      UserBundles(init, user) + (if last.isUser == user then [last] else [])
  }

  /** UserBundles keeps exactly the bundles whose user flag is user. */
  lemma {:induction false} UserBundlesMembers(bundles: seq<Bundle>, user: bool)
    ensures forall b :: b in UserBundles(bundles, user) <==> b in bundles && b.isUser == user
  {
    if bundles != [] {
      var init := bundles[..|bundles| - 1];
      var last := bundles[|bundles| - 1];
      UserBundlesMembers(init, user);
      assert bundles == init + [last];
      assert forall b :: b in bundles <==> b in init || b == last;
    }
  }

  /** maybe_add_bundle_to_output_menu on the list alone: b is appended when
      it is offerable and no entry has its ports. */
  function MenuAdd(list: seq<Bundle>, b: Bundle, route: Route, monitorInput: Option<Bundle>, t: DataType): seq<Bundle>
  {
    if Offerable(b, route, monitorInput, t) && !HasSamePortsIn(list, b) then list + [b] else list
  }

  /** The list left by trying the candidates in order, starting from list. */
  function MenuFrom(list: seq<Bundle>, cands: seq<Bundle>, route: Route, monitorInput: Option<Bundle>, t: DataType): seq<Bundle>
  {
    if cands == [] then list
    else MenuAdd(MenuFrom(list, cands[..|cands| - 1], route, monitorInput, t), cands[|cands| - 1], route, monitorInput, t)
  }

  /** Trying one candidate more of the same sequence. */
  lemma MenuFromPrefixStep(list: seq<Bundle>, cands: seq<Bundle>, k: nat,
                           route: Route, monitorInput: Option<Bundle>, t: DataType)
    requires k < |cands|
    ensures MenuFrom(list, cands[..k + 1], route, monitorInput, t)
         == MenuAdd(MenuFrom(list, cands[..k], route, monitorInput, t), cands[k], route, monitorInput, t)
  {
    assert cands[..k + 1][..k] == cands[..k];
  }

  /** Candidates are tried in order: trying a then b is trying a + b. So the
      master input is tried first, then the routes' inputs, the user bundles
      and the other bundles. */
  lemma {:induction false} MenuFromAppend(list: seq<Bundle>, a: seq<Bundle>, b: seq<Bundle>,
                                          route: Route, monitorInput: Option<Bundle>, t: DataType)
    ensures MenuFrom(list, a + b, route, monitorInput, t)
         == MenuFrom(MenuFrom(list, a, route, monitorInput, t), b, route, monitorInput, t)
  {
    if b == [] {
      assert a + b == a;
    } else {
      var init := b[..|b| - 1];
      MenuFromAppend(list, a, init, route, monitorInput, t);
      assert (a + b)[..|a + b| - 1] == a + init;
      assert (a + b)[|a + b| - 1] == b[|b| - 1];
    }
  }

  /** Entries are only ever appended: the starting list stays a prefix. */
  lemma {:induction false} MenuFromKeeps(list: seq<Bundle>, cands: seq<Bundle>,
                                         route: Route, monitorInput: Option<Bundle>, t: DataType)
    ensures list <= MenuFrom(list, cands, route, monitorInput, t)
  {
    if cands != [] {
      MenuFromKeeps(list, cands[..|cands| - 1], route, monitorInput, t);
    }
  }

  /** Appending a bundle whose ports are not listed keeps the list free of
      same-ports pairs. */
  lemma NoTwoSamePortsAdd(list: seq<Bundle>, b: Bundle)
    requires NoTwoSamePorts(list) && !HasSamePortsIn(list, b)
    ensures NoTwoSamePorts(list + [b])
  {
    forall k | 0 <= k < |list|
      ensures !SamePorts(list[k], b)
    {
      SamePortsEquivalence(b, list[k], b);
    }
  }

  /** One candidate more: the entries stay offerable candidates, and every
      offerable candidate tried so far keeps a same-ports entry. */
  lemma MenuStep(before: seq<Bundle>, c: Bundle, done: seq<Bundle>,
                 route: Route, monitorInput: Option<Bundle>, t: DataType)
    requires forall e :: e in before ==> e in done && Offerable(e, route, monitorInput, t)
    requires forall d :: d in done && Offerable(d, route, monitorInput, t) ==> HasSamePortsIn(before, d)
    ensures var after := MenuAdd(before, c, route, monitorInput, t);
      && (forall e :: e in after ==> e in done + [c] && Offerable(e, route, monitorInput, t))
      && (forall d :: d in done + [c] && Offerable(d, route, monitorInput, t) ==> HasSamePortsIn(after, d))
  {
    var after := MenuAdd(before, c, route, monitorInput, t);
    SamePortsEquivalence(c, c, c);
    if after != before {
      assert after[|before|] == c;
    }
    forall d | d in done + [c] && Offerable(d, route, monitorInput, t)
      ensures HasSamePortsIn(after, d)
    {
      if d in done {
        var i :| 0 <= i < |before| && SamePorts(d, before[i]);
        assert after[i] == before[i];
      }
    }
  }

  /** The menu built from an empty list over cands: no two entries share
      ports, every entry is an offerable candidate, and every offerable
      candidate is represented by an entry with its ports. */
  lemma {:induction false} MenuFromFacts(cands: seq<Bundle>, route: Route, monitorInput: Option<Bundle>, t: DataType)
    ensures var menu := MenuFrom([], cands, route, monitorInput, t);
      && NoTwoSamePorts(menu)
      && (forall e :: e in menu ==> e in cands && Offerable(e, route, monitorInput, t))
      && (forall c :: c in cands && Offerable(c, route, monitorInput, t) ==> HasSamePortsIn(menu, c))
  {
    if cands != [] {
      var init := cands[..|cands| - 1];
      var c := cands[|cands| - 1];
      MenuFromFacts(init, route, monitorInput, t);
      var before := MenuFrom([], init, route, monitorInput, t);
      MenuStep(before, c, init, route, monitorInput, t);
      assert cands == init + [c];
      if Offerable(c, route, monitorInput, t) && !HasSamePortsIn(before, c) {
        NoTwoSamePortsAdd(before, c);
      }
    }
  }

  /** No offerable candidate among done has the same ports as c. */
  predicate NoEarlierSamePorts(done: seq<Bundle>, c: Bundle, route: Route, monitorInput: Option<Bundle>, t: DataType)
  {
    forall j :: 0 <= j < |done| && Offerable(done[j], route, monitorInput, t) ==> !SamePorts(done[j], c)
  }

  /** A candidate is appended exactly when it is offerable and no earlier
      offerable candidate has its ports: each entry is the first offerable
      candidate with its ports. */
  lemma MenuAddsExactly(cands: seq<Bundle>, c: Bundle, route: Route, monitorInput: Option<Bundle>, t: DataType)
    ensures var menu := MenuFrom([], cands, route, monitorInput, t);
      MenuFrom([], cands + [c], route, monitorInput, t) ==
        if Offerable(c, route, monitorInput, t) && NoEarlierSamePorts(cands, c, route, monitorInput, t)
        then menu + [c] else menu
  {
    var menu := MenuFrom([], cands, route, monitorInput, t);
    assert (cands + [c])[..|cands|] == cands;
    MenuFromFacts(cands, route, monitorInput, t);
    if HasSamePortsIn(menu, c) {
      var i :| 0 <= i < |menu| && SamePorts(c, menu[i]);
      assert menu[i] in menu;
      var j :| 0 <= j < |cands| && cands[j] == menu[i];
      SamePortsEquivalence(c, menu[i], c);
      assert !NoEarlierSamePorts(cands, c, route, monitorInput, t);
    }
    if !NoEarlierSamePorts(cands, c, route, monitorInput, t) {
      var j :| 0 <= j < |cands| && Offerable(cands[j], route, monitorInput, t) && SamePorts(cands[j], c);
      assert cands[j] in cands;
      var i :| 0 <= i < |menu| && SamePorts(cands[j], menu[i]);
      SamePortsEquivalence(c, cands[j], menu[i]);
      assert HasSamePortsIn(menu, c);
    }
  }

  /** The duplicate scan: the index of the first entry with the same ports as
      b, or |list| when there is none. */
  method FindSamePorts(list: seq<Bundle>, b: Bundle) returns (i: nat)
    ensures i <= |list|
    ensures i < |list| ==> SamePorts(b, list[i])
    ensures forall j :: 0 <= j < i ==> !SamePorts(b, list[j])
  {
    i := 0;
    while i < |list| && !SamePorts(b, list[i])
      invariant i <= |list|
      invariant forall j :: 0 <= j < i ==> !SamePorts(b, list[j])
    {
      i := i + 1;
    }
  }

  class FoldbackStrip {
    var route: Route
    var outputMenuBundles: seq<Bundle>

    /** The menu never offers two bundles with the same ports. */
    ghost predicate Valid()
      reads this
    {
      NoTwoSamePorts(outputMenuBundles)
    }

    constructor (r: Route)
      ensures route == r && outputMenuBundles == [] && Valid()
    {
      route := r;
      outputMenuBundles := [];
    }

    /** maybe_add_bundle_to_output_menu: append b when it passes the filters
        and no bundle with the same ports is offered yet; otherwise change nothing. */
    method MaybeAddBundleToOutputMenu(b: Bundle, monitorInput: Option<Bundle>, t: DataType)
      requires Valid()
      modifies this`outputMenuBundles
      ensures Valid()
      ensures outputMenuBundles ==
        if Offerable(b, route, monitorInput, t) && !HasSamePortsIn(old(outputMenuBundles), b)
        then old(outputMenuBundles) + [b]
        else old(outputMenuBundles)
    {
      if !b.isInput || SameBundle(b, route.input) {
        return;
      }
      if !route.isMaster && monitorInput.Some? && SamePorts(b, monitorInput.value) {
        return;
      }
      if t == Nil {
        if NChannels(b) != NOutputs(route) {
          return;
        }
      } else {
        if NChannels(b).N(t) != NOutputs(route).N(t) {
          return;
        }
      }
      var i := FindSamePorts(outputMenuBundles, b);
      if i != |outputMenuBundles| {
        return;
      }
      NoTwoSamePortsAdd(outputMenuBundles, b);
      outputMenuBundles := outputMenuBundles + [b];
    }

    /** The bundle part of output_press: clear the list, then try every
        candidate in order with the guessed main type of the outputs. The
        new list is the menu folded over the candidates; so every offered
        bundle is an offerable candidate, and every offerable candidate is
        offered, itself or through a bundle with the same ports. */
    method BuildOutputMenu(master: Option<Route>, routesByName: seq<Route>, bundles: seq<Bundle>,
                           monitorInput: Option<Bundle>)
      modifies this`outputMenuBundles
      ensures Valid()
      ensures var cands := OutputMenuCandidates(master, routesByName, bundles);
        var t := MainType.MainType(route.outputPorts, true);
        && outputMenuBundles == MenuFrom([], cands, route, monitorInput, t)
        && (forall e :: e in outputMenuBundles ==> e in cands && Offerable(e, route, monitorInput, t))
        && (forall c :: c in cands && Offerable(c, route, monitorInput, t) ==> HasSamePortsIn(outputMenuBundles, c))
    {
      outputMenuBundles := [];
      var t := MainType.GuessMainType(route.outputPorts, true);
      var cands := OutputMenuCandidates(master, routesByName, bundles);
      TryCandidates(cands, monitorInput, t);
      MenuFromFacts(cands, route, monitorInput, t);
    }

    /** The loop of output_press over the candidates, starting from an empty menu. */
    method TryCandidates(cands: seq<Bundle>, monitorInput: Option<Bundle>, t: DataType)
      requires outputMenuBundles == []
      modifies this`outputMenuBundles
      ensures Valid()
      ensures outputMenuBundles == MenuFrom([], cands, route, monitorInput, t)
    {
      for k := 0 to |cands|
        invariant Valid()
        invariant outputMenuBundles == MenuFrom([], cands[..k], route, monitorInput, t)
      {
        MenuFromPrefixStep([], cands, k, route, monitorInput, t);
        MaybeAddBundleToOutputMenu(cands[k], monitorInput, t);
      }
      assert cands[..|cands|] == cands;
    }

    /** remove_current_fb: the strip moves to the first other foldback bus,
        or closes when there is none; the old route is removed either way. */
    method RemoveCurrentFb(fbs: seq<Route>) returns (removed: Route, closed: bool)
      modifies this`route
      ensures removed == old(route)
      ensures var others := FoldbackSelect.OtherFoldbacks(fbs, old(route));
        && (closed <==> others == [])
        && route == if others == [] then old(route) else others[0]
    {
      removed := route;
      var next := FoldbackSelect.NextFoldback(fbs, route);
      if next.Some? {
        route := next.value;
        closed := false;
      } else {
        closed := true;
      }
    }
  }
}
