/** Choosing among the session's foldback buses: the route-select menu
    (build_route_select_menu) and the successor picked when the current bus
    is removed (remove_current_fb). */
module FoldbackSelect {
  import opened Types

  /** The foldback buses other than current, in their session order. */
  function OtherFoldbacks(fbs: seq<Route>, current: Route): (r: seq<Route>)
    ensures forall x :: x in r <==> x in fbs && x != current
    ensures |r| <= |fbs|
  {
    if fbs == [] then []
    else
      var init := fbs[..|fbs| - 1];
      var last := fbs[|fbs| - 1];
      assert forall x :: x in fbs <==> x in init || x == last;
      OtherFoldbacks(init, current) + (if last != current then [last] else [])
  }

  /** Filtering keeps the order: it distributes over concatenation. */
  lemma {:induction false} OtherFoldbacksAppend(a: seq<Route>, b: seq<Route>, current: Route)
    ensures OtherFoldbacks(a + b, current) == OtherFoldbacks(a, current) + OtherFoldbacks(b, current)
    decreases |b|
  {
    if b == [] {
      assert a + b == a;
    } else {
      var init := b[..|b| - 1];
      assert (a + b)[..|a + b| - 1] == a + init;
      assert (a + b)[|a + b| - 1] == b[|b| - 1];
      OtherFoldbacksAppend(a, init, current);
    }
  }

  /** Every other bus keeps its multiplicity; the current one is gone. */
  lemma {:induction false} OtherFoldbacksCounts(fbs: seq<Route>, current: Route, x: Route)
    ensures multiset(OtherFoldbacks(fbs, current))[x] == if x == current then 0 else multiset(fbs)[x]
    decreases |fbs|
  {
    if fbs != [] {
      var init := fbs[..|fbs| - 1];
      assert fbs == init + [fbs[|fbs| - 1]];
      OtherFoldbacksCounts(init, current, x);
    }
  }

  /** A list holding only the current bus leaves nothing to choose. */
  lemma {:induction false} OnlyCurrent(fbs: seq<Route>, current: Route)
    requires forall j :: 0 <= j < |fbs| ==> fbs[j] == current
    ensures OtherFoldbacks(fbs, current) == []
    decreases |fbs|
  {
    if fbs != [] {
      OnlyCurrent(fbs[..|fbs| - 1], current);
    }
  }

  /** The first other bus is the first entry of the list that is not current. */
  lemma FirstOtherFoldback(fbs: seq<Route>, current: Route, k: nat)
    requires k < |fbs| && fbs[k] != current
    requires forall j :: 0 <= j < k ==> fbs[j] == current
    ensures |OtherFoldbacks(fbs, current)| > 0 && OtherFoldbacks(fbs, current)[0] == fbs[k]
  {
    assert fbs == fbs[..k] + ([fbs[k]] + fbs[k + 1..]);
    OtherFoldbacksAppend(fbs[..k], [fbs[k]] + fbs[k + 1..], current);
    OtherFoldbacksAppend([fbs[k]], fbs[k + 1..], current);
    assert OtherFoldbacks([fbs[k]], current) == [fbs[k]] by {
      assert [fbs[k]][..0] == [];
    }
    OnlyCurrent(fbs[..k], current);
  }

  /** build_route_select_menu: the routes the menu offers, in order. */
  method RouteSelectMenu(fbs: seq<Route>, current: Route) returns (items: seq<Route>)
    ensures items == OtherFoldbacks(fbs, current)
  {
    items := [];
    for i := 0 to |fbs|
      invariant items == OtherFoldbacks(fbs[..i], current)
    {
      assert fbs[..i + 1] == fbs[..i] + [fbs[i]];
      OtherFoldbacksAppend(fbs[..i], [fbs[i]], current);
      assert OtherFoldbacks([fbs[i]], current) == (if fbs[i] != current then [fbs[i]] else []) by {
        assert [fbs[i]][..0] == [];
      }
      if fbs[i] == current {
        continue;
      }
      items := items + [fbs[i]];
    }
    assert fbs[..|fbs|] == fbs;
  }

  /** The successor search of remove_current_fb: the first bus that is not
      the current one, if any; it is the first entry of the select menu. */
  method NextFoldback(fbs: seq<Route>, current: Route) returns (next: Option<Route>)
    ensures next.None? <==> forall i :: 0 <= i < |fbs| ==> fbs[i] == current
    ensures next.Some? ==> exists k :: 0 <= k < |fbs| && fbs[k] == next.value && next.value != current
                                       && forall j :: 0 <= j < k ==> fbs[j] == current
    ensures var others := OtherFoldbacks(fbs, current);
      next == if others == [] then None else Some(others[0])
  {
    next := None;
    var i := 0;
    while i < |fbs|
      invariant 0 <= i <= |fbs|
      invariant forall j :: 0 <= j < i ==> fbs[j] == current
    {
      if fbs[i] != current {
        next := Some(fbs[i]);
        FirstOtherFoldback(fbs, current, i);
        return;
      }
      i := i + 1;
    }
    OnlyCurrent(fbs, current);
  }
}
