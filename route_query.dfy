/** The route screen's state machine: the React state cells of the top-level
    component and the effect and handler that overwrite them. Each method
    stands for one event: the endpoints changing (the effect re-runs), the
    backend answering or failing, the user picking a route, the user moving
    the map. Network responses arrive as method arguments. */
module RouteQuery {
  import opened Common
  import opened RouteViews

  /** The map camera as the component sets it. */
  datatype ViewState = ViewState(longitude: Degrees, latitude: Degrees, zoom: real)

  /** The zoom level used to centre the map on a lone source. */
  const SourceZoom: real := 16.0

  class App {
    var viewState: ViewState
    var loading: bool
    var src: Option<Coord>
    var dest: Option<Coord>
    var currentPath: nat
    var possibleRoutes: seq<Route>

    /** Every `/find` query issued so far, oldest first (the network log). */
    ghost var issued: seq<FindQuery>
    /** Indices into `issued` of the queries that have not settled yet. */
    ghost var pending: set<nat>

    /** The invariant the effect and handlers keep: the spinner is only on
        while some query is in flight, and whenever there are routes the
        selected index points at one of them. */
    ghost predicate Valid()
      reads this
    {
      && (forall id :: id in pending ==> id < |issued|)
      && (loading ==> pending != {})
      && (possibleRoutes != [] ==> currentPath < |possibleRoutes|)
    }

    /** First render, including the mount run of the effect with no
        endpoints (it only empties the route list). */
    constructor (initialView: ViewState)
      ensures Valid()
      ensures viewState == initialView && !loading
      ensures src == None && dest == None
      ensures currentPath == 0 && possibleRoutes == []
      ensures issued == [] && pending == {}
    {
      viewState := initialView;
      loading := false;
      src, dest := None, None;
      currentPath := 0;
      possibleRoutes := [];
      issued, pending := [], {};
    }

    /** New endpoints arrive and the effect runs: the route list is emptied
        (the selected index is left as it was); a lone source re-centres the
        map on itself; both endpoints turn the spinner on and issue the
        `/find` query, returned here. */
    method SetEndpoints(newSrc: Option<Coord>, newDest: Option<Coord>) returns (query: Option<FindQuery>)
      requires Valid()
      modifies this
      ensures Valid()
      ensures src == newSrc && dest == newDest
      ensures possibleRoutes == [] && SelectorDisabled(possibleRoutes)
      ensures currentPath == old(currentPath)
      ensures newSrc.Some? && newDest.None? ==>
        viewState == ViewState(newSrc.value.lon, newSrc.value.lat, SourceZoom)
      ensures !(newSrc.Some? && newDest.None?) ==> viewState == old(viewState)
      ensures query.Some? <==> newSrc.Some? && newDest.Some?
      ensures query.Some? ==>
        && query.value == QueryFor(newSrc.value, newDest.value)
        && loading
        && issued == old(issued) + [query.value]
        && pending == old(pending) + {|old(issued)|}
      ensures query.None? ==>
        loading == old(loading) && issued == old(issued) && pending == old(pending)
    {
      src, dest := newSrc, newDest;
      possibleRoutes := [];
      query := None;
      if newSrc.Some? && newDest.None? {
        viewState := ViewState(newSrc.value.lon, newSrc.value.lat, SourceZoom);
      } else if newSrc.Some? && newDest.Some? {
        loading := true;
        query := Some(QueryFor(newSrc.value, newDest.value));
        pending := pending + {|issued|};
        issued := issued + [query.value];
      }
    }

    /** The response to query `id` arrives. There is no check that `id` is
        the latest query: any pending query's answer is applied. A non-empty
        answer installs its routes and selects the first; an empty or absent
        one leaves the routes and the selection alone. Either way the
        spinner goes off. */
    method OnQueryResult(id: nat, response: Option<seq<Route>>)
      requires Valid() && id in pending
      modifies this
      ensures Valid()
      ensures !loading
      ensures response.Some? && |response.value| > 0 ==>
        possibleRoutes == response.value && currentPath == 0
      ensures !(response.Some? && |response.value| > 0) ==>
        possibleRoutes == old(possibleRoutes) && currentPath == old(currentPath)
      ensures src == old(src) && dest == old(dest) && viewState == old(viewState)
      ensures issued == old(issued) && pending == old(pending) - {id}
    {
      if response.Some? && |response.value| > 0 {
        possibleRoutes := response.value;
        currentPath := 0;
      }
      loading := false;
      pending := pending - {id};
    }

    /** Query `id` fails (network error or unreadable body): only the
        spinner goes off. */
    method OnQueryError(id: nat)
      requires Valid() && id in pending
      modifies this
      ensures Valid()
      ensures !loading
      ensures possibleRoutes == old(possibleRoutes) && currentPath == old(currentPath)
      ensures src == old(src) && dest == old(dest) && viewState == old(viewState)
      ensures issued == old(issued) && pending == old(pending) - {id}
    {
      loading := false;
      pending := pending - {id};
    }

    /** The user picks menu entry `i`; the menu only offers the indices of
        the current routes. */
    method Select(i: nat)
      requires Valid() && i < |possibleRoutes|
      modifies this`currentPath
      ensures Valid()
      ensures currentPath == i
      ensures RouteAt(possibleRoutes, currentPath) == Some(possibleRoutes[i])
    {
      currentPath := i;
    }

    /** The user pans or zooms the map. */
    method OnViewStateChange(v: ViewState)
      requires Valid()
      modifies this`viewState
      ensures Valid()
      ensures viewState == v
    {
      viewState := v;
    }

    /** The menu entries shown for the current routes. */
    function Menu(): (items: seq<MenuItem>)
      reads this
      ensures |items| == |possibleRoutes|
      ensures items == [] <==> SelectorDisabled(possibleRoutes)
    {
      MenuItems(possibleRoutes)
    }

    /** The layers handed to the map for the current state. */
    function CurrentLayers(): (layers: seq<Layer>)
      reads this
      requires Valid()
      ensures |layers| == 3
      ensures layers[0].GeoJsonLayer? && layers[1].IconLayer? && layers[2].IconLayer?
      ensures layers[1].position == src && layers[2].position == dest
      ensures possibleRoutes != [] ==> layers[0].data == Some(possibleRoutes[currentPath])
      ensures possibleRoutes == [] ==> layers[0].data == None
    {
      Layers(possibleRoutes, currentPath, src, dest)
    }
  }

  /** A late answer to an older query is still applied: the endpoints move
      on after the first query, yet the first query's routes are installed
      and shown next to the new endpoints. */
  method LateAnswerIsApplied(view: ViewState, a: Coord, b: Coord, c: Coord, r: Route)
    returns (shownRoutes: seq<Route>, shownDest: Option<Coord>, spinner: bool)
    ensures shownRoutes == [r] && shownDest == Some(c) && !spinner
  {
    var app := new App(view);
    var q0 := app.SetEndpoints(Some(a), Some(b));
    var q1 := app.SetEndpoints(Some(a), Some(c));
    assert q0 == Some(QueryFor(a, b)) && q1 == Some(QueryFor(a, c));
    assert 0 in app.pending;
    app.OnQueryResult(0, Some([r]));
    assert app.dest == Some(c);
    assert app.possibleRoutes == [r];
    assert !app.loading && 1 in app.pending;
    shownRoutes, shownDest, spinner := app.possibleRoutes, app.dest, app.loading;
  }

  /** Clearing the routes keeps the selected index: after picking route 1
      and moving an endpoint, the index is still 1, and the path layer is
      empty only because there are no routes. */
  method SelectionSurvivesClearing(view: ViewState, a: Coord, b: Coord, r0: Route, r1: Route)
    returns (selected: nat, pathData: Option<Route>)
    ensures selected == 1 && pathData == None
  {
    var app := new App(view);
    var q := app.SetEndpoints(Some(a), Some(b));
    app.OnQueryResult(0, Some([r0, r1]));
    app.Select(1);
    q := app.SetEndpoints(Some(b), Some(a));
    assert app.currentPath == 1 && app.possibleRoutes == [];
    selected, pathData := app.currentPath, app.CurrentLayers()[0].data;
  }
}
