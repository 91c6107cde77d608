/** The pure views the route screen derives from its state: the `/find`
    query string parameters, the route menu (labels and disabled flag) and
    the ordered list of map layers. */
module RouteViews {
  import opened Common

  /** A leg's geometry, passed through to the map untouched. */
  datatype Geometry = LineString(path: seq<Coord>) | Polygon(ring: seq<Coord>)

  /** One feature of a route: a named leg. */
  datatype Feature = Feature(name: string, geometry: Geometry)

  /** One candidate route as the backend returns it: a feature collection. */
  datatype Route = Route(features: seq<Feature>)

  // ---------------------------------------------------------------------
  // The backend query

  /** The two parameters of `/find?src=<a>,<b>&dest=<c>,<d>`, each the pair
      of numbers written on either side of its comma, in order. */
  datatype FindQuery = FindQuery(src: seq<Degrees>, dest: seq<Degrees>)

  /** The query issued for a source and a destination: each endpoint is
      written latitude first, i.e. the `[lon, lat]` pair is swapped. */
  function QueryFor(src: Coord, dest: Coord): (q: FindQuery)
    ensures |q.src| == 2 && |q.dest| == 2
    ensures q.src[0] == src.lat && q.src[1] == src.lon
    ensures q.dest[0] == dest.lat && q.dest[1] == dest.lon
  {
    FindQuery([src.lat, src.lon], [dest.lat, dest.lon])
  }

  /** Reads the endpoints back out of a query, undoing the swap. */
  function EndpointsOf(q: FindQuery): (r: Option<(Coord, Coord)>)
    ensures r.Some? <==> |q.src| == 2 && |q.dest| == 2
  {
    if |q.src| == 2 && |q.dest| == 2 then
      Some((Coord(q.src[1], q.src[0]), Coord(q.dest[1], q.dest[0])))
    else
      None
  }

  /** The query carries both endpoints without loss: reading it back gives
      the endpoints it was built from, and different endpoint pairs give
      different queries. */
  lemma QueryRoundTrip(src: Coord, dest: Coord, src': Coord, dest': Coord)
    ensures EndpointsOf(QueryFor(src, dest)) == Some((src, dest))
    ensures QueryFor(src, dest) == QueryFor(src', dest') ==> src == src' && dest == dest'
  {
  }

  // ---------------------------------------------------------------------
  // Joining names, as JavaScript's `Array.prototype.join`

  /** Sum of the lengths of the parts. */
  function TotalLength(parts: seq<string>): nat
  {
    if parts == [] then 0 else |parts[0]| + TotalLength(parts[1..])
  }

  /** `parts.join(sep)`: the parts in order with `sep` between neighbours;
      the empty list joins to the empty string. */
  function Join(parts: seq<string>, sep: string): (r: string)
    ensures parts == [] ==> r == ""
    ensures |parts| == 1 ==> r == parts[0]
    ensures parts != [] ==> |r| == TotalLength(parts) + (|parts| - 1) * |sep|
  {
    if |parts| == 0 then ""
    else if |parts| == 1 then parts[0]
    else
      var rest := Join(parts[1..], sep);
      assert (|parts| - 1) * |sep| == |sep| + (|parts[1..]| - 1) * |sep|;
      parts[0] + sep + rest
  }

  /** Where part `i` starts in `Join(parts, sep)`: after every earlier part
      and one separator per earlier part. */
  function Offset(parts: seq<string>, sep: string, i: nat): nat
    requires i <= |parts|
  {
    if i == 0 then 0 else |parts[0]| + |sep| + Offset(parts[1..], sep, i - 1)
  }

  /** Consecutive offsets differ by the part in between and one separator. */
  lemma {:induction false} OffsetStep(parts: seq<string>, sep: string, i: nat)
    requires i < |parts|
    ensures Offset(parts, sep, i + 1) == Offset(parts, sep, i) + |parts[i]| + |sep|
  {
    if i > 0 {
      OffsetStep(parts[1..], sep, i - 1);
    }
  }

  /** In the joined string, part `i` sits at `Offset(i)`. */
  lemma {:induction false} JoinPart(parts: seq<string>, sep: string, i: nat)
    requires i < |parts|
    ensures Offset(parts, sep, i) + |parts[i]| <= |Join(parts, sep)|
    ensures Join(parts, sep)[Offset(parts, sep, i)..Offset(parts, sep, i) + |parts[i]|] == parts[i]
  {
    var j := Join(parts, sep);
    if |parts| > 1 {
      var jr := Join(parts[1..], sep);
      var k := |parts[0]| + |sep|;
      assert j == parts[0] + sep + jr;
      if i > 0 {
        JoinPart(parts[1..], sep, i - 1);
        var o := Offset(parts[1..], sep, i - 1);
        assert j[k..] == jr;
        assert j[k + o..k + o + |parts[i]|] == jr[o..o + |parts[i]|];
      }
    }
  }

  /** In the joined string, exactly `sep` follows every part but the last.
      With `JoinPart` and the length in `Join`'s contract this fixes every
      character of the result. */
  lemma {:induction false} JoinSeparator(parts: seq<string>, sep: string, i: nat)
    requires i + 1 < |parts|
    ensures Offset(parts, sep, i) + |parts[i]| + |sep| <= |Join(parts, sep)|
    ensures Join(parts, sep)[Offset(parts, sep, i) + |parts[i]|..Offset(parts, sep, i) + |parts[i]| + |sep|] == sep
  {
    var rest := parts[1..];
    var j, jr := Join(parts, sep), Join(rest, sep);
    var k := |parts[0]| + |sep|;
    assert j == parts[0] + sep + jr;
    if i == 0 {
      assert j[|parts[0]|..k] == sep;
    } else {
      JoinSeparator(rest, sep, i - 1);
      var e := Offset(rest, sep, i - 1) + |rest[i - 1]|;
      assert Offset(parts, sep, i) + |parts[i]| == k + e;
      assert j[k..] == jr;
      assert jr[e..e + |sep|] == sep;
    }
  }

  /** Joining two non-empty lists is joining their joins. */
  lemma {:induction false} JoinAppend(a: seq<string>, b: seq<string>, sep: string)
    requires a != [] && b != []
    ensures Join(a + b, sep) == Join(a, sep) + sep + Join(b, sep)
  {
    if |a| == 1 {
      assert (a + b)[1..] == b;
    } else {
      assert (a + b)[1..] == a[1..] + b;
      JoinAppend(a[1..], b, sep);
    }
  }

  // ---------------------------------------------------------------------
  // The route menu

  /** The separator between leg names in a menu label. */
  const LabelSeparator: string := " - "

  /** `r.features.map(f => f.properties.name)`. */
  function FeatureNames(features: seq<Feature>): (names: seq<string>)
    ensures |names| == |features|
    ensures forall i :: 0 <= i < |features| ==> names[i] == features[i].name
  {
    if features == [] then [] else [features[0].name] + FeatureNames(features[1..])
  }

  /** The label of a route in the menu: its leg names joined with " - ". */
  function RouteLabel(route: Route): (text: string)
    ensures route.features == [] ==> text == ""
    ensures |route.features| == 1 ==> text == route.features[0].name
    ensures route.features != [] ==>
      |text| == TotalLength(FeatureNames(route.features)) + (|route.features| - 1) * |LabelSeparator|
  {
    Join(FeatureNames(route.features), LabelSeparator)
  }

  /** Each leg's name appears in the route's label at its offset, and
      neighbouring names are separated by " - ". */
  lemma LabelShowsLeg(route: Route, i: nat)
    requires i < |route.features|
    ensures var names := FeatureNames(route.features);
      var o := Offset(names, LabelSeparator, i);
      o + |route.features[i].name| <= |RouteLabel(route)| &&
      RouteLabel(route)[o..o + |route.features[i].name|] == route.features[i].name
    ensures var names := FeatureNames(route.features);
      var o := Offset(names, LabelSeparator, i);
      i + 1 < |route.features| ==>
        Offset(names, LabelSeparator, i + 1) == o + |route.features[i].name| + 3 &&
        Offset(names, LabelSeparator, i + 1) <= |RouteLabel(route)| &&
        RouteLabel(route)[o + |route.features[i].name|..Offset(names, LabelSeparator, i + 1)] == " - "
  {
    var names := FeatureNames(route.features);
    JoinPart(names, LabelSeparator, i);
    if i + 1 < |names| {
      OffsetStep(names, LabelSeparator, i);
      JoinSeparator(names, LabelSeparator, i);
    }
  }

  /** One entry of the route selector: value `i` shows route `i`'s label. */
  datatype MenuItem = MenuItem(value: nat, text: string)

  /** `possibleRoutes.map((r, i) => <MenuItem value={i}>label</MenuItem>)`. */
  function MenuItems(routes: seq<Route>): (items: seq<MenuItem>)
    ensures |items| == |routes|
    ensures forall i :: 0 <= i < |items| ==> items[i].value == i
    ensures forall i :: 0 <= i < |items| ==> items[i].text == RouteLabel(routes[i])
  {
    seq(|routes|, i requires 0 <= i < |routes| => MenuItem(i, RouteLabel(routes[i])))
  }

  /** The selector's `disabled` flag. */
  function SelectorDisabled(routes: seq<Route>): (disabled: bool)
    ensures disabled <==> MenuItems(routes) == []
  {
    |routes| == 0
  }

  /** The values the selector offers are exactly the indices of the routes. */
  lemma SelectorOffersRouteIndices(routes: seq<Route>, k: int)
    ensures (exists i :: 0 <= i < |MenuItems(routes)| && MenuItems(routes)[i].value == k)
        <==> 0 <= k < |routes|
  {
    var items := MenuItems(routes);
    if 0 <= k < |routes| {
      assert items[k].value == k;
    }
  }

  // ---------------------------------------------------------------------
  // The map layers

  /** A deck.gl layer: the route drawn as GeoJSON, or a one-point marker. */
  datatype Layer =
    | GeoJsonLayer(id: string, data: Option<Route>)
    | IconLayer(id: string, name: string, position: Option<Coord>)

  /** `possibleRoutes[currentPath]`: undefined when the index is past the end. */
  function RouteAt(routes: seq<Route>, currentPath: nat): (r: Option<Route>)
    ensures r.Some? <==> currentPath < |routes|
    ensures r.Some? ==> r.value == routes[currentPath]
  {
    if currentPath < |routes| then Some(routes[currentPath]) else None
  }

  /** The marker for one endpoint, built from the raw endpoint alone: it
      sits at the endpoint, undefined when the endpoint is. */
  function Marker(id: string, name: string, at: Option<Coord>): (layer: Layer)
    ensures layer.IconLayer? && layer.id == id && layer.name == name
    ensures layer.position.Some? <==> at.Some?
    ensures at.Some? ==> layer.position.value == at.value
  {
    IconLayer(id, name, at)
  }

  /** `[pathLayer, sourceLayer, destinationLayer]`. */
  function Layers(routes: seq<Route>, currentPath: nat, src: Option<Coord>, dest: Option<Coord>): (layers: seq<Layer>)
    ensures |layers| == 3
    ensures layers[0].GeoJsonLayer? && layers[0].data == RouteAt(routes, currentPath)
    ensures layers[1].IconLayer? && layers[1].name == "Source" && layers[1].position == src
    ensures layers[2].IconLayer? && layers[2].name == "Destination" && layers[2].position == dest
  {
    [ GeoJsonLayer("jeep-layer", RouteAt(routes, currentPath)),
      Marker("source-layer", "Source", src),
      Marker("dest-layer", "Destination", dest) ]
  }

  /** The markers do not depend on the routes or the selection: they show
      the endpoints as soon as they are set. */
  lemma MarkersIgnoreRoutes(routes: seq<Route>, k: nat, routes': seq<Route>, k': nat, src: Option<Coord>, dest: Option<Coord>)
    ensures Layers(routes, k, src, dest)[1..] == Layers(routes', k', src, dest)[1..]
  {
  }

  /** With no routes the path layer draws nothing, whatever index is left
      selected. */
  lemma NoRoutesNoPath(k: nat, src: Option<Coord>, dest: Option<Coord>)
    ensures Layers([], k, src, dest)[0].data == None
  {
  }
}
