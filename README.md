# Route screen and place search of the Davao router front end

This project models the two pieces of sequential state logic in the
front end of the Davao jeepney router. The rest of the front end is UI and
network plumbing.

- **The route screen** (`src/App.tsx`) holds the source and destination
  points, the candidate routes returned by the backend's `/find` endpoint,
  the selected route index, a loading flag and the map camera. Its effect
  re-runs whenever an endpoint changes. The effect empties the route list.
  It then re-centres the map on a lone source, or asks the backend for
  routes when both endpoints are set; with no source it does nothing more.
  A non-empty answer installs the routes and selects the first one. An
  empty answer or a failure only turns loading off. A menu lets the user pick another route. Module `RouteQuery` models
  this as the class `App`, with one method per event. Module `RouteViews`
  models the pure views: the query parameters in latitude,longitude order,
  the menu labels (leg names joined with `" - "`), the disabled flag and
  the fixed layer order `[path, source marker, destination marker]`.
- **The place-search field** (`src/components/GeocoderField.tsx`) holds
  the typed text, the selected place and the option list. Whenever the text
  or the selected place changes, its options effect re-runs. With empty
  text it sets the options to the selected place alone and searches
  nothing. Otherwise it issues a geocoder search. A callback from a
  superseded run of the effect is ignored, so the most recent search wins.
  Each search is answered at most once, because its fetch settles once. Module `GeocoderOptions` models the pure parts:
  turning geocoder features into places, merging the selected place with
  the results, and option labels. Module `GeocoderState` models the class
  `GeocoderField`. It replaces the per-run `active` flag with a generation
  number: every run of the effect increments it, and a callback is applied
  only when the generation it captured is still the current one.

Two behaviours of the route screen are modelled as written:

- There is no staleness guard. `App.OnQueryResult` accepts the answer to
  any query still in flight, not only the latest one.
- Emptying the route list does not reset the selected index.
  `App.SetEndpoints` keeps `currentPath`, and the path layer draws nothing
  only because `possibleRoutes[currentPath]` is then undefined.

Coordinates are the `[longitude, latitude]` pairs the code passes around.
Index 0 is `lon` and index 1 is `lat`. The code only copies and reorders
them, so they are `real` values that are never computed with.

Network responses are method arguments. `App` keeps a ghost log of the
issued queries and the set of those still pending. `GeocoderField` keeps a
ghost log of the issued searches and the set of those already answered. These logs let the contracts say which
response may arrive and when a callback is stale.

## Model

| member | source | states |
|---|---|---|
| `RouteViews.QueryFor` | src/App.tsx:121 | the `/find` query writes each endpoint latitude first, swapping the `[lon, lat]` pair |
| `RouteViews.QueryRoundTrip` | src/App.tsx:121 | reading the endpoints back from the query gives the endpoints it was built from; distinct endpoint pairs give distinct queries |
| `RouteViews.Join` | src/App.tsx:188 | `join` of no names is the empty string and of one name is that name; otherwise the length is the total of the names plus one separator between each pair of neighbours |
| `RouteViews.OffsetStep` | src/App.tsx:188 | consecutive names in the joined label start one name and one separator apart |
| `RouteViews.JoinPart` | src/App.tsx:188 | in the joined string, name `i` sits at its offset |
| `RouteViews.JoinSeparator` | src/App.tsx:188 | in the joined string, exactly the separator follows every name but the last |
| `RouteViews.JoinAppend` | src/App.tsx:188 | joining a concatenation of two non-empty lists is the two joins with a separator between them |
| `RouteViews.FeatureNames` | src/App.tsx:188 | `features.map(f => f.properties.name)` keeps length and order |
| `RouteViews.LabelShowsLeg` | src/App.tsx:188 | every leg name appears in the route's menu label at its offset, separated from the next by `" - "` |
| `RouteViews.RouteLabel` | src/App.tsx:188 | a route with no legs has an empty label and a one-leg route is labelled by its leg's name; otherwise the length is the names plus one `" - "` between neighbours (`LabelShowsLeg` places each name) |
| `RouteViews.SelectorDisabled` | src/App.tsx:176-184 | the selector is disabled exactly when the menu has no entries (`SelectorOffersRouteIndices` adds which values it offers) |
| `RouteViews.MenuItems` | src/App.tsx:186-190 | one menu entry per route; entry `i` has value `i` and that route's label |
| `RouteViews.SelectorOffersRouteIndices` | src/App.tsx:186-190 | the values the selector offers are exactly the indices `0..n-1` of the routes |
| `RouteViews.RouteAt` | src/App.tsx:53 | `possibleRoutes[currentPath]` is a route exactly when the index is in range, and is undefined otherwise |
| `RouteViews.Marker` | src/App.tsx:67-109 | a marker layer carries its id and name and sits at the raw endpoint, undefined exactly when the endpoint is (`MarkersIgnoreRoutes` shows it ignores the routes) |
| `RouteViews.Layers` | src/App.tsx:160 | there are always three layers: the selected route's path, then the source marker at `src`, then the destination marker at `dest` |
| `RouteViews.MarkersIgnoreRoutes` | src/App.tsx:67-109 | the two markers depend only on the endpoints, not on the routes or the selection |
| `RouteViews.NoRoutesNoPath` | src/App.tsx:50-65 | with no routes the path layer has no data, whatever index is selected |
| `RouteQuery.App.constructor` | src/App.tsx:33-48 | initial state: no endpoints, no routes, index 0, not loading, the given camera; the invariant holds |
| `RouteQuery.App.SetEndpoints` | src/App.tsx:111-121 | an endpoint change always empties the routes and keeps the index. A lone source re-centres the camera at zoom 16 and issues no query. Both endpoints turn loading on and issue exactly one query, in lat,lon order. No source changes nothing else |
| `RouteQuery.App.OnQueryResult` | src/App.tsx:123-129 | the answer to any pending query, not only the latest, is applied: a non-empty answer replaces the routes and selects 0; an empty or absent one leaves routes and index unchanged; loading is off afterwards |
| `RouteQuery.App.OnQueryError` | src/App.tsx:130-132 | a failed query turns loading off and changes nothing else |
| `RouteQuery.App.Select` | src/App.tsx:136-138 | picking menu entry `i` sets the index to `i`, which then designates route `i` |
| `RouteQuery.App.OnViewStateChange` | src/App.tsx:158 | the user's camera move replaces the camera |
| `RouteQuery.App.Menu` | src/App.tsx:176-190 | the menu has one entry per current route, and is empty exactly when the selector is disabled |
| `RouteQuery.App.CurrentLayers` | src/App.tsx:160 | under the invariant, the path layer shows the selected route whenever there are routes and nothing otherwise; the markers are at the current endpoints |
| `RouteQuery.LateAnswerIsApplied` | src/App.tsx:123-127 | after the destination moves from `b` to `c`, the late answer to the `b` query is still installed next to `c`, and loading goes off although the `c` query is still pending |
| `RouteQuery.SelectionSurvivesClearing` | src/App.tsx:112 | after route 1 is picked and an endpoint moves, the index is still 1 and the path layer is empty |
| `GeocoderOptions.ToPlace` | src/components/GeocoderField.tsx:44-50 | a feature becomes a place field for field: id from `osm_id`, coordinates from the geometry, and the feature can be read back from the place |
| `GeocoderOptions.ToPlaceKeepsEveryField` | src/components/GeocoderField.tsx:46-50 | the place keeps the feature's name, street, city, locality and district |
| `GeocoderOptions.ProjectFeatures` | src/components/GeocoderField.tsx:43-51 | the projected list has the response's length, and place `i` is the projection of feature `i` |
| `GeocoderOptions.ProjectFeaturesAppend` | src/components/GeocoderField.tsx:43-51 | projecting a concatenation gives the concatenation of the projections, so order is kept |
| `GeocoderOptions.MergeOptions` | src/components/GeocoderField.tsx:69-79 | the callback's option list is the selected place first, if there is one, then every result in order |
| `GeocoderOptions.EmptyInputOptions` | src/components/GeocoderField.tsx:62-65 | with empty text the options are `[value]` when a place is selected and `[]` otherwise |
| `GeocoderOptions.OptionsAfterPick` | src/components/GeocoderField.tsx:100 | picking a place puts it in front of the current options; picking nothing keeps them |
| `GeocoderOptions.OptionLabel` | src/components/GeocoderField.tsx:90-92 | a place is labelled by its name, typed text by itself |
| `GeocoderOptions.FilterOptions` | src/components/GeocoderField.tsx:93 | `filterOptions` is the identity: the field hands the autocomplete its option list unchanged, element for element |
| `GeocoderOptions.ReportedCoordinate` | src/components/GeocoderField.tsx:31-33 | the parent receives the selected place's coordinates, or nothing when no place is selected |
| `GeocoderState.GeocoderField.constructor` | src/components/GeocoderField.tsx:27-29 | initial state: nothing selected, empty text, no options, generation 0, no search issued |
| `GeocoderState.GeocoderField.RunOptionsEffect` | src/components/GeocoderField.tsx:59-86 | each run supersedes every earlier search. With empty text it sets the options to the selected place alone and issues no search. Otherwise it issues one search that captures the text, the generation and the selected place, and leaves the options unchanged |
| `GeocoderState.GeocoderField.OnInputChange` | src/components/GeocoderField.tsx:103-105 | new text re-runs the options effect; the same text changes nothing |
| `GeocoderState.GeocoderField.OnChange` | src/components/GeocoderField.tsx:99-102 | a pick sets the value, prepends it to the options and reports its coordinates. A changed value re-runs the options effect, which with empty text leaves the picked place as the only option |
| `GeocoderState.GeocoderField.Deliver` | src/components/GeocoderField.tsx:67-81 | each issued search is answered at most once. A callback of the latest run sets the options to the merge of the current value and the results; a callback of a superseded run changes nothing |
| `GeocoderState.MostRecentSearchWins` | src/components/GeocoderField.tsx:83-86 | after typing "a" then "ab", the answer to "ab" stays the option list even when the answer to "a" arrives after it |
| `GeocoderState.PickThenAnswer` | src/components/GeocoderField.tsx:99-102 | a place is picked while the search for "market" is still unanswered, and the text is then reset to the place's label. The late answers to "market" and to the pick's own search are dropped, and the answer to the label's search lists the picked place first |

## Left out

- JSX rendering, the MUI widgets, the loading overlay's markup, and the
  deck.gl layer styling (icons, colours, widths, elevation). These are UI
  and foreign libraries. A layer keeps only its id, its data and, for a
  marker, its name and position.
- The MapLibre map widget and the map style URL.
- `fetch`, `.json()` parsing, the backend and geocoder URLs, and the
  environment variables. A query or search is returned as a value. Its
  answer or failure is passed back in as a method argument. A response
  body that is not an array is modelled as an absent answer.
- The geocoder's `throttle` and its 200 ms timing. A search may simply
  never be answered. When throttling keeps only the last call in a
  window, the earlier calls are never answered, which the model allows.
- The initial camera constants. The constructor of `App` takes the
  initial camera as a parameter. The camera keeps only longitude,
  latitude and zoom. Bounds, pitch and bearing from a user's camera move
  are not modelled.
- `parseInt` on the menu value. `App.Select` receives the index as a
  number.
- `App.Select` requires the index to be one of the current routes' indices,
  because the menu offers no other value.
- `src/components/Geocoder.tsx` is not part of this model. It only relays
  each field's coordinate to the route screen.
- React's re-render rules are simplified. `App.SetEndpoints` stands for
  every run of the route screen's effect; it has no equality guard,
  because each picked place brings a fresh coordinate array and `Object.is`
  compares by reference. In `GeocoderField`, the options effect re-runs
  exactly when the text or the selected place changes by value. The code
  compares the place by reference. The coordinate-report effect also
  depends on `props`. `GeocoderField.OnChange` therefore reports the
  coordinate on every pick, rather than on every render.
- The autocomplete widget resets the text to the picked option's label in
  the same event as the pick. The model treats that reset as a separate
  `GeocoderField.OnInputChange` that follows `OnChange`, as the
  `PickThenAnswer` scenario does.
- What the autocomplete widget displays is not modelled. The field passes
  `filterSelectedOptions`, so the widget's popup hides the option equal to
  the selected place. The model's `options` is the list the field hands to
  the widget, not the list the popup shows.
- The effect cleanup on unmount is not modelled.
- Geocoder properties that are absent in the response are not modelled.
  The code would copy them as `undefined`. Every place field is a string
  here.
