/** The pure parts of the place-search field: turning a geocoder response
    into places, building the option list, labelling options, and the
    coordinate the field reports to its parent. */
module GeocoderOptions {
  import opened Common

  /** A place the user can pick. */
  datatype Place = Place(
    id: int,
    coordinates: Coord,
    city: string,
    locality: string,
    street: string,
    district: string,
    name: string)

  /** The `properties` object of one geocoder feature. */
  datatype PhotonProperties = PhotonProperties(
    osmId: int, city: string, locality: string, street: string, district: string, name: string)

  /** One feature of the geocoder's feature collection: its properties and
      the coordinates of its point geometry. */
  datatype PhotonFeature = PhotonFeature(properties: PhotonProperties, coordinates: Coord)

  /** One feature as a place, field for field: the feature can be read
      back from the place. */
  function ToPlace(f: PhotonFeature): (p: Place)
    ensures ToFeature(p) == f
    ensures p.id == f.properties.osmId && p.coordinates == f.coordinates
  {
    Place(f.properties.osmId, f.coordinates, f.properties.city, f.properties.locality,
          f.properties.street, f.properties.district, f.properties.name)
  }

  /** Reads a place back as the feature it was projected from. */
  function ToFeature(p: Place): PhotonFeature
  {
    PhotonFeature(PhotonProperties(p.id, p.city, p.locality, p.street, p.district, p.name), p.coordinates)
  }

  /** The text fields of a place are those of the feature's properties, the
      name the option label shows among them. */
  lemma ToPlaceKeepsEveryField(f: PhotonFeature)
    ensures ToPlace(f).name == f.properties.name && ToPlace(f).street == f.properties.street
    ensures ToPlace(f).city == f.properties.city && ToPlace(f).locality == f.properties.locality
    ensures ToPlace(f).district == f.properties.district
  {
  }

  /** `collection.features.map(feature => place)`. */
  function ProjectFeatures(features: seq<PhotonFeature>): (places: seq<Place>)
    ensures |places| == |features|
    ensures forall i :: 0 <= i < |features| ==> places[i] == ToPlace(features[i])
  {
    if features == [] then [] else [ToPlace(features[0])] + ProjectFeatures(features[1..])
  }

  /** The projection keeps order across a split of the response. */
  lemma ProjectFeaturesAppend(a: seq<PhotonFeature>, b: seq<PhotonFeature>)
    ensures ProjectFeatures(a + b) == ProjectFeatures(a) + ProjectFeatures(b)
  {
  }

  /** The option list built for a selected value and a batch of results:
      the selected value first (when there is one), then every result in
      the order received. With no results (the input is empty, or the
      callback got none) only the selected value remains. */
  function MergeOptions(value: Option<Place>, results: Option<seq<Place>>): (options: seq<Place>)
    ensures var head := if value.Some? then 1 else 0;
      var res := if results.Some? then results.value else [];
      && |options| == head + |res|
      && (value.Some? ==> options[0] == value.value)
      && (forall i :: 0 <= i < |res| ==> options[head + i] == res[i])
  {
    (if value.Some? then [value.value] else []) + (if results.Some? then results.value else [])
  }

  /** The options while the input text is empty: just the selected value. */
  function EmptyInputOptions(value: Option<Place>): (options: seq<Place>)
    ensures value.None? ==> options == []
    ensures value.Some? ==> options == [value.value]
  {
    MergeOptions(value, None)
  }

  /** The options after the user picks `newValue`: a picked place goes in
      front of the current options; picking nothing keeps them. */
  function OptionsAfterPick(newValue: Option<Place>, options: seq<Place>): (r: seq<Place>)
    ensures newValue.None? ==> r == options
    ensures newValue.Some? ==> |r| == |options| + 1 && r[0] == newValue.value && r[1..] == options
  {
    if newValue.Some? then [newValue.value] + options else options
  }

  /** What the autocomplete may be asked to label: a place, or the raw text
      the user typed. */
  datatype AutocompleteOption = PlaceOption(place: Place) | TextOption(text: string)

  /** `getOptionLabel`: a place shows its name, typed text shows itself. */
  function OptionLabel(option: AutocompleteOption): (caption: string)
    ensures option.PlaceOption? ==> caption == option.place.name
    ensures option.TextOption? ==> caption == option.text
  {
    match option
    case PlaceOption(p) => p.name
    case TextOption(s) => s
  }

  /** `filterOptions`: the identity, so the field adds no text filtering of
      its own to the option list it hands the autocomplete. */
  function FilterOptions(options: seq<Place>): (filtered: seq<Place>)
    ensures |filtered| == |options|
    ensures forall i :: 0 <= i < |options| ==> filtered[i] == options[i]
  {
    options
  }

  /** `value?.coordinates`: what the field tells its parent. */
  function ReportedCoordinate(value: Option<Place>): (c: Option<Coord>)
    ensures c.Some? <==> value.Some?
    ensures value.Some? ==> c.value == value.value.coordinates
  {
    if value.Some? then Some(value.value.coordinates) else None
  }
}
