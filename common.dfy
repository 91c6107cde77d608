/** Values shared by the route screen and the place-search fields. */
module Common {

  /** A value that may be absent (`undefined` / `null` in the front end). */
  datatype Option<+T> = None | Some(value: T)

  /** Degrees of longitude or latitude. The front end only copies and reorders
      them, never computes with them. */
  type Degrees = real

  /** A point as the map and the geocoder hand it around: the two-element
      array `[longitude, latitude]`, so index 0 is `lon` and index 1 is `lat`. */
  datatype Coord = Coord(lon: Degrees, lat: Degrees)
}
