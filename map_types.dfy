/**
 * The values that travel through the route pipeline: coordinates, the
 * per-step dictionaries the directions parser produces, and the result the
 * map screen renders (entities/MapViewResult.kt).
 */
module MapTypes {
  import opened Wrappers

  /**
   * A geographic coordinate. Latitude and longitude are kept as their
   * decimal renderings: the model never does floating-point arithmetic on
   * them, it only moves them from one place to another.
   */
  datatype LatLng = LatLng(lat: string, lng: string)

  /** One decoded path entry: a string-to-string dictionary (`HashMap<String, String>`). */
  type Entry = map<string, string>

  /** The parser's output: one list of entries per route (`List<List<HashMap<String, String>>>`). */
  type Routes = seq<seq<Entry>>

  /**
   * What the map screen draws: the polyline (absent when there was no route
   * to draw, `PolylineOptions?`) and the distance label for the menu item.
   * The polyline's styling (width, colour, geodesic flag) is not modelled,
   * only the points it holds.
   */
  datatype MapViewResult = MapViewResult(polyline: Option<seq<LatLng>>, distance: string)

  const LatKey: string := "lat"
  const LngKey: string := "lng"
  const DistanceKey: string := "distance"
}
