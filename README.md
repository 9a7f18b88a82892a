# Maps_directions route pipeline, modelled in Dafny

The Android app draws a driving route between the user's position and a
long-pressed point. `DestinationHelper` does the route work: it builds the
directions request URL (`getDirectionsUrl`), downloads the response
(`downloadRout`), parses it (`parseResult`) into one list of
string-to-string dictionaries per route, and flattens those into the polyline
and distance label that the map screen shows (`getPolyline`, returning a
`MapViewResult`). `getRout` chains these steps and yields `null` when any of
them does.

This project models the three steps that hold logic of their own:

- `wrappers.dfy` (`Wrappers`): `Option`, for Kotlin's nullable types.
- `map_types.dfy` (`MapTypes`): coordinates, dictionary entries, the parsed
  routes and `MapViewResult`.
- `path_flattener.dfy` (`PathFlattener`): `getPolyline` as a method with
  nested loops (`GetPolyline`), proved equal to the functional description
  `Flatten`. Lemmas show which points survive (only the last list's, in
  order, exactly the entries with both `lat` and `lng`) and which label
  wins (the last non-empty `distance` over all lists, never reset, never
  summed, `""` if there is none).
- `url_builder.dfy` (`UrlBuilder`): `getDirectionsUrl` (`DirectionsUrl`)
  and a parser `ParseUrl` that reads the request back out of a URL. The
  round trip is proved in both directions. So the URL has exactly the
  source's layout, including the `?&key=` join. It determines origin,
  destination and key whenever the latitude renderings hold no `,` and the
  longitude renderings no `&`, which renderings of `Double` values never do.
- `route_service.dfy` (`RouteService`): `getRout` (`GetRout`). The download
  and the parser are function parameters. There is a route exactly when both
  produce a value, and it is then the flattening of the parsed routes.

Coordinates are kept as their decimal renderings (`LatLng(lat, lng)` of
strings). The model moves them around and never computes with them.

Three behaviours of the code that may look unintended are kept as written:
- the URL joins the key with `?&key=`, not `?key=`;
- points come from the `lat`/`lng` entries of the last inner list only;
- the distance label is the last non-empty one across all lists, not only
  the last list's.

## Model

| member | source | states |
|---|---|---|
| `PathFlattener.GetPolyline` | app/src/main/java/com/kirill/maps_directions/DestinationHelper.kt:66-95 | The nested loops (buffer re-created per outer list, points appended, label overwritten by non-empty distances) produce exactly `Flatten(routes)`: no polyline and `""` for no routes, otherwise the last list's points and the last non-empty distance over all entries. The result is never null. |
| `PathFlattener.PointsMember` | app/src/main/java/com/kirill/maps_directions/DestinationHelper.kt:74-83 | A point is in a list's points if and only if some entry of the list has both `lat` and `lng` and carries that position. |
| `PathFlattener.PointsAppend` | app/src/main/java/com/kirill/maps_directions/DestinationHelper.kt:74-82 | The points of `a + b` are the points of `a` followed by those of `b`, so entries' order is kept. |
| `PathFlattener.PointsCount` | app/src/main/java/com/kirill/maps_directions/DestinationHelper.kt:74-83 | A list yields at most one point per entry. It yields strictly fewer when some entry lacks a coordinate: that entry is skipped and the walk goes on. |
| `PathFlattener.PointsAllPositioned` | app/src/main/java/com/kirill/maps_directions/DestinationHelper.kt:76-82 | When every entry has both coordinates, the points are the entries' positions one for one, in order. |
| `PathFlattener.LabelLastNonEmpty` | app/src/main/java/com/kirill/maps_directions/DestinationHelper.kt:84-87 | The label is the `distance` of the last entry whose distance is present and non-empty, whether or not that entry had coordinates. |
| `PathFlattener.LabelUnset` | app/src/main/java/com/kirill/maps_directions/DestinationHelper.kt:69-87 | With no present, non-empty distance, the label keeps its starting value (`""` in `getPolyline`). |
| `PathFlattener.LabelOrigin` | app/src/main/java/com/kirill/maps_directions/DestinationHelper.kt:84-87 | The label is the starting one or one entry's distance taken whole: values are assigned, never combined. |
| `PathFlattener.LabelConcat` | app/src/main/java/com/kirill/maps_directions/DestinationHelper.kt:69-88 | Walking `a` then `b` equals walking `b` from the label `a` left: the label is carried along and never reset. |
| `PathFlattener.FlattenNoRoutes` | app/src/main/java/com/kirill/maps_directions/DestinationHelper.kt:67-69 | With no routes the result has no polyline and the distance `""`. |
| `PathFlattener.FlattenAppend` | app/src/main/java/com/kirill/maps_directions/DestinationHelper.kt:70-89 | Appending an inner list replaces the polyline by that list's points, whatever came before. The label continues from the earlier lists' label. |
| `PathFlattener.DistanceNotReset` | app/src/main/java/com/kirill/maps_directions/DestinationHelper.kt:69-87 | A last list without distances leaves the label the earlier lists produced. |
| `PathFlattener.FlattenNoDistance` | app/src/main/java/com/kirill/maps_directions/DestinationHelper.kt:69-94 | If no entry of any list has a non-empty distance, the result's distance is `""`. |
| `PathFlattener.FlattenPointsFromLastList` | app/src/main/java/com/kirill/maps_directions/DestinationHelper.kt:70-94 | For a non-empty route list there is a polyline. It has at most as many points as the last list has entries, and a point is in it if and only if an entry of the last list with both coordinates carries it. |
| `UrlBuilder.DirectionsUrl` | app/src/main/java/com/kirill/maps_directions/DestinationHelper.kt:98-112 | `getDirectionsUrl` is total and never null. Every URL starts with the service's base, `directions/json?`, and ends with the API key. The parameters come in a fixed order, joined by `?` and then `?&key=` (laid out in full by `UrlLayout`). |
| `UrlBuilder.UrlLayout` | app/src/main/java/com/kirill/maps_directions/DestinationHelper.kt:98-112 | The URL is exactly the base, `json?units=imperial&origin=<lat>,<lng>&destination=<lat>,<lng>&sensor=false&mode=driving`, then `?&key=`, then the key. The order is fixed and every input gives one. |
| `UrlBuilder.UrlEnds` | app/src/main/java/com/kirill/maps_directions/DestinationHelper.kt:111-112 | Every URL starts with the base and the units parameter. It ends with `sensor=false&mode=driving?&key=` followed by the API key. |
| `UrlBuilder.ParseBuiltUrl` | app/src/main/java/com/kirill/maps_directions/DestinationHelper.kt:98-112 | Reading a built URL back gives the origin, destination and key it was built from. This holds for coordinates whose renderings hold no `,` (latitude) or `&` (longitude), which decimal renderings never do. |
| `UrlBuilder.ParsedUrlIsBuilt` | app/src/main/java/com/kirill/maps_directions/DestinationHelper.kt:98-112 | Every URL the reader accepts is exactly the URL built from what it read. |
| `UrlBuilder.UrlInjective` | app/src/main/java/com/kirill/maps_directions/DestinationHelper.kt:98-112 | Two different requests never get the same URL. |
| `RouteService.GetRout` | app/src/main/java/com/kirill/maps_directions/DestinationHelper.kt:20-51 | There is a result if and only if the download of the built URL and the parse of its body both return a value. The flattener then runs and its output is returned. A missing download or parse gives no result. |

## Left out

- Network download (`downloadRout`, `downloadUrl`, DestinationHelper.kt:41-51, 115-140): this is HTTP I/O, so it is the `fetch` parameter of `GetRout`. In the source, `downloadUrl` catches its own exceptions and returns `""`, so a failed connection reaches the parser as an empty body and not as `null`. A `fetch` that returns `Some("")` models this.
- JSON parsing (`parseResult`, DestinationHelper.kt:53-64): it calls `org.json` and `DirectionsJSONParser`, and the decoder is not part of this model. It is the `parse` parameter of `GetRout`. The compact polyline decoding it performs is therefore not modelled.
- `String.toDouble()` and `LatLng` construction (DestinationHelper.kt:79-81): these are floating point. The Maps `LatLng` constructor also normalises its arguments: it clamps latitude to [-90, 90] and wraps longitude into [-180, 180), so a `lat` of "95" becomes latitude 90. The model keeps coordinates as their strings and drops both the parsing and this normalisation. In the source a non-numeric `lat`/`lng` throws out of `getPolyline`; the model assumes well-formed numbers and does not model that exception.
- `Double` rendering in the URL (DestinationHelper.kt:99-101): the coordinates appear as given strings.
- `PolylineOptions` styling (width 12, red, geodesic; DestinationHelper.kt:89-92): it has no observable logic. The polyline is modelled as its points only.
- Logging (`Log.e`, `printStackTrace`) and coroutine dispatch (`suspend`, `Dispatchers.IO` in MainActivity.kt): these have no effect on results.
- MainActivity.kt (map UI, permissions, GPS dialogs) and entities/MapResponse.kt (data declarations not used by this logic) are not part of this model.
