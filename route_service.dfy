/**
 * The route service of DestinationHelper.kt (`getRout`): build the URL,
 * download, parse, flatten; any missing intermediate result gives no route.
 *
 * The network download (`downloadRout` with `downloadUrl`) and the JSON
 * parsing (`parseResult`) are outside the model and come in as the
 * functions `fetch` and `parse`; `None` stands for their `null`.
 */
module RouteService {
  import opened Wrappers
  import opened MapTypes
  import opened PathFlattener
  import opened UrlBuilder

  /** `getRout`: a route exactly when the download and the parse both produce one. */
  method GetRout(origin: LatLng, dest: LatLng, apiKey: string,
                 fetch: string -> Option<string>, parse: string -> Option<Routes>)
    returns (r: Option<MapViewResult>)
    ensures r.Some? <==>
      fetch(DirectionsUrl(origin, dest, apiKey)).Some? &&
      parse(fetch(DirectionsUrl(origin, dest, apiKey)).value).Some?
    ensures r.Some? ==>
      r.value == Flatten(parse(fetch(DirectionsUrl(origin, dest, apiKey)).value).value)
  {
    // downloadRout: the URL is always built, then handed to the download
    var routFromServer := fetch(DirectionsUrl(origin, dest, apiKey));
    if routFromServer.Some? {
      var parsedResult := parse(routFromServer.value);
      if parsedResult.Some? {
        // getPolyline always produces a result, so its null check has no branch here
        var resultPolyline := GetPolyline(parsedResult.value);
        r := Some(resultPolyline);
      } else {
        r := None;
      }
    } else {
      r := None;
    }
  }
}
