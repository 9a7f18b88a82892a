/**
 * The request URL of DestinationHelper.kt (`getDirectionsUrl`), and a parser
 * that reads the request back out of such a URL. The parser is not part of
 * the application; it is the inverse against which the builder is proved:
 * the URL determines origin, destination and API key, and the builder's
 * layout is exactly the one the parser accepts.
 */
module UrlBuilder {
  import opened Wrappers
  import opened MapTypes

  const Base: string := "https://maps.googleapis.com/maps/api/directions/"
  const Output: string := "json"

  /**
   * `getDirectionsUrl`: fixed parameters in a fixed order. The key
   * parameter already begins with `&` and is joined with a second `?`, so
   * the URL ends in `?&key=` followed by the key. The coordinates appear as
   * their decimal renderings.
   */
  function DirectionsUrl(origin: LatLng, dest: LatLng, apiKey: string): (r: string)
    ensures Base + Output + "?" <= r
    ensures |apiKey| < |r| && r[|r| - |apiKey|..] == apiKey
  {
    var strOrigin := "origin=" + origin.lat + "," + origin.lng;
    var strDest := "destination=" + dest.lat + "," + dest.lng;
    var sensor := "sensor=false";
    var mode := "mode=driving";
    var units := "units=imperial";
    var parameters := units + "&" + strOrigin + "&" + strDest + "&" + sensor + "&" + mode;
    var key := "&key=" + apiKey;
    Base + Output + "?" + parameters + "?" + key
  }

  /** What a directions URL carries. */
  datatype Request = Request(origin: LatLng, dest: LatLng, apiKey: string)

  /**
   * A coordinate whose renderings are free of the separators around them.
   * Decimal renderings of numbers (digits, sign, point, exponent) always are.
   */
  predicate Plain(c: LatLng) {
    ',' !in c.lat && '&' !in c.lng
  }

  /** The fixed text before the origin, between the coordinates' pairs, and before the key. */
  const OriginPrefix: string := "https://maps.googleapis.com/maps/api/directions/json?units=imperial&origin="
  const DestPrefix: string := "destination="
  const KeyPrefix: string := "sensor=false&mode=driving?&key="

  /** What follows `p` in `s`, when `s` starts with `p`. */
  function StripPrefix(s: string, p: string): Option<string> {
    if p <= s then Some(s[|p|..]) else None
  }

  /** Splits `s` at its first `c` into what precedes and what follows it. */
  function SplitAt(s: string, c: char): Option<(string, string)> {
    if s == [] then None
    else if s[0] == c then Some(([], s[1..]))
    else
      var tail :- SplitAt(s[1..], c);
      Some(([s[0]] + tail.0, tail.1))
  }

  /** Reads origin, destination and key back out of a URL laid out as `DirectionsUrl` lays it out. */
  function ParseUrl(url: string): Option<Request> {
    var afterOrigin :- StripPrefix(url, OriginPrefix);
    var oLat :- SplitAt(afterOrigin, ',');
    var oLng :- SplitAt(oLat.1, '&');
    var afterDest :- StripPrefix(oLng.1, DestPrefix);
    var dLat :- SplitAt(afterDest, ',');
    var dLng :- SplitAt(dLat.1, '&');
    var key :- StripPrefix(dLng.1, KeyPrefix);
    Some(Request(LatLng(oLat.0, oLng.0), LatLng(dLat.0, dLng.0), key))
  }

  /** Stripping a prefix gives back exactly what followed it. */
  lemma StripPrefixSound(s: string, p: string)
    ensures StripPrefix(s, p).Some? ==> s == p + StripPrefix(s, p).value
    ensures StripPrefix(p + s, p) == Some(s)
  {
    assert (p + s)[..|p|] == p;
    assert (p + s)[|p|..] == s;
  }

  /** Splitting finds the first separator. */
  lemma {:induction false} SplitAtFirst(a: string, c: char, b: string)
    requires c !in a
    ensures SplitAt(a + [c] + b, c) == Some((a, b))
  {
    if a != [] {
      assert (a + [c] + b)[1..] == a[1..] + [c] + b;
      SplitAtFirst(a[1..], c, b);
      assert [a[0]] + a[1..] == a;
    }
  }

  /** A split puts the pieces back together around the first separator. */
  lemma {:induction false} SplitAtSound(s: string, c: char)
    ensures SplitAt(s, c).Some? ==>
      c !in SplitAt(s, c).value.0 && s == SplitAt(s, c).value.0 + [c] + SplitAt(s, c).value.1
  {
    if s != [] && s[0] != c {
      SplitAtSound(s[1..], c);
    }
  }

  // The literal facts below are kept in lemmas of their own: the solver
  // handles each quickly alone, but not all of them in one context.

  lemma UrlPieces(origin: LatLng, dest: LatLng, apiKey: string)
    ensures DirectionsUrl(origin, dest, apiKey) ==
      (Base + Output + "?" + "units=imperial" + "&" + "origin=") + origin.lat + "," + origin.lng
      + "&" + "destination=" + dest.lat + "," + dest.lng
      + "&" + ("sensor=false" + "&" + "mode=driving" + "?" + "&key=") + apiKey
  {
  }

  lemma FixedPieces()
    ensures Base + Output + "?" + "units=imperial" + "&" + "origin=" == OriginPrefix
    ensures "sensor=false" + "&" + "mode=driving" + "?" + "&key=" == KeyPrefix
  {
  }

  lemma JoinedPieces()
    ensures "&" + DestPrefix == "&destination="
    ensures "&" + KeyPrefix == "&sensor=false&mode=driving?&key="
  {
  }

  /** Regrouping a concatenation of the URL's shape, for any pieces. */
  lemma Nest(p1: string, a: string, b: string, p2: string, c: string, d: string, p3: string, k: string)
    ensures p1 + a + "," + b + "&" + p2 + c + "," + d + "&" + p3 + k
      == p1 + (a + [','] + (b + ['&'] + (p2 + (c + [','] + (d + ['&'] + (p3 + k))))))
    ensures p1 + a + "," + b + "&" + p2 + c + "," + d + "&" + p3 + k
      == (p1 + a + "," + b + "&" + p2 + c + "," + d + "&") + (p3 + k)
  {
  }

  lemma Flat(p1: string, a: string, b: string, p2: string, c: string, d: string, p3: string, k: string)
    ensures p1 + a + "," + b + "&" + p2 + c + "," + d + "&" + p3 + k
      == p1 + a + "," + b + ("&" + p2) + c + "," + d + ("&" + p3) + k
  {
  }

  /** The URL as the fixed pieces the parser looks for, with the request's values between them. */
  lemma UrlStructure(origin: LatLng, dest: LatLng, apiKey: string)
    ensures DirectionsUrl(origin, dest, apiKey) ==
      OriginPrefix + origin.lat + "," + origin.lng + "&" + DestPrefix + dest.lat + "," + dest.lng
      + "&" + KeyPrefix + apiKey
  {
    UrlPieces(origin, dest, apiKey);
    FixedPieces();
  }

  /** The URL written out as one literal: base, parameters in order, the `?&key=` join, the key. */
  lemma UrlLayout(origin: LatLng, dest: LatLng, apiKey: string)
    ensures DirectionsUrl(origin, dest, apiKey) ==
      "https://maps.googleapis.com/maps/api/directions/json?units=imperial&origin="
      + origin.lat + "," + origin.lng + "&destination=" + dest.lat + "," + dest.lng
      + "&sensor=false&mode=driving?&key=" + apiKey
  {
    UrlStructure(origin, dest, apiKey);
    JoinedPieces();
    Flat(OriginPrefix, origin.lat, origin.lng, DestPrefix, dest.lat, dest.lng, KeyPrefix, apiKey);
  }

  /** The URL always starts with the service's base and the units, and always ends with the key parameter. */
  lemma UrlEnds(origin: LatLng, dest: LatLng, apiKey: string)
    ensures OriginPrefix <= DirectionsUrl(origin, dest, apiKey)
    ensures var u := DirectionsUrl(origin, dest, apiKey);
      |KeyPrefix| + |apiKey| <= |u| && u[|u| - |KeyPrefix| - |apiKey|..] == KeyPrefix + apiKey
  {
    UrlStructure(origin, dest, apiKey);
    Nest(OriginPrefix, origin.lat, origin.lng, DestPrefix, dest.lat, dest.lng, KeyPrefix, apiKey);
    var u := DirectionsUrl(origin, dest, apiKey);
    StripPrefixSound(u[|OriginPrefix|..], OriginPrefix);
    var front := OriginPrefix + origin.lat + "," + origin.lng + "&" + DestPrefix + dest.lat + "," + dest.lng + "&";
    assert u == front + (KeyPrefix + apiKey);
  }

  /** Parsing a built URL gives back what it was built from. */
  lemma ParseBuiltUrl(origin: LatLng, dest: LatLng, apiKey: string)
    requires Plain(origin) && Plain(dest)
    ensures ParseUrl(DirectionsUrl(origin, dest, apiKey)) == Some(Request(origin, dest, apiKey))
  {
    var u := DirectionsUrl(origin, dest, apiKey);
    UrlStructure(origin, dest, apiKey);
    Nest(OriginPrefix, origin.lat, origin.lng, DestPrefix, dest.lat, dest.lng, KeyPrefix, apiKey);
    var r6 := KeyPrefix + apiKey;
    var r5 := dest.lng + ['&'] + r6;
    var r4 := dest.lat + [','] + r5;
    var r3 := DestPrefix + r4;
    var r2 := origin.lng + ['&'] + r3;
    var r1 := origin.lat + [','] + r2;
    assert u == OriginPrefix + r1;
    StripPrefixSound(r1, OriginPrefix);
    SplitAtFirst(origin.lat, ',', r2);
    SplitAtFirst(origin.lng, '&', r3);
    StripPrefixSound(r4, DestPrefix);
    SplitAtFirst(dest.lat, ',', r5);
    SplitAtFirst(dest.lng, '&', r6);
    StripPrefixSound(apiKey, KeyPrefix);
  }

  /** A URL the parser accepts is exactly the one built from what it parsed to. */
  lemma ParsedUrlIsBuilt(url: string)
    requires ParseUrl(url).Some?
    ensures Plain(ParseUrl(url).value.origin) && Plain(ParseUrl(url).value.dest)
    ensures var q := ParseUrl(url).value; DirectionsUrl(q.origin, q.dest, q.apiKey) == url
  {
    StripPrefixSound(url, OriginPrefix);
    var r1 := StripPrefix(url, OriginPrefix).value;
    SplitAtSound(r1, ',');
    var oLat := SplitAt(r1, ',').value;
    SplitAtSound(oLat.1, '&');
    var oLng := SplitAt(oLat.1, '&').value;
    StripPrefixSound(oLng.1, DestPrefix);
    var r4 := StripPrefix(oLng.1, DestPrefix).value;
    SplitAtSound(r4, ',');
    var dLat := SplitAt(r4, ',').value;
    SplitAtSound(dLat.1, '&');
    var dLng := SplitAt(dLat.1, '&').value;
    StripPrefixSound(dLng.1, KeyPrefix);
    var key := StripPrefix(dLng.1, KeyPrefix).value;
    var q := ParseUrl(url).value;
    assert q == Request(LatLng(oLat.0, oLng.0), LatLng(dLat.0, dLng.0), key);
    assert url == OriginPrefix + (oLat.0 + [','] + (oLng.0 + ['&'] + (DestPrefix + (dLat.0 + [','] + (dLng.0 + ['&'] + (KeyPrefix + key))))));
    Nest(OriginPrefix, oLat.0, oLng.0, DestPrefix, dLat.0, dLng.0, KeyPrefix, key);
    UrlStructure(q.origin, q.dest, q.apiKey);
  }

  /** Different requests never share a URL. */
  lemma UrlInjective(a: Request, b: Request)
    requires Plain(a.origin) && Plain(a.dest) && Plain(b.origin) && Plain(b.dest)
    requires DirectionsUrl(a.origin, a.dest, a.apiKey) == DirectionsUrl(b.origin, b.dest, b.apiKey)
    ensures a == b
  {
    ParseBuiltUrl(a.origin, a.dest, a.apiKey);
    ParseBuiltUrl(b.origin, b.dest, b.apiKey);
  }
}
