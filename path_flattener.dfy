/**
 * The path flattener of DestinationHelper.kt (`getPolyline`): it walks the
 * parsed routes, turns every entry that carries both coordinates into a
 * point, and keeps a "last non-empty wins" distance label.
 *
 * Two behaviours of the source are kept as they are:
 *  - the point buffer and the polyline are re-created for every inner list,
 *    so only the last list's points reach the result;
 *  - the distance label is never reset between lists, so it is the last
 *    non-empty distance over all entries of all lists.
 */
module PathFlattener {
  import opened Wrappers
  import opened MapTypes

  /** An entry yields a point exactly when both `lat` and `lng` are present. */
  predicate HasPosition(e: Entry) {
    LatKey in e && LngKey in e
  }

  function PositionOf(e: Entry): LatLng
    requires HasPosition(e)
  {
    LatLng(e[LatKey], e[LngKey])
  }

  /** An entry sets the label exactly when its `distance` is neither missing nor empty. */
  predicate HasDistance(e: Entry) {
    DistanceKey in e && e[DistanceKey] != ""
  }

  /** The points one inner list contributes, in the list's order. */
  function Points(path: seq<Entry>): seq<LatLng> {
    if path == [] then []
    else
      var e := path[|path| - 1];
      if HasPosition(e) then Points(path[..|path| - 1]) + [PositionOf(e)]
      else Points(path[..|path| - 1])
  }

  /**
   * The distance of the last entry of `entries` that has a non-empty one;
   * `start` when there is none.
   */
  function LabelAfter(entries: seq<Entry>, start: string): string {
    if entries == [] then start
    else
      var e := entries[|entries| - 1];
      if HasDistance(e) then e[DistanceKey]
      else LabelAfter(entries[..|entries| - 1], start)
  }

  /** All entries of all inner lists, list after list. */
  function Concat(routes: Routes): seq<Entry> {
    if routes == [] then []
    else Concat(routes[..|routes| - 1]) + routes[|routes| - 1]
  }

  /** What `getPolyline` returns for `routes`. */
  function Flatten(routes: Routes): MapViewResult {
    MapViewResult(
      if routes == [] then None else Some(Points(routes[|routes| - 1])),
      LabelAfter(Concat(routes), ""))
  }

  /**
   * `getPolyline`. The source's result type is nullable but a value is
   * always returned, so the result here is not optional.
   */
  method GetPolyline(routes: Routes) returns (r: MapViewResult)
    ensures r == Flatten(routes)
  {
    var points: seq<LatLng> := [];
    var lineOptions: Option<seq<LatLng>> := None;
    var distance := "";
    for i := 0 to |routes|
      invariant lineOptions == if i == 0 then None else Some(Points(routes[i - 1]))
      invariant distance == LabelAfter(Concat(routes[..i]), "")
    {
      // a fresh buffer and a fresh polyline for every inner list
      points := [];
      lineOptions := Some([]);
      var path := routes[i];
      ghost var before := Concat(routes[..i]);
      assert before + path[..0] == before;
      for j := 0 to |path|
        invariant points == Points(path[..j])
        invariant distance == LabelAfter(before + path[..j], "")
      {
        var point := path[j];
        assert path[..j + 1][..j] == path[..j];
        assert (before + path[..j + 1])[..|before| + j] == before + path[..j];
        if LatKey in point && LngKey in point {
          points := points + [LatLng(point[LatKey], point[LngKey])];
        }
        if DistanceKey in point && point[DistanceKey] != "" {
          distance := point[DistanceKey];
        }
      }
      assert path[..|path|] == path;
      assert routes[..i + 1][..i] == routes[..i];
      lineOptions := Some(lineOptions.value + points);
      assert lineOptions.value == Points(routes[i]);
    }
    assert routes[..|routes|] == routes;
    r := MapViewResult(lineOptions, distance);
  }

  /** A point is in a list's result exactly when some entry of the list carries it. */
  lemma {:induction false} PointsMember(path: seq<Entry>, p: LatLng)
    ensures p in Points(path) <==>
      exists j :: 0 <= j < |path| && HasPosition(path[j]) && PositionOf(path[j]) == p
  {
    if path != [] {
      var init := path[..|path| - 1];
      PointsMember(init, p);
      if p in Points(path) && p !in Points(init) {
        assert HasPosition(path[|path| - 1]) && PositionOf(path[|path| - 1]) == p;
      }
      if exists j :: 0 <= j < |path| && HasPosition(path[j]) && PositionOf(path[j]) == p {
        var j :| 0 <= j < |path| && HasPosition(path[j]) && PositionOf(path[j]) == p;
        if j < |path| - 1 {
          assert init[j] == path[j];
        }
      }
    }
  }

  /** Points keep the order of their entries: the result distributes over concatenation. */
  lemma {:induction false} PointsAppend(a: seq<Entry>, b: seq<Entry>)
    ensures Points(a + b) == Points(a) + Points(b)
  {
    if b == [] {
      assert a + b == a;
    } else {
      var b' := b[..|b| - 1];
      assert (a + b)[..|a + b| - 1] == a + b';
      PointsAppend(a, b');
    }
  }

  /**
   * A list yields at most one point per entry, and strictly fewer when an
   * entry lacks a coordinate (it is skipped, the walk goes on).
   */
  lemma {:induction false} PointsCount(path: seq<Entry>)
    ensures |Points(path)| <= |path|
    ensures (exists j :: 0 <= j < |path| && !HasPosition(path[j])) ==> |Points(path)| < |path|
  {
    if path != [] {
      var init := path[..|path| - 1];
      PointsCount(init);
      if exists j :: 0 <= j < |path| && !HasPosition(path[j]) {
        var j :| 0 <= j < |path| && !HasPosition(path[j]);
        if j < |path| - 1 {
          assert init[j] == path[j];
        }
      }
    }
  }

  /** When every entry carries both coordinates, the points are the entries' positions one for one. */
  lemma {:induction false} PointsAllPositioned(path: seq<Entry>)
    requires forall j :: 0 <= j < |path| ==> HasPosition(path[j])
    ensures |Points(path)| == |path|
    ensures forall j :: 0 <= j < |path| ==> Points(path)[j] == PositionOf(path[j])
  {
    if path != [] {
      var init := path[..|path| - 1];
      assert forall j :: 0 <= j < |init| ==> init[j] == path[j];
      PointsAllPositioned(init);
    }
  }

  /** The label is the distance of the last entry whose distance is non-empty. */
  lemma {:induction false} LabelLastNonEmpty(entries: seq<Entry>, start: string, k: nat)
    requires k < |entries| && HasDistance(entries[k])
    requires forall m :: k < m < |entries| ==> !HasDistance(entries[m])
    ensures LabelAfter(entries, start) == entries[k][DistanceKey]
  {
    if k < |entries| - 1 {
      var init := entries[..|entries| - 1];
      assert !HasDistance(entries[|entries| - 1]);
      assert forall m :: k < m < |init| ==> init[m] == entries[m];
      LabelLastNonEmpty(init, start, k);
    }
  }

  /** With no non-empty distance, the label keeps its starting value. */
  lemma {:induction false} LabelUnset(entries: seq<Entry>, start: string)
    requires forall m :: 0 <= m < |entries| ==> !HasDistance(entries[m])
    ensures LabelAfter(entries, start) == start
  {
    if entries != [] {
      var init := entries[..|entries| - 1];
      assert forall m :: 0 <= m < |init| ==> init[m] == entries[m];
      LabelUnset(init, start);
    }
  }

  /**
   * Conversely, the label is either the starting one or some entry's
   * distance, taken whole: values are assigned, never combined.
   */
  lemma {:induction false} LabelOrigin(entries: seq<Entry>, start: string)
    ensures LabelAfter(entries, start) == start ||
      exists k :: 0 <= k < |entries| && HasDistance(entries[k]) &&
        LabelAfter(entries, start) == entries[k][DistanceKey]
  {
    if entries != [] {
      var n := |entries| - 1;
      if !HasDistance(entries[n]) {
        var init := entries[..n];
        LabelOrigin(init, start);
        if LabelAfter(entries, start) != start {
          var k :| 0 <= k < |init| && HasDistance(init[k]) &&
            LabelAfter(init, start) == init[k][DistanceKey];
          assert init[k] == entries[k];
        }
      }
    }
  }

  /** Walking `a` then `b` is walking `b` from the label `a` left. */
  lemma {:induction false} LabelConcat(a: seq<Entry>, b: seq<Entry>, start: string)
    ensures LabelAfter(a + b, start) == LabelAfter(b, LabelAfter(a, start))
  {
    if b == [] {
      assert a + b == a;
    } else {
      var b' := b[..|b| - 1];
      assert (a + b)[..|a + b| - 1] == a + b';
      assert (a + b)[|a + b| - 1] == b[|b| - 1];
      LabelConcat(a, b', start);
    }
  }

  /** With no routes there is no polyline and the label is empty. */
  lemma FlattenNoRoutes()
    ensures Flatten([]) == MapViewResult(None, "")
  {
  }

  /**
   * Appending a list replaces the polyline by that list's points, whatever
   * came before, while the label carries over from the earlier lists.
   */
  lemma FlattenAppend(routes: Routes, path: seq<Entry>)
    ensures Flatten(routes + [path]).polyline == Some(Points(path))
    ensures Flatten(routes + [path]).distance == LabelAfter(path, Flatten(routes).distance)
  {
    assert (routes + [path])[..|routes|] == routes;
    LabelConcat(Concat(routes), path, "");
  }

  /** The label is not reset per list: a last list without distances keeps the earlier label. */
  lemma DistanceNotReset(routes: Routes, path: seq<Entry>)
    requires forall m :: 0 <= m < |path| ==> !HasDistance(path[m])
    ensures Flatten(routes + [path]).distance == Flatten(routes).distance
  {
    FlattenAppend(routes, path);
    LabelUnset(path, Flatten(routes).distance);
  }

  /** The label is empty when no entry of any list has a non-empty distance. */
  lemma {:induction false} FlattenNoDistance(routes: Routes)
    requires forall i, m :: 0 <= i < |routes| && 0 <= m < |routes[i]| ==> !HasDistance(routes[i][m])
    ensures Flatten(routes).distance == ""
  {
    if routes != [] {
      var init := routes[..|routes| - 1];
      assert forall i :: 0 <= i < |init| ==> init[i] == routes[i];
      FlattenNoDistance(init);
      assert routes == init + [routes[|routes| - 1]];
      DistanceNotReset(init, routes[|routes| - 1]);
    }
  }

  /**
   * Every point of the result comes from an entry of the last list, and the
   * result has at most as many points as that list has entries.
   */
  lemma FlattenPointsFromLastList(routes: Routes, path: seq<Entry>, p: LatLng)
    ensures Flatten(routes + [path]).polyline.Some?
    ensures |Flatten(routes + [path]).polyline.value| <= |path|
    ensures p in Flatten(routes + [path]).polyline.value <==>
      exists j :: 0 <= j < |path| && HasPosition(path[j]) && PositionOf(path[j]) == p
  {
    FlattenAppend(routes, path);
    PointsCount(path);
    PointsMember(path, p);
  }
}
