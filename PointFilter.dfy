/** The loop over `all_points` that keeps the points which can be drawn and
    counts them in `points_added`. Drawing the circle itself is rendering
    and is not modelled; the checks around it and the exceptions they can
    raise are. */
module PointFilter {
  import opened Json
  import opened Sequences

  /** `air_quality_index_to_color_code`: the six air-quality levels that are
      drawn, with their fill colours. */
  const Palette: map<string, string> := map[
    "VERY_GOOD" := "green",
    "GOOD" := "lightgreen",
    "SATISFACTORY" := "orange",
    "MODERATE" := "red",
    "BAD" := "darkred",
    "VERY_BAD" := "black"
  ]

  /** What the loop body does with one point: skip it, draw it (and count
      it), or raise an exception that aborts the whole job. */
  datatype Verdict = Skip | Draw | Raise

  /** A point that is drawn: a dict whose "air_index_level" is one of the
      palette's levels and whose "location" is a dict holding both
      "latitude" and "longitude". */
  predicate Renderable(point: Json)
  {
    point.Obj? && HasKey(point.fields, "air_index_level") && HasKey(point.fields, "location")
    && var level, location := Lookup(point.fields, "air_index_level"), Lookup(point.fields, "location");
    level.Str? && level.s in Palette
    && location.Obj? && HasKey(location.fields, "latitude") && HasKey(location.fields, "longitude")
  }

  /** A location on which Python's `in` raises TypeError. */
  predicate Scalar(v: Json)
  {
    v.Null? || v.Bool? || v.Int? || v.Float?
  }

  /** A point on which the loop body raises: it is not a dict (no `.get`);
      or it has a level and a location and then the location is a scalar
      (`in` raises), or it passes the latitude/longitude test as a list or
      string, after which either the level is unhashable (the palette test
      raises) or the level is in the palette and indexing the location
      with "latitude" raises. */
  predicate Aborts(point: Json)
  {
    !point.Obj?
    || (HasKey(point.fields, "air_index_level") && HasKey(point.fields, "location")
        && var level, location := Lookup(point.fields, "air_index_level"), Lookup(point.fields, "location");
        !level.Null?
        && (Scalar(location)
            || (Contains(location, "latitude") == Some(true) && Contains(location, "longitude") == Some(true)
                && (level.Arr? || level.Obj? || (level.Str? && level.s in Palette && !location.Obj?)))))
  }

  /** The loop body for one point, in the order the handler evaluates it:
      `point.get("air_index_level") is not None`, `"location" in point`,
      `"latitude" in point["location"]`, `"longitude" in
      point["location"]`, the palette lookup, and the subscripts that build
      the circle's coordinates. */
  function Classify(point: Json): (v: Verdict)
    ensures v == Draw <==> Renderable(point)
    ensures v == Raise <==> Aborts(point)
  {
    match Get(point, "air_index_level")
    case None => Raise  // not a dict: no `.get`
    case Some(level) =>
      if level.None? || level.value.Null? then Skip
      else if !HasKey(point.fields, "location") then Skip
      else
        var location := Lookup(point.fields, "location");
        match Contains(location, "latitude")
        case None => Raise
        case Some(hasLatitude) =>
          if !hasLatitude then Skip
          else
            match Contains(location, "longitude")
            case None => Raise
            case Some(hasLongitude) =>
              if !hasLongitude then Skip
              else
                match InStringKeyedDict(level.value, Palette.Keys)
                case None => Raise  // unhashable level
                case Some(known) =>
                  if !known then Skip
                  else if Subscript(location, "latitude").None? || Subscript(location, "longitude").None? then Raise
                  else Draw
  }

  /** The number of drawable points in `points`. */
  function CountRenderable(points: seq<Json>): (n: nat)
    ensures n <= |points|
  {
    if points == [] then 0
    else CountRenderable(points[..|points| - 1]) + (if Renderable(points[|points| - 1]) then 1 else 0)
  }

  /** Every point is counted exactly when every point is drawable. */
  lemma {:induction false} CountRenderableAll(points: seq<Json>)
    ensures CountRenderable(points) == |points| <==> forall i :: 0 <= i < |points| ==> Renderable(points[i])
  {
    if points != [] {
      var before := points[..|points| - 1];
      CountRenderableAll(before);
      assert forall i :: 0 <= i < |before| ==> before[i] == points[i];
    }
  }

  /** Some point of `points` makes the loop raise. */
  predicate AnyAborts(points: seq<Json>)
  {
    exists i :: 0 <= i < |points| && Aborts(points[i])
  }

  /** The loop over `all_points`: `None` when some point raised (the
      exception leaves the loop and the job), otherwise `points_added`. */
  method AddPoints(allPoints: seq<Json>) returns (pointsAdded: Option<nat>)
    ensures pointsAdded.None? <==> AnyAborts(allPoints)
    ensures pointsAdded.Some? ==> pointsAdded.value == CountRenderable(allPoints)
  {
    var added := 0;
    var i := 0;
    while i < |allPoints|
      invariant 0 <= i <= |allPoints|
      invariant !AnyAborts(allPoints[..i])
      invariant added == CountRenderable(allPoints[..i])
    {
      assert allPoints[..i + 1][..i] == allPoints[..i];
      var verdict := Classify(allPoints[i]);
      if verdict == Raise {
        return None;
      }
      if verdict == Draw {
        added := added + 1;
      }
      i := i + 1;
    }
    assert allPoints[..i] == allPoints;
    return Some(added);
  }

  /** Counting drawable points over two runs of points. */
  lemma {:induction false} CountRenderableAppend(a: seq<Json>, b: seq<Json>)
    ensures CountRenderable(a + b) == CountRenderable(a) + CountRenderable(b)
    decreases |b|
  {
    if b != [] {
      DropLast(a, b);
      CountRenderableAppend(a, b[..|b| - 1]);
    } else {
      assert a + b == a;
    }
  }

  /** Taking the point at position `k` out of a list removes exactly its
      own contribution to the drawable count. */
  lemma CountRenderableWithout(other: seq<Json>, k: int)
    requires 0 <= k < |other|
    ensures CountRenderable(other)
            == CountRenderable(other[..k] + other[k + 1..]) + (if Renderable(other[k]) then 1 else 0)
  {
    var front, point, back := other[..k], other[k], other[k + 1..];
    assert CountRenderable(other)
           == CountRenderable(front) + CountRenderable([point]) + CountRenderable(back) by {
      SplitAt(other, k);
      CountRenderableAppend(front + [point], back);
      CountRenderableAppend(front, [point]);
    }
    assert CountRenderable([point]) == if Renderable(point) then 1 else 0 by {
      assert [point][..0] == [];
    }
    CountRenderableAppend(front, back);
  }

  /** Whether the loop raises depends only on which points `all_points`
      holds, not on their order. */
  lemma AnyAbortsPermutation(points: seq<Json>, other: seq<Json>)
    requires multiset(points) == multiset(other)
    ensures AnyAborts(points) <==> AnyAborts(other)
  {
    if AnyAborts(points) {
      var i :| 0 <= i < |points| && Aborts(points[i]);
      assert points[i] in multiset(other);
    }
    if AnyAborts(other) {
      var i :| 0 <= i < |other| && Aborts(other[i]);
      assert other[i] in multiset(points);
    }
  }

  /** `points_added` does not depend on the order of `all_points`: two
      lists holding the same points the same number of times have the same
      number of drawable points. */
  lemma {:induction false} CountRenderablePermutation(points: seq<Json>, other: seq<Json>)
    requires multiset(points) == multiset(other)
    ensures CountRenderable(points) == CountRenderable(other)
    decreases |points|
  {
    if points != [] {
      var point := points[0];
      assert point in multiset(other);
      var k :| 0 <= k < |other| && other[k] == point;
      var rest, otherRest := points[..0] + points[1..], other[..k] + other[k + 1..];
      assert multiset(rest) == multiset(otherRest) by {
        MultisetWithout(points, 0);
        MultisetWithout(other, k);
      }
      CountRenderablePermutation(rest, otherRest);
      var one := if Renderable(point) then 1 else 0;
      assert CountRenderable(points) == CountRenderable(rest) + one by {
        CountRenderableWithout(points, 0);
      }
      assert CountRenderable(other) == CountRenderable(otherRest) + one by {
        CountRenderableWithout(other, k);
      }
    }
  }
}
