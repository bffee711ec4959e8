/** The query-argument builders of MyPlaceAPIHelper (the methods whose names end
    in `Arg`): MongoDB-style documents for a `$geoIntersects` polygon, a `$near`
    point and the `$and` / `$or` combinators. Each builder has a decoder beside
    it, and a round-trip lemma says the decoder reads back what was built. */
module QueryArgs {
  import opened Wrappers
  import opened Json

  /** A bounding box as the layers derive it from the map bounds. */
  datatype BBox = BBox(xmin: real, ymin: real, xmax: real, ymax: real)

  /** What a `$near` argument says. */
  datatype NearQuery = NearQuery(x: real, y: real, minDistance: real, maxDistance: real)

  type Position = (real, real)

  const DefaultMinDistance: real := 0.0
  const DefaultMaxDistance: real := 500.0

  // ---------------------------------------------------------------------------
  // $geoIntersects

  function PositionValue(p: Position): Value {
    JArray([JNumber(p.0), JNumber(p.1)])
  }

  function PositionValues(ps: seq<Position>): (vs: seq<Value>)
    ensures |vs| == |ps|
  {
    if |ps| == 0 then [] else [PositionValue(ps[0])] + PositionValues(ps[1..])
  }

  /** The ring of the box, in the order the source pushes its points. */
  function RectangleRing(xmin: real, ymin: real, xmax: real, ymax: real): seq<Position> {
    [(xmin, ymin), (xmax, ymin), (xmax, ymax), (xmin, ymax), (xmin, ymin)]
  }

  /** `getGeoIntersectsSpatialArg(xmin, ymin, xmax, ymax)`. */
  function GeoIntersectsSpatialArg(xmin: real, ymin: real, xmax: real, ymax: real): Value {
    var ring := RectangleRing(xmin, ymin, xmax, ymax);
    var coordinates := PositionValues(ring);
    var geometry := JObject([("type", JString("Polygon")), ("coordinates", JArray([JArray(coordinates)]))]);
    Single("geometry", Single("$geoIntersects", Single("$geometry", geometry)))
  }

  function AsPosition(v: Value): Option<Position> {
    match v
    case JArray(items) =>
      if |items| == 2 && items[0].JNumber? && items[1].JNumber? then Some((items[0].n, items[1].n))
      else None
    case _ => None
  }

  function AsPositions(vs: seq<Value>): (r: Option<seq<Position>>)
    ensures r.Some? ==> |r.value| == |vs|
    ensures r.Some? ==> forall i :: 0 <= i < |vs| ==> AsPosition(vs[i]) == Some(r.value[i])
  {
    if |vs| == 0 then Some([])
    else
      var p :- AsPosition(vs[0]);
      var ps :- AsPositions(vs[1..]);
      Some([p] + ps)
  }

  /** The single ring of the polygon in a `$geoIntersects` argument. */
  function IntersectsRing(v: Value): Option<seq<Position>> {
    var g :- Member(v, "geometry");
    var gi :- Member(g, "$geoIntersects");
    var geometry :- Member(gi, "$geometry");
    var t :- Member(geometry, "type");
    if t != JString("Polygon") then None
    else
      var c :- Member(geometry, "coordinates");
      var rings :- AsArray(c);
      if |rings| != 1 then None
      else
        var ring :- AsArray(rings[0]);
        AsPositions(ring)
  }

  /** The box a `$geoIntersects` argument selects, if its ring is a closed
      axis-aligned rectangle written in the builder's order. */
  function ParseGeoIntersects(v: Value): Option<BBox> {
    var ring :- IntersectsRing(v);
    if |ring| == 5 && ring == RectangleRing(ring[0].0, ring[0].1, ring[2].0, ring[2].1)
    then Some(BBox(ring[0].0, ring[0].1, ring[2].0, ring[2].1))
    else None
  }

  /** Round trip for a list of positions. */
  lemma {:induction false} PositionValuesRoundTrip(ps: seq<Position>)
    ensures AsPositions(PositionValues(ps)) == Some(ps)
  {
    if |ps| > 0 {
      var vs := PositionValues(ps);
      assert vs == [PositionValue(ps[0])] + PositionValues(ps[1..]);
      assert vs[1..] == PositionValues(ps[1..]);
      assert AsPosition(vs[0]) == Some(ps[0]);
      PositionValuesRoundTrip(ps[1..]);
      assert AsPositions(vs) == Some([ps[0]] + ps[1..]);
      assert ps == [ps[0]] + ps[1..];
    }
  }

  /** The shape of the intersects argument: one ring of exactly five points,
      (xmin,ymin), (xmax,ymin), (xmax,ymax), (xmin,ymax), (xmin,ymin), closed
      because its first point is its last. */
  lemma GeoIntersectsRingShape(xmin: real, ymin: real, xmax: real, ymax: real)
    ensures IntersectsRing(GeoIntersectsSpatialArg(xmin, ymin, xmax, ymax)) == Some(RectangleRing(xmin, ymin, xmax, ymax))
    ensures var ring := RectangleRing(xmin, ymin, xmax, ymax);
      |ring| == 5 && ring[0] == ring[4] && ring[0] == (xmin, ymin) && ring[1] == (xmax, ymin)
      && ring[2] == (xmax, ymax) && ring[3] == (xmin, ymax)
  {
    var ring := RectangleRing(xmin, ymin, xmax, ymax);
    var geometry := JObject([("type", JString("Polygon")), ("coordinates", JArray([JArray(PositionValues(ring))]))]);
    var v := GeoIntersectsSpatialArg(xmin, ymin, xmax, ymax);
    assert Member(v, "geometry") == Some(Single("$geoIntersects", Single("$geometry", geometry)));
    assert Member(geometry, "type") == Some(JString("Polygon"));
    LookupFirst(geometry.members, "coordinates", 1);
    PositionValuesRoundTrip(ring);
  }

  /** Round trip: the box is read back from the argument built from it. */
  lemma GeoIntersectsRoundTrip(xmin: real, ymin: real, xmax: real, ymax: real)
    ensures ParseGeoIntersects(GeoIntersectsSpatialArg(xmin, ymin, xmax, ymax)) == Some(BBox(xmin, ymin, xmax, ymax))
  {
    GeoIntersectsRingShape(xmin, ymin, xmax, ymax);
  }

  /** The decoder accepts exactly the builder's rings: an argument decodes to
      box `b` if and only if its ring is the one the builder writes for `b`. */
  lemma ParsedGeoIntersectsRing(v: Value, b: BBox)
    ensures ParseGeoIntersects(v) == Some(b) <==> IntersectsRing(v) == Some(RectangleRing(b.xmin, b.ymin, b.xmax, b.ymax))
    ensures ParseGeoIntersects(v) == Some(b) <==>
      IntersectsRing(v) == IntersectsRing(GeoIntersectsSpatialArg(b.xmin, b.ymin, b.xmax, b.ymax))
  {
    GeoIntersectsRingShape(b.xmin, b.ymin, b.xmax, b.ymax);
  }

  // ---------------------------------------------------------------------------
  // $near

  /** JavaScript's `d || default` on an optional number (NaN is not modelled):
      absent and 0 both select the default. */
  function OrDefault(d: Option<real>, default: real): real {
    if d.Some? && d.value != 0.0 then d.value else default
  }

  /** `getGeoNearSpatialArg(x, y, minDistance, maxDistance)`. */
  function GeoNearSpatialArg(x: real, y: real, minDistance: Option<real>, maxDistance: Option<real>): Value {
    var minD := OrDefault(minDistance, DefaultMinDistance);
    var maxD := OrDefault(maxDistance, DefaultMaxDistance);
    var geometry := JObject([("type", JString("Point")), ("coordinates", PositionValue((x, y)))]);
    Single("geometry", Single("$near", JObject([
      ("$geometry", geometry), ("$minDistance", JNumber(minD)), ("$maxDistance", JNumber(maxD))])))
  }

  /** What a `$near` argument asks for, if it is a well-formed one. */
  function ParseGeoNear(v: Value): Option<NearQuery> {
    var g :- Member(v, "geometry");
    var near :- Member(g, "$near");
    var geometry :- Member(near, "$geometry");
    var t :- Member(geometry, "type");
    if t != JString("Point") then None
    else
      var c :- Member(geometry, "coordinates");
      var p :- AsPosition(c);
      var minV :- Member(near, "$minDistance");
      var minD :- AsNumber(minV);
      var maxV :- Member(near, "$maxDistance");
      var maxD :- AsNumber(maxV);
      Some(NearQuery(p.0, p.1, minD, maxD))
  }

  /** Round trip, with the falsy defaults applied: the point is copied, an
      absent or zero minimum becomes 0 and an absent or zero maximum becomes
      500; any other distance is passed through unchanged. */
  lemma GeoNearRoundTrip(x: real, y: real, minDistance: Option<real>, maxDistance: Option<real>)
    ensures ParseGeoNear(GeoNearSpatialArg(x, y, minDistance, maxDistance))
         == Some(NearQuery(x, y, OrDefault(minDistance, DefaultMinDistance), OrDefault(maxDistance, DefaultMaxDistance)))
  {
    var near := JObject([
      ("$geometry", JObject([("type", JString("Point")), ("coordinates", PositionValue((x, y)))])),
      ("$minDistance", JNumber(OrDefault(minDistance, DefaultMinDistance))),
      ("$maxDistance", JNumber(OrDefault(maxDistance, DefaultMaxDistance)))]);
    var geometry := near.members[0].1;
    var v := GeoNearSpatialArg(x, y, minDistance, maxDistance);
    assert Member(v, "geometry") == Some(Single("$near", near));
    assert Member(near, "$geometry") == Some(geometry);
    assert Member(geometry, "type") == Some(JString("Point"));
    LookupFirst(geometry.members, "coordinates", 1);
    LookupFirst(near.members, "$minDistance", 1);
    LookupFirst(near.members, "$maxDistance", 2);
  }

  /** The defaults, spelt out: a missing or zero maximum (an explicit 0
      included) is 500, so a `$near` argument never has a zero maximum; the
      minimum is the given one, or 0. */
  lemma GeoNearDefaults(x: real, y: real, minDistance: Option<real>, maxDistance: Option<real>)
    ensures var q := ParseGeoNear(GeoNearSpatialArg(x, y, minDistance, maxDistance));
      && q.Some?
      && q.value.minDistance == minDistance.GetOr(0.0)
      && (maxDistance == None || maxDistance == Some(0.0) ==> q.value.maxDistance == DefaultMaxDistance)
      && (maxDistance.Some? && maxDistance.value != 0.0 ==> q.value.maxDistance == maxDistance.value)
      && q.value.maxDistance != 0.0
  {
    GeoNearRoundTrip(x, y, minDistance, maxDistance);
  }

  /** Applying the falsy default twice, as the shortcut methods do before
      calling the builder, is the same as applying it once. */
  lemma OrDefaultTwice(d: Option<real>, default: real)
    ensures OrDefault(Some(OrDefault(d, default)), default) == OrDefault(d, default)
  {
  }

  // ---------------------------------------------------------------------------
  // $and / $or

  /** `getAndArg(...args)`. */
  function AndArg(args: seq<Value>): Value {
    Single("$and", JArray(args))
  }

  /** `getOrArg(...args)`. */
  function OrArg(args: seq<Value>): Value {
    Single("$or", JArray(args))
  }

  /** The operands of a combinator named `op`, if `v` is one. */
  function CombinatorArgs(v: Value, op: string): Option<seq<Value>> {
    var a :- Member(v, op);
    AsArray(a)
  }

  /** The combinators keep their arguments, in call order and with the same
      count (zero and one included), under their own operator only. */
  lemma CombinatorRoundTrip(args: seq<Value>)
    ensures CombinatorArgs(AndArg(args), "$and") == Some(args)
    ensures CombinatorArgs(OrArg(args), "$or") == Some(args)
    ensures CombinatorArgs(AndArg(args), "$or") == None
    ensures CombinatorArgs(OrArg(args), "$and") == None
  {
  }
}
