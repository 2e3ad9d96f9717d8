/**
 * Rings, bounding boxes and the point-in-polygon test. The bounding-box loop is the one of
 * src/notification/spatial.rs; the test itself belongs to the `geo` crate and is given here by
 * its two textbook definitions, for which the same facts are proved.
 */
module Geometry {
  import opened Wrappers
  import opened Json
  import opened Platform

  datatype Box = Box(minLat: F64, minLon: F64, maxLat: F64, maxLon: F64)

  function Min(a: int, b: int): int { if a <= b then a else b }
  function Max(a: int, b: int): int { if a >= b then a else b }

  predicate InBox(box: Box, c: Coordinate) {
    box.minLat <= c.lat <= box.maxLat && box.minLon <= c.lon <= box.maxLon
  }

  /** Two closed boxes overlap. */
  predicate BoxesIntersect(a: Box, b: Box) {
    a.minLat <= b.maxLat && b.minLat <= a.maxLat && a.minLon <= b.maxLon && b.minLon <= a.maxLon
  }

  /** `geo::Rect::new` orders its corners. */
  function OrderedBox(b: Box): Box {
    Box(Min(b.minLat, b.maxLat), Min(b.minLon, b.maxLon), Max(b.minLat, b.maxLat), Max(b.minLon, b.maxLon))
  }

  /** The smallest box around some points: it holds them all, and each side touches one of them. */
  ghost predicate TightBox(box: Box, cs: seq<Coordinate>) {
    && (forall c :: c in cs ==> InBox(box, c))
    && (exists c :: c in cs && c.lat == box.minLat)
    && (exists c :: c in cs && c.lon == box.minLon)
    && (exists c :: c in cs && c.lat == box.maxLat)
    && (exists c :: c in cs && c.lon == box.maxLon)
  }

  function BoxOf(cs: seq<Coordinate>): Box
    requires cs != []
  {
    var last := cs[|cs| - 1];
    if |cs| == 1 then Box(last.lat, last.lon, last.lat, last.lon)
    else
      var b := BoxOf(cs[..|cs| - 1]);
      Box(Min(b.minLat, last.lat), Min(b.minLon, last.lon), Max(b.maxLat, last.lat), Max(b.maxLon, last.lon))
  }

  /** The loop that grows four bounds over the coordinates. */
  method BoundingBox(coordinates: seq<Coordinate>) returns (r: Option<Box>)
    ensures r.None? <==> coordinates == []
    ensures r.Some? ==> r.value == BoxOf(coordinates)
  {
    if coordinates == [] {
      return None;
    }
    var minLat, minLon := coordinates[0].lat, coordinates[0].lon;
    var maxLat, maxLon := minLat, minLon;
    for i := 1 to |coordinates|
      invariant Box(minLat, minLon, maxLat, maxLon) == BoxOf(coordinates[..i])
    {
      var c := coordinates[i];
      assert coordinates[..i + 1][..i] == coordinates[..i];
      minLat := Min(minLat, c.lat);
      minLon := Min(minLon, c.lon);
      maxLat := Max(maxLat, c.lat);
      maxLon := Max(maxLon, c.lon);
    }
    assert coordinates[..|coordinates|] == coordinates;
    r := Some(Box(minLat, minLon, maxLat, maxLon));
  }

  lemma {:induction false} BoxIsTight(cs: seq<Coordinate>)
    requires cs != []
    ensures TightBox(BoxOf(cs), cs)
  {
    var last := cs[|cs| - 1];
    if |cs| > 1 {
      BoxIsTight(cs[..|cs| - 1]);
      assert forall c :: c in cs <==> c in cs[..|cs| - 1] || c == last;
    }
  }

  /** There is only one smallest box, so the order of the coordinates does not matter. */
  lemma TightBoxUnique(a: Box, b: Box, cs: seq<Coordinate>)
    requires TightBox(a, cs) && TightBox(b, cs)
    ensures a == b
  {
  }

  // ---- rings --------------------------------------------------------------------------------

  /** `geo::Polygon::new` closes an open ring. */
  function Closed(cs: seq<Coordinate>): seq<Coordinate> {
    if cs != [] && cs[0] != cs[|cs| - 1] then cs + [cs[0]] else cs
  }

  /** Positive when `p` lies to the left of the directed line from `a` to `b`. */
  function Orientation(a: Coordinate, b: Coordinate, p: Coordinate): int {
    (b.lon - a.lon) * (p.lat - a.lat) - (b.lat - a.lat) * (p.lon - a.lon)
  }

  /** How the edge from `a` to `b` crosses the ray running from `p` towards greater longitude. */
  function Crossing(a: Coordinate, b: Coordinate, p: Coordinate): int {
    if a.lat <= p.lat < b.lat && Orientation(a, b, p) > 0 then 1
    else if b.lat <= p.lat < a.lat && Orientation(a, b, p) < 0 then -1
    else 0
  }

  function Winding(ring: seq<Coordinate>, p: Coordinate): int {
    if |ring| < 2 then 0 else Crossing(ring[0], ring[1], p) + Winding(ring[1..], p)
  }

  function CrossingCount(ring: seq<Coordinate>, p: Coordinate): nat {
    if |ring| < 2 then 0 else (if Crossing(ring[0], ring[1], p) == 0 then 0 else 1) + CrossingCount(ring[1..], p)
  }

  predicate OnEdge(a: Coordinate, b: Coordinate, p: Coordinate) {
    Orientation(a, b, p) == 0
    && Min(a.lat, b.lat) <= p.lat <= Max(a.lat, b.lat) && Min(a.lon, b.lon) <= p.lon <= Max(a.lon, b.lon)
  }

  predicate OnBoundary(ring: seq<Coordinate>, p: Coordinate) {
    exists i :: 0 <= i < |ring| - 1 && OnEdge(ring[i], ring[i + 1], p)
  }

  predicate Interior(rule: FillRule, ring: seq<Coordinate>, p: Coordinate) {
    match rule
    case EvenOdd => CrossingCount(ring, p) % 2 == 1
    case NonZero => Winding(ring, p) != 0
  }

  /** `Polygon::contains`: the interior without the boundary. */
  predicate Contains(rule: FillRule, cs: seq<Coordinate>, p: Coordinate) {
    Interior(rule, Closed(cs), p) && !OnBoundary(Closed(cs), p)
  }

  /** `Polygon::intersects` for a point: the interior or the boundary. */
  predicate Touches(rule: FillRule, cs: seq<Coordinate>, p: Coordinate) {
    Interior(rule, Closed(cs), p) || OnBoundary(Closed(cs), p)
  }

  // ---- a ring stays inside its bounding box -------------------------------------------------

  /** The edges that cross the ray downwards. */
  function DownCrossings(ring: seq<Coordinate>, p: Coordinate): nat {
    if |ring| < 2 then 0 else (if Crossing(ring[0], ring[1], p) == -1 then 1 else 0) + DownCrossings(ring[1..], p)
  }

  lemma {:induction false} CrossingsSplit(ring: seq<Coordinate>, p: Coordinate)
    ensures CrossingCount(ring, p) == Winding(ring, p) + 2 * DownCrossings(ring, p)
  {
    if |ring| >= 2 {
      CrossingsSplit(ring[1..], p);
    }
  }

  lemma EvenDouble(n: int)
    ensures (2 * n) % 2 == 0
  {
  }

  /** The number of crossings has the parity of their signed sum. */
  lemma CountParity(ring: seq<Coordinate>, p: Coordinate)
    ensures (CrossingCount(ring, p) - Winding(ring, p)) % 2 == 0
  {
    CrossingsSplit(ring, p);
    EvenDouble(DownCrossings(ring, p));
  }

  function Above(c: Coordinate, p: Coordinate): int { if c.lat > p.lat then 1 else 0 }

  lemma LeftCrossing(a: Coordinate, b: Coordinate, p: Coordinate)
    requires p.lon < a.lon && p.lon < b.lon
    ensures Crossing(a, b, p) == Above(b, p) - Above(a, p)
  {
    if a.lat <= p.lat < b.lat {
      SignedAreas(a.lon - p.lon, b.lon - p.lon, p.lat - a.lat, b.lat - p.lat);
      OrientationSplit(a, b, p);
    } else if b.lat <= p.lat < a.lat {
      SignedAreas(b.lon - p.lon, a.lon - p.lon, p.lat - b.lat, a.lat - p.lat);
      OrientationSplit(a, b, p);
    }
  }

  lemma RightCrossing(a: Coordinate, b: Coordinate, p: Coordinate)
    requires a.lon < p.lon && b.lon < p.lon
    ensures Crossing(a, b, p) == 0
  {
    if a.lat <= p.lat < b.lat {
      SignedAreas(p.lon - a.lon, p.lon - b.lon, p.lat - a.lat, b.lat - p.lat);
      OrientationSplit(a, b, p);
    } else if b.lat <= p.lat < a.lat {
      SignedAreas(p.lon - b.lon, p.lon - a.lon, p.lat - b.lat, a.lat - p.lat);
      OrientationSplit(a, b, p);
    }
  }

  lemma OrientationSplit(a: Coordinate, b: Coordinate, p: Coordinate)
    ensures Orientation(a, b, p) == (b.lon - p.lon) * (p.lat - a.lat) + (a.lon - p.lon) * (b.lat - p.lat)
  {
    var u, v, s, t := b.lon - p.lon, a.lon - p.lon, p.lat - a.lat, b.lat - p.lat;
    assert b.lon - a.lon == u - v && b.lat - a.lat == s + t && p.lon - a.lon == -v;
    assert (u - v) * s - (s + t) * (-v) == u * s + v * t;
  }

  lemma SignedAreas(x: int, y: int, s: int, t: int)
    requires x > 0 && y > 0 && s >= 0 && t > 0
    ensures y * s + x * t > 0
    ensures (-y) * s + (-x) * t < 0
    ensures (-y) * (-s) + (-x) * (-t) > 0
    ensures y * (-s) + x * (-t) < 0
  {
    assert y * s >= 0 && x * t > 0;
  }

  /** Seen from the left of a path, the signed crossings telescope to its two ends. */
  lemma {:induction false} WindingFromLeft(ring: seq<Coordinate>, p: Coordinate)
    requires ring != [] && forall c :: c in ring ==> p.lon < c.lon
    ensures Winding(ring, p) == Above(ring[|ring| - 1], p) - Above(ring[0], p)
  {
    if |ring| >= 2 {
      LeftCrossing(ring[0], ring[1], p);
      WindingFromLeft(ring[1..], p);
    }
  }

  lemma {:induction false} NoCrossings(ring: seq<Coordinate>, p: Coordinate)
    requires (forall c :: c in ring ==> p.lat < c.lat) || (forall c :: c in ring ==> c.lat < p.lat)
             || (forall c :: c in ring ==> c.lon < p.lon)
    ensures Winding(ring, p) == 0
  {
    if |ring| >= 2 {
      if forall c :: c in ring ==> c.lon < p.lon {
        RightCrossing(ring[0], ring[1], p);
      }
      assert ring[0] in ring && ring[1] in ring;
      NoCrossings(ring[1..], p);
    }
  }

  /** Outside the box the signed crossings of a closed ring cancel, so their number is even. */
  lemma OutsideBoxOutsideRing(ring: seq<Coordinate>, box: Box, p: Coordinate)
    requires ring != [] && ring[0] == ring[|ring| - 1]
    requires forall c :: c in ring ==> InBox(box, c)
    requires !InBox(box, p)
    ensures Winding(ring, p) == 0 && CrossingCount(ring, p) % 2 == 0 && !OnBoundary(ring, p)
  {
    CountParity(ring, p);
    if p.lon < box.minLon {
      WindingFromLeft(ring, p);
    } else {
      NoCrossings(ring, p);
    }
    forall i | 0 <= i < |ring| - 1 ensures !OnEdge(ring[i], ring[i + 1], p) {
      assert InBox(box, ring[i]) && InBox(box, ring[i + 1]);
    }
  }

  /** A point of a polygon, boundary included, is in the polygon's bounding box, under either fill rule. */
  lemma PolygonInBox(rule: FillRule, cs: seq<Coordinate>, p: Coordinate)
    requires cs != [] && Touches(rule, cs, p)
    ensures InBox(BoxOf(cs), p)
  {
    BoxIsTight(cs);
    var ring := Closed(cs);
    assert forall c :: c in ring ==> c in cs;
    if !InBox(BoxOf(cs), p) {
      OutsideBoxOutsideRing(ring, BoxOf(cs), p);
      assert false;
    }
  }

  /** Closing the ring does not move its bounding box. */
  lemma ClosedBox(cs: seq<Coordinate>)
    requires cs != []
    ensures BoxOf(Closed(cs)) == BoxOf(cs)
  {
    BoxIsTight(cs);
    if cs[0] != cs[|cs| - 1] {
      assert Closed(cs)[..|cs|] == cs;
      assert InBox(BoxOf(cs), cs[0]);
    }
  }

  /** Two boxes that share a point overlap. */
  lemma SharedPoint(a: Box, b: Box, p: Coordinate)
    requires InBox(a, p) && InBox(b, p)
    ensures BoxesIntersect(a, b)
  {
  }

  /** Boxes with ordered corners overlap exactly when they have a point in common. */
  lemma BoxesShareAPoint(a: Box, b: Box)
    requires OrderedBox(a) == a && OrderedBox(b) == b
    ensures BoxesIntersect(a, b) <==> exists p :: InBox(a, p) && InBox(b, p)
  {
    if BoxesIntersect(a, b) {
      var corner := Coordinate(Max(a.minLat, b.minLat), Max(a.minLon, b.minLon));
      assert InBox(a, corner) && InBox(b, corner);
    }
  }

  // ---- the region of a rectangle ------------------------------------------------------------

  /** The closed ring of a box, counter-clockwise with longitude to the right. */
  function RectangleRing(box: Box): seq<Coordinate> {
    [Coordinate(box.minLat, box.minLon), Coordinate(box.minLat, box.maxLon), Coordinate(box.maxLat, box.maxLon),
     Coordinate(box.maxLat, box.minLon), Coordinate(box.minLat, box.minLon)]
  }

  predicate InsideBox(box: Box, p: Coordinate) {
    box.minLat < p.lat < box.maxLat && box.minLon < p.lon < box.maxLon
  }

  lemma RectangleCrossings(box: Box, p: Coordinate)
    requires InsideBox(box, p)
    ensures var r := RectangleRing(box);
            Crossing(r[0], r[1], p) == 0 && Crossing(r[1], r[2], p) == 1 && Crossing(r[2], r[3], p) == 0
            && Crossing(r[3], r[4], p) == 0
  {
    var h := box.maxLat - box.minLat;
    var r := RectangleRing(box);
    assert Orientation(r[1], r[2], p) == 0 * (p.lat - box.minLat) - h * (p.lon - box.maxLon);
    assert h * (p.lon - box.maxLon) < 0;
    assert Orientation(r[3], r[4], p) == 0 * (p.lat - box.maxLat) - (-h) * (p.lon - box.minLon);
    assert (-h) * (p.lon - box.minLon) < 0;
  }

  lemma FourEdges(a: Coordinate, b: Coordinate, c: Coordinate, d: Coordinate, e: Coordinate, p: Coordinate)
    ensures var sum := Crossing(a, b, p) + Crossing(b, c, p) + Crossing(c, d, p) + Crossing(d, e, p);
            Winding([a, b, c, d, e], p) == sum
  {
    assert [a, b, c, d, e][1..] == [b, c, d, e] && [b, c, d, e][1..] == [c, d, e] && [c, d, e][1..] == [d, e]
      && [d, e][1..] == [e];
    assert Winding([e], p) == 0 && Winding([d, e], p) == Crossing(d, e, p);
    assert Winding([c, d, e], p) == Crossing(c, d, p) + Winding([d, e], p);
    assert Winding([b, c, d, e], p) == Crossing(b, c, p) + Winding([c, d, e], p);
  }

  lemma RectangleEdges(box: Box, p: Coordinate)
    requires box.minLat < box.maxLat && box.minLon < box.maxLon
    ensures OnBoundary(RectangleRing(box), p) <==> InBox(box, p) && !InsideBox(box, p)
  {
    var r := RectangleRing(box);
    assert OnEdge(r[0], r[1], p) <==> p.lat == box.minLat && box.minLon <= p.lon <= box.maxLon;
    assert OnEdge(r[2], r[3], p) <==> p.lat == box.maxLat && box.minLon <= p.lon <= box.maxLon;
    assert OnEdge(r[1], r[2], p) <==> p.lon == box.maxLon && box.minLat <= p.lat <= box.maxLat;
    assert OnEdge(r[3], r[4], p) <==> p.lon == box.minLon && box.minLat <= p.lat <= box.maxLat;
  }

  lemma RectangleBox(box: Box)
    requires box.minLat < box.maxLat && box.minLon < box.maxLon
    ensures BoxOf(RectangleRing(box)) == box
  {
    var r := RectangleRing(box);
    BoxIsTight(r);
    assert r[0] in r && r[2] in r;
    assert TightBox(box, r);
    TightBoxUnique(box, BoxOf(r), r);
  }

  /**
   * On a rectangle both fill rules give the expected region: its inside for 'contains', the closed
   * box for 'intersects'.
   */
  lemma RectangleRegion(rule: FillRule, box: Box, p: Coordinate)
    requires box.minLat < box.maxLat && box.minLon < box.maxLon
    ensures Contains(rule, RectangleRing(box), p) <==> InsideBox(box, p)
    ensures Touches(rule, RectangleRing(box), p) <==> InBox(box, p)
  {
    var r := RectangleRing(box);
    RectangleEdges(box, p);
    RectangleBox(box);
    if Touches(rule, r, p) {
      PolygonInBox(rule, r, p);
    }
    if InsideBox(box, p) {
      RectangleCrossings(box, p);
      FourEdges(r[0], r[1], r[2], r[3], r[4], p);
      CountParity(r, p);
    }
  }
}
