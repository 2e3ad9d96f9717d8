/** Spatial metadata of a notification and the spatial filters of a subscriber. */
module Spatial {
  import opened Wrappers
  import opened Text
  import opened Json
  import opened Platform
  import opened Geometry
  import opened Shapes

  const BBOX_KEY := "spatial_bbox"
  const GEOMETRY_KEY := "spatial_geometry"
  const POINT_CLOUD_KEY := "spatial_point_cloud"

  type Headers = map<string, string>

  datatype StoredGeometry = PolygonText(text: string) | CloudText(text: string)

  datatype SpatialMetadata = SpatialMetadata(boundingBox: string, geometry: StoredGeometry)

  // ---- writing ------------------------------------------------------------------------------

  function BoxText(p: Platform, b: Box): string {
    Join([p.printF64(b.minLat), p.printF64(b.minLon), p.printF64(b.maxLat), p.printF64(b.maxLon)], ',')
  }

  /** The geometry a notification declares: a polygon ring or a cloud of points. */
  datatype Shape = Ring(cs: seq<Coordinate>) | Cloud(cs: seq<Coordinate>)

  function MetadataWith(p: Platform, shape: Shape, canonical: string): SpatialMetadata
    requires shape.cs != []
  {
    SpatialMetadata(BoxText(p, BoxOf(shape.cs)), if shape.Ring? then PolygonText(canonical) else CloudText(canonical))
  }

  /** Metadata of a shape stored under its own canonical text. */
  function MetadataOf(p: Platform, shape: Shape): SpatialMetadata
    requires shape.cs != []
  {
    MetadataWith(p, shape, p.printJson(CoordinatesJson(shape.cs)))
  }

  /** `SpatialMetadata::from_polygon` and `from_point_cloud`: no metadata without coordinates. */
  method BuildMetadata(p: Platform, shape: Shape, canonical: string) returns (r: Option<SpatialMetadata>)
    ensures r == if shape.cs == [] then None else Some(MetadataWith(p, shape, canonical))
  {
    var box := BoundingBox(shape.cs);
    if box.None? {
      return None;
    }
    var geometry := if shape.Ring? then PolygonText(canonical) else CloudText(canonical);
    r := Some(SpatialMetadata(BoxText(p, box.value), geometry));
  }

  function HeadersOf(metadata: SpatialMetadata): Headers {
    match metadata.geometry
    case PolygonText(text) => map[BBOX_KEY := metadata.boundingBox, GEOMETRY_KEY := text]
    case CloudText(text) => map[BBOX_KEY := metadata.boundingBox, POINT_CLOUD_KEY := text]
  }

  /** The headers stored with a notification: exactly one of the two geometry keys beside the box. */
  method StoredHeaders(metadata: Option<SpatialMetadata>) returns (headers: Option<Headers>)
    ensures headers.None? <==> metadata.None?
    ensures metadata.Some? ==> headers.value == HeadersOf(metadata.value)
  {
    if metadata.None? {
      return None;
    }
    var stored: Headers := map[];
    stored := stored[BBOX_KEY := metadata.value.boundingBox];
    match metadata.value.geometry {
      case PolygonText(text) => stored := stored[GEOMETRY_KEY := text];
      case CloudText(text) => stored := stored[POINT_CLOUD_KEY := text];
    }
    headers := Some(stored);
  }

  /** The names under which a stored box and a stored geometry of each kind are kept. */
  lemma HeaderKeys(metadata: SpatialMetadata)
    ensures HeadersOf(metadata).Keys ==
            {"spatial_bbox", if metadata.geometry.PolygonText? then "spatial_geometry" else "spatial_point_cloud"}
    ensures HeadersOf(metadata)["spatial_bbox"] == metadata.boundingBox
  {
    assert |"spatial_bbox"| != |"spatial_geometry"| && |"spatial_bbox"| != |"spatial_point_cloud"|;
  }

  function ShapeHeaders(p: Platform, shape: Option<Shape>): Option<Headers>
    requires shape.Some? ==> shape.value.cs != []
  {
    if shape.None? then None else Some(HeadersOf(MetadataOf(p, shape.value)))
  }

  // ---- reading ------------------------------------------------------------------------------

  function Header(headers: Option<Headers>, key: string): Option<string> {
    if headers.Some? && key in headers.value then Some(headers.value[key]) else None
  }

  function ParseNumbers(p: Platform, parts: seq<string>): (r: Option<seq<F64>>)
    ensures r.Some? ==> |r.value| == |parts|
                        && forall i :: 0 <= i < |parts| ==> p.parseF64(Trim(parts[i])) == Some(r.value[i])
  {
    if parts == [] then Some([])
    else
      match (p.parseF64(Trim(parts[0])), ParseNumbers(p, parts[1..]))
      case (Some(first), Some(rest)) => Some([first] + rest)
      case _ => None
  }

  function ParseBox(p: Platform, text: string): Option<Box> {
    match ParseNumbers(p, Split(text, ','))
    case None => None
    case Some(v) => if |v| == 4 then Some(OrderedBox(Box(v[0], v[1], v[2], v[3]))) else None
  }

  function CandidateBox(p: Platform, headers: Option<Headers>): Option<Box> {
    match Header(headers, BBOX_KEY)
    case Some(text) => ParseBox(p, text)
    case None => None
  }

  function CandidateCloud(p: Platform, headers: Option<Headers>): Option<seq<Coordinate>> {
    match Header(headers, POINT_CLOUD_KEY)
    case None => None
    case Some(text) =>
      match p.parseJson(text)
      case None => None
      case Some(value) =>
        match ParseCloud(value, HARD_MAX_POINTS)
        case Success(cs) => Some(cs)
        case Failure(_) => None
  }

  function Member(j: Json, key: string): Option<Json> {
    if j.Object? then Lookup(j.members, key) else None
  }

  function Lookup(members: seq<(string, Json)>, key: string): Option<Json> {
    if members == [] then None
    else if members[0].0 == key then Some(members[0].1)
    else Lookup(members[1..], key)
  }

  /** Coordinate pairs of a GeoJSON ring; entries that are not two numbers are skipped. */
  function GeoJsonPairs(items: seq<Json>): seq<Coordinate> {
    if items == [] then []
    else
      var item := items[0];
      var rest := GeoJsonPairs(items[1..]);
      if item.Array? && |item.items| >= 2 && Component(item.items[0]).Some? && Component(item.items[1]).Some? then
        [Coordinate(Component(item.items[0]).value, Component(item.items[1]).value)] + rest
      else rest
  }

  function GeoJsonPolygon(j: Json): Option<seq<Coordinate>> {
    match (Member(j, "type"), Member(j, "coordinates"))
    case (Some(Str("Polygon")), Some(Array(rings))) =>
      if rings != [] && rings[0].Array? && |GeoJsonPairs(rings[0].items)| >= 3 then Some(GeoJsonPairs(rings[0].items))
        else None
    case _ => None
  }

  function PayloadPolygon(p: Platform, payload: string): Option<seq<Coordinate>> {
    match p.parseJson(payload)
    case None => None
    case Some(value) =>
      match Member(value, GEOMETRY_KEY)
      case Some(Str(text)) => ParsePolygonText(p, text)
      case Some(Object(members)) => GeoJsonPolygon(Object(members))
      case _ => None
  }

  function CandidatePolygon(p: Platform, headers: Option<Headers>, payload: string): Option<seq<Coordinate>> {
    var stored := match Header(headers, GEOMETRY_KEY)
      case Some(text) => ParsePolygonText(p, text)
      case None => None;
    if stored.Some? then stored else PayloadPolygon(p, payload)
  }

  // ---- filters ------------------------------------------------------------------------------

  datatype PreparedFilter = PreparedFilter(ring: seq<Coordinate>, box: Box)

  function PrepareSpatialFilter(p: Platform, request: map<string, string>): Option<PreparedFilter> {
    if "polygon" !in request || request["polygon"] == "*" then None
    else match ParsePolygonText(p, request["polygon"])
      case None => None
      case Some(cs) => if cs == [] then None else Some(PreparedFilter(cs, BoxOf(Closed(cs))))
  }

  predicate MatchesPoint(p: Platform, requestPoint: string, headers: Option<Headers>, payload: string) {
    match ParsePointText(p, requestPoint)
    case None => false
    case Some(point) =>
      var box := CandidateBox(p, headers);
      (box.Some? ==> InBox(box.value, point))
      && (var polygon := CandidatePolygon(p, headers, payload);
          polygon.Some? && Contains(p.fill, polygon.value, point))
  }

  predicate MatchesPolygon(p: Platform, filter: PreparedFilter, headers: Option<Headers>, payload: string) {
    match CandidateBox(p, headers)
    case None => false
    case Some(box) =>
      BoxesIntersect(box, filter.box)
      && match CandidateCloud(p, headers)
         case Some(points) => exists i :: 0 <= i < |points| && Touches(p.fill, filter.ring, points[i])
         case None =>
           var polygon := CandidatePolygon(p, headers, payload);
           polygon.Some? && p.polygonsIntersect(polygon.value, filter.ring)
  }

  /** The spatial part of the request filter, with the request polygon prepared beforehand. */
  predicate MatchesSpatialFilters(p: Platform, request: map<string, string>, prepared: Option<PreparedFilter>,
                                  headers: Option<Headers>, payload: string) {
    if "polygon" in request && request["polygon"] != "*" && "point" in request then false
    else if "point" in request then MatchesPoint(p, request["point"], headers, payload)
    else if "polygon" !in request || request["polygon"] == "*" then true
    else prepared.Some? && MatchesPolygon(p, prepared.value, headers, payload)
  }

  // ---- the same answers without bounding boxes ----------------------------------------------

  /** The polygon a requested point is looked for in: the stored one, and for a stored cloud the payload's. */
  function PolygonOf(p: Platform, shape: Shape, payload: string): Option<seq<Coordinate>> {
    if shape.Ring? then Some(shape.cs) else PayloadPolygon(p, payload)
  }

  predicate PolygonHolds(p: Platform, requestPoint: string, polygon: Option<seq<Coordinate>>) {
    var point := ParsePointText(p, requestPoint);
    point.Some? && polygon.Some? && Contains(p.fill, polygon.value, point.value)
  }

  /** What the request polygon or point asks of a stored shape, by geometry alone. */
  predicate PlainAnswer(p: Platform, request: map<string, string>, shape: Shape, payload: string) {
    if "polygon" in request && request["polygon"] != "*" && "point" in request then false
    else if "point" in request then PolygonHolds(p, request["point"], PolygonOf(p, shape, payload))
    else if "polygon" !in request || request["polygon"] == "*" then true
    else
      var ring := ParsePolygonText(p, request["polygon"]);
      ring.Some? && ring.value != []
      && match shape
         case Cloud(cs) => exists i :: 0 <= i < |cs| && Touches(p.fill, ring.value, cs[i])
         case Ring(cs) => p.polygonsIntersect(cs, ring.value)
  }

  /** A stored polygon that cannot be read counts as none: the payload's is looked at. */
  lemma UnreadableGeometry(p: Platform, headers: Option<Headers>, payload: string)
    requires var stored := Header(headers, "spatial_geometry");
             stored.Some? ==> ParsePolygonText(p, stored.value) == None
    ensures CandidatePolygon(p, headers, payload) == PayloadPolygon(p, payload)
  {
  }

  /**
   * Without a box that can be read a requested polygon is never met, not even by one in the payload, and
   * a requested point is looked for in the polygon alone.
   */
  lemma WithoutBox(p: Platform, request: map<string, string>, headers: Option<Headers>, payload: string)
    requires var stored := Header(headers, "spatial_bbox"); stored.Some? ==> ParseBox(p, stored.value) == None
    ensures MatchesSpatialFilters(p, request, PrepareSpatialFilter(p, request), headers, payload) <==>
            && ("polygon" in request ==> request["polygon"] == "*")
            && ("point" in request ==> PolygonHolds(p, request["point"], CandidatePolygon(p, headers, payload)))
  {
    assert CandidateBox(p, headers) == None;
  }

  /** So without stored geometry a requested point is looked for in the payload's polygon. */
  lemma NothingStored(p: Platform, request: map<string, string>, payload: string)
    ensures MatchesSpatialFilters(p, request, PrepareSpatialFilter(p, request), None, payload) <==>
            && ("polygon" in request ==> request["polygon"] == "*")
            && ("point" in request ==> PolygonHolds(p, request["point"], PayloadPolygon(p, payload)))
  {
    UnreadableGeometry(p, None, payload);
    WithoutBox(p, request, None, payload);
  }

  /** The box comparisons that plain geometry does not imply: a point beside a cloud, a polygon against a polygon. */
  predicate BoxesAdmit(p: Platform, request: map<string, string>, shape: Shape) {
    if "point" in request then
      var point := ParsePointText(p, request["point"]);
      shape.Cloud? && shape.cs != [] && point.Some? ==> InBox(BoxOf(shape.cs), point.value)
    else
      var filter := PrepareSpatialFilter(p, request);
      shape.Ring? && shape.cs != [] && filter.Some? ==> BoxesIntersect(BoxOf(shape.cs), filter.value.box)
  }

  /** The prepared filter is the requested polygon with the tight box of its closed ring. */
  lemma PreparedFilterIs(p: Platform, request: map<string, string>)
    ensures PrepareSpatialFilter(p, request).Some? <==>
            "polygon" in request && request["polygon"] != "*"
              && ParsePolygonText(p, request["polygon"]) !in {None, Some([])}
    ensures PrepareSpatialFilter(p, request).Some? ==>
              var filter := PrepareSpatialFilter(p, request).value;
              && ParsePolygonText(p, request["polygon"]) == Some(filter.ring)
              && TightBox(filter.box, Closed(filter.ring))
  {
    if PrepareSpatialFilter(p, request).Some? {
      BoxIsTight(Closed(PrepareSpatialFilter(p, request).value.ring));
    }
  }

  lemma {:induction false} PairsOfCoordinates(cs: seq<Coordinate>)
    ensures GeoJsonPairs(CoordinateItems(cs)) == cs
  {
    if cs != [] {
      PairsOfCoordinates(cs[1..]);
      assert cs == [cs[0]] + cs[1..];
    }
  }

  /** An entry counts when it starts with two numbers, latitude first; any other entry is skipped. */
  lemma PairRead(item: Json, c: Coordinate)
    ensures GeoJsonPairs([item]) == [c] <==>
            item.Array? && |item.items| >= 2 && IsNumber(item.items[0], c.lat) && IsNumber(item.items[1], c.lon)
    ensures GeoJsonPairs([item]) == [] || exists d :: GeoJsonPairs([item]) == [d]
  {
    assert [item][1..] == [];
    if item.Array? && |item.items| >= 2 && Component(item.items[0]).Some? && Component(item.items[1]).Some? {
      var d := Coordinate(Component(item.items[0]).value, Component(item.items[1]).value);
      assert GeoJsonPairs([item]) == [d] + [] == [d];
      assert [d] == [c] <==> d == c;
    }
  }

  /** The entries are read one after the other, in order. */
  lemma {:induction false} PairsJoin(a: seq<Json>, b: seq<Json>)
    ensures GeoJsonPairs(a + b) == GeoJsonPairs(a) + GeoJsonPairs(b)
  {
    if a == [] {
      assert a + b == b;
    } else {
      PairsJoin(a[1..], b);
      assert (a + b)[1..] == a[1..] + b && (a + b)[0] == a[0];
      FirstPair(a);
      FirstPair(a + b);
      assert GeoJsonPairs([a[0]]) + (GeoJsonPairs(a[1..]) + GeoJsonPairs(b))
          == (GeoJsonPairs([a[0]]) + GeoJsonPairs(a[1..])) + GeoJsonPairs(b);
    }
  }

  lemma FirstPair(items: seq<Json>)
    requires items != []
    ensures GeoJsonPairs(items) == GeoJsonPairs([items[0]]) + GeoJsonPairs(items[1..])
  {
    assert [items[0]][1..] == [];
  }

  /**
   * A GeoJSON polygon in the payload is its outer ring alone, from three readable entries on; any other
   * kind of geometry is none.
   */
  lemma PayloadGeoJson(p: Platform, payload: string, value: Json, geometry: seq<(string, Json)>, ring: seq<Json>,
                       holes: seq<Json>)
    requires p.parseJson(payload) == Some(value) && Member(value, "spatial_geometry") == Some(Object(geometry))
    requires Lookup(geometry, "coordinates") == Some(Array([Array(ring)] + holes))
    ensures var cs := GeoJsonPairs(ring);
            PayloadPolygon(p, payload) ==
            if Lookup(geometry, "type") == Some(Str("Polygon")) && |cs| >= 3 then Some(cs) else None
  {
    var rings := [Array(ring)] + holes;
    assert rings[0] == Array(ring);
  }

  /** A text in that place is read like a polygon text. */
  lemma PayloadText(p: Platform, payload: string, value: Json, text: string)
    requires p.parseJson(payload) == Some(value) && Member(value, "spatial_geometry") == Some(Str(text))
    ensures PayloadPolygon(p, payload) == ParsePolygonText(p, text)
  {
  }

  lemma OrderedBoxOf(cs: seq<Coordinate>)
    requires cs != []
    ensures OrderedBox(BoxOf(cs)) == BoxOf(cs)
  {
    BoxIsTight(cs);
    assert InBox(BoxOf(cs), cs[0]);
  }

  lemma BoxTextRoundTrip(p: Platform, b: Box)
    requires Lawful(p)
    ensures ParseBox(p, BoxText(p, b)) == Some(OrderedBox(b))
  {
    var parts := [p.printF64(b.minLat), p.printF64(b.minLon), p.printF64(b.maxLat), p.printF64(b.maxLon)];
    assert ReprintableNumber(p, b.minLat) && ReprintableNumber(p, b.minLon)
        && ReprintableNumber(p, b.maxLat) && ReprintableNumber(p, b.maxLon);
    SplitJoin(parts, ',');
    forall i | 0 <= i < 4 ensures Trim(parts[i]) == parts[i] {
      TrimmedIsTrim(parts[i]);
    }
    NumbersOf(p, parts, [b.minLat, b.minLon, b.maxLat, b.maxLon]);
  }

  lemma {:induction false} NumbersOf(p: Platform, parts: seq<string>, values: seq<F64>)
    requires |parts| == |values| && forall i :: 0 <= i < |parts| ==> p.parseF64(Trim(parts[i])) == Some(values[i])
    ensures ParseNumbers(p, parts) == Some(values)
  {
    if parts != [] {
      NumbersOf(p, parts[1..], values[1..]);
      assert values == [values[0]] + values[1..];
    }
  }

  /** A box text is four numbers between commas, with white space around them or not; the corners are put in order. */
  lemma BoxTextMeans(p: Platform, text: string)
    ensures var parts := Split(text, ',');
            ParseBox(p, text).Some? <==>
              |parts| == 4 && forall i :: 0 <= i < 4 ==> p.parseF64(Trim(parts[i])).Some?
    ensures ParseBox(p, text).Some? ==>
              var parts, box := Split(text, ','), ParseBox(p, text).value;
              && |parts| == 4 && (forall i :: 0 <= i < 4 ==> p.parseF64(Trim(parts[i])).Some?)
              && {box.minLat, box.maxLat} == {p.parseF64(Trim(parts[0])).value, p.parseF64(Trim(parts[2])).value}
              && {box.minLon, box.maxLon} == {p.parseF64(Trim(parts[1])).value, p.parseF64(Trim(parts[3])).value}
              && box.minLat <= box.maxLat && box.minLon <= box.maxLon
  {
    var parts := Split(text, ',');
    if |parts| == 4 && forall i :: 0 <= i < 4 ==> p.parseF64(Trim(parts[i])).Some? {
      NumbersOf(p, parts, seq(4, i requires 0 <= i < 4 => p.parseF64(Trim(parts[i])).value));
    }
  }

  predicate StorableShape(shape: Shape) {
    AllValid(shape.cs)
    && match shape
       case Ring(cs) => ClosedRing(cs)
       case Cloud(cs) => 1 <= |cs| <= HARD_MAX_POINTS
  }

  lemma StoredBoxReadsBack(p: Platform, shape: Shape)
    requires Lawful(p) && StorableShape(shape)
    ensures CandidateBox(p, ShapeHeaders(p, Some(shape))) == Some(BoxOf(shape.cs))
  {
    var headers := ShapeHeaders(p, Some(shape));
    assert Header(headers, BBOX_KEY) == Some(BoxText(p, BoxOf(shape.cs)));
    BoxTextRoundTrip(p, BoxOf(shape.cs));
    OrderedBoxOf(shape.cs);
  }

  lemma StoredRingReadsBack(p: Platform, shape: Shape, payload: string)
    requires Lawful(p) && StorableShape(shape) && shape.Ring?
    ensures CandidatePolygon(p, ShapeHeaders(p, Some(shape)), payload) == Some(shape.cs)
    ensures CandidateCloud(p, ShapeHeaders(p, Some(shape))) == None
  {
    var headers := ShapeHeaders(p, Some(shape));
    assert Header(headers, GEOMETRY_KEY) == Some(p.printJson(CoordinatesJson(shape.cs)));
    assert Header(headers, POINT_CLOUD_KEY) == None;
    PolygonTextRoundTrip(p, shape.cs);
  }

  lemma StoredCloudReadsBack(p: Platform, shape: Shape)
    requires Lawful(p) && StorableShape(shape) && shape.Cloud?
    ensures CandidateCloud(p, ShapeHeaders(p, Some(shape))) == Some(shape.cs)
    ensures Header(ShapeHeaders(p, Some(shape)), GEOMETRY_KEY) == None
  {
    var headers := ShapeHeaders(p, Some(shape));
    assert Header(headers, POINT_CLOUD_KEY) == Some(p.printJson(CoordinatesJson(shape.cs)));
    assert Reprintable(p, CoordinatesJson(shape.cs));
    ParseCanonicalItems(shape.cs);
  }

  /**
   * What the bounding boxes do to the answer for a stored shape: they only ever take answers away, and
   * those are a requested point beside a stored cloud's box, and a requested polygon whose box is apart
   * from the stored polygon's. So they change nothing exactly when plain geometry implies the boxes.
   */
  lemma PrefilterKeepsAnswer(p: Platform, request: map<string, string>, shape: Shape, payload: string)
    requires Lawful(p) && StorableShape(shape)
    ensures var filter := PrepareSpatialFilter(p, request);
            var answer := MatchesSpatialFilters(p, request, filter, ShapeHeaders(p, Some(shape)), payload);
            && (answer <==> PlainAnswer(p, request, shape, payload) && BoxesAdmit(p, request, shape))
            && (answer == PlainAnswer(p, request, shape, payload) <==>
                (PlainAnswer(p, request, shape, payload) ==> BoxesAdmit(p, request, shape)))
  {
    if shape.Ring? {
      RingPrefilter(p, request, shape, payload);
    } else {
      StoredCloudPrefilter(p, request, shape, payload);
    }
  }

  lemma RingPrefilter(p: Platform, request: map<string, string>, shape: Shape, payload: string)
    requires Lawful(p) && StorableShape(shape) && shape.Ring?
    ensures MatchesSpatialFilters(p, request, PrepareSpatialFilter(p, request), ShapeHeaders(p, Some(shape)), payload)
            <==> PlainAnswer(p, request, shape, payload) && BoxesAdmit(p, request, shape)
  {
    StoredBoxReadsBack(p, shape);
    StoredRingReadsBack(p, shape, payload);
    if "point" in request {
      var point := ParsePointText(p, request["point"]);
      if point.Some? && Contains(p.fill, shape.cs, point.value) {
        PolygonInBox(p.fill, shape.cs, point.value);
      }
    }
  }

  lemma StoredCloudPrefilter(p: Platform, request: map<string, string>, shape: Shape, payload: string)
    requires Lawful(p) && StorableShape(shape) && shape.Cloud?
    ensures MatchesSpatialFilters(p, request, PrepareSpatialFilter(p, request), ShapeHeaders(p, Some(shape)), payload)
            <==> PlainAnswer(p, request, shape, payload) && BoxesAdmit(p, request, shape)
  {
    StoredBoxReadsBack(p, shape);
    StoredCloudReadsBack(p, shape);
    assert CandidatePolygon(p, ShapeHeaders(p, Some(shape)), payload) == PayloadPolygon(p, payload);
    if PrepareSpatialFilter(p, request).Some? {
      CloudPrefilter(p, PrepareSpatialFilter(p, request).value.ring, shape.cs);
    }
  }

  lemma CloudPrefilter(p: Platform, ring: seq<Coordinate>, cloud: seq<Coordinate>)
    requires ring != [] && cloud != []
    ensures (exists i :: 0 <= i < |cloud| && Touches(p.fill, ring, cloud[i])) ==>
            BoxesIntersect(BoxOf(cloud), BoxOf(Closed(ring)))
  {
    if i :| 0 <= i < |cloud| && Touches(p.fill, ring, cloud[i]) {
      PolygonInBox(p.fill, ring, cloud[i]);
      ClosedBox(ring);
      BoxIsTight(cloud);
      SharedPoint(BoxOf(cloud), BoxOf(ring), cloud[i]);
    }
  }
}
