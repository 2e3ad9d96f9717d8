/** Polygon, point and point-cloud values (aviso-validators: coordinate, polygon, point, point_cloud). */
module Shapes {
  import opened Wrappers
  import opened Text
  import opened Json
  import opened Platform
  import opened Scalars

  const HARD_MAX_POINTS: nat := 10_000
  const MAX_SERIALIZED_POINT_CLOUD_BYTES: nat := 60 * 1024

  predicate ValidCoordinate(c: Coordinate) {
    Whole(-90) <= c.lat <= Whole(90) && Whole(-180) <= c.lon <= Whole(180)
  }

  predicate AllValid(cs: seq<Coordinate>) { forall i :: 0 <= i < |cs| ==> ValidCoordinate(cs[i]) }

  function Component(value: Json): Option<F64> {
    match value
    case Num(Integer(i)) => Some(Whole(i))
    case Num(Float(f)) => Some(f)
    case _ => None
  }

  function CheckedCoordinate(c: Coordinate): Option<Coordinate> {
    if ValidCoordinate(c) then Some(c) else None
  }

  function ParseCoordinate(value: Json): Option<Coordinate> {
    if !value.Array? || |value.items| != 2 then None
    else
      var lat, lon := Component(value.items[0]), Component(value.items[1]);
      if lat.None? || lon.None? then None else CheckedCoordinate(Coordinate(lat.value, lon.value))
  }

  function ParseCoordinates(items: seq<Json>): (r: Option<seq<Coordinate>>)
    ensures r.Some? ==> |r.value| == |items| && AllValid(r.value)
  {
    if items == [] then Some([])
    else
      match (ParseCoordinate(items[0]), ParseCoordinates(items[1..]))
      case (Some(first), Some(rest)) => Some([first] + rest)
      case _ => None
  }

  /** Canonical JSON of coordinates, each of them checked once more. */
  function CoordinatesToJson(cs: seq<Coordinate>): Option<Json> {
    if AllValid(cs) then Some(CoordinatesJson(cs)) else None
  }

  lemma {:induction false} ParseCanonicalItems(cs: seq<Coordinate>)
    requires AllValid(cs)
    ensures ParseCoordinates(CoordinateItems(cs)) == Some(cs)
  {
    if cs != [] {
      ParseCanonicalItems(cs[1..]);
      assert cs == [cs[0]] + cs[1..];
      assert ParseCoordinate(CoordinateJson(cs[0])) == Some(cs[0]);
    }
  }

  // ---- polygons -----------------------------------------------------------------------------

  function NumberPair(p: Platform, latText: string, lonText: string): Option<Coordinate> {
    match (p.parseF64(Trim(latText)), p.parseF64(Trim(lonText)))
    case (Some(lat), Some(lon)) => CheckedCoordinate(Coordinate(lat, lon))
    case _ => None
  }

  /** Consecutive latitude and longitude texts, read pair by pair. */
  function PairsOf(p: Platform, parts: seq<string>): (r: Option<seq<Coordinate>>)
    ensures r.Some? ==> AllValid(r.value) && 2 * |r.value| == |parts|
  {
    if parts == [] then Some([])
    else if |parts| == 1 then None
    else
      match (NumberPair(p, parts[0], parts[1]), PairsOf(p, parts[2..]))
      case (Some(first), Some(rest)) => Some([first] + rest)
      case _ => None
  }

  function Prefixed(head: seq<Coordinate>, rest: Option<seq<Coordinate>>): Option<seq<Coordinate>> {
    if rest.Some? then Some(head + rest.value) else None
  }

  /** The loop over coordinate texts, stopping at the first pair that is not a coordinate. */
  method ParsePairs(p: Platform, parts: seq<string>) returns (r: Option<seq<Coordinate>>)
    ensures r == PairsOf(p, parts)
  {
    var coordinates: seq<Coordinate> := [];
    var i := 0;
    assert parts[0..] == parts && forall cs: seq<Coordinate> :: [] + cs == cs;
    while i < |parts|
      invariant 0 <= i <= |parts|
      invariant PairsOf(p, parts) == Prefixed(coordinates, PairsOf(p, parts[i..]))
    {
      ghost var rest := parts[i..];
      if i + 1 == |parts| {
        return None;
      }
      var pair := NumberPair(p, parts[i], parts[i + 1]);
      if pair.None? {
        return None;
      }
      assert rest[2..] == parts[i + 2..];
      assert forall cs: seq<Coordinate> :: coordinates + ([pair.value] + cs) == (coordinates + [pair.value]) + cs;
      coordinates := coordinates + [pair.value];
      i := i + 2;
    }
    assert coordinates + [] == coordinates;
    r := Some(coordinates);
  }

  function ParsePolygonText(p: Platform, text: string): (r: Option<seq<Coordinate>>)
    ensures r.Some? ==> AllValid(r.value)
  {
    var raw := Trim(text);
    if raw == [] then None
    else if raw[0] == '[' then
      match p.parseJson(raw)
      case Some(Array(items)) => ParseCoordinates(items)
      case _ => None
    else if (raw[0] == '(') != (raw[|raw| - 1] == ')') then None
    else
      var inner := if raw[0] == '(' then raw[1..|raw| - 1] else raw;
      var body := Trim(inner);
      if '(' in inner || ')' in inner || body == [] then None
      else
        var parts := Split(body, ',');
        if |parts| % 2 != 0 then None else PairsOf(p, parts)
  }

  function ParsePolygonValue(p: Platform, value: Json): (r: Option<seq<Coordinate>>)
    ensures r.Some? ==> AllValid(r.value)
  {
    match value
    case Array(items) => ParseCoordinates(items)
    case Str(text) => ParsePolygonText(p, text)
    case _ => None
  }

  predicate ClosedRing(cs: seq<Coordinate>) { |cs| >= 4 && cs[0] == cs[|cs| - 1] }

  /** The coordinates of an acceptable polygon value. */
  function ValidatePolygon(p: Platform, value: Json): (r: Option<seq<Coordinate>>)
    ensures r.Some? ==> AllValid(r.value) && ClosedRing(r.value)
  {
    var cs := ParsePolygonValue(p, value);
    if cs.Some? && ClosedRing(cs.value) then cs else None
  }

  /** Printed canonical coordinates read back as the same coordinates, in order and with repeats. */
  lemma PolygonTextRoundTrip(p: Platform, cs: seq<Coordinate>)
    requires Lawful(p) && AllValid(cs)
    ensures ParsePolygonText(p, p.printJson(CoordinatesJson(cs))) == Some(cs)
    ensures p.printJson(CoordinatesJson(cs)) != "*" && p.printJson(CoordinatesJson(cs)) != ""
  {
    var text := p.printJson(CoordinatesJson(cs));
    assert Reprintable(p, CoordinatesJson(cs));
    TrimmedIsTrim(text);
    ParseCanonicalItems(cs);
  }

  lemma TrimmedIsTrim(text: string)
    requires text != [] && IsTrimmed(text)
    ensures Trim(text) == text
  {
    TrimPadded([], text, []);
    assert [] + text + [] == text;
  }

  // ---- point clouds -------------------------------------------------------------------------

  function ParseCloud(value: Json, maxPoints: nat): (r: Result<seq<Coordinate>, FieldError>)
    ensures r.Success? ==> 1 <= |r.value| <= maxPoints <= HARD_MAX_POINTS && AllValid(r.value)
  {
    if maxPoints == 0 || maxPoints > HARD_MAX_POINTS then Failure(BadPointLimit)
    else if !value.Array? then Failure(BadGeometry)
    else if value.items == [] then Failure(EmptyValue)
    else if |value.items| > maxPoints then Failure(TooManyPoints)
    else match ParseCoordinates(value.items)
      case Some(cs) => Success(cs)
      case None => Failure(BadGeometry)
  }

  /** The coordinates of an acceptable cloud, whose canonical text must also fit in a header. */
  function ValidateCloud(p: Platform, value: Json, maxPoints: nat): (r: Result<seq<Coordinate>, FieldError>)
    ensures r.Success? ==> 1 <= |r.value| <= maxPoints <= HARD_MAX_POINTS && AllValid(r.value)
    ensures r.Success? ==> ByteLength(p.printJson(CoordinatesJson(r.value))) <= MAX_SERIALIZED_POINT_CLOUD_BYTES
  {
    var cs :- ParseCloud(value, maxPoints);
    if ByteLength(p.printJson(CoordinatesJson(cs))) > MAX_SERIALIZED_POINT_CLOUD_BYTES then Failure(TooManyBytes)
    else Success(cs)
  }

  /** A cloud that was accepted once is accepted again from its canonical JSON, whatever the configured limit was. */
  lemma CloudRevalidates(p: Platform, value: Json, maxPoints: nat)
    requires ValidateCloud(p, value, maxPoints).Success?
    ensures var cs := ValidateCloud(p, value, maxPoints).value;
            ParseCloud(CoordinatesJson(cs), HARD_MAX_POINTS) == Success(cs)
            && ValidateCloud(p, CoordinatesJson(cs), HARD_MAX_POINTS) == Success(cs)
  {
    ParseCanonicalItems(ValidateCloud(p, value, maxPoints).value);
  }

  // ---- points -------------------------------------------------------------------------------

  function ParsePointText(p: Platform, text: string): (r: Option<Coordinate>)
    ensures r.Some? ==> ValidCoordinate(r.value)
  {
    var trimmed := Trim(text);
    if trimmed == [] then None
    else if trimmed[0] == '[' then
      match p.parseJson(trimmed)
      case Some(value) => ParseCoordinate(value)
      case None => None
    else
      var inner := if |trimmed| >= 2 && trimmed[0] == '(' && trimmed[|trimmed| - 1] == ')'
                   then trimmed[1..|trimmed| - 1] else trimmed;
      var parts := Split(Trim(inner), ',');
      if |parts| != 2 then None else NumberPair(p, parts[0], parts[1])
  }

  function ParsePointValue(p: Platform, value: Json): (r: Option<Coordinate>)
    ensures r.Some? ==> ValidCoordinate(r.value)
  {
    match value
    case Array(_) => ParseCoordinate(value)
    case Str(text) => ParsePointText(p, text)
    case _ => None
  }

  lemma PointTextRoundTrip(p: Platform, c: Coordinate)
    requires Lawful(p) && ValidCoordinate(c)
    ensures ParsePointText(p, p.printJson(CoordinateJson(c))) == Some(c)
  {
    var text := p.printJson(CoordinateJson(c));
    assert Reprintable(p, CoordinateJson(c));
    TrimmedIsTrim(text);
  }

  // ---- which values are accepted ------------------------------------------------------------

  /** A JSON number of this value. */
  predicate IsNumber(value: Json, v: F64) {
    value == Num(Float(v)) || (value.Num? && value.number.Integer? && Whole(value.number.i) == v)
  }

  lemma {:induction false} UnitsPositive(n: nat)
    ensures Pow2(n) > 0
  {
    if n > 0 {
      UnitsPositive(n - 1);
    }
  }

  lemma AtLeastOnce(n: int, unit: nat)
    requires n > 0
    ensures n * unit >= unit
  {
    assert n * unit == (n - 1) * unit + unit && (n - 1) * unit >= 0;
  }

  lemma ScaledOrder(a: int, b: int, unit: nat)
    requires unit > 0
    ensures a * unit <= b * unit <==> a <= b
  {
    if a < b {
      AtLeastOnce(b - a, unit);
      assert (b - a) * unit == b * unit - a * unit;
    } else if a > b {
      AtLeastOnce(a - b, unit);
      assert (a - b) * unit == a * unit - b * unit;
    }
  }

  lemma WholeOrder(a: int, b: int)
    ensures Whole(a) <= Whole(b) <==> a <= b
  {
    UnitsPositive(SUBNORMAL_BITS);
    ScaledOrder(a, b, Pow2(SUBNORMAL_BITS));
  }

  /** A coordinate is two numbers, the latitude first. */
  lemma CoordinateAccepted(value: Json, c: Coordinate)
    ensures ParseCoordinate(value) == Some(c) <==>
            value.Array? && |value.items| == 2 && IsNumber(value.items[0], c.lat) && IsNumber(value.items[1], c.lon)
            && ValidCoordinate(c)
  {
  }

  /** In whole degrees: the latitude within 90, the longitude within 180. */
  lemma DegreesAccepted(lat: int, lon: int)
    ensures ParseCoordinate(Array([Num(Integer(lat)), Num(Integer(lon))])).Some? <==>
            -90 <= lat <= 90 && -180 <= lon <= 180
  {
    WholeOrder(-90, lat);
    WholeOrder(lat, 90);
    WholeOrder(-180, lon);
    WholeOrder(lon, 180);
    var value := Array([Num(Integer(lat)), Num(Integer(lon))]);
    assert Component(value.items[0]) == Some(Whole(lat)) && Component(value.items[1]) == Some(Whole(lon));
  }

  lemma {:induction false} ItemsAccepted(items: seq<Json>, cs: seq<Coordinate>)
    ensures ParseCoordinates(items) == Some(cs) <==>
            |cs| == |items| && forall i :: 0 <= i < |items| ==> ParseCoordinate(items[i]) == Some(cs[i])
  {
    if items == [] {
    } else if cs == [] {
      assert ParseCoordinates(items).Some? ==> |ParseCoordinates(items).value| > 0;
    } else {
      ItemsAccepted(items[1..], cs[1..]);
      assert cs == [cs[0]] + cs[1..];
      assert forall i :: 0 < i < |items| && i < |cs| ==> items[i] == items[1..][i - 1] && cs[i] == cs[1..][i - 1];
      if ParseCoordinates(items) == Some(cs) {
        var first, rest := ParseCoordinate(items[0]).value, ParseCoordinates(items[1..]).value;
        assert cs == [first] + rest && cs[0] == first && cs[1..] == rest;
      }
    }
  }

  /** An array is an accepted polygon exactly when it is four coordinates or more, the last one like the first. */
  lemma PolygonAccepted(p: Platform, items: seq<Json>, cs: seq<Coordinate>)
    ensures ValidatePolygon(p, Array(items)) == Some(cs) <==>
            && |cs| == |items| >= 4 && cs[|cs| - 1] == cs[0]
            && forall i :: 0 <= i < |items| ==> ParseCoordinate(items[i]) == Some(cs[i])
  {
    ItemsAccepted(items, cs);
  }

  /** An array is an accepted cloud exactly when it is one coordinate to the limit, in at most 61440 bytes. */
  lemma CloudAccepted(p: Platform, items: seq<Json>, maxPoints: nat, cs: seq<Coordinate>)
    ensures ValidateCloud(p, Array(items), maxPoints) == Success(cs) <==>
            && 1 <= |cs| == |items| <= maxPoints <= 10_000
            && (forall i :: 0 <= i < |items| ==> ParseCoordinate(items[i]) == Some(cs[i]))
            && ByteLength(p.printJson(CoordinatesJson(cs))) <= 61440
  {
    ItemsAccepted(items, cs);
  }
}
