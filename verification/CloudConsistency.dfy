/**
 * Stored point clouds under accepted settings: a polygon asked of them, and a point asked under the
 * base name, where the cloud's bounding box shows.
 */
module CloudConsistency {
  import opened Wrappers
  import opened Text
  import opened Scalars
  import opened Json
  import opened Platform
  import opened Schema
  import opened Shapes
  import opened Topics
  import opened Spatial
  import opened Validation
  import opened Processor
  import opened WildcardMatcher
  import opened Delivery
  import opened GenericDelivery
  import opened Results
  import opened Audience
  import opened Consistency
  import Geometry
  import Utf8

  // ---- the settings -------------------------------------------------------------------------

  /** A place and a cloud; the topic routes on the place, under another base than the event type's name. */
  const SWARM := EventSchema(false, Some(TopicConfig("swarmbase", ["place"])),
                             map["place" := StringRule(None, true), "point_cloud" := PointCloudRule(10, false)],
                             None, [])

  const SWARMS: Schemas := map["swarm" := SWARM]

  ghost predicate IsSwarm(schema: EventSchema) {
    && schema.identifier.Keys == {"place", "point_cloud"} && !schema.payloadRequired
    && schema.identifier["place"] == StringRule(None, true)
    && schema.identifier["point_cloud"] == PointCloudRule(10, false)
    && schema.topic == Some(TopicConfig("swarmbase", ["place"]))
  }

  lemma SwarmSchema()
    ensures IsSwarm(SWARM)
  {
    assert |"place"| != |"point_cloud"|;
  }

  lemma SwarmAcceptable(schema: EventSchema)
    requires IsSwarm(schema)
    ensures TopicAccepted(schema) && SpatialAccepted(schema) && ValidBase(RoutingBase("swarm", schema))
  {
    var order := schema.topic.value.keyOrder;
    assert order[0] == "place" && forall k :: k in order <==> k == "place";
    assert |"place"| != |"point_cloud"| && |"place"| != |"polygon"| && |"point_cloud"| != |"polygon"|;
    assert CloudKeys(schema) == {"point_cloud"};
  }

  lemma SwarmsAccepted()
    ensures RoutingAccepted(SWARMS) && "swarm" in SWARMS && SWARMS["swarm"] == SWARM && IsSwarm(SWARM)
    ensures "swarmbase" !in SWARMS && BaseOf(SWARMS, "swarm") == "swarmbase"
  {
    SwarmSchema();
    SwarmAcceptable(SWARM);
    assert |"swarm"| != |"swarmbase"|;
  }

  const ORIGIN := Coordinate(0, 0)

  const CLOUD := [ORIGIN]

  predicate CloudFits(p: Platform) {
    ByteLength(p.printJson(CoordinatesJson(CLOUD))) <= MAX_SERIALIZED_POINT_CLOUD_BYTES
  }

  function SwarmSent(place: string): Request {
    map["place" := Str(place), "point_cloud" := CoordinatesJson(CLOUD)]
  }

  lemma CloudAccepted(p: Platform)
    requires Lawful(p) && CloudFits(p)
    ensures ValidateCloud(p, CoordinatesJson(CLOUD), 10) == Success(CLOUD)
    ensures NotifyField(p, CoordinatesJson(CLOUD), PointCloudRule(10, false))
            == Success(FieldValue(p.printJson(CoordinatesJson(CLOUD)), Some(Cloud(CLOUD))))
  {
    Pow2AtLeastOne(SUBNORMAL_BITS);
    ParseCanonicalItems(CLOUD);
  }

  lemma SwarmRead(p: Platform, schema: EventSchema, place: string)
    requires Lawful(p) && CloudFits(p) && place != [] && IsSwarm(schema)
    ensures var request := SwarmSent(place);
            && NotifyAccepts(p, schema, request, false) && NotifyAccepts(p, schema, request, true)
            && NotifyParams(p, schema, request)["place"] == place
            && var field := NotifyField(p, request["point_cloud"], schema.identifier["point_cloud"]);
               field.Success? && field.value.shape == Some(Cloud(CLOUD))
  {
    var request := SwarmSent(place);
    assert |"place"| != |"point_cloud"| && request.Keys == {"place", "point_cloud"};
    TextAccepted(p, place, true);
    CloudAccepted(p);
    TwoFieldsSent(p, schema, request, "place", FieldValue(place, None),
                  "point_cloud", FieldValue(p.printJson(CoordinatesJson(CLOUD)), Some(Cloud(CLOUD))));
  }

  lemma SwarmShape(p: Platform, schema: EventSchema, place: string)
    requires Lawful(p) && CloudFits(p) && place != [] && IsSwarm(schema)
    ensures NotifyAccepts(p, schema, SwarmSent(place), true)
    ensures ProducerShape(p, schema, SwarmSent(place)) == Some(Cloud(CLOUD))
  {
    SwarmRead(p, schema, place);
    assert |"polygon"| != |"place"| && |"polygon"| != |"point_cloud"|;
  }

  lemma SwarmNotified(p: Platform, place: string) returns (n: ProcessingResult)
    requires Lawful(p) && CloudFits(p) && place != []
    ensures IsNotifyResult(p, "swarm", SWARM, SwarmSent(place), false, n)
    ensures n.params.Keys == SWARM.identifier.Keys && n.params["place"] == place
    ensures ProducerShape(p, SWARM, SwarmSent(place)) == Some(Cloud(CLOUD))
  {
    SwarmsAccepted();
    SwarmRead(p, SWARM, place);
    SwarmShape(p, SWARM, place);
    n := NotifyResult(p, "swarm", SWARM, SwarmSent(place), false);
  }

  // ---- a polygon asked of a cloud -----------------------------------------------------------

  predicate ProperBox(box: Geometry.Box) {
    && box.minLat < box.maxLat && box.minLon < box.maxLon
    && ValidCoordinate(Coordinate(box.minLat, box.minLon)) && ValidCoordinate(Coordinate(box.maxLat, box.maxLon))
  }

  function SwarmAsked(place: string, box: Geometry.Box): Request {
    map["place" := Str(place), "polygon" := CoordinatesJson(Geometry.RectangleRing(box))]
  }

  lemma BoxRing(p: Platform, box: Geometry.Box)
    requires Lawful(p) && ProperBox(box)
    ensures var ring := Geometry.RectangleRing(box);
            AllValid(ring) && ClosedRing(ring) && ValidatePolygon(p, CoordinatesJson(ring)) == Some(ring)
  {
    ParseCanonicalItems(Geometry.RectangleRing(box));
  }

  lemma SwarmRequest(p: Platform, schema: EventSchema, place: string, box: Geometry.Box)
    requires Lawful(p) && place != [] && ProperBox(box) && IsSwarm(schema)
    ensures StreamAccepts(p, schema, SwarmAsked(place, box))
    ensures StreamConstraints(p, schema, SwarmAsked(place, box)) == map[]
    ensures StreamParams(p, schema, SwarmAsked(place, box)) ==
            map["place" := place, "point_cloud" := "*",
                "polygon" := p.printJson(CoordinatesJson(Geometry.RectangleRing(box)))]
  {
    var request := SwarmAsked(place, box);
    SwarmKeys(place, box);
    TextAccepted(p, place, true);
    BoxRing(p, box);
    assert schema.identifier["point_cloud"].PointCloudRule?;
    assert HasCloud(schema) && IsSpatialFilter(schema, "polygon");
    TwoFields(p, schema, request, "place", Fixed(place), "point_cloud", Anything);
  }

  lemma SwarmKeys(place: string, box: Geometry.Box)
    ensures SwarmAsked(place, box).Keys == {"place", "polygon"} && SwarmAsked(place, box)["place"] == Str(place)
    ensures "point" !in SwarmAsked(place, box) && "point_cloud" !in SwarmAsked(place, box)
    ensures "place" != "point_cloud" && "polygon" != "place" && "polygon" != "point_cloud"
  {
    assert |"place"| != |"polygon"| && |"place"| != |"point_cloud"| && |"polygon"| != |"point_cloud"|;
    assert "place"[1] != "point"[1] && |"polygon"| != |"point"|;
  }

  lemma SwarmWatched(p: Platform, place: string, box: Geometry.Box) returns (w: ProcessingResult)
    requires Lawful(p) && place != [] && ProperBox(box)
    ensures IsStreamResult(p, "swarm", SWARM, SwarmAsked(place, box), w) && w.constraints == map[]
    ensures w.params == map["place" := place, "point_cloud" := "*",
                            "polygon" := p.printJson(CoordinatesJson(Geometry.RectangleRing(box)))]
  {
    SwarmsAccepted();
    SwarmRequest(p, SWARM, place, box);
    w := StreamResult(p, "swarm", SWARM, SwarmAsked(place, box));
  }

  lemma CloudInBox(p: Platform, place: string, box: Geometry.Box)
    requires Lawful(p) && ProperBox(box)
    ensures var ring := p.printJson(CoordinatesJson(Geometry.RectangleRing(box)));
            PlainAnswer(p, map["place" := place, "point_cloud" := "*", "polygon" := ring], Cloud(CLOUD), "") <==>
            Geometry.InBox(box, ORIGIN)
  {
    SwarmKeys(place, box);
    BoxRing(p, box);
    PolygonTextRoundTrip(p, Geometry.RectangleRing(box));
    Geometry.RectangleRegion(p.fill, box, ORIGIN);
    assert CLOUD[0] == ORIGIN;
    assert "point"[1] != "place"[1] && |"point"| != |"polygon"| && |"point"| != |"point_cloud"|;
  }

  lemma SwarmAgreement(schema: EventSchema, given: Params, wanted: Params)
    requires IsSwarm(schema) && given.Keys == schema.identifier.Keys <= wanted.Keys
    ensures FieldsAgree(schema, wanted, given) <==> wanted["place"] == "*" || wanted["place"] == given["place"]
  {
    assert "place" in schema.identifier && |"place"| != |"polygon"| && |"place"| != |"point_cloud"|;
  }

  /** A stored cloud reaches who asks for its place, or any, and for a rectangle with a point of the cloud. */
  lemma SwarmReaches(p: Platform, given: string, wanted: string, box: Geometry.Box)
    returns (n: ProcessingResult, w: ProcessingResult)
    requires Lawful(p) && CloudFits(p) && given != [] && wanted != [] && ProperBox(box)
    ensures IsNotifyResult(p, "swarm", SWARM, SwarmSent(given), false, n)
    ensures IsStreamResult(p, "swarm", SWARM, SwarmAsked(wanted, box), w)
    ensures Delivered(p, SWARMS, n.topic, StoredWith(n), "", w) <==>
            (wanted == "*" || wanted == given) && Geometry.InBox(box, ORIGIN)
  {
    SwarmsAccepted();
    n := SwarmNotified(p, given);
    w := SwarmWatched(p, wanted, box);
    StoredDelivery(p, SWARMS, "swarm", SWARM, SwarmSent(given), n, SwarmAsked(wanted, box), w, Cloud(CLOUD));
    SwarmAgreement(SWARM, n.params, w.params);
    CloudInBox(p, wanted, box);
  }

  // ---- a point asked of a cloud -------------------------------------------------------------

  /** One degree around the origin. */
  const AROUND := Geometry.Box(Whole(-1), Whole(-1), Whole(1), Whole(1))

  const PAYLOAD := "payload"

  /** A platform under which one payload carries a polygon. */
  ghost function PayloadPlatform(): Platform {
    var q := SomePlatform();
    var ring := Str(q.printJson(CoordinatesJson(Geometry.RectangleRing(AROUND))));
    q.(parseJson := (s: string) => if s == PAYLOAD then Some(Object([(GEOMETRY_KEY, ring)])) else q.parseJson(s))
  }

  lemma StillReprintable(j: Json)
    requires Reprintable(SomePlatform(), j)
    ensures Reprintable(PayloadPlatform(), j)
  {
    assert PAYLOAD[0] != '[';
  }

  lemma PayloadPrinted()
    requires Lawful(SomePlatform())
    ensures forall c :: Reprintable(PayloadPlatform(), CoordinateJson(c))
    ensures forall cs :: Reprintable(PayloadPlatform(), CoordinatesJson(cs))
  {
    forall c ensures Reprintable(PayloadPlatform(), CoordinateJson(c)) {
      assert Reprintable(SomePlatform(), CoordinateJson(c));
      StillReprintable(CoordinateJson(c));
    }
    forall cs ensures Reprintable(PayloadPlatform(), CoordinatesJson(cs)) {
      assert Reprintable(SomePlatform(), CoordinatesJson(cs));
      StillReprintable(CoordinatesJson(cs));
    }
  }

  lemma PayloadPlatformLawful()
    ensures Lawful(PayloadPlatform())
  {
    LawfulPlatformExists();
    PayloadPrinted();
    SameNumbers(SomePlatform(), PayloadPlatform());
  }

  lemma SameNumbers(q: Platform, p: Platform)
    requires Lawful(q) && p == q.(parseJson := p.parseJson)
    requires forall c :: Reprintable(p, CoordinateJson(c))
    requires forall cs :: Reprintable(p, CoordinatesJson(cs))
    ensures Lawful(p)
  {
    forall x ensures ReprintableNumber(p, x) {
      assert ReprintableNumber(q, x);
    }
  }

  lemma PayloadRing()
    ensures Lawful(PayloadPlatform())
    ensures PayloadPolygon(PayloadPlatform(), PAYLOAD) == Some(Geometry.RectangleRing(AROUND))
  {
    PayloadPlatformLawful();
    AroundProper();
    BoxRing(PayloadPlatform(), AROUND);
    PolygonTextRoundTrip(PayloadPlatform(), Geometry.RectangleRing(AROUND));
    PayloadMember(Geometry.RectangleRing(AROUND));
  }

  lemma PayloadMember(ring: seq<Coordinate>)
    requires ring == Geometry.RectangleRing(AROUND)
    ensures PayloadPolygon(PayloadPlatform(), PAYLOAD)
            == ParsePolygonText(PayloadPlatform(), PayloadPlatform().printJson(CoordinatesJson(ring)))
  {
    var text := Str(SomePlatform().printJson(CoordinatesJson(ring)));
    assert PayloadPlatform().parseJson(PAYLOAD) == Some(Object([(GEOMETRY_KEY, text)]));
    assert Lookup([(GEOMETRY_KEY, text)], GEOMETRY_KEY) == Some(text);
  }

  lemma AroundProper()
    ensures ProperBox(AROUND) && Geometry.InsideBox(AROUND, ORIGIN)
  {
    Pow2AtLeastOne(SUBNORMAL_BITS);
  }

  lemma CloudText()
    ensures CloudFits(PayloadPlatform())
  {
    PrintedList(CLOUD);
    assert Numbers(CLOUD) == ["0", "0"];
    var texts := ["l"] + Numbers(CLOUD);
    assert texts == ["l", "0", "0"] && texts[1..] == ["0", "0"] && texts[1..][1..] == ["0"];
    assert Join(["0"], ',') == "0" && Join(["0", "0"], ',') == "0,0";
    assert Join(texts, ',') == "l,0,0";
    assert Marked("l", CLOUD) == "[l,0,0]";
    assert SomePlatform().printJson(CoordinatesJson(CLOUD)) == "[l,0,0]";
    EncodedLength("[l,0,0]");
  }

  lemma {:induction false} EncodedLength(text: string)
    ensures |Utf8.Encode(text)| <= 4 * |text|
  {
    if text != [] {
      EncodedLength(text[1..]);
    }
  }

  /**
   * Where the bounding box of a cloud shows: a payload polygon holds the point that a subscriber under
   * the base name asks for, and yet only the point of the cloud itself is delivered.
   */
  lemma PointBesideCloud(c: Coordinate) returns (p: Platform, n: ProcessingResult, w: ProcessingResult)
    requires ValidCoordinate(c) && Geometry.InsideBox(AROUND, c)
    ensures Lawful(p) && RoutingAccepted(SWARMS) && PayloadPolygon(p, PAYLOAD) == Some(Geometry.RectangleRing(AROUND))
    ensures var text := p.printJson(CoordinateJson(c));
            && IsNotifyResult(p, "swarm", SWARM, SwarmSent(text), false, n)
            && IsSubscription(p, SWARMS, false, "swarmbase", OneField("point", text), Watch, w)
            && PayloadHoldsPoint(p, text, PAYLOAD)
    ensures Delivered(p, SWARMS, n.topic, StoredWith(n), PAYLOAD, w) <==> c == ORIGIN
  {
    p := PayloadPlatform();
    PayloadRing();
    CloudText();
    SwarmsAccepted();
    n, w := PointAsked(p, c);
  }

  lemma PointAsked(p: Platform, c: Coordinate) returns (n: ProcessingResult, w: ProcessingResult)
    requires Lawful(p) && CloudFits(p) && PayloadPolygon(p, PAYLOAD) == Some(Geometry.RectangleRing(AROUND))
    requires ValidCoordinate(c) && Geometry.InsideBox(AROUND, c)
    ensures var text := p.printJson(CoordinateJson(c));
            && IsNotifyResult(p, "swarm", SWARM, SwarmSent(text), false, n)
            && IsSubscription(p, SWARMS, false, "swarmbase", OneField("point", text), Watch, w)
            && PayloadHoldsPoint(p, text, PAYLOAD)
    ensures Delivered(p, SWARMS, n.topic, StoredWith(n), PAYLOAD, w) <==> c == ORIGIN
  {
    var text := p.printJson(CoordinateJson(c));
    assert Reprintable(p, CoordinateJson(c));
    SwarmsAccepted();
    PointHeld(p, c);
    n := SwarmNotified(p, text);
    w := PointOfCloud(p, SWARMS, "swarm", SwarmSent(text), false, n, Cloud(CLOUD), "place", PAYLOAD);
    OriginBox(c);
  }

  lemma PointHeld(p: Platform, c: Coordinate)
    requires Lawful(p) && PayloadPolygon(p, PAYLOAD) == Some(Geometry.RectangleRing(AROUND))
    requires ValidCoordinate(c) && Geometry.InsideBox(AROUND, c)
    ensures ParsePointText(p, p.printJson(CoordinateJson(c))) == Some(c)
    ensures PayloadHoldsPoint(p, p.printJson(CoordinateJson(c)), PAYLOAD)
  {
    PointTextRoundTrip(p, c);
    AroundProper();
    Geometry.RectangleRegion(p.fill, AROUND, c);
  }

  lemma OriginBox(c: Coordinate)
    ensures Geometry.InBox(Geometry.BoxOf(CLOUD), c) <==> c == ORIGIN
  {
    Geometry.BoxIsTight(CLOUD);
    assert CLOUD[0] in CLOUD;
  }
}
