/** Rebuilding a producer's identifier from a stored notification (src/cloudevents/mod.rs). */
module Recovery {
  import opened Wrappers
  import opened Text
  import opened Json
  import opened Platform
  import opened Schema
  import opened Shapes
  import opened TopicCodec
  import opened Topics
  import opened Spatial
  import opened Validation
  import opened Processor
  import opened WildcardMatcher
  import opened Delivery
  import opened GenericDelivery

  type Identifier = map<string, Json>

  datatype RecoveryError = BadBase | NoEventType | BadTopic | BadStoredPolygon | BadStoredCloud

  // ---- the rebuilt identifier ---------------------------------------------------------------

  function StoredPolygon(p: Platform, headers: Option<Headers>): Result<Option<Json>, RecoveryError> {
    match Header(headers, GEOMETRY_KEY)
    case None => Success(None)
    case Some(text) =>
      match ParsePolygonText(p, text)
      case None => Failure(BadStoredPolygon)
      case Some(cs) => if CoordinatesToJson(cs).Some? then Success(CoordinatesToJson(cs)) else Failure(BadStoredPolygon)
  }

  function StoredCloud(p: Platform, headers: Option<Headers>): Result<Option<Json>, RecoveryError> {
    match Header(headers, POINT_CLOUD_KEY)
    case None => Success(None)
    case Some(text) =>
      match p.parseJson(text)
      case None => Failure(BadStoredCloud)
      case Some(value) =>
        match ValidateCloud(p, value, HARD_MAX_POINTS)
        case Success(cs) => Success(Some(CoordinatesJson(cs)))
        case Failure(_) => Failure(BadStoredCloud)
  }

  /** The scalars of the subject as JSON strings, with stored geometry put in under its own field. */
  function Assembled(scalars: Params, polygon: Option<Json>, cloud: Option<Json>): Identifier {
    var texts: Identifier := map f | f in scalars :: Str(scalars[f]);
    var shaped := if polygon.Some? then texts["polygon" := polygon.value] else texts;
    if cloud.Some? then shaped["point_cloud" := cloud.value] else shaped
  }

  function Built(p: Platform, scalars: Params, headers: Option<Headers>): Result<Identifier, RecoveryError> {
    var polygon :- StoredPolygon(p, headers);
    var cloud :- StoredCloud(p, headers);
    Success(Assembled(scalars, polygon, cloud))
  }

  method BuildIdentifier(p: Platform, scalars: Params, headers: Option<Headers>)
    returns (r: Result<Identifier, RecoveryError>)
    ensures r == Built(p, scalars, headers)
  {
    var identifier: Identifier := map f | f in scalars :: Str(scalars[f]);
    if headers.Some? && GEOMETRY_KEY in headers.value {
      var coordinates := ParsePolygonText(p, headers.value[GEOMETRY_KEY]);
      if coordinates.None? {
        return Failure(BadStoredPolygon);
      }
      var canonical := CoordinatesToJson(coordinates.value);
      if canonical.None? {
        return Failure(BadStoredPolygon);
      }
      identifier := identifier["polygon" := canonical.value];
    }
    if headers.Some? && POINT_CLOUD_KEY in headers.value {
      var value := p.parseJson(headers.value[POINT_CLOUD_KEY]);
      if value.None? {
        return Failure(BadStoredCloud);
      }
      var coordinates := ValidateCloud(p, value.value, HARD_MAX_POINTS);
      if coordinates.Failure? {
        return Failure(BadStoredCloud);
      }
      identifier := identifier["point_cloud" := CoordinatesJson(coordinates.value)];
    }
    r := Success(identifier);
  }

  /** What reading a stored notification may give, whichever way the schema map is walked. */
  ghost predicate IsRecovered(p: Platform, schemas: Schemas, topic: string, headers: Option<Headers>,
                              r: Result<Identifier, RecoveryError>)
  {
    match DecodeSubjectBase(topic)
    case Failure(_) => r == Failure(BadBase)
    case Success(base) =>
      exists e: Option<string> :: Resolves(schemas, base, e) && IsRecoveredFor(p, schemas, topic, headers, e, r)
  }

  ghost predicate IsRecoveredFor(p: Platform, schemas: Schemas, topic: string, headers: Option<Headers>,
                                 e: Option<string>, r: Result<Identifier, RecoveryError>)
    requires e.Some? ==> e.value in schemas
  {
    if e.None? then r == Failure(NoEventType)
    else match ParsedTopic(topic, schemas[e.value])
      case Failure(_) => r == Failure(BadTopic)
      case Success(scalars) => r == Built(p, scalars, headers)
  }

  method Recover(p: Platform, schemas: Schemas, topic: string, headers: Option<Headers>)
    returns (r: Result<Identifier, RecoveryError>)
    ensures IsRecovered(p, schemas, topic, headers, r)
  {
    var base := DecodeSubjectBase(topic);
    if base.Failure? {
      return Failure(BadBase);
    }
    var e := ResolveEventType(schemas, base.value);
    if e.None? {
      r := Failure(NoEventType);
      assert IsRecoveredFor(p, schemas, topic, headers, e, r);
      return;
    }
    var scalars := ParseTopic(topic, schemas[e.value]);
    if scalars.Failure? {
      r := Failure(BadTopic);
    } else {
      r := BuildIdentifier(p, scalars.value, headers);
    }
    assert IsRecoveredFor(p, schemas, topic, headers, e, r);
  }

  // ---- the round trip -----------------------------------------------------------------------

  /** The canonical identifier of a notify request: scalars as text, geometry as the producer's own coordinates. */
  function CanonicalIdentifier(p: Platform, schema: EventSchema, request: Request): (identifier: Identifier)
    requires NotifyAccepts(p, schema, request, true)
    ensures identifier.Keys == schema.identifier.Keys
  {
    map f | f in schema.identifier :: CanonicalValue(p, schema, request, f)
  }

  function CanonicalValue(p: Platform, schema: EventSchema, request: Request, f: string): Json
    requires NotifyAccepts(p, schema, request, true) && f in schema.identifier
  {
    var field := NotifyField(p, request[f], schema.identifier[f]);
    assert field.Success?;
    if field.value.shape.Some? then CoordinatesJson(field.value.shape.value.cs) else Str(field.value.text)
  }

  /** The fields whose value a subject cannot carry: an empty or '*' scalar reads back as an omitted field. */
  predicate Survives(p: Platform, schema: EventSchema, request: Request, f: string)
    requires NotifyAccepts(p, schema, request, true) && f in schema.identifier
  {
    schema.identifier[f].IsSpatial() || !IsOmitted(NotifyParams(p, schema, request)[f])
  }

  predicate AllSurvive(p: Platform, schema: EventSchema, request: Request)
    requires NotifyAccepts(p, schema, request, true)
  {
    forall f :: f in schema.identifier ==> Survives(p, schema, request, f)
  }

  function Surviving(p: Platform, schema: EventSchema, request: Request): Identifier
    requires NotifyAccepts(p, schema, request, true)
  {
    map f | f in schema.identifier && Survives(p, schema, request, f) :: CanonicalValue(p, schema, request, f)
  }

  /** Reading back the subject of a notify result resolves its own event type and yields its kept scalars. */
  lemma OwnTopicReadsBack(p: Platform, schemas: Schemas, eventType: string, notify: Request, payload: bool,
                          n: ProcessingResult)
    requires RoutingAccepted(schemas) && eventType in schemas && schemas[eventType].topic.Some?
    requires IsNotifyResult(p, eventType, schemas[eventType], notify, payload, n)
    ensures DecodeSubjectBase(n.topic) == Success(schemas[eventType].topic.value.base)
    ensures ParsedTopic(n.topic, schemas[eventType]) == Success(Kept(schemas[eventType].topic.value.keyOrder, n.params))
  {
    var schema := schemas[eventType];
    assert TopicAccepted(schema) && ValidBase(RoutingBase(eventType, schema));
    NotifySubject(p, eventType, schema, notify, payload, n);
    ParseBuilt(schema, n.params);
    SchemaBase(schema.topic.value, n.params);
  }

  lemma SchemaBase(topic: TopicConfig, params: Params)
    requires (forall k :: k in topic.keyOrder ==> k in params) && topic.base != []
    ensures DecodeSubjectBase(EncodeSubject(SchemaParts(topic, params))) == Success(topic.base)
  {
    var parts := SchemaParts(topic, params);
    SplitEncodedSubject(parts);
    assert Split(EncodeSubject(parts), SEPARATOR)[0] == EncodedToken(topic.base);
    TokenRoundTrip(topic.base);
    EncodedNonEmpty(topic.base);
  }

  lemma EncodedNonEmpty(token: string)
    requires token != []
    ensures EncodedToken(token) != []
  {
  }

  /** Stored geometry reads back as the producer's coordinates, and its second validation succeeds. */
  lemma StoredGeometryReadsBack(p: Platform, schema: EventSchema, request: Request, n: ProcessingResult)
    requires Lawful(p) && SpatialAccepted(schema) && NotifyAccepts(p, schema, request, true)
    requires IsNotifySpatial(p, schema, request, n.spatial)
    ensures StoredPolygon(p, StoredWith(n)) ==
            Success(CanonicalIf(p, schema, request, "polygon"))
    ensures StoredCloud(p, StoredWith(n)) ==
            Success(CanonicalIf(p, schema, request, "point_cloud"))
  {
    StoredMetadata(p, schema, request, n.spatial);
    if "polygon" in schema.identifier {
      ShapeOfField(p, schema, request, "polygon");
      RingReadsBack(p, ProducerShape(p, schema, request).value.cs);
    } else if "point_cloud" in schema.identifier {
      ShapeOfField(p, schema, request, "point_cloud");
      CloudFieldReadsBack(p, schema, request);
    }
  }

  lemma RingReadsBack(p: Platform, cs: seq<Coordinate>)
    requires Lawful(p) && AllValid(cs) && cs != []
    ensures var headers := Some(HeadersOf(MetadataOf(p, Ring(cs))));
            StoredPolygon(p, headers) == Success(Some(CoordinatesJson(cs))) && StoredCloud(p, headers) == Success(None)
  {
    PolygonTextRoundTrip(p, cs);
  }

  lemma CloudReadsBack(p: Platform, cs: seq<Coordinate>)
    requires Lawful(p) && cs != [] && ValidateCloud(p, CoordinatesJson(cs), HARD_MAX_POINTS) == Success(cs)
    ensures var headers := Some(HeadersOf(MetadataOf(p, Cloud(cs))));
            StoredCloud(p, headers) == Success(Some(CoordinatesJson(cs))) && StoredPolygon(p, headers) == Success(None)
  {
    assert Reprintable(p, CoordinatesJson(cs));
  }

  lemma CloudFieldReadsBack(p: Platform, schema: EventSchema, request: Request)
    requires Lawful(p) && SpatialAccepted(schema) && NotifyAccepts(p, schema, request, true)
             && "point_cloud" in schema.identifier
    ensures ProducerShape(p, schema, request).Some? && ProducerShape(p, schema, request).value.Cloud?
    ensures var shape := ProducerShape(p, schema, request).value;
            var headers := Some(HeadersOf(MetadataOf(p, shape)));
            StoredCloud(p, headers) == Success(Some(CoordinatesJson(shape.cs)))
              && StoredPolygon(p, headers) == Success(None)
  {
    ShapeOfField(p, schema, request, "point_cloud");
    CloudRevalidates(p, request["point_cloud"], schema.identifier["point_cloud"].maxPoints);
    CloudReadsBack(p, ProducerShape(p, schema, request).value.cs);
  }

  /**
   * What an accepted notification reads back as: everything the producer sent, less the scalars a
   * subject cannot carry.
   */
  lemma IdentifierRecovered(p: Platform, schemas: Schemas, eventType: string, notify: Request, payload: bool,
                            n: ProcessingResult, r: Result<Identifier, RecoveryError>)
    requires Lawful(p) && RoutingAccepted(schemas) && eventType in schemas && schemas[eventType].topic.Some?
    requires IsNotifyResult(p, eventType, schemas[eventType], notify, payload, n)
    requires IsRecovered(p, schemas, n.topic, StoredWith(n), r)
    ensures r == Success(Surviving(p, schemas[eventType], notify))
    ensures r == Success(CanonicalIdentifier(p, schemas[eventType], notify)) <==>
            AllSurvive(p, schemas[eventType], notify)
  {
    RecoveredFromOwnTopic(p, schemas, eventType, notify, payload, n, r);
    assert SpatialAccepted(schemas[eventType]) && TopicAccepted(schemas[eventType]);
    StoredGeometryReadsBack(p, schemas[eventType], notify, n);
    AssembledSurvives(p, schemas[eventType], notify);
    AllOrSome(p, schemas[eventType], notify);
  }

  lemma RecoveredFromOwnTopic(p: Platform, schemas: Schemas, eventType: string, notify: Request, payload: bool,
                              n: ProcessingResult, r: Result<Identifier, RecoveryError>)
    requires RoutingAccepted(schemas) && eventType in schemas && schemas[eventType].topic.Some?
    requires IsNotifyResult(p, eventType, schemas[eventType], notify, payload, n)
    requires IsRecovered(p, schemas, n.topic, StoredWith(n), r)
    ensures r == Built(p, Kept(schemas[eventType].topic.value.keyOrder, n.params), StoredWith(n))
  {
    OwnTopicReadsBack(p, schemas, eventType, notify, payload, n);
    var base := schemas[eventType].topic.value.base;
    var e :| Resolves(schemas, base, e) && IsRecoveredFor(p, schemas, n.topic, StoredWith(n), e, r);
    assert Resolves(schemas, base, Some(eventType));
    ResolutionUnique(schemas, base, e, Some(eventType));
  }

  function CanonicalIf(p: Platform, schema: EventSchema, request: Request, f: string): Option<Json>
    requires NotifyAccepts(p, schema, request, true)
  {
    if f in schema.identifier then Some(CanonicalValue(p, schema, request, f)) else None
  }

  lemma AssembledSurvives(p: Platform, schema: EventSchema, notify: Request)
    requires SpatialAccepted(schema) && TopicAccepted(schema) && schema.topic.Some?
             && NotifyAccepts(p, schema, notify, true)
    ensures Assembled(Kept(schema.topic.value.keyOrder, NotifyParams(p, schema, notify)),
                      CanonicalIf(p, schema, notify, "polygon"), CanonicalIf(p, schema, notify, "point_cloud"))
            == Surviving(p, schema, notify)
  {
    var got := Assembled(Kept(schema.topic.value.keyOrder, NotifyParams(p, schema, notify)),
                         CanonicalIf(p, schema, notify, "polygon"), CanonicalIf(p, schema, notify, "point_cloud"));
    forall f ensures At(got, f) == At(Surviving(p, schema, notify), f) {
      AssembledAt(p, schema, notify, f);
    }
    SameEverywhere(got, Surviving(p, schema, notify));
  }

  function At(identifier: Identifier, f: string): Option<Json> { if f in identifier then Some(identifier[f]) else None }

  lemma SameEverywhere(a: Identifier, b: Identifier)
    requires forall f :: At(a, f) == At(b, f)
    ensures a == b
  {
    forall f ensures f in a <==> f in b {
      assert At(a, f) == At(b, f);
    }
    forall f | f in a ensures a[f] == b[f] {
      assert At(a, f) == At(b, f);
    }
  }

  lemma AssembledField(scalars: Params, polygon: Option<Json>, cloud: Option<Json>, f: string)
    ensures At(Assembled(scalars, polygon, cloud), f) ==
            if f == "point_cloud" && cloud.Some? then cloud
            else if f == "polygon" && polygon.Some? then polygon
            else if f in scalars then Some(Str(scalars[f])) else None
  {
  }

  lemma AssembledAt(p: Platform, schema: EventSchema, notify: Request, f: string)
    requires SpatialAccepted(schema) && TopicAccepted(schema) && schema.topic.Some?
             && NotifyAccepts(p, schema, notify, true)
    ensures At(Assembled(Kept(schema.topic.value.keyOrder, NotifyParams(p, schema, notify)),
                         CanonicalIf(p, schema, notify, "polygon"), CanonicalIf(p, schema, notify, "point_cloud")), f)
            == At(Surviving(p, schema, notify), f)
  {
    AssembledField(Kept(schema.topic.value.keyOrder, NotifyParams(p, schema, notify)),
                   CanonicalIf(p, schema, notify, "polygon"), CanonicalIf(p, schema, notify, "point_cloud"), f);
    FieldRecovered(p, schema, notify, f);
  }

  /** One field: geometry comes from the headers, a scalar from the subject if it survives. */
  lemma FieldRecovered(p: Platform, schema: EventSchema, notify: Request, f: string)
    requires SpatialAccepted(schema) && TopicAccepted(schema) && schema.topic.Some?
             && NotifyAccepts(p, schema, notify, true)
    ensures var scalars := Kept(schema.topic.value.keyOrder, NotifyParams(p, schema, notify));
            if f in schema.identifier && !schema.identifier[f].IsSpatial() then
              f != "polygon" && f != "point_cloud"
              && (f in scalars <==> Survives(p, schema, notify, f))
              && (f in scalars ==> Str(scalars[f]) == CanonicalValue(p, schema, notify, f))
            else if f in schema.identifier then f == "polygon" || f == "point_cloud"
            else f !in scalars
  {
    if f in schema.identifier {
      assert NotifyField(p, notify[f], schema.identifier[f]).Success?;
    }
  }

  lemma AllOrSome(p: Platform, schema: EventSchema, notify: Request)
    requires NotifyAccepts(p, schema, notify, true)
    ensures Surviving(p, schema, notify) == CanonicalIdentifier(p, schema, notify) <==> AllSurvive(p, schema, notify)
  {
    if Surviving(p, schema, notify) == CanonicalIdentifier(p, schema, notify) {
      forall f | f in schema.identifier ensures Survives(p, schema, notify, f) {
        assert f in CanonicalIdentifier(p, schema, notify);
      }
    }
  }

  /** A notification of an event type without a topic block is stored, but never reads back as an event. */
  lemma TopiclessNeverRecovered(p: Platform, schemas: Schemas, eventType: string, params: Params, topic: string,
                                headers: Option<Headers>, r: Result<Identifier, RecoveryError>)
    requires BasesAccepted(schemas) && eventType in schemas && schemas[eventType].topic.None?
    requires IsGenericTopic(eventType, params, topic) && IsRecovered(p, schemas, topic, headers, r)
    ensures r == Failure(NoEventType)
  {
    assert ValidBase(RoutingBase(eventType, schemas[eventType]));
    GenericBase(eventType, params, topic);
    var e: Option<string> :| Resolves(schemas, eventType, e) && IsRecoveredFor(p, schemas, topic, headers, e, r);
    if e.Some? {
      OneOwner(schemas, eventType, e.value);
    }
  }

  lemma GenericBase(eventType: string, params: Params, topic: string)
    requires ValidBase(eventType) && IsGenericTopic(eventType, params, topic)
    ensures DecodeSubjectBase(topic) == Success(eventType)
  {
    var parts := GenericParts(eventType, params, topic);
    SplitEncodedSubject(parts);
    TokenRoundTrip(eventType);
    EncodedNonEmpty(eventType);
  }

  lemma EmptyBaseUnowned(schemas: Schemas, e: Option<string>)
    requires BasesAccepted(schemas) && Resolves(schemas, "", e)
    ensures e == None
  {
    assert e.Some? ==> ValidBase(RoutingBase(e.value, schemas[e.value]));
  }

  /** The matcher and the event reader resolve every decodable topic to the same event type, or both to none. */
  lemma ResolversAgree(schemas: Schemas, topic: string, matched: Option<string>, read: Option<string>)
    requires BasesAccepted(schemas) && DecodeSubject(topic).Success?
    requires |DecodeSubject(topic).value| > 0 && Resolves(schemas, DecodeSubject(topic).value[0], matched)
    requires if DecodeSubjectBase(topic).Success? then Resolves(schemas, DecodeSubjectBase(topic).value, read)
             else read == None
    ensures matched == read
  {
    BaseIsFirstPart(topic);
    var base := DecodeSubject(topic).value[0];
    if DecodeSubjectBase(topic).Success? {
      ResolutionUnique(schemas, base, matched, read);
    } else {
      assert DecodedToken("") == Success(base);
      TokenRoundTrip("");
      EmptyBaseUnowned(schemas, matched);
    }
  }

  // ---- streams ------------------------------------------------------------------------------

  /** Under accepted settings a notification is stored in exactly one stream: that of its own event type. */
  lemma OneStream(p: Platform, schemas: Schemas, eventType: string, notify: Request, payload: bool, n: ProcessingResult,
                  other: string)
    requires RoutingAccepted(schemas) && eventType in schemas && schemas[eventType].topic.Some? && other in schemas
    requires IsNotifyResult(p, eventType, schemas[eventType], notify, payload, n)
    ensures Bind(RoutingBase(other, schemas[other])).Some?
    ensures NatsMatches(Bind(RoutingBase(other, schemas[other])).value.subjectPattern, n.topic) <==> other == eventType
  {
    var schema := schemas[eventType];
    assert TopicAccepted(schema) && ValidBase(RoutingBase(other, schemas[other]));
    NotifySubject(p, eventType, schema, notify, payload, n);
    StreamTakes(RoutingBase(other, schemas[other]), SchemaParts(schema.topic.value, n.params));
    if RoutingBase(other, schemas[other]) == schema.topic.value.base {
      OneOwner(schemas, eventType, other);
    }
  }
}
