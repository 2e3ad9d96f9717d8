/**
 * Which stored notifications reach which subscriber: the whole path from two requests through
 * subjects, the coarse backend pattern and the precise filters.
 */
module Delivery {
  import opened Wrappers
  import opened Text
  import opened Json
  import opened Platform
  import opened Schema
  import opened Scalars
  import opened Shapes
  import opened Constraints
  import opened TopicCodec
  import opened Topics
  import opened Spatial
  import opened Validation
  import opened Processor
  import opened WildcardMatcher

  /** Field by field, the subscriber takes anything or names the producer's canonical value. */
  predicate FieldsAgree(schema: EventSchema, wanted: Params, given: Params)
    requires schema.identifier.Keys <= wanted.Keys && schema.identifier.Keys <= given.Keys
  {
    forall f :: f in schema.identifier && f != "polygon" && f != "point_cloud" ==>
      wanted[f] == "*" || wanted[f] == given[f]
  }

  /** Every constraint holds of a value that a subject can carry. */
  predicate ConstraintsHold(p: Platform, constraints: ConstraintMap, given: Params)
    requires constraints.Keys <= given.Keys
  {
    forall f :: f in constraints ==> !IsOmitted(given[f]) && Satisfies(p, given[f], constraints[f])
  }

  // ---- subjects after validation ------------------------------------------------------------

  /** The decoded parts of the subject of a notify result: never a missing key, one token per key and the base. */
  lemma NotifySubject(p: Platform, eventType: string, schema: EventSchema, request: Request, payload: bool,
                      n: ProcessingResult)
    requires TopicAccepted(schema) && schema.topic.Some?
    requires IsNotifyResult(p, eventType, schema, request, payload, n)
    ensures Routable(schema, n.params)
    ensures DecodeSubject(n.topic) == Success(SchemaParts(schema.topic.value, n.params))
    ensures |SchemaParts(schema.topic.value, n.params)| == 1 + |schema.topic.value.keyOrder|
  {
    SubjectRoundTrip(SchemaParts(schema.topic.value, n.params));
  }

  /** The same for a watch or replay result; its decoded parts are the watch pattern, and its base is no wildcard. */
  lemma StreamSubject(p: Platform, eventType: string, schema: EventSchema, request: Request, w: ProcessingResult)
    requires TopicAccepted(schema) && schema.topic.Some? && ValidBase(schema.topic.value.base)
    requires IsStreamResult(p, eventType, schema, request, w)
    ensures Routable(schema, RoutedParams(schema, Watch, w.params))
    ensures var pattern := SchemaParts(schema.topic.value, RoutedParams(schema, Watch, w.params));
            AnalyzeWatchPattern(w.topic) == Success((CoarsePattern(w.topic, pattern), pattern))
            && |pattern| == 1 + |schema.topic.value.keyOrder| && pattern[0] != "*" && w.topic == EncodeSubject(pattern)
  {
    SubjectRoundTrip(SchemaParts(schema.topic.value, RoutedParams(schema, Watch, w.params)));
  }

  /** After start-up validation a request that passes field processing always gets its topic. */
  lemma RoutingNeverFails(p: Platform, schemas: Schemas, eventType: string, request: Request, payload: bool)
    requires RoutingAccepted(schemas) && eventType in schemas
    ensures NotifyAccepts(p, schemas[eventType], request, payload) ==>
              SchemaRequestAccepted(p, eventType, schemas[eventType], request, payload, Notify)
    ensures StreamAccepts(p, schemas[eventType], request) ==>
              SchemaRequestAccepted(p, eventType, schemas[eventType], request, payload, Watch)
              && SchemaRequestAccepted(p, eventType, schemas[eventType], request, payload, Replay)
  {
    var schema := schemas[eventType];
    assert TopicAccepted(schema);
  }

  // ---- the pattern --------------------------------------------------------------------------

  predicate KeysAgree(order: seq<string>, wanted: Params, given: Params)
    requires forall k :: k in order ==> k in wanted && k in given
  {
    forall k :: k in order ==> wanted[k] == "*" || wanted[k] == given[k]
  }

  /**
   * A pattern built from parameters matches parts built from parameters exactly when they agree on
   * every routed key.
   */
  lemma PatternMeansKeys(topic: TopicConfig, wanted: Params, given: Params)
    requires forall k :: k in topic.keyOrder ==> k in wanted && k in given
    requires topic.base != "*"
    ensures PartsMatch(SchemaParts(topic, given), SchemaParts(topic, wanted)) <==>
            KeysAgree(topic.keyOrder, wanted, given)
  {
    var parts, pattern, order := SchemaParts(topic, given), SchemaParts(topic, wanted), topic.keyOrder;
    if PartsMatch(parts, pattern) {
      forall k | k in order ensures wanted[k] == "*" || wanted[k] == given[k] {
        var i :| 0 <= i < |order| && order[i] == k;
        KeyPart(topic, wanted, i);
        KeyPart(topic, given, i);
      }
    }
    if KeysAgree(order, wanted, given) {
      forall i | 0 <= i < |parts| ensures pattern[i] == "*" || pattern[i] == parts[i] {
        if i > 0 {
          KeyPart(topic, wanted, i - 1);
          KeyPart(topic, given, i - 1);
        }
      }
    }
  }

  lemma KeyPart(topic: TopicConfig, params: Params, i: nat)
    requires i < |topic.keyOrder| && forall k :: k in topic.keyOrder ==> k in params
    ensures |SchemaParts(topic, params)| == 1 + |topic.keyOrder| && topic.keyOrder[i] in topic.keyOrder
    ensures SchemaParts(topic, params)[i + 1] == params[topic.keyOrder[i]]
  {
  }

  /** The routed keys are the scalar identifiers, and a routed polygon asks for nothing. */
  lemma RoutedKeysAreScalars(p: Platform, schema: EventSchema, request: Request, given: Params)
    requires TopicAccepted(schema) && SpatialAccepted(schema) && schema.topic.Some?
    requires StreamAccepts(p, schema, request) && given.Keys == schema.identifier.Keys
    ensures var params := StreamParams(p, schema, request);
            var wanted := RoutedParams(schema, Watch, params);
            schema.identifier.Keys <= params.Keys && schema.identifier.Keys <= wanted.Keys
            && (forall k :: k in schema.topic.value.keyOrder ==> k in wanted && k in given)
            && (KeysAgree(schema.topic.value.keyOrder, wanted, given) <==> FieldsAgree(schema, params, given))
  {
    var params := StreamParams(p, schema, request);
    RoutedTokens(p, schema, request);
    ScalarsAgree(schema, params, RoutedParams(schema, Watch, params), given);
  }

  /** A subscriber's routed value is its own token, except that a polygon becomes a wildcard. */
  lemma RoutedTokens(p: Platform, schema: EventSchema, request: Request)
    requires StreamAccepts(p, schema, request) && schema.topic.Some? && TopicAccepted(schema)
    ensures var params := StreamParams(p, schema, request);
            var wanted := RoutedParams(schema, Watch, params);
            schema.identifier.Keys <= params.Keys && params.Keys == wanted.Keys
            && forall k :: k in schema.topic.value.keyOrder ==>
               k in wanted && wanted[k] == if k == "polygon" then "*" else params[k]
  {
    var params := StreamParams(p, schema, request);
    var order := schema.topic.value.keyOrder;
    assert forall k :: k in order ==> k in schema.identifier && k in params;
  }

  lemma ScalarsAgree(schema: EventSchema, params: Params, wanted: Params, given: Params)
    requires schema.topic.Some? && TopicAccepted(schema) && SpatialAccepted(schema)
    requires schema.identifier.Keys <= params.Keys == wanted.Keys && given.Keys == schema.identifier.Keys
    requires forall k :: k in schema.topic.value.keyOrder ==>
             k in wanted && wanted[k] == if k == "polygon" then "*" else params[k]
    ensures KeysAgree(schema.topic.value.keyOrder, wanted, given) <==> FieldsAgree(schema, params, given)
  {
    var order := schema.topic.value.keyOrder;
    forall k | k in order ensures k in schema.identifier && k != "point_cloud" {
    }
    forall k | k in schema.identifier && k != "polygon" && k != "point_cloud" ensures k in order {
      assert !schema.identifier[k].IsSpatial();
    }
  }

  lemma PatternVerdict(p: Platform, schemas: Schemas, eventType: string, notify: Request, payload: bool,
                       n: ProcessingResult, stream: Request, w: ProcessingResult)
    requires RoutingAccepted(schemas) && eventType in schemas && schemas[eventType].topic.Some?
    requires IsNotifyResult(p, eventType, schemas[eventType], notify, payload, n)
    requires IsStreamResult(p, eventType, schemas[eventType], stream, w)
    ensures schemas[eventType].identifier.Keys <= w.params.Keys && n.params.Keys == schemas[eventType].identifier.Keys
    ensures AnalyzeWatchPattern(w.topic).Success?
    ensures var (coarse, pattern) := AnalyzeWatchPattern(w.topic).value;
            (MatchesWatchPattern(n.topic, pattern) <==> FieldsAgree(schemas[eventType], w.params, n.params))
            && (MatchesWatchPattern(n.topic, pattern) ==> NatsMatches(coarse, n.topic))
  {
    var schema := schemas[eventType];
    assert TopicAccepted(schema) && SpatialAccepted(schema) && ValidBase(RoutingBase(eventType, schema));
    NotifySubject(p, eventType, schema, notify, payload, n);
    StreamSubject(p, eventType, schema, stream, w);
    var wanted := RoutedParams(schema, Watch, w.params);
    var parts, pattern := SchemaParts(schema.topic.value, n.params), SchemaParts(schema.topic.value, wanted);
    PatternMeansKeys(schema.topic.value, wanted, n.params);
    RoutedKeysAreScalars(p, schema, stream, n.params);
    if PartsMatch(parts, pattern) {
      CoarseAccepts(pattern, parts);
    }
  }

  // ---- constraints --------------------------------------------------------------------------

  lemma ConstrainedFieldsRouted(p: Platform, schema: EventSchema, request: Request)
    requires TopicAccepted(schema) && StreamAccepts(p, schema, request)
    ensures forall f :: f in StreamConstraints(p, schema, request) ==>
              f in schema.identifier && (schema.topic.Some? ==> f in schema.topic.value.keyOrder)
  {
    forall f | f in StreamConstraints(p, schema, request) ensures !schema.identifier[f].IsSpatial() {
      assert StreamField(p, request, f, schema.identifier[f]).value.Constrained?;
    }
  }

  /** On a producer's own topic, evaluating constraints on tokens is evaluating them on the canonical values. */
  lemma ConstraintVerdict(p: Platform, schemas: Schemas, eventType: string, notify: Request, payload: bool,
                          n: ProcessingResult, constraints: ConstraintMap)
    requires RoutingAccepted(schemas) && eventType in schemas && schemas[eventType].topic.Some?
    requires IsNotifyResult(p, eventType, schemas[eventType], notify, payload, n)
    requires forall f :: f in constraints ==> f in schemas[eventType].topic.value.keyOrder
    ensures constraints.Keys <= n.params.Keys
    ensures IsConstraintVerdict(p, schemas, n.topic, constraints, true) <==> ConstraintsHold(p, constraints, n.params)
  {
    var schema := schemas[eventType];
    assert TopicAccepted(schema);
    NotifySubject(p, eventType, schema, notify, payload, n);
    ParseBuilt(schema, n.params);
    FastPathRefines(p, n.topic, eventType, constraints, schemas);
    var parts := DecodeSubject(n.topic).value;
    var e := Some(eventType);
    assert Resolves(schemas, parts[0], e);
    var verdict := ResolvedVerdict(p, schemas, n.topic, parts, e, constraints);
    assert IsConstraintVerdict(p, schemas, n.topic, constraints, verdict);
    if IsConstraintVerdict(p, schemas, n.topic, constraints, true) {
      ConstraintVerdictUnique(p, schemas, n.topic, constraints, true, verdict);
    }
    SlowVerdictOnKept(p, n.topic, schema, constraints, n.params);
  }

  lemma SlowVerdictOnKept(p: Platform, topic: string, schema: EventSchema, constraints: ConstraintMap, given: Params)
    requires schema.topic.Some? && ParsedTopic(topic, schema) == Success(Kept(schema.topic.value.keyOrder, given))
    requires forall f :: f in constraints ==> f in schema.topic.value.keyOrder && f in given
    ensures SlowPath(p, topic, schema, constraints) <==> ConstraintsHold(p, constraints, given)
  {
    var kept := Kept(schema.topic.value.keyOrder, given);
    forall f | f in constraints ensures f in kept <==> !IsOmitted(given[f]) {
    }
  }

  /** A constraint on an integer field holds of a notification exactly when it holds of the number the producer sent. */
  lemma ConstraintOnSentInteger(p: Platform, schema: EventSchema, notify: Request, f: string, i: int, c: Numeric)
    requires NotifyAccepts(p, schema, notify, true)
    requires f in schema.identifier && schema.identifier[f].IntRule? && notify[f] == Num(Integer(i))
    ensures var given := NotifyParams(p, schema, notify)[f];
            !IsOmitted(given) && (Satisfies(p, given, IntConstraint(c)) <==> NumericMatches(c, i))
  {
    var rule := schema.identifier[f];
    assert NotifyField(p, notify[f], rule).Success?;
    IntText(p, i, rule);
    SentIntegerInRange(i, rule.intRange);
    SignedRoundTrip(i, MIN_I64, MAX_I64);
    IntConstraintMeans(p, SignedDecimal(i), rule.intRange, c);
  }

  lemma IntText(p: Platform, i: int, rule: Rule)
    requires rule.IntRule? && NotifyField(p, Num(Integer(i)), rule).Success?
    ensures CanonicalInt(SignedDecimal(i), rule.intRange) == Success(NotifyField(p, Num(Integer(i)), rule).value.text)
  {
    assert FieldText(p, Num(Integer(i)), rule) == CanonicalInt(SignedDecimal(i), rule.intRange);
  }

  lemma SentIntegerInRange(i: int, range: Option<(int, int)>)
    requires CanonicalInt(SignedDecimal(i), range).Success?
    ensures MIN_I64 <= i <= MAX_I64
  {
    SignedRoundTrip(i, i, i);
  }

  // ---- delivery -----------------------------------------------------------------------------

  /** When the coarse pattern loses nothing, only the precise filters decide. */
  lemma DeliveredMeans(p: Platform, schemas: Schemas, topic: string, headers: Option<Headers>, text: string,
                       w: ProcessingResult)
    requires AnalyzeWatchPattern(w.topic).Success?
    requires MatchesWatchPattern(topic, AnalyzeWatchPattern(w.topic).value.1) ==>
             NatsMatches(AnalyzeWatchPattern(w.topic).value.0, topic)
    ensures Delivered(p, schemas, topic, headers, text, w) <==>
            MatchesWatchPattern(topic, AnalyzeWatchPattern(w.topic).value.1)
              && PassesFilters(p, schemas, topic, headers, text, w)
  {
  }

  lemma ConstraintsDecide(p: Platform, schemas: Schemas, eventType: string, notify: Request, payload: bool,
                          n: ProcessingResult, stream: Request, w: ProcessingResult)
    requires RoutingAccepted(schemas) && eventType in schemas && schemas[eventType].topic.Some?
    requires IsNotifyResult(p, eventType, schemas[eventType], notify, payload, n)
    requires IsStreamResult(p, eventType, schemas[eventType], stream, w)
    ensures w.constraints.Keys <= n.params.Keys
    ensures (w.constraints != map[] ==> IsConstraintVerdict(p, schemas, n.topic, w.constraints, true))
            <==> ConstraintsHold(p, w.constraints, n.params)
  {
    ConstrainedKeysRouted(p, schemas, eventType, stream, w);
    ConstraintVerdict(p, schemas, eventType, notify, payload, n, w.constraints);
    NothingToHold(p, n.params);
  }

  lemma ConstrainedKeysRouted(p: Platform, schemas: Schemas, eventType: string, stream: Request, w: ProcessingResult)
    requires TopicsAccepted(schemas) && eventType in schemas && schemas[eventType].topic.Some?
    requires IsStreamResult(p, eventType, schemas[eventType], stream, w)
    ensures forall f :: f in w.constraints ==> f in schemas[eventType].topic.value.keyOrder
  {
    assert TopicAccepted(schemas[eventType]);
    ConstrainedFieldsRouted(p, schemas[eventType], stream);
  }

  lemma NothingToHold(p: Platform, given: Params)
    ensures ConstraintsHold(p, map[], given)
  {
  }

  /**
   * End-to-end delivery. Under accepted settings, a notification reaches a subscriber of the same
   * event type exactly when they agree field by field, every constraint holds, and the spatial
   * filters let it pass. Headers and payload are whatever is stored.
   */
  lemma EndToEnd(p: Platform, schemas: Schemas, eventType: string, notify: Request, payload: bool, n: ProcessingResult,
                 stream: Request, w: ProcessingResult, headers: Option<Headers>, text: string)
    requires RoutingAccepted(schemas) && eventType in schemas && schemas[eventType].topic.Some?
    requires IsNotifyResult(p, eventType, schemas[eventType], notify, payload, n)
    requires IsStreamResult(p, eventType, schemas[eventType], stream, w)
    ensures schemas[eventType].identifier.Keys <= w.params.Keys && n.params.Keys == schemas[eventType].identifier.Keys
    ensures w.constraints.Keys <= n.params.Keys
    ensures Delivered(p, schemas, n.topic, headers, text, w) <==>
            && FieldsAgree(schemas[eventType], w.params, n.params)
            && ConstraintsHold(p, w.constraints, n.params)
            && MatchesSpatialFilters(p, w.params, PrepareSpatialFilter(p, w.params), headers, text)
  {
    PatternVerdict(p, schemas, eventType, notify, payload, n, stream, w);
    ConstraintsDecide(p, schemas, eventType, notify, payload, n, stream, w);
    DeliveredMeans(p, schemas, n.topic, headers, text, w);
  }

  /** Without geometry in the schema, nothing but the fields and the constraints decides. */
  lemma EndToEndScalar(p: Platform, schemas: Schemas, eventType: string, notify: Request, payload: bool,
                       n: ProcessingResult, stream: Request, w: ProcessingResult, headers: Option<Headers>,
                       text: string)
    requires RoutingAccepted(schemas) && eventType in schemas && schemas[eventType].topic.Some?
    requires "polygon" !in schemas[eventType].identifier && "point_cloud" !in schemas[eventType].identifier
             && "point" !in schemas[eventType].identifier
    requires IsNotifyResult(p, eventType, schemas[eventType], notify, payload, n)
    requires IsStreamResult(p, eventType, schemas[eventType], stream, w)
    ensures w.params.Keys == n.params.Keys == schemas[eventType].identifier.Keys && w.constraints.Keys <= n.params.Keys
    ensures Delivered(p, schemas, n.topic, headers, text, w) <==>
            (forall f :: f in n.params ==> w.params[f] == "*" || w.params[f] == n.params[f])
            && ConstraintsHold(p, w.constraints, n.params)
  {
    var schema := schemas[eventType];
    assert SpatialAccepted(schema);
    assert !HasCloud(schema);
    EndToEnd(p, schemas, eventType, notify, payload, n, stream, w, headers, text);
  }

  /** Two time fields written differently meet exactly when they write the same time of day. */
  lemma TimeFieldsMeet(p: Platform, schema: EventSchema, notify: Request, stream: Request, f: string, given: string,
                       wanted: string)
    requires NotifyAccepts(p, schema, notify, true) && StreamAccepts(p, schema, stream)
    requires f in schema.identifier && schema.identifier[f].TimeRule? && f != "point" && f != "polygon"
    requires notify[f] == Str(given) && f in stream && stream[f] == Str(wanted)
    ensures f in StreamParams(p, schema, stream)
    ensures StreamParams(p, schema, stream)[f] == NotifyParams(p, schema, notify)[f] <==>
            exists h, m :: h < 24 && m < 60 && Writes(given, h, m) && Writes(wanted, h, m)
  {
    NotifiedTime(p, schema, notify, f, given);
    RequestedTime(p, schema, stream, f, wanted);
    TimesMeet(given, wanted);
  }

  lemma NotifiedTime(p: Platform, schema: EventSchema, notify: Request, f: string, given: string)
    requires NotifyAccepts(p, schema, notify, true)
    requires f in schema.identifier && schema.identifier[f].TimeRule? && notify[f] == Str(given)
    ensures CanonicalTime(given) == Success(NotifyParams(p, schema, notify)[f])
  {
    var field := NotifyField(p, notify[f], schema.identifier[f]);
    assert field.Success?;
    TimeText(p, given, schema.identifier[f]);
  }

  lemma RequestedTime(p: Platform, schema: EventSchema, stream: Request, f: string, wanted: string)
    requires StreamAccepts(p, schema, stream)
    requires f in schema.identifier && schema.identifier[f].TimeRule? && f != "point" && f != "polygon"
    requires f in stream && stream[f] == Str(wanted)
    ensures f in StreamParams(p, schema, stream) && CanonicalTime(wanted) == Success(StreamParams(p, schema, stream)[f])
  {
    var field := StreamField(p, stream, f, schema.identifier[f]);
    assert field.Success?;
    TimeText(p, wanted, schema.identifier[f]);
    assert StreamParams(p, schema, stream)[f] == FieldTokens(p, schema, stream)[f];
  }

  lemma TimeText(p: Platform, text: string, rule: Rule)
    requires rule.TimeRule?
    ensures FieldText(p, Str(text), rule) == CanonicalTime(text)
    ensures NotifyField(p, Str(text), rule).Success? ==>
            CanonicalTime(text) == Success(NotifyField(p, Str(text), rule).value.text)
  {
  }

  lemma TimesMeet(given: string, wanted: string)
    requires CanonicalTime(given).Success? && CanonicalTime(wanted).Success?
    ensures CanonicalTime(given) == CanonicalTime(wanted) <==>
            exists h, m :: h < 24 && m < 60 && Writes(given, h, m) && Writes(wanted, h, m)
  {
    var h, m := AcceptedTimeWritten(given);
    TimesAgree(given, wanted, h, m);
    if h', m' :| h' < 24 && m' < 60 && Writes(given, h', m') && Writes(wanted, h', m') {
      TimesAgree(given, wanted, h', m');
    }
  }

  // ---- geometry -----------------------------------------------------------------------------

  /** The geometry a notify request declares, as its validator read it. */
  function ProducerShape(p: Platform, schema: EventSchema, request: Request): (shape: Option<Shape>)
    requires NotifyAccepts(p, schema, request, true)
    ensures shape.Some? ==> shape.value.cs != []
  {
    if "polygon" in schema.identifier && schema.identifier["polygon"].PolygonRule? then
      assert NotifyField(p, request["polygon"], schema.identifier["polygon"]).Success?;
      Some(Ring(ValidatePolygon(p, request["polygon"]).value))
    else if "point_cloud" in schema.identifier && schema.identifier["point_cloud"].PointCloudRule? then
      assert NotifyField(p, request["point_cloud"], schema.identifier["point_cloud"]).Success?;
      Some(Cloud(ValidateCloud(p, request["point_cloud"], schema.identifier["point_cloud"].maxPoints).value))
    else None
  }

  /** The headers a notification is stored with. */
  function StoredWith(n: ProcessingResult): Option<Headers> {
    if n.spatial.None? then None else Some(HeadersOf(n.spatial.value))
  }

  /** The stored metadata is that of the producer's own coordinates. */
  lemma StoredMetadata(p: Platform, schema: EventSchema, request: Request, spatial: Option<SpatialMetadata>)
    requires Lawful(p) && SpatialAccepted(schema) && NotifyAccepts(p, schema, request, true)
    requires IsNotifySpatial(p, schema, request, spatial)
    ensures var shape := ProducerShape(p, schema, request);
            (shape.Some? ==> StorableShape(shape.value))
            && spatial == if shape.None? then None else Some(MetadataOf(p, shape.value))
  {
    if spatial.Some? {
      var f :| f in schema.identifier && schema.identifier[f].IsSpatial()
               && spatial == FieldMetadata(p, NotifyField(p, request[f], schema.identifier[f]).value);
      ShapeOfField(p, schema, request, f);
    }
  }

  lemma ShapeOfField(p: Platform, schema: EventSchema, request: Request, f: string)
    requires Lawful(p) && SpatialAccepted(schema) && NotifyAccepts(p, schema, request, true)
    requires f in schema.identifier && schema.identifier[f].IsSpatial()
    ensures var shape := ProducerShape(p, schema, request);
            shape.Some? && StorableShape(shape.value)
            && NotifyField(p, request[f], schema.identifier[f])
               == Success(FieldValue(p.printJson(CoordinatesJson(shape.value.cs)), shape))
  {
    var rule := schema.identifier[f];
    assert NotifyField(p, request[f], rule).Success?;
    if rule.PolygonRule? {
      assert f == "polygon";
      PolygonFieldShape(p, request[f], rule);
    } else {
      assert f == "point_cloud" && "polygon" !in schema.identifier && rule.maxPoints <= HARD_MAX_POINTS;
      CloudFieldShape(p, request[f], rule);
    }
  }

  lemma PolygonFieldShape(p: Platform, value: Json, rule: Rule)
    requires Lawful(p) && rule.PolygonRule? && NotifyField(p, value, rule).Success?
    ensures ValidatePolygon(p, value).Some? && StorableShape(Ring(ValidatePolygon(p, value).value))
    ensures var cs := ValidatePolygon(p, value).value;
            NotifyField(p, value, rule) == Success(FieldValue(p.printJson(CoordinatesJson(cs)), Some(Ring(cs))))
  {
    var cs := ValidatePolygon(p, value).value;
    PolygonTextRoundTrip(p, cs);
  }

  lemma CloudFieldShape(p: Platform, value: Json, rule: Rule)
    requires rule.PointCloudRule? && rule.maxPoints <= HARD_MAX_POINTS && NotifyField(p, value, rule).Success?
    ensures ValidateCloud(p, value, rule.maxPoints).Success?
            && StorableShape(Cloud(ValidateCloud(p, value, rule.maxPoints).value))
    ensures var cs := ValidateCloud(p, value, rule.maxPoints).value;
            NotifyField(p, value, rule) == Success(FieldValue(p.printJson(CoordinatesJson(cs)), Some(Cloud(cs))))
  {
  }

  /** The polygon-polygon test of the `geo` crate never accepts polygons whose boxes are apart. */
  ghost predicate RespectsBoxes(p: Platform) {
    forall a, b :: a != [] && b != [] && p.polygonsIntersect(a, b) ==>
      Geometry.BoxesIntersect(Geometry.BoxOf(a), Geometry.BoxOf(Geometry.Closed(b)))
  }

  /** The polygon-polygon test is not asked, or respects boxes; then boxes never show for a configured type. */
  ghost predicate BoxesHidden(p: Platform, wanted: Params, shape: Shape) {
    shape.Cloud? || "point" in wanted || "polygon" !in wanted || wanted["polygon"] == "*" || RespectsBoxes(p)
  }

  /** Subscribers of a schema that stores clouds cannot ask for a point, whatever its identifiers are called. */
  lemma CloudTakesNoPoint(p: Platform, schema: EventSchema, notify: Request, stream: Request, shape: Shape,
                          text: string)
    requires NotifyAccepts(p, schema, notify, true) && StreamAccepts(p, schema, stream)
    requires ProducerShape(p, schema, notify) == Some(shape) && shape.Cloud?
    requires "point" in StreamParams(p, schema, stream)
    ensures StreamParams(p, schema, stream)["point"] == "*"
            && !PlainAnswer(p, StreamParams(p, schema, stream), shape, text)
  {
    assert HasCloud(schema) && "point" !in stream;
    LeftOutPoint(p, schema, stream);
    WildcardIsNoPoint(p);
  }

  lemma RingBoxesMeet(p: Platform, wanted: Params, shape: Shape, text: string)
    requires shape.Ring? && BoxesHidden(p, wanted, shape) && PlainAnswer(p, wanted, shape, text)
    ensures BoxesAdmit(p, wanted, shape)
  {
    if "point" !in wanted && PrepareSpatialFilter(p, wanted).Some? && shape.cs != [] {
      var ring := PrepareSpatialFilter(p, wanted).value.ring;
      assert RespectsBoxes(p) && p.polygonsIntersect(shape.cs, ring);
    }
  }

  lemma BoxesDoNotShow(p: Platform, schema: EventSchema, notify: Request, stream: Request, shape: Shape, text: string)
    requires NotifyAccepts(p, schema, notify, true) && StreamAccepts(p, schema, stream)
    requires ProducerShape(p, schema, notify) == Some(shape)
    requires BoxesHidden(p, StreamParams(p, schema, stream), shape)
    ensures var wanted := StreamParams(p, schema, stream);
            PlainAnswer(p, wanted, shape, text) ==> BoxesAdmit(p, wanted, shape)
  {
    if shape.Cloud? {
      if "point" in StreamParams(p, schema, stream) {
        CloudTakesNoPoint(p, schema, notify, stream, shape, text);
      }
    } else if PlainAnswer(p, StreamParams(p, schema, stream), shape, text) {
      RingBoxesMeet(p, StreamParams(p, schema, stream), shape, text);
    }
  }

  /**
   * Delivery of stored geometry, in terms of the coordinates the producer sent: header text and
   * re-parsing do not show, and bounding boxes only where the polygon-polygon test ignores them.
   */
  lemma EndToEndSpatial(p: Platform, schemas: Schemas, eventType: string, notify: Request, payload: bool,
                        n: ProcessingResult, stream: Request, w: ProcessingResult, shape: Shape, text: string)
    requires Lawful(p) && RoutingAccepted(schemas) && eventType in schemas && schemas[eventType].topic.Some?
    requires IsNotifyResult(p, eventType, schemas[eventType], notify, payload, n)
    requires IsStreamResult(p, eventType, schemas[eventType], stream, w)
    requires ProducerShape(p, schemas[eventType], notify) == Some(shape)
    ensures schemas[eventType].identifier.Keys <= w.params.Keys && n.params.Keys == schemas[eventType].identifier.Keys
    ensures w.constraints.Keys <= n.params.Keys && n.spatial.Some?
    ensures Delivered(p, schemas, n.topic, Some(HeadersOf(n.spatial.value)), text, w) <==>
            && FieldsAgree(schemas[eventType], w.params, n.params)
            && ConstraintsHold(p, w.constraints, n.params)
            && PlainAnswer(p, w.params, shape, text) && BoxesAdmit(p, w.params, shape)
    ensures BoxesHidden(p, w.params, shape) && PlainAnswer(p, w.params, shape, text) ==> BoxesAdmit(p, w.params, shape)
  {
    var schema := schemas[eventType];
    assert SpatialAccepted(schema);
    StoredMetadata(p, schema, notify, n.spatial);
    PrefilterKeepsAnswer(p, w.params, shape, text);
    EndToEnd(p, schemas, eventType, notify, payload, n, stream, w, Some(HeadersOf(n.spatial.value)), text);
    if BoxesHidden(p, w.params, shape) {
      BoxesDoNotShow(p, schema, notify, stream, shape, text);
    }
  }

  // ---- an identifier named 'point' ----------------------------------------------------------

  /** The point asked for lies in the polygon that the payload carries. */
  predicate PayloadHoldsPoint(p: Platform, requestPoint: string, text: string) {
    PolygonHolds(p, requestPoint, PayloadPolygon(p, text))
  }

  /** What the spatial filters ask of a notification whose schema declares no geometry. */
  predicate PointFieldPasses(p: Platform, schema: EventSchema, wanted: Params, text: string) {
    "point" in schema.identifier ==> "point" in wanted && PayloadHoldsPoint(p, wanted["point"], text)
  }

  /**
   * End-to-end delivery for every schema without geometry. An identifier named 'point' is read as a
   * requested point, so it asks for a polygon in the payload around it on top of the agreement.
   */
  lemma EndToEndPoint(p: Platform, schemas: Schemas, eventType: string,
                      notify: Request, payload: bool, n: ProcessingResult, stream: Request, w: ProcessingResult,
                      text: string)
    requires RoutingAccepted(schemas) && eventType in schemas && schemas[eventType].topic.Some?
    requires "polygon" !in schemas[eventType].identifier && "point_cloud" !in schemas[eventType].identifier
    requires IsNotifyResult(p, eventType, schemas[eventType], notify, payload, n)
    requires IsStreamResult(p, eventType, schemas[eventType], stream, w)
    ensures schemas[eventType].identifier.Keys <= w.params.Keys && n.params.Keys == schemas[eventType].identifier.Keys
    ensures w.constraints.Keys <= n.params.Keys && n.spatial.None?
    ensures Delivered(p, schemas, n.topic, None, text, w) <==>
            && FieldsAgree(schemas[eventType], w.params, n.params)
            && ConstraintsHold(p, w.constraints, n.params)
            && PointFieldPasses(p, schemas[eventType], w.params, text)
  {
    EndToEnd(p, schemas, eventType, notify, payload, n, stream, w, None, text);
    assert SpatialAccepted(schemas[eventType]);
    NothingSpatial(p, schemas[eventType], notify, n.spatial);
    PointKeyOnly(p, schemas[eventType], stream);
    NothingStored(p, w.params, text);
  }

  lemma NothingSpatial(p: Platform, schema: EventSchema, notify: Request, spatial: Option<SpatialMetadata>)
    requires SpatialAccepted(schema) && "polygon" !in schema.identifier && "point_cloud" !in schema.identifier
    requires NotifyAccepts(p, schema, notify, true) && IsNotifySpatial(p, schema, notify, spatial)
    ensures spatial.None?
  {
  }

  /** Without geometry in the schema, a request names nothing but identifiers. */
  lemma PointKeyOnly(p: Platform, schema: EventSchema, stream: Request)
    requires SpatialAccepted(schema) && "polygon" !in schema.identifier && "point_cloud" !in schema.identifier
    requires StreamAccepts(p, schema, stream)
    ensures "polygon" !in StreamParams(p, schema, stream)
    ensures "point" in StreamParams(p, schema, stream) <==> "point" in schema.identifier
  {
    assert !HasCloud(schema);
    assert "point" in stream ==> "point" in schema.identifier;
  }

  /**
   * Why a scalar identifier must not be called 'point': without a polygon in the payload nobody
   * receives the notification, and a subscriber that leaves the field out receives nothing at all.
   */
  lemma PointFieldBlocksDelivery(p: Platform, schemas: Schemas, topic: string, headers: Option<Headers>, text: string,
                                 eventType: string, stream: Request, w: ProcessingResult)
    requires eventType in schemas && "point" in schemas[eventType].identifier
    requires IsStreamResult(p, eventType, schemas[eventType], stream, w)
    requires "point" !in stream || CandidatePolygon(p, headers, text) == None
    ensures "point" in w.params && ("point" !in stream ==> w.params["point"] == "*")
    ensures !Delivered(p, schemas, topic, headers, text, w)
  {
    PointKept(p, schemas[eventType], stream);
    if "point" !in stream {
      LeftOutPoint(p, schemas[eventType], stream);
      WildcardIsNoPoint(p);
    }
    PointRejected(p, w.params, headers, text);
  }

  lemma PointKept(p: Platform, schema: EventSchema, stream: Request)
    requires "point" in schema.identifier && StreamAccepts(p, schema, stream)
    ensures "point" in StreamParams(p, schema, stream)
  {
  }

  lemma LeftOutPoint(p: Platform, schema: EventSchema, stream: Request)
    requires "point" in schema.identifier && "point" !in stream && StreamAccepts(p, schema, stream)
    ensures "point" in StreamParams(p, schema, stream) && StreamParams(p, schema, stream)["point"] == "*"
  {
    assert FieldTokens(p, schema, stream)["point"] == "*";
  }

  lemma WildcardIsNoPoint(p: Platform)
    ensures ParsePointText(p, "*") == None
  {
    SplitAtSeparator("*", [], ',');
    TrimmedIsTrim("*");
  }

  lemma PointRejected(p: Platform, request: Params, headers: Option<Headers>, text: string)
    requires "point" in request
    requires ParsePointText(p, request["point"]) == None || CandidatePolygon(p, headers, text) == None
    ensures !MatchesSpatialFilters(p, request, PrepareSpatialFilter(p, request), headers, text)
  {
  }
}
