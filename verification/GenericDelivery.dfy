/**
 * Delivery for event types without a topic block, with or without a schema: their subjects list the
 * values in ascending key order.
 */
module GenericDelivery {
  import opened Wrappers
  import opened Json
  import opened Platform
  import opened Schema
  import opened Shapes
  import opened TopicCodec
  import opened Topics
  import opened Spatial
  import opened Validation
  import opened Processor
  import opened WildcardMatcher
  import opened Delivery
  import Geometry

  lemma SameSizeSameKeys(a: set<string>, b: set<string>)
    requires a <= b && |a| == |b|
    ensures a == b
  {
    assert b == a + (b - a);
  }

  /** The decoded parts of a generic topic; a bare event type is the encoding of itself. */
  lemma GenericParts(eventType: string, params: Params, topic: string) returns (parts: seq<string>)
    requires ValidBase(eventType) && IsGenericTopic(eventType, params, topic)
    ensures AreGenericParts(parts, eventType, params) && parts[0] == eventType && |parts| == 1 + |params|
    ensures DecodeSubject(topic) == Success(parts) && topic == EncodeSubject(parts)
  {
    parts :| AreGenericParts(parts, eventType, params)
             && topic == if params == map[] then eventType else EncodeSubject(parts);
    GenericPartsInOrder(parts, eventType, params);
    LiteralBase(eventType);
    if params == map[] {
      assert parts == [eventType];
    }
    SubjectRoundTrip(parts);
  }

  // ---- matching -----------------------------------------------------------------------------

  /** As many values, and position by position in the two key orders a wildcard or the same value. */
  ghost predicate PositionsAgree(given: Params, wanted: Params) {
    |given| == |wanted|
    && forall i :: 0 <= i < |given| ==> ValueAt(wanted, i) == "*" || ValueAt(wanted, i) == ValueAt(given, i)
  }

  /** The same keys, and key by key a wildcard or the same value. */
  predicate SameKeysAgree(given: Params, wanted: Params) {
    given.Keys == wanted.Keys && forall k :: k in given ==> wanted[k] == "*" || wanted[k] == given[k]
  }

  lemma GenericPartsMatch(eventType: string, given: Params, wanted: Params, parts: seq<string>, pattern: seq<string>)
    requires AreGenericParts(parts, eventType, given) && AreGenericParts(pattern, eventType, wanted)
    ensures PartsMatch(parts, pattern) <==> PositionsAgree(given, wanted)
  {
    GenericPartsInOrder(parts, eventType, given);
    GenericPartsInOrder(pattern, eventType, wanted);
    if PartsMatch(parts, pattern) {
      forall i | 0 <= i < |given| ensures ValueAt(wanted, i) == "*" || ValueAt(wanted, i) == ValueAt(given, i) {
        assert pattern[i + 1] == "*" || pattern[i + 1] == parts[i + 1];
      }
    }
    if PositionsAgree(given, wanted) {
      forall i | 0 <= i < |parts| ensures pattern[i] == "*" || pattern[i] == parts[i] {
        if i > 0 {
          assert ValueAt(wanted, i - 1) == "*" || ValueAt(wanted, i - 1) == ValueAt(given, i - 1);
        }
      }
    }
  }

  /** Requests with the same keys agree position by position exactly when they agree key by key. */
  lemma SameKeysSamePositions(given: Params, wanted: Params)
    requires given.Keys == wanted.Keys
    ensures PositionsAgree(given, wanted) <==> SameKeysAgree(given, wanted)
  {
    var order := KeyOrder(given.Keys);
    KeyOrderIs(given.Keys);
    assert |given| == |given.Keys| == |wanted|;
    if PositionsAgree(given, wanted) {
      forall k | k in given ensures wanted[k] == "*" || wanted[k] == given[k] {
        assert k in order;
        var i :| 0 <= i < |order| && order[i] == k;
        assert ValueAt(wanted, i) == wanted[k] && ValueAt(given, i) == given[k];
      }
    }
    if SameKeysAgree(given, wanted) {
      forall i | 0 <= i < |given| ensures ValueAt(wanted, i) == "*" || ValueAt(wanted, i) == ValueAt(given, i) {
        assert order[i] in order;
      }
    }
  }

  lemma MoreKeysNoMatch(given: Params, wanted: Params)
    requires given.Keys <= wanted.Keys
    ensures PositionsAgree(given, wanted) <==> SameKeysAgree(given, wanted)
  {
    if |given.Keys| == |wanted.Keys| {
      SameSizeSameKeys(given.Keys, wanted.Keys);
      SameKeysSamePositions(given, wanted);
    } else {
      assert |given| == |given.Keys| && |wanted| == |wanted.Keys|;
    }
  }

  /** For these key sets, matching subjects always means agreeing on the same keys. */
  ghost predicate MatchingMeansKeys(given: set<string>, wanted: set<string>) {
    forall g: Params, w: Params :: g.Keys == given && w.Keys == wanted ==>
      (PositionsAgree(g, w) <==> SameKeysAgree(g, w))
  }

  function AllEqual(keys: set<string>, value: string): Params { map k | k in keys :: value }

  /** Values alone reach the subject, so equally many different keys are taken for each other. */
  lemma DifferentKeysMatch(given: set<string>, wanted: set<string>, value: string)
    requires given != wanted && |given| == |wanted|
    ensures PositionsAgree(AllEqual(given, value), AllEqual(wanted, value))
    ensures !SameKeysAgree(AllEqual(given, value), AllEqual(wanted, value))
  {
    var g, w := AllEqual(given, value), AllEqual(wanted, value);
    assert g.Keys == given && w.Keys == wanted;
    assert |g| == |g.Keys| && |w| == |w.Keys|;
  }

  /** Matching means agreement on the same keys exactly for equal key sets, and for those of different size. */
  lemma KeysDecide(given: set<string>, wanted: set<string>)
    ensures MatchingMeansKeys(given, wanted) <==> given == wanted || |given| != |wanted|
  {
    if given == wanted || |given| != |wanted| {
      forall g: Params, w: Params | g.Keys == given && w.Keys == wanted
        ensures PositionsAgree(g, w) <==> SameKeysAgree(g, w)
      {
        if given == wanted {
          SameKeysSamePositions(g, w);
        } else {
          assert |g| == |g.Keys| && |w| == |w.Keys|;
        }
      }
    } else {
      DifferentKeysMatch(given, wanted, "x");
      var g, w := AllEqual(given, "x"), AllEqual(wanted, "x");
      assert g.Keys == given && w.Keys == wanted;
    }
  }

  /** Generic subjects match position by position; the backend lets a match through unless there are no values. */
  lemma GenericPattern(eventType: string, given: Params, topic: string, wanted: Params, watchTopic: string)
    requires ValidBase(eventType)
    requires IsGenericTopic(eventType, given, topic) && IsGenericTopic(eventType, wanted, watchTopic)
    ensures AnalyzeWatchPattern(watchTopic).Success?
    ensures MatchesWatchPattern(topic, AnalyzeWatchPattern(watchTopic).value.1) <==> PositionsAgree(given, wanted)
    ensures PositionsAgree(given, wanted) ==>
              (NatsMatches(AnalyzeWatchPattern(watchTopic).value.0, topic) <==> given != map[])
  {
    var parts := GenericParts(eventType, given, topic);
    var pattern := GenericParts(eventType, wanted, watchTopic);
    GenericPartsMatch(eventType, given, wanted, parts, pattern);
    if PartsMatch(parts, pattern) {
      if given == map[] {
        assert |wanted| == 0 && wanted == map[] && watchTopic == eventType;
        StreamTakes(eventType, parts);
      } else {
        assert |given| > 0;
        CoarseAccepts(pattern, parts);
      }
    }
  }

  lemma DeliveredParts(p: Platform, schemas: Schemas, topic: string, headers: Option<Headers>, text: string,
                       w: ProcessingResult)
    requires AnalyzeWatchPattern(w.topic).Success?
    ensures Delivered(p, schemas, topic, headers, text, w) <==>
            && NatsMatches(AnalyzeWatchPattern(w.topic).value.0, topic)
            && MatchesWatchPattern(topic, AnalyzeWatchPattern(w.topic).value.1)
            && PassesFilters(p, schemas, topic, headers, text, w)
  {
  }

  // ---- event types with a schema but no topic block -----------------------------------------

  /** No topic base names an event type without a topic block, so constraints on its subjects never hold. */
  lemma NoVerdictWithoutTopic(p: Platform, schemas: Schemas, eventType: string, topic: string,
                              constraints: ConstraintMap)
    requires BasesAccepted(schemas) && eventType in schemas && schemas[eventType].topic.None?
    requires DecodeSubject(topic).Success? ==>
             DecodeSubject(topic).value != [] && DecodeSubject(topic).value[0] == eventType
    ensures !IsConstraintVerdict(p, schemas, topic, constraints, true)
  {
    if e: Option<string> :| Resolves(schemas, eventType, e) && e.Some? {
      OneOwner(schemas, eventType, e.value);
    }
  }

  lemma GenericConstraintsBlock(p: Platform, schemas: Schemas, eventType: string, params: Params, topic: string,
                                constraints: ConstraintMap)
    requires BasesAccepted(schemas) && eventType in schemas && schemas[eventType].topic.None?
    requires IsGenericTopic(eventType, params, topic)
    ensures !IsConstraintVerdict(p, schemas, topic, constraints, true)
  {
    assert ValidBase(RoutingBase(eventType, schemas[eventType]));
    var parts := GenericParts(eventType, params, topic);
    NoVerdictWithoutTopic(p, schemas, eventType, topic, constraints);
  }

  lemma GenericRequests(p: Platform, schema: EventSchema, eventType: string,
                        notify: Request, payload: bool, n: ProcessingResult, stream: Request, w: ProcessingResult)
    requires schema.topic.None?
    requires IsNotifyResult(p, eventType, schema, notify, payload, n) && IsStreamResult(p, eventType, schema, stream, w)
    ensures n.params.Keys == schema.identifier.Keys <= w.params.Keys
    ensures IsGenericTopic(eventType, n.params, n.topic) && IsGenericTopic(eventType, w.params, w.topic)
  {
  }

  /** End-to-end delivery for an event type without a topic block; without any parameter nothing is ever delivered. */
  lemma EndToEndGeneric(p: Platform, schemas: Schemas, eventType: string,
                        notify: Request, payload: bool, n: ProcessingResult, stream: Request, w: ProcessingResult,
                        headers: Option<Headers>, text: string)
    requires BasesAccepted(schemas) && eventType in schemas && schemas[eventType].topic.None?
    requires IsNotifyResult(p, eventType, schemas[eventType], notify, payload, n)
    requires IsStreamResult(p, eventType, schemas[eventType], stream, w)
    ensures Delivered(p, schemas, n.topic, headers, text, w) <==>
            && n.params != map[] && SameKeysAgree(n.params, w.params) && w.constraints == map[]
            && MatchesSpatialFilters(p, w.params, PrepareSpatialFilter(p, w.params), headers, text)
  {
    assert ValidBase(RoutingBase(eventType, schemas[eventType]));
    GenericRequests(p, schemas[eventType], eventType, notify, payload, n, stream, w);
    GenericConstraintsBlock(p, schemas, eventType, n.params, n.topic, w.constraints);
    GenericPattern(eventType, n.params, n.topic, w.params, w.topic);
    MoreKeysNoMatch(n.params, w.params);
    DeliveredParts(p, schemas, n.topic, headers, text, w);
  }

  /**
   * Without a topic block a spatial filter that is no identifier blocks delivery: it counts as one more
   * value of the pattern. So a point is never found in a stored polygon, nor a cloud by a polygon.
   */
  lemma RequestedFilterBlocks(p: Platform, schemas: Schemas, eventType: string,
                              notify: Request, payload: bool, n: ProcessingResult, stream: Request, w: ProcessingResult,
                              f: string, headers: Option<Headers>, text: string)
    requires BasesAccepted(schemas) && eventType in schemas && schemas[eventType].topic.None?
    requires IsNotifyResult(p, eventType, schemas[eventType], notify, payload, n)
    requires IsStreamResult(p, eventType, schemas[eventType], stream, w)
    requires f in stream && f !in schemas[eventType].identifier
    ensures (f == "point" || f == "polygon") && f in w.params
    ensures !Delivered(p, schemas, n.topic, headers, text, w)
  {
    FilterKept(p, schemas[eventType], stream, f);
    EndToEndGeneric(p, schemas, eventType, notify, payload, n, stream, w, headers, text);
    assert n.params.Keys == schemas[eventType].identifier.Keys;
  }

  lemma FilterKept(p: Platform, schema: EventSchema, stream: Request, f: string)
    requires StreamAccepts(p, schema, stream) && f in stream && f !in schema.identifier
    ensures (f == "point" || f == "polygon") && f in StreamParams(p, schema, stream)
  {
    assert IsSpatialFilter(schema, f);
  }

  lemma PolygonSchema(schema: EventSchema)
    requires SpatialAccepted(schema) && "polygon" in schema.identifier
    ensures schema.identifier["polygon"].PolygonRule? && !HasCloud(schema)
  {
  }

  lemma SentPolygon(p: Platform, schema: EventSchema, notify: Request)
    requires Lawful(p) && "polygon" in schema.identifier && schema.identifier["polygon"].PolygonRule?
    requires NotifyAccepts(p, schema, notify, true)
    ensures ValidatePolygon(p, notify["polygon"]).Some?
    ensures var sent := ValidatePolygon(p, notify["polygon"]).value;
            && ProducerShape(p, schema, notify) == Some(Ring(sent)) && StorableShape(Ring(sent))
            && NotifyParams(p, schema, notify)["polygon"] == p.printJson(CoordinatesJson(sent))
  {
    assert NotifyField(p, notify["polygon"], schema.identifier["polygon"]).Success?;
    PolygonFieldShape(p, notify["polygon"], schema.identifier["polygon"]);
  }

  lemma AskedPolygon(p: Platform, schema: EventSchema, stream: Request)
    requires "polygon" in schema.identifier && schema.identifier["polygon"].PolygonRule? && !HasCloud(schema)
    requires StreamAccepts(p, schema, stream) && "polygon" in stream
    ensures ValidatePolygon(p, stream["polygon"]).Some?
    ensures var asked := ValidatePolygon(p, stream["polygon"]).value;
            && StreamParams(p, schema, stream)["polygon"] == p.printJson(CoordinatesJson(asked))
            && StorableShape(Ring(asked))
  {
    AskedPolygonField(p, stream, schema.identifier["polygon"]);
    assert StreamField(p, stream, "polygon", schema.identifier["polygon"]).Success?;
    assert |"polygon"| != |"point"|;
  }

  lemma AskedPolygonField(p: Platform, stream: Request, rule: Rule)
    requires rule.PolygonRule? && "polygon" in stream && StreamField(p, stream, "polygon", rule).Success?
    ensures ValidatePolygon(p, stream["polygon"]).Some?
    ensures var asked := ValidatePolygon(p, stream["polygon"]).value;
            StreamField(p, stream, "polygon", rule) == Success(Fixed(p.printJson(CoordinatesJson(asked))))
  {
  }

  /**
   * A requested polygon without a topic block finds its own coordinates only: a stored polygon is
   * delivered exactly when the other fields agree and the request spells the very same ring, which the
   * polygon-polygon test must accept against itself.
   */
  lemma RequestedPolygonIsItself(p: Platform, schemas: Schemas, eventType: string,
                                 notify: Request, payload: bool, n: ProcessingResult, stream: Request,
                                 w: ProcessingResult, text: string)
    requires Lawful(p) && RoutingAccepted(schemas) && eventType in schemas && schemas[eventType].topic.None?
    requires IsNotifyResult(p, eventType, schemas[eventType], notify, payload, n)
    requires IsStreamResult(p, eventType, schemas[eventType], stream, w)
    requires "polygon" in schemas[eventType].identifier && "polygon" in stream
    ensures ValidatePolygon(p, notify["polygon"]).Some? && ValidatePolygon(p, stream["polygon"]).Some?
    ensures var sent, asked := ValidatePolygon(p, notify["polygon"]).value, ValidatePolygon(p, stream["polygon"]).value;
            Delivered(p, schemas, n.topic, StoredWith(n), text, w) <==>
            && sent == asked && p.polygonsIntersect(sent, sent)
            && SameKeysAgree(n.params, w.params) && w.constraints == map[] && "point" !in w.params
  {
    var schema := schemas[eventType];
    PolygonSchema(schema);
    SentPolygon(p, schema, notify);
    AskedPolygon(p, schema, stream);
    var sent, asked := ValidatePolygon(p, notify["polygon"]).value, ValidatePolygon(p, stream["polygon"]).value;
    StoredMetadata(p, schema, notify, n.spatial);
    PrefilterKeepsAnswer(p, w.params, Ring(sent), text);
    EndToEndGeneric(p, schemas, eventType, notify, payload, n, stream, w, StoredWith(n), text);
    assert "polygon" in n.params;
    SameTextSameRing(p, sent, asked);
    SelfAnswer(p, w.params, sent, asked, text);
  }

  lemma SameTextSameRing(p: Platform, a: seq<Coordinate>, b: seq<Coordinate>)
    requires Lawful(p) && AllValid(a) && AllValid(b) && ClosedRing(a) && ClosedRing(b)
    ensures p.printJson(CoordinatesJson(a)) == p.printJson(CoordinatesJson(b)) <==> a == b
    ensures p.printJson(CoordinatesJson(b)) != "*"
  {
    PolygonTextRoundTrip(p, a);
    PolygonTextRoundTrip(p, b);
  }

  lemma SelfAnswer(p: Platform, request: Params, sent: seq<Coordinate>, asked: seq<Coordinate>, text: string)
    requires Lawful(p) && AllValid(asked) && ClosedRing(asked)
    requires "polygon" in request && request["polygon"] == p.printJson(CoordinatesJson(asked))
    ensures sent == asked ==>
              (PlainAnswer(p, request, Ring(sent), text) && BoxesAdmit(p, request, Ring(sent)) <==>
               "point" !in request && p.polygonsIntersect(sent, sent))
  {
    PolygonTextRoundTrip(p, asked);
    Geometry.BoxIsTight(asked);
    Geometry.ClosedBox(asked);
    Geometry.SharedPoint(Geometry.BoxOf(asked), Geometry.BoxOf(asked), asked[0]);
  }

  // ---- event types without a schema ---------------------------------------------------------

  /** End-to-end delivery for an event type without a schema: positions decide, whatever the keys are called. */
  lemma EndToEndSchemaless(p: Platform, schemas: Schemas, eventType: string, notify: Request, n: ProcessingResult,
                           stream: Request, operation: Operation, w: ProcessingResult, headers: Option<Headers>,
                           text: string)
    requires ValidBase(eventType)
    requires IsGenericResult(p, eventType, notify, Notify, n)
    requires IsGenericResult(p, eventType, stream, operation, w)
    ensures Delivered(p, schemas, n.topic, headers, text, w) <==>
            && n.params != map[] && PositionsAgree(n.params, w.params)
            && MatchesSpatialFilters(p, w.params, PrepareSpatialFilter(p, w.params), headers, text)
  {
    GenericPattern(eventType, n.params, n.topic, w.params, w.topic);
    DeliveredParts(p, schemas, n.topic, headers, text, w);
  }

  /** No geometry is stored for such an event type, so a requested polygon blocks delivery whatever was sent. */
  lemma SchemalessSpatial(p: Platform, schemas: Schemas, eventType: string, notify: Request, n: ProcessingResult,
                          stream: Request, operation: Operation, w: ProcessingResult, text: string)
    requires ValidBase(eventType)
    requires IsGenericResult(p, eventType, notify, Notify, n)
    requires IsGenericResult(p, eventType, stream, operation, w)
    ensures Delivered(p, schemas, n.topic, StoredWith(n), text, w) <==>
            && n.params != map[] && PositionsAgree(n.params, w.params)
            && ("polygon" in w.params ==> w.params["polygon"] == "*")
            && ("point" in w.params ==> PayloadHoldsPoint(p, w.params["point"], text))
  {
    EndToEndSchemaless(p, schemas, eventType, notify, n, stream, operation, w, None, text);
    NothingStored(p, w.params, text);
  }

  lemma GenericTopicOf(eventType: string, params: Params) returns (topic: string)
    ensures IsGenericTopic(eventType, params, topic)
  {
    KeyOrderIs(params.Keys);
    var parts := [eventType] + Values(KeyOrder(params.Keys), params);
    assert AreGenericParts(parts, eventType, params);
    topic := if params == map[] then eventType else EncodeSubject(parts);
  }

  /** Every accepted request without schema has a result. */
  lemma GenericResult(p: Platform, eventType: string, request: Request, operation: Operation)
    returns (g: ProcessingResult)
    requires GenericAccepts(p, request, operation)
    ensures IsGenericResult(p, eventType, request, operation, g)
  {
    var topic := GenericTopicOf(eventType, GenericParams(p, request, operation));
    g := ProcessingResult(eventType, topic, GenericParams(p, request, operation), map[], None, false);
  }

  function OneField(key: string, value: string): Request { map[key := Str(value)] }

  lemma OneFieldParams(p: Platform, key: string, value: string, operation: Operation)
    requires operation == Notify ==> value != []
    ensures GenericAccepts(p, OneField(key, value), operation)
    ensures GenericParams(p, OneField(key, value), operation) == AllEqual({key}, value)
  {
    assert GenericField(p, Str(value), operation) == Success(value);
  }

  lemma OneFieldResult(p: Platform, eventType: string, key: string, value: string, operation: Operation)
    returns (g: ProcessingResult)
    requires operation == Notify ==> value != []
    ensures IsGenericResult(p, eventType, OneField(key, value), operation, g)
    ensures g.params == AllEqual({key}, value)
  {
    OneFieldParams(p, key, value, operation);
    g := GenericResult(p, eventType, OneField(key, value), operation);
  }

  lemma NoSpatialFilter(p: Platform, request: Params, headers: Option<Headers>, text: string)
    requires "point" !in request && ("polygon" in request ==> request["polygon"] == "*")
    ensures MatchesSpatialFilters(p, request, PrepareSpatialFilter(p, request), headers, text)
  {
  }

  /**
   * Different keys, same position: a subscriber that asks for a value under another key receives
   * what was sent, although no key of its request is one of the producer's.
   */
  lemma OtherKeyDelivered(p: Platform, schemas: Schemas, eventType: string, given: string, wanted: string,
                          value: string, headers: Option<Headers>, text: string)
    returns (n: ProcessingResult, w: ProcessingResult)
    requires ValidBase(eventType) && value != [] && given != wanted && wanted != "point" && wanted != "polygon"
    ensures IsGenericResult(p, eventType, OneField(given, value), Notify, n)
    ensures IsGenericResult(p, eventType, OneField(wanted, value), Watch, w)
    ensures Delivered(p, schemas, n.topic, headers, text, w) && !SameKeysAgree(n.params, w.params)
  {
    n := OneFieldResult(p, eventType, given, value, Notify);
    w := OneFieldResult(p, eventType, wanted, value, Watch);
    assert given in {given} && given !in {wanted};
    DifferentKeysMatch({given}, {wanted}, value);
    NoSpatialFilter(p, w.params, headers, text);
    assert given in n.params;
    EndToEndSchemaless(p, schemas, eventType, OneField(given, value), n, OneField(wanted, value), Watch, w, headers,
                       text);
  }
}
