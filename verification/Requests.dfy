/** Delivery in the terms of the two requests alone. */
module Requests {
  import opened Wrappers
  import opened Json
  import opened Platform
  import opened Schema
  import opened Scalars
  import opened Shapes
  import opened Topics
  import opened Spatial
  import opened Validation
  import opened Processor
  import opened WildcardMatcher
  import opened Delivery
  import opened Fields
  import opened Asked

  /**
   * The subscriber takes what the producer sent in a scalar field: it left the field out, asked for a
   * relation or for '*', or sent the same value. A field named 'point' is compared as a printed point.
   */
  ghost predicate Taken(p: Platform, rule: Rule, f: string, sent: Json, stream: Request)
    requires f == "point" && f in stream ==> ParsePointValue(p, stream[f]).Some?
    requires ScalarText(p, sent).Success?
  {
    f in stream && !stream[f].Object? ==>
      if f == "point" then
        FieldText(p, sent, rule) == Success(p.printJson(CoordinateJson(ParsePointValue(p, stream[f]).value)))
      else
        && ScalarText(p, stream[f]).Success?
        && (FieldText(p, stream[f], rule) == Success("*")
            || SameValue(p, rule, ScalarText(p, sent).value, ScalarText(p, stream[f]).value))
  }

  /** The versions in both requests are ASCII. */
  predicate AllComparable(p: Platform, schema: EventSchema, request: Request) {
    forall f :: f in schema.identifier && f in request && ScalarText(p, request[f]).Success? ==>
      Comparable(schema.identifier[f], ScalarText(p, request[f]).value)
  }

  lemma SentIsText(p: Platform, schema: EventSchema, notify: Request, f: string)
    requires NotifyAccepts(p, schema, notify, true) && f in schema.identifier && !schema.identifier[f].IsSpatial()
    ensures f in notify && ScalarText(p, notify[f]).Success?
  {
    SentField(p, schema, notify, f);
    TextOfValue(p, notify[f], schema.identifier[f]);
  }

  lemma AskedPoint(p: Platform, schema: EventSchema, stream: Request)
    requires StreamAccepts(p, schema, stream) && "point" in stream
    ensures ParsePointValue(p, stream["point"]).Some? && !stream["point"].Object?
    ensures "point" in StreamParams(p, schema, stream)
    ensures StreamParams(p, schema, stream)["point"]
            == p.printJson(CoordinateJson(ParsePointValue(p, stream["point"]).value))
  {
    assert |"point"| != |"polygon"|;
  }

  lemma UnaskedField(p: Platform, schema: EventSchema, stream: Request, f: string)
    requires StreamAccepts(p, schema, stream) && f in schema.identifier && f != "polygon"
    requires f !in stream || stream[f].Object?
    ensures f in StreamParams(p, schema, stream) && StreamParams(p, schema, stream)[f] == "*"
  {
    assert StreamField(p, stream, f, schema.identifier[f]).Success?;
    assert FieldTokens(p, schema, stream)[f] == "*";
  }

  lemma PointNotStar(p: Platform, c: Coordinate)
    requires Lawful(p)
    ensures p.printJson(CoordinateJson(c)) != "*"
  {
    assert Reprintable(p, CoordinateJson(c));
  }

  lemma FieldTaken(p: Platform, schema: EventSchema, notify: Request, stream: Request, f: string)
    requires Lawful(p) && NotifyAccepts(p, schema, notify, true) && StreamAccepts(p, schema, stream)
    requires AllComparable(p, schema, notify) && AllComparable(p, schema, stream)
    requires f in schema.identifier && !schema.identifier[f].IsSpatial() && f != "polygon"
    ensures f in StreamParams(p, schema, stream) && f in notify && ScalarText(p, notify[f]).Success?
    ensures f == "point" && f in stream ==> ParsePointValue(p, stream[f]).Some?
    ensures var wanted, given := StreamParams(p, schema, stream)[f], NotifyParams(p, schema, notify)[f];
            wanted == "*" || wanted == given <==> Taken(p, schema.identifier[f], f, notify[f], stream)
  {
    SentIsText(p, schema, notify, f);
    SentField(p, schema, notify, f);
    if f !in stream || stream[f].Object? {
      UnaskedField(p, schema, stream, f);
      if "point" in stream {
        AskedPoint(p, schema, stream);
      }
    } else if f == "point" {
      AskedPoint(p, schema, stream);
      PointNotStar(p, ParsePointValue(p, stream[f]).value);
    } else {
      AskedField(p, schema, stream, f);
      FieldsMeet(p, schema, notify, stream, f);
    }
  }

  ghost predicate TakesField(p: Platform, schema: EventSchema, notify: Request, stream: Request, f: string)
    requires NotifyAccepts(p, schema, notify, true) && StreamAccepts(p, schema, stream) && f in schema.identifier
  {
    ScalarText(p, notify[f]).Success? && Taken(p, schema.identifier[f], f, notify[f], stream)
  }

  /** What the producer sent is taken in every scalar field. */
  ghost predicate AllTaken(p: Platform, schema: EventSchema, notify: Request, stream: Request)
    requires NotifyAccepts(p, schema, notify, true) && StreamAccepts(p, schema, stream)
  {
    forall f :: f in schema.identifier && !schema.identifier[f].IsSpatial() ==>
      TakesField(p, schema, notify, stream, f)
  }

  lemma ScalarKeys(schema: EventSchema, f: string)
    requires SpatialAccepted(schema) && TopicAccepted(schema) && schema.topic.Some? && f in schema.identifier
    ensures schema.identifier[f].IsSpatial() <==> f == "polygon" || f == "point_cloud"
  {
  }

  predicate ScalarMatches(wanted: Params, given: Params, f: string)
    requires f in wanted && f in given
  {
    wanted[f] == "*" || wanted[f] == given[f]
  }

  predicate ScalarsMatch(schema: EventSchema, wanted: Params, given: Params)
    requires schema.identifier.Keys <= wanted.Keys && schema.identifier.Keys <= given.Keys
  {
    forall f :: f in schema.identifier && !schema.identifier[f].IsSpatial() ==> ScalarMatches(wanted, given, f)
  }

  lemma AgreementIsMatch(schema: EventSchema, wanted: Params, given: Params)
    requires SpatialAccepted(schema) && TopicAccepted(schema) && schema.topic.Some?
    requires schema.identifier.Keys <= wanted.Keys && schema.identifier.Keys <= given.Keys
    ensures FieldsAgree(schema, wanted, given) <==> ScalarsMatch(schema, wanted, given)
  {
    forall f | f in schema.identifier
      ensures schema.identifier[f].IsSpatial() <==> f == "polygon" || f == "point_cloud"
    {
      ScalarKeys(schema, f);
    }
  }

  /** In this scalar field, taking the value is a match of the parameters. */
  ghost predicate TakingMatches(p: Platform, schema: EventSchema, notify: Request, stream: Request, f: string)
    requires NotifyAccepts(p, schema, notify, true) && StreamAccepts(p, schema, stream)
    requires f in schema.identifier && f in StreamParams(p, schema, stream)
  {
    ScalarMatches(StreamParams(p, schema, stream), NotifyParams(p, schema, notify), f) <==>
      TakesField(p, schema, notify, stream, f)
  }

  lemma ScalarTaken(p: Platform, schema: EventSchema, notify: Request, stream: Request, f: string)
    requires Lawful(p) && NotifyAccepts(p, schema, notify, true) && StreamAccepts(p, schema, stream)
    requires AllComparable(p, schema, notify) && AllComparable(p, schema, stream) && SpatialAccepted(schema)
    requires f in schema.identifier && !schema.identifier[f].IsSpatial() && f in StreamParams(p, schema, stream)
    ensures TakingMatches(p, schema, notify, stream, f)
  {
    PolygonIsSpatial(schema, f);
    FieldTaken(p, schema, notify, stream, f);
  }

  lemma MatchIsTaken(p: Platform, schema: EventSchema, notify: Request, stream: Request)
    requires NotifyAccepts(p, schema, notify, true) && StreamAccepts(p, schema, stream)
    requires schema.identifier.Keys <= StreamParams(p, schema, stream).Keys
    requires forall f :: f in schema.identifier && !schema.identifier[f].IsSpatial() ==>
               TakingMatches(p, schema, notify, stream, f)
    ensures ScalarsMatch(schema, StreamParams(p, schema, stream), NotifyParams(p, schema, notify)) <==>
            AllTaken(p, schema, notify, stream)
  {
    forall f | f in schema.identifier && !schema.identifier[f].IsSpatial()
      ensures ScalarMatches(StreamParams(p, schema, stream), NotifyParams(p, schema, notify), f) <==>
              TakesField(p, schema, notify, stream, f)
    {
      assert TakingMatches(p, schema, notify, stream, f);
    }
  }

  lemma EveryScalarTaken(p: Platform, schema: EventSchema, notify: Request, stream: Request)
    requires Lawful(p) && NotifyAccepts(p, schema, notify, true) && StreamAccepts(p, schema, stream)
    requires AllComparable(p, schema, notify) && AllComparable(p, schema, stream) && SpatialAccepted(schema)
    requires schema.identifier.Keys <= StreamParams(p, schema, stream).Keys
    ensures forall f :: f in schema.identifier && !schema.identifier[f].IsSpatial() ==>
              TakingMatches(p, schema, notify, stream, f)
  {
    forall f | f in schema.identifier && !schema.identifier[f].IsSpatial()
      ensures TakingMatches(p, schema, notify, stream, f)
    {
      ScalarTaken(p, schema, notify, stream, f);
    }
  }

  lemma PolygonIsSpatial(schema: EventSchema, f: string)
    requires SpatialAccepted(schema) && f in schema.identifier && !schema.identifier[f].IsSpatial()
    ensures f != "polygon"
  {
  }

  /**
   * End-to-end delivery by the two requests: every scalar that the subscriber names is the value the
   * producer sent, what was sent stands in every relation asked for, and the spatial filters pass.
   */
  lemma EndToEndRequests(p: Platform, schemas: Schemas, eventType: string, notify: Request, payload: bool,
                         n: ProcessingResult, stream: Request, w: ProcessingResult, headers: Option<Headers>,
                         text: string)
    requires Lawful(p) && RoutingAccepted(schemas) && eventType in schemas && schemas[eventType].topic.Some?
    requires IsNotifyResult(p, eventType, schemas[eventType], notify, payload, n)
    requires IsStreamResult(p, eventType, schemas[eventType], stream, w)
    requires AllComparable(p, schemas[eventType], notify) && AllComparable(p, schemas[eventType], stream)
    ensures schemas[eventType].identifier.Keys <= notify.Keys
    ensures Delivered(p, schemas, n.topic, headers, text, w) <==>
            && AllTaken(p, schemas[eventType], notify, stream)
            && AllMet(p, schemas[eventType], notify, stream)
            && MatchesSpatialFilters(p, w.params, PrepareSpatialFilter(p, w.params), headers, text)
  {
    EndToEndAsked(p, schemas, eventType, notify, payload, n, stream, w, headers, text);
    assert TopicAccepted(schemas[eventType]) && SpatialAccepted(schemas[eventType]);
    AgreementIsMatch(schemas[eventType], w.params, n.params);
    EveryScalarTaken(p, schemas[eventType], notify, stream);
    MatchIsTaken(p, schemas[eventType], notify, stream);
  }

  // ---- which requests are taken -------------------------------------------------------------

  /** A subscriber leaves out a field unless it is required and no other geometry stands in for it. */
  lemma LeftOutAccepted(p: Platform, request: Request, f: string, rule: Rule)
    requires f !in request
    ensures StreamField(p, request, f, rule) ==
            if !rule.required || (f == "polygon" && "point" in request)
               || (rule.PointCloudRule? && "polygon" in request) then Success(Anything)
            else Failure(MissingField(f))
  {
  }

  /** Beside its own fields an accepted schema lets a subscriber ask for a point of polygons and a polygon of clouds. */
  lemma ExtraFilters(schema: EventSchema, f: string)
    requires SpatialAccepted(schema)
    ensures IsSpatialFilter(schema, f) <==>
            (f == "point" && "polygon" in schema.identifier) || (f == "polygon" && "point_cloud" in schema.identifier)
  {
    if "point_cloud" in schema.identifier {
      assert schema.identifier["point_cloud"].PointCloudRule?;
    }
  }

  /** Without a schema any scalar is a value, except that a producer's is not empty. */
  lemma GenericValue(p: Platform, value: Json, operation: Operation, text: string)
    ensures GenericField(p, value, operation) == Success(text) <==>
            ScalarText(p, value) == Success(text) && (operation == Notify ==> text != "")
    ensures GenericField(p, value, operation) == Failure(ObjectNotAllowed) <==> value.Object?
  {
  }

  /** A producer sends no objects, whatever the rule. */
  lemma ObjectsRefused(p: Platform, value: Json, rule: Rule)
    ensures NotifyField(p, value, rule) == Failure(ObjectNotAllowed) <==> value.Object?
  {
  }
}
