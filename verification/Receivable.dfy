/** Which subscriptions can receive a notification at all, field by field. */
module Receivable {
  import opened Wrappers
  import opened Json
  import opened Platform
  import opened Schema
  import opened Topics
  import opened Spatial
  import opened Validation
  import opened Processor
  import opened Delivery
  import opened Results
  import opened Authorised
  import opened Listed
  import EcpdsClient
  import EcpdsChecker

  // ---- one field at a time ------------------------------------------------------------------

  /** A producer can send this value in the field, and the request takes it. */
  predicate TakesValue(p: Platform, schema: EventSchema, w: ProcessingResult, f: string, value: Json)
    requires f in schema.identifier && f in w.params
  {
    var field := NotifyField(p, value, schema.identifier[f]);
    field.Success?
    && (w.params[f] == "*" || w.params[f] == field.value.text) && KeyAllows(p, w, f, field.value.text)
  }

  ghost predicate FieldOpen(p: Platform, schema: EventSchema, w: ProcessingResult, f: string)
    requires f in schema.identifier && f in w.params
  {
    exists value :: TakesValue(p, schema, w, f, value)
  }

  /** Every scalar field has a value that the request takes. */
  ghost predicate ScalarsOpen(p: Platform, schema: EventSchema, w: ProcessingResult)
    requires schema.identifier.Keys <= w.params.Keys
  {
    forall f :: f in schema.identifier && !schema.identifier[f].IsSpatial() ==> FieldOpen(p, schema, w, f)
  }

  /** A geometry that the request's spatial filters let through; without a topic block its text counts too. */
  predicate TakesGeometry(p: Platform, schema: EventSchema, w: ProcessingResult, g: string, value: Json, text: string)
    requires g in schema.identifier && g in w.params
  {
    var field := NotifyField(p, value, schema.identifier[g]);
    schema.identifier[g].IsSpatial() && field.Success?
    && (schema.topic.None? ==> w.params[g] == "*" || w.params[g] == field.value.text)
    && FiltersPass(p, w, FieldMetadata(p, field.value), text)
  }

  predicate FiltersPass(p: Platform, w: ProcessingResult, spatial: Option<SpatialMetadata>, text: string) {
    var headers := if spatial.None? then None else Some(HeadersOf(spatial.value));
    MatchesSpatialFilters(p, w.params, PrepareSpatialFilter(p, w.params), headers, text)
  }

  predicate HasGeometry(schema: EventSchema) {
    exists g :: g in schema.identifier && schema.identifier[g].IsSpatial()
  }

  ghost predicate GeometryOpen(p: Platform, schema: EventSchema, w: ProcessingResult)
    requires schema.identifier.Keys <= w.params.Keys
  {
    if HasGeometry(schema) then
      exists g, value, text :: g in schema.identifier && TakesGeometry(p, schema, w, g, value, text)
    else exists text :: FiltersPass(p, w, None, text)
  }

  /** Without a topic block: some field, no further filter key, no constraint. */
  predicate KeysOpen(schema: EventSchema, w: ProcessingResult) {
    schema.topic.None? ==>
      schema.identifier != map[] && w.params.Keys == schema.identifier.Keys && w.constraints == map[]
  }

  // ---- what an accepted schema gives --------------------------------------------------------

  lemma OneGeometry(schema: EventSchema, f: string, g: string)
    requires SpatialAccepted(schema) && f in schema.identifier && g in schema.identifier
    requires schema.identifier[f].IsSpatial() && schema.identifier[g].IsSpatial()
    ensures f == g
  {
  }

  lemma ScalarNames(schema: EventSchema, f: string)
    requires SpatialAccepted(schema) && TopicAccepted(schema) && schema.topic.Some? && f in schema.identifier
    ensures schema.identifier[f].IsSpatial() <==> f == "polygon" || f == "point_cloud"
  {
  }

  lemma ConstrainedScalar(p: Platform, schema: EventSchema, stream: Request, f: string)
    requires StreamAccepts(p, schema, stream) && f in StreamConstraints(p, schema, stream)
    ensures f in schema.identifier && !schema.identifier[f].IsSpatial()
  {
  }

  lemma AskedKeys(p: Platform, schema: EventSchema, stream: Request)
    requires StreamAccepts(p, schema, stream)
    ensures schema.identifier.Keys <= StreamParams(p, schema, stream).Keys
  {
  }

  // ---- from a notification to its fields ----------------------------------------------------

  lemma PassingField(p: Platform, schema: EventSchema, w: ProcessingResult, notify: Request, f: string)
    requires SpatialAccepted(schema) && TopicAccepted(schema) && schema.identifier.Keys <= w.params.Keys
    requires NotifyAccepts(p, schema, notify, true) && ParamsPass(p, schema, w, NotifyParams(p, schema, notify))
    requires f in schema.identifier && !schema.identifier[f].IsSpatial()
    ensures TakesValue(p, schema, w, f, notify[f])
  {
    var given := NotifyParams(p, schema, notify);
    assert f in given;
    if schema.topic.Some? {
      ScalarNames(schema, f);
    }
  }

  lemma PassingGeometry(p: Platform, schema: EventSchema, w: ProcessingResult, notify: Request,
                        spatial: Option<SpatialMetadata>, text: string)
    requires schema.identifier.Keys <= w.params.Keys
    requires NotifyAccepts(p, schema, notify, true) && ParamsPass(p, schema, w, NotifyParams(p, schema, notify))
    requires IsNotifySpatial(p, schema, notify, spatial) && FiltersPass(p, w, spatial, text)
    ensures GeometryOpen(p, schema, w)
  {
    if spatial.Some? {
      var g :| g in schema.identifier && schema.identifier[g].IsSpatial()
               && spatial == FieldMetadata(p, NotifyField(p, notify[g], schema.identifier[g]).value);
      assert g in NotifyParams(p, schema, notify);
      assert TakesGeometry(p, schema, w, g, notify[g], text);
    } else {
      assert !HasGeometry(schema);
    }
  }

  // ---- from fields to a notification --------------------------------------------------------

  /** A value for every field: one that is taken, and for the geometry the given one. */
  ghost function Chosen(p: Platform, schema: EventSchema, w: ProcessingResult, geometry: Json): Request
    requires schema.identifier.Keys <= w.params.Keys && ScalarsOpen(p, schema, w)
  {
    map f | f in schema.identifier :: if schema.identifier[f].IsSpatial() then geometry else TakenValue(p, schema, w, f)
  }

  ghost function TakenValue(p: Platform, schema: EventSchema, w: ProcessingResult, f: string): (value: Json)
    requires f in schema.identifier && f in w.params && FieldOpen(p, schema, w, f)
    ensures TakesValue(p, schema, w, f, value)
  {
    var value :| TakesValue(p, schema, w, f, value);
    value
  }

  lemma ChosenAccepted(p: Platform, schema: EventSchema, w: ProcessingResult, geometry: Json)
    requires schema.identifier.Keys <= w.params.Keys && ScalarsOpen(p, schema, w)
    requires forall g :: g in schema.identifier && schema.identifier[g].IsSpatial() ==>
               NotifyField(p, geometry, schema.identifier[g]).Success?
    ensures NotifyAccepts(p, schema, Chosen(p, schema, w, geometry), true)
  {
  }

  /** A request's parameters pass when every scalar is taken and, without a topic block, the geometry's text too. */
  lemma TakenPasses(p: Platform, schema: EventSchema, stream: Request, w: ProcessingResult, given: Params)
    requires SpatialAccepted(schema) && TopicAccepted(schema) && KeysOpen(schema, w)
    requires StreamAccepts(p, schema, stream) && w.constraints == StreamConstraints(p, schema, stream)
    requires given.Keys == schema.identifier.Keys <= w.params.Keys
    requires forall f :: f in given && !schema.identifier[f].IsSpatial() ==>
               (w.params[f] == "*" || w.params[f] == given[f]) && KeyAllows(p, w, f, given[f])
    requires schema.topic.None? ==> forall f :: f in given && schema.identifier[f].IsSpatial() ==>
               w.params[f] == "*" || w.params[f] == given[f]
    ensures ParamsPass(p, schema, w, given)
  {
    if schema.topic.Some? {
      forall f | f in w.constraints ensures f in given && KeyAllows(p, w, f, given[f]) {
        ConstrainedScalar(p, schema, stream, f);
      }
      forall f | f in given && f != "polygon" && f != "point_cloud" ensures !schema.identifier[f].IsSpatial() {
        ScalarNames(schema, f);
      }
    } else {
      assert schema.identifier.Keys != {};
      var f :| f in schema.identifier;
      assert f in given;
    }
  }

  lemma ChosenText(p: Platform, schema: EventSchema, w: ProcessingResult, geometry: Json, f: string)
    requires schema.identifier.Keys <= w.params.Keys && ScalarsOpen(p, schema, w)
    requires NotifyAccepts(p, schema, Chosen(p, schema, w, geometry), true)
    requires f in schema.identifier
    ensures var text := NotifyParams(p, schema, Chosen(p, schema, w, geometry))[f];
            if schema.identifier[f].IsSpatial() then
              text == NotifyField(p, geometry, schema.identifier[f]).value.text
            else
              (w.params[f] == "*" || w.params[f] == text) && KeyAllows(p, w, f, text)
  {
    if !schema.identifier[f].IsSpatial() {
      assert FieldOpen(p, schema, w, f) && Chosen(p, schema, w, geometry)[f] == TakenValue(p, schema, w, f);
    }
  }

  lemma ChosenPasses(p: Platform, schema: EventSchema, stream: Request, w: ProcessingResult, geometry: Json)
    requires SpatialAccepted(schema) && TopicAccepted(schema) && KeysOpen(schema, w)
    requires StreamAccepts(p, schema, stream) && w.constraints == StreamConstraints(p, schema, stream)
    requires schema.identifier.Keys <= w.params.Keys && ScalarsOpen(p, schema, w)
    requires NotifyAccepts(p, schema, Chosen(p, schema, w, geometry), true)
    requires schema.topic.None? ==> forall g :: g in schema.identifier && schema.identifier[g].IsSpatial() ==>
               w.params[g] == "*" || w.params[g] == NotifyField(p, geometry, schema.identifier[g]).value.text
    ensures ParamsPass(p, schema, w, NotifyParams(p, schema, Chosen(p, schema, w, geometry)))
  {
    var given := NotifyParams(p, schema, Chosen(p, schema, w, geometry));
    forall f | f in given
      ensures if schema.identifier[f].IsSpatial() then
              given[f] == NotifyField(p, geometry, schema.identifier[f]).value.text
              else (w.params[f] == "*" || w.params[f] == given[f]) && KeyAllows(p, w, f, given[f])
    {
      ChosenText(p, schema, w, geometry, f);
    }
    TakenPasses(p, schema, stream, w, given);
  }

  lemma ChosenMetadata(p: Platform, schema: EventSchema, w: ProcessingResult, geometry: Json)
    returns (spatial: Option<SpatialMetadata>)
    requires schema.identifier.Keys <= w.params.Keys && ScalarsOpen(p, schema, w)
    requires NotifyAccepts(p, schema, Chosen(p, schema, w, geometry), true)
    ensures IsNotifySpatial(p, schema, Chosen(p, schema, w, geometry), spatial)
    ensures spatial.None? <==> !HasGeometry(schema)
    ensures spatial.Some? ==> exists g :: g in schema.identifier && schema.identifier[g].IsSpatial()
                                          && NotifyField(p, geometry, schema.identifier[g]).Success?
                                          && spatial == FieldMetadata(p,
                                                                      NotifyField(p, geometry,
                                                                                  schema.identifier[g]).value)
  {
    var request := Chosen(p, schema, w, geometry);
    spatial := NotifyMetadata(p, schema, request);
    if spatial.Some? {
      var g :| g in schema.identifier && schema.identifier[g].IsSpatial()
               && spatial == FieldMetadata(p, NotifyField(p, request[g], schema.identifier[g]).value);
      assert request[g] == geometry;
    }
  }

  /** Once the parameters and the filters pass, the notification reaches the subscriber. */
  lemma ChosenReaches(p: Platform, schemas: Schemas, eventType: string, stream: Request, w: ProcessingResult,
                      request: Request, spatial: Option<SpatialMetadata>, text: string)
    requires RoutingAccepted(schemas) && eventType in schemas
    requires IsStreamResult(p, eventType, schemas[eventType], stream, w)
    requires NotifyAccepts(p, schemas[eventType], request, true)
    requires IsNotifySpatial(p, schemas[eventType], request, spatial) && FiltersPass(p, w, spatial, text)
    requires ParamsPass(p, schemas[eventType], w, NotifyParams(p, schemas[eventType], request))
    ensures SomeReach(p, schemas, eventType, w)
  {
    var schema := schemas[eventType];
    assert TopicAccepted(schema);
    var params := NotifyParams(p, schema, request);
    var topic := TopicOf(eventType, schema, params);
    var n := ProcessingResult(eventType, topic, params, map[], spatial, true);
    OwnDelivery(p, schemas, eventType, request, true, n, stream, w, StoredWith(n), text);
    assert Reaches(p, schemas, eventType, request, true, n, text, w);
  }

  lemma FieldsReach(p: Platform, schemas: Schemas, eventType: string, stream: Request, w: ProcessingResult)
    requires RoutingAccepted(schemas) && eventType in schemas
    requires IsStreamResult(p, eventType, schemas[eventType], stream, w)
    requires schemas[eventType].identifier.Keys <= w.params.Keys
    requires KeysOpen(schemas[eventType], w) && ScalarsOpen(p, schemas[eventType], w)
    requires GeometryOpen(p, schemas[eventType], w)
    ensures SomeReach(p, schemas, eventType, w)
  {
    var schema := schemas[eventType];
    assert TopicAccepted(schema) && SpatialAccepted(schema);
    var geometry, text := Null, "";
    if HasGeometry(schema) {
      var g, value, payload :| g in schema.identifier && TakesGeometry(p, schema, w, g, value, payload);
      geometry, text := value, payload;
      forall f | f in schema.identifier && schema.identifier[f].IsSpatial() ensures f == g {
        OneGeometry(schema, f, g);
      }
    } else {
      text :| FiltersPass(p, w, None, text);
    }
    ChosenAccepted(p, schema, w, geometry);
    ChosenPasses(p, schema, stream, w, geometry);
    var spatial := ChosenMetadata(p, schema, w, geometry);
    ChosenReaches(p, schemas, eventType, stream, w, Chosen(p, schema, w, geometry), spatial, text);
  }

  /**
   * Exactly which requests can receive a notification of their event type: each scalar field, on its
   * own, has a value that a producer can send and the request takes, and some geometry passes.
   */
  lemma ReceivesExactly(p: Platform, schemas: Schemas, eventType: string, stream: Request, w: ProcessingResult)
    requires RoutingAccepted(schemas) && eventType in schemas
    requires IsStreamResult(p, eventType, schemas[eventType], stream, w)
    ensures schemas[eventType].identifier.Keys <= w.params.Keys
    ensures SomeReach(p, schemas, eventType, w) <==>
            && KeysOpen(schemas[eventType], w) && ScalarsOpen(p, schemas[eventType], w)
            && GeometryOpen(p, schemas[eventType], w)
  {
    AskedKeys(p, schemas[eventType], stream);
    if SomeReach(p, schemas, eventType, w) {
      var notify, payload, n, text :| Reaches(p, schemas, eventType, notify, payload, n, text, w);
      ReachedFields(p, schemas, eventType, stream, w, notify, payload, n, text);
    } else if KeysOpen(schemas[eventType], w) && ScalarsOpen(p, schemas[eventType], w)
              && GeometryOpen(p, schemas[eventType], w) {
      FieldsReach(p, schemas, eventType, stream, w);
    }
  }

  lemma ReachedFields(p: Platform, schemas: Schemas, eventType: string, stream: Request, w: ProcessingResult,
                      notify: Request, payload: bool, n: ProcessingResult, text: string)
    requires RoutingAccepted(schemas) && eventType in schemas
    requires IsStreamResult(p, eventType, schemas[eventType], stream, w)
    requires schemas[eventType].identifier.Keys <= w.params.Keys
    requires Reaches(p, schemas, eventType, notify, payload, n, text, w)
    ensures KeysOpen(schemas[eventType], w) && ScalarsOpen(p, schemas[eventType], w)
    ensures GeometryOpen(p, schemas[eventType], w)
  {
    var schema := schemas[eventType];
    assert TopicAccepted(schema) && SpatialAccepted(schema);
    OwnDelivery(p, schemas, eventType, notify, payload, n, stream, w, StoredWith(n), text);
    forall f | f in schema.identifier && !schema.identifier[f].IsSpatial() ensures FieldOpen(p, schema, w, f) {
      PassingField(p, schema, w, notify, f);
    }
    PassingGeometry(p, schema, w, notify, n.spatial, text);
    PassingKeys(p, schema, w, n.params);
  }

  lemma PassingKeys(p: Platform, schema: EventSchema, w: ProcessingResult, given: Params)
    requires given.Keys == schema.identifier.Keys && ParamsPass(p, schema, w, given)
    ensures KeysOpen(schema, w)
  {
  }

  /** The list decides, with the last case spelled out: some field has no value that the request takes. */
  lemma FieldsDecideList(p: Platform, matchKey: string, schemas: Schemas, eventType: string, stream: Request,
                         w: ProcessingResult, list: EcpdsClient.Destinations)
    requires IsProtectedRead(p, matchKey, schemas, eventType, stream, w)
             && EcpdsChecker.Allows(matchKey, w.params, list)
    ensures matchKey in schemas[eventType].identifier && schemas[eventType].identifier.Keys <= w.params.Keys
    ensures OnlyListedReach(p, matchKey, schemas, eventType, w, list) <==>
            || w.params[matchKey] != "*"
            || RuleListed(p, schemas[eventType].identifier[matchKey], w, matchKey, list)
            || !(KeysOpen(schemas[eventType], w) && ScalarsOpen(p, schemas[eventType], w)
                 && GeometryOpen(p, schemas[eventType], w))
  {
    NotificationListDecides(p, matchKey, schemas, eventType, stream, w, list);
    ReceivesExactly(p, schemas, eventType, stream, w);
  }
}
