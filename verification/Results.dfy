/** Every accepted request has a result. */
module Results {
  import opened Wrappers
  import opened Json
  import opened Platform
  import opened Schema
  import opened TopicCodec
  import opened Topics
  import opened Spatial
  import opened Processor
  import opened GenericDelivery

  /** This value of a producer's field is read as this text. */
  predicate IsSent(p: Platform, rule: Rule, value: Json, text: string) {
    NotifyField(p, value, rule).Success? && NotifyField(p, value, rule).value.text == text
  }

  lemma NotifyMetadata(p: Platform, schema: EventSchema, request: Request) returns (spatial: Option<SpatialMetadata>)
    requires NotifyAccepts(p, schema, request, true)
    ensures IsNotifySpatial(p, schema, request, spatial)
  {
    if f :| f in schema.identifier && schema.identifier[f].IsSpatial() {
      assert NotifyField(p, request[f], schema.identifier[f]).Success?;
      spatial := FieldMetadata(p, NotifyField(p, request[f], schema.identifier[f]).value);
    } else {
      spatial := None;
    }
  }

  lemma TopicOf(eventType: string, schema: EventSchema, params: Params) returns (topic: string)
    requires Routable(schema, params)
    ensures IsTopic(eventType, schema, params, topic)
  {
    if schema.topic.Some? {
      topic := EncodeSubject(SchemaParts(schema.topic.value, params));
    } else {
      topic := GenericTopicOf(eventType, params);
    }
  }

  lemma NotifyResult(p: Platform, eventType: string, schema: EventSchema, request: Request, payload: bool)
    returns (n: ProcessingResult)
    requires NotifyAccepts(p, schema, request, payload) && Routable(schema, NotifyParams(p, schema, request))
    ensures IsNotifyResult(p, eventType, schema, request, payload, n)
  {
    var params := NotifyParams(p, schema, request);
    var topic := TopicOf(eventType, schema, params);
    var spatial := NotifyMetadata(p, schema, request);
    n := ProcessingResult(eventType, topic, params, map[], spatial, true);
  }

  lemma StreamResult(p: Platform, eventType: string, schema: EventSchema, request: Request)
    returns (w: ProcessingResult)
    requires StreamAccepts(p, schema, request)
             && Routable(schema, RoutedParams(schema, Watch, StreamParams(p, schema, request)))
    ensures IsStreamResult(p, eventType, schema, request, w)
  {
    var params := StreamParams(p, schema, request);
    var topic := TopicOf(eventType, schema, RoutedParams(schema, Watch, params));
    w := ProcessingResult(eventType, topic, params, StreamConstraints(p, schema, request), None, true);
  }

  /** What a producer sends in each field of a schema, with the texts it is read as. */
  lemma FieldsSent(p: Platform, schema: EventSchema, request: Request, payload: bool, texts: Params)
    requires texts.Keys == schema.identifier.Keys == request.Keys && (schema.payloadRequired ==> payload)
    requires forall f :: f in texts ==> IsSent(p, schema.identifier[f], request[f], texts[f])
    ensures NotifyAccepts(p, schema, request, payload) && NotifyAccepts(p, schema, request, true)
    ensures NotifyParams(p, schema, request) == texts
  {
    forall f | f in schema.identifier ensures NotifyField(p, request[f], schema.identifier[f]).Success? {
      assert IsSent(p, schema.identifier[f], request[f], texts[f]);
    }
    forall f | f in schema.identifier ensures NotifyParams(p, schema, request)[f] == texts[f] {
      assert IsSent(p, schema.identifier[f], request[f], texts[f]);
    }
  }
}
