/** Turning a request into canonical parameters, constraints and a subject (src/notification/processor.rs). */
module Processor {
  import opened Wrappers
  import opened Json
  import opened Platform
  import opened Schema
  import opened Scalars
  import opened Shapes
  import opened Constraints
  import opened TopicCodec
  import opened Topics
  import opened Spatial

  type Request = map<string, Json>
  type ConstraintMap = map<string, Constraint>

  datatype Operation = Notify | Watch | Replay

  datatype RequestError =
    | InvalidBase | UnknownEventType | UnknownField(name: string) | MissingField(name: string)
    | ObjectNotAllowed | BadField(cause: FieldError) | BadConstraint(reason: ConstraintError)
    | CloudNotAllowed | PointNotAllowed | PayloadMissing | TopicFailed(topicError: TopicError)

  datatype ProcessingResult = ProcessingResult(
    eventType: string, topic: string, params: Params, constraints: ConstraintMap,
    spatial: Option<SpatialMetadata>, fromSchema: bool)

  // ---- one field ----------------------------------------------------------------------------

  function RingText(p: Platform, cs: Option<seq<Coordinate>>): Result<string, FieldError> {
    match cs
    case Some(coordinates) => Success(p.printJson(CoordinatesJson(coordinates)))
    case None => Failure(BadGeometry)
  }

  function FieldText(p: Platform, value: Json, rule: Rule): Result<string, FieldError> {
    match rule
    case PolygonRule(_) => RingText(p, ValidatePolygon(p, value))
    case PointCloudRule(maxPoints, _) =>
      var cs :- ValidateCloud(p, value, maxPoints);
      Success(p.printJson(CoordinatesJson(cs)))
    case _ =>
      var text :- ScalarText(p, value);
      match rule
      case StringRule(maxLength, _) => CanonicalString(text, maxLength)
      case DateRule(format, _) => CanonicalDate(p, text, format)
      case EnumRule(values, _) => CanonicalEnum(p, text, values)
      case ExpverRule(default, _) => CanonicalExpver(p, text, default)
      case IntRule(range, _) => CanonicalInt(text, range)
      case FloatRule(range, _) => CanonicalFloat(p, text, range)
      case _ => CanonicalTime(text)
  }

  function FieldConstraint(p: Platform, value: Json, rule: Rule): Result<Constraint, ConstraintError> {
    match rule
    case IntRule(range, _) => var c :- ParseNumeric(value, range, false); Success(IntConstraint(c))
    case FloatRule(range, _) => var c :- ParseNumeric(value, range, true); Success(FloatConstraint(c))
    case EnumRule(values, _) => var c :- ParseEnum(p, value, values); Success(EnumConstraint(c))
    case _ => Failure(Unsupported)
  }

  // ---- notify -------------------------------------------------------------------------------

  datatype FieldValue = FieldValue(text: string, shape: Option<Shape>)

  /** A notify field: its canonical text and, for geometry, the coordinates its metadata is built from. */
  function NotifyField(p: Platform, value: Json, rule: Rule): (r: Result<FieldValue, RequestError>)
    ensures r.Success? ==> (r.value.shape.Some? <==> rule.IsSpatial())
    ensures r.Success? && r.value.shape.Some? ==> r.value.shape.value.cs != []
  {
    if value.Object? then Failure(ObjectNotAllowed)
    else match rule
      case PointCloudRule(maxPoints, _) =>
        (match ValidateCloud(p, value, maxPoints)
         case Success(cs) => Success(FieldValue(p.printJson(CoordinatesJson(cs)), Some(Cloud(cs))))
         case Failure(e) => Failure(BadField(e)))
      case _ =>
        match FieldText(p, value, rule)
        case Failure(e) => Failure(BadField(e))
        case Success(text) =>
          if !rule.PolygonRule? then Success(FieldValue(text, None))
          else match ParsePolygonText(p, text)
            case Some(cs) => if cs == [] then Failure(BadField(BadGeometry))
              else Success(FieldValue(text, Some(Ring(cs))))
            case None => Failure(BadField(BadGeometry))
  }

  predicate NotifyAccepts(p: Platform, schema: EventSchema, request: Request, payload: bool) {
    && request.Keys == schema.identifier.Keys
    && (forall f :: f in schema.identifier ==> NotifyField(p, request[f], schema.identifier[f]).Success?)
    && (schema.payloadRequired ==> payload)
  }

  function NotifyParams(p: Platform, schema: EventSchema, request: Request): (params: Params)
    requires NotifyAccepts(p, schema, request, true)
    ensures params.Keys == schema.identifier.Keys
  {
    map f | f in schema.identifier :: NotifyField(p, request[f], schema.identifier[f]).value.text
  }

  function FieldMetadata(p: Platform, value: FieldValue): Option<SpatialMetadata>
    requires value.shape.Some? ==> value.shape.value.cs != []
  {
    if value.shape.None? then None else Some(MetadataWith(p, value.shape.value, value.text))
  }

  /** The metadata of some geometry field, and none exactly when the schema declares no geometry. */
  ghost predicate IsNotifySpatial(p: Platform, schema: EventSchema, request: Request, spatial: Option<SpatialMetadata>)
    requires NotifyAccepts(p, schema, request, true)
  {
    if spatial.None? then forall f :: f in schema.identifier ==> !schema.identifier[f].IsSpatial()
    else exists f :: f in schema.identifier && schema.identifier[f].IsSpatial()
                     && spatial == FieldMetadata(p, NotifyField(p, request[f], schema.identifier[f]).value)
  }

  predicate BadNotifyField(p: Platform, schema: EventSchema, request: Request, f: string, e: RequestError) {
    f in schema.identifier
    && if f in request then NotifyField(p, request[f], schema.identifier[f]) == Failure(e) else e == MissingField(f)
  }

  /** Why a notify request is refused: unknown fields come first, then missing or bad ones, then the payload. */
  ghost predicate NotifyFault(p: Platform, schema: EventSchema, request: Request, payload: bool, e: RequestError) {
    if !(request.Keys <= schema.identifier.Keys) then
      e.UnknownField? && e.name in request && e.name !in schema.identifier
    else if NotifyAccepts(p, schema, request, true) then e == PayloadMissing && schema.payloadRequired && !payload
    else exists f :: BadNotifyField(p, schema, request, f, e)
  }

  /** A field that is present and valid, with this canonical text. */
  predicate HasCanonicalText(p: Platform, schema: EventSchema, request: Request, f: string, text: string) {
    f in schema.identifier && f in request
    && NotifyField(p, request[f], schema.identifier[f]).Success?
    && NotifyField(p, request[f], schema.identifier[f]).value.text == text
  }

  /** A valid spatial field, with this metadata. */
  predicate HasMetadata(p: Platform, schema: EventSchema, request: Request, f: string, spatial: Option<SpatialMetadata>)
  {
    f in schema.identifier && f in request && schema.identifier[f].IsSpatial()
    && NotifyField(p, request[f], schema.identifier[f]).Success?
    && spatial == FieldMetadata(p, NotifyField(p, request[f], schema.identifier[f]).value)
  }

  /** One field of a notify request and, for geometry, its metadata. */
  method ReadNotifyField(p: Platform, schema: EventSchema, request: Request, f: string)
    returns (r: Result<(string, Option<SpatialMetadata>), RequestError>)
    requires f in schema.identifier
    ensures r.Failure? ==> BadNotifyField(p, schema, request, f, r.error)
    ensures r.Success? ==> HasCanonicalText(p, schema, request, f, r.value.0)
    ensures r.Success? ==>
            if schema.identifier[f].IsSpatial() then r.value.1.Some? && HasMetadata(p, schema, request, f, r.value.1)
                           else r.value.1.None?
  {
    if f !in request {
      return Failure(MissingField(f));
    }
    var field := NotifyField(p, request[f], schema.identifier[f]);
    if field.Failure? {
      return Failure(field.error);
    }
    var spatial: Option<SpatialMetadata> := None;
    if field.value.shape.Some? {
      spatial := BuildMetadata(p, field.value.shape.value, field.value.text);
    }
    r := Success((field.value.text, spatial));
  }

  lemma BadFieldRefused(p: Platform, schema: EventSchema, request: Request, f: string, e: RequestError)
    requires BadNotifyField(p, schema, request, f, e)
    ensures !NotifyAccepts(p, schema, request, true)
  {
  }

  lemma AllFieldsRead(p: Platform, schema: EventSchema, request: Request, canonical: Params)
    requires request.Keys <= schema.identifier.Keys == canonical.Keys
    requires forall f :: f in canonical ==> HasCanonicalText(p, schema, request, f, canonical[f])
    ensures NotifyAccepts(p, schema, request, true) && canonical == NotifyParams(p, schema, request)
  {
    assert forall f :: f in schema.identifier ==> HasCanonicalText(p, schema, request, f, canonical[f]);
  }

  lemma SpatialRead(p: Platform, schema: EventSchema, request: Request, spatial: Option<SpatialMetadata>,
                    geometry: string)
    requires NotifyAccepts(p, schema, request, true)
    requires spatial.None? ==> forall f :: f in schema.identifier ==> !schema.identifier[f].IsSpatial()
    requires spatial.Some? ==> HasMetadata(p, schema, request, geometry, spatial)
    ensures IsNotifySpatial(p, schema, request, spatial)
  {
  }

  /** The loop over schema fields: every field must be present and valid. */
  method NotifyFields(p: Platform, schema: EventSchema, request: Request)
    returns (r: Result<(Params, Option<SpatialMetadata>), RequestError>)
    requires request.Keys <= schema.identifier.Keys
    ensures r.Success? <==> NotifyAccepts(p, schema, request, true)
    ensures r.Success? ==>
            r.value.0 == NotifyParams(p, schema, request) && IsNotifySpatial(p, schema, request, r.value.1)
    ensures r.Failure? ==> exists f :: BadNotifyField(p, schema, request, f, r.error)
  {
    var canonical: Params := map[];
    var spatial: Option<SpatialMetadata> := None;
    ghost var geometry := "";
    var rest := schema.identifier.Keys;
    while rest != {}
      invariant rest <= schema.identifier.Keys
      invariant canonical.Keys == schema.identifier.Keys - rest
      invariant forall f :: f in canonical ==> HasCanonicalText(p, schema, request, f, canonical[f])
      invariant spatial.None? ==> forall f :: f in canonical ==> !schema.identifier[f].IsSpatial()
      invariant spatial.Some? ==> HasMetadata(p, schema, request, geometry, spatial)
    {
      var f :| f in rest;
      rest := rest - {f};
      var field := ReadNotifyField(p, schema, request, f);
      if field.Failure? {
        BadFieldRefused(p, schema, request, f, field.error);
        return Failure(field.error);
      }
      if field.value.1.Some? {
        spatial := field.value.1;
        geometry := f;
      }
      canonical := canonical[f := field.value.0];
    }
    AllFieldsRead(p, schema, request, canonical);
    SpatialRead(p, schema, request, spatial, geometry);
    r := Success((canonical, spatial));
  }

  method ProcessNotify(p: Platform, schema: EventSchema, request: Request, payload: bool)
    returns (r: Result<(Params, Option<SpatialMetadata>), RequestError>)
    ensures r.Success? <==> NotifyAccepts(p, schema, request, payload)
    ensures r.Success? ==>
            r.value.0 == NotifyParams(p, schema, request) && IsNotifySpatial(p, schema, request, r.value.1)
    ensures r.Failure? ==> NotifyFault(p, schema, request, payload, r.error)
  {
    if f :| f in request && f !in schema.identifier {
      return Failure(UnknownField(f));
    }
    r := NotifyFields(p, schema, request);
    if r.Success? && schema.payloadRequired && !payload {
      r := Failure(PayloadMissing);
    }
  }

  // ---- watch and replay ---------------------------------------------------------------------

  /** What a subscriber asks of one field: one value, a constraint, or anything. */
  datatype Wanted = Fixed(text: string) | Constrained(c: Constraint) | Anything {
    function Token(): string { if Fixed? then text else "*" }
  }

  predicate HasCloud(schema: EventSchema) { exists f :: f in schema.identifier && schema.identifier[f].PointCloudRule? }

  predicate IsSpatialFilter(schema: EventSchema, f: string) {
    (f == "polygon" && HasCloud(schema))
    || (f == "point" && "polygon" in schema.identifier && schema.identifier["polygon"].PolygonRule?)
  }

  function StreamField(p: Platform, request: Request, f: string, rule: Rule): Result<Wanted, RequestError> {
    if f in request then
      if request[f].Object? then
        match FieldConstraint(p, request[f], rule)
        case Success(c) => Success(Constrained(c))
        case Failure(e) => Failure(BadConstraint(e))
      else
        match FieldText(p, request[f], rule)
        case Success(text) => Success(Fixed(text))
        case Failure(e) => Failure(BadField(e))
    else if rule.required && !(f == "polygon" && "point" in request)
      && !(rule.PointCloudRule? && "polygon" in request) then
      Failure(MissingField(f))
    else
      Success(Anything)
  }

  predicate FieldsAccepted(p: Platform, schema: EventSchema, request: Request) {
    forall f :: f in schema.identifier ==> StreamField(p, request, f, schema.identifier[f]).Success?
  }

  predicate StreamAccepts(p: Platform, schema: EventSchema, request: Request) {
    && "point_cloud" !in request
    && !(HasCloud(schema) && "point" in request)
    && (forall f :: f in request ==> f in schema.identifier || IsSpatialFilter(schema, f))
    && FieldsAccepted(p, schema, request)
    && ("point" in request ==> !request["point"].Object? && ParsePointValue(p, request["point"]).Some?)
    && (HasCloud(schema) && "polygon" in request ==> ValidatePolygon(p, request["polygon"]).Some?)
  }

  function FieldTokens(p: Platform, schema: EventSchema, request: Request): (tokens: Params)
    requires FieldsAccepted(p, schema, request)
    ensures tokens.Keys == schema.identifier.Keys
  {
    map f | f in schema.identifier :: StreamField(p, request, f, schema.identifier[f]).value.Token()
  }

  function WithPoint(p: Platform, request: Request, tokens: Params): Params
    requires "point" in request ==> ParsePointValue(p, request["point"]).Some?
  {
    if "point" in request then
      tokens["point" := p.printJson(CoordinateJson(ParsePointValue(p, request["point"]).value))]
    else tokens
  }

  function StreamParams(p: Platform, schema: EventSchema, request: Request): Params
    requires StreamAccepts(p, schema, request)
  {
    var tokens := WithPoint(p, request, FieldTokens(p, schema, request));
    if HasCloud(schema) && "polygon" in request then
      tokens["polygon" := p.printJson(CoordinatesJson(ValidatePolygon(p, request["polygon"]).value))]
    else tokens
  }

  function StreamConstraints(p: Platform, schema: EventSchema, request: Request): ConstraintMap
    requires FieldsAccepted(p, schema, request)
  {
    map f | f in schema.identifier && StreamField(p, request, f, schema.identifier[f]).value.Constrained? ::
      StreamField(p, request, f, schema.identifier[f]).value.c
  }

  predicate BadStreamField(p: Platform, schema: EventSchema, request: Request, f: string, e: RequestError) {
    f in schema.identifier && StreamField(p, request, f, schema.identifier[f]) == Failure(e)
  }

  predicate UnknownFilter(schema: EventSchema, request: Request, f: string) {
    f in request && f !in schema.identifier && !IsSpatialFilter(schema, f)
  }

  /** Why a watch or replay request is refused, in the order of the checks. */
  ghost predicate StreamFault(p: Platform, schema: EventSchema, request: Request, e: RequestError) {
    if "point_cloud" in request then e == CloudNotAllowed
    else if HasCloud(schema) && "point" in request then e == PointNotAllowed
    else if exists f :: UnknownFilter(schema, request, f) then e.UnknownField? && UnknownFilter(schema, request, e.name)
    else if !FieldsAccepted(p, schema, request) then exists f :: BadStreamField(p, schema, request, f, e)
    else e == BadField(BadGeometry)
  }

  /** The loop over schema fields: what is left out becomes a wildcard, unless it is required. */
  method StreamFields(p: Platform, schema: EventSchema, request: Request)
    returns (r: Result<(Params, ConstraintMap), RequestError>)
    ensures r.Success? <==> FieldsAccepted(p, schema, request)
    ensures r.Success? ==> r.value == (FieldTokens(p, schema, request), StreamConstraints(p, schema, request))
    ensures r.Failure? ==> exists f :: BadStreamField(p, schema, request, f, r.error)
  {
    var canonical: Params := map[];
    var constraints: ConstraintMap := map[];
    var rest := schema.identifier.Keys;
    while rest != {}
      invariant rest <= schema.identifier.Keys
      invariant canonical.Keys == schema.identifier.Keys - rest
      invariant forall f :: f in canonical ==>
        StreamField(p, request, f, schema.identifier[f]).Success?
        && canonical[f] == StreamField(p, request, f, schema.identifier[f]).value.Token()
      invariant constraints.Keys <= canonical.Keys
      invariant forall f :: f in canonical ==>
        var wanted := StreamField(p, request, f, schema.identifier[f]).value;
        (f in constraints <==> wanted.Constrained?) && (f in constraints ==> constraints[f] == wanted.c)
    {
      var f :| f in rest;
      rest := rest - {f};
      var wanted := StreamField(p, request, f, schema.identifier[f]);
      if wanted.Failure? {
        assert BadStreamField(p, schema, request, f, wanted.error);
        return Failure(wanted.error);
      }
      if wanted.value.Constrained? {
        constraints := constraints[f := wanted.value.c];
      }
      canonical := canonical[f := wanted.value.Token()];
    }
    assert FieldsAccepted(p, schema, request);
    assert canonical == FieldTokens(p, schema, request);
    assert constraints == StreamConstraints(p, schema, request);
    r := Success((canonical, constraints));
  }

  method ProcessStreaming(p: Platform, schema: EventSchema, request: Request)
    returns (r: Result<(Params, ConstraintMap), RequestError>)
    ensures r.Success? <==> StreamAccepts(p, schema, request)
    ensures r.Success? ==> r.value == (StreamParams(p, schema, request), StreamConstraints(p, schema, request))
    ensures r.Failure? ==> StreamFault(p, schema, request, r.error)
  {
    if "point_cloud" in request {
      return Failure(CloudNotAllowed);
    }
    if HasCloud(schema) && "point" in request {
      return Failure(PointNotAllowed);
    }
    if f :| f in request && f !in schema.identifier && !IsSpatialFilter(schema, f) {
      assert UnknownFilter(schema, request, f);
      return Failure(UnknownField(f));
    }
    var fields := StreamFields(p, schema, request);
    if fields.Failure? {
      return Failure(fields.error);
    }
    var (canonical, constraints) := fields.value;
    if "point" in request {
      var point := ParsePointValue(p, request["point"]);
      if request["point"].Object? || point.None? {
        return Failure(BadField(BadGeometry));
      }
      canonical := canonical["point" := p.printJson(CoordinateJson(point.value))];
    }
    if HasCloud(schema) && "polygon" in request {
      var polygon := ValidatePolygon(p, request["polygon"]);
      if polygon.None? {
        return Failure(BadField(BadGeometry));
      }
      canonical := canonical["polygon" := p.printJson(CoordinatesJson(polygon.value))];
    }
    r := Success((canonical, constraints));
  }

  // ---- event types without a schema ---------------------------------------------------------

  /** One field of a request without schema: its scalar as text, not empty for a notification. */
  function GenericField(p: Platform, value: Json, operation: Operation): Result<string, RequestError> {
    if value.Object? then Failure(ObjectNotAllowed)
    else match ScalarText(p, value)
      case Failure(e) => Failure(BadField(e))
      case Success(text) => if operation == Notify && text == [] then Failure(BadField(EmptyValue)) else Success(text)
  }

  predicate GenericAccepts(p: Platform, request: Request, operation: Operation) {
    forall f :: f in request ==> GenericField(p, request[f], operation).Success?
  }

  function GenericParams(p: Platform, request: Request, operation: Operation): Params
    requires GenericAccepts(p, request, operation)
  {
    map f | f in request :: GenericField(p, request[f], operation).value
  }

  predicate BadGenericField(p: Platform, request: Request, operation: Operation, f: string, e: RequestError) {
    f in request && GenericField(p, request[f], operation) == Failure(e)
  }

  lemma GenericRead(p: Platform, request: Request, operation: Operation, canonical: Params)
    requires canonical.Keys == request.Keys
    requires forall f :: f in canonical ==> GenericField(p, request[f], operation) == Success(canonical[f])
    ensures GenericAccepts(p, request, operation) && canonical == GenericParams(p, request, operation)
  {
  }

  method ProcessGeneric(p: Platform, request: Request, operation: Operation) returns (r: Result<Params, RequestError>)
    ensures r.Success? <==> GenericAccepts(p, request, operation)
    ensures r.Success? ==> r.value == GenericParams(p, request, operation)
    ensures r.Failure? ==> exists f :: BadGenericField(p, request, operation, f, r.error)
  {
    var canonical: Params := map[];
    var rest := request.Keys;
    while rest != {}
      invariant rest <= request.Keys
      invariant canonical.Keys == request.Keys - rest
      invariant forall f :: f in canonical ==> GenericField(p, request[f], operation) == Success(canonical[f])
    {
      var f :| f in rest;
      rest := rest - {f};
      var field := GenericField(p, request[f], operation);
      if field.Failure? {
        assert BadGenericField(p, request, operation, f, field.error);
        return Failure(field.error);
      }
      canonical := canonical[f := field.value];
    }
    GenericRead(p, request, operation, canonical);
    r := Success(canonical);
  }

  // ---- the whole request --------------------------------------------------------------------

  /** Subscribers filter on polygons after routing, so a routed polygon position becomes a wildcard. */
  function RoutedParams(schema: EventSchema, operation: Operation, params: Params): Params {
    if operation != Notify && schema.topic.Some? && "polygon" in schema.topic.value.keyOrder && "polygon" in params
    then params["polygon" := "*"] else params
  }

  predicate Routable(schema: EventSchema, params: Params) {
    schema.topic.Some? ==> forall k :: k in schema.topic.value.keyOrder ==> k in params
  }

  ghost predicate IsTopic(eventType: string, schema: EventSchema, params: Params, topic: string) {
    if schema.topic.Some? then
      Routable(schema, params) && topic == EncodeSubject(SchemaParts(schema.topic.value, params))
    else IsGenericTopic(eventType, params, topic)
  }

  /** `n` is what a notify request of this schema produces. */
  ghost predicate IsNotifyResult(p: Platform, eventType: string, schema: EventSchema, request: Request, payload: bool,
                                 n: ProcessingResult)
  {
    && NotifyAccepts(p, schema, request, payload)
    && n.params == NotifyParams(p, schema, request) && n.constraints == map[]
    && IsNotifySpatial(p, schema, request, n.spatial)
    && n.eventType == eventType && n.fromSchema && IsTopic(eventType, schema, n.params, n.topic)
  }

  /** `w` is what a watch or replay request of this schema produces. */
  ghost predicate IsStreamResult(p: Platform, eventType: string, schema: EventSchema, request: Request,
                                 w: ProcessingResult)
  {
    && StreamAccepts(p, schema, request)
    && w.params == StreamParams(p, schema, request) && w.constraints == StreamConstraints(p, schema, request)
    && w.spatial.None? && w.eventType == eventType && w.fromSchema
    && IsTopic(eventType, schema, RoutedParams(schema, Watch, w.params), w.topic)
  }

  /** A schema request goes through exactly when its fields are accepted and every routed key has a value. */
  predicate SchemaRequestAccepted(p: Platform, eventType: string, schema: EventSchema, request: Request, payload: bool,
                                  operation: Operation)
  {
    && ValidBase(RoutingBase(eventType, schema))
    && if operation == Notify then
       NotifyAccepts(p, schema, request, payload) && Routable(schema, NotifyParams(p, schema, request))
       else StreamAccepts(p, schema, request) && Routable(schema, StreamParams(p, schema, request))
  }

  /** What a request without schema produces. */
  ghost predicate IsGenericResult(p: Platform, eventType: string, request: Request, operation: Operation,
                                  g: ProcessingResult)
  {
    && GenericAccepts(p, request, operation)
    && g.params == GenericParams(p, request, operation) && g.constraints == map[] && g.spatial.None?
    && g.eventType == eventType && !g.fromSchema && IsGenericTopic(eventType, g.params, g.topic)
  }

  method BuildTopic(eventType: string, schema: EventSchema, params: Params) returns (r: Result<string, RequestError>)
    ensures r.Success? <==> Routable(schema, params)
    ensures r.Success? ==> IsTopic(eventType, schema, params, r.value)
    ensures r.Failure? ==> r.error.TopicFailed? && r.error.topicError.MissingKey?
                           && FirstMissing(schema.topic.value.keyOrder, params, r.error.topicError.key)
  {
    if schema.topic.Some? {
      var built := BuildSchemaTopic(schema.topic.value, params);
      return if built.Success? then Success(built.value) else Failure(TopicFailed(built.error));
    }
    var topic := BuildGenericTopic(eventType, params);
    r := Success(topic);
  }

  method ProcessNotification(p: Platform, eventType: string, schema: EventSchema, request: Request, payload: bool)
    returns (r: Result<ProcessingResult, RequestError>)
    ensures r.Success? <==>
            NotifyAccepts(p, schema, request, payload) && Routable(schema, NotifyParams(p, schema, request))
    ensures r.Success? ==> IsNotifyResult(p, eventType, schema, request, payload, r.value)
    ensures r.Failure? ==> r.error.TopicFailed? || NotifyFault(p, schema, request, payload, r.error)
  {
    var notified := ProcessNotify(p, schema, request, payload);
    if notified.Failure? {
      return Failure(notified.error);
    }
    var (params, spatial) := notified.value;
    var topic := BuildTopic(eventType, schema, params);
    if topic.Failure? {
      return Failure(topic.error);
    }
    r := Success(ProcessingResult(eventType, topic.value, params, map[], spatial, true));
  }

  method ProcessSubscription(p: Platform, eventType: string, schema: EventSchema, request: Request)
    returns (r: Result<ProcessingResult, RequestError>)
    ensures r.Success? <==> StreamAccepts(p, schema, request) && Routable(schema, StreamParams(p, schema, request))
    ensures r.Success? ==> IsStreamResult(p, eventType, schema, request, r.value)
    ensures r.Failure? ==> r.error.TopicFailed? || StreamFault(p, schema, request, r.error)
  {
    var streamed := ProcessStreaming(p, schema, request);
    if streamed.Failure? {
      return Failure(streamed.error);
    }
    var (params, constraints) := streamed.value;
    var topic := BuildTopic(eventType, schema, RoutedParams(schema, Watch, params));
    if topic.Failure? {
      return Failure(topic.error);
    }
    r := Success(ProcessingResult(eventType, topic.value, params, constraints, None, true));
  }

  method Process(p: Platform, schemas: Schemas, strict: bool, eventType: string, request: Request, payload: bool,
                 operation: Operation)
    returns (r: Result<ProcessingResult, RequestError>)
    ensures eventType in schemas ==>
              (r.Success? <==> SchemaRequestAccepted(p, eventType, schemas[eventType], request, payload, operation))
    ensures eventType in schemas && r.Success? ==>
              if operation == Notify then IsNotifyResult(p, eventType, schemas[eventType], request, payload, r.value)
              else IsStreamResult(p, eventType, schemas[eventType], request, r.value)
    ensures eventType !in schemas ==>
            (r.Success? <==> ValidBase(eventType) && !strict && GenericAccepts(p, request, operation))
    ensures eventType !in schemas && r.Success? ==> IsGenericResult(p, eventType, request, operation, r.value)
    ensures r == Failure(RequestError.InvalidBase) <==>
            !ValidBase(if eventType in schemas then RoutingBase(eventType, schemas[eventType]) else eventType)
    ensures r == Failure(RequestError.UnknownEventType) <==> eventType !in schemas && strict && ValidBase(eventType)
  {
    var base := if eventType in schemas then RoutingBase(eventType, schemas[eventType]) else eventType;
    if !ValidBase(base) {
      return Failure(RequestError.InvalidBase);
    }
    if eventType in schemas {
      if operation == Notify {
        r := ProcessNotification(p, eventType, schemas[eventType], request, payload);
      } else {
        r := ProcessSubscription(p, eventType, schemas[eventType], request);
      }
      return;
    }
    if strict {
      return Failure(RequestError.UnknownEventType);
    }
    var generic := ProcessGeneric(p, request, operation);
    if generic.Failure? {
      return Failure(generic.error);
    }
    var topic := BuildGenericTopic(eventType, generic.value);
    r := Success(ProcessingResult(eventType, topic, generic.value, map[], None, false));
  }
}
