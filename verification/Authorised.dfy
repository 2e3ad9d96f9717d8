/** What the ECPDS access check, the start-up checks and the watch pattern guarantee together. */
module Authorised {
  import opened Wrappers
  import opened Platform
  import opened Schema
  import opened Constraints
  import opened TopicCodec
  import opened Topics
  import opened Spatial
  import opened Validation
  import opened Processor
  import opened WildcardMatcher
  import opened Delivery
  import opened GenericDelivery
  import EcpdsCache
  import EcpdsClient
  import EcpdsChecker

  /** A read request of an event type under the ECPDS plugin, after start-up validation. */
  ghost predicate IsProtectedRead(p: Platform, matchKey: string, schemas: Schemas, eventType: string, stream: Request,
                                  w: ProcessingResult)
  {
    && RoutingAccepted(schemas) && EcpdsAccepted(Some(matchKey), schemas)
    && eventType in schemas && UsesEcpds(schemas[eventType])
    && IsStreamResult(p, eventType, schemas[eventType], stream, w)
  }

  // ---- the match key ------------------------------------------------------------------------

  /** A subscriber's request always carries the match key, so the check never misses it. */
  lemma MatchKeyRequested(p: Platform, matchKey: string, schemas: Schemas, eventType: string, stream: Request,
                          w: ProcessingResult)
    requires EcpdsAccepted(Some(matchKey), schemas) && eventType in schemas && UsesEcpds(schemas[eventType])
    requires IsStreamResult(p, eventType, schemas[eventType], stream, w)
    ensures matchKey in stream && matchKey in w.params
    ensures matchKey in schemas[eventType].identifier && matchKey != "polygon"
  {
    var schema := schemas[eventType];
    assert MatchKeyAccepted(matchKey, schema);
    assert StreamField(p, stream, matchKey, schema.identifier[matchKey]).Success?;
  }

  /** The keys whose values a subject lists: those of the topic block, or all of them in ascending order. */
  ghost function RoutedKeys(schema: EventSchema, params: Params): seq<string> {
    if schema.topic.Some? then schema.topic.value.keyOrder else KeyOrder(params.Keys)
  }

  /** The position of the match key in a subject, counted from the base. */
  ghost function MatchPosition(schema: EventSchema, params: Params, matchKey: string): nat {
    PositionOf(RoutedKeys(schema, params), matchKey) + 1
  }

  lemma RoutedPosition(schema: EventSchema, params: Params, matchKey: string)
    requires schema.topic.Some?
    ensures MatchPosition(schema, params, matchKey) == PositionOf(schema.topic.value.keyOrder, matchKey) + 1
  {
  }

  lemma MatchKeyRouted(matchKey: string, schemas: Schemas, eventType: string)
    requires TopicsAccepted(schemas) && EcpdsAccepted(Some(matchKey), schemas)
    requires eventType in schemas && UsesEcpds(schemas[eventType]) && schemas[eventType].topic.Some?
    ensures PositionOf(schemas[eventType].topic.value.keyOrder, matchKey) < |schemas[eventType].topic.value.keyOrder|
  {
    assert MatchKeyAccepted(matchKey, schemas[eventType]);
    FirstPosition(schemas[eventType].topic.value.keyOrder, matchKey);
  }

  lemma PartAtMatchKey(topic: TopicConfig, matchKey: string, params: Params)
    requires PositionOf(topic.keyOrder, matchKey) < |topic.keyOrder| && forall k :: k in topic.keyOrder ==> k in params
    ensures var parts, i := SchemaParts(topic, params), PositionOf(topic.keyOrder, matchKey) + 1;
            matchKey in params && i < |parts| && parts[i] == params[matchKey]
  {
    FirstPosition(topic.keyOrder, matchKey);
    KeyPart(topic, params, PositionOf(topic.keyOrder, matchKey));
  }

  lemma RoutedValue(schema: EventSchema, params: Params, key: string)
    requires key != "polygon" && key in params
    ensures key in RoutedParams(schema, Watch, params) && RoutedParams(schema, Watch, params)[key] == params[key]
  {
  }

  /** `w`'s watch pattern: literal base, at least one value, and the requested match value at its position. */
  ghost predicate IsKeyedPattern(base: string, w: ProcessingResult, pattern: seq<string>, i: nat, value: string) {
    && pattern != [] && w.topic == EncodeSubject(pattern)
    && pattern[0] == base && base != "*" && 1 <= i < |pattern| && pattern[i] == value
  }

  lemma RoutedPattern(p: Platform, matchKey: string, schemas: Schemas, eventType: string, stream: Request,
                      w: ProcessingResult)
    returns (pattern: seq<string>)
    requires IsProtectedRead(p, matchKey, schemas, eventType, stream, w) && schemas[eventType].topic.Some?
    ensures matchKey in w.params
    ensures IsKeyedPattern(schemas[eventType].topic.value.base, w, pattern,
                           MatchPosition(schemas[eventType], w.params, matchKey), w.params[matchKey])
  {
    MatchKeyRequested(p, matchKey, schemas, eventType, stream, w);
    MatchKeyRouted(matchKey, schemas, eventType);
    pattern := StreamPattern(p, schemas, eventType, stream, w);
    KeyedParts(schemas[eventType], w.params, matchKey);
  }

  lemma KeyedParts(schema: EventSchema, params: Params, matchKey: string)
    requires schema.topic.Some? && Routable(schema, RoutedParams(schema, Watch, params))
    requires matchKey in params && matchKey != "polygon"
    requires PositionOf(schema.topic.value.keyOrder, matchKey) < |schema.topic.value.keyOrder|
    ensures var pattern := SchemaParts(schema.topic.value, RoutedParams(schema, Watch, params));
            var i := MatchPosition(schema, params, matchKey);
            1 <= i < |pattern| && pattern[i] == params[matchKey]
  {
    RoutedPosition(schema, params, matchKey);
    RoutedValue(schema, params, matchKey);
    PartAtMatchKey(schema.topic.value, matchKey, RoutedParams(schema, Watch, params));
  }

  lemma StreamPattern(p: Platform, schemas: Schemas, eventType: string, stream: Request, w: ProcessingResult)
    returns (pattern: seq<string>)
    requires RoutingAccepted(schemas) && eventType in schemas && schemas[eventType].topic.Some?
    requires IsStreamResult(p, eventType, schemas[eventType], stream, w)
    ensures Routable(schemas[eventType], RoutedParams(schemas[eventType], Watch, w.params))
    ensures pattern == SchemaParts(schemas[eventType].topic.value, RoutedParams(schemas[eventType], Watch, w.params))
    ensures w.topic == EncodeSubject(pattern)
    ensures pattern[0] == RoutingBase(eventType, schemas[eventType]) && pattern[0] != "*"
  {
    assert TopicAccepted(schemas[eventType]) && ValidBase(RoutingBase(eventType, schemas[eventType]));
    StreamSubject(p, eventType, schemas[eventType], stream, w);
    pattern := SchemaParts(schemas[eventType].topic.value, RoutedParams(schemas[eventType], Watch, w.params));
  }

  lemma KeyInOrder(params: Params, key: string)
    requires key in params
    ensures key in KeyOrder(params.Keys)
  {
    KeyOrderIs(params.Keys);
  }

  lemma GenericPosition(schema: EventSchema, params: Params, matchKey: string)
    requires schema.topic.None? && matchKey in params
    ensures var i := MatchPosition(schema, params, matchKey);
            1 <= i <= |params| && ValueAt(params, i - 1) == params[matchKey]
  {
    KeyInOrder(params, matchKey);
    FirstPosition(KeyOrder(params.Keys), matchKey);
  }

  lemma GenericPartAt(schema: EventSchema, eventType: string, params: Params, parts: seq<string>, matchKey: string)
    requires schema.topic.None? && matchKey in params && AreGenericParts(parts, eventType, params)
    ensures var i := MatchPosition(schema, params, matchKey); 1 <= i < |parts| && parts[i] == params[matchKey]
  {
    GenericPosition(schema, params, matchKey);
    GenericPartsInOrder(parts, eventType, params);
  }

  lemma UnroutedPattern(matchKey: string, schema: EventSchema, eventType: string, w: ProcessingResult)
    returns (pattern: seq<string>)
    requires schema.topic.None? && ValidBase(eventType) && matchKey in w.params
    requires IsGenericTopic(eventType, w.params, w.topic)
    ensures IsKeyedPattern(eventType, w, pattern, MatchPosition(schema, w.params, matchKey), w.params[matchKey])
  {
    pattern := GenericParts(eventType, w.params, w.topic);
    GenericPartAt(schema, eventType, w.params, pattern, matchKey);
  }

  lemma UnroutedRead(p: Platform, matchKey: string, schemas: Schemas, eventType: string, stream: Request,
                     w: ProcessingResult)
    returns (pattern: seq<string>)
    requires IsProtectedRead(p, matchKey, schemas, eventType, stream, w) && schemas[eventType].topic.None?
    ensures matchKey in w.params
    ensures IsKeyedPattern(eventType, w, pattern, MatchPosition(schemas[eventType], w.params, matchKey),
                           w.params[matchKey])
  {
    MatchKeyRequested(p, matchKey, schemas, eventType, stream, w);
    assert ValidBase(RoutingBase(eventType, schemas[eventType]));
    pattern := UnroutedPattern(matchKey, schemas[eventType], eventType, w);
  }

  lemma MatchPattern(p: Platform, matchKey: string, schemas: Schemas, eventType: string, stream: Request,
                     w: ProcessingResult)
    returns (pattern: seq<string>)
    requires IsProtectedRead(p, matchKey, schemas, eventType, stream, w)
    ensures matchKey in w.params
    ensures IsKeyedPattern(RoutingBase(eventType, schemas[eventType]), w, pattern,
                           MatchPosition(schemas[eventType], w.params, matchKey), w.params[matchKey])
  {
    if schemas[eventType].topic.Some? {
      pattern := RoutedPattern(p, matchKey, schemas, eventType, stream, w);
    } else {
      pattern := UnroutedRead(p, matchKey, schemas, eventType, stream, w);
    }
  }

  // ---- authorised delivery ------------------------------------------------------------------

  /** The decoded topic carries a listed value at position `i`. */
  predicate ListedAt(topic: string, i: nat, list: EcpdsClient.Destinations) {
    match DecodeSubject(topic)
    case Success(parts) => i < |parts| && parts[i] in list
    case Failure(_) => false
  }

  lemma PatternOfParts(w: ProcessingResult, pattern: seq<string>)
    requires pattern != [] && w.topic == EncodeSubject(pattern)
    ensures AnalyzeWatchPattern(w.topic) == Success((CoarsePattern(EncodeSubject(pattern), pattern), pattern))
  {
    SubjectRoundTrip(pattern);
  }

  lemma DeliveredMatches(p: Platform, schemas: Schemas, topic: string, headers: Option<Headers>, text: string,
                         w: ProcessingResult, base: string, pattern: seq<string>, i: nat, value: string)
    requires IsKeyedPattern(base, w, pattern, i, value) && Delivered(p, schemas, topic, headers, text, w)
    ensures DecodeSubject(topic).Success? && PartsMatch(DecodeSubject(topic).value, pattern)
    ensures DecodeSubject(topic).value[0] == base
    ensures i < |DecodeSubject(topic).value| && (value != "*" ==> DecodeSubject(topic).value[i] == value)
    ensures PassesFilters(p, schemas, topic, headers, text, w)
  {
    PatternOfParts(w, pattern);
  }

  /**
   * Authorised delivery on any stored topic, however it got there: if the access check let the
   * subscriber in and it asked for one value, the token at the match key's position is that value,
   * and listed.
   */
  lemma AuthorisedTopic(p: Platform, matchKey: string, schemas: Schemas, eventType: string, stream: Request,
                        w: ProcessingResult, list: EcpdsClient.Destinations, topic: string, headers: Option<Headers>,
                        text: string)
    requires IsProtectedRead(p, matchKey, schemas, eventType, stream, w)
    requires EcpdsChecker.Allows(matchKey, w.params, list) && w.params[matchKey] != "*"
    requires Delivered(p, schemas, topic, headers, text, w)
    ensures ListedAt(topic, MatchPosition(schemas[eventType], w.params, matchKey), list)
    ensures DecodeSubject(topic).value[MatchPosition(schemas[eventType], w.params, matchKey)] == w.params[matchKey]
  {
    var pattern := MatchPattern(p, matchKey, schemas, eventType, stream, w);
    var base, i := RoutingBase(eventType, schemas[eventType]), MatchPosition(schemas[eventType], w.params, matchKey);
    DeliveredMatches(p, schemas, topic, headers, text, w, base, pattern, i, w.params[matchKey]);
  }

  /** The same for what producers sent: the match value itself is the requested one, and listed. */
  lemma AuthorisedNotification(p: Platform, matchKey: string, schemas: Schemas, eventType: string,
                               notify: Request, payload: bool, n: ProcessingResult, stream: Request,
                               w: ProcessingResult, list: EcpdsClient.Destinations, headers: Option<Headers>,
                               text: string)
    requires IsProtectedRead(p, matchKey, schemas, eventType, stream, w)
    requires IsNotifyResult(p, eventType, schemas[eventType], notify, payload, n)
    requires EcpdsChecker.Allows(matchKey, w.params, list) && w.params[matchKey] != "*"
    requires Delivered(p, schemas, n.topic, headers, text, w)
    ensures matchKey in n.params && n.params[matchKey] in list && n.params[matchKey] == w.params[matchKey]
  {
    MatchKeyRequested(p, matchKey, schemas, eventType, stream, w);
    if schemas[eventType].topic.Some? {
      RoutedAgreement(p, matchKey, schemas, eventType, notify, payload, n, stream, w, headers, text);
    } else {
      AgreesWithoutTopic(p, matchKey, schemas, eventType, notify, payload, n, stream, w);
    }
  }

  lemma MatchKeyScalar(matchKey: string, schemas: Schemas, eventType: string)
    requires SpatialSchemasAccepted(schemas) && EcpdsAccepted(Some(matchKey), schemas)
    requires eventType in schemas && UsesEcpds(schemas[eventType])
    ensures matchKey in schemas[eventType].identifier && matchKey != "polygon" && matchKey != "point_cloud"
  {
    assert MatchKeyAccepted(matchKey, schemas[eventType]) && SpatialAccepted(schemas[eventType]);
  }

  lemma RoutedAgreement(p: Platform, matchKey: string, schemas: Schemas, eventType: string,
                        notify: Request, payload: bool, n: ProcessingResult, stream: Request, w: ProcessingResult,
                        headers: Option<Headers>, text: string)
    requires IsProtectedRead(p, matchKey, schemas, eventType, stream, w) && schemas[eventType].topic.Some?
    requires IsNotifyResult(p, eventType, schemas[eventType], notify, payload, n)
    requires Delivered(p, schemas, n.topic, headers, text, w)
    ensures matchKey in n.params && matchKey in w.params
    ensures w.params[matchKey] == "*" || w.params[matchKey] == n.params[matchKey]
  {
    MatchKeyScalar(matchKey, schemas, eventType);
    PatternVerdict(p, schemas, eventType, notify, payload, n, stream, w);
  }

  lemma AgreesWithoutTopic(p: Platform, matchKey: string, schemas: Schemas, eventType: string,
                           notify: Request, payload: bool, n: ProcessingResult, stream: Request, w: ProcessingResult)
    requires BasesAccepted(schemas) && eventType in schemas && schemas[eventType].topic.None?
    requires IsNotifyResult(p, eventType, schemas[eventType], notify, payload, n)
    requires IsStreamResult(p, eventType, schemas[eventType], stream, w)
    requires matchKey in schemas[eventType].identifier
    requires AnalyzeWatchPattern(w.topic).Success? ==>
             MatchesWatchPattern(n.topic, AnalyzeWatchPattern(w.topic).value.1)
    ensures matchKey in n.params && matchKey in w.params
    ensures w.params[matchKey] == "*" || w.params[matchKey] == n.params[matchKey]
  {
    GenericRequests(p, schemas[eventType], eventType, notify, payload, n, stream, w);
    assert ValidBase(RoutingBase(eventType, schemas[eventType]));
    GenericPattern(eventType, n.params, n.topic, w.params, w.topic);
    MoreKeysNoMatch(n.params, w.params);
  }

  // ---- when the list decides, over all topics -----------------------------------------------

  /** Every topic that reaches the subscriber, sent by a producer or not, carries a listed value. */
  ghost predicate OnlyListed(p: Platform, schemas: Schemas, w: ProcessingResult, i: nat, list: EcpdsClient.Destinations)
  {
    forall topic, headers, text :: Delivered(p, schemas, topic, headers, text, w) ==> ListedAt(topic, i, list)
  }

  ghost predicate ReceivesSomething(p: Platform, schemas: Schemas, w: ProcessingResult) {
    exists topic, headers, text :: Delivered(p, schemas, topic, headers, text, w)
  }

  /** The subscriber's own constraint on the match key, if it has one, lets this value through. */
  predicate KeyAllows(p: Platform, w: ProcessingResult, matchKey: string, value: string) {
    matchKey in w.constraints ==> !IsOmitted(value) && Satisfies(p, value, w.constraints[matchKey])
  }

  ghost predicate ConstraintListed(p: Platform, w: ProcessingResult, matchKey: string, list: EcpdsClient.Destinations) {
    forall value :: KeyAllows(p, w, matchKey, value) ==> value in list
  }

  predicate AllSatisfied(p: Platform, parts: seq<string>, order: seq<string>, constraints: ConstraintMap) {
    forall f :: f in constraints ==> TokenSatisfies(p, parts, order, f, constraints[f])
  }

  /** On a topic of its own base, a schema's constraints are evaluated token by token. */
  lemma VerdictByToken(p: Platform, schemas: Schemas, eventType: string, topic: string, constraints: ConstraintMap)
    requires BasesAccepted(schemas) && eventType in schemas && schemas[eventType].topic.Some?
    requires DecodeSubject(topic).Success? && DecodeSubject(topic).value != []
    requires DecodeSubject(topic).value[0] == schemas[eventType].topic.value.base
    ensures var parts, order := DecodeSubject(topic).value, schemas[eventType].topic.value.keyOrder;
            IsConstraintVerdict(p, schemas, topic, constraints, true) <==> AllSatisfied(p, parts, order, constraints)
  {
    var parts, e := DecodeSubject(topic).value, Some(eventType);
    assert Resolves(schemas, parts[0], e);
    var verdict := ResolvedVerdict(p, schemas, topic, parts, e, constraints);
    assert IsConstraintVerdict(p, schemas, topic, constraints, verdict);
    if IsConstraintVerdict(p, schemas, topic, constraints, true) {
      ConstraintVerdictUnique(p, schemas, topic, constraints, true, verdict);
    }
  }

  lemma KeyToken(p: Platform, parts: seq<string>, order: seq<string>, key: string, constraints: ConstraintMap)
    requires AllSatisfied(p, parts, order, constraints) && key in constraints
    ensures var i := PositionOf(order, key) + 1;
            i < |parts| && !IsOmitted(parts[i]) && Satisfies(p, parts[i], constraints[key])
  {
    assert TokenSatisfies(p, parts, order, key, constraints[key]);
  }

  lemma KeyVerdict(p: Platform, matchKey: string, schemas: Schemas, eventType: string, w: ProcessingResult,
                   topic: string)
    requires BasesAccepted(schemas) && eventType in schemas && schemas[eventType].topic.Some?
    requires DecodeSubject(topic).Success? && DecodeSubject(topic).value != []
    requires DecodeSubject(topic).value[0] == schemas[eventType].topic.value.base
    requires IsConstraintVerdict(p, schemas, topic, w.constraints, true) && matchKey in w.constraints
    ensures var parts := DecodeSubject(topic).value;
            var i := PositionOf(schemas[eventType].topic.value.keyOrder, matchKey) + 1;
            i < |parts| && KeyAllows(p, w, matchKey, parts[i])
  {
    VerdictByToken(p, schemas, eventType, topic, w.constraints);
    KeyToken(p, DecodeSubject(topic).value, schemas[eventType].topic.value.keyOrder, matchKey, w.constraints);
  }

  lemma RoutedKeyAllowed(p: Platform, matchKey: string, schemas: Schemas, eventType: string, w: ProcessingResult,
                         topic: string, i: nat)
    requires BasesAccepted(schemas) && eventType in schemas && schemas[eventType].topic.Some?
    requires DecodeSubject(topic).Success? && DecodeSubject(topic).value != []
    requires DecodeSubject(topic).value[0] == schemas[eventType].topic.value.base
    requires IsConstraintVerdict(p, schemas, topic, w.constraints, true) && matchKey in w.constraints
    requires i == PositionOf(schemas[eventType].topic.value.keyOrder, matchKey) + 1
    ensures i < |DecodeSubject(topic).value| && KeyAllows(p, w, matchKey, DecodeSubject(topic).value[i])
  {
    KeyVerdict(p, matchKey, schemas, eventType, w, topic);
  }

  lemma FilteredKeyAllowed(p: Platform, matchKey: string, schemas: Schemas, eventType: string, w: ProcessingResult,
                           topic: string)
    requires BasesAccepted(schemas) && eventType in schemas
    requires DecodeSubject(topic).Success? && DecodeSubject(topic).value != []
    requires DecodeSubject(topic).value[0] == RoutingBase(eventType, schemas[eventType])
    requires w.constraints != map[] ==> IsConstraintVerdict(p, schemas, topic, w.constraints, true)
    ensures var parts, i := DecodeSubject(topic).value, MatchPosition(schemas[eventType], w.params, matchKey);
            i < |parts| ==> KeyAllows(p, w, matchKey, parts[i])
  {
    if matchKey in w.constraints {
      if schemas[eventType].topic.Some? {
        var i := MatchPosition(schemas[eventType], w.params, matchKey);
        RoutedPosition(schemas[eventType], w.params, matchKey);
        RoutedKeyAllowed(p, matchKey, schemas, eventType, w, topic, i);
      } else {
        NoVerdictWithoutTopic(p, schemas, eventType, topic, w.constraints);
      }
    }
  }

  lemma DeliveredKeyAllowed(p: Platform, matchKey: string, schemas: Schemas, eventType: string, stream: Request,
                            w: ProcessingResult, topic: string, headers: Option<Headers>, text: string)
    requires IsProtectedRead(p, matchKey, schemas, eventType, stream, w)
             && Delivered(p, schemas, topic, headers, text, w)
    ensures DecodeSubject(topic).Success?
    ensures var parts, i := DecodeSubject(topic).value, MatchPosition(schemas[eventType], w.params, matchKey);
            i < |parts| && KeyAllows(p, w, matchKey, parts[i])
  {
    var pattern := MatchPattern(p, matchKey, schemas, eventType, stream, w);
    var base, i := RoutingBase(eventType, schemas[eventType]), MatchPosition(schemas[eventType], w.params, matchKey);
    DeliveredMatches(p, schemas, topic, headers, text, w, base, pattern, i, w.params[matchKey]);
    FilteredKeyAllowed(p, matchKey, schemas, eventType, w, topic);
  }

  lemma OneKey(order: seq<string>, a: string, b: string)
    requires PositionOf(order, a) == PositionOf(order, b) < |order|
    ensures a == b
  {
    FirstPosition(order, a);
    FirstPosition(order, b);
  }

  lemma TokenKept(p: Platform, parts: seq<string>, order: seq<string>, matchKey: string, value: string, field: string,
                  c: Constraint)
    requires PositionOf(order, matchKey) + 1 < |parts| && TokenSatisfies(p, parts, order, field, c)
    requires field == matchKey ==> !IsOmitted(value) && Satisfies(p, value, c)
    ensures TokenSatisfies(p, parts[PositionOf(order, matchKey) + 1 := value], order, field, c)
  {
    if PositionOf(order, field) == PositionOf(order, matchKey) {
      OneKey(order, field, matchKey);
    }
  }

  lemma OthersKept(p: Platform, parts: seq<string>, order: seq<string>, matchKey: string, value: string,
                   constraints: ConstraintMap)
    requires PositionOf(order, matchKey) + 1 < |parts| && AllSatisfied(p, parts, order, constraints)
    requires matchKey in constraints ==> !IsOmitted(value) && Satisfies(p, value, constraints[matchKey])
    ensures AllSatisfied(p, parts[PositionOf(order, matchKey) + 1 := value], order, constraints)
  {
    var changed := parts[PositionOf(order, matchKey) + 1 := value];
    forall f | f in constraints ensures TokenSatisfies(p, changed, order, f, constraints[f]) {
      TokenKept(p, parts, order, matchKey, value, f, constraints[f]);
    }
  }

  /** Changing only the match value of a delivered topic keeps the verdict of the constraints. */
  lemma VerdictKept(p: Platform, matchKey: string, schemas: Schemas, eventType: string, w: ProcessingResult,
                    topic: string, parts: seq<string>, i: nat, value: string)
    requires BasesAccepted(schemas) && eventType in schemas && KeyAllows(p, w, matchKey, value)
    requires DecodeSubject(topic) == Success(parts) && 1 <= i < |parts|
             && parts[0] == RoutingBase(eventType, schemas[eventType])
    requires i == MatchPosition(schemas[eventType], w.params, matchKey)
    requires w.constraints != map[] && IsConstraintVerdict(p, schemas, topic, w.constraints, true)
    ensures IsConstraintVerdict(p, schemas, EncodeSubject(parts[i := value]), w.constraints, true)
  {
    if schemas[eventType].topic.Some? {
      RoutedPosition(schemas[eventType], w.params, matchKey);
      RoutedVerdictKept(p, matchKey, schemas, eventType, w, topic, parts, i, value);
    } else {
      NoVerdictWithoutTopic(p, schemas, eventType, topic, w.constraints);
    }
  }

  lemma SatisfiedKept(p: Platform, matchKey: string, schemas: Schemas, eventType: string, w: ProcessingResult,
                      topic: string, parts: seq<string>, i: nat, value: string)
    requires BasesAccepted(schemas) && eventType in schemas && schemas[eventType].topic.Some?
    requires KeyAllows(p, w, matchKey, value) && IsConstraintVerdict(p, schemas, topic, w.constraints, true)
    requires DecodeSubject(topic) == Success(parts) && 1 <= i < |parts|
             && parts[0] == schemas[eventType].topic.value.base
    requires i == PositionOf(schemas[eventType].topic.value.keyOrder, matchKey) + 1
    ensures AllSatisfied(p, parts[i := value], schemas[eventType].topic.value.keyOrder, w.constraints)
  {
    VerdictByToken(p, schemas, eventType, topic, w.constraints);
    OthersKept(p, parts, schemas[eventType].topic.value.keyOrder, matchKey, value, w.constraints);
  }

  lemma RoutedVerdictKept(p: Platform, matchKey: string, schemas: Schemas, eventType: string, w: ProcessingResult,
                          topic: string, parts: seq<string>, i: nat, value: string)
    requires BasesAccepted(schemas) && eventType in schemas && schemas[eventType].topic.Some?
    requires KeyAllows(p, w, matchKey, value) && IsConstraintVerdict(p, schemas, topic, w.constraints, true)
    requires DecodeSubject(topic) == Success(parts) && 1 <= i < |parts|
             && parts[0] == schemas[eventType].topic.value.base
    requires i == PositionOf(schemas[eventType].topic.value.keyOrder, matchKey) + 1
    ensures IsConstraintVerdict(p, schemas, EncodeSubject(parts[i := value]), w.constraints, true)
  {
    SatisfiedKept(p, matchKey, schemas, eventType, w, topic, parts, i, value);
    VerdictOfParts(p, schemas, eventType, parts[i := value], w.constraints);
  }

  lemma VerdictOfParts(p: Platform, schemas: Schemas, eventType: string, parts: seq<string>, constraints: ConstraintMap)
    requires BasesAccepted(schemas) && eventType in schemas && schemas[eventType].topic.Some?
    requires parts != [] && parts[0] == schemas[eventType].topic.value.base
    requires AllSatisfied(p, parts, schemas[eventType].topic.value.keyOrder, constraints)
    ensures IsConstraintVerdict(p, schemas, EncodeSubject(parts), constraints, true)
  {
    SubjectRoundTrip(parts);
    VerdictByToken(p, schemas, eventType, EncodeSubject(parts), constraints);
  }

  lemma KeyedDelivery(p: Platform, schemas: Schemas, w: ProcessingResult, base: string, pattern: seq<string>, i: nat,
                      value: string, parts: seq<string>, headers: Option<Headers>, text: string)
    requires IsKeyedPattern(base, w, pattern, i, value) && PartsMatch(parts, pattern)
    requires PassesFilters(p, schemas, EncodeSubject(parts), headers, text, w)
    ensures Delivered(p, schemas, EncodeSubject(parts), headers, text, w)
  {
    PatternOfParts(w, pattern);
    CoarseAccepts(pattern, parts);
    SubjectRoundTrip(parts);
  }

  /** A subscriber that asks for any match value receives a topic under every other value its constraint allows. */
  lemma AnyAllowedValueDelivered(p: Platform, matchKey: string, schemas: Schemas, eventType: string, stream: Request,
                                 w: ProcessingResult, topic: string, headers: Option<Headers>, text: string,
                                 value: string)
    requires IsProtectedRead(p, matchKey, schemas, eventType, stream, w)
             && Delivered(p, schemas, topic, headers, text, w)
    requires matchKey in w.params && w.params[matchKey] == "*" && KeyAllows(p, w, matchKey, value)
    ensures DecodeSubject(topic).Success?
    ensures var parts, i := DecodeSubject(topic).value, MatchPosition(schemas[eventType], w.params, matchKey);
            1 <= i < |parts| && Delivered(p, schemas, EncodeSubject(parts[i := value]), headers, text, w)
  {
    var pattern := MatchPattern(p, matchKey, schemas, eventType, stream, w);
    var base, i := RoutingBase(eventType, schemas[eventType]), MatchPosition(schemas[eventType], w.params, matchKey);
    DeliveredMatches(p, schemas, topic, headers, text, w, base, pattern, i, "*");
    ChangedDelivered(p, matchKey, schemas, eventType, w, pattern, topic, DecodeSubject(topic).value, i, headers, text,
                     value);
  }

  lemma ChangedDelivered(p: Platform, matchKey: string, schemas: Schemas, eventType: string, w: ProcessingResult,
                         pattern: seq<string>, topic: string, parts: seq<string>, i: nat,
                         headers: Option<Headers>, text: string, value: string)
    requires BasesAccepted(schemas) && eventType in schemas && KeyAllows(p, w, matchKey, value)
    requires i == MatchPosition(schemas[eventType], w.params, matchKey)
    requires IsKeyedPattern(RoutingBase(eventType, schemas[eventType]), w, pattern, i, "*")
    requires DecodeSubject(topic) == Success(parts) && PartsMatch(parts, pattern)
    requires parts[0] == RoutingBase(eventType, schemas[eventType])
    requires PassesFilters(p, schemas, topic, headers, text, w)
    ensures Delivered(p, schemas, EncodeSubject(parts[i := value]), headers, text, w)
  {
    if w.constraints != map[] {
      VerdictKept(p, matchKey, schemas, eventType, w, topic, parts, i, value);
    }
    var base := RoutingBase(eventType, schemas[eventType]);
    KeyedDelivery(p, schemas, w, base, pattern, i, "*", parts[i := value], headers, text);
  }

  /** There is always a value that a list does not have. */
  lemma Unlisted(list: EcpdsClient.Destinations) returns (value: string)
    ensures value !in list
    ensures forall d :: d in list ==> |d| < |value|
  {
    if list == {} {
      value := "x";
    } else {
      var d :| d in list;
      var longer := Unlisted(list - {d});
      value := longer + d + "x";
      assert list == (list - {d}) + {d};
    }
  }

  /**
   * Exactly when the list decides over all topics that may lie in the stream, whoever put them there:
   * the request is for one value, or its own constraint allows listed values only, or no topic at all
   * gets through. Producers' notifications are the subject of `Listed.NotificationListDecides`.
   */
  lemma ListDecides(p: Platform, matchKey: string, schemas: Schemas, eventType: string, stream: Request,
                    w: ProcessingResult, list: EcpdsClient.Destinations)
    requires IsProtectedRead(p, matchKey, schemas, eventType, stream, w)
             && EcpdsChecker.Allows(matchKey, w.params, list)
    ensures OnlyListed(p, schemas, w, MatchPosition(schemas[eventType], w.params, matchKey), list) <==>
            || w.params[matchKey] != "*"
            || ConstraintListed(p, w, matchKey, list)
            || !ReceivesSomething(p, schemas, w)
  {
    var i := MatchPosition(schemas[eventType], w.params, matchKey);
    if w.params[matchKey] != "*" || ConstraintListed(p, w, matchKey, list) {
      forall topic, headers, text | Delivered(p, schemas, topic, headers, text, w) ensures ListedAt(topic, i, list) {
        if w.params[matchKey] != "*" {
          AuthorisedTopic(p, matchKey, schemas, eventType, stream, w, list, topic, headers, text);
        } else {
          DeliveredKeyAllowed(p, matchKey, schemas, eventType, stream, w, topic, headers, text);
        }
      }
    } else if ReceivesSomething(p, schemas, w) {
      var value :| KeyAllows(p, w, matchKey, value) && value !in list;
      UnlistedDelivered(p, matchKey, schemas, eventType, stream, w, list, value);
    }
  }

  lemma UnlistedDelivered(p: Platform, matchKey: string, schemas: Schemas, eventType: string, stream: Request,
                          w: ProcessingResult, list: EcpdsClient.Destinations, value: string)
    requires IsProtectedRead(p, matchKey, schemas, eventType, stream, w) && ReceivesSomething(p, schemas, w)
    requires matchKey in w.params && w.params[matchKey] == "*" && KeyAllows(p, w, matchKey, value) && value !in list
    ensures !OnlyListed(p, schemas, w, MatchPosition(schemas[eventType], w.params, matchKey), list)
  {
    var i := MatchPosition(schemas[eventType], w.params, matchKey);
    var topic, headers, text :| Delivered(p, schemas, topic, headers, text, w);
    AnyAllowedValueDelivered(p, matchKey, schemas, eventType, stream, w, topic, headers, text, value);
    var changed := DecodeSubject(topic).value[i := value];
    SubjectRoundTrip(changed);
    assert !ListedAt(EncodeSubject(changed), i, list);
  }

  /** Over all topics and without a constraint on the match key, the guard is the requested value alone. */
  lemma RequestedValueDecides(p: Platform, matchKey: string, schemas: Schemas, eventType: string, stream: Request,
                              w: ProcessingResult, list: EcpdsClient.Destinations)
    requires IsProtectedRead(p, matchKey, schemas, eventType, stream, w)
             && EcpdsChecker.Allows(matchKey, w.params, list)
    requires matchKey !in w.constraints && ReceivesSomething(p, schemas, w)
    ensures OnlyListed(p, schemas, w, MatchPosition(schemas[eventType], w.params, matchKey), list) <==>
            w.params[matchKey] != "*"
  {
    var value := Unlisted(list);
    assert KeyAllows(p, w, matchKey, value);
    ListDecides(p, matchKey, schemas, eventType, stream, w, list);
  }

  /** No constraint and no spatial filter. */
  predicate IsPlain(w: ProcessingResult) {
    w.constraints == map[] && "point" !in w.params && ("polygon" in w.params ==> w.params["polygon"] == "*")
  }

  lemma PlainReceives(p: Platform, matchKey: string, schemas: Schemas, eventType: string, stream: Request,
                      w: ProcessingResult)
    requires IsProtectedRead(p, matchKey, schemas, eventType, stream, w) && IsPlain(w)
    ensures ReceivesSomething(p, schemas, w)
  {
    var pattern := MatchPattern(p, matchKey, schemas, eventType, stream, w);
    var base, i := RoutingBase(eventType, schemas[eventType]), MatchPosition(schemas[eventType], w.params, matchKey);
    NoSpatialFilter(p, w.params, None, "");
    KeyedDelivery(p, schemas, w, base, pattern, i, w.params[matchKey], pattern, None, "");
  }

  /** Over all topics and for plain requests the requested value alone decides, and the caller can see it. */
  lemma PlainRequestDecides(p: Platform, matchKey: string, schemas: Schemas, eventType: string, stream: Request,
                            w: ProcessingResult, list: EcpdsClient.Destinations)
    requires IsProtectedRead(p, matchKey, schemas, eventType, stream, w) && IsPlain(w)
    requires EcpdsChecker.Allows(matchKey, w.params, list)
    ensures OnlyListed(p, schemas, w, MatchPosition(schemas[eventType], w.params, matchKey), list) <==>
            w.params[matchKey] != "*"
  {
    PlainReceives(p, matchKey, schemas, eventType, stream, w);
    RequestedValueDecides(p, matchKey, schemas, eventType, stream, w, list);
  }

  predicate AsksForEverything(params: Params) { forall f :: f in params ==> params[f] == "*" }

  /**
   * With '*' in the list the check lets in a subscriber that asks for everything, and it receives
   * every notification of the event type, unless the schema has an identifier named 'point'.
   */
  lemma WildcardEntryOpensAll(p: Platform, matchKey: string, schemas: Schemas, eventType: string,
                              notify: Request, payload: bool, n: ProcessingResult, stream: Request, w: ProcessingResult,
                              list: EcpdsClient.Destinations, headers: Option<Headers>, text: string)
    requires IsProtectedRead(p, matchKey, schemas, eventType, stream, w)
    requires IsNotifyResult(p, eventType, schemas[eventType], notify, payload, n)
    requires "*" in list && w.constraints == map[] && AsksForEverything(w.params)
    ensures EcpdsChecker.Allows(matchKey, w.params, list)
    ensures Delivered(p, schemas, n.topic, headers, text, w) <==> "point" !in w.params
  {
    MatchKeyRequested(p, matchKey, schemas, eventType, stream, w);
    if schemas[eventType].topic.Some? {
      EverythingRouted(p, schemas, eventType, notify, payload, n, stream, w, headers, text);
    } else {
      assert matchKey in n.params;
      EverythingGeneric(p, schemas, eventType, notify, payload, n, stream, w, headers, text);
    }
  }

  lemma WildcardFilters(p: Platform, params: Params, headers: Option<Headers>, text: string)
    requires AsksForEverything(params)
    ensures MatchesSpatialFilters(p, params, PrepareSpatialFilter(p, params), headers, text) <==> "point" !in params
  {
    if "point" in params {
      WildcardIsNoPoint(p);
      PointRejected(p, params, headers, text);
    } else {
      NoSpatialFilter(p, params, headers, text);
    }
  }

  lemma EverythingRouted(p: Platform, schemas: Schemas, eventType: string, notify: Request, payload: bool,
                         n: ProcessingResult, stream: Request, w: ProcessingResult, headers: Option<Headers>,
                         text: string)
    requires RoutingAccepted(schemas) && eventType in schemas && schemas[eventType].topic.Some?
    requires IsNotifyResult(p, eventType, schemas[eventType], notify, payload, n)
    requires IsStreamResult(p, eventType, schemas[eventType], stream, w)
    requires w.constraints == map[] && AsksForEverything(w.params)
    ensures Delivered(p, schemas, n.topic, headers, text, w) <==> "point" !in w.params
  {
    EndToEnd(p, schemas, eventType, notify, payload, n, stream, w, headers, text);
    NothingToHold(p, n.params);
    WildcardFilters(p, w.params, headers, text);
  }

  lemma EverythingGeneric(p: Platform, schemas: Schemas, eventType: string, notify: Request, payload: bool,
                          n: ProcessingResult, stream: Request, w: ProcessingResult, headers: Option<Headers>,
                          text: string)
    requires RoutingAccepted(schemas) && eventType in schemas && schemas[eventType].topic.None? && n.params != map[]
    requires IsNotifyResult(p, eventType, schemas[eventType], notify, payload, n)
    requires IsStreamResult(p, eventType, schemas[eventType], stream, w)
    requires w.constraints == map[] && AsksForEverything(w.params)
    ensures Delivered(p, schemas, n.topic, headers, text, w) <==> "point" !in w.params
  {
    EndToEndGeneric(p, schemas, eventType, notify, payload, n, stream, w, headers, text);
    WildcardFilters(p, w.params, headers, text);
    GenericKeys(p, schemas[eventType], eventType, notify, payload, n, stream, w);
  }

  /** Without a topic block and without a requested point, both requests carry the same keys. */
  lemma GenericKeys(p: Platform, schema: EventSchema, eventType: string, notify: Request, payload: bool,
                    n: ProcessingResult, stream: Request, w: ProcessingResult)
    requires SpatialAccepted(schema) && schema.topic.None?
    requires IsNotifyResult(p, eventType, schema, notify, payload, n) && IsStreamResult(p, eventType, schema, stream, w)
    ensures "point" !in w.params ==> w.params.Keys == n.params.Keys
  {
    assert !HasCloud(schema);
  }

  // ---- lists, servers and the cache ---------------------------------------------------------

  /**
   * Authorised delivery from end to end: over every interleaving of cache calls, if the decision on
   * what a call was given lets the request in and the request asks for one value, then every topic
   * delivered to it carries that value, and a server asked for this very user had listed it.
   */
  lemma ServedDelivery(p: Platform, matchKey: string, schemas: Schemas, eventType: string, stream: Request,
                       w: ProcessingResult, policy: EcpdsClient.OutagePolicy, servers: EcpdsCache.Servers,
                       steps: seq<EcpdsCache.Step>, s: EcpdsCache.State, id: EcpdsCache.CallId, topic: string,
                       headers: Option<Headers>, text: string)
    requires IsProtectedRead(p, matchKey, schemas, eventType, stream, w)
    requires EcpdsCache.ServedRun(policy, servers, steps) && EcpdsCache.Run(EcpdsCache.INITIAL, steps) == Some(s)
    requires id in s.calls && s.calls[id].phase.Finished?
    requires EcpdsChecker.Decide(matchKey, w.params, s.calls[id].phase.answer).Success? && w.params[matchKey] != "*"
    requires Delivered(p, schemas, topic, headers, text, w)
    ensures DecodeSubject(topic).Success?
    ensures var parts, i := DecodeSubject(topic).value, MatchPosition(schemas[eventType], w.params, matchKey);
            i < |parts| && EcpdsCache.ServerListed(servers, s, s.calls[id].user, parts[i])
  {
    var list := s.calls[id].phase.answer.value;
    AuthorisedTopic(p, matchKey, schemas, eventType, stream, w, list, topic, headers, text);
    EcpdsCache.AnswersComeFromServers(policy, servers, steps, s, id, w.params[matchKey]);
  }
}
