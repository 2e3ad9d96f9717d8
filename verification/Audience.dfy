/** Who can receive a notification at all: subscribers of its own topic base, and nobody else. */
module Audience {
  import opened Wrappers
  import opened Json
  import opened Platform
  import opened Schema
  import opened TopicCodec
  import opened Topics
  import opened Spatial
  import opened Shapes
  import opened Validation
  import opened Processor
  import opened WildcardMatcher
  import opened Delivery
  import opened GenericDelivery
  import Geometry

  /** The base of the subjects of an event type, which is its own name unless its schema says otherwise. */
  function BaseOf(schemas: Schemas, eventType: string): string {
    if eventType in schemas then RoutingBase(eventType, schemas[eventType]) else eventType
  }

  /** `n` is what an accepted notify request produces, with or without a schema. */
  ghost predicate IsNotification(p: Platform, schemas: Schemas, strict: bool, eventType: string,
                                 notify: Request, payload: bool, n: ProcessingResult)
  {
    if eventType in schemas then IsNotifyResult(p, eventType, schemas[eventType], notify, payload, n)
    else !strict && ValidBase(eventType) && IsGenericResult(p, eventType, notify, Notify, n)
  }

  /** `w` is what an accepted watch or replay request produces, with or without a schema. */
  ghost predicate IsSubscription(p: Platform, schemas: Schemas, strict: bool, eventType: string,
                                 stream: Request, operation: Operation, w: ProcessingResult)
  {
    operation != Notify
    && if eventType in schemas then IsStreamResult(p, eventType, schemas[eventType], stream, w)
       else !strict && ValidBase(eventType) && IsGenericResult(p, eventType, stream, operation, w)
  }

  // ---- bases --------------------------------------------------------------------------------

  lemma SchemaNotificationBase(p: Platform, schemas: Schemas, eventType: string, notify: Request, payload: bool,
                               n: ProcessingResult)
    requires RoutingAccepted(schemas) && eventType in schemas
    requires IsNotifyResult(p, eventType, schemas[eventType], notify, payload, n)
    ensures DecodeSubject(n.topic).Success? && DecodeSubject(n.topic).value != []
    ensures DecodeSubject(n.topic).value[0] == BaseOf(schemas, eventType)
  {
    assert TopicAccepted(schemas[eventType]) && ValidBase(RoutingBase(eventType, schemas[eventType]));
    if schemas[eventType].topic.Some? {
      NotifySubject(p, eventType, schemas[eventType], notify, payload, n);
    } else {
      var parts := GenericParts(eventType, n.params, n.topic);
    }
  }

  lemma NotificationBase(p: Platform, schemas: Schemas, strict: bool, eventType: string, notify: Request, payload: bool,
                         n: ProcessingResult)
    requires RoutingAccepted(schemas) && IsNotification(p, schemas, strict, eventType, notify, payload, n)
    ensures DecodeSubject(n.topic).Success? && DecodeSubject(n.topic).value != []
    ensures DecodeSubject(n.topic).value[0] == BaseOf(schemas, eventType)
  {
    if eventType in schemas {
      SchemaNotificationBase(p, schemas, eventType, notify, payload, n);
    } else {
      var parts := GenericParts(eventType, n.params, n.topic);
    }
  }

  lemma SchemaSubscriptionBase(p: Platform, schemas: Schemas, eventType: string, stream: Request, w: ProcessingResult)
    requires RoutingAccepted(schemas) && eventType in schemas
    requires IsStreamResult(p, eventType, schemas[eventType], stream, w)
    ensures DecodeSubject(w.topic).Success? && DecodeSubject(w.topic).value != []
    ensures DecodeSubject(w.topic).value[0] == BaseOf(schemas, eventType)
  {
    assert TopicAccepted(schemas[eventType]) && ValidBase(RoutingBase(eventType, schemas[eventType]));
    if schemas[eventType].topic.Some? {
      StreamSubject(p, eventType, schemas[eventType], stream, w);
    } else {
      var parts := GenericParts(eventType, w.params, w.topic);
    }
  }

  lemma SubscriptionBase(p: Platform, schemas: Schemas, strict: bool, eventType: string, stream: Request,
                         operation: Operation, w: ProcessingResult)
    requires RoutingAccepted(schemas) && IsSubscription(p, schemas, strict, eventType, stream, operation, w)
    ensures DecodeSubject(w.topic).Success? && DecodeSubject(w.topic).value != []
    ensures DecodeSubject(w.topic).value[0] == BaseOf(schemas, eventType) && BaseOf(schemas, eventType) != "*"
  {
    if eventType in schemas {
      SchemaSubscriptionBase(p, schemas, eventType, stream, w);
      assert ValidBase(RoutingBase(eventType, schemas[eventType]));
    } else {
      var parts := GenericParts(eventType, w.params, w.topic);
    }
  }

  lemma DeliveredPartsMatch(p: Platform, schemas: Schemas, topic: string, headers: Option<Headers>, text: string,
                            w: ProcessingResult)
    requires Delivered(p, schemas, topic, headers, text, w)
    ensures DecodeSubject(topic).Success? && DecodeSubject(w.topic).Success?
    ensures PartsMatch(DecodeSubject(topic).value, DecodeSubject(w.topic).value)
  {
  }

  /** Whoever receives a notification subscribed under its base. */
  lemma DeliveredSharesBase(p: Platform, schemas: Schemas, strict: bool,
                            eventType: string, notify: Request, payload: bool, n: ProcessingResult,
                            other: string, stream: Request, operation: Operation, w: ProcessingResult,
                            headers: Option<Headers>, text: string)
    requires RoutingAccepted(schemas) && IsNotification(p, schemas, strict, eventType, notify, payload, n)
    requires IsSubscription(p, schemas, strict, other, stream, operation, w)
    requires Delivered(p, schemas, n.topic, headers, text, w)
    ensures BaseOf(schemas, eventType) == BaseOf(schemas, other)
  {
    NotificationBase(p, schemas, strict, eventType, notify, payload, n);
    SubscriptionBase(p, schemas, strict, other, stream, operation, w);
    DeliveredPartsMatch(p, schemas, n.topic, headers, text, w);
  }

  /** Between two configured event types nothing is delivered, with or without topic blocks. */
  lemma NoCrossDelivery(p: Platform, schemas: Schemas, eventType: string, notify: Request, payload: bool,
                        n: ProcessingResult, other: string, stream: Request, w: ProcessingResult,
                        headers: Option<Headers>, text: string)
    requires RoutingAccepted(schemas) && eventType in schemas && other in schemas && other != eventType
    requires IsNotifyResult(p, eventType, schemas[eventType], notify, payload, n)
    requires IsStreamResult(p, other, schemas[other], stream, w)
    ensures !Delivered(p, schemas, n.topic, headers, text, w)
  {
    if Delivered(p, schemas, n.topic, headers, text, w) {
      DeliveredSharesBase(p, schemas, true, eventType, notify, payload, n, other, stream, Watch, w, headers, text);
      OneOwner(schemas, eventType, other);
    }
  }

  // ---- subscribers of another name ----------------------------------------------------------

  /** A subscriber of another event type, with no access check of this one, receives the notification. */
  ghost predicate ReachesAnother(p: Platform, schemas: Schemas, strict: bool, eventType: string, topic: string,
                                 headers: Option<Headers>, text: string)
  {
    exists other, stream, operation, w ::
      other != eventType && IsSubscription(p, schemas, strict, other, stream, operation, w)
      && Delivered(p, schemas, topic, headers, text, w)
  }

  /** Only a schema-less event type that is named like the topic base can be that other. */
  lemma OnlyBaseName(p: Platform, schemas: Schemas, strict: bool,
                     eventType: string, notify: Request, payload: bool, n: ProcessingResult,
                     other: string, stream: Request, operation: Operation, w: ProcessingResult,
                     headers: Option<Headers>, text: string)
    requires RoutingAccepted(schemas) && eventType in schemas && other != eventType
    requires IsNotifyResult(p, eventType, schemas[eventType], notify, payload, n)
    requires IsSubscription(p, schemas, strict, other, stream, operation, w)
    requires Delivered(p, schemas, n.topic, headers, text, w)
    ensures !strict && other !in schemas && other == BaseOf(schemas, eventType)
  {
    DeliveredSharesBase(p, schemas, strict, eventType, notify, payload, n, other, stream, operation, w, headers, text);
    if other in schemas {
      OneOwner(schemas, eventType, other);
    }
  }

  function Name(i: nat): string { seq(i, j => 'k') }

  /** `n` different keys that are no spatial filter. */
  function Names(n: nat): set<string> { set i: nat | 1 <= i <= n :: Name(i) }

  lemma {:induction false} NamesAre(n: nat)
    ensures |Names(n)| == n && forall k :: k in Names(n) ==> 1 <= |k| <= n && k[0] == 'k'
  {
    if n == 0 {
      assert Names(0) == {};
    } else {
      NamesAre(n - 1);
      assert Names(n) == Names(n - 1) + {Name(n)};
      assert |Name(n)| == n && Name(n) !in Names(n - 1);
    }
  }

  function AskAll(n: nat): Request { map k | k in Names(n) :: Str("*") }

  lemma AskAllParams(p: Platform, n: nat)
    ensures GenericAccepts(p, AskAll(n), Watch) && GenericParams(p, AskAll(n), Watch) == AllEqual(Names(n), "*")
    ensures |AllEqual(Names(n), "*")| == n
  {
    NamesAre(n);
    assert GenericField(p, Str("*"), Watch) == Success("*");
    assert AllEqual(Names(n), "*").Keys == Names(n);
    assert |AllEqual(Names(n), "*")| == |AllEqual(Names(n), "*").Keys|;
  }

  lemma AskAllResult(p: Platform, base: string, n: nat) returns (w: ProcessingResult, pattern: seq<string>)
    requires ValidBase(base)
    ensures IsGenericResult(p, base, AskAll(n), Watch, w) && w.params == AllEqual(Names(n), "*")
    ensures w.topic == EncodeSubject(pattern) && |pattern| == n + 1 && pattern[0] == base
    ensures forall i :: 1 <= i < |pattern| ==> pattern[i] == "*"
  {
    AskAllParams(p, n);
    w := GenericResult(p, base, AskAll(n), Watch);
    pattern := GenericParts(base, w.params, w.topic);
    GenericPartsInOrder(pattern, base, w.params);
    forall i | 1 <= i < |pattern| ensures pattern[i] == "*" {
      KeyOrderIs(w.params.Keys);
      assert pattern[(i - 1) + 1] == ValueAt(w.params, i - 1);
    }
  }

  lemma DeliveredByPattern(p: Platform, schemas: Schemas, topic: string, parts: seq<string>, w: ProcessingResult,
                           pattern: seq<string>, headers: Option<Headers>, text: string)
    requires w.topic == EncodeSubject(pattern) && |pattern| >= 2 && pattern[0] != "*" && PartsMatch(parts, pattern)
    requires topic == EncodeSubject(parts) && PassesFilters(p, schemas, topic, headers, text, w)
    ensures Delivered(p, schemas, topic, headers, text, w)
  {
    SubjectRoundTrip(pattern);
    SubjectRoundTrip(parts);
    CoarseAccepts(pattern, parts);
  }

  lemma SubjectOf(p: Platform, schemas: Schemas, eventType: string, notify: Request, payload: bool, n: ProcessingResult)
    returns (parts: seq<string>)
    requires RoutingAccepted(schemas) && eventType in schemas && schemas[eventType].topic.Some?
    requires IsNotifyResult(p, eventType, schemas[eventType], notify, payload, n)
    ensures n.topic == EncodeSubject(parts) && |parts| >= 2 && parts[0] == BaseOf(schemas, eventType)
  {
    assert TopicAccepted(schemas[eventType]);
    NotifySubject(p, eventType, schemas[eventType], notify, payload, n);
    parts := SchemaParts(schemas[eventType].topic.value, n.params);
  }

  lemma WildcardsMatch(parts: seq<string>, pattern: seq<string>)
    requires |pattern| == |parts| && pattern != [] && pattern[0] == parts[0]
    requires forall i :: 1 <= i < |pattern| ==> pattern[i] == "*"
    ensures PartsMatch(parts, pattern)
  {
  }

  lemma AskAllReceives(p: Platform, schemas: Schemas, base: string, parts: seq<string>, headers: Option<Headers>,
                       text: string)
    returns (w: ProcessingResult)
    requires ValidBase(base) && |parts| >= 2 && parts[0] == base
    ensures IsGenericResult(p, base, AskAll(|parts| - 1), Watch, w)
    ensures Delivered(p, schemas, EncodeSubject(parts), headers, text, w)
  {
    var pattern;
    w, pattern := AskAllResult(p, base, |parts| - 1);
    AskAllFilters(p, schemas, EncodeSubject(parts), headers, text, w, |parts| - 1);
    WildcardsMatch(parts, pattern);
    DeliveredByPattern(p, schemas, EncodeSubject(parts), parts, w, pattern, headers, text);
  }

  /** Under that name, a request for as many arbitrary values as the topic has receives every notification. */
  lemma BaseNameReceives(p: Platform, schemas: Schemas, eventType: string, notify: Request, payload: bool,
                         n: ProcessingResult, headers: Option<Headers>, text: string)
    returns (stream: Request, w: ProcessingResult)
    requires RoutingAccepted(schemas) && eventType in schemas && BaseOf(schemas, eventType) !in schemas
    requires IsNotifyResult(p, eventType, schemas[eventType], notify, payload, n)
    ensures IsSubscription(p, schemas, false, BaseOf(schemas, eventType), stream, Watch, w)
    ensures Delivered(p, schemas, n.topic, headers, text, w)
  {
    var base := BaseOf(schemas, eventType);
    assert ValidBase(RoutingBase(eventType, schemas[eventType])) && schemas[eventType].topic.Some?;
    var parts := SubjectOf(p, schemas, eventType, notify, payload, n);
    stream := AskAll(|parts| - 1);
    w := AskAllReceives(p, schemas, base, parts, headers, text);
  }

  lemma AskAllFilters(p: Platform, schemas: Schemas, topic: string, headers: Option<Headers>, text: string,
                      w: ProcessingResult, n: nat)
    requires w.params == AllEqual(Names(n), "*") && w.constraints == map[]
    ensures PassesFilters(p, schemas, topic, headers, text, w)
  {
    NamesAre(n);
    assert "point"[0] != 'k' && "polygon"[0] != 'k';
    NoSpatialFilter(p, w.params, headers, text);
  }

  /**
   * Who receives a configured event type: only its own subscribers, exactly when unknown event types
   * are refused or its topic base is itself the name of a configured event type.
   */
  lemma OwnSubscribersOnly(p: Platform, schemas: Schemas, strict: bool, eventType: string, notify: Request,
                           payload: bool, n: ProcessingResult, headers: Option<Headers>, text: string)
    requires RoutingAccepted(schemas) && eventType in schemas
    requires IsNotifyResult(p, eventType, schemas[eventType], notify, payload, n)
    ensures !ReachesAnother(p, schemas, strict, eventType, n.topic, headers, text) <==>
            strict || BaseOf(schemas, eventType) in schemas
  {
    if strict || BaseOf(schemas, eventType) in schemas {
      forall other, stream, operation, w |
        other != eventType && IsSubscription(p, schemas, strict, other, stream, operation, w)
        && Delivered(p, schemas, n.topic, headers, text, w)
        ensures false
      {
        OnlyBaseName(p, schemas, strict, eventType, notify, payload, n, other, stream, operation, w, headers, text);
      }
    } else {
      var stream, w := BaseNameReceives(p, schemas, eventType, notify, payload, n, headers, text);
      assert BaseOf(schemas, eventType) != eventType;
      assert IsSubscription(p, schemas, strict, BaseOf(schemas, eventType), stream, Watch, w);
    }
  }

  // ---- what subscribers under the base name receive -----------------------------------------

  /** As many values as the topic has keys, and position by position a wildcard or the producer's value. */
  ghost predicate OrderAgrees(order: seq<string>, given: Params, wanted: Params)
    requires forall k :: k in order ==> k in given
  {
    |order| == |wanted|
    && forall i :: 0 <= i < |order| ==> ValueAt(wanted, i) == "*" || ValueAt(wanted, i) == given[order[i]]
  }

  lemma OrderMatches(topic: TopicConfig, given: Params, wanted: Params, pattern: seq<string>)
    requires forall k :: k in topic.keyOrder ==> k in given
    requires AreGenericParts(pattern, topic.base, wanted)
    ensures PartsMatch(SchemaParts(topic, given), pattern) <==> OrderAgrees(topic.keyOrder, given, wanted)
  {
    var parts, order := SchemaParts(topic, given), topic.keyOrder;
    GenericPartsInOrder(pattern, topic.base, wanted);
    forall i | 0 <= i < |order| ensures parts[i + 1] == given[order[i]] {
      KeyPart(topic, given, i);
    }
    if PartsMatch(parts, pattern) {
      forall i | 0 <= i < |order| ensures ValueAt(wanted, i) == "*" || ValueAt(wanted, i) == given[order[i]] {
        assert pattern[i + 1] == "*" || pattern[i + 1] == parts[i + 1];
      }
    }
    if OrderAgrees(order, given, wanted) {
      forall i | 0 <= i < |parts| ensures pattern[i] == "*" || pattern[i] == parts[i] {
        if i > 0 {
          assert ValueAt(wanted, i - 1) == "*" || ValueAt(wanted, i - 1) == given[order[i - 1]];
        }
      }
    }
  }

  /** Delivery to a subscriber that is named like the topic base: positions, and the spatial filters of any request. */
  lemma BaseNameDelivery(p: Platform, schemas: Schemas, eventType: string, notify: Request, payload: bool,
                         n: ProcessingResult, stream: Request, operation: Operation, w: ProcessingResult,
                         headers: Option<Headers>, text: string)
    requires RoutingAccepted(schemas) && eventType in schemas && schemas[eventType].topic.Some?
    requires IsNotifyResult(p, eventType, schemas[eventType], notify, payload, n)
    requires IsGenericResult(p, schemas[eventType].topic.value.base, stream, operation, w)
    ensures Routable(schemas[eventType], n.params)
    ensures Delivered(p, schemas, n.topic, headers, text, w) <==>
            && OrderAgrees(schemas[eventType].topic.value.keyOrder, n.params, w.params)
            && MatchesSpatialFilters(p, w.params, PrepareSpatialFilter(p, w.params), headers, text)
  {
    var topic := schemas[eventType].topic.value;
    assert TopicAccepted(schemas[eventType]) && ValidBase(RoutingBase(eventType, schemas[eventType]));
    NotifySubject(p, eventType, schemas[eventType], notify, payload, n);
    var parts := SchemaParts(topic, n.params);
    var pattern := GenericParts(topic.base, w.params, w.topic);
    OrderMatches(topic, n.params, w.params, pattern);
    if PartsMatch(parts, pattern) {
      CoarseAccepts(pattern, parts);
    }
    DeliveredParts(p, schemas, n.topic, headers, text, w);
  }

  /**
   * For stored geometry: plain geometry, with the payload's polygon for clouds, and the boxes that
   * it does not imply.
   */
  lemma BaseNameSpatial(p: Platform, schemas: Schemas, eventType: string, notify: Request, payload: bool,
                        n: ProcessingResult, stream: Request, operation: Operation, w: ProcessingResult,
                        shape: Shape, text: string)
    requires Lawful(p) && RoutingAccepted(schemas) && eventType in schemas && schemas[eventType].topic.Some?
    requires IsNotifyResult(p, eventType, schemas[eventType], notify, payload, n)
    requires IsGenericResult(p, schemas[eventType].topic.value.base, stream, operation, w)
    requires ProducerShape(p, schemas[eventType], notify) == Some(shape)
    ensures Routable(schemas[eventType], n.params)
    ensures Delivered(p, schemas, n.topic, StoredWith(n), text, w) <==>
            && OrderAgrees(schemas[eventType].topic.value.keyOrder, n.params, w.params)
            && PlainAnswer(p, w.params, shape, text) && BoxesAdmit(p, w.params, shape)
  {
    assert SpatialAccepted(schemas[eventType]);
    StoredMetadata(p, schemas[eventType], notify, n.spatial);
    PrefilterKeepsAnswer(p, w.params, shape, text);
    BaseNameDelivery(p, schemas, eventType, notify, payload, n, stream, operation, w, StoredWith(n), text);
  }

  /**
   * A point asked of stored clouds: a subscriber under the base name whose one value is both the
   * routed value and a point receives the notification exactly when the payload's polygon holds the
   * point and the cloud's box does too.
   */
  lemma PointOfCloud(p: Platform, schemas: Schemas, eventType: string, notify: Request, payload: bool,
                     n: ProcessingResult, shape: Shape, key: string, text: string)
    returns (w: ProcessingResult)
    requires Lawful(p) && RoutingAccepted(schemas) && eventType in schemas && BaseOf(schemas, eventType) !in schemas
    requires schemas[eventType].topic.Some? && schemas[eventType].topic.value.keyOrder == [key]
    requires IsNotifyResult(p, eventType, schemas[eventType], notify, payload, n)
    requires ProducerShape(p, schemas[eventType], notify) == Some(shape) && shape.Cloud?
    ensures key in n.params
    ensures IsSubscription(p, schemas, false, BaseOf(schemas, eventType), OneField("point", n.params[key]), Watch, w)
    ensures Delivered(p, schemas, n.topic, StoredWith(n), text, w) <==>
            && PayloadHoldsPoint(p, n.params[key], text)
            && Geometry.InBox(Geometry.BoxOf(shape.cs), ParsePointText(p, n.params[key]).value)
  {
    var base := BaseOf(schemas, eventType);
    assert TopicAccepted(schemas[eventType]) && ValidBase(RoutingBase(eventType, schemas[eventType]));
    assert [key][0] in schemas[eventType].topic.value.keyOrder;
    w := OneFieldResult(p, base, "point", n.params[key], Watch);
    BaseNameSpatial(p, schemas, eventType, notify, payload, n, OneField("point", n.params[key]), Watch, w, shape, text);
    OneValue(n.params, w.params, key, n.params[key]);
  }

  lemma OneValue(given: Params, wanted: Params, key: string, value: string)
    requires key in given && wanted == AllEqual({"point"}, value)
    ensures OrderAgrees([key], given, wanted) <==> value == "*" || value == given[key]
    ensures wanted.Keys == {"point"} && "polygon" !in wanted
  {
    KeyOrderIs({"point"});
    assert wanted.Keys == {"point"} && |wanted| == |wanted.Keys|;
    assert KeyOrder(wanted.Keys)[0] in KeyOrder(wanted.Keys);
    assert ValueAt(wanted, 0) == value;
    assert |"polygon"| != |"point"|;
  }
}
