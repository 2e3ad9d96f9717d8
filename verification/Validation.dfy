/**
 * The start-up checks that routing and delivery rely on: src/configuration/topic_validation.rs and
 * the schema loops of src/configuration/validation.rs. Each loop is proved to accept exactly the
 * settings that its declarative predicate describes, and each rejection names a real fault.
 */
module Validation {
  import opened Wrappers
  import opened Text
  import opened Schema
  import Units
  import Shapes

  datatype Verdict<+E> = Accepted | Rejected(error: E)

  // ---- topics -------------------------------------------------------------------------------

  datatype TopicFault =
    | EmptyKeyOrder | ReservedKey(key: string) | UndeclaredKey(key: string) | DuplicateKey(key: string)
    | UnroutedIdentifier(key: string)

  /** Every scalar identifier has exactly one position in the subject, and nothing else has one. */
  predicate TopicAccepted(schema: EventSchema) {
    schema.topic.Some? ==>
      var order := schema.topic.value.keyOrder;
      && order != [] && NoDuplicates(order)
      && (forall k :: k in order ==> k != "point_cloud" && k in schema.identifier)
      && (forall k :: k in schema.identifier && !schema.identifier[k].IsSpatial() ==> k in order)
  }

  ghost predicate HasTopicFault(schema: EventSchema, fault: TopicFault) {
    schema.topic.Some?
    && var order := schema.topic.value.keyOrder;
       match fault
       case EmptyKeyOrder => order == []
       case ReservedKey(k) => k in order && k == "point_cloud"
       case UndeclaredKey(k) => k in order && k !in schema.identifier
       case DuplicateKey(k) => exists i, j :: 0 <= i < j < |order| && order[i] == order[j] == k
       case UnroutedIdentifier(k) => k in schema.identifier && !schema.identifier[k].IsSpatial() && k !in order
  }

  method CheckTopic(schema: EventSchema) returns (r: Verdict<TopicFault>)
    ensures r.Accepted? <==> TopicAccepted(schema)
    ensures r.Rejected? ==> HasTopicFault(schema, r.error)
  {
    if schema.topic.None? {
      return Accepted;
    }
    var order := schema.topic.value.keyOrder;
    if order == [] {
      return Rejected(EmptyKeyOrder);
    }
    var seen: set<string> := {};
    for i := 0 to |order|
      invariant seen == set k | k in order[..i]
      invariant NoDuplicates(order[..i])
      invariant forall k :: k in order[..i] ==> k != "point_cloud" && k in schema.identifier
    {
      var key := order[i];
      assert key in order;
      if key == "point_cloud" {
        return Rejected(ReservedKey(key));
      }
      if key !in schema.identifier {
        return Rejected(UndeclaredKey(key));
      }
      if key in seen {
        var j :| 0 <= j < i && order[j] == key;
        return Rejected(DuplicateKey(key));
      }
      seen := seen + {key};
      assert order[..i + 1] == order[..i] + [key];
    }
    assert order[..|order|] == order;
    var rest := schema.identifier.Keys;
    while rest != {}
      invariant rest <= schema.identifier.Keys
      invariant forall k :: k in schema.identifier.Keys - rest && !schema.identifier[k].IsSpatial() ==> k in order
    {
      var key :| key in rest;
      rest := rest - {key};
      if key !in seen && !schema.identifier[key].IsSpatial() {
        return Rejected(UnroutedIdentifier(key));
      }
    }
    r := Accepted;
  }

  predicate TopicsAccepted(schemas: Schemas) { forall e :: e in schemas ==> TopicAccepted(schemas[e]) }

  method ValidateTopicSchemas(schemas: Schemas) returns (r: Verdict<(string, TopicFault)>)
    ensures r.Accepted? <==> TopicsAccepted(schemas)
    ensures r.Rejected? ==> r.error.0 in schemas && HasTopicFault(schemas[r.error.0], r.error.1)
  {
    var rest := schemas.Keys;
    while rest != {}
      invariant rest <= schemas.Keys
      invariant forall e :: e in schemas.Keys - rest ==> TopicAccepted(schemas[e])
    {
      var e :| e in rest;
      rest := rest - {e};
      var verdict := CheckTopic(schemas[e]);
      if verdict.Rejected? {
        return Rejected((e, verdict.error));
      }
    }
    r := Accepted;
  }

  // ---- spatial identifiers ------------------------------------------------------------------

  datatype SpatialFault =
    | RenamedPolygon(key: string) | PolygonKeyTaken | SeveralClouds | RenamedCloud(key: string) | PolygonBesideCloud
    | CloudWithoutTopic | BadPointLimit | RoutedCloud | CloudKeyTaken

  predicate PolygonsNamed(schema: EventSchema) {
    forall k :: k in schema.identifier ==> (schema.identifier[k].PolygonRule? <==> k == "polygon")
  }

  predicate CloudsPlaced(schema: EventSchema) {
    && (forall k :: k in schema.identifier ==> (schema.identifier[k].PointCloudRule? <==> k == "point_cloud"))
    && ("point_cloud" in schema.identifier ==>
          "polygon" !in schema.identifier && schema.topic.Some? && "point_cloud" !in schema.topic.value.keyOrder
          && 1 <= schema.identifier["point_cloud"].maxPoints <= Shapes.HARD_MAX_POINTS)
  }

  /** Polygons live under 'polygon' and nothing else does; likewise clouds under 'point_cloud'; never both. */
  predicate SpatialAccepted(schema: EventSchema) { PolygonsNamed(schema) && CloudsPlaced(schema) }

  function CloudKeys(schema: EventSchema): set<string> {
    set k | k in schema.identifier && schema.identifier[k].PointCloudRule?
  }

  ghost predicate HasSpatialFault(schema: EventSchema, fault: SpatialFault) {
    match fault
    case RenamedPolygon(k) => k in schema.identifier && schema.identifier[k].PolygonRule? && k != "polygon"
    case PolygonKeyTaken => "polygon" in schema.identifier && !schema.identifier["polygon"].PolygonRule?
    case SeveralClouds => |CloudKeys(schema)| > 1
    case RenamedCloud(k) => k in CloudKeys(schema) && k != "point_cloud"
    case PolygonBesideCloud => CloudKeys(schema) != {} && "polygon" in schema.identifier
    case CloudWithoutTopic => CloudKeys(schema) != {} && schema.topic.None?
    case BadPointLimit =>
      "point_cloud" in CloudKeys(schema) && !(1 <= schema.identifier["point_cloud"].maxPoints <= Shapes.HARD_MAX_POINTS)
    case RoutedCloud => schema.topic.Some? && "point_cloud" in schema.topic.value.keyOrder
    case CloudKeyTaken => "point_cloud" in schema.identifier && !schema.identifier["point_cloud"].PointCloudRule?
  }

  lemma SeveralCloudsRefused(schema: EventSchema)
    requires |CloudKeys(schema)| > 1
    ensures !CloudsPlaced(schema)
  {
    if CloudsPlaced(schema) {
      SubsetSize(CloudKeys(schema), {"point_cloud"});
      assert false;
    }
  }

  lemma OneCloud(schema: EventSchema, k: string)
    requires k in CloudKeys(schema) && |CloudKeys(schema)| <= 1
    ensures forall f :: f in schema.identifier ==> (schema.identifier[f].PointCloudRule? <==> f == k)
  {
    SingletonOf(CloudKeys(schema), k);
    assert forall f :: f in schema.identifier ==> (schema.identifier[f].PointCloudRule? <==> f in CloudKeys(schema));
  }

  method CheckClouds(schema: EventSchema, clouds: set<string>) returns (r: Verdict<SpatialFault>)
    requires clouds == CloudKeys(schema)
    ensures r.Accepted? <==> CloudsPlaced(schema)
    ensures r.Rejected? ==> HasSpatialFault(schema, r.error)
  {
    if |clouds| > 1 {
      SeveralCloudsRefused(schema);
      return Rejected(SeveralClouds);
    }
    if clouds == {} {
      assert forall k :: k in schema.identifier && schema.identifier[k].PointCloudRule? ==> k in clouds;
      return if "point_cloud" in schema.identifier then Rejected(CloudKeyTaken) else Accepted;
    }
    var k :| k in clouds;
    OneCloud(schema, k);
    if k != "point_cloud" {
      return Rejected(RenamedCloud(k));
    }
    if "polygon" in schema.identifier {
      return Rejected(PolygonBesideCloud);
    }
    if schema.topic.None? {
      return Rejected(CloudWithoutTopic);
    }
    var maxPoints := schema.identifier[k].maxPoints;
    if maxPoints == 0 || maxPoints > Shapes.HARD_MAX_POINTS {
      return Rejected(BadPointLimit);
    }
    r := if "point_cloud" in schema.topic.value.keyOrder then Rejected(RoutedCloud) else Accepted;
  }

  method CheckSpatial(schema: EventSchema) returns (r: Verdict<SpatialFault>)
    ensures r.Accepted? <==> SpatialAccepted(schema)
    ensures r.Rejected? ==> HasSpatialFault(schema, r.error)
  {
    var rest := schema.identifier.Keys;
    var clouds: set<string> := {};
    while rest != {}
      invariant rest <= schema.identifier.Keys
      invariant forall k :: k in schema.identifier.Keys - rest && schema.identifier[k].PolygonRule? ==> k == "polygon"
      invariant clouds == CloudKeys(schema) - rest
    {
      var k :| k in rest;
      rest := rest - {k};
      if schema.identifier[k].PolygonRule? && k != "polygon" {
        return Rejected(RenamedPolygon(k));
      }
      if schema.identifier[k].PointCloudRule? {
        clouds := clouds + {k};
      }
    }
    if "polygon" in schema.identifier && !schema.identifier["polygon"].PolygonRule? {
      return Rejected(PolygonKeyTaken);
    }
    assert PolygonsNamed(schema);
    r := CheckClouds(schema, clouds);
  }

  lemma SubsetSize<T>(a: set<T>, b: set<T>)
    requires a <= b
    ensures |a| <= |b|
  {
    if a != {} {
      var x :| x in a;
      SubsetSize(a - {x}, b - {x});
    }
  }

  lemma SingletonOf<T>(s: set<T>, x: T)
    requires x in s && |s| <= 1
    ensures s == {x}
  {
    SubsetSize({x}, s);
    if y :| y in s && y != x {
      SubsetSize({x, y}, s);
    }
  }

  predicate SpatialSchemasAccepted(schemas: Schemas) { forall e :: e in schemas ==> SpatialAccepted(schemas[e]) }

  method ValidateSpatialSchemas(schemas: Schemas) returns (r: Verdict<(string, SpatialFault)>)
    ensures r.Accepted? <==> SpatialSchemasAccepted(schemas)
    ensures r.Rejected? ==> r.error.0 in schemas && HasSpatialFault(schemas[r.error.0], r.error.1)
  {
    var rest := schemas.Keys;
    while rest != {}
      invariant rest <= schemas.Keys
      invariant forall e :: e in schemas.Keys - rest ==> SpatialAccepted(schemas[e])
    {
      var e :| e in rest;
      rest := rest - {e};
      var verdict := CheckSpatial(schemas[e]);
      if verdict.Rejected? {
        return Rejected((e, verdict.error));
      }
    }
    r := Accepted;
  }

  // ---- storage policies and base ownership --------------------------------------------------

  datatype Capabilities = Capabilities(retentionTime: bool, maxMessages: bool, maxSize: bool, allowDuplicates: bool,
                                       compression: bool)

  datatype Backend = JetStream | InMemory {
    function Supports(): Capabilities {
      if JetStream? then Capabilities(true, true, true, true, true) else Capabilities(false, false, false, false, false)
    }
  }

  datatype StorageFault =
    | InvalidBase(eventType: string) | SharedBase(owner: string, eventType: string)
    | PolicyWithoutTopic(eventType: string)
    | SharedPolicyBase(owner: string, eventType: string) | BadPolicy(eventType: string)

  predicate PolicyAccepted(c: Capabilities, policy: StoragePolicy) {
    && (policy.retentionTime.Some? ==>
          c.retentionTime && Units.ParseRetention(policy.retentionTime.value).Success?
            && Units.ParseRetention(policy.retentionTime.value).value != 0)
    && (policy.maxSize.Some? ==> c.maxSize && Units.ParseSize(policy.maxSize.value).Success?)
    && (policy.maxMessages.Some? ==> c.maxMessages && policy.maxMessages.value > 0)
    && (policy.allowDuplicates.Some? ==> c.allowDuplicates)
    && (policy.compression.Some? ==> c.compression)
  }

  /** Every base is well formed, and no two event types own the same stream. */
  predicate BasesAccepted(schemas: Schemas) {
    && (forall e :: e in schemas ==> ValidBase(RoutingBase(e, schemas[e])))
    && (forall e, f :: e in schemas && f in schemas && e != f ==>
          StreamName(RoutingBase(e, schemas[e])) != StreamName(RoutingBase(f, schemas[f])))
  }

  predicate PolicyFits(c: Capabilities, schema: EventSchema) {
    schema.storagePolicy.Some? ==> schema.topic.Some? && PolicyAccepted(c, schema.storagePolicy.value)
  }

  predicate PoliciesAccepted(c: Capabilities, schemas: Schemas) {
    forall e :: e in schemas ==> PolicyFits(c, schemas[e])
  }

  ghost predicate HasStorageFault(c: Capabilities, schemas: Schemas, fault: StorageFault) {
    fault.eventType in schemas
    && var schema := schemas[fault.eventType];
       match fault
       case InvalidBase(e) => !ValidBase(RoutingBase(e, schema))
       case SharedBase(o, e) =>
         o in schemas && o != e && StreamName(RoutingBase(o, schemas[o])) == StreamName(RoutingBase(e, schema))
       case SharedPolicyBase(o, e) =>
         o in schemas && o != e && AsciiLower(RoutingBase(o, schemas[o])) == AsciiLower(RoutingBase(e, schema))
       case PolicyWithoutTopic(_) => schema.storagePolicy.Some? && schema.topic.None?
       case BadPolicy(_) => schema.storagePolicy.Some? && !PolicyAccepted(c, schema.storagePolicy.value)
  }

  method CheckBases(ghost c: Capabilities, schemas: Schemas) returns (r: Verdict<StorageFault>)
    ensures r.Accepted? <==> BasesAccepted(schemas)
    ensures r.Rejected? ==> (r.error.InvalidBase? || r.error.SharedBase?) && HasStorageFault(c, schemas, r.error)
  {
    var ownerByBase: map<string, string> := map[];
    var rest := schemas.Keys;
    while rest != {}
      invariant rest <= schemas.Keys
      invariant forall e :: e in schemas.Keys - rest ==>
        ValidBase(RoutingBase(e, schemas[e])) && StreamName(RoutingBase(e, schemas[e])) in ownerByBase
        && ownerByBase[StreamName(RoutingBase(e, schemas[e]))] == e
      invariant forall b :: b in ownerByBase ==>
        ownerByBase[b] in schemas.Keys - rest && StreamName(RoutingBase(ownerByBase[b], schemas[ownerByBase[b]])) == b
    {
      var e :| e in rest;
      rest := rest - {e};
      var binding := Bind(RoutingBase(e, schemas[e]));
      if binding.None? {
        return Rejected(InvalidBase(e));
      }
      var key := binding.value.streamName;
      if key in ownerByBase {
        return Rejected(SharedBase(ownerByBase[key], e));
      }
      ownerByBase := ownerByBase[key := e];
    }
    r := Accepted;
  }

  /** No two schemas with a storage policy share a topic base up to case. */
  predicate PolicyBasesDistinct(schemas: Schemas) {
    forall e, f ::
      e in schemas && f in schemas && e != f && schemas[e].storagePolicy.Some? && schemas[f].storagePolicy.Some? ==>
      AsciiLower(RoutingBase(e, schemas[e])) != AsciiLower(RoutingBase(f, schemas[f]))
  }

  method CheckPolicies(c: Capabilities, schemas: Schemas) returns (r: Verdict<StorageFault>)
    ensures r.Accepted? <==> PoliciesAccepted(c, schemas) && PolicyBasesDistinct(schemas)
    ensures r.Rejected? ==> HasStorageFault(c, schemas, r.error)
    ensures r.Rejected? && r.error.SharedPolicyBase? ==> !PolicyBasesDistinct(schemas)
  {
    var ownerByBase: map<string, string> := map[];
    var rest := schemas.Keys;
    while rest != {}
      invariant rest <= schemas.Keys
      invariant forall e :: e in schemas.Keys - rest ==> PolicyFits(c, schemas[e])
      invariant forall e :: e in schemas.Keys - rest && schemas[e].storagePolicy.Some? ==>
        var b := AsciiLower(RoutingBase(e, schemas[e])); b in ownerByBase && ownerByBase[b] == e
      invariant forall b :: b in ownerByBase ==>
        var o := ownerByBase[b];
        o in schemas.Keys - rest && schemas[o].storagePolicy.Some? && AsciiLower(RoutingBase(o, schemas[o])) == b
    {
      var e :| e in rest;
      rest := rest - {e};
      var schema := schemas[e];
      if schema.storagePolicy.Some? {
        if schema.topic.None? {
          return Rejected(PolicyWithoutTopic(e));
        }
        var key := AsciiLower(schema.topic.value.base);
        if key in ownerByBase {
          return Rejected(SharedPolicyBase(ownerByBase[key], e));
        }
        ownerByBase := ownerByBase[key := e];
        if !PolicyAccepted(c, schema.storagePolicy.value) {
          return Rejected(BadPolicy(e));
        }
      }
    }
    r := Accepted;
  }

  /** Once the streams are distinct, the later test for shared policy bases has nothing left to refuse. */
  lemma OwnedBasesSuffice(schemas: Schemas)
    requires BasesAccepted(schemas)
    ensures PolicyBasesDistinct(schemas)
  {
    forall e, f | e in schemas && f in schemas && e != f
      ensures AsciiLower(RoutingBase(e, schemas[e])) != AsciiLower(RoutingBase(f, schemas[f]))
    {
      SameLettersSameCase(RoutingBase(e, schemas[e]), RoutingBase(f, schemas[f]));
    }
  }

  /** Both loops of the storage-policy check. The duplicate test of the second loop never fires. */
  method ValidateStoragePolicies(backend: Backend, schemas: Schemas) returns (r: Verdict<StorageFault>)
    ensures r.Accepted? <==> BasesAccepted(schemas) && PoliciesAccepted(backend.Supports(), schemas)
    ensures r.Rejected? ==> !r.error.SharedPolicyBase? && HasStorageFault(backend.Supports(), schemas, r.error)
  {
    r := CheckBases(backend.Supports(), schemas);
    if r.Accepted? {
      OwnedBasesSuffice(schemas);
      r := CheckPolicies(backend.Supports(), schemas);
    }
  }

  /** A literal of a duration that is positive and not longer than the store can keep. */
  ghost predicate SpellsRetention(input: string) {
    exists digits, unit :: Units.Spells(input, digits, unit) && Units.UnitSeconds(unit).Some?
                           && 0 < DecimalValue(digits) * Units.UnitSeconds(unit).value <= 9_223_372_036
  }

  ghost predicate SpellsSize(input: string) {
    exists digits, unit :: Units.Spells(input, digits, unit) && Units.UnitBytes(unit).Some?
                           && 0 < DecimalValue(digits) * Units.UnitBytes(unit).value <= Units.MAX_I64
  }

  /** Memory takes no policy field at all; JetStream takes every field, each with a positive amount it can hold. */
  lemma PolicyMeans(backend: Backend, policy: StoragePolicy)
    ensures PolicyAccepted(backend.Supports(), policy) <==>
            if backend.InMemory? then policy == StoragePolicy(None, None, None, None, None)
            else
              && (policy.retentionTime.Some? ==> SpellsRetention(policy.retentionTime.value))
              && (policy.maxSize.Some? ==> SpellsSize(policy.maxSize.value))
              && (policy.maxMessages.Some? ==> policy.maxMessages.value > 0)
  {
    if policy.retentionTime.Some? {
      RetentionSpelled(policy.retentionTime.value);
    }
    if policy.maxSize.Some? {
      SizeSpelled(policy.maxSize.value);
    }
  }

  lemma RetentionSpelled(input: string)
    ensures SpellsRetention(input) <==>
            Units.ParseRetention(input).Success? && Units.ParseRetention(input).value != 0
  {
    if digits, unit :| Units.Spells(input, digits, unit) && Units.UnitSeconds(unit).Some?
                       && 0 < DecimalValue(digits) * Units.UnitSeconds(unit).value <= 9_223_372_036 {
      Units.DurationExact(input, DecimalValue(digits) * Units.UnitSeconds(unit).value);
    }
    if Units.ParseRetention(input).Success? {
      var n := Units.ParseRetention(input).value;
      Units.RetentionLimit(input, n);
      Units.DurationExact(input, n);
    }
  }

  lemma SizeSpelled(input: string)
    ensures SpellsSize(input) <==> Units.ParseSize(input).Success?
  {
    if digits, unit :| Units.Spells(input, digits, unit) && Units.UnitBytes(unit).Some?
                       && 0 < DecimalValue(digits) * Units.UnitBytes(unit).value <= Units.MAX_I64 {
      Units.SizeExact(input, DecimalValue(digits) * Units.UnitBytes(unit).value);
    }
    if Units.ParseSize(input).Success? {
      Units.SizeExact(input, Units.ParseSize(input).value);
    }
  }

  // ---- the ECPDS match key ------------------------------------------------------------------

  datatype EcpdsFault =
    | MissingEcpdsSection | PolygonMatchKey(eventType: string) | UndeclaredMatchKey(eventType: string)
    | OptionalMatchKey(eventType: string) | CloudMatchKey(eventType: string) | UnroutedMatchKey(eventType: string)

  predicate UsesEcpds(schema: EventSchema) { "ecpds" in schema.plugins }

  /** The match key is a required scalar identifier, and the topic (when there is one) routes on it. */
  predicate MatchKeyAccepted(matchKey: string, schema: EventSchema) {
    UsesEcpds(schema) ==>
      && matchKey != "polygon" && matchKey in schema.identifier
      && schema.identifier[matchKey].required && !schema.identifier[matchKey].IsSpatial()
      && (schema.topic.Some? ==> matchKey in schema.topic.value.keyOrder)
  }

  predicate EcpdsAccepted(matchKey: Option<string>, schemas: Schemas) {
    forall e :: e in schemas && UsesEcpds(schemas[e]) ==> matchKey.Some? && MatchKeyAccepted(matchKey.value, schemas[e])
  }

  ghost predicate HasEcpdsFault(matchKey: Option<string>, schemas: Schemas, fault: EcpdsFault) {
    if matchKey.None? then fault.MissingEcpdsSection? && exists e :: e in schemas && UsesEcpds(schemas[e])
    else !fault.MissingEcpdsSection? && fault.eventType in schemas && UsesEcpds(schemas[fault.eventType])
         && var k, schema := matchKey.value, schemas[fault.eventType];
            match fault
            case PolygonMatchKey(_) => k == "polygon" || (k in schema.identifier && schema.identifier[k].PolygonRule?)
            case UndeclaredMatchKey(_) => k !in schema.identifier
            case OptionalMatchKey(_) => k in schema.identifier && !schema.identifier[k].required
            case CloudMatchKey(_) => k in schema.identifier && schema.identifier[k].PointCloudRule?
            case _ => schema.topic.Some? && k !in schema.topic.value.keyOrder
  }

  method ValidateEcpdsSchemas(matchKey: Option<string>, schemas: Schemas) returns (r: Verdict<EcpdsFault>)
    ensures r.Accepted? <==> EcpdsAccepted(matchKey, schemas)
    ensures r.Rejected? ==> HasEcpdsFault(matchKey, schemas, r.error)
  {
    var streams := set e | e in schemas && UsesEcpds(schemas[e]);
    assert forall e :: e in schemas && UsesEcpds(schemas[e]) ==> e in streams;
    if streams == {} {
      return Accepted;
    }
    if matchKey.None? {
      var e :| e in streams;
      return Rejected(MissingEcpdsSection);
    }
    var key := matchKey.value;
    var rest := streams;
    while rest != {}
      invariant rest <= streams
      invariant forall e :: e in streams - rest ==> MatchKeyAccepted(key, schemas[e])
    {
      var e :| e in rest;
      rest := rest - {e};
      var schema := schemas[e];
      if key == "polygon" || (key in schema.identifier && schema.identifier[key].PolygonRule?) {
        return Rejected(PolygonMatchKey(e));
      }
      if key !in schema.identifier {
        return Rejected(UndeclaredMatchKey(e));
      }
      if !schema.identifier[key].required {
        return Rejected(OptionalMatchKey(e));
      }
      if schema.identifier[key].PointCloudRule? {
        return Rejected(CloudMatchKey(e));
      }
      if schema.topic.Some? && key !in schema.topic.value.keyOrder {
        return Rejected(UnroutedMatchKey(e));
      }
    }
    r := Accepted;
  }

  // ---- what acceptance gives ----------------------------------------------------------------

  /** The checks every start-up runs before a request is served. */
  predicate RoutingAccepted(schemas: Schemas) {
    TopicsAccepted(schemas) && SpatialSchemasAccepted(schemas) && BasesAccepted(schemas)
  }

  /** Bases that differ as streams differ as texts, so a topic base has at most one owner. */
  lemma OneOwner(schemas: Schemas, e: string, f: string)
    requires BasesAccepted(schemas) && e in schemas && f in schemas
    requires RoutingBase(e, schemas[e]) == RoutingBase(f, schemas[f])
    ensures e == f
  {
  }
}
