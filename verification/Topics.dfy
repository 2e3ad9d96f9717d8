/** Building a subject from parameters and reading one back (topic_builder.rs, topic_parser.rs). */
module Topics {
  import opened Wrappers
  import opened Schema
  import opened TopicCodec

  datatype TopicError = MissingKey(key: string) | Undecodable(error: DecodeError) | NoTopic | WrongBase

  type Params = map<string, string>

  // ---- building -----------------------------------------------------------------------------

  function Values(keys: seq<string>, params: Params): (values: seq<string>)
    requires forall k :: k in keys ==> k in params
    ensures |values| == |keys| && forall i :: 0 <= i < |keys| ==> values[i] == params[keys[i]]
  {
    seq(|keys|, i requires 0 <= i < |keys| && keys[i] in params => params[keys[i]])
  }

  /** The decoded parts of a schema topic: its base, then one value for each key in order. */
  function SchemaParts(topic: TopicConfig, params: Params): seq<string>
    requires forall k :: k in topic.keyOrder ==> k in params
  {
    [topic.base] + Values(topic.keyOrder, params)
  }

  ghost predicate FirstMissing(order: seq<string>, params: Params, key: string) {
    exists i :: 0 <= i < |order| && order[i] == key && key !in params && forall k :: k in order[..i] ==> k in params
  }

  /** Builds the schema topic, or names the first key that has no value. */
  method BuildSchemaTopic(topic: TopicConfig, params: Params) returns (r: Result<string, TopicError>)
    ensures r.Success? <==> forall k :: k in topic.keyOrder ==> k in params
    ensures r.Success? ==> r.value == EncodeSubject(SchemaParts(topic, params))
    ensures r.Failure? ==> r.error.MissingKey? && FirstMissing(topic.keyOrder, params, r.error.key)
  {
    var order := topic.keyOrder;
    var parts := [topic.base];
    for i := 0 to |order|
      invariant forall k :: k in order[..i] ==> k in params
      invariant parts == [topic.base] + Values(order[..i], params)
    {
      var key := order[i];
      if key !in params {
        return Failure(MissingKey(key));
      }
      assert order[..i + 1] == order[..i] + [key];
      parts := parts + [params[key]];
    }
    assert order[..|order|] == order;
    r := Success(EncodeSubject(parts));
  }

  // ---- key order of generic topics ----------------------------------------------------------

  /** Rust's order on strings, by code point. */
  predicate Less(a: string, b: string) {
    b != [] && (a == [] || a[0] < b[0] || (a[0] == b[0] && Less(a[1..], b[1..])))
  }

  lemma {:induction false} LessTotal(a: string, b: string)
    ensures Less(a, b) || Less(b, a) || a == b
    ensures !(Less(a, b) && Less(b, a))
  {
    if a != [] && b != [] && a[0] == b[0] {
      LessTotal(a[1..], b[1..]);
      assert a == [a[0]] + a[1..] && b == [b[0]] + b[1..];
    }
  }

  lemma {:induction false} LessTransitive(a: string, b: string, c: string)
    requires Less(a, b) && Less(b, c)
    ensures Less(a, c)
  {
    if a != [] && a[0] == b[0] == c[0] {
      LessTransitive(a[1..], b[1..], c[1..]);
    }
  }

  /** One text comes before another when it ends first, or has the smaller character where they first differ. */
  lemma {:induction false} LessMeans(a: string, b: string, n: nat)
    requires n <= |a| && n <= |b| && a[..n] == b[..n]
    requires n < |a| && n < |b| ==> a[n] != b[n]
    ensures Less(a, b) <==> n < |b| && (n == |a| || a[n] < b[n])
  {
    if n > 0 {
      assert a[0] == a[..n][0] && b[0] == b[..n][0];
      assert a[1..][..n - 1] == a[..n][1..] && b[1..][..n - 1] == b[..n][1..];
      LessMeans(a[1..], b[1..], n - 1);
    }
  }

  predicate Sorted(keys: seq<string>) {
    forall i, j :: 0 <= i < j < |keys| ==> Less(keys[i], keys[j])
  }

  /** The keys of a map in ascending order. */
  ghost predicate IsKeyOrder(order: seq<string>, keys: set<string>) {
    Sorted(order) && forall k :: k in order <==> k in keys
  }

  function Insert(key: string, sorted: seq<string>): (r: seq<string>)
    ensures |r| == |sorted| + 1
  {
    if sorted == [] || Less(key, sorted[0]) then [key] + sorted else [sorted[0]] + Insert(key, sorted[1..])
  }

  lemma {:induction false} InsertMembers(key: string, sorted: seq<string>)
    ensures forall k :: k in Insert(key, sorted) <==> k == key || k in sorted
  {
    if sorted != [] && !Less(key, sorted[0]) {
      InsertMembers(key, sorted[1..]);
      assert forall k :: k in sorted <==> k == sorted[0] || k in sorted[1..];
    }
  }

  lemma HeadIsKey(order: seq<string>, keys: set<string>)
    requires IsKeyOrder(order, keys)
    ensures order != [] ==> order[0] in keys
  {
  }

  lemma {:induction false} InsertSorted(key: string, sorted: seq<string>)
    requires Sorted(sorted) && key !in sorted
    ensures Sorted(Insert(key, sorted))
  {
    if sorted == [] {
    } else if Less(key, sorted[0]) {
      forall j | 0 < j < |sorted| ensures Less(key, sorted[j]) {
        LessTransitive(key, sorted[0], sorted[j]);
      }
    } else {
      InsertSorted(key, sorted[1..]);
      LessTotal(key, sorted[0]);
      InsertMembers(key, sorted[1..]);
      var rest := Insert(key, sorted[1..]);
      forall j | 0 <= j < |rest| ensures Less(sorted[0], rest[j]) {
        assert rest[j] in rest;
      }
    }
  }

  /** There is one ascending order only, whatever order the map was walked in. */
  lemma {:induction false} KeyOrderUnique(a: seq<string>, b: seq<string>, keys: set<string>)
    requires IsKeyOrder(a, keys) && IsKeyOrder(b, keys)
    ensures a == b
    decreases |a|
  {
    if a == [] {
      assert keys == {};
      HeadIsKey(b, keys);
    } else {
      assert a[0] in b && b[0] in a;
      if a[0] != b[0] {
        LessTotal(a[0], b[0]);
      }
      LessTotal(a[0], a[0]);
      KeyOrderUnique(a[1..], b[1..], keys - {a[0]});
    }
  }

  ghost function Pick(keys: set<string>): (k: string)
    requires keys != {}
    ensures k in keys
  {
    var k :| k in keys;
    k
  }

  /** The ascending order itself. */
  ghost function KeyOrder(keys: set<string>): (order: seq<string>)
    ensures |order| == |keys|
  {
    if keys == {} then [] else Insert(Pick(keys), KeyOrder(keys - {Pick(keys)}))
  }

  lemma {:induction false} KeyOrderIs(keys: set<string>)
    ensures IsKeyOrder(KeyOrder(keys), keys)
  {
    if keys != {} {
      var k := Pick(keys);
      KeyOrderIs(keys - {k});
      InsertSorted(k, KeyOrder(keys - {k}));
      InsertMembers(k, KeyOrder(keys - {k}));
    }
  }

  method SortKeys(keys: set<string>) returns (order: seq<string>)
    ensures IsKeyOrder(order, keys)
  {
    order := [];
    var rest := keys;
    while rest != {}
      invariant rest <= keys && IsKeyOrder(order, keys - rest)
    {
      var k :| k in rest;
      rest := rest - {k};
      InsertSorted(k, order);
      InsertMembers(k, order);
      order := Insert(k, order);
    }
  }

  /** The parts of a topic without key order: the event type, then the values in ascending key order. */
  ghost predicate AreGenericParts(parts: seq<string>, eventType: string, params: Params) {
    exists order :: IsKeyOrder(order, params.Keys) && parts == [eventType] + Values(order, params)
  }

  /** The value at the `i`-th key in ascending order. */
  ghost function ValueAt(params: Params, i: nat): string
    requires i < |params|
  {
    var order := KeyOrder(params.Keys);
    KeyOrderIs(params.Keys);
    assert order[i] in order;
    params[order[i]]
  }

  lemma OrderIsKeyOrder(order: seq<string>, keys: set<string>)
    requires IsKeyOrder(order, keys)
    ensures order == KeyOrder(keys)
  {
    KeyOrderIs(keys);
    KeyOrderUnique(order, KeyOrder(keys), keys);
  }

  lemma OrderedValues(params: Params)
    ensures forall k :: k in KeyOrder(params.Keys) ==> k in params
    ensures forall i :: 0 <= i < |params| ==> Values(KeyOrder(params.Keys), params)[i] == ValueAt(params, i)
  {
    KeyOrderIs(params.Keys);
  }

  /** The values of a generic topic, one for each key in ascending order: equal key sets share their positions. */
  lemma GenericPartsInOrder(parts: seq<string>, eventType: string, params: Params)
    requires AreGenericParts(parts, eventType, params)
    ensures |parts| == 1 + |params| && parts[0] == eventType
    ensures forall i :: 0 <= i < |params| ==> parts[i + 1] == ValueAt(params, i)
  {
    var order :| IsKeyOrder(order, params.Keys) && parts == [eventType] + Values(order, params);
    OrderIsKeyOrder(order, params.Keys);
    OrderedValues(params);
  }

  /** The subject of a generic topic; without parameters it is the bare event type, not encoded. */
  ghost predicate IsGenericTopic(eventType: string, params: Params, topic: string) {
    exists parts ::
      && AreGenericParts(parts, eventType, params)
      && topic == if params == map[] then eventType else EncodeSubject(parts)
  }

  method CollectValues(eventType: string, order: seq<string>, params: Params) returns (parts: seq<string>)
    requires forall k :: k in order ==> k in params
    ensures parts == [eventType] + Values(order, params)
  {
    parts := [eventType];
    for i := 0 to |order|
      invariant parts == [eventType] + Values(order[..i], params)
    {
      assert order[..i + 1] == order[..i] + [order[i]];
      parts := parts + [params[order[i]]];
    }
    assert order[..|order|] == order;
  }

  method BuildGenericTopic(eventType: string, params: Params) returns (topic: string)
    ensures IsGenericTopic(eventType, params, topic)
  {
    var order := SortKeys(params.Keys);
    var parts := CollectValues(eventType, order, params);
    assert AreGenericParts(parts, eventType, params);
    topic := if params == map[] then eventType else EncodeSubject(parts);
  }

  // ---- parsing ------------------------------------------------------------------------------

  /** A wildcard or an empty token stands for an omitted field. */
  predicate IsOmitted(value: string) { value == "" || value == "*" }

  /** The fields named by the first `n` keys that the subject gives a value to. */
  function Fields(order: seq<string>, parts: seq<string>, n: nat): Params
    requires n <= |order|
  {
    if n == 0 then map[]
    else
      var before := Fields(order, parts, n - 1);
      if n < |parts| && !IsOmitted(parts[n]) then before[order[n - 1] := parts[n]] else before
  }

  function ParsedTopic(topic: string, schema: EventSchema): Result<Params, TopicError> {
    if schema.topic.None? then Failure(NoTopic)
    else match DecodeSubject(topic)
      case Failure(e) => Failure(Undecodable(e))
      case Success(parts) =>
        if parts == [] || parts[0] != schema.topic.value.base then Failure(WrongBase)
        else Success(Fields(schema.topic.value.keyOrder, parts, |schema.topic.value.keyOrder|))
  }

  method ParseTopic(topic: string, schema: EventSchema) returns (r: Result<Params, TopicError>)
    ensures r == ParsedTopic(topic, schema)
  {
    if schema.topic.None? {
      return Failure(NoTopic);
    }
    var decoded := DecodeSubject(topic);
    if decoded.Failure? {
      return Failure(Undecodable(decoded.error));
    }
    var parts, order := decoded.value, schema.topic.value.keyOrder;
    if parts == [] || parts[0] != schema.topic.value.base {
      return Failure(WrongBase);
    }
    var request: Params := map[];
    for i := 0 to |order|
      invariant request == Fields(order, parts, i)
    {
      if i + 1 < |parts| {
        var value := parts[i + 1];
        if value != "" && value != "*" {
          request := request[order[i] := value];
        }
      }
    }
    r := Success(request);
  }

  /** What of `params` a subject keeps: the keys in order whose value is neither empty nor a wildcard. */
  function Kept(order: seq<string>, params: Params): Params {
    map k | k in params && k in order && !IsOmitted(params[k]) :: params[k]
  }

  lemma KeptOneMore(order: seq<string>, key: string, params: Params)
    requires key in params
    ensures Kept(order + [key], params) ==
            if IsOmitted(params[key]) then Kept(order, params) else Kept(order, params)[key := params[key]]
  {
  }

  lemma {:induction false} FieldsOfBuilt(order: seq<string>, params: Params, parts: seq<string>, n: nat)
    requires n <= |order| && |parts| == |order| + 1
    requires forall i :: 0 <= i < |order| ==> order[i] in params && parts[i + 1] == params[order[i]]
    ensures Fields(order, parts, n) == Kept(order[..n], params)
  {
    if n > 0 {
      FieldsOfBuilt(order, params, parts, n - 1);
      assert order[..n] == order[..n - 1] + [order[n - 1]];
      KeptOneMore(order[..n - 1], order[n - 1], params);
      assert parts[n] == params[order[n - 1]];
    }
  }

  lemma ParseEncoded(schema: EventSchema, parts: seq<string>)
    requires schema.topic.Some? && parts != [] && parts[0] == schema.topic.value.base
    ensures ParsedTopic(EncodeSubject(parts), schema)
            == Success(Fields(schema.topic.value.keyOrder, parts, |schema.topic.value.keyOrder|))
  {
    SubjectRoundTrip(parts);
  }

  /** Reading back a built topic gives the routed parameters, less the empty and wildcard ones. */
  lemma ParseBuilt(schema: EventSchema, params: Params)
    requires schema.topic.Some? && forall k :: k in schema.topic.value.keyOrder ==> k in params
    ensures ParsedTopic(EncodeSubject(SchemaParts(schema.topic.value, params)), schema)
            == Success(Kept(schema.topic.value.keyOrder, params))
  {
    ParseEncoded(schema, SchemaParts(schema.topic.value, params));
    BuiltFields(schema.topic.value, params);
  }

  lemma BuiltFields(topic: TopicConfig, params: Params)
    requires forall k :: k in topic.keyOrder ==> k in params
    ensures Fields(topic.keyOrder, SchemaParts(topic, params), |topic.keyOrder|) == Kept(topic.keyOrder, params)
  {
    var order := topic.keyOrder;
    FieldsOfBuilt(order, params, SchemaParts(topic, params), |order|);
    assert order[..|order|] == order;
  }
}
