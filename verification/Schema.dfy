/** Event schemas as the configuration declares them, with values already deserialised. */
module Schema {
  import opened Wrappers
  import opened Text
  import opened Json

  datatype Rule =
    | StringRule(maxLength: Option<nat>, required: bool)
    | DateRule(format: string, required: bool)
    | EnumRule(values: seq<string>, required: bool)
    | ExpverRule(default: Option<string>, required: bool)
    | IntRule(intRange: Option<(int, int)>, required: bool)
    | FloatRule(floatRange: Option<(F64, F64)>, required: bool)
    | TimeRule(required: bool)
    | PolygonRule(required: bool)
    | PointCloudRule(maxPoints: nat, required: bool)
  {
    predicate IsSpatial() { PolygonRule? || PointCloudRule? }
  }

  /** A configured range includes both ends; without one every number is in it. */
  predicate InBounds(range: Option<(int, int)>, v: int) { range.Some? ==> range.value.0 <= v <= range.value.1 }

  datatype TopicConfig = TopicConfig(base: string, keyOrder: seq<string>)

  datatype StoragePolicy = StoragePolicy(
    retentionTime: Option<string>, maxMessages: Option<int>, maxSize: Option<string>,
    allowDuplicates: Option<bool>, compression: Option<bool>)

  datatype EventSchema = EventSchema(
    payloadRequired: bool, topic: Option<TopicConfig>, identifier: map<string, Rule>,
    storagePolicy: Option<StoragePolicy>, plugins: seq<string>)

  type Schemas = map<string, EventSchema>

  /** The routing base of an event type: its topic base, or its own name when it has no topic. */
  function RoutingBase(eventType: string, schema: EventSchema): string {
    if schema.topic.Some? then schema.topic.value.base else eventType
  }

  predicate NoDuplicates(keys: seq<string>) {
    forall i, j :: 0 <= i < j < |keys| ==> keys[i] != keys[j]
  }

  // ---- topic bases (src/notification/topic_parser.rs) ---------------------------------------

  predicate ValidBase(base: string) {
    base != [] && IsAsciiAlphanumeric(base[0])
    && forall i :: 0 <= i < |base| ==> IsAsciiAlphanumeric(base[i]) || base[i] == '_' || base[i] == '-'
  }

  function StreamName(base: string): string { AsciiUpper(base) }

  datatype TopicBinding = TopicBinding(streamName: string, subjectPattern: string)

  function Bind(base: string): Option<TopicBinding> {
    if ValidBase(base) then Some(TopicBinding(StreamName(base), base + ".>")) else None
  }

  const ALPHANUMERICS: string := DIGITS + UPPER_LETTERS + LOWER_LETTERS

  /** A base is written in ASCII letters, digits, '_' and '-', and starts with a letter or a digit. */
  lemma BaseCharacters(base: string)
    ensures ValidBase(base) <==> base != [] && base[0] in ALPHANUMERICS
                                 && forall i :: 0 <= i < |base| ==> base[i] in ALPHANUMERICS + "_-"
  {
    forall i | 0 <= i < |base|
      ensures base[i] in ALPHANUMERICS <==> IsAsciiAlphanumeric(base[i])
      ensures base[i] in ALPHANUMERICS + "_-" <==> IsAsciiAlphanumeric(base[i]) || base[i] == '_' || base[i] == '-'
    {
      Alphanumeric(base[i]);
    }
  }

  lemma Alphanumeric(c: char)
    ensures c in ALPHANUMERICS <==> IsAsciiAlphanumeric(c)
  {
    UpperLetter(c);
    LowerLetter(c);
    Digits(c);
    assert c in ALPHANUMERICS <==> c in DIGITS || c in UPPER_LETTERS || c in LOWER_LETTERS;
  }
}
