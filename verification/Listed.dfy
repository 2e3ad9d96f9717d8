/** When the access list decides which notifications an admitted subscriber receives. */
module Listed {
  import opened Wrappers
  import opened Json
  import opened Platform
  import opened Schema
  import opened Scalars
  import opened Text
  import opened Constraints
  import opened Topics
  import opened Spatial
  import opened Validation
  import opened Processor
  import opened WildcardMatcher
  import opened Delivery
  import opened GenericDelivery
  import opened Results
  import opened Authorised
  import EcpdsChecker
  import EcpdsClient

  // ---- delivery by parameters ---------------------------------------------------------------

  /** What is asked of a notification's parameters, with or without a topic block. */
  predicate ParamsPass(p: Platform, schema: EventSchema, w: ProcessingResult, given: Params) {
    if schema.topic.Some? then
      && schema.identifier.Keys <= w.params.Keys && given.Keys == schema.identifier.Keys
      && w.constraints.Keys <= given.Keys
      && FieldsAgree(schema, w.params, given) && ConstraintsHold(p, w.constraints, given)
    else
      given != map[] && SameKeysAgree(given, w.params) && w.constraints == map[]
  }

  /** Delivery within one configured event type: the parameters and the spatial filters, independently. */
  lemma OwnDelivery(p: Platform, schemas: Schemas, eventType: string, notify: Request, payload: bool,
                    n: ProcessingResult, stream: Request, w: ProcessingResult, headers: Option<Headers>, text: string)
    requires RoutingAccepted(schemas) && eventType in schemas
    requires IsNotifyResult(p, eventType, schemas[eventType], notify, payload, n)
    requires IsStreamResult(p, eventType, schemas[eventType], stream, w)
    ensures Delivered(p, schemas, n.topic, headers, text, w) <==>
            && ParamsPass(p, schemas[eventType], w, n.params)
            && MatchesSpatialFilters(p, w.params, PrepareSpatialFilter(p, w.params), headers, text)
  {
    if schemas[eventType].topic.Some? {
      EndToEnd(p, schemas, eventType, notify, payload, n, stream, w, headers, text);
    } else {
      EndToEndGeneric(p, schemas, eventType, notify, payload, n, stream, w, headers, text);
    }
  }

  // ---- sending another match value ----------------------------------------------------------

  /** Some producer can send this text in a field of this rule. */
  ghost predicate Sendable(p: Platform, rule: Rule, text: string) {
    exists value :: IsSent(p, rule, value, text)
  }

  lemma SwappedRequest(p: Platform, schema: EventSchema, notify: Request, payload: bool, k: string, value: Json,
                       text: string)
    requires NotifyAccepts(p, schema, notify, payload) && k in schema.identifier
    requires IsSent(p, schema.identifier[k], value, text)
    ensures NotifyAccepts(p, schema, notify[k := value], payload)
    ensures NotifyParams(p, schema, notify[k := value]) == NotifyParams(p, schema, notify)[k := text]
  {
    var changed, texts := notify[k := value], NotifyParams(p, schema, notify)[k := text];
    forall f | f in texts ensures IsSent(p, schema.identifier[f], changed[f], texts[f]) {
      assert f != k ==> changed[f] == notify[f];
    }
    FieldsSent(p, schema, changed, payload, texts);
  }

  lemma SwappedMetadata(p: Platform, schema: EventSchema, notify: Request, k: string, value: Json,
                        spatial: Option<SpatialMetadata>)
    requires NotifyAccepts(p, schema, notify, true) && NotifyAccepts(p, schema, notify[k := value], true)
    requires k in schema.identifier && !schema.identifier[k].IsSpatial() && IsNotifySpatial(p, schema, notify, spatial)
    ensures IsNotifySpatial(p, schema, notify[k := value], spatial)
  {
    if spatial.Some? {
      var f :| f in schema.identifier && schema.identifier[f].IsSpatial()
               && spatial == FieldMetadata(p, NotifyField(p, notify[f], schema.identifier[f]).value);
      assert notify[k := value][f] == notify[f];
    }
  }

  /** The same notification with another match value, the same geometry beside it. */
  lemma SwappedResult(p: Platform, eventType: string, schema: EventSchema, notify: Request, payload: bool,
                      n: ProcessingResult, k: string, value: Json, text: string)
    returns (changed: ProcessingResult)
    requires IsNotifyResult(p, eventType, schema, notify, payload, n)
    requires k in schema.identifier && !schema.identifier[k].IsSpatial() && IsSent(p, schema.identifier[k], value, text)
    ensures IsNotifyResult(p, eventType, schema, notify[k := value], payload, changed)
    ensures changed.params == n.params[k := text] && changed.spatial == n.spatial
  {
    SwappedRequest(p, schema, notify, payload, k, value, text);
    SwappedMetadata(p, schema, notify, k, value, n.spatial);
    var topic := TopicOf(eventType, schema, n.params[k := text]);
    changed := ProcessingResult(eventType, topic, n.params[k := text], map[], n.spatial, true);
  }

  lemma SwappedPasses(p: Platform, schema: EventSchema, w: ProcessingResult, given: Params, k: string, text: string)
    requires ParamsPass(p, schema, w, given) && k in given && k in w.params && w.params[k] == "*"
    requires KeyAllows(p, w, k, text)
    ensures ParamsPass(p, schema, w, given[k := text])
  {
    assert k in given[k := text];
  }

  // ---- the exact condition ------------------------------------------------------------------

  /** A notification as it is stored: what a producer's accepted request gives, with its own headers. */
  ghost predicate Reaches(p: Platform, schemas: Schemas, eventType: string, notify: Request, payload: bool,
                          n: ProcessingResult, text: string, w: ProcessingResult)
    requires eventType in schemas
  {
    IsNotifyResult(p, eventType, schemas[eventType], notify, payload, n)
    && Delivered(p, schemas, n.topic, StoredWith(n), text, w)
  }

  /** Every notification of the event type that reaches the subscriber has a listed match value. */
  ghost predicate OnlyListedReach(p: Platform, matchKey: string, schemas: Schemas, eventType: string,
                                  w: ProcessingResult, list: EcpdsClient.Destinations)
    requires eventType in schemas
  {
    forall notify, payload, n, text :: Reaches(p, schemas, eventType, notify, payload, n, text, w) ==>
      matchKey in n.params && n.params[matchKey] in list
  }

  ghost predicate SomeReach(p: Platform, schemas: Schemas, eventType: string, w: ProcessingResult)
    requires eventType in schemas
  {
    exists notify, payload, n, text :: Reaches(p, schemas, eventType, notify, payload, n, text, w)
  }

  /** The match key's rule and the request's own constraint on it leave listed values only. */
  ghost predicate RuleListed(p: Platform, rule: Rule, w: ProcessingResult, matchKey: string,
                             list: EcpdsClient.Destinations)
  {
    forall text :: Sendable(p, rule, text) && KeyAllows(p, w, matchKey, text) ==> text in list
  }

  lemma ReachingValue(p: Platform, matchKey: string, schemas: Schemas, eventType: string, stream: Request,
                      w: ProcessingResult, notify: Request, payload: bool, n: ProcessingResult, text: string)
    requires IsProtectedRead(p, matchKey, schemas, eventType, stream, w)
    requires Reaches(p, schemas, eventType, notify, payload, n, text, w)
    ensures matchKey in n.params && matchKey in w.params && matchKey in schemas[eventType].identifier
    ensures Sendable(p, schemas[eventType].identifier[matchKey], n.params[matchKey])
    ensures KeyAllows(p, w, matchKey, n.params[matchKey])
  {
    MatchKeyRequested(p, matchKey, schemas, eventType, stream, w);
    OwnDelivery(p, schemas, eventType, notify, payload, n, stream, w, StoredWith(n), text);
    assert IsSent(p, schemas[eventType].identifier[matchKey], notify[matchKey], n.params[matchKey]);
  }

  /** A request for any match value receives every value that a producer can send and its constraint allows. */
  lemma AnySendableReaches(p: Platform, matchKey: string, schemas: Schemas, eventType: string, stream: Request,
                           w: ProcessingResult, notify: Request, payload: bool, n: ProcessingResult, text: string,
                           value: Json, sent: string)
    returns (changed: ProcessingResult)
    requires IsProtectedRead(p, matchKey, schemas, eventType, stream, w)
    requires Reaches(p, schemas, eventType, notify, payload, n, text, w)
    requires matchKey in w.params && w.params[matchKey] == "*" && KeyAllows(p, w, matchKey, sent)
    requires matchKey in schemas[eventType].identifier
             && IsSent(p, schemas[eventType].identifier[matchKey], value, sent)
    ensures Reaches(p, schemas, eventType, notify[matchKey := value], payload, changed, text, w)
    ensures changed.params == n.params[matchKey := sent]
  {
    var schema := schemas[eventType];
    MatchKeyIsScalar(matchKey, schemas, eventType);
    changed := SwappedResult(p, eventType, schema, notify, payload, n, matchKey, value, sent);
    OwnDelivery(p, schemas, eventType, notify, payload, n, stream, w, StoredWith(n), text);
    SwappedPasses(p, schema, w, n.params, matchKey, sent);
    OwnDelivery(p, schemas, eventType, notify[matchKey := value], payload, changed, stream, w, StoredWith(n), text);
  }

  lemma MatchKeyIsScalar(matchKey: string, schemas: Schemas, eventType: string)
    requires EcpdsAccepted(Some(matchKey), schemas) && eventType in schemas && UsesEcpds(schemas[eventType])
    ensures matchKey in schemas[eventType].identifier && !schemas[eventType].identifier[matchKey].IsSpatial()
  {
    assert MatchKeyAccepted(matchKey, schemas[eventType]);
  }

  /**
   * Exactly when the list decides which notifications an admitted subscriber receives: it asked for
   * one value, or the match key's rule and its own constraint leave listed values only, or no
   * notification can reach it.
   */
  lemma NotificationListDecides(p: Platform, matchKey: string, schemas: Schemas, eventType: string, stream: Request,
                                w: ProcessingResult, list: EcpdsClient.Destinations)
    requires IsProtectedRead(p, matchKey, schemas, eventType, stream, w)
             && EcpdsChecker.Allows(matchKey, w.params, list)
    ensures matchKey in schemas[eventType].identifier
    ensures OnlyListedReach(p, matchKey, schemas, eventType, w, list) <==>
            || w.params[matchKey] != "*"
            || RuleListed(p, schemas[eventType].identifier[matchKey], w, matchKey, list)
            || !SomeReach(p, schemas, eventType, w)
  {
    MatchKeyRequested(p, matchKey, schemas, eventType, stream, w);
    var rule := schemas[eventType].identifier[matchKey];
    if w.params[matchKey] != "*" || RuleListed(p, rule, w, matchKey, list) {
      forall notify, payload, n, text | Reaches(p, schemas, eventType, notify, payload, n, text, w)
        ensures matchKey in n.params && n.params[matchKey] in list
      {
        if w.params[matchKey] != "*" {
          AuthorisedNotification(p, matchKey, schemas, eventType, notify, payload, n, stream, w, list, StoredWith(n),
                                 text);
        } else {
          ReachingValue(p, matchKey, schemas, eventType, stream, w, notify, payload, n, text);
        }
      }
    } else if SomeReach(p, schemas, eventType, w) {
      UnlistedReaches(p, matchKey, schemas, eventType, stream, w, list);
    }
  }

  lemma UnlistedReaches(p: Platform, matchKey: string, schemas: Schemas, eventType: string, stream: Request,
                        w: ProcessingResult, list: EcpdsClient.Destinations)
    requires IsProtectedRead(p, matchKey, schemas, eventType, stream, w) && SomeReach(p, schemas, eventType, w)
    requires matchKey in w.params && w.params[matchKey] == "*" && matchKey in schemas[eventType].identifier
    requires !RuleListed(p, schemas[eventType].identifier[matchKey], w, matchKey, list)
    ensures !OnlyListedReach(p, matchKey, schemas, eventType, w, list)
  {
    var value, sent := UnlistedValue(p, schemas[eventType].identifier[matchKey], w, matchKey, list);
    var notify, payload, n, text :| Reaches(p, schemas, eventType, notify, payload, n, text, w);
    var changed := AnySendableReaches(p, matchKey, schemas, eventType, stream, w, notify, payload, n, text, value,
                                      sent);
    Refutes(p, matchKey, schemas, eventType, w, list, notify[matchKey := value], payload, changed, text);
  }

  lemma UnlistedValue(p: Platform, rule: Rule, w: ProcessingResult, matchKey: string, list: EcpdsClient.Destinations)
    returns (value: Json, sent: string)
    requires !RuleListed(p, rule, w, matchKey, list)
    ensures IsSent(p, rule, value, sent) && KeyAllows(p, w, matchKey, sent) && sent !in list
  {
    sent :| Sendable(p, rule, sent) && KeyAllows(p, w, matchKey, sent) && sent !in list;
    value :| IsSent(p, rule, value, sent);
  }

  lemma Refutes(p: Platform, matchKey: string, schemas: Schemas, eventType: string, w: ProcessingResult,
                list: EcpdsClient.Destinations, notify: Request, payload: bool, n: ProcessingResult, text: string)
    requires eventType in schemas && Reaches(p, schemas, eventType, notify, payload, n, text, w)
    requires matchKey in n.params ==> n.params[matchKey] !in list
    ensures !OnlyListedReach(p, matchKey, schemas, eventType, w, list)
  {
  }

  // ---- the rule's half of the condition, by kind --------------------------------------------

  lemma SentEnum(p: Platform, values: seq<string>, required: bool, text: string)
    ensures Sendable(p, EnumRule(values, required), text) <==>
            exists i :: 0 <= i < |values| && text == p.lower(values[i])
  {
    var rule := EnumRule(values, required);
    if i :| 0 <= i < |values| && text == p.lower(values[i]) {
      assert IsSent(p, rule, Str(values[i]), text);
    }
    if value :| IsSent(p, rule, value, text) {
      assert FieldText(p, value, rule) == Success(text);
    }
  }

  /** A choice: each allowed value that the constraint lets through is listed in lower case. */
  lemma EnumRuleListed(p: Platform, values: seq<string>, required: bool, w: ProcessingResult, matchKey: string,
                       list: EcpdsClient.Destinations)
    ensures RuleListed(p, EnumRule(values, required), w, matchKey, list) <==>
            forall i :: 0 <= i < |values| && KeyAllows(p, w, matchKey, p.lower(values[i])) ==>
              p.lower(values[i]) in list
  {
    forall text ensures Sendable(p, EnumRule(values, required), text) <==>
                        exists i :: 0 <= i < |values| && text == p.lower(values[i]) {
      SentEnum(p, values, required, text);
    }
  }

  predicate InIntRange(range: Option<(int, int)>, v: int) { MIN_I64 <= v <= MAX_I64 && InBounds(range, v) }

  lemma SentInt(p: Platform, range: Option<(int, int)>, required: bool, text: string)
    ensures Sendable(p, IntRule(range, required), text) <==>
            exists v :: InIntRange(range, v) && text == SignedDecimal(v)
  {
    var rule := IntRule(range, required);
    if v :| InIntRange(range, v) && text == SignedDecimal(v) {
      SignedRoundTrip(v, MIN_I64, MAX_I64);
      assert FieldText(p, Num(Integer(v)), rule) == Success(text);
      assert IsSent(p, rule, Num(Integer(v)), text);
    }
    if value :| IsSent(p, rule, value, text) {
      assert FieldText(p, value, rule) == Success(text);
      var raw := ScalarText(p, value).value;
      assert InIntRange(range, ParseSigned(raw, MIN_I64, MAX_I64).value);
    }
  }

  /** An integer: each number in range that the constraint lets through is listed in decimal. */
  lemma IntRuleListed(p: Platform, range: Option<(int, int)>, required: bool, w: ProcessingResult, matchKey: string,
                      list: EcpdsClient.Destinations)
    ensures RuleListed(p, IntRule(range, required), w, matchKey, list) <==>
            forall v :: InIntRange(range, v) && KeyAllows(p, w, matchKey, SignedDecimal(v)) ==> SignedDecimal(v) in list
  {
    forall text ensures Sendable(p, IntRule(range, required), text) <==>
                        exists v :: InIntRange(range, v) && text == SignedDecimal(v) {
      SentInt(p, range, required, text);
    }
  }

  /** Free text takes no constraint and has unlisted values, so the requested value alone decides. */
  lemma TextRuleNeverListed(p: Platform, required: bool, w: ProcessingResult, matchKey: string,
                            list: EcpdsClient.Destinations)
    requires matchKey !in w.constraints
    ensures !RuleListed(p, StringRule(None, required), w, matchKey, list)
  {
    var text := Unlisted(list);
    if text == "" {
      text := "x";
    }
    assert IsSent(p, StringRule(None, required), Str(text), text);
    assert Sendable(p, StringRule(None, required), text) && KeyAllows(p, w, matchKey, text);
  }

  /**
   * Why producers' notifications are judged apart from topics: a constraint lets through spellings that
   * no producer's value has, so a listed value can be all that is ever sent while a topic is not listed.
   */
  lemma ForeignSpelling(p: Platform, required: bool, w: ProcessingResult, matchKey: string)
    requires matchKey in w.constraints && w.constraints[matchKey] == IntConstraint(Eq(5))
    ensures RuleListed(p, IntRule(None, required), w, matchKey, {"5"})
    ensures KeyAllows(p, w, matchKey, "+5") && !ConstraintListed(p, w, matchKey, {"5"})
  {
    forall v | InIntRange(None, v) && KeyAllows(p, w, matchKey, SignedDecimal(v)) ensures SignedDecimal(v) in {"5"} {
      SignedRoundTrip(v, MIN_I64, MAX_I64);
      assert v == 5 && SignedDecimal(5) == "5";
    }
    IntRuleListed(p, None, required, w, matchKey, {"5"});
    assert "+5"[1..] == "5" && ParseSigned("+5", MIN_I64, MAX_I64) == Some(5);
    assert KeyAllows(p, w, matchKey, "+5");
    assert "+5" !in {"5"};
  }
}
