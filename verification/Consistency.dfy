/**
 * The assumptions of the main theorems can be met: there is a lawful platform, and there are accepted
 * settings and requests to which the theorems on scalars and constraints, on geometry, on event types
 * without a topic block, on access and on recovery apply.
 */
module Consistency {
  import opened Wrappers
  import opened Text
  import opened Json
  import opened Platform
  import opened Schema
  import opened Scalars
  import opened Shapes
  import opened Constraints
  import opened Topics
  import opened Validation
  import opened Processor
  import opened WildcardMatcher
  import opened Spatial
  import opened Delivery
  import opened GenericDelivery
  import opened Authorised
  import opened Results
  import opened Recovery
  import Geometry
  import EcpdsClient
  import EcpdsChecker

  // ---- a lawful platform --------------------------------------------------------------------

  lemma SignedDecimalForm(v: int)
    ensures SignedDecimal(v) != [] && SignedDecimal(v) != "*" && IsTrimmed(SignedDecimal(v)) && ',' !in SignedDecimal(v)
    ensures '(' !in SignedDecimal(v) && ')' !in SignedDecimal(v) && '[' !in SignedDecimal(v)
  {
    var text := SignedDecimal(v);
    assert forall i :: 0 <= i < |text| ==> IsDigit(text[i]) || text[i] == '-';
  }

  lemma SignedDecimalInjective(v: int, w: int)
    requires SignedDecimal(v) == SignedDecimal(w)
    ensures v == w
  {
    var low, high := Geometry.Min(v, w), Geometry.Max(v, w);
    SignedRoundTrip(v, low, high);
    SignedRoundTrip(w, low, high);
  }

  ghost function ReadNumber(text: string): Option<F64> {
    if exists v: int :: SignedDecimal(v) == text then
      var v: int :| SignedDecimal(v) == text;
      Some(v)
    else None
  }

  function Numbers(cs: seq<Coordinate>): (texts: seq<string>)
    ensures |texts| == 2 * |cs|
  {
    if cs == [] then [] else [SignedDecimal(cs[0].lat), SignedDecimal(cs[0].lon)] + Numbers(cs[1..])
  }

  lemma {:induction false} NumbersPlain(cs: seq<Coordinate>)
    ensures forall i :: 0 <= i < |Numbers(cs)| ==> ',' !in Numbers(cs)[i]
  {
    if cs != [] {
      SignedDecimalForm(cs[0].lat);
      SignedDecimalForm(cs[0].lon);
      NumbersPlain(cs[1..]);
    }
  }

  lemma {:induction false} NumbersInjective(a: seq<Coordinate>, b: seq<Coordinate>)
    requires Numbers(a) == Numbers(b)
    ensures a == b
  {
    if a != [] {
      assert |a| == |b|;
      assert Numbers(a)[0] == Numbers(b)[0] && Numbers(a)[1] == Numbers(b)[1];
      SignedDecimalInjective(a[0].lat, b[0].lat);
      SignedDecimalInjective(a[0].lon, b[0].lon);
      assert Numbers(a)[2..] == Numbers(a[1..]) && Numbers(b)[2..] == Numbers(b[1..]);
      NumbersInjective(a[1..], b[1..]);
      assert a == [a[0]] + a[1..] && b == [b[0]] + b[1..];
    }
  }

  /** Geometry as text: a mark for its kind, then its numbers. */
  function Marked(mark: string, cs: seq<Coordinate>): string { "[" + Join([mark] + Numbers(cs), ',') + "]" }

  lemma MarkedInjective(m: string, a: seq<Coordinate>, n: string, b: seq<Coordinate>)
    requires ',' !in m && ',' !in n && Marked(m, a) == Marked(n, b)
    ensures m == n && a == b
  {
    var s, t := Join([m] + Numbers(a), ','), Join([n] + Numbers(b), ',');
    assert Marked(m, a)[1..|Marked(m, a)| - 1] == s && Marked(n, b)[1..|Marked(n, b)| - 1] == t;
    NumbersPlain(a);
    NumbersPlain(b);
    SplitJoin([m] + Numbers(a), ',');
    SplitJoin([n] + Numbers(b), ',');
    assert ([m] + Numbers(a))[0] == m && ([n] + Numbers(b))[0] == n;
    assert ([m] + Numbers(a))[1..] == Numbers(a) && ([n] + Numbers(b))[1..] == Numbers(b);
    NumbersInjective(a, b);
  }

  ghost predicate IsPoint(j: Json, c: Coordinate) { j == CoordinateJson(c) }

  ghost predicate IsList(j: Json, cs: seq<Coordinate>) { j == CoordinatesJson(cs) }

  ghost function PrintGeometry(j: Json): string {
    if exists c :: IsPoint(j, c) then var c :| IsPoint(j, c); Marked("p", [c])
    else if exists cs :: IsList(j, cs) then var cs :| IsList(j, cs); Marked("l", cs)
    else "null"
  }

  lemma PrintedPoint(c: Coordinate)
    ensures PrintGeometry(CoordinateJson(c)) == Marked("p", [c])
  {
    assert IsPoint(CoordinateJson(c), c);
  }

  lemma PointIsNoList(c: Coordinate, cs: seq<Coordinate>)
    ensures CoordinateJson(c) != CoordinatesJson(cs)
  {
    var items := CoordinateItems(cs);
    assert cs != [] ==> items[0] == CoordinateJson(cs[0]) && items[0] != Num(Float(c.lat));
    assert cs == [] ==> |items| != 2;
  }

  lemma PrintedList(cs: seq<Coordinate>)
    ensures PrintGeometry(CoordinatesJson(cs)) == Marked("l", cs)
  {
    var j := CoordinatesJson(cs);
    assert IsList(j, cs);
    forall c ensures !IsPoint(j, c) {
      PointIsNoList(c, cs);
    }
    forall ds | IsList(j, ds) ensures ds == cs {
      assert |ds| == |cs|;
      forall i | 0 <= i < |cs| ensures ds[i] == cs[i] {
        assert j.items[i] == CoordinateJson(cs[i]) == CoordinateJson(ds[i]);
      }
    }
  }

  ghost predicate PrintsTo(text: string, j: Json) {
    PrintGeometry(j) == text && ((exists c :: IsPoint(j, c)) || exists cs :: IsList(j, cs))
  }

  ghost function ReadGeometry(text: string): Option<Json> {
    if exists j :: PrintsTo(text, j) then var j :| PrintsTo(text, j); Some(j) else None
  }

  lemma OneGeometry(text: string, j: Json, k: Json)
    requires PrintsTo(text, j) && PrintsTo(text, k)
    ensures j == k
  {
    var m, a := MarkOf(j);
    var n, b := MarkOf(k);
    MarkedInjective(m, a, n, b);
  }

  lemma MarkOf(j: Json) returns (m: string, cs: seq<Coordinate>)
    requires (exists c :: IsPoint(j, c)) || exists cs :: IsList(j, cs)
    ensures m == "p" || m == "l"
    ensures PrintGeometry(j) == Marked(m, cs)
    ensures m == "p" ==> |cs| == 1 && j == CoordinateJson(cs[0])
    ensures m == "l" ==> j == CoordinatesJson(cs)
  {
    if c :| IsPoint(j, c) {
      PrintedPoint(c);
      m, cs := "p", [c];
    } else {
      cs :| IsList(j, cs);
      PrintedList(cs);
      m := "l";
    }
  }

  lemma MarkedForm(mark: string, cs: seq<Coordinate>)
    ensures var text := Marked(mark, cs); text != [] && text[0] == '[' && IsTrimmed(text)
  {
  }

  ghost function SomePlatform(): Platform {
    Platform((s: string) => AsciiLower(s), (value: string, format: string) => None, (s: string) => ReadNumber(s),
             (x: F64) => SignedDecimal(x), (s: string) => ReadGeometry(s), (j: Json) => PrintGeometry(j),
             (a: seq<Coordinate>, b: seq<Coordinate>) => false, EvenOdd)
  }

  /** What is assumed of the library calls is consistent. */
  lemma LawfulPlatformExists()
    ensures Lawful(SomePlatform()) && RespectsBoxes(SomePlatform())
  {
    var p := SomePlatform();
    forall x ensures ReprintableNumber(p, x) {
      SignedDecimalForm(x);
      forall v: int | SignedDecimal(v) == SignedDecimal(x) ensures v == x {
        SignedDecimalInjective(v, x);
      }
    }
    forall c ensures Reprintable(p, CoordinateJson(c)) {
      PrintedPoint(c);
      MarkedForm("p", [c]);
      assert IsPoint(CoordinateJson(c), c);
      ReadBack(CoordinateJson(c));
    }
    forall cs ensures Reprintable(p, CoordinatesJson(cs)) {
      PrintedList(cs);
      MarkedForm("l", cs);
      assert IsList(CoordinatesJson(cs), cs);
      ReadBack(CoordinatesJson(cs));
    }
  }

  lemma ReadBack(j: Json)
    requires (exists c :: IsPoint(j, c)) || exists cs :: IsList(j, cs)
    ensures ReadGeometry(PrintGeometry(j)) == Some(j)
  {
    var text := PrintGeometry(j);
    assert PrintsTo(text, j);
    forall k | PrintsTo(text, k) ensures k == j {
      OneGeometry(text, j, k);
    }
  }

  lemma LawfulPlatform() returns (p: Platform)
    ensures Lawful(p) && RespectsBoxes(p)
  {
    p := SomePlatform();
    LawfulPlatformExists();
  }

  // ---- requests field by field --------------------------------------------------------------

  lemma TextAccepted(p: Platform, text: string, required: bool)
    requires text != []
    ensures NotifyField(p, Str(text), StringRule(None, required)) == Success(FieldValue(text, None))
    ensures FieldText(p, Str(text), StringRule(None, required)) == Success(text)
  {
  }

  /** A schema of two fields, read by what a subscriber asks of each. */
  lemma TwoFields(p: Platform, schema: EventSchema, request: Request, f: string, a: Wanted, g: string, b: Wanted)
    requires f != g && schema.identifier.Keys == {f, g} && !a.Constrained?
    requires StreamField(p, request, f, schema.identifier[f]) == Success(a)
    requires StreamField(p, request, g, schema.identifier[g]) == Success(b)
    ensures FieldsAccepted(p, schema, request)
    ensures FieldTokens(p, schema, request) == map[f := a.Token(), g := b.Token()]
    ensures StreamConstraints(p, schema, request) == if b.Constrained? then map[g := b.c] else map[]
  {
    FieldsAsked(p, schema, request, map[f := a, g := b]);
    TwoAsked(f, a, g, b);
  }

  function Tokens(wanted: map<string, Wanted>): Params { map f | f in wanted :: wanted[f].Token() }

  function Bounds(wanted: map<string, Wanted>): ConstraintMap {
    map f | f in wanted && wanted[f].Constrained? :: wanted[f].c
  }

  lemma FieldsAsked(p: Platform, schema: EventSchema, request: Request, wanted: map<string, Wanted>)
    requires wanted.Keys == schema.identifier.Keys
    requires forall f :: f in wanted ==> StreamField(p, request, f, schema.identifier[f]) == Success(wanted[f])
    ensures FieldsAccepted(p, schema, request)
    ensures FieldTokens(p, schema, request) == Tokens(wanted) && StreamConstraints(p, schema, request) == Bounds(wanted)
  {
  }

  lemma TwoAsked(f: string, a: Wanted, g: string, b: Wanted)
    requires f != g && !a.Constrained?
    ensures Tokens(map[f := a, g := b]) == map[f := a.Token(), g := b.Token()]
    ensures Bounds(map[f := a, g := b]) == if b.Constrained? then map[g := b.c] else map[]
  {
  }

  lemma TwoFieldsSent(p: Platform, schema: EventSchema, request: Request, f: string, a: FieldValue, g: string,
                      b: FieldValue)
    requires f != g && schema.identifier.Keys == request.Keys == {f, g} && !schema.payloadRequired
    requires NotifyField(p, request[f], schema.identifier[f]) == Success(a)
    requires NotifyField(p, request[g], schema.identifier[g]) == Success(b)
    ensures NotifyAccepts(p, schema, request, false) && NotifyAccepts(p, schema, request, true)
    ensures NotifyParams(p, schema, request) == map[f := a.text, g := b.text]
  {
    FieldsSent(p, schema, request, false, map[f := a.text, g := b.text]);
  }

  lemma OneFieldSent(p: Platform, schema: EventSchema, request: Request, f: string, a: FieldValue)
    requires schema.identifier.Keys == request.Keys == {f} && !schema.payloadRequired
    requires NotifyField(p, request[f], schema.identifier[f]) == Success(a)
    ensures NotifyAccepts(p, schema, request, false) && NotifyAccepts(p, schema, request, true)
    ensures NotifyParams(p, schema, request) == map[f := a.text]
  {
    FieldsSent(p, schema, request, false, map[f := a.text]);
  }

  lemma OneFieldAsked(p: Platform, schema: EventSchema, request: Request, f: string, a: Wanted)
    requires schema.identifier.Keys == {f} && !a.Constrained?
    requires StreamField(p, request, f, schema.identifier[f]) == Success(a)
    ensures FieldsAccepted(p, schema, request)
    ensures FieldTokens(p, schema, request) == map[f := a.Token()]
    ensures StreamConstraints(p, schema, request) == map[]
  {
    FieldsAsked(p, schema, request, map[f := a]);
  }

  // ---- the settings -------------------------------------------------------------------------

  /** A destination and a polygon; the topic routes on the destination. */
  const FEED := EventSchema(false, Some(TopicConfig("feed", ["destination"])),
                            map["destination" := StringRule(None, true), "polygon" := PolygonRule(false)],
                            None, ["ecpds"])

  /** A destination and a level. */
  const NEWS := EventSchema(false, Some(TopicConfig("newsfeed", ["destination", "level"])),
                            map["destination" := StringRule(None, true), "level" := IntRule(None, false)],
                            None, ["ecpds"])

  /** An identifier called 'point'. */
  const SPOTS := EventSchema(false, Some(TopicConfig("spots", ["point"])), map["point" := StringRule(None, false)],
                             None, [])

  /** A destination, and no topic block. */
  const REMARKS := EventSchema(false, None, map["destination" := StringRule(None, true)], None, ["ecpds"])

  const SETTINGS: Schemas := map["feed" := FEED, "news" := NEWS, "spots" := SPOTS, "remarks" := REMARKS]

  ghost predicate Acceptable(eventType: string, schema: EventSchema) {
    TopicAccepted(schema) && SpatialAccepted(schema) && ValidBase(RoutingBase(eventType, schema))
    && MatchKeyAccepted("destination", schema)
  }

  lemma FeedAcceptable()
    ensures Acceptable("feed", FEED)
  {
    var order := FEED.topic.value.keyOrder;
    assert order[0] == "destination" && forall k :: k in order <==> k == "destination";
  }

  lemma NewsAcceptable()
    ensures Acceptable("news", NEWS)
  {
    var order := NEWS.topic.value.keyOrder;
    assert order[0] == "destination" && order[1] == "level";
    assert forall k :: k in order <==> k == "destination" || k == "level";
    assert |"destination"| != |"level"| && NEWS.identifier.Keys == {"destination", "level"};
    assert "polygon" !in NEWS.identifier && "point_cloud" !in NEWS.identifier;
  }

  lemma SpotsAcceptable()
    ensures Acceptable("spots", SPOTS)
  {
    var order := SPOTS.topic.value.keyOrder;
    assert order[0] == "point" && forall k :: k in order <==> k == "point";
  }

  lemma RemarksAcceptable()
    ensures Acceptable("remarks", REMARKS)
  {
  }

  lemma AcceptableTogether(schemas: Schemas)
    requires forall e :: e in schemas ==> Acceptable(e, schemas[e])
    requires forall e, f :: e in schemas && f in schemas && e != f ==>
               |RoutingBase(e, schemas[e])| != |RoutingBase(f, schemas[f])|
    ensures RoutingAccepted(schemas) && EcpdsAccepted(Some("destination"), schemas)
  {
    forall e, f | e in schemas && f in schemas && e != f
      ensures StreamName(RoutingBase(e, schemas[e])) != StreamName(RoutingBase(f, schemas[f]))
    {
      assert |StreamName(RoutingBase(e, schemas[e]))| == |RoutingBase(e, schemas[e])|;
      assert |StreamName(RoutingBase(f, schemas[f]))| == |RoutingBase(f, schemas[f])|;
    }
  }

  function BaseLength(eventType: string): nat {
    if eventType == "feed" then 4 else if eventType == "news" then 8 else if eventType == "spots" then 5 else 7
  }

  lemma BaseLengths(e: string)
    requires e in SETTINGS
    ensures |RoutingBase(e, SETTINGS[e])| == BaseLength(e) && Acceptable(e, SETTINGS[e])
    ensures e == "feed" || e == "news" || e == "spots" || e == "remarks"
  {
    FeedAcceptable();
    NewsAcceptable();
    SpotsAcceptable();
    RemarksAcceptable();
  }

  /** The validators accept these settings, an identifier called 'point' included. */
  lemma SettingsAccepted()
    ensures RoutingAccepted(SETTINGS) && EcpdsAccepted(Some("destination"), SETTINGS)
  {
    forall e | e in SETTINGS ensures Acceptable(e, SETTINGS[e]) {
      BaseLengths(e);
    }
    forall e, f | e in SETTINGS && f in SETTINGS && e != f
      ensures |RoutingBase(e, SETTINGS[e])| != |RoutingBase(f, SETTINGS[f])|
    {
      BaseLengths(e);
      BaseLengths(f);
    }
    AcceptableTogether(SETTINGS);
  }

  // ---- scalars and a constraint -------------------------------------------------------------

  function NewsSent(destination: string, level: int): Request {
    map["destination" := Str(destination), "level" := Num(Integer(level))]
  }

  function AtLeast(level: int): Json { Object([("gte", Num(Integer(level)))]) }

  function NewsAsked(destination: string, level: int): Request {
    map["destination" := Str(destination), "level" := AtLeast(level)]
  }

  lemma LevelAccepted(p: Platform, level: int)
    requires MIN_I64 <= level <= MAX_I64
    ensures NotifyField(p, Num(Integer(level)), IntRule(None, false)) == Success(FieldValue(SignedDecimal(level), None))
  {
    SignedRoundTrip(level, MIN_I64, MAX_I64);
    assert FieldText(p, Num(Integer(level)), IntRule(None, false)) == CanonicalInt(SignedDecimal(level), None);
  }

  lemma LevelConstraint(p: Platform, level: int)
    requires MIN_I64 <= level <= MAX_I64
    ensures FieldConstraint(p, AtLeast(level), IntRule(None, false)) == Success(IntConstraint(Gte(level)))
  {
    var operators := ["eq", "gt", "gte", "lt", "lte"];
    assert operators[2] == "gte" && "gte" in operators && "gte"[0] != "in"[0] && "gte"[0] != "between"[0];
    assert "gte"[0] != "eq"[0] && |"gte"| != |"gt"|;
    assert NumericOf("gte", Num(Integer(level)), false) == Success(Gte(level));
    var members := [("gte", Num(Integer(level)))];
    assert members[0] == ("gte", Num(Integer(level)));
  }

  lemma NewsNotified(p: Platform, destination: string, level: int) returns (n: ProcessingResult)
    requires destination != [] && MIN_I64 <= level <= MAX_I64
    ensures IsNotifyResult(p, "news", NEWS, NewsSent(destination, level), false, n)
    ensures n.params == map["destination" := destination, "level" := SignedDecimal(level)]
  {
    var request := NewsSent(destination, level);
    TextAccepted(p, destination, true);
    LevelAccepted(p, level);
    NewsInSettings();
    assert request.Keys == {"destination", "level"};
    TwoFieldsSent(p, NEWS, request, "destination", FieldValue(destination, None), "level",
                  FieldValue(SignedDecimal(level), None));
    NewsAcceptable();
    n := NotifyResult(p, "news", NEWS, request, false);
  }

  lemma NewsRequest(p: Platform, destination: string, level: int)
    requires destination != [] && MIN_I64 <= level <= MAX_I64
    ensures StreamAccepts(p, NEWS, NewsAsked(destination, level))
    ensures StreamParams(p, NEWS, NewsAsked(destination, level)) == map["destination" := destination, "level" := "*"]
    ensures StreamConstraints(p, NEWS, NewsAsked(destination, level)) == map["level" := IntConstraint(Gte(level))]
  {
    var request := NewsAsked(destination, level);
    TextAccepted(p, destination, true);
    LevelConstraint(p, level);
    NewsInSettings();
    TwoFields(p, NEWS, request, "destination", Fixed(destination), "level", Constrained(IntConstraint(Gte(level))));
    assert request.Keys == NEWS.identifier.Keys && !HasCloud(NEWS);
  }

  lemma NewsWatched(p: Platform, destination: string, level: int) returns (w: ProcessingResult)
    requires destination != [] && MIN_I64 <= level <= MAX_I64
    ensures IsStreamResult(p, "news", NEWS, NewsAsked(destination, level), w)
    ensures w.params == map["destination" := destination, "level" := "*"]
    ensures w.constraints == map["level" := IntConstraint(Gte(level))]
  {
    NewsRequest(p, destination, level);
    NewsAcceptable();
    w := StreamResult(p, "news", NEWS, NewsAsked(destination, level));
  }

  lemma NewsConstraint(p: Platform, destination: string, level: int, bound: int, given: Params)
    requires NotifyAccepts(p, NEWS, NewsSent(destination, level), true)
    requires given == NotifyParams(p, NEWS, NewsSent(destination, level))
    ensures ConstraintsHold(p, map["level" := IntConstraint(Gte(bound))], given) <==> level >= bound
  {
    ConstraintOnSentInteger(p, NEWS, NewsSent(destination, level), "level", level, Gte(bound));
  }

  lemma NewsInSettings()
    ensures "news" in SETTINGS && SETTINGS["news"] == NEWS && NEWS.topic.Some? && UsesEcpds(NEWS)
            && !NEWS.payloadRequired
    ensures NEWS.identifier.Keys == {"destination", "level"} && |"destination"| != |"level"|
    ensures NEWS.identifier["destination"] == StringRule(None, true) && NEWS.identifier["level"] == IntRule(None, false)
    ensures "polygon" !in NEWS.identifier && "point_cloud" !in NEWS.identifier && "point" !in NEWS.identifier
  {
  }

  /** Scalars and a constraint: the destination asked for, and a level of at least the bound. */
  lemma NewsDelivery(p: Platform, given: string, level: int, wanted: string, bound: int)
    returns (n: ProcessingResult, w: ProcessingResult)
    requires given != [] && wanted != [] && MIN_I64 <= level <= MAX_I64 && MIN_I64 <= bound <= MAX_I64
    ensures IsNotifyResult(p, "news", NEWS, NewsSent(given, level), false, n)
    ensures IsStreamResult(p, "news", NEWS, NewsAsked(wanted, bound), w)
    ensures Delivered(p, SETTINGS, n.topic, None, "", w) <==> (wanted == "*" || wanted == given) && level >= bound
  {
    NewsInSettings();
    SettingsAccepted();
    n := NewsNotified(p, given, level);
    w := NewsWatched(p, wanted, bound);
    NewsConstraint(p, given, level, bound, n.params);
    NewsMeet(p, given, level, n, wanted, bound, w);
  }

  lemma NewsMeet(p: Platform, given: string, level: int, n: ProcessingResult, wanted: string, bound: int,
                 w: ProcessingResult)
    requires RoutingAccepted(SETTINGS)
    requires IsNotifyResult(p, "news", NEWS, NewsSent(given, level), false, n)
    requires IsStreamResult(p, "news", NEWS, NewsAsked(wanted, bound), w)
    requires n.params.Keys == {"destination", "level"} && n.params["destination"] == given
    requires w.params == map["destination" := wanted, "level" := "*"]
    ensures w.constraints.Keys <= n.params.Keys
    ensures Delivered(p, SETTINGS, n.topic, None, "", w) <==>
            (wanted == "*" || wanted == given) && ConstraintsHold(p, w.constraints, n.params)
  {
    NewsInSettings();
    ScalarDelivery(p, SETTINGS, "news", NEWS, NewsSent(given, level), n, NewsAsked(wanted, bound), w);
    NewsAgreement(given, wanted, n.params, w.params);
  }

  predicate EachAgrees(given: Params, wanted: Params)
    requires given.Keys == wanted.Keys
  {
    forall f :: f in given ==> wanted[f] == "*" || wanted[f] == given[f]
  }

  lemma NewsAgreement(text: string, asked: string, given: Params, wanted: Params)
    requires given.Keys == {"destination", "level"} && given["destination"] == text
    requires wanted == map["destination" := asked, "level" := "*"]
    ensures EachAgrees(given, wanted) <==> asked == "*" || asked == text
  {
    assert "destination" in given && "level" in given && |"destination"| != |"level"|;
  }

  lemma ScalarDelivery(p: Platform, schemas: Schemas, eventType: string, schema: EventSchema, notify: Request,
                       n: ProcessingResult, stream: Request, w: ProcessingResult)
    requires RoutingAccepted(schemas) && eventType in schemas && schemas[eventType] == schema && schema.topic.Some?
    requires "polygon" !in schema.identifier && "point_cloud" !in schema.identifier && "point" !in schema.identifier
    requires IsNotifyResult(p, eventType, schema, notify, false, n) && IsStreamResult(p, eventType, schema, stream, w)
    ensures n.params.Keys == w.params.Keys && w.constraints.Keys <= n.params.Keys
    ensures Delivered(p, schemas, n.topic, None, "", w) <==>
            EachAgrees(n.params, w.params) && ConstraintsHold(p, w.constraints, n.params)
  {
    EndToEndScalar(p, schemas, eventType, notify, false, n, stream, w, None, "");
  }

  /** Access: whoever is let in for one destination receives news of that destination only. */
  lemma NewsAuthorised(p: Platform, given: string, level: int, wanted: string, bound: int,
                       list: EcpdsClient.Destinations, n: ProcessingResult, w: ProcessingResult)
    requires IsNotifyResult(p, "news", NEWS, NewsSent(given, level), false, n)
    requires IsStreamResult(p, "news", NEWS, NewsAsked(wanted, bound), w)
    requires EcpdsChecker.Allows("destination", w.params, list) && w.params["destination"] != "*"
    requires Delivered(p, SETTINGS, n.topic, None, "", w)
    ensures "destination" in n.params && n.params["destination"] in list
  {
    NewsInSettings();
    SettingsAccepted();
    AuthorisedNotification(p, "destination", SETTINGS, "news", NewsSent(given, level), false, n,
                           NewsAsked(wanted, bound), w, list, None, "");
  }

  // ---- geometry -----------------------------------------------------------------------------

  /** Two degrees by two degrees. */
  const SQUARE := Geometry.Box(0, 0, Whole(2), Whole(2))

  const RING := Geometry.RectangleRing(SQUARE)

  lemma {:induction false} Pow2AtLeastOne(n: nat)
    ensures Pow2(n) >= 1
  {
    if n > 0 {
      Pow2AtLeastOne(n - 1);
    }
  }

  lemma RingValid()
    ensures AllValid(RING) && ClosedRing(RING) && Geometry.Closed(RING) == RING
    ensures SQUARE.minLat < SQUARE.maxLat && SQUARE.minLon < SQUARE.maxLon
  {
    Pow2AtLeastOne(SUBNORMAL_BITS);
  }

  lemma RingAccepted(p: Platform)
    requires Lawful(p)
    ensures ValidatePolygon(p, CoordinatesJson(RING)) == Some(RING)
    ensures NotifyField(p, CoordinatesJson(RING), PolygonRule(false))
            == Success(FieldValue(p.printJson(CoordinatesJson(RING)), Some(Ring(RING))))
  {
    RingValid();
    ParseCanonicalItems(RING);
    PolygonTextRoundTrip(p, RING);
  }

  function FeedSent(destination: string): Request {
    map["destination" := Str(destination), "polygon" := CoordinatesJson(RING)]
  }

  function FeedAsked(destination: string, c: Coordinate): Request {
    map["destination" := Str(destination), "point" := CoordinateJson(c)]
  }

  lemma FeedInSettings()
    ensures "feed" in SETTINGS && SETTINGS["feed"] == FEED && FEED.topic.Some? && "point" !in FEED.identifier
    ensures !FEED.payloadRequired
    ensures FEED.identifier.Keys == {"destination", "polygon"} && |"destination"| != |"polygon"|
    ensures FEED.identifier["destination"] == StringRule(None, true) && FEED.identifier["polygon"] == PolygonRule(false)
  {
  }

  lemma FeedNotified(p: Platform, destination: string) returns (n: ProcessingResult)
    requires Lawful(p) && destination != []
    ensures IsNotifyResult(p, "feed", FEED, FeedSent(destination), false, n)
    ensures n.params.Keys == FEED.identifier.Keys && n.params["destination"] == destination
    ensures ProducerShape(p, FEED, FeedSent(destination)) == Some(Ring(RING))
  {
    FeedInSettings();
    FeedRead(p, FEED, destination);
    FeedAcceptable();
    n := NotifyResult(p, "feed", FEED, FeedSent(destination), false);
  }

  lemma FeedRead(p: Platform, schema: EventSchema, destination: string)
    requires Lawful(p) && destination != [] && schema.identifier.Keys == {"destination", "polygon"}
    requires !schema.payloadRequired
    requires schema.identifier["destination"] == StringRule(None, true)
             && schema.identifier["polygon"] == PolygonRule(false)
    ensures var request := FeedSent(destination);
            && NotifyAccepts(p, schema, request, false) && NotifyAccepts(p, schema, request, true)
            && NotifyParams(p, schema, request)["destination"] == destination
            && ProducerShape(p, schema, request) == Some(Ring(RING))
  {
    var request := FeedSent(destination);
    assert |"destination"| != |"polygon"| && request.Keys == {"destination", "polygon"};
    TextAccepted(p, destination, true);
    RingAccepted(p);
    TwoFieldsSent(p, schema, request, "destination", FieldValue(destination, None),
                  "polygon", FieldValue(p.printJson(CoordinatesJson(RING)), Some(Ring(RING))));
  }

  lemma FeedRequest(p: Platform, schema: EventSchema, destination: string, c: Coordinate)
    requires destination != [] && ValidCoordinate(c)
    requires schema.identifier == map["destination" := StringRule(None, true), "polygon" := PolygonRule(false)]
    ensures StreamAccepts(p, schema, FeedAsked(destination, c))
    ensures StreamParams(p, schema, FeedAsked(destination, c)) ==
            map["destination" := destination, "polygon" := "*", "point" := p.printJson(CoordinateJson(c))]
    ensures StreamConstraints(p, schema, FeedAsked(destination, c)) == map[]
  {
    var request := FeedAsked(destination, c);
    FeedFields(p, destination, c);
    FeedKeys(destination, c);
    assert schema.identifier.Keys == {"destination", "polygon"};
    TwoFields(p, schema, request, "destination", Fixed(destination), "polygon", Anything);
    assert IsSpatialFilter(schema, "point");
    assert !HasCloud(schema);
    PointRead(p, c);
  }

  lemma FeedFields(p: Platform, destination: string, c: Coordinate)
    requires destination != []
    ensures StreamField(p, FeedAsked(destination, c), "destination", StringRule(None, true))
            == Success(Fixed(destination))
    ensures StreamField(p, FeedAsked(destination, c), "polygon", PolygonRule(false)) == Success(Anything)
  {
    TextAccepted(p, destination, true);
    FeedKeys(destination, c);
  }

  lemma FeedKeys(destination: string, c: Coordinate)
    ensures FeedAsked(destination, c).Keys == {"destination", "point"}
    ensures FeedAsked(destination, c)["point"] == CoordinateJson(c) && "polygon" !in FeedAsked(destination, c)
    ensures |"destination"| != |"polygon"| && "point_cloud" !in FeedAsked(destination, c)
    ensures FeedAsked(destination, c)["destination"] == Str(destination)
  {
    assert |"destination"| != |"point"| && |"polygon"| != |"point"|;
    assert "point_cloud"[5] != "destination"[5] && |"point_cloud"| != |"point"|;
  }

  lemma PointRead(p: Platform, c: Coordinate)
    requires ValidCoordinate(c)
    ensures !CoordinateJson(c).Object? && ParsePointValue(p, CoordinateJson(c)) == Some(c)
  {
    assert ParseCoordinate(CoordinateJson(c)) == Some(c);
  }

  lemma FeedWatched(p: Platform, destination: string, c: Coordinate) returns (w: ProcessingResult)
    requires destination != [] && ValidCoordinate(c)
    ensures IsStreamResult(p, "feed", FEED, FeedAsked(destination, c), w)
    ensures w.params == map["destination" := destination, "polygon" := "*", "point" := p.printJson(CoordinateJson(c))]
    ensures w.constraints == map[]
  {
    FeedRequest(p, FEED, destination, c);
    FeedAcceptable();
    w := StreamResult(p, "feed", FEED, FeedAsked(destination, c));
  }

  lemma InsideRing(p: Platform, destination: string, c: Coordinate)
    requires Lawful(p) && ValidCoordinate(c)
    ensures var params := map["destination" := destination, "polygon" := "*",
                              "point" := p.printJson(CoordinateJson(c))];
            PlainAnswer(p, params, Ring(RING), "") <==> Geometry.InsideBox(SQUARE, c)
  {
    PointTextRoundTrip(p, c);
    RingValid();
    Geometry.RectangleRegion(p.fill, SQUARE, c);
  }

  lemma FeedAgreement(given: Params, wanted: Params)
    requires given.Keys == FEED.identifier.Keys && "destination" in wanted && FEED.identifier.Keys <= wanted.Keys
    ensures FieldsAgree(FEED, wanted, given) <==>
            wanted["destination"] == "*" || wanted["destination"] == given["destination"]
  {
    FeedInSettings();
    assert "destination" in FEED.identifier;
  }

  lemma StoredDelivery(p: Platform, schemas: Schemas, eventType: string, schema: EventSchema, notify: Request,
                       n: ProcessingResult, stream: Request, w: ProcessingResult, shape: Shape)
    requires Lawful(p) && RoutingAccepted(schemas) && eventType in schemas && schemas[eventType] == schema
    requires schema.topic.Some? && BoxesHidden(p, w.params, shape)
    requires IsNotifyResult(p, eventType, schema, notify, false, n) && IsStreamResult(p, eventType, schema, stream, w)
    requires ProducerShape(p, schema, notify) == Some(shape) && w.constraints == map[]
    ensures schema.identifier.Keys <= w.params.Keys && n.params.Keys == schema.identifier.Keys
    ensures Delivered(p, schemas, n.topic, StoredWith(n), "", w) <==>
            FieldsAgree(schema, w.params, n.params) && PlainAnswer(p, w.params, shape, "")
  {
    EndToEndSpatial(p, schemas, eventType, notify, false, n, stream, w, shape, "");
    NothingToHold(p, n.params);
  }

  /** Geometry: a square reaches who asks for its destination and for a point inside the square. */
  lemma FeedDelivery(given: string, wanted: string, c: Coordinate)
    returns (p: Platform, n: ProcessingResult, w: ProcessingResult)
    requires given != [] && wanted != [] && ValidCoordinate(c)
    ensures Lawful(p) && RespectsBoxes(p)
    ensures IsNotifyResult(p, "feed", FEED, FeedSent(given), false, n)
    ensures IsStreamResult(p, "feed", FEED, FeedAsked(wanted, c), w)
    ensures Delivered(p, SETTINGS, n.topic, StoredWith(n), "", w) <==>
            (wanted == "*" || wanted == given) && Geometry.InsideBox(SQUARE, c)
  {
    p := LawfulPlatform();
    n, w := FeedReaches(p, given, wanted, c);
  }

  lemma FeedReaches(p: Platform, given: string, wanted: string, c: Coordinate)
    returns (n: ProcessingResult, w: ProcessingResult)
    requires Lawful(p) && given != [] && wanted != [] && ValidCoordinate(c)
    ensures IsNotifyResult(p, "feed", FEED, FeedSent(given), false, n)
    ensures IsStreamResult(p, "feed", FEED, FeedAsked(wanted, c), w)
    ensures Delivered(p, SETTINGS, n.topic, StoredWith(n), "", w) <==>
            (wanted == "*" || wanted == given) && Geometry.InsideBox(SQUARE, c)
  {
    FeedInSettings();
    SettingsAccepted();
    n := FeedNotified(p, given);
    w := FeedWatched(p, wanted, c);
    StoredDelivery(p, SETTINGS, "feed", FEED, FeedSent(given), n, FeedAsked(wanted, c), w, Ring(RING));
    FeedAgreement(n.params, w.params);
    InsideRing(p, wanted, c);
  }

  /** Reading it back gives all that was sent, unless the destination is a bare '*'. */
  lemma FeedRecovered(p: Platform, given: string, n: ProcessingResult, r: Result<Identifier, RecoveryError>)
    requires Lawful(p) && given != [] && IsNotifyResult(p, "feed", FEED, FeedSent(given), false, n)
    requires IsRecovered(p, SETTINGS, n.topic, StoredWith(n), r)
    ensures r == Success(CanonicalIdentifier(p, FEED, FeedSent(given))) <==> given != "*"
  {
    FeedInSettings();
    SettingsAccepted();
    IdentifierRecovered(p, SETTINGS, "feed", FeedSent(given), false, n, r);
    FeedSurvives(p, FEED, given);
  }

  lemma FeedSurvives(p: Platform, schema: EventSchema, given: string)
    requires Lawful(p) && given != [] && schema.identifier.Keys == {"destination", "polygon"} && !schema.payloadRequired
    requires schema.identifier["destination"] == StringRule(None, true)
             && schema.identifier["polygon"] == PolygonRule(false)
    ensures NotifyAccepts(p, schema, FeedSent(given), true)
    ensures AllSurvive(p, schema, FeedSent(given)) <==> given != "*"
  {
    FeedRead(p, schema, given);
    OneScalarSurvives(p, schema, FeedSent(given), "destination", given, "polygon");
  }

  lemma OneScalarSurvives(p: Platform, schema: EventSchema, request: Request, f: string, text: string, g: string)
    requires NotifyAccepts(p, schema, request, true) && schema.identifier.Keys == {f, g}
    requires !schema.identifier[f].IsSpatial() && schema.identifier[g].IsSpatial()
    requires NotifyParams(p, schema, request)[f] == text && text != ""
    ensures AllSurvive(p, schema, request) <==> text != "*"
  {
  }

  // ---- an identifier called 'point' ---------------------------------------------------------

  function SpotSent(text: string): Request { map["point" := Str(text)] }

  lemma SpotsInSettings()
    ensures "spots" in SETTINGS && SETTINGS["spots"] == SPOTS && SPOTS.topic.Some? && !SPOTS.payloadRequired
    ensures SPOTS.identifier.Keys == {"point"} && SPOTS.identifier["point"] == StringRule(None, false)
            && !HasCloud(SPOTS)
  {
  }

  lemma SpotNotified(p: Platform, text: string) returns (n: ProcessingResult)
    requires text != []
    ensures IsNotifyResult(p, "spots", SPOTS, SpotSent(text), false, n) && n.params == map["point" := text]
  {
    TextAccepted(p, text, false);
    SpotsInSettings();
    OneFieldSent(p, SPOTS, SpotSent(text), "point", FieldValue(text, None));
    SpotsAcceptable();
    n := NotifyResult(p, "spots", SPOTS, SpotSent(text), false);
  }

  lemma SpotLeftOut(p: Platform) returns (w: ProcessingResult)
    ensures IsStreamResult(p, "spots", SPOTS, map[], w) && w.params == map["point" := "*"]
  {
    SpotsInSettings();
    var request: Request := map[];
    OneFieldAsked(p, SPOTS, request, "point", Anything);
    assert StreamAccepts(p, SPOTS, request);
    SpotsAcceptable();
    w := StreamResult(p, "spots", SPOTS, request);
  }

  lemma SpotAsked(p: Platform, c: Coordinate) returns (w: ProcessingResult)
    requires Lawful(p) && ValidCoordinate(c)
    ensures var text := p.printJson(CoordinateJson(c));
            IsStreamResult(p, "spots", SPOTS, SpotSent(text), w) && w.params == map["point" := text]
  {
    SpotsInSettings();
    SpotRequest(p, SPOTS, c);
    SpotsAcceptable();
    w := StreamResult(p, "spots", SPOTS, SpotSent(p.printJson(CoordinateJson(c))));
  }

  lemma SpotRequest(p: Platform, schema: EventSchema, c: Coordinate)
    requires Lawful(p) && ValidCoordinate(c)
    requires schema.identifier.Keys == {"point"} && schema.identifier["point"] == StringRule(None, false)
             && !HasCloud(schema)
    ensures var text := p.printJson(CoordinateJson(c));
            StreamAccepts(p, schema, SpotSent(text)) && StreamParams(p, schema, SpotSent(text)) == map["point" := text]
  {
    var text := p.printJson(CoordinateJson(c));
    assert Reprintable(p, CoordinateJson(c));
    PointTextRoundTrip(p, c);
    TextAccepted(p, text, false);
    OneFieldAsked(p, schema, SpotSent(text), "point", Fixed(text));
    assert ParsePointValue(p, Str(text)) == Some(c);
  }

  /**
   * Accepted settings under which agreement is not enough: without a polygon in the payload, neither
   * the subscriber that asks for anything nor the one that asks for the very value that was sent
   * receives the notification.
   */
  lemma SpotsBlocked(p: Platform, c: Coordinate, text: string)
    returns (n: ProcessingResult, anything: ProcessingResult, same: ProcessingResult)
    requires Lawful(p) && ValidCoordinate(c) && PayloadPolygon(p, text) == None
    ensures RoutingAccepted(SETTINGS) && "spots" in SETTINGS && SETTINGS["spots"] == SPOTS
    ensures IsNotifyResult(p, "spots", SPOTS, SpotSent(p.printJson(CoordinateJson(c))), false, n)
    ensures IsStreamResult(p, "spots", SPOTS, map[], anything)
    ensures IsStreamResult(p, "spots", SPOTS, SpotSent(p.printJson(CoordinateJson(c))), same)
    ensures anything.params == map["point" := "*"] && same.params == n.params
    ensures !Delivered(p, SETTINGS, n.topic, None, text, anything) && !Delivered(p, SETTINGS, n.topic, None, text, same)
  {
    SettingsAccepted();
    SpotsInSettings();
    assert Reprintable(p, CoordinateJson(c));
    n := SpotNotified(p, p.printJson(CoordinateJson(c)));
    anything := SpotLeftOut(p);
    same := SpotAsked(p, c);
    PointFieldBlocksDelivery(p, SETTINGS, n.topic, None, text, "spots", map[], anything);
    PointFieldBlocksDelivery(p, SETTINGS, n.topic, None, text, "spots", SpotSent(p.printJson(CoordinateJson(c))), same);
  }

  // ---- no topic block -----------------------------------------------------------------------

  function Remark(destination: string): Request { map["destination" := Str(destination)] }

  lemma RemarksInSettings()
    ensures "remarks" in SETTINGS && SETTINGS["remarks"] == REMARKS && REMARKS.topic.None? && !REMARKS.payloadRequired
    ensures REMARKS.identifier.Keys == {"destination"} && REMARKS.identifier["destination"] == StringRule(None, true)
    ensures !HasCloud(REMARKS)
  {
  }

  lemma RemarkNotified(p: Platform, destination: string) returns (n: ProcessingResult)
    requires destination != []
    ensures IsNotifyResult(p, "remarks", REMARKS, Remark(destination), false, n)
            && n.params == map["destination" := destination]
  {
    TextAccepted(p, destination, true);
    RemarksInSettings();
    OneFieldSent(p, REMARKS, Remark(destination), "destination", FieldValue(destination, None));
    n := NotifyResult(p, "remarks", REMARKS, Remark(destination), false);
  }

  lemma RemarkWatched(p: Platform, destination: string) returns (w: ProcessingResult)
    requires destination != []
    ensures IsStreamResult(p, "remarks", REMARKS, Remark(destination), w)
            && w.params == map["destination" := destination]
    ensures w.constraints == map[]
  {
    TextAccepted(p, destination, true);
    RemarksInSettings();
    OneFieldAsked(p, REMARKS, Remark(destination), "destination", Fixed(destination));
    assert StreamAccepts(p, REMARKS, Remark(destination));
    w := StreamResult(p, "remarks", REMARKS, Remark(destination));
  }

  /** Without a topic block: the destination asked for, or any. */
  lemma RemarkDelivery(p: Platform, given: string, wanted: string) returns (n: ProcessingResult, w: ProcessingResult)
    requires given != [] && wanted != []
    ensures IsNotifyResult(p, "remarks", REMARKS, Remark(given), false, n)
    ensures IsStreamResult(p, "remarks", REMARKS, Remark(wanted), w)
    ensures Delivered(p, SETTINGS, n.topic, None, "", w) <==> wanted == "*" || wanted == given
  {
    SettingsAccepted();
    RemarksInSettings();
    n := RemarkNotified(p, given);
    w := RemarkWatched(p, wanted);
    assert |"destination"| != |"polygon"| && |"destination"| != |"point"|;
    OneKeyDelivery(p, SETTINGS, "remarks", REMARKS, Remark(given), n, Remark(wanted), w, "destination", given, wanted);
  }

  lemma OneKeyAgrees(params: Params, asked: Params, k: string, given: string, wanted: string)
    requires params == map[k := given] && asked == map[k := wanted]
    ensures params != map[] && asked.Keys == {k}
    ensures SameKeysAgree(params, asked) <==> wanted == "*" || wanted == given
  {
    assert k in params;
  }

  lemma OneKeyDelivery(p: Platform, schemas: Schemas, eventType: string, schema: EventSchema, notify: Request,
                       n: ProcessingResult, stream: Request, w: ProcessingResult, k: string, given: string,
                       wanted: string)
    requires BasesAccepted(schemas) && eventType in schemas && schemas[eventType] == schema && schema.topic.None?
    requires IsNotifyResult(p, eventType, schema, notify, false, n) && IsStreamResult(p, eventType, schema, stream, w)
    requires n.params == map[k := given] && w.params == map[k := wanted] && k != "polygon" && k != "point"
    requires w.constraints == map[]
    ensures Delivered(p, schemas, n.topic, None, "", w) <==> wanted == "*" || wanted == given
  {
    OneKeyAgrees(n.params, w.params, k, given, wanted);
    TopiclessDelivery(p, schemas, eventType, schema, notify, n, stream, w);
  }

  lemma TopiclessDelivery(p: Platform, schemas: Schemas, eventType: string, schema: EventSchema, notify: Request,
                          n: ProcessingResult, stream: Request, w: ProcessingResult)
    requires BasesAccepted(schemas) && eventType in schemas && schemas[eventType] == schema && schema.topic.None?
    requires IsNotifyResult(p, eventType, schema, notify, false, n) && IsStreamResult(p, eventType, schema, stream, w)
    requires n.params != map[] && w.constraints == map[] && "polygon" !in w.params && "point" !in w.params
    ensures Delivered(p, schemas, n.topic, None, "", w) <==> SameKeysAgree(n.params, w.params)
  {
    EndToEndGeneric(p, schemas, eventType, notify, false, n, stream, w, None, "");
    NoSpatialFilter(p, w.params, None, "");
  }

  // ---- geometry without a topic block -------------------------------------------------------

  const DRAWINGS := EventSchema(false, None, map["polygon" := PolygonRule(false)], None, [])

  function DrawingSent(): Request { map["polygon" := CoordinatesJson(RING)] }

  function DrawingAsked(c: Coordinate): Request { map["point" := CoordinateJson(c)] }

  ghost predicate IsDrawing(schema: EventSchema) {
    && schema.identifier.Keys == {"polygon"} && schema.identifier["polygon"] == PolygonRule(false)
    && schema.topic.None? && !schema.payloadRequired
  }

  lemma DrawingAcceptable(schema: EventSchema)
    requires IsDrawing(schema)
    ensures TopicAccepted(schema) && SpatialAccepted(schema) && !HasCloud(schema) && "point" !in schema.identifier
  {
    assert |"polygon"| != |"point"| && |"polygon"| != |"point_cloud"|;
    assert CloudKeys(schema) == {};
  }

  lemma DrawingsAccepted()
    ensures RoutingAccepted(map["drawings" := DRAWINGS]) && IsDrawing(DRAWINGS) && !HasCloud(DRAWINGS)
    ensures "point" !in DRAWINGS.identifier
  {
    DrawingAcceptable(DRAWINGS);
  }

  lemma DrawingRead(p: Platform, schema: EventSchema)
    requires Lawful(p) && IsDrawing(schema)
    ensures NotifyAccepts(p, schema, DrawingSent(), false) && NotifyAccepts(p, schema, DrawingSent(), true)
  {
    RingAccepted(p);
    OneFieldSent(p, schema, DrawingSent(), "polygon",
                 FieldValue(p.printJson(CoordinatesJson(RING)), Some(Ring(RING))));
  }

  lemma DrawingNotified(p: Platform) returns (n: ProcessingResult)
    requires Lawful(p)
    ensures IsNotifyResult(p, "drawings", DRAWINGS, DrawingSent(), false, n)
  {
    DrawingsAccepted();
    DrawingRead(p, DRAWINGS);
    n := NotifyResult(p, "drawings", DRAWINGS, DrawingSent(), false);
  }

  lemma DrawingRequest(p: Platform, schema: EventSchema, c: Coordinate)
    requires ValidCoordinate(c) && !HasCloud(schema)
    requires schema.identifier.Keys == {"polygon"} && schema.identifier["polygon"] == PolygonRule(false)
    ensures StreamAccepts(p, schema, DrawingAsked(c))
  {
    var request := DrawingAsked(c);
    PointRead(p, c);
    assert |"polygon"| != |"point"| && |"point"| != |"point_cloud"|;
    OneFieldAsked(p, schema, request, "polygon", Anything);
    assert IsSpatialFilter(schema, "point");
  }

  /** Accepted settings under which a point inside a stored square is never found. */
  lemma DrawingBlocked(p: Platform, c: Coordinate) returns (n: ProcessingResult, w: ProcessingResult)
    requires Lawful(p) && ValidCoordinate(c)
    ensures RoutingAccepted(map["drawings" := DRAWINGS])
    ensures IsNotifyResult(p, "drawings", DRAWINGS, DrawingSent(), false, n)
    ensures IsStreamResult(p, "drawings", DRAWINGS, DrawingAsked(c), w)
    ensures !Delivered(p, map["drawings" := DRAWINGS], n.topic, StoredWith(n), "", w)
  {
    DrawingsAccepted();
    n := DrawingNotified(p);
    DrawingRequest(p, DRAWINGS, c);
    w := StreamResult(p, "drawings", DRAWINGS, DrawingAsked(c));
    RequestedFilterBlocks(p, map["drawings" := DRAWINGS], "drawings", DrawingSent(), false, n, DrawingAsked(c), w,
                          "point", StoredWith(n), "");
  }
}
