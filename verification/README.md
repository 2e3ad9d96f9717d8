# Verified model of aviso-server

aviso-server takes notifications from producers, stores each under a subject built from its
identifier, and streams to every subscriber the stored notifications that its own request asks
for. This project models how a request becomes a subject and canonical parameters, how a
subscription becomes a coarse backend pattern followed by precise filters, and which stored
notifications are delivered as a result. It also models the ECPDS access check with its
single-flight cache and merge policies, the connection guards behind the SSE gauges, the spatial
metadata that travels beside a notification, and the way an event rebuilds the producer's
identifier from subject and headers.

`dafny verify dfyconfig.toml` checks everything.

## How the model is built

- Loops and in-place updates of the program are methods, proved against specification functions
  or predicates; the properties are lemmas about those. A walk over a hash map picks the next key
  arbitrarily, so what is proved holds for every iteration order.
- The start-up validators are methods proved to accept exactly the settings their predicates
  describe (`TopicAccepted`, `SpatialAccepted`, `BasesAccepted`, `PoliciesAccepted`,
  `MatchKeyAccepted`). Delivery theorems take their settings through these predicates.
- Strings are sequences of Unicode scalar values. UTF-8 is written out as in section 4 of RFC 3629.
- A finite double is a whole number of units of 2^-1074, so comparison, minimum, maximum and
  point-in-polygon are exact.
- Library calls whose source is not part of this model are fields of a record `Platform`. What is
  needed of them is the predicate `Lawful`: lower-casing of ASCII text, and that printed numbers and
  printed coordinate arrays parse back to themselves, the numbers without commas, parentheses and brackets.
- Point-in-polygon of the `geo` crate is taken as either the even-odd or the non-zero rule. Facts are proved
  for both, and both are pinned down on every strictly convex ring in either orientation (`ConvexRegion`,
  `ConvexRegionClockwise`); on any other ring a chord adds up the two parts it cuts off (`ChordSplit`).
- What requests mean is stated without the functions that process them: the relation an operator names
  (`Asked`), the texts that spell a number, a version or a time (`Fields`), the parts of a polygon or point
  given as text (`CoordinateTexts`); `EndToEndRequests` states delivery in these terms alone.
- `Consistency` shows that the assumptions can be met: a lawful platform exists, and there are accepted
  settings and requests to which the scalar, spatial, topic-less, access and recovery theorems apply;
  `CloudConsistency` does so for stored clouds.
- Concurrent cache calls are a step machine: look up, enter the flight, land with success or
  failure, finish, evict. Runs are arbitrary sequences of steps. So are the gauge, counter and locked steps
  of connections that open and drop.

## What turned out to need a condition

- The coarse pattern loses nothing exactly for patterns of at least two parts whose base is not
  `*` (`CoarseLossless`); for the others `LostTopic` names a matching topic that is lost. Accepted
  settings only produce patterns of the first kind, except for an event type without topic block
  and without parameters, whose notifications never arrive (`EndToEndGeneric`).
- The direct constraint lookup and the rebuilt identifier map agree on all topics exactly when the
  key order has no repeated key (`PathsAgreeExactly`, with the witness `RepeatedKeyDiverges`).
- The identifier reads back in full exactly when no scalar of it is empty or `*`
  (`IdentifierRecovered`). A notification whose schema has no topic block is stored but never
  reads back as an event (`TopiclessNeverRecovered`), and constraints on it deliver nothing
  (`GenericConstraintsBlock`).
- An identifier named `point` doubles as a spatial filter. For schemas without geometry delivery then
  also needs a polygon in the payload that contains the requested point, and that is exactly what is
  needed (`EndToEndPoint`). So a subscriber that leaves the field out receives nothing, and without
  such a polygon nobody does (`PointFieldBlocksDelivery`). The validators accept such a schema
  (`SettingsAccepted`), and `SpotsBlocked` gives agreeing requests of it that are not delivered.
- Event types without a schema match by position, not by key: for two key sets, matching means agreement
  on the same keys exactly when the sets are equal or differ in size (`KeysDecide`). The doc comment of
  the builder does not say so; `OtherKeyDelivered` gives the requests.
- The access list decides which notifications an admitted subscriber receives exactly when it asked for
  one value, or the match key's rule and the request's own constraint leave listed values only, or no
  notification can reach it (`NotificationListDecides`); `EnumRuleListed`, `IntRuleListed` and
  `TextRuleNeverListed` spell out the second case, `ReceivesExactly` the third. Over arbitrary topics, which
  no producer need have sent, the condition is stricter (`ListDecides`, `PlainRequestDecides`), since
  constraints also let through spellings that canonical values never have (`ForeignSpelling`).
- A configured event type is received by its own subscribers only, exactly when unknown event types are
  refused or its topic base is the name of a configured type (`OwnSubscribersOnly`); role checks are looked
  up by event type, not by base.
- Bounding boxes only take answers away, in two cases (`PrefilterKeepsAnswer`): a polygon against a stored
  polygon, if the polygon-polygon test of the `geo` crate accepts polygons whose boxes are apart, and a
  point asked of a stored cloud, whose box is compared although the polygon then comes from the payload.
  Schemas with clouds refuse requested points, so the second needs a subscriber under the base name
  (`PointOfCloud`, `PointBesideCloud`); for subscribers of the event type boxes show in the first case only
  (`EndToEndSpatial`).
- Without a topic block a spatial filter is one more value of the subject. A requested point finds nothing
  in polygon schemas, nor a polygon in cloud schemas (`RequestedFilterBlocks`), and a requested polygon finds
  only its own coordinates (`RequestedPolygonIsItself`). The validators accept such schemas (`DrawingBlocked`).

## Model

| member | source | states |
|---|---|---|
| TopicCodec.EncodeToken | src/notification/topic_codec.rs:29-40 | The loop escapes exactly the four reserved characters, as upper-case percent triplets. |
| TopicCodec.DecodeToken | src/notification/topic_codec.rs:43-80 | The byte loop with its two error exits computes percent-decoding followed by UTF-8 checking. |
| TopicCodec.TokenRoundTrip | src/notification/topic_codec.rs:29-80 | Decoding an encoded token gives the token back, for every text. |
| TopicCodec.EncodedTokenIsLiteral | src/notification/topic_codec.rs:29-40 | An encoded token contains no separator and no subject wildcard. |
| TopicCodec.WireRoundTrip | src/notification/topic_codec.rs:29-80 | Re-encoding a decodable wire token reproduces it exactly when it escapes every reserved character with upper-case hex and escapes nothing else. |
| TopicCodec.UnescapedExactly | src/notification/topic_codec.rs:43-80 | A wire token gives bytes exactly when every percent sign is followed by two hexadecimal digits; digits that are none are reported before a percent sign too near the end. |
| TopicCodec.HexBothCases | src/notification/topic_codec.rs:43-80 | A digit is read as its place among the sixteen, in either letter case. |
| TopicCodec.SplitEncodedSubject | src/notification/topic_codec.rs:83-86 | Splitting an encoded subject gives one wire token for each part, so the number of parts is kept. |
| TopicCodec.SubjectRoundTrip | src/notification/topic_codec.rs:83-91 | Decoding an encoded subject gives the parts back exactly when there is at least one part. |
| TopicCodec.SubjectInjective | src/notification/topic_codec.rs:83-91 | Two different non-empty part lists never share a subject. |
| TopicCodec.BaseIsFirstPart | src/notification/topic_codec.rs:104-113 | Decoding only the base agrees with decoding the whole subject, apart from an empty first token. |
| Utf8.DecodeEncode | src/notification/topic_codec.rs:43-80 | Decoding the UTF-8 bytes of a text gives the text. |
| Utf8.EncodeDecode | src/notification/topic_codec.rs:76-80 | A byte sequence is accepted only if it is the UTF-8 form of what it decodes to, so no over-long form or surrogate passes. |
| Scalars.ExpverAgree | aviso-validators/src/expver.rs:100-109 | Two ASCII versions have one canonical form exactly when they are the same u32, or neither is a number and they agree up to case. |
| Scalars.ExpverNormalForm | aviso-validators/src/expver.rs:39-109 | Canonicalising a version twice changes nothing. |
| Fields.VersionsAgree | aviso-validators/src/expver.rs:39-109 | Two accepted versions have one canonical form exactly when they spell the same u32 or, neither spelling one, are the same text up to case; an empty text stands for the default. |
| Fields.VersionForm | aviso-validators/src/expver.rs:100-109 | A version below 10000 is written with exactly four digits of its value. |
| Fields.VersionAccepted | aviso-validators/src/expver.rs:39-109 | A version is refused exactly when it is empty and there is no default, and an empty one has the form of the default. |
| Scalars.TimeWritten | aviso-validators/src/time.rs:53-267 | In each of the three formats, the canonical form is HHMM of the hour and minute the text writes. |
| Scalars.TimeAccepted | aviso-validators/src/time.rs:53-267 | A text is accepted exactly when it writes an hour below 24 and a minute below 60 in one of the three formats; these are unique. |
| Scalars.TimesAgree | aviso-validators/src/time.rs:53-267 | Two accepted times have one canonical form exactly when they denote the same hour and minute. |
| Scalars.TimeNormalForm | aviso-validators/src/time.rs:53-82 | A canonical time is accepted and is its own canonical form. |
| Constraints.IntNormalForm | aviso-validators/src/int.rs:44-87 | Canonical integers are normal forms, and two accepted integers agree exactly when they are one number. |
| Fields.SignedSpelling | aviso-validators/src/int.rs:44-87 | A signed number is read from exactly the texts that spell it: an optional sign, any zeros, the shortest decimal form, within the type. |
| Fields.UnsignedSpelling | aviso-validators/src/expver.rs:100-109 | The same for an unsigned number, where a minus sign is refused. |
| Fields.AcceptedExactly | src/notification/processor.rs:382-433 | For each of the seven scalar rules, the texts it accepts: by length, by calendar, by membership, by value within the range, or by time of day. |
| Fields.ValuesAgree | src/notification/processor.rs:382-433 | For each scalar rule, two accepted texts have one canonical form exactly when they are the same value. |
| Fields.CanonicalForms | src/notification/processor.rs:382-433 | What canonical texts look like: text as given, choices in lower case, numbers in their shortest form, times as HHMM. |
| Fields.ScalarTexts | src/types/request.rs:58-73 | A JSON scalar as text: itself, the shortest decimal spelling of an integer, the name of a truth value; null, arrays and objects are refused. |
| Constraints.IntConstraintMeans | aviso-validators/src/constraints.rs:44-56 | Evaluating an integer constraint on a canonical token is evaluating it on the number, and the token is never an omitted one. |
| Constraints.FloatConstraintMeans | aviso-validators/src/constraints.rs:33-56 | Evaluating a float constraint on a canonical token is evaluating it on the double, and the token is never empty or '*', the two omitted ones. |
| Constraints.EnumConstraintMeans | aviso-validators/src/constraints.rs:65-73 | Enumeration constraints do not depend on the letter case of the value. |
| Constraints.EqIsPlainInt | aviso-validators/src/constraints.rs:75-105 | An `eq` constraint is accepted exactly when the plain integer is, and selects the same tokens as the plain integer. |
| Constraints.AcceptedStaysInRange | aviso-validators/src/constraints.rs:383-455 | An accepted `eq`, `in` or `between` selects no number outside the configured range. |
| Constraints.AcceptedEnumSelects | aviso-validators/src/constraints.rs:139-171 | An accepted `in` selects exactly the values it lists up to case, all of them allowed ones. |
| Asked.OperatorMeans | aviso-validators/src/constraints.rs:44-62 | From JSON to verdict: an accepted numeric constraint selects exactly the numbers that stand in the relation its operator names to the number, pair or list it gives. |
| Asked.OrderLaws | aviso-validators/src/constraints.rs:44-62 | 'gt' is the complement of 'lte' and 'lt' of 'gte', 'eq' is the meet of 'gte' and 'lte', and so is 'between' with its two bounds. |
| Asked.OperatorAccepted | aviso-validators/src/constraints.rs:75-137 | A numeric constraint is accepted exactly when it is one known operator with operands of its kind, all within the configured range, a list not empty and a pair in order. |
| Asked.ChoiceMeans | aviso-validators/src/constraints.rs:66-72 | An accepted choice selects exactly the asked text, or one of those asked, up to case. |
| Asked.ChoiceAccepted | aviso-validators/src/constraints.rs:139-171 | A choice is accepted exactly when it is one allowed text, or a list of them that is not empty. |
| Shapes.ParsePairs | aviso-validators/src/polygon.rs:87-159 | The loop over coordinate texts reads consecutive pairs and stops at the first bad one. |
| Shapes.PolygonTextRoundTrip | aviso-validators/src/polygon.rs:87-159 | Printed canonical coordinates parse back in order, with repeats, and are never mistaken for an omitted value. |
| CoordinateTexts.PolygonTextMeans | aviso-validators/src/polygon.rs:87-159 | A polygon as text is read exactly when its comma-separated parts, with or without one pair of parentheses and white space around them, are numbers in latitude, longitude order and in range; and then as these coordinates. |
| CoordinateTexts.TextIsJson | aviso-validators/src/polygon.rs:57-159 | The comma-joined printed numbers of any valid coordinates are read as the coordinates that their JSON array gives. |
| Shapes.PolygonAccepted | aviso-validators/src/polygon.rs:162-182 | An array is an accepted polygon exactly when it is four coordinates or more and the last equals the first. |
| Shapes.CoordinateAccepted | aviso-validators/src/coordinate.rs:41-72 | A coordinate is exactly an array of two numbers, latitude first, that is in range. |
| Shapes.DegreesAccepted | aviso-validators/src/coordinate.rs:53-72 | In whole degrees the range is 90 for latitudes and 180 for longitudes, ends included. |
| Shapes.ValidatePolygon | aviso-validators/src/polygon.rs:46-182 | An accepted polygon is closed, has at least four positions, and all of them are in range. |
| Shapes.ValidateCloud | aviso-validators/src/point_cloud.rs:95-176 | An accepted cloud has between one and the limit of in-range points, and its text fits the header limit. |
| Shapes.CloudRevalidates | aviso-validators/src/point_cloud.rs:95-164 | An accepted cloud is accepted again from its canonical JSON under the hard limit, with the same points. |
| Shapes.CloudAccepted | aviso-validators/src/point_cloud.rs:95-175 | An array is an accepted cloud exactly when it is one coordinate up to the configured limit, at most 10000, printed in at most 61440 bytes. |
| Shapes.PointTextRoundTrip | aviso-validators/src/point.rs:32-86 | A printed canonical point parses back to itself. |
| CoordinateTexts.PointTextMeans | aviso-validators/src/point.rs:48-86 | A point as text is read latitude first, with or without parentheses and white space. |
| CoordinateTexts.PointTextIsJson | aviso-validators/src/point.rs:32-86 | The printed numbers of a valid coordinate, comma between, are read as its JSON array is. |
| Geometry.BoundingBox | src/notification/spatial.rs:110-127 | The four-bounds loop returns the box of the coordinates, and nothing for no coordinates. |
| Geometry.BoxIsTight | src/notification/spatial.rs:110-127 | The box holds every coordinate and each of its sides touches one. |
| Geometry.TightBoxUnique | src/notification/spatial.rs:110-127 | There is only one such box, so coordinate order does not matter. |
| Geometry.CountParity | src/notification/wildcard_matcher.rs:431-437 | The number of crossings of a ray with a ring has the parity of their signed sum. |
| Geometry.WindingFromLeft | src/notification/wildcard_matcher.rs:431-437 | Seen from the left, the signed crossings of a path telescope to its two ends; for a closed ring they cancel. |
| Geometry.OutsideBoxOutsideRing | src/notification/wildcard_matcher.rs:440-442 | A point outside the box of a closed ring has an even number of crossings, no winding and is not on the boundary. |
| Geometry.PolygonInBox | src/notification/wildcard_matcher.rs:404-442 | A point inside or on a polygon is in the polygon's bounding box, under either fill rule. |
| Geometry.RectangleRegion | src/notification/wildcard_matcher.rs:220-225 | On a rectangle, 'contains' is the open and 'intersects' the closed rectangle, under either fill rule. |
| ConvexRing.ConvexRegion | src/notification/wildcard_matcher.rs:404-437 | For every strictly convex ring, listed anticlockwise, and under both fill rules: 'contains' holds exactly strictly left of every edge, 'intersects' exactly right of none. |
| ConvexRing.ConvexRegionClockwise | src/notification/wildcard_matcher.rs:404-437 | The same for the other orientation, with left and right exchanged. |
| ConvexRing.TriangleRegion | src/notification/wildcard_matcher.rs:404-437 | Every triangle with area, in either orientation: the inside is where the three orientations are all positive or all negative. |
| ConvexRing.ChordSplit | src/notification/wildcard_matcher.rs:404-437 | For any closed ring, convex or not, a chord splits it into two rings whose windings add up, and off the chord the crossings of the whole have the parity of the sum of the parts. |
| ConvexRing.DiamondIsNotItsBox | docs/src/practical-examples/spatial-filtering.md:29 | The documented diamond does not hold a point beside one of its edges although its bounding box does. |
| Spatial.BuildMetadata | src/notification/spatial.rs:74-89 | Metadata carries the coordinates' box and the canonical geometry under its own kind, and exists exactly when there are coordinates. |
| Spatial.StoredHeaders | src/handlers/storage.rs:47-70 | The stored headers are the box and exactly one of the two geometry keys; there are none without metadata. |
| Spatial.HeaderKeys | src/notification/spatial.rs:29-42 | The stored keys are spatial_bbox and one of spatial_geometry and spatial_point_cloud. |
| Spatial.BoxTextRoundTrip | src/notification/wildcard_matcher.rs:450-475 | A printed box parses back with its corners ordered. |
| Spatial.BoxTextMeans | src/notification/wildcard_matcher.rs:450-475 | A box text is read exactly when it is four numbers between commas, and its corners are put in order. |
| Spatial.StoredBoxReadsBack | src/notification/wildcard_matcher.rs:444-475 | The stored header of a shape reads back as that shape's tight box. |
| Spatial.StoredRingReadsBack | src/notification/wildcard_matcher.rs:478-523 | A stored polygon reads back as its own ring whatever the payload says, and never as a cloud. |
| Spatial.StoredCloudReadsBack | src/notification/wildcard_matcher.rs:245-256 | A stored cloud reads back as its own points. |
| Spatial.PrefilterKeepsAnswer | src/notification/wildcard_matcher.rs:164-243 | For a stored shape and any request, the verdict is the answer without boxes (stored geometry, and the payload's polygon for a point asked of a cloud) together with the boxes it does not imply: so it is unchanged exactly when that answer implies the point in the cloud's box, or the boxes of the two polygons meeting. |
| Spatial.CloudPrefilter | src/notification/wildcard_matcher.rs:206-225 | If any cloud point touches the requested polygon, their boxes intersect. |
| Geometry.BoxesShareAPoint | src/notification/wildcard_matcher.rs:206-215 | Boxes with ordered corners overlap exactly when they have a point in common. |
| Spatial.PreparedFilterIs | src/notification/wildcard_matcher.rs:33-52 | A request has a prepared filter exactly when it asks for a readable, non-empty polygon that is no wildcard; its box is the tight box of the closed ring. |
| Spatial.PayloadGeoJson | src/notification/wildcard_matcher.rs:499-569 | A GeoJSON polygon in the payload is its outer ring alone, from three readable entries on; other geometry is none. |
| Spatial.PairRead | src/notification/wildcard_matcher.rs:540-547 | A ring entry counts exactly when it starts with two numbers, read latitude first; any other entry is skipped. |
| Spatial.PairsJoin | src/notification/wildcard_matcher.rs:540-547 | Ring entries are read one after the other, in order. |
| Spatial.NothingStored | src/notification/wildcard_matcher.rs:164-243 | Without stored geometry a requested polygon is never met, and a requested point is looked for in the payload's polygon. |
| Spatial.WithoutBox | src/notification/wildcard_matcher.rs:164-243 | Without a readable stored box a requested polygon is never met, and a requested point is looked for in the candidate polygon alone. |
| Units.DurationExact | src/configuration/units.rs:16-50 | A duration is returned exactly when the literal spells digits and a known unit whose product fits u64, and it is that product; overflow is reported exactly when it does not fit. |
| Units.RetentionLimit | src/configuration/units.rs:56-65 | Retention accepts a parsed duration exactly up to 9223372036 seconds, unchanged. |
| Units.SizeExact | src/configuration/units.rs:72-106 | The same for sizes, within i64 and positive. |
| Units.DurationUnits | src/configuration/units.rs:32-50 | A second, then 60 of them, 60, 24 and 7 of the unit before, whatever the letter case. |
| Units.SizeUnits | src/configuration/units.rs:72-106 | The k-th of the letters K, M, G, T is the k-th power of 1000, and of 1024 with an i behind it; there is no other unit. |
| Validation.CheckTopic | src/configuration/topic_validation.rs:15-53 | The nested loops accept exactly the schemas whose keys are distinct, declared, not reserved, and cover every scalar; a rejection names a real fault. |
| Validation.ValidateTopicSchemas | src/configuration/topic_validation.rs:15-53 | The same over all schemas, whatever order they are visited in. |
| Validation.CheckSpatial | src/configuration/validation.rs:50-122 | Accepts exactly the schemas in which polygons and clouds use their own names and never meet; a rejection names a real fault. |
| Validation.ValidateSpatialSchemas | src/configuration/validation.rs:50-122 | The same over all schemas, whatever order they are visited in. |
| Validation.CheckBases | src/configuration/validation.rs:386-405 | The ownership loop accepts exactly the settings with valid bases and pairwise different stream names; a rejection names an invalid base or two owners of one stream. |
| Validation.CheckPolicies | src/configuration/validation.rs:404-429 | The second loop accepts exactly the supported policies on distinct bases; a rejection names a real fault. |
| Validation.OwnedBasesSuffice | src/configuration/validation.rs:386-424 | Distinct stream names make policy bases distinct, so the later duplicate test has nothing left to refuse. |
| Validation.ValidateStoragePolicies | src/configuration/validation.rs:362-429 | Both loops together; the duplicate error of the second never fires. |
| Validation.PolicyMeans | src/configuration/validation.rs:431-482 | The memory backend takes no policy field at all; JetStream takes every field, with a retention of 1 to 9223372036 seconds, a positive size within i64 and a positive number of messages. |
| Schema.BaseCharacters | src/notification/topic_parser.rs:24-37 | A topic base is written in the ASCII letters and digits, underscore and hyphen, and starts with a letter or a digit. |
| Validation.ValidateEcpdsSchemas | src/configuration/validation.rs:610-669 | Accepts exactly the settings in which the match key is a required scalar that every ECPDS topic routes; a rejection names a real fault. |
| Topics.BuildSchemaTopic | src/notification/topic_builder.rs:22-41 | Fails exactly when a key is missing, naming the first one; otherwise the subject lists base and values in key order. |
| Topics.BuildGenericTopic | src/notification/topic_builder.rs:44-65 | The subject lists the event type and the values in ascending key order, or is the bare event type. |
| Topics.KeyOrderUnique | src/notification/topic_builder.rs:53-55 | The ascending order of a key set is unique, so the subject does not depend on map order. |
| Topics.LessMeans | src/notification/topic_builder.rs:44-65 | One key comes before another when it ends first, or has the smaller character where they first differ. |
| Topics.GenericPartsInOrder | src/notification/topic_builder.rs:44-65 | A generic topic lists the values of the keys in ascending order, whatever order the map was walked in, so equal key sets share their positions. |
| Topics.ParseTopic | src/notification/topic_parser.rs:74-107 | The loop collects the fields whose token is present, non-empty and no wildcard. |
| Topics.ParseBuilt | src/notification/topic_parser.rs:74-107 | Parsing a built topic returns exactly the routed parameters less the empty and wildcard ones. |
| Processor.NotifyField | src/notification/processor.rs:154-197 | A field has coordinates for metadata exactly when its rule is spatial, and then at least one. |
| Processor.ProcessNotify | src/notification/processor.rs:138-222 | Succeeds exactly when the request has the schema's fields, all valid, and a payload if required; gives every field its canonical text and the metadata of its geometry. A refusal is explained in the order unknown field, missing or bad field, payload. |
| Processor.ProcessStreaming | src/notification/processor.rs:245-338 | Succeeds exactly on the acceptable watch and replay requests; absent optional fields and constrained ones become wildcards, constraints are collected. A refusal is explained in the order of the checks. |
| Processor.ProcessGeneric | src/notification/processor.rs:341-381 | Without a schema, scalars are taken as text and a notify request must not have empty ones; a refusal comes from a bad field. |
| Processor.BuildTopic | src/notification/topic_builder.rs:22-65 | Succeeds exactly when every routed key has a value, and gives the subject of those values; otherwise names the first missing key. |
| Processor.Process | src/notification/processor.rs:67-135 | The whole request: accepted exactly under the base, field, key and strictness conditions, with the result of its operation, its own topic, and the two refusals that come before field processing. |
| Processor.ProcessNotification | src/notification/processor.rs:67-135 | The notify half for a schema: accepted exactly when fields, payload and routed keys are in order, with its own parameters, metadata and topic. |
| Processor.ProcessSubscription | src/notification/processor.rs:67-135 | The watch and replay half for a schema, with a routed polygon position turned into a wildcard. |
| Processor.NotifyFields | src/notification/processor.rs:156-199 | The loop over the schema's fields, in any order: canonical texts, the metadata of a spatial field, or a field that is missing or bad. |
| Processor.StreamFields | src/notification/processor.rs:284-322 | The loop over the schema's fields, in any order: tokens and constraints, or a field that is missing or bad. |
| WildcardMatcher.CoarseTokens | src/notification/wildcard_matcher.rs:56-93 | A coarse pattern is literal tokens without wildcards and a final '>'. |
| WildcardMatcher.CoarseLossless | src/notification/wildcard_matcher.rs:56-142 | Every topic the precise pattern accepts passes the coarse one, exactly for patterns of two parts or more whose base is not '*'. |
| WildcardMatcher.LostTopic | src/notification/wildcard_matcher.rs:56-93 | For every other pattern, a matching topic that the coarse pattern loses. |
| WildcardMatcher.CoarseTightest | src/notification/wildcard_matcher.rs:56-93 | Among the literal prefixes that lose nothing, the coarse pattern keeps the longest: exactly its own prefixes are lossless. |
| WildcardMatcher.NatsMeans | src/notification/wildcard_matcher.rs:56-93 | Subject matching position by position: a star takes one token, a final tail wildcard one or more. |
| WildcardMatcher.ResolveEventType | src/notification/wildcard_matcher.rs:387-402 | The search returns an event type with this topic base, and none only if there is none. |
| WildcardMatcher.ResolutionUnique | src/notification/wildcard_matcher.rs:387-402 | With accepted bases the search has one answer, whatever order the map is walked in. |
| WildcardMatcher.FastPathRefines | src/notification/wildcard_matcher.rs:282-371 | With distinct keys, the direct lookup and the rebuilt identifier map give one verdict on every decodable topic. |
| WildcardMatcher.PathsAgreeExactly | src/notification/wildcard_matcher.rs:282-371 | They agree on all topics and constraints exactly when no key repeats. |
| WildcardMatcher.RepeatedKeyDiverges | src/notification/wildcard_matcher.rs:336-371 | With a repeated key, a topic and a constraint on which they differ. |
| WildcardMatcher.FallbackUnreachable | src/notification/wildcard_matcher.rs:282-300 | Once an event type is resolved the direct lookup always answers. |
| WildcardMatcher.MatchesIdentifierConstraints | src/notification/wildcard_matcher.rs:258-334 | The verdict is that of resolving the topic's event type and evaluating every constraint. |
| WildcardMatcher.ConstraintVerdictUnique | src/notification/wildcard_matcher.rs:258-334 | Under accepted bases a topic has one verdict, whatever the map order. |
| Delivery.NotifySubject | src/notification/processor.rs:81-135 | A notify topic decodes to base and values, one token for each key and the base. |
| Delivery.StreamSubject | src/notification/wildcard_matcher.rs:56-93 | A watch topic decodes to its own pattern, of the same length, whose base is no wildcard. |
| Delivery.RoutingNeverFails | src/notification/processor.rs:81-125 | After validation, accepted fields are enough for notify, watch and replay to get a topic. |
| Delivery.PatternMeansKeys | src/notification/wildcard_matcher.rs:96-142 | Token matching of two built subjects is agreement on every routed key. |
| Delivery.PatternVerdict | src/notification/wildcard_matcher.rs:56-142 | A notify topic matches the watch pattern exactly when the requests agree field by field, and then the backend pattern lets it through. |
| Delivery.ConstraintVerdict | src/notification/wildcard_matcher.rs:258-371 | On a producer's topic, evaluating constraints on tokens is evaluating them on the canonical values, none of which may be empty or '*'. |
| Delivery.ConstraintOnSentInteger | aviso-validators/src/constraints.rs:44-56 | A constraint on an integer field holds of a notification exactly when it holds of the number the producer sent. |
| Delivery.EndToEnd | src/notification/wildcard_matcher.rs:96-243 | Under accepted settings a notification is delivered exactly when the fields agree, every constraint holds and the spatial filters pass. |
| Delivery.EndToEndScalar | src/notification/wildcard_matcher.rs:96-243 | Without geometry in the schema, delivery is exactly agreement on every field (or a wildcard) and every constraint. |
| Delivery.EndToEndPoint | src/notification/wildcard_matcher.rs:164-243 | For every schema without geometry, delivery is exactly agreement on every field, every constraint, and, if an identifier is named 'point', a payload polygon around the requested point. |
| Delivery.TimeFieldsMeet | aviso-validators/src/time.rs:53-267 | A producer's and a subscriber's time field agree exactly when they write the same time of day, however each wrote it. |
| Fields.FieldsMeet | src/notification/processor.rs:154-338 | For every scalar rule, versions included, the subscriber's parameter equals the producer's exactly when both sent the same value, however each wrote it. |
| Requests.LeftOutAccepted | src/notification/processor.rs:296-320 | A subscriber may leave out a field exactly when it is optional, or a requested point stands in for a polygon, or a requested polygon for a cloud. |
| Requests.ExtraFilters | src/notification/processor.rs:264-278 | Under accepted settings the only fields beside the declared ones are a point for a polygon schema and a polygon for a cloud schema. |
| Requests.GenericValue | src/notification/processor.rs:341-381 | Without a schema any scalar is a value, except that a producer's must not be empty; an object is refused as such. |
| Delivery.StoredMetadata | src/notification/processor.rs:163-197 | The stored metadata is that of the coordinates the producer sent, and there is none without geometry. |
| Delivery.EndToEndSpatial | src/notification/wildcard_matcher.rs:96-243 | For stored geometry, delivery is field agreement, constraints, the geometric answer on the producer's own coordinates, and box overlap; the boxes never show for clouds, requested points or wildcards, nor for two polygons if the polygon-polygon test respects boxes. |
| ConvexDelivery.PointInConvexPolygon | src/notification/wildcard_matcher.rs:404-437 | End-to-end delivery of a stored convex polygon to a requested point: agreement, constraints, and the point strictly on the inner side of every edge. |
| ConvexDelivery.CloudInConvexPolygon | src/notification/wildcard_matcher.rs:220-225 | End-to-end delivery of a stored cloud to a requested convex polygon: agreement, constraints, and some point of the cloud on the outer side of no edge. |
| Asked.EndToEndAsked | src/notification/wildcard_matcher.rs:96-243 | End-to-end delivery with the constraints read off the two requests: every object asked for names a relation that the number or choice sent stands in. |
| Requests.EndToEndRequests | src/notification/wildcard_matcher.rs:96-243 | End-to-end delivery in the terms of the two requests alone: each field was left out, asked for as anything, asked for in a relation that holds, or sent as the same value; and the spatial filters pass. |
| Delivery.PointFieldBlocksDelivery | src/notification/wildcard_matcher.rs:164-243 | With an identifier named 'point', nothing is delivered to a subscriber that leaves it out, nor to anyone when neither header nor payload carries a polygon. |
| GenericDelivery.GenericPattern | src/notification/topic_builder.rs:44-65 | For any two generic requests, the subjects match exactly when they have equally many values and agree position by position in their own ascending key orders; the backend lets such a match through exactly when there are any parameters. |
| GenericDelivery.KeysDecide | src/notification/topic_builder.rs:44-65 | For two fixed key sets, matching means agreement on the same keys, for all values, exactly when the sets are equal or differ in size. |
| GenericDelivery.OtherKeyDelivered | src/notification/topic_builder.rs:44-65 | Without a schema, a subscriber asking for a value under another key receives what was sent, although no key agrees. |
| GenericDelivery.GenericConstraintsBlock | src/notification/wildcard_matcher.rs:387-402 | Without a topic block the event type cannot be resolved, so no constraint ever holds. |
| GenericDelivery.EndToEndGeneric | src/notification/wildcard_matcher.rs:96-243 | End-to-end delivery for an event type without a topic block: same keys, agreement on each, no constraints, at least one parameter, and the spatial filters. |
| GenericDelivery.RequestedFilterBlocks | src/notification/topic_builder.rs:44-65 | Without a topic block, a requested point or polygon that is no identifier counts as one more value, and nothing is ever delivered. |
| GenericDelivery.RequestedPolygonIsItself | src/notification/wildcard_matcher.rs:96-243 | Without a topic block, a requested polygon finds exactly the notifications with the very same ring, if the other fields agree and the polygon-polygon test accepts it against itself. |
| GenericDelivery.EndToEndSchemaless | src/notification/processor.rs:341-381 | End-to-end delivery for an event type without a schema: at least one parameter, agreement position by position, and the spatial filters. |
| GenericDelivery.SchemalessSpatial | src/notification/wildcard_matcher.rs:164-243 | What an event type without a schema delivers: agreement by position, a payload polygon around a requested point, and nothing to whoever asks for a polygon. |
| Audience.DeliveredSharesBase | src/notification/processor.rs:67-135 | Whoever receives a notification subscribed under its topic base, with or without schemas. |
| Audience.NoCrossDelivery | src/notification/processor.rs:67-135 | Between two configured event types nothing is delivered, with or without topic blocks. |
| Audience.OnlyBaseName | src/routes/streaming.rs:158-170 | A subscriber under another name that receives a configured event type has no schema, bears the name of its topic base, and unknown types are allowed. |
| Audience.BaseNameReceives | src/routes/streaming.rs:158-170 | If that name is free and unknown types are allowed, a request for as many arbitrary values as the topic has receives every notification. |
| Audience.OwnSubscribersOnly | src/routes/streaming.rs:158-170 | Only subscribers of the event type itself can receive it, exactly when unknown types are refused or its topic base is the name of a configured type. |
| Audience.BaseNameDelivery | src/notification/wildcard_matcher.rs:96-243 | What a subscriber under the base name receives: agreement position by position with the topic order, and the spatial filters of its own request. |
| Audience.BaseNameSpatial | src/notification/wildcard_matcher.rs:404-437 | The same for stored geometry, with the payload's polygon for clouds and the boxes. |
| Audience.PointOfCloud | src/notification/wildcard_matcher.rs:404-437 | A point asked of stored clouds under a free base name: delivered exactly when the payload's polygon holds the point and the cloud's box does too. |
| EcpdsClient.MergeStrict | aviso-ecpds/src/client.rs:339-365 | Succeeds exactly when there are servers and all answered, with the exact union; a failure has the highest-ranked outcome. |
| EcpdsClient.MergeAnySuccess | aviso-ecpds/src/client.rs:377-405 | Succeeds exactly when one server answered, with the exact union of the answers; the outcome is the highest-ranked failure. |
| EcpdsClient.MergeByPolicy | aviso-ecpds/src/client.rs:284-330 | The configured policy decides; no server at all is an unreachable service. |
| EcpdsClient.PermutedAnswers | aviso-ecpds/src/client.rs:339-405 | A permutation of the server results holds the same results. |
| EcpdsClient.MergeIgnoresOrder | aviso-ecpds/src/client.rs:53-70 | Neither order nor repetition of the results changes what either policy returns. |
| EcpdsClient.StrictImpliesAny | aviso-ecpds/src/client.rs:339-405 | When the strict policy succeeds, the lenient one returns the same set with the clean outcome. |
| EcpdsClient.DegradedIsVisible | aviso-ecpds/src/client.rs:367-405 | The lenient outcome is clean exactly when every server answered. |
| EcpdsClient.MergedWasAnswered | aviso-ecpds/src/client.rs:284-405 | Under either policy, a merged list holds exactly what some server answered. |
| EcpdsClient.SeverityDecides | aviso-ecpds/src/client.rs:53-71 | Both policies report the first kind of one fixed list, refused credentials first and unreachable servers last, that some server failed with. |
| EcpdsClient.CredentialsBeforeOutage | aviso-ecpds/src/client.rs:179-196 | The reported outcome by what the servers replied: 401 before 403, other 4xx, an unreadable list and other statuses, and unreachable exactly when no failed server had replied. |
| EcpdsCache.CloneError | aviso-ecpds/src/cache.rs:193-224 | A copied error keeps its fetch outcome and deny reason, and no other error turns into a denial. |
| EcpdsCache.StepKeeps | aviso-ecpds/src/cache.rs:108-159 | Every step keeps the invariant of flights, slots, waiters and provenance. |
| EcpdsCache.RunKeeps | aviso-ecpds/src/cache.rs:108-159 | So does every run, whatever the interleaving. |
| EcpdsCache.SingleFlight | aviso-ecpds/src/cache.rs:57-66 | At most one fetch per user is in flight. |
| EcpdsFetches.FetchesBounded | aviso-ecpds/src/cache.rs:57-72 | Over every run, the successful fetches of a user, with the one under way, are at most one more than the evictions of that user. |
| EcpdsFetches.BoundIsReached | aviso-ecpds/src/cache.rs:57-72 | For every number of evictions some run fetches once more than that, so the bound cannot be lowered. |
| EcpdsFetches.CachedEntry | aviso-ecpds/src/cache.rs:126-127 | A call that enters while the list is cached starts no fetch, is served that list and changes nothing else. |
| EcpdsFetches.JoiningEntry | aviso-ecpds/src/cache.rs:108-159 | A call that enters while another fetches for its user starts no fetch and waits for that one. |
| EcpdsFetches.CachedCallerIsCoalesced | aviso-ecpds/src/cache.rs:108-159 | Whatever happens afterwards, evictions included, such a call never fetches, can always finish, and finishes coalesced with the list that was cached. |
| EcpdsFetches.SecondMissIsServed | aviso-ecpds/src/cache.rs:126-127 | Of two concurrent misses of one user, the second is served what the first one fetched. |
| EcpdsCache.NeverPanics | aviso-ecpds/src/cache.rs:145-151 | The `expect` on the outcome slot never fails. |
| EcpdsCache.FetchReportedByItsCaller | aviso-ecpds/src/cache.rs:145-158 | A call reports a fetch exactly when its own closure ran, with the outcome of that fetch. |
| EcpdsCache.FlightShares | aviso-ecpds/src/cache.rs:57-71 | All callers of one flight are of one user and get the same list, or errors with the same outcome and deny reason. |
| EcpdsCache.EverythingWasFetched | aviso-ecpds/src/cache.rs:108-159 | Every cached or returned list came from a successful fetch for that user, every returned error from a failed one; no error is cached. |
| EcpdsCache.ErrorsAreNotCached | aviso-ecpds/src/cache.rs:68-72 | A failed fetch leaves the cache alone, and the next caller fetches again. |
| EcpdsCache.WaitersWakeUp | aviso-ecpds/src/cache.rs:61-66 | A waiter's leader is still fetching, or the waiter can finish. |
| EcpdsFetches.EveryCallFinishes | aviso-ecpds/src/cache.rs:108-159 | From every reachable state every call finishes in at most three further steps, its leader's included, whatever its fetch returns. |
| EcpdsCache.ServedRunKeeps | aviso-ecpds/src/cache.rs:108-159 | Over every interleaving in which fetches land with merged server answers, every landed fetch is the merge of what the servers replied to it for its own user. |
| EcpdsCache.AnswersComeFromServers | aviso-ecpds/src/cache.rs:108-159 | Over every such interleaving, each destination a call is given was answered by a server to a fetch for that call's user. |
| EcpdsCache.Accounting | aviso-ecpds/src/cache.rs:145-158 | Hits, coalesced and fetched calls add up to the finished calls; reported fetches and those about to be reported add up to the completed fetches; completed ones and those in flight to the started ones. |
| EcpdsCache.QuietAccounting | aviso-ecpds/src/cache.rs:145-158 | When nothing is in progress, calls that report a fetch are exactly the upstream fetches. |
| EcpdsCache.DestinationCache.TryGetOrFetch | aviso-ecpds/src/cache.rs:108-159 | One undisturbed call: its outcome, answer and new cache, which are those of a run of the machine. |
| EcpdsCache.AloneRun | aviso-ecpds/src/cache.rs:108-159 | From any state without a flight for the user, an undisturbed run gives that outcome, answer and cache. |
| EcpdsChecker.Checker.CheckAccess | aviso-ecpds/src/checker.rs:67-129 | One undisturbed check: allows exactly when the match value is in the user's list, with the exact decision, cache outcome and new cache; a missing match key never touches the cache. |
| EcpdsChecker.ConcurrentCheck | aviso-ecpds/src/checker.rs:67-129 | Over every interleaving, coalesced calls included, whoever is let in asks for a destination that a completed fetch for that very user returned. |
| Authorised.MatchKeyRequested | src/configuration/validation.rs:610-657 | An accepted subscriber request always carries the match key. |
| Authorised.AuthorisedTopic | aviso-ecpds/src/checker.rs:67-129 | If the check allowed the request and it asks for one value, every delivered topic carries that value, which is listed, at the match key's position, whatever else the list holds. |
| Authorised.AuthorisedNotification | aviso-ecpds/src/checker.rs:67-129 | Under the same guard, every delivered notification's match value is the requested one and in the list, with or without a topic block. |
| Authorised.ListDecides | aviso-ecpds/src/checker.rs:67-129 | Over all topics that may lie in the stream, whoever put them there: only listed values get through exactly when the request is for one value, or its own constraint allows listed values only, or nothing gets through. |
| Authorised.RequestedValueDecides | aviso-ecpds/src/checker.rs:107-118 | Over all such topics and without a constraint on the match key, a request that something gets through to is held to the list exactly when its value is not '*'. |
| Authorised.PlainRequestDecides | aviso-ecpds/src/checker.rs:107-118 | Over all such topics, a request without constraints and spatial filters needs no further condition: something always gets through. |
| Authorised.AnyAllowedValueDelivered | aviso-ecpds/src/checker.rs:107-118 | For a request of '*', replacing the match value of a delivered topic by any value its constraint allows gives another delivered topic, listed or not. |
| Listed.NotificationListDecides | aviso-ecpds/src/checker.rs:67-129 | Over the notifications that producers can send, with or without a topic block: all that reach an admitted subscriber are listed exactly when it asked for one value, or the match key's rule and its own constraint leave listed values only, or none can reach it. |
| Listed.AnySendableReaches | aviso-ecpds/src/checker.rs:107-118 | For a request of '*', a notification that reaches it can be sent again with any other value that the rule accepts and the constraint allows, and reaches it too. |
| Listed.EnumRuleListed | aviso-validators/src/constraints.rs:65-73 | For a choice, the rule and constraint leave listed values only exactly when each allowed value that the constraint lets through is listed in lower case. |
| Listed.IntRuleListed | aviso-validators/src/constraints.rs:44-56 | For an integer, exactly when each number in range that the constraint lets through is listed in decimal. |
| Listed.TextRuleNeverListed | aviso-ecpds/src/checker.rs:107-118 | For free text, never, so there the requested value alone decides. |
| Listed.ForeignSpelling | aviso-validators/src/constraints.rs:44-56 | A constraint to one integer lets through a topic spelling that no producer sends, so topics and notifications are judged differently. |
| Receivable.ReceivesExactly | src/notification/wildcard_matcher.rs:96-243 | A request can receive some notification of its event type exactly when each scalar field, on its own, has a sendable value that the request and its constraint take, some geometry passes the spatial filters, and, without a topic block, no filter or constraint comes on top. |
| Receivable.FieldsDecideList | aviso-ecpds/src/checker.rs:67-129 | The exact condition on the list with its last case spelled out field by field. |
| Authorised.ServedDelivery | aviso-ecpds/src/checker.rs:67-129 | From servers to delivery, over every interleaving: what is delivered to a request for one value that was let in carries a value that a server listed for that user. |
| Authorised.WildcardEntryOpensAll | aviso-ecpds/src/checker.rs:107-118 | With '*' in the list, a request for everything is allowed, and delivered everything exactly when the schema has no identifier named 'point'. |
| Recovery.BuildIdentifier | src/cloudevents/mod.rs:111-152 | Scalars become strings and stored geometry is put in as JSON; only unreadable stored geometry fails. |
| Recovery.Recover | src/cloudevents/mod.rs:58-103 | Reading an event resolves the base, parses the subject and adds the stored geometry. |
| Recovery.StoredGeometryReadsBack | src/cloudevents/mod.rs:121-146 | Re-reading stored geometry cannot fail and yields the producer's coordinates. |
| Recovery.IdentifierRecovered | src/cloudevents/mod.rs:111-152 | Reading an accepted notification succeeds and gives the canonical identifier less its empty and '*' scalars, hence all of it exactly when there are none. |
| Recovery.TopiclessNeverRecovered | src/cloudevents/mod.rs:223-242 | A notification without a topic block never reads back as an event: no event type is found for it. |
| Recovery.ResolversAgree | src/cloudevents/mod.rs:223-242 | The matcher and the event reader resolve every decodable topic to the same event type. |
| WildcardMatcher.StreamTakes | src/notification/topic_parser.rs:49-55 | A stream's subject pattern takes exactly the subjects that start with its base and go on. |
| Recovery.OneStream | src/notification/topic_parser.rs:49-55 | A notification's topic belongs to its own event type's stream and to no other. |
| SseMetrics.AppMetrics.TrackSseConnection | src/metrics.rs:362-406 | Opening a connection gives the new gauges and counts and keeps them equal to the counts over live guards. |
| SseMetrics.SseConnectionGuard.Drop | src/metrics.rs:458-487 | So does dropping a guard. |
| SseMetrics.OpenKeeps | src/metrics.rs:362-406 | Opening keeps every gauge equal to its count over the live guards. |
| SseMetrics.DropKeeps | src/metrics.rs:458-487 | Dropping keeps them too. |
| SseMetrics.LiveUserOnRecord | src/metrics.rs:474-477 | A live guard's user is always on record, so the saturating decrement never saturates. |
| SseMetrics.UniqueGaugeIsDistinctUsers | src/metrics.rs:384-394 | The unique-user gauge of a route is the number of distinct users with a live connection on it. |
| SseMetrics.RunAccounts | src/metrics.rs:362-487 | Over every run of opens and drops, gauges count live guards, stored counts are positive, and the counter counts every connection ever opened. |
| SseMetrics.IdleIsZero | src/metrics.rs:362-487 | When all guards are gone, every gauge is zero and no user is on record. |
| SseInterleaving.StepKeepsBetween | src/metrics.rs:362-487 | With gauge, counter and locked reference counts as separate steps: after each single step every series counts the connections that have taken its step. |
| SseInterleaving.RunKeepsBetween | src/metrics.rs:362-487 | So after every interleaving of openings and drops. |
| SseInterleaving.GaugesInProgress | src/metrics.rs:362-487 | After every interleaving the active gauge is ahead of the live connections by exactly those still opening, and the unique gauge counts the users of live or dropping connections. |
| SseInterleaving.DropFindsUser | src/metrics.rs:468-487 | A drop that reaches the lock finds its user on record, so the count never saturates, however operations interleave. |
| SseInterleaving.RestAccounts | src/metrics.rs:362-487 | When no operation is under way, the accounts are those of the live connections, and the counter is all connections ever opened. |
| SseInterleaving.EverythingDrains | src/metrics.rs:362-487 | Every interleaving can be run on to a state where all connections have ended, and there every gauge is zero and no user is on record. |
| SseInterleaving.AnyConnectionsLive | src/metrics.rs:362-487 | Any list of connections can be live together after some run. |
| Consistency.LawfulPlatformExists | src/notification/processor.rs:384-436 | What is assumed of the library calls that validate and print fields can be met. |
| Consistency.SettingsAccepted | src/configuration/validation.rs:50-122 | The validators accept four concrete schemas, one of them with a scalar identifier named 'point'. |
| Consistency.NewsDelivery | src/notification/wildcard_matcher.rs:258-371 | The scalar theorem applied, constraint included: delivered exactly when the destination is the one asked for or any was, and the level is at least the bound. |
| Consistency.NewsAuthorised | aviso-ecpds/src/checker.rs:67-129 | The access theorem applied: whoever was let in for one destination receives listed destinations only. |
| Consistency.FeedDelivery | src/notification/wildcard_matcher.rs:96-243 | The spatial theorem applied: with a square ring stored, a notification reaches exactly the subscribers that ask for its destination or any, and for a point inside the square. |
| Consistency.DrawingBlocked | src/notification/topic_builder.rs:44-65 | Under accepted settings without a topic block, a stored square is not delivered to a request for any point. |
| CloudConsistency.SwarmReaches | src/notification/wildcard_matcher.rs:164-243 | The spatial theorem applied to a stored cloud and a requested rectangle: delivered exactly when the place agrees and the rectangle touches the cloud. |
| CloudConsistency.PointBesideCloud | src/notification/wildcard_matcher.rs:404-437 | Under accepted settings, a payload polygon holds the requested point, and yet the notification is delivered only if the point is in the stored cloud's box. |
| Consistency.FeedRecovered | src/cloudevents/mod.rs:111-152 | The recovery theorem applied: the stored square and destination read back in full, unless the destination is '*'. |
| Consistency.SpotsBlocked | src/notification/wildcard_matcher.rs:164-243 | Under accepted settings with an identifier named 'point', two subscribers that agree with a notification, by leaving the field out and by sending the very same value, do not receive it. |
| Consistency.RemarkDelivery | src/notification/wildcard_matcher.rs:96-142 | The theorem without topic block applied: delivered exactly when the same destination or any is asked for. |

## Left out

- Rounding of doubles, NaN, infinities and the sign of zero: a double is an exact number here, and a printed one parses back exactly (the JSON library is assumed to do so too, though it is built without its `float_roundtrip` feature, Cargo.toml:69).
- Calendar dates: the date library decides which dates are valid and how they print.
- Lower-casing beyond ASCII: properties that mention letter case are proved for ASCII text.
- The polygon-polygon test of the `geo` crate, holes, and numerical robustness of its predicates.
- Cancelled or panicking fetches, time-to-live and eviction policy of the cache: eviction and expiry are one step that may remove any entry at any time.
- HTTP, URLs, credentials and body parsing towards ECPDS servers: a server's answer is a list of names or an error.
- The checks of ECPDS credentials, timeouts and server addresses, of stream roles and of plugin names: independent guards on single fields.
- The remaining stream-auth plugin and admin bypass of the routes: the access check is modelled from the point where it runs.
- Storage backends, replay batching, stream transport: a stored notification is a topic with optional headers and a payload text.
- Payload conversion and the event's envelope (id, source, type, time): direct copies.
- Error messages and logging: an error is its kind.
- Mutex poisoning, duration histograms and integer overflow of gauges.
- EcpdsCache.DestinationCache.TryGetOrFetch: one caller without interference; interleavings are the subject of the step machine.
- EcpdsChecker.Checker.CheckAccess: one check without interference; `ConcurrentCheck` covers every interleaving.
- SseMetrics.AppMetrics.TrackSseConnection: one caller without interference; interleavings are the subject of `SseInterleaving`.
- SseMetrics.SseConnectionGuard.Drop: the same.
- `SseInterleaving` takes the reference counts and the unique-user gauge as one step, as both move under the lock; a scrape in between is not modelled.
