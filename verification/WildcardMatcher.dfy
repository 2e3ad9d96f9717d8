/** Coarse backend patterns and precise filters for watch and replay (src/notification/wildcard_matcher.rs). */
module WildcardMatcher {
  import opened Wrappers
  import opened Text
  import opened Platform
  import opened Schema
  import opened Constraints
  import opened TopicCodec
  import opened Topics
  import opened Spatial
  import opened Processor
  import opened Validation

  // ---- the coarse pattern -------------------------------------------------------------------

  function FirstWildcard(pattern: seq<string>): nat {
    if pattern == [] || pattern[0] == "*" then 0 else 1 + FirstWildcard(pattern[1..])
  }

  lemma {:induction false} FirstWildcardIs(pattern: seq<string>)
    ensures FirstWildcard(pattern) <= |pattern|
    ensures FirstWildcard(pattern) < |pattern| ==> pattern[FirstWildcard(pattern)] == "*"
    ensures forall j :: 0 <= j < FirstWildcard(pattern) ==> pattern[j] != "*"
  {
    if pattern != [] && pattern[0] != "*" {
      FirstWildcardIs(pattern[1..]);
      forall j | 0 <= j < FirstWildcard(pattern) ensures pattern[j] != "*" {
        assert j > 0 ==> pattern[j] == pattern[1..][j - 1];
      }
    }
  }

  /** Backend pattern of a watch topic that decodes to `pattern`. */
  function CoarsePattern(watchTopic: string, pattern: seq<string>): string
    requires pattern != []
  {
    var pos := FirstWildcard(pattern);
    if pos < |pattern| then
      if pos > 1 then EncodeSubject(pattern[..pos]) + ".>" else EncodedToken(pattern[0]) + ".>"
    else if |pattern| > 1 then EncodeSubject(pattern[..|pattern| - 1]) + ".>"
    else watchTopic + ".>"
  }

  function AnalyzeWatchPattern(watchTopic: string): Result<(string, seq<string>), DecodeError> {
    var pattern :- DecodeSubject(watchTopic);
    if pattern == [] then Failure(EmptySubject) else Success((CoarsePattern(watchTopic, pattern), pattern))
  }

  /** Subject matching of the NATS server: '*' is one token, a final '>' is one token or more. */
  predicate NatsTokensMatch(pattern: seq<string>, subject: seq<string>) {
    if pattern == [] then subject == []
    else if pattern == [">"] then subject != []
    else subject != [] && (pattern[0] == "*" || pattern[0] == subject[0]) && NatsTokensMatch(pattern[1..], subject[1..])
  }

  predicate NatsMatches(pattern: string, subject: string) {
    NatsTokensMatch(Split(pattern, SEPARATOR), Split(subject, SEPARATOR))
  }

  /** Position by position, a token of the pattern is '*' or the subject's token. */
  predicate TokenwiseMatch(pattern: seq<string>, subject: seq<string>)
    requires |pattern| <= |subject|
  {
    forall i :: 0 <= i < |pattern| ==> pattern[i] == "*" || pattern[i] == subject[i]
  }

  /** A final '>' takes what is left, at least one token; without it the lengths are equal. */
  lemma {:induction false} NatsMeans(pattern: seq<string>, subject: seq<string>)
    ensures NatsTokensMatch(pattern, subject) <==>
            if pattern != [] && pattern[|pattern| - 1] == ">" then
              |subject| >= |pattern| && TokenwiseMatch(pattern[..|pattern| - 1], subject)
            else |subject| == |pattern| && TokenwiseMatch(pattern, subject)
  {
    if pattern == [] || subject == [] {
    } else if |pattern| == 1 {
      assert pattern == [pattern[0]];
    } else {
      NatsMeans(pattern[1..], subject[1..]);
      var tail, last := pattern[1..], |pattern| - 1;
      assert tail[|tail| - 1] == pattern[last];
      if pattern[last] == ">" {
        if |subject| >= |pattern| {
          HeadAndTailMatch(pattern[..last], subject);
          assert pattern[..last][1..] == tail[..last - 1];
        }
      } else if |subject| == |pattern| {
        HeadAndTailMatch(pattern, subject);
      }
    }
  }

  lemma HeadAndTailMatch(pattern: seq<string>, subject: seq<string>)
    requires 1 <= |pattern| <= |subject|
    ensures TokenwiseMatch(pattern, subject) <==>
            (pattern[0] == "*" || pattern[0] == subject[0]) && TokenwiseMatch(pattern[1..], subject[1..])
  {
    assert forall i :: 0 < i < |pattern| ==> pattern[i] == pattern[1..][i - 1] && subject[i] == subject[1..][i - 1];
  }

  // ---- the precise pattern ------------------------------------------------------------------

  /** Position by position, the pattern is a wildcard or names the part. */
  predicate PartsMatch(parts: seq<string>, pattern: seq<string>) {
    |parts| == |pattern| && forall i :: 0 <= i < |parts| ==> pattern[i] == "*" || pattern[i] == parts[i]
  }

  predicate MatchesWatchPattern(topic: string, pattern: seq<string>) {
    match DecodeSubject(topic)
    case Success(parts) => PartsMatch(parts, pattern)
    case Failure(_) => false
  }

  // ---- the coarse pattern loses nothing -----------------------------------------------------

  /** No topic built from parts is lost: what the precise pattern accepts, the backend pattern lets through. */
  ghost predicate Lossless(pattern: seq<string>)
    requires pattern != []
  {
    forall parts :: parts != [] && PartsMatch(parts, pattern) ==>
      NatsMatches(CoarsePattern(EncodeSubject(pattern), pattern), EncodeSubject(parts))
  }

  lemma {:induction false} LiteralPrefixMatches(prefix: seq<string>, subject: seq<string>)
    requires |prefix| < |subject| && forall i :: 0 <= i < |prefix| ==> prefix[i] == subject[i] && prefix[i] != ">"
    ensures NatsTokensMatch(prefix + [">"], subject)
  {
    if prefix != [] {
      assert (prefix + [">"])[1..] == prefix[1..] + [">"];
      LiteralPrefixMatches(prefix[1..], subject[1..]);
    } else {
      assert prefix + [">"] == [">"];
    }
  }

  lemma {:induction false} TailNeedsMore(prefix: seq<string>, subject: seq<string>)
    requires forall i :: 0 <= i < |prefix| ==> prefix[i] != ">"
    requires NatsTokensMatch(prefix + [">"], subject)
    ensures |subject| > |prefix| && forall i :: 0 <= i < |prefix| ==> prefix[i] == "*" || prefix[i] == subject[i]
  {
    if prefix != [] {
      assert (prefix + [">"])[1..] == prefix[1..] + [">"];
      TailNeedsMore(prefix[1..], subject[1..]);
    } else {
      assert prefix + [">"] == [">"];
    }
  }

  /** The literal parts that a coarse pattern keeps in front of its final '>'. */
  function CoarsePrefix(pattern: seq<string>): (prefix: seq<string>)
    requires pattern != []
    ensures 0 < |prefix| <= |pattern| && prefix == pattern[..|prefix|]
  {
    var pos := FirstWildcard(pattern);
    if pos < |pattern| then (if pos > 1 then pattern[..pos] else pattern[..1])
    else if |pattern| > 1 then pattern[..|pattern| - 1]
    else pattern
  }

  /** A coarse pattern is literal tokens, none of them a subject wildcard, and a final '>'. */
  lemma CoarseTokens(pattern: seq<string>)
    requires pattern != []
    ensures Split(CoarsePattern(EncodeSubject(pattern), pattern), SEPARATOR)
            == EncodedParts(CoarsePrefix(pattern)) + [">"]
    ensures forall t :: t in EncodedParts(CoarsePrefix(pattern)) ==> '*' !in t && '>' !in t && SEPARATOR !in t
  {
    var prefix := CoarsePrefix(pattern);
    var head := EncodeSubject(prefix);
    assert pattern[..1] == [pattern[0]];
    assert EncodeSubject([pattern[0]]) == EncodedToken(pattern[0]);
    assert ".>" == [SEPARATOR] + ">";
    assert CoarsePattern(EncodeSubject(pattern), pattern) == head + [SEPARATOR] + ">";
    SplitAppend(head, ">", SEPARATOR);
    SplitEncodedSubject(prefix);
    forall i | 0 <= i < |prefix|
      ensures '*' !in EncodedParts(prefix)[i] && '>' !in EncodedParts(prefix)[i]
              && SEPARATOR !in EncodedParts(prefix)[i] {
      EncodedTokenIsLiteral(prefix[i]);
    }
  }

  /** The coarse pattern is lossless exactly for patterns of two parts or more whose base is no wildcard. */
  lemma CoarseLossless(pattern: seq<string>)
    requires pattern != []
    ensures Lossless(pattern) <==> |pattern| >= 2 && pattern[0] != "*"
  {
    if |pattern| >= 2 && pattern[0] != "*" {
      forall parts | parts != [] && PartsMatch(parts, pattern)
        ensures NatsMatches(CoarsePattern(EncodeSubject(pattern), pattern), EncodeSubject(parts))
      {
        CoarseAccepts(pattern, parts);
      }
    } else {
      var parts := LostTopic(pattern);
    }
  }

  lemma CoarseAccepts(pattern: seq<string>, parts: seq<string>)
    requires |pattern| >= 2 && pattern[0] != "*" && PartsMatch(parts, pattern)
    ensures NatsMatches(CoarsePattern(EncodeSubject(pattern), pattern), EncodeSubject(parts))
  {
    CoarseTokens(pattern);
    SplitEncodedSubject(parts);
    FirstWildcardIs(pattern);
    var prefix := EncodedParts(CoarsePrefix(pattern));
    assert |prefix| < |pattern|;
    forall i | 0 <= i < |prefix| ensures prefix[i] == EncodedParts(parts)[i] && prefix[i] != ">" {
      assert CoarsePrefix(pattern)[i] == pattern[i] != "*";
      assert prefix[i] in prefix;
    }
    LiteralPrefixMatches(prefix, EncodedParts(parts));
  }

  /** Otherwise a matching topic is lost: a lone base has no tail, and a wildcard base is sent as its literal escape. */
  lemma LostTopic(pattern: seq<string>) returns (parts: seq<string>)
    requires pattern != [] && (|pattern| == 1 || pattern[0] == "*")
    ensures parts != [] && PartsMatch(parts, pattern)
    ensures !NatsMatches(CoarsePattern(EncodeSubject(pattern), pattern), EncodeSubject(parts))
  {
    parts := if pattern[0] == "*" then ["a"] + pattern[1..] else pattern;
    CoarseTokens(pattern);
    SplitEncodedSubject(parts);
    var prefix := EncodedParts(CoarsePrefix(pattern));
    forall i | 0 <= i < |prefix| ensures prefix[i] != ">" && prefix[i] != "*" {
      assert prefix[i] in prefix;
    }
    if NatsTokensMatch(prefix + [">"], EncodedParts(parts)) {
      TailNeedsMore(prefix, EncodedParts(parts));
      if pattern[0] == "*" {
        EncodedWildcard();
      }
      assert false;
    }
  }

  lemma EncodedWildcard()
    ensures EncodedToken("*") == "%2A" && EncodedToken("a") == "a"
  {
    EscapeForms();
    Sequences.FlatMapOne(Escape, '*');
    Sequences.FlatMapOne(Escape, 'a');
  }

  /** The topic that `pattern` accepts with one value at every wildcard. */
  function Filled(pattern: seq<string>, value: string): (parts: seq<string>)
    ensures PartsMatch(parts, pattern)
    ensures forall i :: 0 <= i < |pattern| && pattern[i] == "*" ==> parts[i] == value
  {
    seq(|pattern|, i requires 0 <= i < |pattern| => if pattern[i] == "*" then value else pattern[i])
  }

  /** Literal parts and a tail that let every accepted topic through. */
  ghost predicate LetsThrough(prefix: seq<string>, pattern: seq<string>) {
    forall parts :: parts != [] && PartsMatch(parts, pattern) ==>
                      NatsTokensMatch(EncodedParts(prefix) + [">"], EncodedParts(parts))
  }

  lemma PrefixOfEach(prefix: seq<string>, pattern: seq<string>, parts: seq<string>)
    requires LetsThrough(prefix, pattern) && parts != [] && PartsMatch(parts, pattern)
    ensures |prefix| < |parts| && prefix == parts[..|prefix|]
  {
    var wires := EncodedParts(prefix);
    forall i | 0 <= i < |wires| ensures wires[i] != ">" && wires[i] != "*" {
      EncodedTokenIsLiteral(prefix[i]);
      assert '>' in ">" && '*' in "*";
    }
    TailNeedsMore(wires, EncodedParts(parts));
    forall i | 0 <= i < |prefix| ensures prefix[i] == parts[i] {
      TokenRoundTrip(prefix[i]);
      TokenRoundTrip(parts[i]);
    }
  }

  /** Among the literal prefixes that lose nothing, the coarse pattern keeps the longest. */
  lemma CoarseTightest(pattern: seq<string>, prefix: seq<string>)
    requires |pattern| >= 2 && pattern[0] != "*"
    ensures LetsThrough(prefix, pattern) <==> prefix <= CoarsePrefix(pattern)
  {
    FirstWildcardIs(pattern);
    if LetsThrough(prefix, pattern) {
      PrefixOfEach(prefix, pattern, Filled(pattern, "a"));
      PrefixOfEach(prefix, pattern, Filled(pattern, "b"));
      forall i | 0 <= i < |prefix| ensures pattern[i] == prefix[i] != "*" {
        assert prefix[i] == Filled(pattern, "a")[i] == Filled(pattern, "b")[i];
      }
    }
    if prefix <= CoarsePrefix(pattern) {
      forall parts | parts != [] && PartsMatch(parts, pattern)
        ensures NatsTokensMatch(EncodedParts(prefix) + [">"], EncodedParts(parts))
      {
        ShorterPrefixAccepts(prefix, pattern, parts);
      }
    }
  }

  lemma ShorterPrefixAccepts(prefix: seq<string>, pattern: seq<string>, parts: seq<string>)
    requires |pattern| >= 2 && pattern[0] != "*" && prefix <= CoarsePrefix(pattern) && PartsMatch(parts, pattern)
    ensures NatsTokensMatch(EncodedParts(prefix) + [">"], EncodedParts(parts))
  {
    FirstWildcardIs(pattern);
    var wires := EncodedParts(prefix);
    forall i | 0 <= i < |wires| ensures wires[i] == EncodedParts(parts)[i] && wires[i] != ">" {
      assert prefix[i] == CoarsePrefix(pattern)[i] == pattern[i] != "*";
      EncodedTokenIsLiteral(prefix[i]);
      assert '>' in ">";
    }
    LiteralPrefixMatches(wires, EncodedParts(parts));
  }

  // ---- streams ------------------------------------------------------------------------------

  /** A valid base needs no escaping. */
  lemma {:induction false} LiteralBase(base: string)
    requires forall i :: 0 <= i < |base| ==> IsAsciiAlphanumeric(base[i]) || base[i] == '_' || base[i] == '-'
    ensures EncodedToken(base) == base
  {
    if base != [] {
      LiteralBase(base[1..]);
      assert Escape(base[0]) == [base[0]];
      assert base == [base[0]] + base[1..];
    }
  }

  /** A stream takes a subject exactly when the subject starts with its base and goes on. */
  lemma StreamTakes(base: string, parts: seq<string>)
    requires ValidBase(base) && parts != []
    ensures NatsMatches(Bind(base).value.subjectPattern, EncodeSubject(parts)) <==> |parts| >= 2 && parts[0] == base
  {
    LiteralBase(base);
    SplitEncodedSubject(parts);
    SplitAtSeparator(base, [], SEPARATOR);
    assert base + ".>" == base + [SEPARATOR] + ">";
    SplitAppend(base, ">", SEPARATOR);
    assert Split(base + ".>", SEPARATOR) == [base, ">"];
    var tokens := EncodedParts(parts);
    assert [base, ">"][1..] == [">"];
    assert NatsTokensMatch([base, ">"], tokens) <==> tokens[0] == base && tokens[1..] != [];
    TokenRoundTrip(parts[0]);
    TokenRoundTrip(base);
  }

  // ---- identifier constraints ---------------------------------------------------------------

  /** `find_map` over the schema map: some event type whose topic has this base. */
  ghost predicate Resolves(schemas: Schemas, base: string, eventType: Option<string>) {
    if eventType.Some? then
      eventType.value in schemas && schemas[eventType.value].topic.Some?
        && schemas[eventType.value].topic.value.base == base
    else forall e :: e in schemas && schemas[e].topic.Some? ==> schemas[e].topic.value.base != base
  }

  /** The search over the schema map, in whatever order the map is walked. */
  method ResolveEventType(schemas: Schemas, base: string) returns (eventType: Option<string>)
    ensures Resolves(schemas, base, eventType)
  {
    var rest := schemas.Keys;
    while rest != {}
      invariant rest <= schemas.Keys
      invariant forall e :: e in schemas.Keys - rest && schemas[e].topic.Some? ==> schemas[e].topic.value.base != base
    {
      var e :| e in rest;
      rest := rest - {e};
      if schemas[e].topic.Some? && schemas[e].topic.value.base == base {
        return Some(e);
      }
    }
    eventType := None;
  }

  /** With accepted bases the search has one answer, so the two resolvers and every walk order agree. */
  lemma ResolutionUnique(schemas: Schemas, base: string, a: Option<string>, b: Option<string>)
    requires BasesAccepted(schemas) && Resolves(schemas, base, a) && Resolves(schemas, base, b)
    ensures a == b
  {
    if a.Some? && b.Some? {
      OneOwner(schemas, a.value, b.value);
    }
  }

  function PositionOf(order: seq<string>, key: string): nat {
    if order == [] || order[0] == key then 0 else 1 + PositionOf(order[1..], key)
  }

  /** It is the first position of the key, and it is inside exactly when the key occurs. */
  lemma {:induction false} FirstPosition(order: seq<string>, key: string)
    ensures PositionOf(order, key) < |order| <==> key in order
    ensures PositionOf(order, key) < |order| ==> order[PositionOf(order, key)] == key
    ensures PositionOf(order, key) <= |order|
    ensures forall j :: 0 <= j < PositionOf(order, key) ==> order[j] != key
  {
    if order != [] && order[0] != key {
      FirstPosition(order[1..], key);
      forall j | 0 <= j < PositionOf(order, key) ensures order[j] != key {
        assert j > 0 ==> order[j] == order[1..][j - 1];
      }
      assert order == [order[0]] + order[1..];
    }
  }

  /** One constraint on the token at its key's position. */
  predicate TokenSatisfies(p: Platform, parts: seq<string>, order: seq<string>, field: string, c: Constraint) {
    var i := PositionOf(order, field);
    i < |order| && i + 1 < |parts| && !IsOmitted(parts[i + 1]) && Satisfies(p, parts[i + 1], c)
  }

  /** The direct lookup. None stands for a missing prerequisite, on which the caller falls back. */
  function FastPath(p: Platform, parts: seq<string>, eventType: string, constraints: ConstraintMap,
                    schemas: Schemas): Option<bool>
  {
    if eventType !in schemas || schemas[eventType].topic.None? then None
    else
      var topic := schemas[eventType].topic.value;
      if parts == [] || parts[0] != topic.base then Some(false)
      else Some(forall f :: f in constraints ==> TokenSatisfies(p, parts, topic.keyOrder, f, constraints[f]))
  }

  /** The fallback, which rebuilds the identifier map first. */
  function SlowPath(p: Platform, topic: string, schema: EventSchema, constraints: ConstraintMap): bool {
    match ParsedTopic(topic, schema)
    case Failure(_) => false
    case Success(identifier) =>
      forall f :: f in constraints ==> f in identifier && Satisfies(p, identifier[f], constraints[f])
  }

  lemma {:induction false} FieldOfKey(order: seq<string>, parts: seq<string>, field: string, n: nat)
    requires n <= |order| && NoDuplicates(order)
    ensures var i := PositionOf(order, field);
            field in Fields(order, parts, n) <==> i < n && i + 1 < |parts| && !IsOmitted(parts[i + 1])
    ensures field in Fields(order, parts, n) ==> Fields(order, parts, n)[field] == parts[PositionOf(order, field) + 1]
  {
    FirstPosition(order, field);
    if n > 0 {
      FieldOfKey(order, parts, field, n - 1);
      if order[n - 1] == field {
        assert PositionOf(order, field) == n - 1;
      }
    }
  }

  /** The direct lookup and the rebuilt map give one verdict on every topic when no key repeats. */
  lemma FastPathRefines(p: Platform, topic: string, eventType: string, constraints: ConstraintMap, schemas: Schemas)
    requires eventType in schemas && schemas[eventType].topic.Some?
             && NoDuplicates(schemas[eventType].topic.value.keyOrder)
    requires DecodeSubject(topic).Success?
    ensures FastPath(p, DecodeSubject(topic).value, eventType, constraints, schemas)
            == Some(SlowPath(p, topic, schemas[eventType], constraints))
  {
    var schema, parts := schemas[eventType], DecodeSubject(topic).value;
    var order := schema.topic.value.keyOrder;
    if parts != [] && parts[0] == schema.topic.value.base {
      forall f | f in constraints
        ensures TokenSatisfies(p, parts, order, f, constraints[f]) <==>
                (f in Fields(order, parts, |order|) && Satisfies(p, Fields(order, parts, |order|)[f], constraints[f]))
      {
        FieldOfKey(order, parts, f, |order|);
      }
    }
  }

  ghost predicate PathsAgree(p: Platform, eventType: string, schemas: Schemas)
    requires eventType in schemas
  {
    forall topic, constraints :: DecodeSubject(topic).Success? ==>
      FastPath(p, DecodeSubject(topic).value, eventType, constraints, schemas)
      == Some(SlowPath(p, topic, schemas[eventType], constraints))
  }

  /** The paths agree on every topic and every constraint exactly when the key order has no repeats. */
  lemma PathsAgreeExactly(p: Platform, eventType: string, schemas: Schemas)
    requires Lawful(p) && eventType in schemas && schemas[eventType].topic.Some?
    ensures PathsAgree(p, eventType, schemas) <==> NoDuplicates(schemas[eventType].topic.value.keyOrder)
  {
    var schema := schemas[eventType];
    var order := schema.topic.value.keyOrder;
    if NoDuplicates(order) {
      forall topic, constraints: ConstraintMap | DecodeSubject(topic).Success?
        ensures FastPath(p, DecodeSubject(topic).value, eventType, constraints, schemas)
                == Some(SlowPath(p, topic, schema, constraints))
      {
        FastPathRefines(p, topic, eventType, constraints, schemas);
      }
    } else {
      var topic, constraints := RepeatedKeyDiverges(p, eventType, schemas);
    }
  }

  lemma {:induction false} LastValueWins(order: seq<string>, parts: seq<string>, j: nat, n: nat)
    requires j < n <= |order| && |parts| == |order| + 1
    requires forall m :: j < m < |parts| ==> parts[m] == "b"
    ensures order[j] in Fields(order, parts, n) && Fields(order, parts, n)[order[j]] == "b"
  {
    assert parts[n] == "b" && !IsOmitted(parts[n]);
    if n > j + 1 {
      LastValueWins(order, parts, j, n - 1);
    }
  }

  lemma LowerLetters(p: Platform)
    requires Lawful(p)
    ensures p.lower("a") == "a" && p.lower("b") == "b"
  {
    assert IsAscii("a") && IsAscii("b");
    assert AsciiLower("a") == "a" && AsciiLower("b") == "b";
  }

  lemma LettersDiffer(p: Platform)
    requires Lawful(p)
    ensures Satisfies(p, "a", EnumConstraint(EnumEq("a"))) && !Satisfies(p, "b", EnumConstraint(EnumEq("a")))
  {
    LowerLetters(p);
  }

  /** With a repeated key, the lookup reads its first position and the rebuilt map keeps its last. */
  lemma RepeatedKeyDiverges(p: Platform, eventType: string, schemas: Schemas)
    returns (topic: string, constraints: ConstraintMap)
    requires Lawful(p) && eventType in schemas && schemas[eventType].topic.Some?
    requires !NoDuplicates(schemas[eventType].topic.value.keyOrder)
    ensures DecodeSubject(topic).Success?
    ensures FastPath(p, DecodeSubject(topic).value, eventType, constraints, schemas) == Some(true)
    ensures !SlowPath(p, topic, schemas[eventType], constraints)
  {
    var schema := schemas[eventType];
    var order := schema.topic.value.keyOrder;
    var i, j :| 0 <= i < j < |order| && order[i] == order[j];
    var parts := DivergingParts(schema.topic.value.base, order, i, j);
    var c := EnumConstraint(EnumEq("a"));
    topic, constraints := EncodeSubject(parts), map[order[j] := c];
    SubjectRoundTrip(parts);
    LettersDiffer(p);
    FirstPosition(order, order[j]);
    assert TokenSatisfies(p, parts, order, order[j], c);
    OneConstraintFast(p, parts, eventType, order[j], c, schemas);
    LastValueWins(order, parts, j, |order|);
    OneConstraintSlow(p, parts, schema, order[j], c);
  }

  lemma OneConstraintFast(p: Platform, parts: seq<string>, eventType: string, key: string, c: Constraint,
                          schemas: Schemas)
    requires eventType in schemas && schemas[eventType].topic.Some?
    requires parts != [] && parts[0] == schemas[eventType].topic.value.base
    requires TokenSatisfies(p, parts, schemas[eventType].topic.value.keyOrder, key, c)
    ensures FastPath(p, parts, eventType, map[key := c], schemas) == Some(true)
  {
  }

  lemma OneConstraintSlow(p: Platform, parts: seq<string>, schema: EventSchema, key: string, c: Constraint)
    requires schema.topic.Some? && parts != [] && parts[0] == schema.topic.value.base
    requires var fields := Fields(schema.topic.value.keyOrder, parts, |schema.topic.value.keyOrder|);
             key in fields && !Satisfies(p, fields[key], c)
    ensures !SlowPath(p, EncodeSubject(parts), schema, map[key := c])
  {
    ParseEncoded(schema, parts);
    var constraints := map[key := c];
    assert key in constraints && constraints[key] == c;
  }

  lemma DivergingParts(base: string, order: seq<string>, i: nat, j: nat) returns (parts: seq<string>)
    requires i < j < |order| && order[i] == order[j]
    ensures |parts| == |order| + 1 && parts[0] == base
    ensures PositionOf(order, order[j]) < |order| && parts[PositionOf(order, order[j]) + 1] == "a"
    ensures forall m :: j < m < |parts| ==> parts[m] == "b"
  {
    var first := PositionOf(order, order[j]);
    FirstPosition(order, order[j]);
    assert first <= i;
    parts := [base] + seq(|order|, k => if k <= first then "a" else "b");
  }

  // ---- the whole filter ---------------------------------------------------------------------

  /** The verdict on a stored topic: resolve its event type, look up, fall back if that is not possible. */
  ghost predicate IsConstraintVerdict(p: Platform, schemas: Schemas, topic: string, constraints: ConstraintMap,
                                      verdict: bool)
  {
    match DecodeSubject(topic)
    case Failure(_) => verdict == false
    case Success(parts) =>
      parts != [] && exists e: Option<string> ::
        Resolves(schemas, parts[0], e) && verdict == ResolvedVerdict(p, schemas, topic, parts, e, constraints)
  }

  predicate ResolvedVerdict(p: Platform, schemas: Schemas, topic: string, parts: seq<string>, e: Option<string>,
                            constraints: ConstraintMap)
    requires e.Some? ==> e.value in schemas
  {
    e.Some? && match FastPath(p, parts, e.value, constraints, schemas)
               case Some(matched) => matched
               case None => SlowPath(p, topic, schemas[e.value], constraints)
  }

  method MatchesIdentifierConstraints(p: Platform, schemas: Schemas, topic: string, constraints: ConstraintMap)
    returns (verdict: bool)
    ensures IsConstraintVerdict(p, schemas, topic, constraints, verdict)
  {
    var decoded := DecodeSubject(topic);
    if decoded.Failure? {
      return false;
    }
    DecodedSubjectNonEmpty(topic);
    var e := ResolveEventType(schemas, decoded.value[0]);
    if e.None? {
      return false;
    }
    var fast := FastPath(p, decoded.value, e.value, constraints, schemas);
    if fast.Some? {
      return fast.value;
    }
    verdict := SlowPath(p, topic, schemas[e.value], constraints);
  }

  /** Whatever order the schema map is walked in, a topic has one verdict. */
  lemma ConstraintVerdictUnique(p: Platform, schemas: Schemas, topic: string, constraints: ConstraintMap, a: bool,
                                b: bool)
    requires BasesAccepted(schemas)
    requires IsConstraintVerdict(p, schemas, topic, constraints, a)
             && IsConstraintVerdict(p, schemas, topic, constraints, b)
    ensures a == b
  {
    if DecodeSubject(topic).Success? {
      var parts := DecodeSubject(topic).value;
      var e :| Resolves(schemas, parts[0], e) && a == ResolvedVerdict(p, schemas, topic, parts, e, constraints);
      var f :| Resolves(schemas, parts[0], f) && b == ResolvedVerdict(p, schemas, topic, parts, f, constraints);
      ResolutionUnique(schemas, parts[0], e, f);
    }
  }

  /** A resolved event type always has a topic, so the direct lookup always answers and the fallback is dead. */
  lemma FallbackUnreachable(p: Platform, schemas: Schemas, parts: seq<string>, base: string, e: Option<string>,
                            constraints: ConstraintMap)
    requires Resolves(schemas, base, e) && e.Some?
    ensures FastPath(p, parts, e.value, constraints, schemas).Some?
  {
  }

  ghost predicate PassesFilters(p: Platform, schemas: Schemas, topic: string, headers: Option<Headers>, payload: string,
                                w: ProcessingResult)
  {
    && (w.constraints != map[] ==> IsConstraintVerdict(p, schemas, topic, w.constraints, true))
    && MatchesSpatialFilters(p, w.params, PrepareSpatialFilter(p, w.params), headers, payload)
  }

  /** A stored notification reaches subscriber `w`: the backend lets it through and both application filters agree. */
  ghost predicate Delivered(p: Platform, schemas: Schemas, topic: string, headers: Option<Headers>, payload: string,
                            w: ProcessingResult)
  {
    match AnalyzeWatchPattern(w.topic)
    case Failure(_) => false
    case Success((coarse, pattern)) =>
      NatsMatches(coarse, topic) && MatchesWatchPattern(topic, pattern)
        && PassesFilters(p, schemas, topic, headers, payload, w)
  }

  lemma DecodedSubjectNonEmpty(topic: string)
    ensures DecodeSubject(topic).Success? ==> |DecodeSubject(topic).value| > 0
  {
  }
}
