/**
 * Constraints from the request's JSON to the verdict on what the producer sent: the relation that each
 * operator names, read off its operand, decides.
 */
module Asked {
  import opened Wrappers
  import opened Text
  import opened Json
  import opened Platform
  import opened Schema
  import opened Scalars
  import opened Constraints
  import opened Topics
  import opened Spatial
  import opened Validation
  import opened Processor
  import opened WildcardMatcher
  import opened Delivery
  import Shapes

  // ---- numbers ------------------------------------------------------------------------------

  /** A JSON number as an i64 or as a double. */
  predicate Denotes(value: Json, float: bool, v: int) {
    if float then Shapes.IsNumber(value, v)
    else MIN_I64 <= v <= MAX_I64 && value == Num(Integer(v))
  }

  predicate Compares(operator: string, v: int, bound: int) {
    || (operator == "eq" && v == bound)
    || (operator == "gt" && v > bound)
    || (operator == "gte" && v >= bound)
    || (operator == "lt" && v < bound)
    || (operator == "lte" && v <= bound)
  }

  const COMPARISONS := {"eq", "gt", "gte", "lt", "lte"}

  /** The number stands in the relation that the operator names to its operand. */
  ghost predicate Stands(operator: string, operand: Json, float: bool, v: int) {
    if operator == "in" then
      operand.Array? && exists i :: 0 <= i < |operand.items| && Denotes(operand.items[i], float, v)
    else if operator == "between" then
      operand.Array? && |operand.items| == 2
      && exists a, b :: Denotes(operand.items[0], float, a) && Denotes(operand.items[1], float, b) && a <= v <= b
    else
      exists bound :: Denotes(operand, float, bound) && Compares(operator, v, bound)
  }

  lemma OperandDenotes(value: Json, float: bool, v: int)
    ensures Operand(value, float) == Success(v) <==> Denotes(value, float, v)
  {
  }

  lemma OnlyDenotes(value: Json, float: bool, v: int, w: int)
    requires Denotes(value, float, v) && Denotes(value, float, w)
    ensures v == w
  {
  }

  lemma ComparisonMeans(operator: string, operand: Json, float: bool, v: int)
    requires operator != "in" && operator != "between" && NumericOf(operator, operand, float).Success?
    ensures operator in COMPARISONS
    ensures NumericMatches(NumericOf(operator, operand, float).value, v) <==> Stands(operator, operand, float, v)
  {
    var bound := Operand(operand, float).value;
    OperandDenotes(operand, float, bound);
    forall other | Denotes(operand, float, other) ensures other == bound {
      OnlyDenotes(operand, float, other, bound);
    }
    ComparisonForm(operator, operand, float, bound);
    OneOperator(operator);
    assert NumericMatches(NumericOf(operator, operand, float).value, v) <==> Compares(operator, v, bound);
  }

  lemma ComparisonForm(operator: string, operand: Json, float: bool, bound: int)
    requires operator != "in" && operator != "between" && NumericOf(operator, operand, float).Success?
    requires Operand(operand, float) == Success(bound)
    ensures operator in COMPARISONS
    ensures NumericOf(operator, operand, float).value ==
            if operator == "eq" then Eq(bound) else if operator == "gt" then Gt(bound)
            else if operator == "gte" then Gte(bound) else if operator == "lt" then Lt(bound) else Lte(bound)
  {
    var operators := ["eq", "gt", "gte", "lt", "lte"];
    assert operator in operators;
  }

  lemma OneOperator(operator: string)
    ensures |"eq"| == |"gt"| == |"lt"| == 2 && |"gte"| == |"lte"| == 3
    ensures "eq"[0] != "gt"[0] && "eq"[0] != "lt"[0] && "gt"[0] != "lt"[0] && "gte"[0] != "lte"[0]
  {
  }

  lemma InMeans(operand: Json, float: bool, v: int)
    requires NumericOf("in", operand, float).Success?
    ensures NumericMatches(NumericOf("in", operand, float).value, v) <==> Stands("in", operand, float, v)
  {
    var vs := Operands(operand.items, float).value;
    forall i | 0 <= i < |vs| ensures Denotes(operand.items[i], float, v) <==> vs[i] == v {
      OperandDenotes(operand.items[i], float, v);
    }
  }

  lemma BetweenMeans(operand: Json, float: bool, v: int)
    requires NumericOf("between", operand, float).Success?
    ensures NumericMatches(NumericOf("between", operand, float).value, v) <==> Stands("between", operand, float, v)
  {
    assert "between"[0] != "in"[0];
    var low, high := Operand(operand.items[0], float).value, Operand(operand.items[1], float).value;
    OperandDenotes(operand.items[0], float, low);
    OperandDenotes(operand.items[1], float, high);
    forall a, b | Denotes(operand.items[0], float, a) && Denotes(operand.items[1], float, b)
      ensures a == low && b == high
    {
      OnlyDenotes(operand.items[0], float, a, low);
      OnlyDenotes(operand.items[1], float, b, high);
    }
  }

  /** An accepted numeric constraint selects exactly the numbers in the relation that its operator names. */
  lemma OperatorMeans(value: Json, range: Option<(int, int)>, float: bool, v: int)
    requires ParseNumeric(value, range, float).Success?
    ensures value.Object? && |value.members| == 1
    ensures var (operator, operand) := value.members[0];
            NumericMatches(ParseNumeric(value, range, float).value, v) <==> Stands(operator, operand, float, v)
  {
    var (operator, operand) := value.members[0];
    if operator == "in" {
      InMeans(operand, float, v);
    } else if operator == "between" {
      BetweenMeans(operand, float, v);
    } else {
      ComparisonMeans(operator, operand, float, v);
    }
  }

  /** The laws of the order: each comparison has its complement, and 'between' is the meet of two. */
  lemma OrderLaws(operand: Json, low: int, high: int, float: bool, v: int)
    requires Denotes(operand, float, low)
    ensures Stands("gt", operand, float, v) <==> !Stands("lte", operand, float, v)
    ensures Stands("lt", operand, float, v) <==> !Stands("gte", operand, float, v)
    ensures Stands("eq", operand, float, v) <==> Stands("gte", operand, float, v) && Stands("lte", operand, float, v)
    ensures NumericMatches(Gt(low), v) <==> !NumericMatches(Lte(low), v)
    ensures NumericMatches(Lt(low), v) <==> !NumericMatches(Gte(low), v)
    ensures NumericMatches(Between(low, high), v) <==> NumericMatches(Gte(low), v) && NumericMatches(Lte(high), v)
  {
    OneOperator("eq");
    assert forall other :: Denotes(operand, float, other) ==> other == low;
    assert "in" != "gt" && "between"[0] != "gt"[0] && "between"[0] != "lt"[0] && "between"[0] != "eq"[0];
    assert "in"[0] != "gt"[0] && "in"[0] != "lt"[0] && "in"[0] != "eq"[0];
  }

  ghost predicate DenotesWithin(value: Json, float: bool, range: Option<(int, int)>) {
    exists v :: Denotes(value, float, v) && InBounds(range, v)
  }

  /** An operator that exists, with the operands it takes, all of them allowed values. */
  ghost predicate Askable(operator: string, operand: Json, float: bool, range: Option<(int, int)>) {
    if operator == "in" then
      operand.Array? && operand.items != []
      && forall i :: 0 <= i < |operand.items| ==> DenotesWithin(operand.items[i], float, range)
    else if operator == "between" then
      operand.Array? && |operand.items| == 2
      && exists a, b :: Denotes(operand.items[0], float, a) && Denotes(operand.items[1], float, b) && a <= b
                        && InBounds(range, a) && InBounds(range, b)
    else
      operator in COMPARISONS && DenotesWithin(operand, float, range)
  }

  lemma DenotesOperand(value: Json, float: bool, range: Option<(int, int)>)
    ensures DenotesWithin(value, float, range) <==>
            Operand(value, float).Success? && InBounds(range, Operand(value, float).value)
  {
    if Operand(value, float).Success? {
      OperandDenotes(value, float, Operand(value, float).value);
    }
    if v :| Denotes(value, float, v) && InBounds(range, v) {
      OperandDenotes(value, float, v);
    }
  }

  lemma {:induction false} OperandsFail(values: seq<Json>, float: bool)
    ensures Operands(values, float).Success? <==> forall i :: 0 <= i < |values| ==> Operand(values[i], float).Success?
  {
    if values != [] {
      OperandsFail(values[1..], float);
      if Operand(values[0], float).Success? && !Operands(values[1..], float).Success? {
        var i :| 0 <= i < |values[1..]| && !Operand(values[1..][i], float).Success?;
        assert values[i + 1] == values[1..][i];
      }
    }
  }

  lemma InAccepted(operand: Json, float: bool, range: Option<(int, int)>)
    ensures (NumericOf("in", operand, float).Success? && WithinRange(NumericOf("in", operand, float).value, range)) <==>
            Askable("in", operand, float, range)
  {
    if operand.Array? && operand.items != [] {
      OperandsFail(operand.items, float);
      forall i | 0 <= i < |operand.items|
        ensures DenotesWithin(operand.items[i], float, range) <==>
                Operand(operand.items[i], float).Success? && InBounds(range, Operand(operand.items[i], float).value)
      {
        DenotesOperand(operand.items[i], float, range);
      }
      if Operands(operand.items, float).Success? {
        var vs := Operands(operand.items, float).value;
        assert NumericOf("in", operand, float) == Success(In(vs)) && OperandsOf(In(vs)) == vs;
        assert forall i :: 0 <= i < |vs| ==> vs[i] in vs;
      }
    }
  }

  lemma BetweenAccepted(operand: Json, float: bool, range: Option<(int, int)>)
    ensures (NumericOf("between", operand, float).Success?
             && WithinRange(NumericOf("between", operand, float).value, range)) <==>
            Askable("between", operand, float, range)
  {
    assert "between"[0] != "in"[0];
    if operand.Array? && |operand.items| == 2 {
      var first, second := operand.items[0], operand.items[1];
      if Operand(first, float).Success? && Operand(second, float).Success? {
        var a, b := Operand(first, float).value, Operand(second, float).value;
        OperandDenotes(first, float, a);
        OperandDenotes(second, float, b);
        assert OperandsOf(Between(a, b)) == [a, b] && [a, b][0] in [a, b] && [a, b][1] in [a, b];
      }
      if a, b :| Denotes(first, float, a) && Denotes(second, float, b) {
        OperandDenotes(first, float, a);
        OperandDenotes(second, float, b);
      }
    }
  }

  lemma ComparisonAccepted(operator: string, operand: Json, float: bool, range: Option<(int, int)>)
    requires operator != "in" && operator != "between"
    ensures (NumericOf(operator, operand, float).Success?
             && WithinRange(NumericOf(operator, operand, float).value, range)) <==>
            Askable(operator, operand, float, range)
  {
    var operators := ["eq", "gt", "gte", "lt", "lte"];
    assert operators[0] == "eq" && operators[1] == "gt" && operators[2] == "gte";
    assert operators[3] == "lt" && operators[4] == "lte";
    assert forall i :: 0 <= i < 5 ==> operators[i] in COMPARISONS;
    assert operator in operators <==> operator in COMPARISONS;
    DenotesOperand(operand, float, range);
    if operator !in COMPARISONS {
      assert NumericOf(operator, operand, float) == Failure(UnknownOperator);
    } else if Operand(operand, float).Failure? {
      assert NumericOf(operator, operand, float).Failure?;
    } else {
      var bound := Operand(operand, float).value;
      assert [bound][0] == bound;
      ComparisonForm(operator, operand, float, bound);
      var c := NumericOf(operator, operand, float).value;
      assert OperandsOf(c) == [bound] && bound in OperandsOf(c);
      assert WithinRange(c, range) <==> InBounds(range, bound);
    }
  }

  /** A numeric constraint is accepted exactly when it is one operator with operands that it takes. */
  lemma OperatorAccepted(value: Json, range: Option<(int, int)>, float: bool)
    ensures ParseNumeric(value, range, float).Success? <==>
            value.Object? && |value.members| == 1 && Askable(value.members[0].0, value.members[0].1, float, range)
  {
    if value.Object? && |value.members| == 1 {
      var (operator, operand) := value.members[0];
      if operator == "in" {
        InAccepted(operand, float, range);
      } else if operator == "between" {
        BetweenAccepted(operand, float, range);
      } else {
        ComparisonAccepted(operator, operand, float, range);
      }
    }
  }

  // ---- choices ------------------------------------------------------------------------------

  /** The text is the asked one, or one of those asked, up to case. */
  predicate Chosen(p: Platform, operator: string, operand: Json, text: string) {
    if operator == "eq" then operand.Str? && p.lower(operand.text) == p.lower(text)
    else
      && operator == "in" && operand.Array?
      && exists i :: 0 <= i < |operand.items| && operand.items[i].Str?
                       && p.lower(operand.items[i].text) == p.lower(text)
  }

  /** An accepted choice selects exactly the texts it names, up to case. */
  lemma ChoiceMeans(p: Platform, value: Json, allowed: seq<string>, text: string)
    requires ParseEnum(p, value, allowed).Success?
    ensures value.Object? && |value.members| == 1
    ensures var (operator, operand) := value.members[0];
            EnumMatches(p, ParseEnum(p, value, allowed).value, text) <==> Chosen(p, operator, operand, text)
  {
    var (operator, operand) := value.members[0];
    if operator == "in" {
      assert "in"[0] != "eq"[0];
      EnumOperandsLowered(p, operand.items);
      var texts := EnumOperands(p, operand.items).value;
      if p.lower(text) in texts {
        var i :| 0 <= i < |texts| && texts[i] == p.lower(text);
      }
      if i :| 0 <= i < |operand.items| && operand.items[i].Str? && p.lower(operand.items[i].text) == p.lower(text) {
        assert texts[i] == p.lower(text);
      }
    }
  }

  predicate AllowedChoice(p: Platform, operand: Json, allowed: seq<string>) {
    operand.Str? && exists i :: 0 <= i < |allowed| && p.lower(allowed[i]) == p.lower(operand.text)
  }

  /** A choice is accepted exactly when it is one allowed text, or a list of them that is not empty. */
  lemma ChoiceAccepted(p: Platform, value: Json, allowed: seq<string>)
    ensures ParseEnum(p, value, allowed).Success? <==>
            && value.Object? && |value.members| == 1
            && var (operator, operand) := value.members[0];
               || (operator == "eq" && AllowedChoice(p, operand, allowed))
               || (operator == "in" && operand.Array? && operand.items != []
                   && forall i :: 0 <= i < |operand.items| ==> AllowedChoice(p, operand.items[i], allowed))
  {
    if value.Object? && |value.members| == 1 && value.members[0].0 == "in" {
      assert "in"[0] != "eq"[0];
      var operand := value.members[0].1;
      if operand.Array? {
        EnumOperandsLowered(p, operand.items);
        TextsAccepted(p, operand.items);
      }
    }
  }

  lemma {:induction false} TextsAccepted(p: Platform, values: seq<Json>)
    ensures EnumOperands(p, values).Success? <==> forall i :: 0 <= i < |values| ==> values[i].Str?
  {
    if values != [] {
      TextsAccepted(p, values[1..]);
      assert forall i :: 0 < i < |values| ==> values[i] == values[1..][i - 1];
    }
  }

  // ---- delivery -----------------------------------------------------------------------------

  /** The number that a producer's value is read as. */
  predicate SentNumber(p: Platform, rule: Rule, value: Json, v: int) {
    ScalarText(p, value).Success?
    && var text := ScalarText(p, value).value;
       if rule.FloatRule? then p.parseF64(text) == Some(v) else ParseSigned(text, MIN_I64, MAX_I64) == Some(v)
  }

  /** What the producer sent in a field stands in the relation that the subscriber's object asks for. */
  ghost predicate Meets(p: Platform, rule: Rule, sent: Json, asked: Json) {
    asked.Object? && |asked.members| == 1
    && var (operator, operand) := asked.members[0];
       match rule
       case IntRule(_, _) => exists v :: SentNumber(p, rule, sent, v) && Stands(operator, operand, false, v)
       case FloatRule(_, _) => exists v :: SentNumber(p, rule, sent, v) && Stands(operator, operand, true, v)
       case EnumRule(_, _) =>
         FieldText(p, sent, rule).Success? && !IsOmitted(FieldText(p, sent, rule).value)
         && Chosen(p, operator, operand, FieldText(p, sent, rule).value)
       case _ => false
  }

  lemma SentText(p: Platform, value: Json, rule: Rule)
    requires NotifyField(p, value, rule).Success? && !rule.IsSpatial()
    ensures FieldText(p, value, rule) == Success(NotifyField(p, value, rule).value.text)
    ensures ScalarText(p, value).Success?
  {
  }

  lemma IntMeets(p: Platform, rule: Rule, sent: Json, asked: Json)
    requires rule.IntRule? && NotifyField(p, sent, rule).Success? && FieldConstraint(p, asked, rule).Success?
    ensures var text := NotifyField(p, sent, rule).value.text;
            !IsOmitted(text)
              && (Satisfies(p, text, FieldConstraint(p, asked, rule).value) <==> Meets(p, rule, sent, asked))
  {
    SentText(p, sent, rule);
    var raw := ScalarText(p, sent).value;
    assert FieldText(p, sent, rule) == CanonicalInt(raw, rule.intRange);
    var v := ParseSigned(raw, MIN_I64, MAX_I64).value;
    var c := ParseNumeric(asked, rule.intRange, false).value;
    assert FieldConstraint(p, asked, rule) == Success(IntConstraint(c));
    IntConstraintMeans(p, raw, rule.intRange, c);
    OperatorMeans(asked, rule.intRange, false, v);
    assert SentNumber(p, rule, sent, v);
  }

  lemma FloatMeets(p: Platform, rule: Rule, sent: Json, asked: Json)
    requires Lawful(p)
    requires rule.FloatRule? && NotifyField(p, sent, rule).Success? && FieldConstraint(p, asked, rule).Success?
    ensures var text := NotifyField(p, sent, rule).value.text;
            !IsOmitted(text)
              && (Satisfies(p, text, FieldConstraint(p, asked, rule).value) <==> Meets(p, rule, sent, asked))
  {
    SentText(p, sent, rule);
    var raw := ScalarText(p, sent).value;
    assert FieldText(p, sent, rule) == CanonicalFloat(p, raw, rule.floatRange);
    var v := p.parseF64(raw).value;
    var c := ParseNumeric(asked, rule.floatRange, true).value;
    assert FieldConstraint(p, asked, rule) == Success(FloatConstraint(c));
    FloatConstraintMeans(p, raw, rule.floatRange, c);
    OperatorMeans(asked, rule.floatRange, true, v);
    assert SentNumber(p, rule, sent, v);
  }

  lemma EnumMeets(p: Platform, rule: Rule, sent: Json, asked: Json)
    requires rule.EnumRule? && NotifyField(p, sent, rule).Success? && FieldConstraint(p, asked, rule).Success?
    ensures var text := NotifyField(p, sent, rule).value.text;
            !IsOmitted(text) && Satisfies(p, text, FieldConstraint(p, asked, rule).value) <==>
              Meets(p, rule, sent, asked)
  {
    SentText(p, sent, rule);
    ChoiceMeans(p, asked, rule.values, NotifyField(p, sent, rule).value.text);
    assert FieldConstraint(p, asked, rule) == Success(EnumConstraint(ParseEnum(p, asked, rule.values).value));
  }

  /** Every object in a request is met by what the producer sent in that field. */
  ghost predicate AllMet(p: Platform, schema: EventSchema, notify: Request, stream: Request)
    requires schema.identifier.Keys <= notify.Keys
  {
    forall f :: f in schema.identifier && f in stream && stream[f].Object? ==>
      Meets(p, schema.identifier[f], notify[f], stream[f])
  }

  lemma FieldMet(p: Platform, schema: EventSchema, notify: Request, stream: Request, f: string)
    requires Lawful(p) && NotifyAccepts(p, schema, notify, true) && StreamAccepts(p, schema, stream)
    requires f in schema.identifier && f in stream && stream[f].Object?
    ensures f in StreamConstraints(p, schema, stream)
    ensures var given := NotifyParams(p, schema, notify)[f];
            !IsOmitted(given) && Satisfies(p, given, StreamConstraints(p, schema, stream)[f]) <==>
            Meets(p, schema.identifier[f], notify[f], stream[f])
  {
    var rule := schema.identifier[f];
    assert StreamField(p, stream, f, rule).Success? && NotifyField(p, notify[f], rule).Success?;
    assert StreamField(p, stream, f, rule) == Success(Constrained(FieldConstraint(p, stream[f], rule).value));
    if rule.IntRule? {
      IntMeets(p, rule, notify[f], stream[f]);
    } else if rule.FloatRule? {
      FloatMeets(p, rule, notify[f], stream[f]);
    } else {
      EnumMeets(p, rule, notify[f], stream[f]);
    }
  }

  lemma ConstraintIsAsked(p: Platform, schema: EventSchema, stream: Request, f: string)
    requires StreamAccepts(p, schema, stream) && f in StreamConstraints(p, schema, stream)
    ensures f in schema.identifier && f in stream && stream[f].Object?
  {
  }

  lemma ConstraintsAreMet(p: Platform, schema: EventSchema, notify: Request, stream: Request)
    requires Lawful(p) && NotifyAccepts(p, schema, notify, true) && StreamAccepts(p, schema, stream)
    ensures StreamConstraints(p, schema, stream).Keys <= NotifyParams(p, schema, notify).Keys
    ensures ConstraintsHold(p, StreamConstraints(p, schema, stream), NotifyParams(p, schema, notify)) <==>
            AllMet(p, schema, notify, stream)
  {
    var constraints := StreamConstraints(p, schema, stream);
    forall f | f in constraints ensures f in schema.identifier && f in stream && stream[f].Object? {
      ConstraintIsAsked(p, schema, stream, f);
    }
    forall f | f in schema.identifier && f in stream && stream[f].Object?
      ensures f in constraints
      ensures !IsOmitted(NotifyParams(p, schema, notify)[f])
              && Satisfies(p, NotifyParams(p, schema, notify)[f], constraints[f])
              <==> Meets(p, schema.identifier[f], notify[f], stream[f])
    {
      FieldMet(p, schema, notify, stream, f);
    }
  }

  /**
   * End-to-end delivery in the terms of the two requests: fields agree, what the producer sent stands in
   * every relation that the subscriber's objects ask for, and the spatial filters pass.
   */
  lemma EndToEndAsked(p: Platform, schemas: Schemas, eventType: string, notify: Request, payload: bool,
                      n: ProcessingResult, stream: Request, w: ProcessingResult, headers: Option<Headers>,
                      text: string)
    requires Lawful(p) && RoutingAccepted(schemas) && eventType in schemas && schemas[eventType].topic.Some?
    requires IsNotifyResult(p, eventType, schemas[eventType], notify, payload, n)
    requires IsStreamResult(p, eventType, schemas[eventType], stream, w)
    ensures schemas[eventType].identifier.Keys <= w.params.Keys && n.params.Keys == schemas[eventType].identifier.Keys
    ensures schemas[eventType].identifier.Keys <= notify.Keys
    ensures Delivered(p, schemas, n.topic, headers, text, w) <==>
            && FieldsAgree(schemas[eventType], w.params, n.params)
            && AllMet(p, schemas[eventType], notify, stream)
            && MatchesSpatialFilters(p, w.params, PrepareSpatialFilter(p, w.params), headers, text)
  {
    EndToEnd(p, schemas, eventType, notify, payload, n, stream, w, headers, text);
    ConstraintsAreMet(p, schemas[eventType], notify, stream);
  }
}
