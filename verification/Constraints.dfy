/** Parsing and evaluation of identifier constraints (aviso-validators/src/constraints.rs). */
module Constraints {
  import opened Wrappers
  import opened Text
  import opened Json
  import opened Platform
  import opened Scalars

  datatype ConstraintError =
    | Unsupported | NotObject | NotOneOperator | UnknownOperator | BadOperand | EmptyList | Inverted | OperandOutOfRange

  /** Integers and doubles share one form: both are compared exactly. */
  datatype Numeric =
    | Eq(v: int) | In(vs: seq<int>) | Gt(v: int) | Gte(v: int) | Lt(v: int) | Lte(v: int) | Between(min: int, max: int)

  datatype EnumMatch = EnumEq(text: string) | EnumIn(texts: seq<string>)

  datatype Constraint = IntConstraint(num: Numeric) | FloatConstraint(num: Numeric) | EnumConstraint(choice: EnumMatch)

  predicate NumericMatches(c: Numeric, value: int) {
    match c
    case Eq(v) => value == v
    case In(vs) => value in vs
    case Gt(v) => value > v
    case Gte(v) => value >= v
    case Lt(v) => value < v
    case Lte(v) => value <= v
    case Between(min, max) => value >= min && value <= max
  }

  predicate EnumMatches(p: Platform, c: EnumMatch, value: string) {
    var canonical := p.lower(value);
    match c
    case EnumEq(text) => canonical == text
    case EnumIn(texts) => canonical in texts
  }

  /** Whether a raw topic token satisfies a constraint. */
  predicate Satisfies(p: Platform, raw: string, c: Constraint) {
    match c
    case IntConstraint(num) => var v := ParseSigned(raw, MIN_I64, MAX_I64); v.Some? && NumericMatches(num, v.value)
    case FloatConstraint(num) => var v := p.parseF64(raw); v.Some? && NumericMatches(num, v.value)
    case EnumConstraint(choice) => EnumMatches(p, choice, raw)
  }

  // ---- parsing ------------------------------------------------------------------------------

  function IntOperand(value: Json): Result<int, ConstraintError> {
    if value.Num? && value.number.Integer? && MIN_I64 <= value.number.i <= MAX_I64 then Success(value.number.i)
    else Failure(BadOperand)
  }

  function FloatOperand(value: Json): Result<int, ConstraintError> {
    match value
    case Num(Integer(i)) => Success(Whole(i))
    case Num(Float(f)) => Success(f)
    case _ => Failure(BadOperand)
  }

  function Operand(value: Json, float: bool): Result<int, ConstraintError> {
    if float then FloatOperand(value) else IntOperand(value)
  }

  function Operands(values: seq<Json>, float: bool): (r: Result<seq<int>, ConstraintError>)
    ensures r.Success? ==> |r.value| == |values|
                           && forall i :: 0 <= i < |values| ==> Operand(values[i], float) == Success(r.value[i])
  {
    if values == [] then Success([])
    else
      var first :- Operand(values[0], float);
      var rest :- Operands(values[1..], float);
      Success([first] + rest)
  }

  function NumericOf(operator: string, operand: Json, float: bool): Result<Numeric, ConstraintError> {
    if operator == "in" then
      if !operand.Array? then Failure(BadOperand)
      else if operand.items == [] then Failure(EmptyList)
      else var vs :- Operands(operand.items, float); Success(In(vs))
    else if operator == "between" then
      if !operand.Array? || |operand.items| != 2 then Failure(BadOperand)
      else
        var min :- Operand(operand.items[0], float);
        var max :- Operand(operand.items[1], float);
        if min > max then Failure(Inverted) else Success(Between(min, max))
    else if operator in ["eq", "gt", "gte", "lt", "lte"] then
      var v :- Operand(operand, float);
      Success(if operator == "eq" then Eq(v) else if operator == "gt" then Gt(v) else if operator == "gte" then Gte(v)
              else if operator == "lt" then Lt(v) else Lte(v))
    else
      Failure(UnknownOperator)
  }

  function OperandsOf(c: Numeric): seq<int> {
    match c
    case In(vs) => vs
    case Between(min, max) => [min, max]
    case _ => [c.v]
  }

  predicate WithinRange(c: Numeric, range: Option<(int, int)>) {
    range.Some? ==> forall v :: v in OperandsOf(c) ==> range.value.0 <= v <= range.value.1
  }

  function ParseNumeric(value: Json, range: Option<(int, int)>, float: bool): Result<Numeric, ConstraintError> {
    if !value.Object? then Failure(NotObject)
    else if |value.members| != 1 then Failure(NotOneOperator)
    else
      var c :- NumericOf(value.members[0].0, value.members[0].1, float);
      if WithinRange(c, range) then Success(c) else Failure(OperandOutOfRange)
  }

  function EnumOperands(p: Platform, values: seq<Json>): Result<seq<string>, ConstraintError> {
    if values == [] then Success([])
    else if !values[0].Str? then Failure(BadOperand)
    else
      var rest :- EnumOperands(p, values[1..]);
      Success([p.lower(values[0].text)] + rest)
  }

  predicate AllowedEnum(p: Platform, text: string, allowed: seq<string>) {
    exists i :: 0 <= i < |allowed| && p.lower(allowed[i]) == text
  }

  function ParseEnum(p: Platform, value: Json, allowed: seq<string>): Result<EnumMatch, ConstraintError> {
    if !value.Object? then Failure(NotObject)
    else if |value.members| != 1 then Failure(NotOneOperator)
    else
      var (operator, operand) := value.members[0];
      if operator == "eq" then
        if !operand.Str? then Failure(BadOperand)
        else if !AllowedEnum(p, p.lower(operand.text), allowed) then Failure(OperandOutOfRange)
        else Success(EnumEq(p.lower(operand.text)))
      else if operator == "in" then
        if !operand.Array? then Failure(BadOperand)
        else if operand.items == [] then Failure(EmptyList)
        else
          var texts :- EnumOperands(p, operand.items);
          if forall i :: 0 <= i < |texts| ==> AllowedEnum(p, texts[i], allowed) then Success(EnumIn(texts))
          else Failure(OperandOutOfRange)
      else
        Failure(UnknownOperator)
  }

  // ---- what constraints mean on canonical values --------------------------------------------

  lemma SignedRoundTrip(v: int, min: int, max: int)
    requires min <= v <= max
    ensures ParseSigned(SignedDecimal(v), min, max) == Some(v)
  {
    var text := SignedDecimal(v);
    if v < 0 {
      DecimalValueOfDecimal(-v);
      assert text[1..] == Decimal(-v);
    } else {
      DecimalValueOfDecimal(v);
      assert IsDigit(text[0]);
    }
  }

  /**
   * A canonical integer is its own canonical form, and two accepted integers agree exactly when
   * they are one number.
   */
  lemma IntNormalForm(a: string, b: string, rangeA: Option<(int, int)>, rangeB: Option<(int, int)>)
    requires CanonicalInt(a, rangeA).Success? && CanonicalInt(b, rangeB).Success?
    ensures CanonicalInt(CanonicalInt(a, rangeA).value, rangeA) == CanonicalInt(a, rangeA)
    ensures CanonicalInt(a, rangeA) == CanonicalInt(b, rangeB) <==>
            ParseSigned(a, MIN_I64, MAX_I64) == ParseSigned(b, MIN_I64, MAX_I64)
  {
    SignedRoundTrip(ParseSigned(a, MIN_I64, MAX_I64).value, MIN_I64, MAX_I64);
    SignedRoundTrip(ParseSigned(b, MIN_I64, MAX_I64).value, MIN_I64, MAX_I64);
  }

  /** An integer constraint on the token of an accepted integer is that constraint on its number. */
  lemma IntConstraintMeans(p: Platform, value: string, range: Option<(int, int)>, c: Numeric)
    requires CanonicalInt(value, range).Success?
    ensures var text := CanonicalInt(value, range).value;
            text != "" && text != "*"
            && (Satisfies(p, text, IntConstraint(c)) <==> NumericMatches(c, ParseSigned(value, MIN_I64, MAX_I64).value))
  {
    var v := ParseSigned(value, MIN_I64, MAX_I64).value;
    SignedRoundTrip(v, MIN_I64, MAX_I64);
    assert IsDigit(SignedDecimal(v)[0]) || SignedDecimal(v)[0] == '-';
  }

  /** The same for a double, because printed doubles parse back exactly and are never a bare '*'. */
  lemma FloatConstraintMeans(p: Platform, value: string, range: Option<(F64, F64)>, c: Numeric)
    requires Lawful(p) && CanonicalFloat(p, value, range).Success?
    ensures var text := CanonicalFloat(p, value, range).value;
            text != "" && text != "*"
            && (Satisfies(p, text, FloatConstraint(c)) <==> NumericMatches(c, p.parseF64(value).value))
  {
    assert ReprintableNumber(p, p.parseF64(value).value);
  }

  /** Enumeration constraints do not see the case of the value they are given. */
  lemma EnumConstraintMeans(p: Platform, value: string, allowed: seq<string>, c: EnumMatch)
    requires Lawful(p) && IsAscii(value) && CanonicalEnum(p, value, allowed).Success?
    ensures Satisfies(p, CanonicalEnum(p, value, allowed).value, EnumConstraint(c)) <==> EnumMatches(p, c, value)
  {
    LowerTwice(value);
  }

  /** Asking for `{"eq": i}` is accepted when the plain value `i` is, and then selects the same tokens. */
  lemma EqIsPlainInt(p: Platform, i: int, range: Option<(int, int)>, given: string, givenRange: Option<(int, int)>)
    requires MIN_I64 <= i <= MAX_I64 && CanonicalInt(given, givenRange).Success?
    ensures var plain := CanonicalInt(SignedDecimal(i), range);
            var constraint := ParseNumeric(Object([("eq", Num(Integer(i)))]), range, false);
            (plain.Success? <==> constraint.Success?)
            && (plain.Success? ==> constraint.value == Eq(i)
                                   && (Satisfies(p, CanonicalInt(given, givenRange).value, IntConstraint(Eq(i))) <==>
                                       CanonicalInt(given, givenRange).value == plain.value))
  {
    SignedRoundTrip(i, MIN_I64, MAX_I64);
    SignedRoundTrip(ParseSigned(given, MIN_I64, MAX_I64).value, MIN_I64, MAX_I64);
    ParsedEq(i, range);
  }

  lemma ParsedEq(i: int, range: Option<(int, int)>)
    requires MIN_I64 <= i <= MAX_I64
    ensures ParseNumeric(Object([("eq", Num(Integer(i)))]), range, false)
            == if range.Some? && (i < range.value.0 || i > range.value.1) then Failure(OperandOutOfRange)
              else Success(Eq(i))
  {
    var operators := ["eq", "gt", "gte", "lt", "lte"];
    assert operators[0] == "eq" && "eq" in operators && "eq"[0] != "in"[0] && "eq"[0] != "between"[0];
    assert NumericOf("eq", Num(Integer(i)), false) == Success(Eq(i));
    var members := [("eq", Num(Integer(i)))];
    assert members[0] == ("eq", Num(Integer(i)));
    assert OperandsOf(Eq(i)) == [i] && i in [i];
  }

  /** Bounded operators that pass the range check select nothing outside the range. */
  lemma AcceptedStaysInRange(value: Json, range: (int, int), float: bool, v: int)
    requires ParseNumeric(value, Some(range), float).Success?
    requires var c := ParseNumeric(value, Some(range), float).value;
             (c.Eq? || c.In? || c.Between?) && NumericMatches(c, v)
    ensures range.0 <= v <= range.1
  {
    var c := ParseNumeric(value, Some(range), float).value;
    assert NumericOf(value.members[0].0, value.members[0].1, float) == Success(c) && WithinRange(c, Some(range));
    if c.Between? {
      assert OperandsOf(c)[0] == c.min && OperandsOf(c)[1] == c.max;
      assert c.min in OperandsOf(c) && c.max in OperandsOf(c);
    } else {
      assert c.Eq? ==> OperandsOf(c)[0] == v;
      assert v in OperandsOf(c);
    }
  }

  lemma {:induction false} EnumOperandsLowered(p: Platform, values: seq<Json>)
    ensures EnumOperands(p, values).Success? ==>
              |EnumOperands(p, values).value| == |values|
              && forall i :: 0 <= i < |values| ==>
                 values[i].Str? && EnumOperands(p, values).value[i] == p.lower(values[i].text)
  {
    if values != [] {
      EnumOperandsLowered(p, values[1..]);
    }
  }

  /**
   * An accepted enumeration constraint selects exactly the values whose lower-case form it lists,
   * all of them allowed.
   */
  lemma AcceptedEnumSelects(p: Platform, items: seq<Json>, allowed: seq<string>, value: string)
    requires ParseEnum(p, Object([("in", Array(items))]), allowed).Success?
    ensures var c := ParseEnum(p, Object([("in", Array(items))]), allowed).value;
            EnumMatches(p, c, value) <==>
              exists i :: 0 <= i < |items| && items[i] in items && items[i].Str?
                && p.lower(items[i].text) == p.lower(value)
    ensures EnumMatches(p, ParseEnum(p, Object([("in", Array(items))]), allowed).value, value) ==>
            CanonicalEnum(p, value, allowed).Success?
  {
    EnumOperandsLowered(p, items);
    assert Object([("in", Array(items))]).members[0] == ("in", Array(items));
    var texts := EnumOperands(p, items).value;
    assert ParseEnum(p, Object([("in", Array(items))]), allowed) == Success(EnumIn(texts));
    if p.lower(value) in texts {
      var i :| 0 <= i < |texts| && texts[i] == p.lower(value);
      assert items[i] in items && AllowedEnum(p, texts[i], allowed);
    }
  }
}
