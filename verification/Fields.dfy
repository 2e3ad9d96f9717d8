/**
 * Scalar fields by what their texts mean: which texts a rule accepts, the canonical form of each, and
 * when the values of a producer and a subscriber agree.
 */
module Fields {
  import opened Wrappers
  import opened Text
  import opened Json
  import opened Platform
  import opened Schema
  import opened Scalars
  import opened Constraints
  import opened Processor
  import opened Delivery
  import Utf8

  // ---- the texts that spell a number --------------------------------------------------------

  function Zeros(k: nat): (s: string)
    ensures |s| == k && AllDigits(s)
  {
    seq(k, _ => '0')
  }

  function Abs(v: int): nat { if v < 0 then -v else v }

  /** An optional sign, any zeros, and the shortest decimal form. */
  predicate SpelledWith(s: string, v: int, sign: string, k: nat) {
    (sign == "" || sign == "+" || sign == "-") && (if sign == "-" then v <= 0 else v >= 0)
    && s == sign + Zeros(k) + Decimal(Abs(v))
  }

  ghost predicate Spells(s: string, v: int) { exists sign, k :: SpelledWith(s, v, sign, k) }

  lemma {:induction false} ZerosAddNothing(k: nat, s: string)
    requires AllDigits(s)
    ensures DecimalValue(Zeros(k) + s) == DecimalValue(s)
  {
    if k == 0 {
      assert Zeros(0) + s == s;
    } else {
      ZerosAddNothing(k - 1, s);
      LeadingZero(Zeros(k - 1) + s);
      assert Zeros(k) + s == ['0'] + (Zeros(k - 1) + s);
    }
  }

  lemma {:induction false} DigitsSpell(s: string) returns (k: nat)
    requires AllDigits(s) && s != []
    ensures s == Zeros(k) + Decimal(DecimalValue(s))
  {
    var last := |s| - 1;
    var front, d := s[..last], s[last];
    DigitCharOfValue(d);
    if last == 0 {
      k := 0;
      assert front == [] && DecimalValue(s) == DigitValue(d);
      assert s == [d];
    } else {
      k := DigitsSpell(front);
      var n := DecimalValue(front);
      assert DecimalValue(s) == n * 10 + DigitValue(d) && s == front + [d];
      if n == 0 {
        assert Decimal(0) == "0" && front == Zeros(k + 1);
        k := k + 1;
      } else {
        NextDigit(n, d);
      }
    }
  }

  lemma NextDigit(n: nat, d: char)
    requires n > 0 && IsDigit(d)
    ensures Decimal(n * 10 + DigitValue(d)) == Decimal(n) + [d]
  {
    var v := n * 10 + DigitValue(d);
    DigitCharOfValue(d);
    assert v / 10 == n && v % 10 == DigitValue(d);
  }

  lemma SpelledDigits(sign: string, k: nat, n: nat)
    requires sign == "" || sign == "+" || sign == "-"
    ensures var s := sign + Zeros(k) + Decimal(n);
            var digits := if sign == "" then s else s[1..];
            && digits == Zeros(k) + Decimal(n) && AllDigits(digits) && digits != [] && DecimalValue(digits) == n
            && (sign == "" ==> IsDigit(s[0])) && (sign != "" ==> s[0] == sign[0])
  {
    var s := sign + Zeros(k) + Decimal(n);
    var digits := Zeros(k) + Decimal(n);
    assert sign == "" ==> s == digits;
    assert sign != "" ==> s == sign + digits && s[1..] == digits;
    ZerosAddNothing(k, Decimal(n));
    DecimalValueOfDecimal(n);
    assert digits[0] == if k > 0 then Zeros(k)[0] else Decimal(n)[0];
  }

  lemma SpelledBy(s: string, sign: string, digits: string, v: int) returns (k: nat)
    requires s == sign + digits && (sign == "" || sign == "+" || sign == "-")
    requires AllDigits(digits) && digits != [] && v == if sign == "-" then 0 - DecimalValue(digits)
             else DecimalValue(digits)
    ensures SpelledWith(s, v, sign, k)
  {
    k := DigitsSpell(digits);
    assert Abs(v) == DecimalValue(digits);
  }

  lemma SignBeforeDigits(s: string, digits: string, min: int, max: int)
    requires s != [] && (s[0] == '+' || s[0] == '-') && s[1..] == digits && digits != [] && AllDigits(digits)
    ensures var v: int := if s[0] == '-' then 0 - DecimalValue(digits) else DecimalValue(digits);
            ParseSigned(s, min, max) == if min <= v <= max then Some(v) else None
  {
  }

  lemma DigitsAlone(s: string, min: int, max: int)
    requires s != [] && AllDigits(s)
    ensures ParseSigned(s, min, max) == if min <= DecimalValue(s) <= max then Some(DecimalValue(s)) else None
  {
    assert IsDigit(s[0]);
  }

  lemma ReadDigits(s: string, sign: string, digits: string, min: int, max: int, v: int)
    requires digits != [] && AllDigits(digits) && DecimalValue(digits) == Abs(v)
    requires sign == "" ==> s == digits && v >= 0
    requires sign != "" ==> s != [] && s[1..] == digits && (s[0] == '+' || s[0] == '-')
    requires sign != "" ==> if s[0] == '-' then v <= 0 else v >= 0
    ensures ParseSigned(s, min, max) == if min <= v <= max then Some(v) else None
  {
    if sign == "" {
      DigitsAlone(s, min, max);
    } else {
      SignBeforeDigits(s, digits, min, max);
    }
  }

  lemma ReadSigned(s: string, min: int, max: int, sign: string, k: nat, v: int)
    requires SpelledWith(s, v, sign, k)
    ensures ParseSigned(s, min, max) == if min <= v <= max then Some(v) else None
  {
    SpelledDigits(sign, k, Abs(v));
    ReadDigits(s, sign, if sign == "" then s else s[1..], min, max, v);
  }

  lemma ReadUnsigned(s: string, max: nat, sign: string, k: nat, n: nat)
    requires sign != "-" && SpelledWith(s, n, sign, k)
    ensures ParseUnsigned(s, max) == if n <= max then Some(n) else None
  {
    SpelledDigits(sign, k, n);
  }

  lemma SignedIsSpelled(s: string, min: int, max: int)
    requires ParseSigned(s, min, max).Some?
    ensures Spells(s, ParseSigned(s, min, max).value)
  {
    var sign, digits := if s[0] == '+' || s[0] == '-' then [s[0]] else "", if s[0] == '+' || s[0] == '-' then s[1..]
      else s;
    var k := SpelledBy(s, sign, digits, ParseSigned(s, min, max).value);
  }

  lemma UnsignedIsSpelled(s: string, max: nat)
    requires ParseUnsigned(s, max).Some?
    ensures Numbers(s, ParseUnsigned(s, max).value)
  {
    var sign, digits := if s[0] == '+' then "+" else "", if s[0] == '+' then s[1..] else s;
    var k := SpelledBy(s, sign, digits, ParseUnsigned(s, max).value);
    assert sign != "-";
  }

  /** A signed number is read from exactly the texts that spell it, within the type. */
  lemma SignedSpelling(s: string, min: int, max: int, v: int)
    ensures ParseSigned(s, min, max) == Some(v) <==> min <= v <= max && Spells(s, v)
  {
    if ParseSigned(s, min, max) == Some(v) {
      SignedIsSpelled(s, min, max);
    }
    if sign, k :| SpelledWith(s, v, sign, k) {
      ReadSigned(s, min, max, sign, k, v);
    }
  }

  ghost predicate Numbers(s: string, n: nat) { exists sign, k :: sign != "-" && SpelledWith(s, n, sign, k) }

  lemma UnsignedSpelling(s: string, max: nat, n: nat)
    ensures ParseUnsigned(s, max) == Some(n) <==> n <= max && Numbers(s, n)
  {
    if ParseUnsigned(s, max) == Some(n) {
      UnsignedIsSpelled(s, max);
    }
    if sign, k :| sign != "-" && SpelledWith(s, n, sign, k) {
      ReadUnsigned(s, max, sign, k, n);
    }
  }

  // ---- experiment versions ------------------------------------------------------------------

  /** The same u32, or texts that are none, equal up to case. */
  ghost predicate SameVersion(v: string, w: string) {
    || (exists n: nat :: n <= MAX_U32 && Numbers(v, n) && Numbers(w, n))
    || ((forall n: nat :: n <= MAX_U32 ==> !Numbers(v, n) && !Numbers(w, n)) && AsciiLower(v) == AsciiLower(w))
  }

  /** The text a version field is read from: the default stands for an empty one. */
  function VersionText(text: string, default: Option<string>): string {
    if text == [] && default.Some? then default.value else text
  }

  lemma NumbersParse(s: string)
    ensures forall n: nat :: n <= MAX_U32 ==> (Numbers(s, n) <==> ParseUnsigned(s, MAX_U32) == Some(n))
  {
    forall n: nat | n <= MAX_U32 ensures Numbers(s, n) <==> ParseUnsigned(s, MAX_U32) == Some(n) {
      UnsignedSpelling(s, MAX_U32, n);
    }
  }

  /** Two accepted versions have one canonical form exactly when they are the same version. */
  lemma VersionsAgree(p: Platform, v: string, w: string, default: Option<string>)
    requires Lawful(p) && CanonicalExpver(p, v, default).Success? && CanonicalExpver(p, w, default).Success?
    requires IsAscii(VersionText(v, default)) && IsAscii(VersionText(w, default))
    ensures CanonicalExpver(p, v, default) == CanonicalExpver(p, w, default) <==>
            SameVersion(VersionText(v, default), VersionText(w, default))
  {
    var a, b := VersionText(v, default), VersionText(w, default);
    ExpverAgree(p, a, b);
    NumbersParse(a);
    NumbersParse(b);
    assert CanonicalExpver(p, v, default) == Success(ExpverForm(p, a));
    assert CanonicalExpver(p, w, default) == Success(ExpverForm(p, b));
    var m := ParseUnsigned(a, MAX_U32);
    if m.Some? {
      assert Numbers(a, m.value);
    }
  }

  /** A version below 10000 is written with four digits of its value; an empty one as the default. */
  lemma VersionForm(p: Platform, text: string, default: Option<string>, n: nat)
    requires Numbers(VersionText(text, default), n) && n < 10000
    ensures var form := CanonicalExpver(p, text, default);
            form.Success? && |form.value| == 4 && AllDigits(form.value) && DecimalValue(form.value) == n
  {
    var read := VersionText(text, default);
    UnsignedSpelling(read, MAX_U32, n);
    assert read != [];
    FewDigits(n);
    DecimalValueOfDecimal(n);
    DecimalValueOfPadded(Decimal(n), 4);
  }

  lemma FewDigits(n: nat)
    requires n < 10000
    ensures |Decimal(n)| <= 4
  {
    assert |Decimal(n / 1000)| <= 1;
    if n >= 10 { assert Decimal(n) == Decimal(n / 10) + [DigitChar(n % 10)]; }
    if n >= 100 { assert Decimal(n / 10) == Decimal(n / 100) + [DigitChar(n / 10 % 10)]; }
    if n >= 1000 { assert Decimal(n / 100) == Decimal(n / 1000) + [DigitChar(n / 100 % 10)]; }
  }

  lemma VersionAccepted(p: Platform, text: string, default: Option<string>)
    ensures CanonicalExpver(p, text, default).Success? <==> text != [] || default.Some?
    ensures text == [] && default.Some? && default.value != [] ==>
              CanonicalExpver(p, text, default) == CanonicalExpver(p, default.value, None)
  {
  }

  // ---- every scalar rule --------------------------------------------------------------------

  ghost predicate TimeOfDay(text: string, h: nat, m: nat) { h < 24 && m < 60 && Writes(text, h, m) }

  ghost predicate SpellsWithin(text: string, range: Option<(int, int)>, v: int) {
    MIN_I64 <= v <= MAX_I64 && InBounds(range, v) && Spells(text, v)
  }

  /** What a rule asks of a text. */
  ghost predicate Acceptable(p: Platform, rule: Rule, text: string) {
    match rule
    case StringRule(max, _) => text != [] && (max.Some? ==> |Utf8.Encode(text)| <= max.value)
    case DateRule(format, _) => p.date(text, format).Some?
    case EnumRule(values, _) => exists i :: 0 <= i < |values| && p.lower(values[i]) == p.lower(text)
    case ExpverRule(default, _) => text != [] || default.Some?
    case IntRule(range, _) => exists v :: SpellsWithin(text, range, v)
    case FloatRule(range, _) => p.parseF64(text).Some? && InBounds(range, p.parseF64(text).value)
    case TimeRule(_) => exists h, m :: TimeOfDay(text, h, m)
    case _ => false
  }

  /** A scalar rule accepts exactly the texts that meet what it asks. */
  lemma AcceptedExactly(p: Platform, rule: Rule, text: string)
    requires !rule.IsSpatial()
    ensures FieldText(p, Str(text), rule).Success? <==> Acceptable(p, rule, text)
  {
    match rule {
      case IntRule(range, _) => IntAccepted(p, text, range, rule.required);
      case TimeRule(_) => TimeTextAccepted(p, text, rule);
      case _ =>
    }
  }

  lemma IntAccepted(p: Platform, text: string, range: Option<(int, int)>, required: bool)
    ensures FieldText(p, Str(text), IntRule(range, required)).Success? <==> exists v :: SpellsWithin(text, range, v)
  {
    assert FieldText(p, Str(text), IntRule(range, required)) == CanonicalInt(text, range);
    if CanonicalInt(text, range).Success? {
      var v := ParseSigned(text, MIN_I64, MAX_I64).value;
      SignedSpelling(text, MIN_I64, MAX_I64, v);
      assert SpellsWithin(text, range, v);
    }
    if v :| SpellsWithin(text, range, v) {
      SignedSpelling(text, MIN_I64, MAX_I64, v);
    }
  }

  lemma TimeTextAccepted(p: Platform, text: string, rule: Rule)
    requires rule.TimeRule?
    ensures FieldText(p, Str(text), rule).Success? <==> exists h, m :: TimeOfDay(text, h, m)
  {
    assert FieldText(p, Str(text), rule) == CanonicalTime(text);
    TimeAccepted(text);
    if h: nat, m: nat :| h < 24 && m < 60 && Writes(text, h, m) {
      assert TimeOfDay(text, h, m);
    }
  }

  /** Two texts that a rule takes for the same value. */
  ghost predicate SameValue(p: Platform, rule: Rule, v: string, w: string) {
    match rule
    case StringRule(_, _) => v == w
    case DateRule(format, _) => p.date(v, format) == p.date(w, format)
    case EnumRule(_, _) => p.lower(v) == p.lower(w)
    case ExpverRule(default, _) => SameVersion(VersionText(v, default), VersionText(w, default))
    case IntRule(_, _) => exists n :: Spells(v, n) && Spells(w, n)
    case FloatRule(_, _) => p.parseF64(v) == p.parseF64(w)
    case TimeRule(_) => exists h, m :: TimeOfDay(v, h, m) && TimeOfDay(w, h, m)
    case _ => false
  }

  /** Letter case beyond ASCII is not part of this model, so versions are compared on ASCII text. */
  predicate Comparable(rule: Rule, text: string) { rule.ExpverRule? ==> IsAscii(VersionText(text, rule.default)) }

  /** The canonical texts of two accepted values are equal exactly when the values are the same. */
  lemma ValuesAgree(p: Platform, rule: Rule, v: string, w: string)
    requires Lawful(p) && !rule.IsSpatial() && Comparable(rule, v) && Comparable(rule, w)
    requires FieldText(p, Str(v), rule).Success? && FieldText(p, Str(w), rule).Success?
    ensures FieldText(p, Str(v), rule) == FieldText(p, Str(w), rule) <==> SameValue(p, rule, v, w)
  {
    match rule {
      case ExpverRule(default, _) => VersionsAgree(p, v, w, default);
      case IntRule(range, _) => IntsAgree(p, rule, v, w);
      case FloatRule(range, _) => FloatsAgree(p, rule, v, w);
      case TimeRule(_) => TimeTextsAgree(p, rule, v, w);
      case _ =>
    }
  }

  lemma IntsAgree(p: Platform, rule: Rule, v: string, w: string)
    requires rule.IntRule? && FieldText(p, Str(v), rule).Success? && FieldText(p, Str(w), rule).Success?
    ensures FieldText(p, Str(v), rule) == FieldText(p, Str(w), rule) <==> exists n :: Spells(v, n) && Spells(w, n)
  {
    var range := rule.intRange;
    assert FieldText(p, Str(v), rule) == CanonicalInt(v, range) && FieldText(p, Str(w), rule) == CanonicalInt(w, range);
    IntNormalForm(v, w, range, range);
    var m, n := ParseSigned(v, MIN_I64, MAX_I64).value, ParseSigned(w, MIN_I64, MAX_I64).value;
    SignedSpelling(v, MIN_I64, MAX_I64, m);
    SignedSpelling(w, MIN_I64, MAX_I64, n);
    if k :| Spells(v, k) && Spells(w, k) {
      OneSpelled(v, k, m);
      OneSpelled(w, k, n);
    }
  }

  /** A text spells one number at most. */
  lemma OneSpelled(s: string, a: int, b: int)
    requires Spells(s, a) && Spells(s, b)
    ensures a == b
  {
    var low, high := if a < b then a else b, if a < b then b else a;
    SignedSpelling(s, low, high, a);
    SignedSpelling(s, low, high, b);
  }

  lemma FloatsAgree(p: Platform, rule: Rule, v: string, w: string)
    requires Lawful(p)
    requires rule.FloatRule? && FieldText(p, Str(v), rule).Success? && FieldText(p, Str(w), rule).Success?
    ensures FieldText(p, Str(v), rule) == FieldText(p, Str(w), rule) <==> p.parseF64(v) == p.parseF64(w)
  {
    assert ReprintableNumber(p, p.parseF64(v).value) && ReprintableNumber(p, p.parseF64(w).value);
  }

  lemma TimeTextsAgree(p: Platform, rule: Rule, v: string, w: string)
    requires rule.TimeRule? && FieldText(p, Str(v), rule).Success? && FieldText(p, Str(w), rule).Success?
    ensures FieldText(p, Str(v), rule) == FieldText(p, Str(w), rule) <==>
            exists h, m :: TimeOfDay(v, h, m) && TimeOfDay(w, h, m)
  {
    TimesMeet(v, w);
    if h: nat, m: nat :| h < 24 && m < 60 && Writes(v, h, m) && Writes(w, h, m) {
      assert TimeOfDay(v, h, m) && TimeOfDay(w, h, m);
    }
    if h, m :| TimeOfDay(v, h, m) && TimeOfDay(w, h, m) {
      assert Writes(v, h, m) && Writes(w, h, m);
    }
  }

  /** What canonical texts look like: text as it is, choices in lower case, numbers in their shortest form. */
  lemma CanonicalForms(p: Platform, rule: Rule, text: string)
    requires FieldText(p, Str(text), rule).Success?
    ensures var form := FieldText(p, Str(text), rule).value;
            && (rule.StringRule? ==> form == text)
            && (rule.DateRule? ==> Some(form) == p.date(text, rule.format))
            && (rule.EnumRule? ==> form == p.lower(text))
            && (rule.IntRule? ==> exists v :: Spells(text, v) && form == SignedDecimal(v))
            && (rule.FloatRule? ==> form == p.printF64(p.parseF64(text).value))
            && (rule.TimeRule? ==> exists h, m :: TimeOfDay(text, h, m) && form == TwoDigits(h) + TwoDigits(m))
  {
    if rule.IntRule? {
      assert FieldText(p, Str(text), rule) == CanonicalInt(text, rule.intRange);
      SignedIsSpelled(text, MIN_I64, MAX_I64);
    }
    if rule.TimeRule? {
      assert FieldText(p, Str(text), rule) == CanonicalTime(text);
      var h, m := AcceptedTimeWritten(text);
      TimeWritten(text, h, m);
      assert TimeOfDay(text, h, m);
    }
  }

  /** A scalar as text: a text itself, an integer in its shortest spelling, a truth value by its name. */
  lemma ScalarTexts(p: Platform, value: Json)
    ensures ScalarText(p, value).Success? <==> value.Str? || value.Num? || value.Bool?
    ensures value.Str? ==> ScalarText(p, value) == Success(value.text)
    ensures value == Bool(true) ==> ScalarText(p, value) == Success("true")
    ensures value == Bool(false) ==> ScalarText(p, value) == Success("false")
    ensures value.Num? && value.number.Integer? ==> Spells(ScalarText(p, value).value, value.number.i)
    ensures value.Num? && value.number.Float? ==> ScalarText(p, value) == Success(p.printJson(value))
  {
    if value.Num? && value.number.Integer? {
      var v := value.number.i;
      var sign := if v < 0 then "-" else "";
      assert SignedDecimal(v) == sign + Zeros(0) + Decimal(Abs(v));
      assert SpelledWith(SignedDecimal(v), v, sign, 0);
    }
  }

  // ---- a producer's and a subscriber's field ------------------------------------------------

  lemma TextOfValue(p: Platform, value: Json, rule: Rule)
    requires !rule.IsSpatial() && FieldText(p, value, rule).Success?
    ensures ScalarText(p, value).Success?
            && FieldText(p, value, rule) == FieldText(p, Str(ScalarText(p, value).value), rule)
  {
  }

  lemma SentField(p: Platform, schema: EventSchema, notify: Request, f: string)
    requires NotifyAccepts(p, schema, notify, true) && f in schema.identifier && !schema.identifier[f].IsSpatial()
    ensures FieldText(p, notify[f], schema.identifier[f]) == Success(NotifyParams(p, schema, notify)[f])
  {
    assert NotifyField(p, notify[f], schema.identifier[f]).Success?;
  }

  lemma AskedField(p: Platform, schema: EventSchema, stream: Request, f: string)
    requires StreamAccepts(p, schema, stream) && f in schema.identifier && !schema.identifier[f].IsSpatial()
    requires f in stream && !stream[f].Object? && f != "point" && f != "polygon"
    ensures f in StreamParams(p, schema, stream)
    ensures FieldText(p, stream[f], schema.identifier[f]) == Success(StreamParams(p, schema, stream)[f])
  {
    assert StreamField(p, stream, f, schema.identifier[f]).Success?;
    assert StreamParams(p, schema, stream)[f] == FieldTokens(p, schema, stream)[f];
  }

  /**
   * For every scalar rule: the subscriber's parameter equals the producer's exactly when both sent the
   * same value, however each wrote it.
   */
  lemma FieldsMeet(p: Platform, schema: EventSchema, notify: Request, stream: Request, f: string)
    requires Lawful(p) && NotifyAccepts(p, schema, notify, true) && StreamAccepts(p, schema, stream)
    requires f in schema.identifier && !schema.identifier[f].IsSpatial() && f != "point" && f != "polygon"
    requires f in stream && !stream[f].Object?
    ensures ScalarText(p, notify[f]).Success? && ScalarText(p, stream[f]).Success?
            && f in StreamParams(p, schema, stream)
    ensures var rule, v, w := schema.identifier[f], ScalarText(p, notify[f]).value, ScalarText(p, stream[f]).value;
            Comparable(rule, v) && Comparable(rule, w) ==>
              (StreamParams(p, schema, stream)[f] == NotifyParams(p, schema, notify)[f] <==> SameValue(p, rule, v, w))
  {
    var rule := schema.identifier[f];
    SentField(p, schema, notify, f);
    AskedField(p, schema, stream, f);
    TextOfValue(p, notify[f], rule);
    TextOfValue(p, stream[f], rule);
    var v, w := ScalarText(p, notify[f]).value, ScalarText(p, stream[f]).value;
    if Comparable(rule, v) && Comparable(rule, w) {
      ValuesAgree(p, rule, v, w);
    }
  }
}
