/** Validation and canonical form of scalar identifier values (aviso-validators). */
module Scalars {
  import opened Wrappers
  import opened Text
  import opened Json
  import opened Platform
  import Utf8

  datatype FieldError =
    | NotScalar | EmptyValue | TooLong | NotAllowed | NotInteger | NotNumber | OutOfRange
    | BadDate | BadTime | BadGeometry | BadPointLimit | TooManyPoints | TooManyBytes

  const MAX_U32: nat := 0xFFFF_FFFF
  const MIN_I64: int := -0x8000_0000_0000_0000
  const MAX_I64: int := 0x7FFF_FFFF_FFFF_FFFF

  /** The limits of the source's 32-bit and 64-bit types. */
  lemma IntegerLimits()
    ensures MAX_U32 == 4_294_967_295
    ensures MIN_I64 == -9_223_372_036_854_775_808 && MAX_I64 == 9_223_372_036_854_775_807
  {
  }

  /** `str::len`: the length in bytes. */
  function ByteLength(s: string): nat { |Utf8.Encode(s)| }

  function ScalarText(p: Platform, value: Json): Result<string, FieldError> {
    match value
    case Str(text) => Success(text)
    case Num(Integer(i)) => Success(SignedDecimal(i))
    case Num(Float(_)) => Success(p.printJson(value))
    case Bool(b) => Success(if b then "true" else "false")
    case _ => Failure(NotScalar)
  }

  function CanonicalString(value: string, maxLength: Option<nat>): Result<string, FieldError> {
    if value == [] then Failure(EmptyValue)
    else if maxLength.Some? && ByteLength(value) > maxLength.value then Failure(TooLong)
    else Success(value)
  }

  function CanonicalDate(p: Platform, value: string, format: string): Result<string, FieldError> {
    match p.date(value, format)
    case Some(text) => Success(text)
    case None => Failure(BadDate)
  }

  function CanonicalEnum(p: Platform, value: string, allowed: seq<string>): Result<string, FieldError> {
    var lowered := p.lower(value);
    if exists i :: 0 <= i < |allowed| && p.lower(allowed[i]) == lowered then Success(lowered) else Failure(NotAllowed)
  }

  function CanonicalInt(value: string, range: Option<(int, int)>): Result<string, FieldError> {
    match ParseSigned(value, MIN_I64, MAX_I64)
    case None => Failure(NotInteger)
    case Some(v) =>
      if range.Some? && (v < range.value.0 || v > range.value.1) then Failure(OutOfRange)
      else Success(SignedDecimal(v))
  }

  function CanonicalFloat(p: Platform, value: string, range: Option<(F64, F64)>): Result<string, FieldError> {
    match p.parseF64(value)
    case None => Failure(NotNumber)
    case Some(v) =>
      if range.Some? && (v < range.value.0 || v > range.value.1) then Failure(OutOfRange)
      else Success(p.printF64(v))
  }

  // ---- experiment versions ------------------------------------------------------------------

  function ExpverForm(p: Platform, value: string): string {
    match ParseUnsigned(value, MAX_U32)
    case Some(n) => ZeroPad(Decimal(n), 4)
    case None => p.lower(value)
  }

  function CanonicalExpver(p: Platform, value: string, default: Option<string>): Result<string, FieldError> {
    if value != [] then Success(ExpverForm(p, value))
    else match default
      case Some(text) => Success(ExpverForm(p, text))
      case None => Failure(EmptyValue)
  }

  lemma PaddedNumberParses(n: nat, width: nat, max: nat)
    requires n <= max
    ensures ParseUnsigned(ZeroPad(Decimal(n), width), max) == Some(n)
  {
    DecimalValueOfDecimal(n);
    DecimalValueOfPadded(Decimal(n), width);
  }

  lemma LoweredNumeral(s: string, max: nat)
    requires ParseUnsigned(AsciiLower(s), max).Some?
    ensures AsciiLower(s) == s
  {
    forall i | 0 <= i < |s| ensures AsciiLower(s)[i] == s[i] {
      assert IsDigit(AsciiLower(s)[i]) || AsciiLower(s)[i] == '+';
    }
  }

  lemma LoweringKeepsNumerals(s: string, max: nat)
    requires ParseUnsigned(s, max).None?
    ensures ParseUnsigned(AsciiLower(s), max).None?
  {
    if ParseUnsigned(AsciiLower(s), max).Some? {
      LoweredNumeral(s, max);
      assert false;
    }
  }

  lemma LowerTwice(s: string)
    ensures AsciiLower(AsciiLower(s)) == AsciiLower(s)
  {
  }

  /** Two ASCII versions have one canonical form exactly when they are the same u32, or the same text up to case. */
  lemma ExpverAgree(p: Platform, v: string, w: string)
    requires Lawful(p) && IsAscii(v) && IsAscii(w)
    ensures ExpverForm(p, v) == ExpverForm(p, w) <==>
            (ParseUnsigned(v, MAX_U32) == ParseUnsigned(w, MAX_U32)
             && (ParseUnsigned(v, MAX_U32).None? ==> AsciiLower(v) == AsciiLower(w)))
  {
    var m, n := ParseUnsigned(v, MAX_U32), ParseUnsigned(w, MAX_U32);
    if m.Some? { PaddedNumberParses(m.value, 4, MAX_U32); } else { LoweringKeepsNumerals(v, MAX_U32); }
    if n.Some? { PaddedNumberParses(n.value, 4, MAX_U32); } else { LoweringKeepsNumerals(w, MAX_U32); }
  }

  /** A canonical version is its own canonical form. */
  lemma ExpverNormalForm(p: Platform, v: string)
    requires Lawful(p) && IsAscii(v)
    ensures ExpverForm(p, ExpverForm(p, v)) == ExpverForm(p, v)
  {
    var n := ParseUnsigned(v, MAX_U32);
    if n.Some? {
      PaddedNumberParses(n.value, 4, MAX_U32);
    } else {
      LoweringKeepsNumerals(v, MAX_U32);
      LowerTwice(v);
    }
  }

  // ---- times --------------------------------------------------------------------------------

  function TwoDigits(n: nat): string { ZeroPad(Decimal(n), 2) }

  function CheckedTime(hours: nat, minutes: nat, text: string): Result<string, FieldError> {
    if hours > 23 || minutes > 59 then Failure(BadTime) else Success(text)
  }

  function HourOnlyTime(value: string): Result<Option<string>, FieldError> {
    if value != [] && ByteLength(value) <= 2 && AllDigits(value) then
      var hour := DecimalValue(value);
      if hour > 23 then Failure(BadTime) else Success(Some(TwoDigits(hour) + "00"))
    else
      Success(None)
  }

  /**
   * One or two digits, a colon, two digits. The source's pattern also admits other Unicode decimal
   * digits, which its number parser then rejects; both ways end in an error.
   */
  function ColonTime(value: string): Result<string, FieldError> {
    if (|value| == 4 || |value| == 5) && value[|value| - 3] == ':'
       && AllDigits(value[..|value| - 3]) && AllDigits(value[|value| - 2..]) then
      var hours, minutes := DecimalValue(value[..|value| - 3]), DecimalValue(value[|value| - 2..]);
      CheckedTime(hours, minutes, TwoDigits(hours) + TwoDigits(minutes))
    else
      Failure(BadTime)
  }

  function CompactTime(value: string): Result<string, FieldError> {
    if |value| == 4 && AllDigits(value) then
      CheckedTime(DecimalValue(value[..2]), DecimalValue(value[2..]), value)
    else
      Failure(BadTime)
  }

  function CanonicalTime(value: string): Result<string, FieldError> {
    var hourOnly :- HourOnlyTime(value);
    if hourOnly.Some? then Success(hourOnly.value)
    else if ':' in value then ColonTime(value)
    else if ByteLength(value) == 4 then CompactTime(value)
    else Failure(BadTime)
  }

  /** The texts that write the time of day `h`:`m`: an hour alone, HH:MM or H:MM, and HHMM. */
  ghost predicate Writes(value: string, h: nat, m: nat) {
    || (1 <= |value| <= 2 && AllDigits(value) && DecimalValue(value) == h && m == 0)
    || (exists hh, mm :: value == hh + ":" + mm && Clock(hh, mm, h, m) && 1 <= |hh| <= 2)
    || (exists hh, mm :: value == hh + mm && Clock(hh, mm, h, m) && |hh| == 2)
  }

  ghost predicate Clock(hh: string, mm: string, h: nat, m: nat) {
    AllDigits(hh) && AllDigits(mm) && |mm| == 2 && DecimalValue(hh) == h && DecimalValue(mm) == m
  }

  lemma {:induction false} AsciiByteLength(s: string)
    ensures |s| <= ByteLength(s)
    ensures IsAscii(s) ==> ByteLength(s) == |s|
  {
    if s != [] {
      AsciiByteLength(s[1..]);
    }
  }

  lemma ZeroPadOne(s: string)
    ensures |s| == 1 ==> ZeroPad(s, 2) == ['0'] + s
    ensures |s| >= 2 ==> ZeroPad(s, 2) == s
  {
  }

  lemma ShortDecimal(n: nat)
    requires n < 100
    ensures |TwoDigits(n)| == 2
  {
    assert |Decimal(n)| <= 2;
  }

  lemma ValueOfDigits(a: char, b: char)
    requires IsDigit(a) && IsDigit(b)
    ensures DecimalValue([a]) == DigitValue(a)
    ensures DecimalValue([a, b]) == DigitValue(a) * 10 + DigitValue(b)
  {
    assert [a][..0] == [] && [a, b][..1] == [a];
  }

  lemma DigitCharOfValue(c: char)
    requires IsDigit(c)
    ensures DigitChar(DigitValue(c)) == c
  {
  }

  /** Two digits write one number only. */
  lemma TwoDigitsOf(s: string)
    requires AllDigits(s) && |s| == 2
    ensures DecimalValue(s) < 100 && TwoDigits(DecimalValue(s)) == s
  {
    var a, b := DigitValue(s[0]), DigitValue(s[1]);
    assert s == [s[0], s[1]];
    ValueOfDigits(s[0], s[1]);
    DigitCharOfValue(s[0]);
    DigitCharOfValue(s[1]);
    var v := a * 10 + b;
    assert v / 10 == a && v % 10 == b;
    if a == 0 {
      assert Decimal(v) == [s[1]];
      ZeroPadOne([s[1]]);
    } else {
      assert Decimal(v) == Decimal(a) + [s[1]] == s;
      ZeroPadOne(s);
    }
  }

  lemma TwoDigitsDistinct(m: nat, n: nat)
    requires TwoDigits(m) == TwoDigits(n)
    ensures m == n
  {
    DecimalValueOfDecimal(m);
    DecimalValueOfDecimal(n);
    DecimalValueOfPadded(Decimal(m), 2);
    DecimalValueOfPadded(Decimal(n), 2);
  }

  lemma HourWritten(value: string)
    requires 1 <= |value| <= 2 && AllDigits(value) && DecimalValue(value) < 24
    ensures CanonicalTime(value) == Success(TwoDigits(DecimalValue(value)) + "00")
  {
    AsciiByteLength(value);
  }

  lemma ColonWritten(hh: string, mm: string, h: nat, m: nat)
    requires Clock(hh, mm, h, m) && 1 <= |hh| <= 2 && h < 24 && m < 60
    ensures CanonicalTime(hh + ":" + mm) == Success(TwoDigits(h) + TwoDigits(m))
  {
    var value := hh + ":" + mm;
    AsciiByteLength(value);
    assert value[|value| - 3] == ':';
    assert value[..|value| - 3] == hh && value[|value| - 2..] == mm;
    assert HourOnlyTime(value) == Success(None);
  }

  lemma CompactWritten(hh: string, mm: string, h: nat, m: nat)
    requires Clock(hh, mm, h, m) && |hh| == 2 && h < 24 && m < 60
    ensures CanonicalTime(hh + mm) == Success(TwoDigits(h) + TwoDigits(m))
  {
    var value := hh + mm;
    AsciiByteLength(value);
    assert value[..2] == hh && value[2..] == mm;
    assert AllDigits(value);
    assert ':' !in value;
    assert HourOnlyTime(value) == Success(None);
    TwoDigitsOf(hh);
    TwoDigitsOf(mm);
  }

  /** The canonical form of a text is HHMM for the time of day it writes. */
  lemma TimeWritten(value: string, h: nat, m: nat)
    requires Writes(value, h, m) && h < 24 && m < 60
    ensures CanonicalTime(value) == Success(TwoDigits(h) + TwoDigits(m))
  {
    if 1 <= |value| <= 2 && AllDigits(value) && DecimalValue(value) == h && m == 0 {
      HourWritten(value);
      assert TwoDigits(0) == "00" by { ZeroPadOne(Decimal(0)); }
    } else if hh, mm :| value == hh + ":" + mm && Clock(hh, mm, h, m) && 1 <= |hh| <= 2 {
      ColonWritten(hh, mm, h, m);
    } else {
      var hh, mm :| value == hh + mm && Clock(hh, mm, h, m) && |hh| == 2;
      CompactWritten(hh, mm, h, m);
    }
  }

  lemma AcceptedTimeWritten(value: string) returns (h: nat, m: nat)
    requires CanonicalTime(value).Success?
    ensures h < 24 && m < 60 && Writes(value, h, m)
  {
    AsciiByteLength(value);
    if HourOnlyTime(value).Success? && HourOnlyTime(value).value.Some? {
      h, m := DecimalValue(value), 0;
    } else if ':' in value {
      var hh, mm := value[..|value| - 3], value[|value| - 2..];
      assert value == hh + ":" + mm;
      h, m := DecimalValue(hh), DecimalValue(mm);
      assert Clock(hh, mm, h, m);
    } else {
      var hh, mm := value[..2], value[2..];
      assert value == hh + mm;
      h, m := DecimalValue(hh), DecimalValue(mm);
      assert Clock(hh, mm, h, m);
    }
  }

  lemma HhmmDistinct(h: nat, m: nat, h': nat, m': nat)
    requires h < 100 && m < 100 && h' < 100 && m' < 100
    requires TwoDigits(h) + TwoDigits(m) == TwoDigits(h') + TwoDigits(m')
    ensures h == h' && m == m'
  {
    ShortDecimal(h);
    ShortDecimal(h');
    assert TwoDigits(h) == (TwoDigits(h) + TwoDigits(m))[..2] == TwoDigits(h');
    assert TwoDigits(m) == (TwoDigits(h) + TwoDigits(m))[2..] == TwoDigits(m');
    TwoDigitsDistinct(h, h');
    TwoDigitsDistinct(m, m');
  }

  /** A time is accepted exactly when it writes an hour below 24 and a minute below 60, in one way only. */
  lemma TimeAccepted(value: string)
    ensures CanonicalTime(value).Success? <==> exists h, m :: h < 24 && m < 60 && Writes(value, h, m)
    ensures forall h, m, h', m' ::
              Writes(value, h, m) && Writes(value, h', m') && h < 24 && m < 60 && h' < 24 && m' < 60
              ==> h == h' && m == m'
  {
    if CanonicalTime(value).Success? {
      var h, m := AcceptedTimeWritten(value);
    }
    forall h, m, h', m' | Writes(value, h, m) && Writes(value, h', m') && h < 24 && m < 60 && h' < 24 && m' < 60
      ensures h == h' && m == m'
    {
      TimeWritten(value, h, m);
      TimeWritten(value, h', m');
      HhmmDistinct(h, m, h', m');
    }
    forall h: nat, m: nat | h < 24 && m < 60 && Writes(value, h, m) ensures CanonicalTime(value).Success? {
      TimeWritten(value, h, m);
    }
  }

  /** Two accepted times have one canonical form exactly when they write the same hour and minute. */
  lemma TimesAgree(v: string, w: string, h: nat, m: nat)
    requires CanonicalTime(v).Success? && CanonicalTime(w).Success?
    requires Writes(v, h, m) && h < 24 && m < 60
    ensures CanonicalTime(v) == CanonicalTime(w) <==> Writes(w, h, m)
  {
    TimeWritten(v, h, m);
    var h', m' := AcceptedTimeWritten(w);
    TimeWritten(w, h', m');
    if CanonicalTime(v) == CanonicalTime(w) {
      HhmmDistinct(h, m, h', m');
    }
    if Writes(w, h, m) {
      TimeWritten(w, h, m);
    }
  }

  /** A canonical time is its own canonical form. */
  lemma TimeNormalForm(value: string)
    requires CanonicalTime(value).Success?
    ensures CanonicalTime(CanonicalTime(value).value) == CanonicalTime(value)
  {
    var h, m := AcceptedTimeWritten(value);
    TimeWritten(value, h, m);
    var hh, mm := TwoDigits(h), TwoDigits(m);
    DecimalValueOfDecimal(h);
    DecimalValueOfDecimal(m);
    DecimalValueOfPadded(Decimal(h), 2);
    DecimalValueOfPadded(Decimal(m), 2);
    ShortDecimal(h);
    ShortDecimal(m);
    assert Clock(hh, mm, h, m);
    TimeWritten(hh + mm, h, m);
  }
}
