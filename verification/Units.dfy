/** Duration and size literals of the configuration (src/configuration/units.rs). */
module Units {
  import opened Wrappers
  import opened Text

  const MAX_U64: nat := 0xFFFF_FFFF_FFFF_FFFF
  const MAX_I64: nat := 0x7FFF_FFFF_FFFF_FFFF
  const NANOS_PER_SECOND: nat := 1_000_000_000

  datatype UnitError = EmptyLiteral | MissingUnit | NotAnInteger | NotPositive | UnknownUnit | Overflow | TooLong

  /** Length of the run of digits at the start of `s`. */
  function DigitRun(s: string): (n: nat)
    ensures n <= |s| && AllDigits(s[..n]) && (n < |s| ==> !IsDigit(s[n]))
  {
    if s == [] || !IsDigit(s[0]) then 0 else 1 + DigitRun(s[1..])
  }

  /** The digits and the unit of a literal, both as written. */
  function Parts(input: string): (r: Result<(string, string), UnitError>)
    ensures r.Success? ==> AllDigits(r.value.0)
  {
    var trimmed := Trim(input);
    if trimmed == [] then Failure(EmptyLiteral)
    else
      var n := DigitRun(trimmed);
      if n == |trimmed| then Failure(MissingUnit) else Success((trimmed[..n], trimmed[n..]))
  }

  function UnitSeconds(unit: string): Option<nat> {
    var u := AsciiLower(unit);
    if u == "s" then Some(1)
    else if u == "m" then Some(60)
    else if u == "h" then Some(60 * 60)
    else if u == "d" then Some(24 * 60 * 60)
    else if u == "w" then Some(7 * 24 * 60 * 60)
    else None
  }

  function CheckedMultiply(value: nat, factor: nat, max: nat): Result<nat, UnitError> {
    if value * factor > max then Failure(Overflow) else Success(value * factor)
  }

  function ParseDuration(input: string): Result<nat, UnitError> {
    var (digits, unit) :- Parts(input);
    if digits == [] || DecimalValue(digits) > MAX_U64 then Failure(NotAnInteger)
    else match UnitSeconds(unit)
      case None => Failure(UnknownUnit)
      case Some(factor) => CheckedMultiply(DecimalValue(digits), factor, MAX_U64)
  }

  function ParseRetention(input: string): Result<nat, UnitError> {
    var seconds :- ParseDuration(input);
    if seconds * NANOS_PER_SECOND > MAX_I64 then Failure(TooLong) else Success(seconds)
  }

  function UnitBytes(unit: string): Option<nat> {
    if unit == "K" then Some(1_000)
    else if unit == "M" then Some(1_000_000)
    else if unit == "G" then Some(1_000_000_000)
    else if unit == "T" then Some(1_000_000_000_000)
    else if unit == "Ki" then Some(1_024)
    else if unit == "Mi" then Some(1_048_576)
    else if unit == "Gi" then Some(1_073_741_824)
    else if unit == "Ti" then Some(1_099_511_627_776)
    else None
  }

  function ParseSize(input: string): Result<nat, UnitError> {
    var (digits, unit) :- Parts(input);
    if digits == [] || DecimalValue(digits) > MAX_I64 then Failure(NotAnInteger)
    else if DecimalValue(digits) == 0 then Failure(NotPositive)
    else match UnitBytes(unit)
      case None => Failure(UnknownUnit)
      case Some(factor) => CheckedMultiply(DecimalValue(digits), factor, MAX_I64)
  }

  /** `input` is a number, then a unit, with nothing around them but white space. */
  ghost predicate Spells(input: string, digits: string, unit: string) {
    && digits != [] && AllDigits(digits)
    && unit != [] && !IsDigit(unit[0]) && !IsSpace(unit[|unit| - 1])
    && exists left, right :: AllSpace(left) && AllSpace(right) && input == left + (digits + unit) + right
  }

  lemma {:induction false} DigitRunOf(digits: string, rest: string)
    requires AllDigits(digits) && (rest == [] || !IsDigit(rest[0]))
    ensures DigitRun(digits + rest) == |digits|
  {
    if digits == [] {
      assert digits + rest == rest;
    } else {
      DigitRunOf(digits[1..], rest);
      assert (digits + rest)[1..] == digits[1..] + rest;
    }
  }

  lemma DigitIsNotSpace(c: char)
    requires IsDigit(c)
    ensures !IsSpace(c)
  {
  }

  lemma SpelledParts(input: string, digits: string, unit: string)
    requires Spells(input, digits, unit)
    ensures Parts(input) == Success((digits, unit))
  {
    var left, right :| AllSpace(left) && AllSpace(right) && input == left + (digits + unit) + right;
    var body := digits + unit;
    DigitIsNotSpace(digits[0]);
    TrimPadded(left, body, right);
    DigitRunOf(digits, unit);
    assert body[..|digits|] == digits && body[|digits|..] == unit;
  }

  lemma PartsSpelled(input: string)
    requires Parts(input).Success? && Parts(input).value.0 != []
    ensures Spells(input, Parts(input).value.0, Parts(input).value.1)
  {
    var left, right := TrimLeaves(input);
    var trimmed := Trim(input);
    var n := DigitRun(trimmed);
    assert trimmed == trimmed[..n] + trimmed[n..];
    assert input == left + (trimmed[..n] + trimmed[n..]) + right;
  }

  /**
   * A literal means `n` seconds exactly when it spells a number and a unit whose product is `n` and
   * fits in 64 bits.
   */
  lemma DurationExact(input: string, n: nat)
    ensures ParseDuration(input) == Success(n) <==>
            exists digits, unit :: Spells(input, digits, unit) && UnitSeconds(unit).Some?
                                   && n == DecimalValue(digits) * UnitSeconds(unit).value && n <= MAX_U64
    ensures ParseDuration(input) == Failure(Overflow) <==>
            exists digits, unit :: Spells(input, digits, unit) && UnitSeconds(unit).Some?
                                   && DecimalValue(digits) <= MAX_U64 < DecimalValue(digits) * UnitSeconds(unit).value
  {
    if Parts(input).Success? && Parts(input).value.0 != [] {
      PartsSpelled(input);
    }
    forall digits, unit | Spells(input, digits, unit) ensures Parts(input) == Success((digits, unit)) {
      SpelledParts(input, digits, unit);
    }
  }

  /** Retention accepts a duration exactly up to 9223372036 seconds, and never changes it. */
  lemma RetentionLimit(input: string, n: nat)
    ensures ParseRetention(input) == Success(n) <==> ParseDuration(input) == Success(n) && n <= 9_223_372_036
  {
  }

  lemma SizeExact(input: string, n: nat)
    ensures ParseSize(input) == Success(n) <==>
            exists digits, unit :: Spells(input, digits, unit) && UnitBytes(unit).Some?
                                   && n == DecimalValue(digits) * UnitBytes(unit).value && 0 < n <= MAX_I64
    ensures ParseSize(input) == Failure(Overflow) <==>
            exists digits, unit :: Spells(input, digits, unit) && UnitBytes(unit).Some?
                                   && DecimalValue(digits) <= MAX_I64 < DecimalValue(digits) * UnitBytes(unit).value
  {
    if Parts(input).Success? && Parts(input).value.0 != [] {
      PartsSpelled(input);
    }
    forall digits, unit | Spells(input, digits, unit) ensures Parts(input) == Success((digits, unit)) {
      SpelledParts(input, digits, unit);
    }
  }

  // ---- what the units are -------------------------------------------------------------------

  const DURATION_UNITS: seq<string> := ["s", "m", "h", "d", "w"]
  const SIZE_UNITS: string := "KMGT"

  function Power(base: nat, n: nat): nat { if n == 0 then 1 else base * Power(base, n - 1) }

  lemma CountLimits()
    ensures MAX_U64 == 18_446_744_073_709_551_615 && MAX_I64 == 9_223_372_036_854_775_807
  {
  }

  /** A second, then 60 of them, 60, 24 and 7 of the unit before, whatever the letter case. */
  lemma DurationUnits(unit: string, k: nat)
    requires k < |DURATION_UNITS| && AsciiLower(unit) == DURATION_UNITS[k]
    ensures UnitSeconds(unit) ==
            if k == 0 then Some(1) else Some([60, 60, 24, 7][k - 1] * UnitSeconds(DURATION_UNITS[k - 1]).value)
  {
    assert AsciiLower("s") == "s" && AsciiLower("m") == "m" && AsciiLower("h") == "h" && AsciiLower("d") == "d";
  }

  lemma NoOtherDuration(unit: string)
    requires AsciiLower(unit) !in DURATION_UNITS
    ensures UnitSeconds(unit) == None
  {
    var u := AsciiLower(unit);
    assert DURATION_UNITS[0] != u && DURATION_UNITS[1] != u && DURATION_UNITS[2] != u;
    assert DURATION_UNITS[3] != u && DURATION_UNITS[4] != u;
  }

  lemma Powers(base: nat)
    ensures Power(base, 1) == base && Power(base, 2) == base * base && Power(base, 3) == base * (base * base)
    ensures Power(base, 4) == base * (base * (base * base))
  {
    assert Power(base, 4) == base * Power(base, 3);
  }

  /** The k-th letter is the k-th power of 1000, and of 1024 with an "i" behind it; there is no other unit. */
  lemma SizeUnits(unit: string)
    ensures forall k :: 0 <= k < 4 ==>
              && UnitBytes([SIZE_UNITS[k]]) == Some(Power(1000, k + 1))
              && UnitBytes([SIZE_UNITS[k]] + "i") == Some(Power(1024, k + 1))
    ensures UnitBytes(unit).Some? <==> unit != [] && unit[0] in SIZE_UNITS && unit[1..] in ["", "i"]
  {
    assert unit != [] ==> unit == [unit[0]] + unit[1..];
    Powers(1000);
    Powers(1024);
    forall k | 0 <= k < 4
      ensures UnitBytes([SIZE_UNITS[k]]) == Some(Power(1000, k + 1))
      ensures UnitBytes([SIZE_UNITS[k]] + "i") == Some(Power(1024, k + 1))
    {
      assert [SIZE_UNITS[k]] == ["K", "M", "G", "T"][k];
      assert [SIZE_UNITS[k]] + "i" == ["Ki", "Mi", "Gi", "Ti"][k];
    }
  }
}
