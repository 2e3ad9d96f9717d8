/** The string operations of Rust's standard library that the server relies on. */
module Text {
  import opened Wrappers

  // ---- separators ---------------------------------------------------------------------------

  function Split(s: string, sep: char): (parts: seq<string>)
    ensures |parts| > 0
  {
    if s == [] then [[]]
    else
      var rest := Split(s[1..], sep);
      if s[0] == sep then [[]] + rest else [[s[0]] + rest[0]] + rest[1..]
  }

  function Join(parts: seq<string>, sep: char): string {
    if parts == [] then []
    else if |parts| == 1 then parts[0]
    else parts[0] + [sep] + Join(parts[1..], sep)
  }

  lemma {:induction false} SplitAtSeparator(head: string, tail: string, sep: char)
    requires sep !in head
    ensures Split(head + [sep] + tail, sep) == [head] + Split(tail, sep)
    ensures Split(head, sep) == [head]
  {
    if head == [] {
      assert head + [sep] + tail == [sep] + tail;
    } else {
      SplitAtSeparator(head[1..], tail, sep);
      assert (head + [sep] + tail)[1..] == head[1..] + [sep] + tail;
      assert head == [head[0]] + head[1..];
    }
  }

  lemma {:induction false} SplitJoin(parts: seq<string>, sep: char)
    requires parts != []
    requires forall i :: 0 <= i < |parts| ==> sep !in parts[i]
    ensures Split(Join(parts, sep), sep) == parts
  {
    if |parts| == 1 {
      SplitAtSeparator(parts[0], [], sep);
    } else {
      SplitAtSeparator(parts[0], Join(parts[1..], sep), sep);
      SplitJoin(parts[1..], sep);
    }
  }

  /** Appending one more part after the separator appends one more token. */
  lemma {:induction false} SplitAppend(s: string, last: string, sep: char)
    requires sep !in last
    ensures Split(s + [sep] + last, sep) == Split(s, sep) + [last]
  {
    if s == [] {
      SplitAtSeparator([], last, sep);
      SplitAtSeparator(last, [], sep);
    } else {
      SplitAppend(s[1..], last, sep);
      assert (s + [sep] + last)[1..] == s[1..] + [sep] + last;
    }
  }

  // ---- white space --------------------------------------------------------------------------

  /** The Unicode White_Space property, which `str::trim` strips. */
  predicate IsSpace(c: char) {
    var v := c as int;
    9 <= v <= 13 || v == 0x20 || v == 0x85 || v == 0xA0 || v == 0x1680 || 0x2000 <= v <= 0x200A
    || v == 0x2028 || v == 0x2029 || v == 0x202F || v == 0x205F || v == 0x3000
  }

  /** The 25 code points of that property. */
  const WHITE_SPACE: set<int> := {
    0x9, 0xA, 0xB, 0xC, 0xD, 0x20, 0x85, 0xA0, 0x1680, 0x2000, 0x2001, 0x2002, 0x2003, 0x2004, 0x2005, 0x2006,
    0x2007, 0x2008, 0x2009, 0x200A, 0x2028, 0x2029, 0x202F, 0x205F, 0x3000}

  lemma WhiteSpaceIs(c: char)
    ensures IsSpace(c) <==> c as int in WHITE_SPACE
  {
  }

  function TrimStart(s: string): string {
    if s != [] && IsSpace(s[0]) then TrimStart(s[1..]) else s
  }

  function TrimEnd(s: string): string {
    if s != [] && IsSpace(s[|s| - 1]) then TrimEnd(s[..|s| - 1]) else s
  }

  function Trim(s: string): string { TrimEnd(TrimStart(s)) }

  predicate AllSpace(s: string) { forall i :: 0 <= i < |s| ==> IsSpace(s[i]) }

  predicate IsTrimmed(s: string) {
    s == [] || (!IsSpace(s[0]) && !IsSpace(s[|s| - 1]))
  }

  lemma {:induction false} TrimStartPadded(left: string, body: string)
    requires AllSpace(left)
    requires body == [] || !IsSpace(body[0])
    ensures TrimStart(left + body) == body
  {
    if left == [] {
      assert left + body == body;
    } else {
      TrimStartPadded(left[1..], body);
      assert (left + body)[1..] == left[1..] + body;
    }
  }

  lemma {:induction false} TrimEndPadded(body: string, right: string)
    requires AllSpace(right)
    requires body == [] || !IsSpace(body[|body| - 1])
    ensures TrimEnd(body + right) == body
  {
    if right == [] {
      assert body + right == body;
    } else {
      TrimEndPadded(body, right[..|right| - 1]);
      assert (body + right)[..|body + right| - 1] == body + right[..|right| - 1];
    }
  }

  /** Trimming strips exactly the white space around a body that neither starts nor ends with any. */
  lemma TrimPadded(left: string, body: string, right: string)
    requires AllSpace(left) && AllSpace(right)
    requires body != [] && IsTrimmed(body)
    ensures Trim(left + body + right) == body
  {
    assert left + body + right == left + (body + right);
    TrimStartPadded(left, body + right);
    TrimEndPadded(body, right);
  }

  lemma {:induction false} TrimStartLeaves(s: string) returns (left: string)
    ensures AllSpace(left) && s == left + TrimStart(s)
    ensures TrimStart(s) == [] || !IsSpace(TrimStart(s)[0])
  {
    if s != [] && IsSpace(s[0]) {
      var rest := TrimStartLeaves(s[1..]);
      left := [s[0]] + rest;
      assert s == [s[0]] + s[1..];
    } else {
      left := [];
    }
  }

  lemma {:induction false} TrimEndLeaves(s: string) returns (right: string)
    ensures AllSpace(right) && s == TrimEnd(s) + right
    ensures TrimEnd(s) == [] || !IsSpace(TrimEnd(s)[|TrimEnd(s)| - 1])
  {
    if s != [] && IsSpace(s[|s| - 1]) {
      var rest := TrimEndLeaves(s[..|s| - 1]);
      right := rest + [s[|s| - 1]];
      assert s == s[..|s| - 1] + [s[|s| - 1]];
    } else {
      right := [];
    }
  }

  /** What trimming removes is white space, and what it leaves is trimmed. */
  lemma TrimLeaves(s: string) returns (left: string, right: string)
    ensures AllSpace(left) && AllSpace(right) && s == left + Trim(s) + right && IsTrimmed(Trim(s))
  {
    left := TrimStartLeaves(s);
    right := TrimEndLeaves(TrimStart(s));
    assert Trim(s) != [] ==> Trim(s)[0] == TrimStart(s)[0];
  }

  // ---- ASCII case ---------------------------------------------------------------------------

  predicate IsAscii(s: string) { forall i :: 0 <= i < |s| ==> s[i] as int < 0x80 }

  predicate IsAsciiAlphanumeric(c: char) {
    '0' <= c <= '9' || 'a' <= c <= 'z' || 'A' <= c <= 'Z'
  }

  function LowerChar(c: char): char { if 'A' <= c <= 'Z' then (c as int + 32) as char else c }

  function UpperChar(c: char): char { if 'a' <= c <= 'z' then (c as int - 32) as char else c }

  function AsciiLower(s: string): (r: string)
    ensures |r| == |s| && forall i :: 0 <= i < |s| ==> r[i] == LowerChar(s[i])
  {
    if s == [] then [] else [LowerChar(s[0])] + AsciiLower(s[1..])
  }

  function AsciiUpper(s: string): (r: string)
    ensures |r| == |s| && forall i :: 0 <= i < |s| ==> r[i] == UpperChar(s[i])
  {
    if s == [] then [] else [UpperChar(s[0])] + AsciiUpper(s[1..])
  }

  lemma SameLetter(c: char, d: char)
    ensures LowerChar(c) == LowerChar(d) <==> UpperChar(c) == UpperChar(d)
  {
  }

  /** Two texts that agree in lower case agree in upper case, and the reverse. */
  lemma {:induction false} SameLettersSameCase(s: string, t: string)
    ensures AsciiLower(s) == AsciiLower(t) <==> AsciiUpper(s) == AsciiUpper(t)
  {
    if |s| == |t| && s != [] {
      SameLetter(s[0], t[0]);
      SameLettersSameCase(s[1..], t[1..]);
      HeadAndTail(LowerChar(s[0]), AsciiLower(s[1..]), LowerChar(t[0]), AsciiLower(t[1..]));
      HeadAndTail(UpperChar(s[0]), AsciiUpper(s[1..]), UpperChar(t[0]), AsciiUpper(t[1..]));
    } else {
      assert |AsciiLower(s)| == |AsciiUpper(s)| && |AsciiLower(t)| == |AsciiUpper(t)|;
    }
  }

  lemma HeadAndTail(c: char, s: string, d: char, t: string)
    ensures [c] + s == [d] + t <==> c == d && s == t
  {
    if [c] + s == [d] + t {
      assert ([c] + s)[0] == ([d] + t)[0];
      assert ([c] + s)[1..] == s && ([d] + t)[1..] == t;
    }
  }

  const UPPER_LETTERS: string := "ABCDEFGHIJKLMNOPQRSTUVWXYZ"
  const LOWER_LETTERS: string := "abcdefghijklmnopqrstuvwxyz"

  const DIGITS: string := "0123456789"

  lemma UpperLetter(c: char)
    ensures c in UPPER_LETTERS <==> 'A' <= c <= 'Z'
  {
    if 'A' <= c <= 'Z' {
      assert UPPER_LETTERS[c as int - 'A' as int] == c;
    }
  }

  lemma LowerLetter(c: char)
    ensures c in LOWER_LETTERS <==> 'a' <= c <= 'z'
  {
    if 'a' <= c <= 'z' {
      assert LOWER_LETTERS[c as int - 'a' as int] == c;
    }
  }

  lemma Digits(c: char)
    ensures c in DIGITS <==> '0' <= c <= '9'
  {
    if '0' <= c <= '9' {
      assert DIGITS[c as int - '0' as int] == c;
    }
  }

  /** The 26 letters change case into each other, and no other character changes. */
  lemma LetterCases(c: char)
    ensures forall k :: 0 <= k < 26 ==>
              LowerChar(UPPER_LETTERS[k]) == LOWER_LETTERS[k] && UpperChar(LOWER_LETTERS[k]) == UPPER_LETTERS[k]
    ensures LowerChar(c) != c ==> c in UPPER_LETTERS
    ensures UpperChar(c) != c ==> c in LOWER_LETTERS
  {
    UpperLetter(c);
    LowerLetter(c);
  }

  // ---- decimal numbers ----------------------------------------------------------------------

  predicate IsDigit(c: char) { '0' <= c <= '9' }

  predicate AllDigits(s: string) { forall i :: 0 <= i < |s| ==> IsDigit(s[i]) }

  function DigitValue(c: char): (d: nat)
    requires IsDigit(c)
    ensures d < 10
  {
    c as int - '0' as int
  }

  function DigitChar(d: nat): (c: char)
    requires d < 10
    ensures IsDigit(c) && DigitValue(c) == d
  {
    (d + '0' as int) as char
  }

  /** The number that a string of digits writes. */
  function DecimalValue(s: string): nat
    requires AllDigits(s)
  {
    if s == [] then 0 else DecimalValue(s[..|s| - 1]) * 10 + DigitValue(s[|s| - 1])
  }

  function Decimal(n: nat): (s: string)
    ensures |s| > 0 && AllDigits(s)
  {
    if n < 10 then [DigitChar(n)] else Decimal(n / 10) + [DigitChar(n % 10)]
  }

  /** `s` with zeros in front of it up to `width` characters. */
  function ZeroPad(s: string, width: nat): (r: string)
    ensures AllDigits(s) ==> AllDigits(r)
    ensures |r| == if |s| < width then width else |s|
    decreases width - |s|
  {
    if |s| < width then ZeroPad(['0'] + s, width) else s
  }

  lemma {:induction false} DecimalValueOfDecimal(n: nat)
    ensures DecimalValue(Decimal(n)) == n
  {
    if n >= 10 {
      DecimalValueOfDecimal(n / 10);
      assert Decimal(n)[..|Decimal(n)| - 1] == Decimal(n / 10);
    }
  }

  lemma {:induction false} LeadingZero(s: string)
    requires AllDigits(s)
    ensures DecimalValue(['0'] + s) == DecimalValue(s)
  {
    if s != [] {
      LeadingZero(s[..|s| - 1]);
      assert (['0'] + s)[..|s|] == ['0'] + s[..|s| - 1];
    }
  }

  lemma {:induction false} DecimalValueOfPadded(s: string, width: nat)
    requires AllDigits(s)
    ensures DecimalValue(ZeroPad(s, width)) == DecimalValue(s)
    decreases width - |s|
  {
    if |s| < width {
      LeadingZero(s);
      DecimalValueOfPadded(['0'] + s, width);
    }
  }

  /** `str::parse` for an unsigned type: an optional '+', then digits, within the type's maximum. */
  function ParseUnsigned(s: string, max: nat): (r: Option<nat>)
    ensures r.Some? ==> r.value <= max
  {
    var digits := if s != [] && s[0] == '+' then s[1..] else s;
    if digits != [] && AllDigits(digits) && DecimalValue(digits) <= max then Some(DecimalValue(digits)) else None
  }

  /** `str::parse` for a signed type: an optional sign, then digits, within the type's range. */
  function ParseSigned(s: string, min: int, max: int): (r: Option<int>)
    ensures r.Some? ==> min <= r.value <= max
  {
    var digits := if s != [] && (s[0] == '+' || s[0] == '-') then s[1..] else s;
    if digits == [] || !AllDigits(digits) then None
    else
      var v: int := if s[0] == '-' then 0 - DecimalValue(digits) else DecimalValue(digits);
      if min <= v <= max then Some(v) else None
  }

  function SignedDecimal(v: int): string {
    if v < 0 then ['-'] + Decimal(-v) else Decimal(v)
  }
}
