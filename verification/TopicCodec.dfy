/** Wire form of logical topic tokens (src/notification/topic_codec.rs). */
module TopicCodec {
  import opened Wrappers
  import opened Text
  import opened Sequences
  import opened Utf8

  const SEPARATOR: char := '.'

  datatype DecodeError = TrailingPercent | NonHexDigit | NotUtf8 | EmptySubject

  predicate IsReserved(c: char) { c == '.' || c == '*' || c == '>' || c == '%' }

  function HexDigit(n: nat): char
    requires n < 16
  {
    if n < 10 then (n + '0' as int) as char else (n - 10 + 'A' as int) as char
  }

  function FromHex(b: Byte): (r: Option<nat>)
    ensures r.Some? ==> r.value < 16
  {
    if '0' as int <= b <= '9' as int then Some(b - '0' as int)
    else if 'a' as int <= b <= 'f' as int then Some(b - 'a' as int + 10)
    else if 'A' as int <= b <= 'F' as int then Some(b - 'A' as int + 10)
    else None
  }

  // ---- specification ------------------------------------------------------------------------

  /** Upper-case two-digit percent form of a reserved character, any other character unchanged. */
  function Escape(c: char): string {
    if IsReserved(c) then ['%', HexDigit(c as int / 16), HexDigit(c as int % 16)] else [c]
  }

  function EncodedToken(token: string): string { FlatMap(Escape, token) }

  /** The bytes left after every percent triplet is replaced by the byte it names. */
  function Unescaped(bytes: seq<Byte>): Result<seq<Byte>, DecodeError> {
    if bytes == [] then Success([])
    else if bytes[0] == '%' as int then
      if |bytes| < 3 then Failure(TrailingPercent)
      else
        var hi, lo := FromHex(bytes[1]), FromHex(bytes[2]);
        if hi.None? || lo.None? then Failure(NonHexDigit)
        else Prepended([hi.value * 16 + lo.value], Unescaped(bytes[3..]))
    else
      Prepended([bytes[0]], Unescaped(bytes[1..]))
  }

  function Prepended(head: seq<Byte>, rest: Result<seq<Byte>, DecodeError>): Result<seq<Byte>, DecodeError> {
    match rest
    case Success(tail) => Success(head + tail)
    case Failure(e) => Failure(e)
  }

  lemma PrependedTwice(a: seq<Byte>, b: seq<Byte>, rest: Result<seq<Byte>, DecodeError>)
    ensures Prepended([], rest) == rest
    ensures Prepended(a, Prepended(b, rest)) == Prepended(a + b, rest)
  {
    if rest.Success? {
      assert [] + rest.value == rest.value;
      assert a + (b + rest.value) == a + b + rest.value;
    }
  }

  function FromUtf8(bytes: seq<Byte>): Result<string, DecodeError> {
    match Utf8.Decode(bytes)
    case Some(text) => Success(text)
    case None => Failure(NotUtf8)
  }

  function DecodedToken(wire: string): Result<string, DecodeError> {
    match Unescaped(Utf8.Encode(wire))
    case Success(bytes) => FromUtf8(bytes)
    case Failure(e) => Failure(e)
  }

  // ---- the two loops ------------------------------------------------------------------------

  method EncodeToken(token: string) returns (out: string)
    ensures out == EncodedToken(token)
  {
    out := [];
    for i := 0 to |token|
      invariant out == EncodedToken(token[..i])
    {
      var ch := token[i];
      FlatMapConcat(Escape, token[..i], [ch]);
      FlatMapOne(Escape, ch);
      assert token[..i + 1] == token[..i] + [ch];
      if IsReserved(ch) {
        out := out + ['%', HexDigit(ch as int / 16), HexDigit(ch as int % 16)];
      } else {
        out := out + [ch];
      }
    }
    assert token[..|token|] == token;
  }

  method DecodeToken(token: string) returns (r: Result<string, DecodeError>)
    ensures r == DecodedToken(token)
  {
    var bytes := Utf8.Encode(token);
    var out: seq<Byte> := [];
    var i := 0;
    PrependedTwice([], [], Unescaped(bytes));
    assert bytes[0..] == bytes;
    while i < |bytes|
      invariant 0 <= i <= |bytes|
      invariant Unescaped(bytes) == Prepended(out, Unescaped(bytes[i..]))
    {
      ghost var rest := bytes[i..];
      if bytes[i] == '%' as int {
        if i + 2 >= |bytes| {
          return Failure(TrailingPercent);
        }
        var hi, lo := FromHex(bytes[i + 1]), FromHex(bytes[i + 2]);
        if hi.None? || lo.None? {
          return Failure(NonHexDigit);
        }
        var byte := hi.value * 16 + lo.value;
        assert rest[3..] == bytes[i + 3..];
        PrependedTwice(out, [byte], Unescaped(bytes[i + 3..]));
        out := out + [byte];
        i := i + 3;
      } else {
        assert rest[1..] == bytes[i + 1..];
        PrependedTwice(out, [bytes[i]], Unescaped(bytes[i + 1..]));
        out := out + [bytes[i]];
        i := i + 1;
      }
    }
    assert out + [] == out;
    r := FromUtf8(out);
  }

  // ---- subjects -----------------------------------------------------------------------------

  function EncodedParts(parts: seq<string>): (r: seq<string>)
    ensures |r| == |parts| && forall i :: 0 <= i < |parts| ==> r[i] == EncodedToken(parts[i])
  {
    seq(|parts|, i requires 0 <= i < |parts| => EncodedToken(parts[i]))
  }

  function EncodeSubject(parts: seq<string>): string { Join(EncodedParts(parts), SEPARATOR) }

  /** Every token decoded, or the error of the first token that does not decode. */
  function DecodedParts(wires: seq<string>): (r: Result<seq<string>, DecodeError>)
    ensures r.Success? ==> |r.value| == |wires|
  {
    if wires == [] then Success([])
    else
      var first :- DecodedToken(wires[0]);
      var rest :- DecodedParts(wires[1..]);
      Success([first] + rest)
  }

  function DecodeSubject(subject: string): Result<seq<string>, DecodeError> {
    DecodedParts(Split(subject, SEPARATOR))
  }

  function DecodeSubjectBase(subject: string): Result<string, DecodeError> {
    var raw := Split(subject, SEPARATOR)[0];
    if raw == [] then Failure(EmptySubject) else DecodedToken(raw)
  }

  // ---- round trips --------------------------------------------------------------------------

  /** `Escape` seen on bytes, where it touches single bytes only. */
  function EscapedBytes(bytes: seq<Byte>): seq<Byte> { FlatMap(EscapedByte, bytes) }

  function EscapedByte(b: Byte): seq<Byte> {
    if b < 0x80 && IsReserved(b as char) then ['%' as int, HexDigit(b / 16) as int, HexDigit(b % 16) as int] else [b]
  }

  lemma {:induction false} AsciiBytes(s: string)
    requires IsAscii(s)
    ensures |Utf8.Encode(s)| == |s| && forall i :: 0 <= i < |s| ==> Utf8.Encode(s)[i] == s[i] as int
  {
    if s != [] {
      AsciiBytes(s[1..]);
    }
  }

  lemma EscapedCharacter(c: char)
    ensures EscapedBytes(EncodeChar(c)) == Utf8.Encode(Escape(c))
  {
    if c as int >= 0x80 {
      HighBytesUntouched(EncodeChar(c));
      FlatMapOne(EncodeChar, c);
    } else {
      AsciiBytes(Escape(c));
      var b: Byte := c as int;
      FlatMapOne(EscapedByte, b);
      assert EncodeChar(c) == [b];
    }
  }

  lemma {:induction false} HighBytesUntouched(b: seq<Byte>)
    requires forall i :: 0 <= i < |b| ==> b[i] >= 0x80
    ensures EscapedBytes(b) == b
  {
    if b != [] {
      HighBytesUntouched(b[1..]);
      assert b == [b[0]] + b[1..];
    }
  }

  /** Escaping the characters of a string is escaping the bytes of its UTF-8 form. */
  lemma {:induction false} EncodedTokenBytes(token: string)
    ensures Utf8.Encode(EncodedToken(token)) == EscapedBytes(Utf8.Encode(token))
  {
    if token != [] {
      FlatMapConcat(EncodeChar, Escape(token[0]), EncodedToken(token[1..]));
      EscapedCharacter(token[0]);
      EncodedTokenBytes(token[1..]);
      FlatMapConcat(EscapedByte, EncodeChar(token[0]), Utf8.Encode(token[1..]));
    }
  }

  lemma UnescapedEscapedByte(b: Byte, rest: seq<Byte>)
    ensures Unescaped(EscapedByte(b) + rest) == Prepended([b], Unescaped(rest))
  {
    var e := EscapedByte(b);
    assert (e + rest)[|e|..] == rest;
    if |e| == 3 {
      assert FromHex(e[1]) == Some(b / 16) && FromHex(e[2]) == Some(b % 16);
    }
  }

  lemma {:induction false} UnescapedEscapedBytes(bytes: seq<Byte>)
    ensures Unescaped(EscapedBytes(bytes)) == Success(bytes)
  {
    if bytes != [] {
      UnescapedEscapedBytes(bytes[1..]);
      UnescapedEscapedByte(bytes[0], EscapedBytes(bytes[1..]));
      assert bytes == [bytes[0]] + bytes[1..];
    }
  }

  /** Decoding undoes encoding on every string. */
  lemma TokenRoundTrip(token: string)
    ensures DecodedToken(EncodedToken(token)) == Success(token)
  {
    EncodedTokenBytes(token);
    UnescapedEscapedBytes(Utf8.Encode(token));
    DecodeEncode(token);
  }

  /** A wire token holds no separator and no subject wildcard. */
  lemma {:induction false} EncodedTokenIsLiteral(token: string)
    ensures '.' !in EncodedToken(token) && '*' !in EncodedToken(token) && '>' !in EncodedToken(token)
  {
    if token != [] {
      EncodedTokenIsLiteral(token[1..]);
    }
  }

  /** Every reserved character is escaped in upper-case hex, and nothing else is escaped. */
  predicate IsCanonicalWire(wire: string) {
    wire == []
    || (if wire[0] == '%' then |wire| >= 3 && wire[1..3] in ["2E", "2A", "3E", "25"] && IsCanonicalWire(wire[3..])
        else !IsReserved(wire[0]) && IsCanonicalWire(wire[1..]))
  }

  function NamedBy(hex: string): char {
    if hex == "2E" then '.' else if hex == "2A" then '*' else if hex == "3E" then '>' else '%'
  }

  lemma EscapeForms()
    ensures Escape('.') == "%2E" && Escape('*') == "%2A" && Escape('>') == "%3E" && Escape('%') == "%25"
  {
  }

  lemma {:induction false} EncodedTokenIsCanonical(token: string)
    ensures IsCanonicalWire(EncodedToken(token))
  {
    if token != [] {
      EncodedTokenIsCanonical(token[1..]);
      EscapeForms();
      var e, rest := Escape(token[0]), EncodedToken(token[1..]);
      assert (e + rest)[|e|..] == rest;
      if IsReserved(token[0]) {
        assert (e + rest)[1..3] == e[1..3];
      }
    }
  }

  lemma {:induction false} CanonicalWireIsEncoded(wire: string) returns (token: string)
    requires IsCanonicalWire(wire)
    ensures EncodedToken(token) == wire
  {
    if wire == [] {
      token := [];
    } else if wire[0] == '%' {
      var rest := CanonicalWireIsEncoded(wire[3..]);
      token := [NamedBy(wire[1..3])] + rest;
      EscapeForms();
      assert wire == ['%'] + wire[1..3] + wire[3..];
      assert token[1..] == rest;
      assert Escape(token[0]) == ['%'] + wire[1..3];
    } else {
      var rest := CanonicalWireIsEncoded(wire[1..]);
      token := [wire[0]] + rest;
      assert token[1..] == rest;
    }
  }

  /** Re-encoding what a wire token decodes to gives the same wire token exactly for canonical tokens. */
  lemma WireRoundTrip(wire: string)
    requires DecodedToken(wire).Success?
    ensures EncodedToken(DecodedToken(wire).value) == wire <==> IsCanonicalWire(wire)
  {
    EncodedTokenIsCanonical(DecodedToken(wire).value);
    if IsCanonicalWire(wire) {
      var token := CanonicalWireIsEncoded(wire);
      TokenRoundTrip(token);
    }
  }

  lemma {:induction false} DecodedEncodedParts(parts: seq<string>)
    ensures DecodedParts(EncodedParts(parts)) == Success(parts)
  {
    if parts != [] {
      TokenRoundTrip(parts[0]);
      DecodedEncodedParts(parts[1..]);
      assert EncodedParts(parts)[1..] == EncodedParts(parts[1..]);
      assert parts == [parts[0]] + parts[1..];
    }
  }

  lemma SplitEncodedSubject(parts: seq<string>)
    requires parts != []
    ensures Split(EncodeSubject(parts), SEPARATOR) == EncodedParts(parts)
  {
    forall i | 0 <= i < |parts| ensures SEPARATOR !in EncodedParts(parts)[i] {
      EncodedTokenIsLiteral(parts[i]);
    }
    SplitJoin(EncodedParts(parts), SEPARATOR);
  }

  /** A subject decodes to the parts it was built from exactly when there is at least one part. */
  lemma SubjectRoundTrip(parts: seq<string>)
    ensures DecodeSubject(EncodeSubject(parts)) == Success(parts) <==> parts != []
  {
    if parts != [] {
      SplitEncodedSubject(parts);
      DecodedEncodedParts(parts);
    }
  }

  /** Different non-empty part lists never share a subject. */
  lemma SubjectInjective(a: seq<string>, b: seq<string>)
    requires a != [] && b != [] && EncodeSubject(a) == EncodeSubject(b)
    ensures a == b
  {
    SubjectRoundTrip(a);
    SubjectRoundTrip(b);
  }

  /** Decoding only the base gives the first decoded part, unless the subject starts with an empty token. */
  lemma BaseIsFirstPart(subject: string)
    requires DecodeSubject(subject).Success?
    ensures DecodeSubjectBase(subject) ==
            if Split(subject, SEPARATOR)[0] == [] then Failure(EmptySubject)
              else Success(DecodeSubject(subject).value[0])
  {
    FirstDecoded(Split(subject, SEPARATOR));
  }

  lemma FirstDecoded(wires: seq<string>)
    requires wires != [] && DecodedParts(wires).Success?
    ensures DecodedToken(wires[0]) == Success(DecodedParts(wires).value[0])
  {
  }

  // ---- percent sequences --------------------------------------------------------------------

  const LOWER_HEX: string := "0123456789abcdef"
  const UPPER_HEX: string := "0123456789ABCDEF"

  /** `b` is the digit `n` in either letter case. */
  predicate WritesHex(b: Byte, n: nat) {
    n < 16 && (b == LOWER_HEX[n] as int || b == UPPER_HEX[n] as int)
  }

  ghost predicate IsHex(b: Byte) { exists n :: WritesHex(b, n) }

  /** Three bytes from position `i` on: a percent sign and two hexadecimal digits. */
  ghost predicate TripletAt(bytes: seq<Byte>, i: nat) {
    i + 2 < |bytes| && bytes[i] == '%' as int && IsHex(bytes[i + 1]) && IsHex(bytes[i + 2])
  }

  /** A digit is read as its place among the sixteen, in either letter case, and nothing else is a digit. */
  lemma HexBothCases(b: Byte, n: nat)
    ensures FromHex(b) == Some(n) <==> WritesHex(b, n)
  {
  }

  /** The two digits behind a percent sign are the high and the low half of the byte it stands for. */
  lemma TripletNamesByte(bytes: seq<Byte>, hi: nat, lo: nat)
    requires |bytes| >= 3 && bytes[0] == '%' as int && FromHex(bytes[1]) == Some(hi) && FromHex(bytes[2]) == Some(lo)
    ensures Unescaped(bytes) == Prepended([16 * hi + lo], Unescaped(bytes[3..]))
  {
  }

  lemma HexDigitsOnly(b: Byte)
    ensures FromHex(b).Some? <==> IsHex(b)
  {
    if FromHex(b).Some? {
      HexBothCases(b, FromHex(b).value);
    }
    if n :| WritesHex(b, n) {
      HexBothCases(b, n);
    }
  }

  lemma TripletShifts(bytes: seq<Byte>, n: nat, i: nat)
    requires n <= i < |bytes|
    ensures TripletAt(bytes[n..], i - n) <==> TripletAt(bytes, i)
  {
    var tail := bytes[n..];
    assert forall j :: 0 <= j < |tail| ==> tail[j] == bytes[n + j];
  }

  /**
   * A token decodes to bytes exactly when every percent sign starts a triplet. Otherwise a percent sign
   * with two bytes behind it that are no digits is reported before one that stands too near the end.
   */
  lemma {:induction false} UnescapedExactly(bytes: seq<Byte>)
    ensures Unescaped(bytes).Success? <==>
            forall i :: 0 <= i < |bytes| && bytes[i] == '%' as int ==> TripletAt(bytes, i)
    ensures Unescaped(bytes) == Failure(NonHexDigit) <==>
            exists i :: 0 <= i < |bytes| - 2 && bytes[i] == '%' as int && !TripletAt(bytes, i)
    ensures Unescaped(bytes).Failure? ==> Unescaped(bytes).error in {NonHexDigit, TrailingPercent}
  {
    if bytes == [] {
    } else if bytes[0] == '%' as int {
      if |bytes| < 3 {
        assert !TripletAt(bytes, 0);
      } else {
        HexDigitsOnly(bytes[1]);
        HexDigitsOnly(bytes[2]);
        assert TripletAt(bytes, 0) <==> FromHex(bytes[1]).Some? && FromHex(bytes[2]).Some?;
        if TripletAt(bytes, 0) {
          assert bytes[1] != '%' as int && bytes[2] != '%' as int;
          UnescapedTail(bytes, 3);
        }
      }
    } else {
      UnescapedTail(bytes, 1);
    }
  }

  lemma {:induction false} UnescapedTail(bytes: seq<Byte>, n: nat)
    requires 0 < n <= |bytes| && forall i :: 0 <= i < n && bytes[i] == '%' as int ==> TripletAt(bytes, i)
    ensures Unescaped(bytes[n..]).Success? <==>
            forall i :: 0 <= i < |bytes| && bytes[i] == '%' as int ==> TripletAt(bytes, i)
    ensures Unescaped(bytes[n..]) == Failure(NonHexDigit) <==>
            exists i :: 0 <= i < |bytes| - 2 && bytes[i] == '%' as int && !TripletAt(bytes, i)
    ensures Unescaped(bytes[n..]).Failure? ==> Unescaped(bytes[n..]).error in {NonHexDigit, TrailingPercent}
  {
    var tail := bytes[n..];
    UnescapedExactly(tail);
    forall i | n <= i < |bytes|
      ensures tail[i - n] == bytes[i] && (TripletAt(tail, i - n) <==> TripletAt(bytes, i))
    {
      TripletShifts(bytes, n, i);
    }
    if i :| 0 <= i < |tail| && tail[i] == '%' as int && !TripletAt(tail, i) {
      assert bytes[i + n] == '%' as int && !TripletAt(bytes, i + n);
    }
  }
}
