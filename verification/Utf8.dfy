/** UTF-8 as section 4 of RFC 3629 defines it. A string is a sequence of Unicode scalar values. */
module Utf8 {
  import opened Wrappers
  import opened Sequences

  type Byte = b: int | 0 <= b < 0x100

  function EncodeChar(c: char): (bytes: seq<Byte>)
    ensures |bytes| > 0
  {
    var v := c as int;
    if v < 0x80 then [v]
    else if v < 0x800 then [0xC0 + v / 0x40, 0x80 + v % 0x40]
    else if v < 0x1_0000 then [0xE0 + v / 0x1000, 0x80 + v / 0x40 % 0x40, 0x80 + v % 0x40]
    else [0xF0 + v / 0x4_0000, 0x80 + v / 0x1000 % 0x40, 0x80 + v / 0x40 % 0x40, 0x80 + v % 0x40]
  }

  function Encode(s: string): seq<Byte> { FlatMap(EncodeChar, s) }

  predicate IsTail(b: Byte) { 0x80 <= b <= 0xBF }

  /** The six payload bits of a tail byte. */
  function Low(b: Byte): int { b as int - 0x80 }

  /** The scalar value of the first well-formed character of `b` and its length in bytes. */
  function DecodeFirst(b: seq<Byte>): (r: Option<(char, nat)>)
    ensures r.Some? ==> 0 < r.value.1 <= |b|
  {
    if |b| >= 1 && b[0] < 0x80 then
      Some((b[0] as char, 1))
    else if |b| >= 2 && 0xC2 <= b[0] <= 0xDF && IsTail(b[1]) then
      Some((((b[0] as int - 0xC0) * 0x40 + Low(b[1])) as char, 2))
    else if |b| >= 3 && 0xE0 <= b[0] <= 0xEF && IsTail(b[1]) && IsTail(b[2])
            && (b[0] == 0xE0 ==> 0xA0 <= b[1]) && (b[0] == 0xED ==> b[1] <= 0x9F) then
      Some((((b[0] as int - 0xE0) * 0x1000 + Low(b[1]) * 0x40 + Low(b[2])) as char, 3))
    else if |b| >= 4 && 0xF0 <= b[0] <= 0xF4 && IsTail(b[1]) && IsTail(b[2]) && IsTail(b[3])
            && (b[0] == 0xF0 ==> 0x90 <= b[1]) && (b[0] == 0xF4 ==> b[1] <= 0x8F) then
      Some((((b[0] as int - 0xF0) * 0x4_0000 + Low(b[1]) * 0x1000 + Low(b[2]) * 0x40 + Low(b[3])) as char, 4))
    else
      None
  }

  /** The text that `b` encodes, or None when some part of `b` is not well formed. */
  function Decode(b: seq<Byte>): Option<string> {
    if b == [] then Some([])
    else match DecodeFirst(b)
      case None => None
      case Some(first) =>
        match Decode(b[first.1..])
        case None => None
        case Some(rest) => Some([first.0] + rest)
  }

  lemma FirstOfOneOrTwo(c: char, b: seq<Byte>)
    requires (c as int) < 0x800 && EncodeChar(c) <= b
    ensures DecodeFirst(b) == Some((c, |EncodeChar(c)|))
  {
    var e := EncodeChar(c);
    assert forall i :: 0 <= i < |e| ==> b[i] == e[i];
  }

  lemma FirstOfThree(c: char, b: seq<Byte>)
    requires 0x800 <= c as int < 0x1_0000 && EncodeChar(c) <= b
    ensures DecodeFirst(b) == Some((c, 3))
  {
    var e, v := EncodeChar(c), c as int;
    ThreeDigits(v);
    assert b[0] == e[0] && b[1] == e[1] && b[2] == e[2];
    assert Low(b[1]) == v / 0x40 % 0x40 && Low(b[2]) == v % 0x40;
  }

  lemma FirstOfFour(c: char, b: seq<Byte>)
    requires 0x1_0000 <= c as int && EncodeChar(c) <= b
    ensures DecodeFirst(b) == Some((c, 4))
  {
    var e, v := EncodeChar(c), c as int;
    FourDigits(v);
    assert b[0] == e[0] && b[1] == e[1] && b[2] == e[2] && b[3] == e[3];
    assert Low(b[1]) == v / 0x1000 % 0x40 && Low(b[2]) == v / 0x40 % 0x40 && Low(b[3]) == v % 0x40;
  }

  lemma DecodeFirstOfEncoded(c: char, rest: seq<Byte>)
    ensures DecodeFirst(EncodeChar(c) + rest) == Some((c, |EncodeChar(c)|))
  {
    if c as int < 0x800 {
      FirstOfOneOrTwo(c, EncodeChar(c) + rest);
    } else if c as int < 0x1_0000 {
      FirstOfThree(c, EncodeChar(c) + rest);
    } else {
      FirstOfFour(c, EncodeChar(c) + rest);
    }
  }

  lemma OneDigit(v: nat)
    ensures v == (v / 0x40) * 0x40 + v % 0x40
  {
  }

  lemma DropTwo(v: nat)
    ensures v / 0x40 / 0x40 == v / 0x1000
  {
  }

  lemma DropThree(v: nat)
    ensures v / 0x1000 / 0x40 == v / 0x4_0000
  {
  }

  lemma ThreeDigits(v: nat)
    ensures v == (v / 0x1000) * 0x1000 + (v / 0x40 % 0x40) * 0x40 + v % 0x40
  {
    OneDigit(v);
    OneDigit(v / 0x40);
    DropTwo(v);
  }

  lemma FourDigits(v: nat)
    ensures v == (v / 0x4_0000) * 0x4_0000 + (v / 0x1000 % 0x40) * 0x1000 + (v / 0x40 % 0x40) * 0x40 + v % 0x40
  {
    ThreeDigits(v);
    OneDigit(v / 0x1000);
    DropThree(v);
  }

  /** Every string survives encoding, so what a Rust string holds is always decodable. */
  lemma {:induction false} DecodeEncode(s: string)
    ensures Decode(Encode(s)) == Some(s)
  {
    if s != [] {
      var head, tail := EncodeChar(s[0]), Encode(s[1..]);
      DecodeFirstOfEncoded(s[0], tail);
      assert (head + tail)[|head|..] == tail;
      DecodeEncode(s[1..]);
      assert s == [s[0]] + s[1..];
    }
  }

  lemma SixBits(v: int, high: int, low: int)
    requires v == high * 0x40 + low && 0 <= low < 0x40
    ensures v / 0x40 == high && v % 0x40 == low
  {
  }

  lemma EncodesTwo(b: seq<Byte>)
    requires DecodeFirst(b).Some? && DecodeFirst(b).value.1 == 2
    ensures EncodeChar(DecodeFirst(b).value.0) == b[..2]
  {
    SixBits(DecodeFirst(b).value.0 as int, b[0] as int - 0xC0, Low(b[1]));
  }

  lemma EncodesThree(b: seq<Byte>)
    requires DecodeFirst(b).Some? && DecodeFirst(b).value.1 == 3
    ensures EncodeChar(DecodeFirst(b).value.0) == b[..3]
  {
    var v := DecodeFirst(b).value.0 as int;
    var w := (b[0] as int - 0xE0) * 0x40 + Low(b[1]);
    SixBits(v, w, Low(b[2]));
    SixBits(w, b[0] as int - 0xE0, Low(b[1]));
    DropTwo(v);
  }

  lemma EncodesFour(b: seq<Byte>)
    requires DecodeFirst(b).Some? && DecodeFirst(b).value.1 == 4
    ensures EncodeChar(DecodeFirst(b).value.0) == b[..4]
  {
    var v := DecodeFirst(b).value.0 as int;
    var x := (b[0] as int - 0xF0) * 0x40 + Low(b[1]);
    var w := x * 0x40 + Low(b[2]);
    SixBits(v, w, Low(b[3]));
    SixBits(w, x, Low(b[2]));
    SixBits(x, b[0] as int - 0xF0, Low(b[1]));
    DropTwo(v);
    DropThree(v);
  }

  lemma EncodeFirstOfDecoded(b: seq<Byte>)
    requires DecodeFirst(b).Some?
    ensures EncodeChar(DecodeFirst(b).value.0) == b[..DecodeFirst(b).value.1]
  {
    var n := DecodeFirst(b).value.1;
    if n == 2 {
      EncodesTwo(b);
    } else if n == 3 {
      EncodesThree(b);
    } else if n == 4 {
      EncodesFour(b);
    }
  }

  lemma DecodeCons(b: seq<Byte>)
    requires b != [] && Decode(b).Some?
    ensures DecodeFirst(b).Some? && Decode(b[DecodeFirst(b).value.1..]).Some?
    ensures Decode(b).value == [DecodeFirst(b).value.0] + Decode(b[DecodeFirst(b).value.1..]).value
  {
  }

  /** No byte sequence other than the encoding of `s` decodes to `s`. */
  lemma {:induction false} EncodeDecode(b: seq<Byte>)
    ensures Decode(b).Some? ==> Encode(Decode(b).value) == b
  {
    if b != [] && Decode(b).Some? {
      DecodeCons(b);
      var (c, n) := DecodeFirst(b).value;
      EncodeFirstOfDecoded(b);
      EncodeDecode(b[n..]);
      FlatMapCons(EncodeChar, c, Decode(b[n..]).value);
      assert b == b[..n] + b[n..];
    }
  }
}
