/** Polygons and points given as comma-separated texts mean the same as their JSON arrays. */
module CoordinateTexts {
  import opened Wrappers
  import opened Text
  import opened Json
  import opened Platform
  import opened Shapes

  /** A text that, without the white space around it, is read as this number and has no other punctuation. */
  predicate NumberText(p: Platform, part: string, v: F64) {
    var text := Trim(part);
    text != "" && ',' !in text && '(' !in text && ')' !in text && '[' !in text && p.parseF64(text) == Some(v)
  }

  /** Latitude before longitude, coordinate by coordinate. */
  predicate TextsOf(p: Platform, parts: seq<string>, cs: seq<Coordinate>) {
    |parts| == 2 * |cs|
    && forall i :: 0 <= i < |cs| ==>
       NumberText(p, parts[2 * i], cs[i].lat) && NumberText(p, parts[2 * i + 1], cs[i].lon)
  }

  lemma PairRead(p: Platform, latText: string, lonText: string, c: Coordinate)
    requires NumberText(p, latText, c.lat) && NumberText(p, lonText, c.lon)
    ensures NumberPair(p, latText, lonText) == if ValidCoordinate(c) then Some(c) else None
  {
  }

  lemma {:induction false} PairsRead(p: Platform, parts: seq<string>, cs: seq<Coordinate>)
    requires TextsOf(p, parts, cs)
    ensures PairsOf(p, parts) == if AllValid(cs) then Some(cs) else None
  {
    if cs != [] {
      assert NumberText(p, parts[2 * 0], cs[0].lat) && NumberText(p, parts[2 * 0 + 1], cs[0].lon);
      PairRead(p, parts[0], parts[1], cs[0]);
      RestTexts(p, parts, cs);
      PairsRead(p, parts[2..], cs[1..]);
      PairsStep(p, parts, cs);
    }
  }

  lemma PairsStep(p: Platform, parts: seq<string>, cs: seq<Coordinate>)
    requires cs != [] && |parts| >= 2
    requires NumberPair(p, parts[0], parts[1]) == if ValidCoordinate(cs[0]) then Some(cs[0]) else None
    requires PairsOf(p, parts[2..]) == if AllValid(cs[1..]) then Some(cs[1..]) else None
    ensures PairsOf(p, parts) == if AllValid(cs) then Some(cs) else None
  {
    ValidHead(cs);
    assert cs == [cs[0]] + cs[1..];
  }

  lemma RestTexts(p: Platform, parts: seq<string>, cs: seq<Coordinate>)
    requires cs != [] && TextsOf(p, parts, cs)
    ensures TextsOf(p, parts[2..], cs[1..])
  {
    var rest, others := parts[2..], cs[1..];
    forall i | 0 <= i < |others|
      ensures NumberText(p, rest[2 * i], others[i].lat) && NumberText(p, rest[2 * i + 1], others[i].lon)
    {
      var k := i + 1;
      assert NumberText(p, parts[2 * k], cs[k].lat) && NumberText(p, parts[2 * k + 1], cs[k].lon);
      assert rest[2 * i] == parts[2 * k] && rest[2 * i + 1] == parts[2 * k + 1] && others[i] == cs[k];
    }
  }

  lemma ValidHead(cs: seq<Coordinate>)
    requires cs != []
    ensures AllValid(cs) <==> ValidCoordinate(cs[0]) && AllValid(cs[1..])
  {
    assert forall i :: 0 < i < |cs| ==> cs[i] == cs[1..][i - 1];
  }

  // ---- white space inside a joined text -----------------------------------------------------

  /** Nothing but white space around something that is none of the punctuation. */
  predicate PlainPart(part: string) {
    Trim(part) != "" && ',' !in part && '(' !in part && ')' !in part && '[' !in part
  }

  lemma SpaceIsPlain(s: string)
    requires AllSpace(s)
    ensures ',' !in s && '(' !in s && ')' !in s && '[' !in s
  {
  }

  lemma NumberIsPlain(p: Platform, part: string, v: F64)
    requires NumberText(p, part, v)
    ensures PlainPart(part)
  {
    var left, right := TrimLeaves(part);
    SpaceIsPlain(left);
    SpaceIsPlain(right);
  }

  lemma {:induction false} JoinLast(parts: seq<string>, sep: char)
    requires |parts| >= 2
    ensures Join(parts, sep) == Join(parts[..|parts| - 1], sep) + [sep] + parts[|parts| - 1]
  {
    if |parts| > 2 {
      JoinLast(parts[1..], sep);
      assert parts[1..][..|parts| - 2] == parts[..|parts| - 1][1..];
    } else {
      assert parts[..1] == [parts[0]] && parts[1..] == [parts[1]];
    }
  }

  lemma {:induction false} JoinPlain(parts: seq<string>)
    requires forall i :: 0 <= i < |parts| ==> PlainPart(parts[i])
    ensures '(' !in Join(parts, ',') && ')' !in Join(parts, ',') && '[' !in Join(parts, ',')
  {
    if |parts| >= 2 {
      forall i | 0 <= i < |parts[1..]| ensures PlainPart(parts[1..][i]) {
        assert PlainPart(parts[i + 1]);
      }
      JoinPlain(parts[1..]);
      assert PlainPart(parts[0]);
    } else if |parts| == 1 {
      assert PlainPart(parts[0]);
    }
  }

  lemma {:induction false} JoinReplacedLast(parts: seq<string>, sep: char, last: string, right: string)
    requires parts != [] && parts[|parts| - 1] == last + right
    ensures Join(parts, sep) == Join(parts[|parts| - 1 := last], sep) + right
  {
    var n := |parts| - 1;
    var replaced := parts[n := last];
    if n > 0 {
      JoinReplacedLast(parts[1..], sep, last, right);
      assert parts[1..][n - 1 := last] == replaced[1..];
      assert parts[0] + [sep] + (Join(replaced[1..], sep) + right)
        == parts[0] + [sep] + Join(replaced[1..], sep) + right;
    }
  }

  lemma {:induction false} JoinEnd(parts: seq<string>, sep: char)
    requires parts != [] && parts[|parts| - 1] != []
    ensures Join(parts, sep) != []
            && Join(parts, sep)[|Join(parts, sep)| - 1] == parts[|parts| - 1][|parts[|parts| - 1]| - 1]
  {
    if |parts| > 1 {
      JoinEnd(parts[1..], sep);
    }
  }

  lemma TrimSame(left: string, body: string, right: string)
    requires AllSpace(left) && AllSpace(right) && body != [] && IsTrimmed(body)
    ensures Trim(body + right) == body && Trim(left + body) == body
  {
    TrimPadded([], body, right);
    TrimPadded(left, body, []);
    assert [] + body + right == body + right && left + body + [] == left + body;
  }

  /** Trimming a joined text trims the outer sides of its first and its last part. */
  lemma TrimJoin(parts: seq<string>) returns (stripped: seq<string>)
    requires |parts| >= 2 && forall i :: 0 <= i < |parts| ==> PlainPart(parts[i])
    ensures |stripped| == |parts| && forall i :: 0 <= i < |parts| ==> PlainPart(stripped[i])
    ensures forall i :: 0 <= i < |parts| ==> Trim(stripped[i]) == Trim(parts[i])
    ensures Trim(Join(parts, ',')) == Join(stripped, ',') && Join(stripped, ',') != []
  {
    var n := |parts| - 1;
    assert PlainPart(parts[0]) && PlainPart(parts[n]);
    var left, first := FrontStripped(parts[0]);
    var last, right := BackStripped(parts[n]);
    stripped := parts[0 := first][n := last];
    StrippedJoin(parts, left, first, last, right);
    EndsTrimmed(stripped);
    TrimPadded(left, Join(stripped, ','), right);
  }

  lemma FrontStripped(part: string) returns (left: string, rest: string)
    requires PlainPart(part)
    ensures AllSpace(left) && part == left + rest && PlainPart(rest) && Trim(rest) == Trim(part) && !IsSpace(rest[0])
  {
    var l, r := TrimLeaves(part);
    left, rest := l, Trim(part) + r;
    TrimSame(l, Trim(part), r);
    assert rest[0] == Trim(part)[0];
    assert forall c :: c in rest ==> c in part;
  }

  lemma BackStripped(part: string) returns (rest: string, right: string)
    requires PlainPart(part)
    ensures AllSpace(right) && part == rest + right && PlainPart(rest) && Trim(rest) == Trim(part)
    ensures !IsSpace(rest[|rest| - 1])
  {
    var l, r := TrimLeaves(part);
    rest, right := l + Trim(part), r;
    TrimSame(l, Trim(part), r);
    assert rest[|rest| - 1] == Trim(part)[|Trim(part)| - 1];
    assert forall c :: c in rest ==> c in part;
  }

  lemma StrippedJoin(parts: seq<string>, left: string, first: string, last: string, right: string)
    requires |parts| >= 2 && parts[0] == left + first && parts[|parts| - 1] == last + right
    ensures Join(parts, ',') == left + Join(parts[0 := first][|parts| - 1 := last], ',') + right
  {
    var n := |parts| - 1;
    var stripped := parts[0 := first][n := last];
    JoinReplacedLast(parts[1..], ',', last, right);
    assert parts[1..][n - 1 := last] == stripped[1..];
    var tail := Join(stripped[1..], ',');
    assert Join(parts, ',') == (left + first) + [','] + (tail + right);
    assert Join(stripped, ',') == first + [','] + tail;
    assert (left + first) + [','] + (tail + right) == left + (first + [','] + tail) + right;
  }

  lemma EndsTrimmed(parts: seq<string>)
    requires |parts| >= 2 && parts[0] != [] && !IsSpace(parts[0][0])
    requires parts[|parts| - 1] != [] && !IsSpace(parts[|parts| - 1][|parts[|parts| - 1]| - 1])
    ensures Join(parts, ',') != [] && IsTrimmed(Join(parts, ','))
  {
    JoinEnd(parts, ',');
    assert Join(parts, ',')[0] == parts[0][0];
  }

  // ---- polygons -----------------------------------------------------------------------------

  lemma TextsArePlain(p: Platform, parts: seq<string>, cs: seq<Coordinate>)
    requires TextsOf(p, parts, cs)
    ensures forall i :: 0 <= i < |parts| ==> PlainPart(parts[i])
  {
    forall i | 0 <= i < |parts| ensures PlainPart(parts[i]) {
      var k := i / 2;
      assert NumberText(p, parts[2 * k], cs[k].lat) && NumberText(p, parts[2 * k + 1], cs[k].lon);
      NumberIsPlain(p, parts[i], if i == 2 * k then cs[k].lat else cs[k].lon);
    }
  }

  lemma SameTexts(p: Platform, parts: seq<string>, stripped: seq<string>, cs: seq<Coordinate>)
    requires TextsOf(p, parts, cs) && |stripped| == |parts|
    requires forall i :: 0 <= i < |parts| ==> Trim(stripped[i]) == Trim(parts[i])
    ensures TextsOf(p, stripped, cs)
  {
    forall i | 0 <= i < |cs|
      ensures NumberText(p, stripped[2 * i], cs[i].lat) && NumberText(p, stripped[2 * i + 1], cs[i].lon)
    {
      assert NumberText(p, parts[2 * i], cs[i].lat) && NumberText(p, parts[2 * i + 1], cs[i].lon);
    }
  }

  /** The comma-joined texts, inside the optional parentheses. */
  lemma BodyRead(p: Platform, parts: seq<string>, cs: seq<Coordinate>)
    requires cs != [] && TextsOf(p, parts, cs)
    ensures var inner := Join(parts, ','); var body := Trim(inner);
            && '(' !in inner && ')' !in inner && '[' !in inner && body != []
            && |Split(body, ',')| == 2 * |cs|
            && PairsOf(p, Split(body, ',')) == if AllValid(cs) then Some(cs) else None
  {
    TextsArePlain(p, parts, cs);
    JoinPlain(parts);
    var stripped := TrimJoin(parts);
    SameTexts(p, parts, stripped, cs);
    SplitJoin(stripped, ',');
    PairsRead(p, stripped, cs);
  }

  lemma TrimKeepsOut(s: string, c: char)
    requires c !in s
    ensures c !in Trim(s)
  {
    var left, right := TrimLeaves(s);
    assert forall d :: d in Trim(s) ==> d in s;
  }

  /**
   * A polygon given as text, latitude first: with or without one pair of parentheses and with white
   * space around any part it is read as the coordinates it lists, all of which must be in range.
   */
  lemma PolygonTextMeans(p: Platform, parts: seq<string>, cs: seq<Coordinate>, left: string, right: string)
    requires cs != [] && TextsOf(p, parts, cs) && AllSpace(left) && AllSpace(right)
    ensures ParsePolygonText(p, Join(parts, ',')) == if AllValid(cs) then Some(cs) else None
    ensures ParsePolygonText(p, left + ("(" + Join(parts, ',') + ")") + right)
            == if AllValid(cs) then Some(cs) else None
  {
    BodyRead(p, parts, cs);
    BareText(p, Join(parts, ','));
    ClosedText(p, Join(parts, ','), left, right);
  }

  /** What the text of a polygon is read from: its inner part, split at the commas. */
  function InnerPairs(p: Platform, inner: string): Option<seq<Coordinate>> {
    var parts := Split(Trim(inner), ',');
    if |parts| % 2 != 0 then None else PairsOf(p, parts)
  }

  lemma BareText(p: Platform, inner: string)
    requires '(' !in inner && ')' !in inner && '[' !in inner && Trim(inner) != []
    ensures ParsePolygonText(p, inner) == InnerPairs(p, inner)
  {
    var raw := Trim(inner);
    TrimKeepsOut(inner, '(');
    TrimKeepsOut(inner, ')');
    TrimKeepsOut(inner, '[');
    assert raw[0] in raw && raw[|raw| - 1] in raw;
    TrimTwice(inner);
  }

  lemma ClosedText(p: Platform, inner: string, left: string, right: string)
    requires '(' !in inner && ')' !in inner && Trim(inner) != [] && AllSpace(left) && AllSpace(right)
    ensures ParsePolygonText(p, left + ("(" + inner + ")") + right) == InnerPairs(p, inner)
  {
    var closed := "(" + inner + ")";
    TrimPadded(left, closed, right);
    assert closed[1..|closed| - 1] == inner;
  }

  lemma TrimTwice(s: string)
    requires Trim(s) != []
    ensures Trim(Trim(s)) == Trim(s)
  {
    var left, right := TrimLeaves(s);
    TrimmedIsTrim(Trim(s));
  }

  // ---- points -------------------------------------------------------------------------------

  /** The same for a point. */
  lemma PointTextMeans(p: Platform, latText: string, lonText: string, c: Coordinate, left: string, right: string)
    requires NumberText(p, latText, c.lat) && NumberText(p, lonText, c.lon) && AllSpace(left) && AllSpace(right)
    ensures ParsePointText(p, latText + "," + lonText) == if ValidCoordinate(c) then Some(c) else None
    ensures ParsePointText(p, left + ("(" + (latText + "," + lonText) + ")") + right)
            == if ValidCoordinate(c) then Some(c) else None
  {
    var parts, inner := [latText, lonText], latText + "," + lonText;
    assert parts[2 * 0] == latText && parts[2 * 0 + 1] == lonText;
    assert Join(parts[1..], ',') == lonText;
    assert Join(parts, ',') == inner;
    BodyRead(p, parts, [c]);
    PairOfTwo(p, Split(Trim(inner), ','), c);
    BarePoint(p, inner);
    ClosedPoint(p, inner, left, right);
  }

  function InnerPair(p: Platform, inner: string): Option<Coordinate> {
    var parts := Split(Trim(inner), ',');
    if |parts| != 2 then None else NumberPair(p, parts[0], parts[1])
  }

  lemma BarePoint(p: Platform, inner: string)
    requires '(' !in inner && '[' !in inner && Trim(inner) != []
    ensures ParsePointText(p, inner) == InnerPair(p, inner)
  {
    var raw := Trim(inner);
    TrimKeepsOut(inner, '(');
    TrimKeepsOut(inner, '[');
    assert raw[0] in raw;
    TrimTwice(inner);
  }

  lemma ClosedPoint(p: Platform, inner: string, left: string, right: string)
    requires AllSpace(left) && AllSpace(right)
    ensures ParsePointText(p, left + ("(" + inner + ")") + right) == InnerPair(p, inner)
  {
    var closed := "(" + inner + ")";
    TrimPadded(left, closed, right);
    assert closed[1..|closed| - 1] == inner;
  }

  lemma PairOfTwo(p: Platform, parts: seq<string>, c: Coordinate)
    requires |parts| == 2 && PairsOf(p, parts) == if AllValid([c]) then Some([c]) else None
    ensures NumberPair(p, parts[0], parts[1]) == if ValidCoordinate(c) then Some(c) else None
  {
    assert AllValid([c]) <==> ValidCoordinate([c][0]);
    assert parts[2..] == [];
    if NumberPair(p, parts[0], parts[1]).Some? {
      assert PairsOf(p, parts).Some? && PairsOf(p, parts).value[0] == NumberPair(p, parts[0], parts[1]).value;
    }
  }

  // ---- printed numbers ----------------------------------------------------------------------

  /** The printed numbers of some coordinates, latitude first. */
  function Printed(p: Platform, cs: seq<Coordinate>): (parts: seq<string>)
    ensures |parts| == 2 * |cs|
  {
    if cs == [] then [] else [p.printF64(cs[0].lat), p.printF64(cs[0].lon)] + Printed(p, cs[1..])
  }

  lemma PrintedNumber(p: Platform, v: F64)
    requires Lawful(p)
    ensures NumberText(p, p.printF64(v), v)
  {
    assert ReprintableNumber(p, v);
    TrimmedIsTrim(p.printF64(v));
  }

  lemma {:induction false} PrintedTexts(p: Platform, cs: seq<Coordinate>)
    requires Lawful(p)
    ensures TextsOf(p, Printed(p, cs), cs)
  {
    if cs != [] {
      PrintedNumber(p, cs[0].lat);
      PrintedNumber(p, cs[0].lon);
      PrintedTexts(p, cs[1..]);
      var parts, rest := Printed(p, cs), Printed(p, cs[1..]);
      forall i | 0 <= i < |cs|
        ensures NumberText(p, parts[2 * i], cs[i].lat) && NumberText(p, parts[2 * i + 1], cs[i].lon) {
        if i > 0 {
          assert NumberText(p, rest[2 * (i - 1)], cs[1..][i - 1].lat)
            && NumberText(p, rest[2 * (i - 1) + 1], cs[1..][i - 1].lon);
        }
      }
    }
  }

  /** The printed numbers of valid coordinates, joined with commas, are read as the JSON array of them is. */
  lemma TextIsJson(p: Platform, cs: seq<Coordinate>)
    requires Lawful(p) && cs != [] && AllValid(cs)
    ensures ParsePolygonText(p, Join(Printed(p, cs), ',')) == Some(cs)
    ensures ParsePolygonText(p, "(" + Join(Printed(p, cs), ',') + ")") == Some(cs)
    ensures ParsePolygonValue(p, CoordinatesJson(cs)) == Some(cs)
  {
    PrintedTexts(p, cs);
    var closed := "(" + Join(Printed(p, cs), ',') + ")";
    PolygonTextMeans(p, Printed(p, cs), cs, [], []);
    assert [] + closed + [] == closed;
    JsonRead(p, cs);
  }

  lemma JsonRead(p: Platform, cs: seq<Coordinate>)
    requires AllValid(cs)
    ensures ParsePolygonValue(p, CoordinatesJson(cs)) == Some(cs)
  {
    ParseCanonicalItems(cs);
  }

  lemma PointTextIsJson(p: Platform, c: Coordinate)
    requires Lawful(p) && ValidCoordinate(c)
    ensures ParsePointValue(p, Str(p.printF64(c.lat) + "," + p.printF64(c.lon))) == Some(c)
    ensures ParsePointValue(p, CoordinateJson(c)) == Some(c)
  {
    PrintedNumber(p, c.lat);
    PrintedNumber(p, c.lon);
    PointTextMeans(p, p.printF64(c.lat), p.printF64(c.lon), c, "", "");
    PointJson(p, c);
  }

  lemma PointJson(p: Platform, c: Coordinate)
    requires ValidCoordinate(c)
    ensures ParsePointValue(p, CoordinateJson(c)) == Some(c)
  {
    assert ParseCoordinate(CoordinateJson(c)) == Some(c);
  }
}
