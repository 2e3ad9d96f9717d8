/**
 * The library calls whose source is not part of this model, as one record. Nothing is known about
 * them beyond `Lawful`.
 */
module Platform {
  import opened Wrappers
  import opened Text
  import opened Json

  /** How a ring's crossings decide its interior: the two definitions in common use. */
  datatype FillRule = EvenOdd | NonZero

  datatype Platform = Platform(
    lower: string -> string,
    date: (string, string) -> Option<string>,
    parseF64: string -> Option<F64>,
    printF64: F64 -> string,
    parseJson: string -> Option<Json>,
    printJson: Json -> string,
    polygonsIntersect: (seq<Coordinate>, seq<Coordinate>) -> bool,
    fill: FillRule)

  /** Printed geometry is an array literal without outer white space, and parses back to itself. */
  predicate Reprintable(p: Platform, j: Json) {
    var text := p.printJson(j);
    text != [] && text[0] == '[' && IsTrimmed(text) && p.parseJson(text) == Some(j)
  }

  /** A printed double is no bare '*', has no other punctuation or outer white space, and parses back to itself. */
  predicate ReprintableNumber(p: Platform, x: F64) {
    var text := p.printF64(x);
    && text != [] && text != "*" && ',' !in text && '(' !in text && ')' !in text && '[' !in text
    && IsTrimmed(text) && p.parseF64(text) == Some(x)
  }

  ghost predicate Lawful(p: Platform) {
    (forall s :: IsAscii(s) ==> p.lower(s) == AsciiLower(s))
    && (forall x :: ReprintableNumber(p, x))
    && (forall c :: Reprintable(p, CoordinateJson(c)))
    && (forall cs :: Reprintable(p, CoordinatesJson(cs)))
  }
}
