/** JSON values and the numbers inside them (serde_json). */
module Json {

  /**
   * A finite IEEE 754 double, counted in units of 2^-1074. Every finite double is a whole number
   * of those units, so comparison, minimum, maximum and equality are exact on this type.
   */
  type F64 = int

  const SUBNORMAL_BITS: nat := 1074

  function Pow2(n: nat): nat { if n == 0 then 1 else 2 * Pow2(n - 1) }

  /** The double whose value is the whole number `v`. */
  function Whole(v: int): F64 { v * Pow2(SUBNORMAL_BITS) }

  datatype Number = Integer(i: int) | Float(f: F64)

  datatype Json =
    | Null
    | Bool(b: bool)
    | Num(number: Number)
    | Str(text: string)
    | Array(items: seq<Json>)
    | Object(members: seq<(string, Json)>)

  /** Latitude before longitude, as in the API. */
  datatype Coordinate = Coordinate(lat: F64, lon: F64)

  function CoordinateJson(c: Coordinate): Json { Array([Num(Float(c.lat)), Num(Float(c.lon))]) }

  function CoordinatesJson(cs: seq<Coordinate>): Json { Array(CoordinateItems(cs)) }

  function CoordinateItems(cs: seq<Coordinate>): (items: seq<Json>)
    ensures |items| == |cs| && forall i :: 0 <= i < |cs| ==> items[i] == CoordinateJson(cs[i])
  {
    if cs == [] then [] else [CoordinateJson(cs[0])] + CoordinateItems(cs[1..])
  }
}
