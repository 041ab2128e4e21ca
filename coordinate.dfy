/** A point on the competition grid, in centimetres. */
module Coordinates {
  import opened JavaSemantics

  datatype Coordinate = Coordinate(x: real, y: real)

  /**
   * Coordinate.equals: a point equals another when both components are
   * equal; it never equals a null reference.
   */
  function Equals(c: Coordinate, other: Option<Coordinate>): (r: bool)
    ensures r <==> other == Some(c)
  {
    other.Some? && c.x == other.value.x && c.y == other.value.y
  }

  lemma EqualsIsEquivalence(a: Coordinate, b: Coordinate, c: Coordinate)
    ensures Equals(a, Some(a))
    ensures Equals(a, Some(b)) == Equals(b, Some(a))
    ensures Equals(a, Some(b)) && Equals(b, Some(c)) ==> Equals(a, Some(c))
    ensures !Equals(a, None)
  {
  }
}
