/** Arithmetic shared by the whole model: the two tolerances of the server and C rounding. */
module Basics {
  datatype Option<+T> = None | Some(value: T)

  /** A point, or a velocity, with real coordinates. */
  datatype Coords = Coords(x: real, y: real)

  /** An integer grid cell. */
  datatype Cell = Cell(x: int, y: int)

  /** std::numeric_limits<double>::epsilon(), that is 2^-52. */
  const EPSILON: real := 1.0 / 4503599627370496.0

  function Abs(x: real): real { if x < 0.0 then -x else x }

  function Max(a: real, b: real): real { if a < b then b else a }

  function Min(a: real, b: real): real { if b < a then b else a }

  function MaxInt(a: int, b: int): int { if a < b then b else a }

  function MinInt(a: int, b: int): int { if b < a then b else a }

  /** std::round: to the nearest integer, halves away from zero (section 7.12.9.6 of C11). */
  function Round(x: real): int {
    if x >= 0.0 then (x + 0.5).Floor else -((0.5 - x).Floor)
  }

  /** Conversion of a double to int: towards zero. */
  function Trunc(x: real): int {
    if x >= 0.0 then x.Floor else -((-x).Floor)
  }

  function CellOf(p: Coords): Cell { Cell(Round(p.x), Round(p.y)) }

  function AtCell(c: Cell): Coords { Coords(c.x as real, c.y as real) }

  /** Rounding never moves a number by more than a half, keeps order, and fixes the integers. */
  lemma RoundNear(x: real)
    ensures x - 0.5 <= Round(x) as real <= x + 0.5
  {
  }

  /** Rounding goes to the nearest integer, and a half goes away from zero. */
  lemma RoundIsNearest(x: real)
    ensures x >= 0.0 ==> Round(x) as real - 0.5 <= x < Round(x) as real + 0.5
    ensures x <= 0.0 ==> Round(x) as real - 0.5 < x <= Round(x) as real + 0.5
  {
  }

  /** Truncation drops the fraction, on either side of zero. */
  lemma TruncTowardsZero(x: real)
    ensures x >= 0.0 ==> Trunc(x) as real <= x < Trunc(x) as real + 1.0
    ensures x <= 0.0 ==> Trunc(x) as real - 1.0 < x <= Trunc(x) as real
  {
  }

  lemma RoundMonotone(x: real, y: real)
    requires x <= y
    ensures Round(x) <= Round(y)
  {
  }

  lemma CellOfAtCell(c: Cell)
    ensures CellOf(AtCell(c)) == c
  {
  }

  lemma SomeElement<T>(s: set<T>) returns (x: T)
    requires s != {}
    ensures x in s
  {
    x :| x in s;
  }

  function Elements<T(==)>(s: seq<T>): set<T> { set x | x in s }
}
