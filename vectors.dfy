/** Integer 2-D vectors and their exact quarter-turn rotations.
    The grid's y axis points down, so "north" is (0, -1) and a clockwise
    quarter turn takes north to east, (1, 0). */
module Vectors {

  datatype Vec = Vec(x: int, y: int)

  /** Component-wise sum (Vector2.add). */
  function Add(a: Vec, b: Vec): (s: Vec) {
    Vec(a.x + b.x, a.y + b.y)
  }

  /** Multiplication by an integer scalar (Vector2.multiplyScalar). */
  function Scale(v: Vec, k: int): (s: Vec) {
    Vec(v.x * k, v.y * k)
  }

  /** The four facing directions of the entity. */
  predicate IsDirection(v: Vec) {
    v == Vec(0, -1) || v == Vec(1, 0) || v == Vec(0, 1) || v == Vec(-1, 0)
  }

  /** The exact cosine of q quarter turns. */
  function Cos(q: int): (c: int) {
    match q % 4
    case 0 => 1
    case 1 => 0
    case 2 => -1
    case 3 => 0
  }

  /** The exact sine of q quarter turns. */
  function Sin(q: int): (s: int) {
    match q % 4
    case 0 => 0
    case 1 => 1
    case 2 => 0
    case 3 => -1
  }

  /** Rotation around the origin by q quarter turns (q may be negative).
      The zero vector stays zero and the four directions are permuted. */
  function RotateQuarters(v: Vec, q: int): (r: Vec)
    ensures IsDirection(r) <==> IsDirection(v)
    ensures r == Vec(0, 0) <==> v == Vec(0, 0)
  {
    match q % 4
    case 0 => v
    case 1 => Vec(-v.y, v.x)
    case 2 => Vec(-v.x, -v.y)
    case 3 => Vec(v.y, -v.x)
  }

  /** RotateQuarters is the rotation formula of Vector2.rotateAround around
      the origin, with an exact cosine and sine in place of floating point
      and hence with nothing left to round. */
  lemma RotateQuartersIsRotation(v: Vec, q: int)
    ensures RotateQuarters(v, q)
         == Vec(v.x * Cos(q) - v.y * Sin(q), v.x * Sin(q) + v.y * Cos(q))
  {
    match q % 4
    case 0 =>
    case 1 =>
    case 2 =>
    case 3 =>
  }

  /** A clockwise quarter turn: (x, y) becomes (-y, x). */
  function Clockwise(v: Vec): (r: Vec)
    ensures IsDirection(r) <==> IsDirection(v)
  {
    Vec(-v.y, v.x)
  }

  /** A counter-clockwise quarter turn: (x, y) becomes (y, -x); it undoes a
      clockwise turn. */
  function CounterClockwise(v: Vec): (r: Vec)
    ensures IsDirection(r) <==> IsDirection(v)
    ensures Clockwise(r) == v
  {
    Vec(v.y, -v.x)
  }

  /** One quarter turn is a clockwise turn, minus one a counter-clockwise one. */
  lemma RotateQuartersUnit(v: Vec)
    ensures RotateQuarters(v, 1) == Clockwise(v)
    ensures RotateQuarters(v, -1) == CounterClockwise(v)
  {
    assert 1 % 4 == 1 && -1 % 4 == 3;
  }

  /** Turning by m and then by n quarter turns is turning by m + n. */
  lemma RotateQuartersCompose(v: Vec, m: int, n: int)
    ensures RotateQuarters(RotateQuarters(v, m), n) == RotateQuarters(v, m + n)
  {
    assert (m + n) % 4 == (m % 4 + n % 4) % 4;
  }

  /** Four clockwise turns restore any vector. */
  lemma FourClockwiseTurns(v: Vec)
    ensures Clockwise(Clockwise(Clockwise(Clockwise(v)))) == v
  {
  }

  /** Clockwise then counter-clockwise, or the other way round, cancel. */
  lemma ClockwiseCounterClockwiseCancel(v: Vec)
    ensures CounterClockwise(Clockwise(v)) == v
    ensures Clockwise(CounterClockwise(v)) == v
  {
  }

  /** Clockwise turns cycle north, east, south, west, north. */
  lemma CompassCycle()
    ensures Clockwise(Vec(0, -1)) == Vec(1, 0)
    ensures Clockwise(Vec(1, 0)) == Vec(0, 1)
    ensures Clockwise(Vec(0, 1)) == Vec(-1, 0)
    ensures Clockwise(Vec(-1, 0)) == Vec(0, -1)
  {
  }
}
