/**
 * Exact integer model of a cubie's orientation: a 3x3 rotation matrix, and the
 * quarter turns about the world x and y axes that `rotateOnWorldAxis` applies.
 */
module Orientation {

  datatype Vec = Vec(x: int, y: int, z: int)

  /** The two world axes the rotation commands use. */
  datatype Axis = XAxis | YAxis

  /** The two angles the rotation commands use: +pi/2 and -pi/2. */
  datatype Angle = PlusHalfPi | MinusHalfPi

  /** A 3x3 integer matrix, given by its rows. */
  datatype Mat = Mat(r0: Vec, r1: Vec, r2: Vec)

  const E1 := Vec(1, 0, 0)
  const E2 := Vec(0, 1, 0)
  const E3 := Vec(0, 0, 1)
  const Identity := Mat(E1, E2, E3)

  function Neg(v: Vec): Vec {
    Vec(-v.x, -v.y, -v.z)
  }

  function Dot(a: Vec, b: Vec): int {
    a.x * b.x + a.y * b.y + a.z * b.z
  }

  function Cross(a: Vec, b: Vec): Vec {
    Vec(a.y * b.z - a.z * b.y, a.z * b.x - a.x * b.z, a.x * b.y - a.y * b.x)
  }

  /** Row vector `a` times matrix `m`. */
  function RowTimes(a: Vec, m: Mat): Vec {
    Vec(a.x * m.r0.x + a.y * m.r1.x + a.z * m.r2.x,
        a.x * m.r0.y + a.y * m.r1.y + a.z * m.r2.y,
        a.x * m.r0.z + a.y * m.r1.z + a.z * m.r2.z)
  }

  /** Matrix product `a * b`. */
  function Mul(a: Mat, b: Mat): Mat {
    Mat(RowTimes(a.r0, b), RowTimes(a.r1, b), RowTimes(a.r2, b))
  }

  function Det(m: Mat): int {
    Dot(m.r0, Cross(m.r1, m.r2))
  }

  /** A proper rotation: orthonormal rows and determinant 1. */
  predicate IsRotation(m: Mat) {
    && Dot(m.r0, m.r0) == 1 && Dot(m.r1, m.r1) == 1 && Dot(m.r2, m.r2) == 1
    && Dot(m.r0, m.r1) == 0 && Dot(m.r0, m.r2) == 0 && Dot(m.r1, m.r2) == 0
    && Det(m) == 1
  }

  /** sin of the angle; the cos of both angles is 0. */
  function Sin(a: Angle): int {
    if a == PlusHalfPi then 1 else -1
  }

  function Negate(a: Angle): (b: Angle)
    ensures Sin(b) == -Sin(a)
  {
    if a == PlusHalfPi then MinusHalfPi else PlusHalfPi
  }

  /**
   * The rotation matrix of `angle` about the world `axis` (right-handed), with
   * cos = 0 and sin = +-1 written out exactly.
   */
  function QuarterTurn(axis: Axis, angle: Angle): (q: Mat)
    ensures q != Identity
  {
    match (axis, angle)
    case (XAxis, PlusHalfPi) => Mat(Vec(1, 0, 0), Vec(0, 0, -1), Vec(0, 1, 0))
    case (XAxis, MinusHalfPi) => Mat(Vec(1, 0, 0), Vec(0, 0, 1), Vec(0, -1, 0))
    case (YAxis, PlusHalfPi) => Mat(Vec(0, 0, 1), Vec(0, 1, 0), Vec(-1, 0, 0))
    case (YAxis, MinusHalfPi) => Mat(Vec(0, 0, -1), Vec(0, 1, 0), Vec(1, 0, 0))
  }

  /**
   * The general right-handed rotation matrix about a world axis for an angle
   * with cosine `c` and sine `s`.
   */
  function AxisRotation(axis: Axis, c: int, s: int): Mat {
    match axis
    case XAxis => Mat(Vec(1, 0, 0), Vec(0, c, -s), Vec(0, s, c))
    case YAxis => Mat(Vec(c, 0, s), Vec(0, 1, 0), Vec(-s, 0, c))
  }

  /** Each quarter turn is the general axis rotation at cos = 0, sin = +-1. */
  lemma QuarterTurnIsAxisRotation(axis: Axis, angle: Angle)
    ensures QuarterTurn(axis, angle) == AxisRotation(axis, 0, Sin(angle))
  {
  }

  lemma DotBasis(b: Vec)
    ensures Dot(E1, b) == b.x && Dot(E2, b) == b.y && Dot(E3, b) == b.z
  {
  }

  lemma CrossBasis()
    ensures Cross(E2, E3) == E1
  {
  }

  /** The orientation every cubie is created with is a rotation. */
  lemma IdentityIsRotation()
    ensures IsRotation(Identity)
  {
    DotBasis(E1);
    DotBasis(E2);
    DotBasis(E3);
    CrossBasis();
  }

  lemma DotNeg(a: Vec, b: Vec)
    ensures Dot(Neg(a), b) == -Dot(a, b) && Dot(a, Neg(b)) == -Dot(a, b)
  {
  }

  lemma CrossNeg(a: Vec, b: Vec)
    ensures Cross(Neg(a), b) == Neg(Cross(a, b)) && Cross(a, Neg(b)) == Neg(Cross(a, b))
  {
    CrossNegLeft(a, b);
    CrossNegLeft(b, a);
    CrossAnti(a, b);
    CrossAnti(Neg(b), a);
  }

  lemma CrossNegLeft(a: Vec, b: Vec)
    ensures Cross(Neg(a), b) == Neg(Cross(a, b))
  {
  }

  lemma CrossAnti(a: Vec, b: Vec)
    ensures Cross(b, a) == Neg(Cross(a, b))
  {
  }

  /** Triple product is invariant under cyclic shift of its arguments. */
  lemma TripleCyclic(a: Vec, b: Vec, c: Vec)
    ensures Dot(a, Cross(b, c)) == Dot(b, Cross(c, a))
  {
  }

  /**
   * The orientation `rotateOnWorldAxis(axis, angle)` leaves: `m` premultiplied
   * by the quarter turn (see `TurnIsPremultiplication`), which permutes and
   * negates the rows of `m`.
   */
  function Turn(axis: Axis, angle: Angle, m: Mat): Mat {
    match (axis, angle)
    case (XAxis, PlusHalfPi) => Mat(m.r0, Neg(m.r2), m.r1)
    case (XAxis, MinusHalfPi) => Mat(m.r0, m.r2, Neg(m.r1))
    case (YAxis, PlusHalfPi) => Mat(m.r2, m.r1, Neg(m.r0))
    case (YAxis, MinusHalfPi) => Mat(Neg(m.r2), m.r1, m.r0)
  }

  /** `Turn` is exactly premultiplication by the quarter-turn matrix. */
  lemma TurnIsPremultiplication(axis: Axis, angle: Angle, m: Mat)
    ensures Turn(axis, angle, m) == Mul(QuarterTurn(axis, angle), m)
  {
  }

  /** A quarter turn of a rotation is again a rotation. */
  lemma TurnKeepsRotation(axis: Axis, angle: Angle, m: Mat)
    requires IsRotation(m)
    ensures IsRotation(Turn(axis, angle, m))
  {
    var (a, b, c) := (m.r0, m.r1, m.r2);
    DotNeg(a, a); DotNeg(b, b); DotNeg(c, c);
    DotNeg(a, b); DotNeg(a, c); DotNeg(b, c);
    DotNeg(b, a); DotNeg(c, a); DotNeg(c, b);
    DotNeg(Neg(a), a); DotNeg(Neg(b), b); DotNeg(Neg(c), c);
    CrossNeg(a, b); CrossNeg(b, a); CrossNeg(a, c); CrossNeg(c, a); CrossNeg(b, c); CrossNeg(c, b);
    CrossAnti(a, b); CrossAnti(b, c); CrossAnti(a, c);
    TripleCyclic(a, b, c); TripleCyclic(b, c, a);
    DotNeg(a, Cross(b, c)); DotNeg(b, Cross(c, a)); DotNeg(c, Cross(a, b));
    DotNeg(a, Cross(c, b)); DotNeg(c, Cross(b, a)); DotNeg(b, Cross(a, c));
  }

  /** A quarter turn moves every rotation: premultiplying never leaves it fixed. */
  lemma TurnMovesRotation(axis: Axis, angle: Angle, m: Mat)
    requires IsRotation(m)
    ensures Turn(axis, angle, m) != m
  {
  }

  /** Turning by an angle and then by its negation restores the orientation. */
  lemma NegatedTurnCancels(axis: Axis, angle: Angle, m: Mat)
    ensures Turn(axis, Negate(angle), Turn(axis, angle, m)) == m
  {
  }

  /** Four equal quarter turns about one axis are the identity. */
  lemma FourTurnsIdentity(axis: Axis, angle: Angle, m: Mat)
    ensures Turn(axis, angle, Turn(axis, angle, Turn(axis, angle, Turn(axis, angle, m)))) == m
  {
  }

  /** Quarter turns about the same axis commute. */
  lemma SameAxisTurnsCommute(axis: Axis, a1: Angle, a2: Angle, m: Mat)
    ensures Turn(axis, a1, Turn(axis, a2, m)) == Turn(axis, a2, Turn(axis, a1, m))
  {
  }
}
