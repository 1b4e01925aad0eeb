/** The camera's offset from the player: a point on a circle of radius 5 at
    the current heading, two units up. The heading is always a whole number
    of quarter turns, so sine and cosine come from a four-entry table. */
module Camera {
  import opened Geometry

  const Radius: real := 5.0
  const Lift: real := 2.0
  const QuarterTurn: int := 90

  /** A whole number of quarter turns, in degrees. */
  predicate Quarter(angle: int) {
    angle % QuarterTurn == 0
  }

  /** The number of quarter turns, counted modulo a full turn. */
  function Quadrant(angle: int): (q: int)
    ensures 0 <= q < 4
  {
    (angle / QuarterTurn) % 4
  }

  /** (sin, cos) of a whole number of quarter turns. */
  function SinCos(angle: int): (sc: (real, real))
    requires Quarter(angle)
    ensures sc.0 * sc.0 + sc.1 * sc.1 == 1.0
    ensures angle == 0 ==> sc == (0.0, 1.0)
  {
    match Quadrant(angle)
    case 0 => (0.0, 1.0)
    case 1 => (1.0, 0.0)
    case 2 => (0.0, -1.0)
    case _ => (-1.0, 0.0)
  }

  /** The table obeys the angle-addition identities of sine and cosine. */
  lemma AngleAddition(a: int, b: int)
    requires Quarter(a) && Quarter(b)
    ensures Quarter(a + b)
    ensures var (sa, ca) := SinCos(a);
            var (sb, cb) := SinCos(b);
            SinCos(a + b) == (sa * cb + ca * sb, ca * cb - sa * sb)
  {
    var m, n := a / QuarterTurn, b / QuarterTurn;
    assert a == QuarterTurn * m && b == QuarterTurn * n;
    assert (a + b) / QuarterTurn == m + n;
    assert Quadrant(a + b) == (Quadrant(a) + Quadrant(b)) % 4;
  }

  /** camera - player: (5 sin, 2, 5 cos) of the heading. */
  function Offset(angle: int): (off: Vec3)
    requires Quarter(angle)
    ensures off.y == Lift
    ensures off.x * off.x + off.z * off.z == Radius * Radius
    ensures angle == 0 ==> off == Vec3(0.0, 2.0, 5.0)
  {
    var (s, c) := SinCos(angle);
    Vec3(Radius * s, Lift, Radius * c)
  }

  /** Turning the heading by +90 degrees moves the camera a quarter of the
      way round the circle: (x, z) becomes (z, -x). */
  lemma QuarterTurnRotates(angle: int)
    requires Quarter(angle)
    ensures Quarter(angle + QuarterTurn)
    ensures Offset(angle + QuarterTurn) == Vec3(Offset(angle).z, Lift, -Offset(angle).x)
  {
    AngleAddition(angle, QuarterTurn);
  }

  /** Four quarter turns bring the camera back where it was. */
  lemma FullTurn(angle: int)
    requires Quarter(angle)
    ensures Quarter(angle + 4 * QuarterTurn)
    ensures Offset(angle + 4 * QuarterTurn) == Offset(angle)
  {
    AngleAddition(angle, 4 * QuarterTurn);
  }
}
