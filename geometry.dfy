/** Optional values: the model of JavaScript's `null` / `undefined` fields. */
module Options {
  datatype Option<+T> = None | Some(value: T) {
    /** The `??` operator: the value, or `default` when absent. */
    function GetOr(default: T): T {
      match this
      case Some(v) => v
      case None => default
    }
  }
}

/** The canvas coordinate space: the fixed millimetre/pixel scale, the
    display units, the zone classifier of the three-wall room and the
    clamped point-to-segment projection. */
module Geometry {

  /** The canvas is a square of 800 px that stands for 210 mm. */
  const CANVAS_MM: real := 210.0
  const CANVAS_PX: real := 800.0
  const MM_TO_PX: real := CANVAS_PX / CANVAS_MM
  const PX_TO_MM: real := CANVAS_MM / CANVAS_PX

  function MmToPx(mm: real): (px: real)
    ensures PxToMm(px) == mm
  {
    mm * MM_TO_PX
  }

  function PxToMm(px: real): real {
    px * PX_TO_MM
  }

  lemma PxToMmRoundTrip(px: real)
    ensures MmToPx(PxToMm(px)) == px
  {
  }

  /** Display units with the factor from millimetres, the number of decimals and the suffix. */
  datatype Unit = Inch | Mm | Cm

  function Factor(u: Unit): (f: real)
    ensures f > 0.0
  {
    match u
    case Inch => 1.0 / 25.4
    case Mm => 1.0
    case Cm => 0.1
  }

  function Precision(u: Unit): nat {
    match u
    case Inch => 2
    case Mm => 0
    case Cm => 1
  }

  function Suffix(u: Unit): string {
    match u
    case Inch => "\""
    case Mm => " mm"
    case Cm => " cm"
  }

  function Abs(x: real): real {
    if x < 0.0 then -x else x
  }

  function Max(a: real, b: real): real {
    if a < b then b else a
  }

  function Min(a: real, b: real): real {
    if a < b then a else b
  }

  /** The four regions of the room projection a placed symbol can lie in. */
  datatype Zone = Left | Right | Front | Floor

  /** Zone of a point given in millimetres: below x = 45 the left wall lies
      above the line y = 210 - 1.555 x, beyond x = 165 the right wall lies
      above y = 1.555 (x - 165) + 140, and in between the front wall is the
      band y < 140; everything else is floor. */
  function GetZone(mmX: real, mmY: real): (z: Zone)
    ensures z == Left ==> mmX < 45.0
    ensures z == Right ==> mmX > 165.0
    ensures z == Front <==> 45.0 <= mmX <= 165.0 && mmY < 140.0
    ensures 45.0 <= mmX <= 165.0 ==> (z == Floor <==> mmY >= 140.0)
    ensures mmX < 45.0 ==> (z == Left <==> mmY < 210.0 - 1.555 * mmX)
    ensures mmX > 165.0 ==> (z == Right <==> mmY < 1.555 * (mmX - 165.0) + 140.0)
  {
    if mmX < 45.0 then
      var boundaryY := -1.555 * mmX + 210.0;
      if mmY < boundaryY then Left else Floor
    else if mmX > 165.0 then
      var boundaryY := 1.555 * (mmX - 165.0) + 140.0;
      if mmY < boundaryY then Right else Floor
    else if mmY < 140.0 then Front
    else Floor
  }

  /** The zone of a point given in canvas pixels. */
  function ZoneAt(px: real, py: real): Zone {
    GetZone(PxToMm(px), PxToMm(py))
  }

  /** Moving a point straight down never takes it off the floor. */
  lemma {:induction false} FloorIsClosedDownwards(mmX: real, mmY: real, lower: real)
    requires GetZone(mmX, mmY) == Floor && mmY <= lower
    ensures GetZone(mmX, lower) == Floor
  {
    if mmX < 45.0 {
      assert mmY >= 210.0 - 1.555 * mmX;
    } else if mmX > 165.0 {
      assert mmY >= 1.555 * (mmX - 165.0) + 140.0;
    }
  }

  /** The left-wall boundary meets x = 45 at y = 140.025, not at the
      front/floor split y = 140: a point just above the split is on the
      left wall left of x = 45 and on the floor at x = 45. */
  lemma LeftBoundaryStepAt45()
    ensures GetZone(44.99, 140.01) == Left
    ensures GetZone(45.0, 140.01) == Floor
  {
  }

  /** A drop at pixel (100, 100) is (26.25 mm, 26.25 mm) and lies on the left wall. */
  lemma DropAt100IsLeftWall()
    ensures PxToMm(100.0) == 26.25
    ensures ZoneAt(100.0, 100.0) == Left
  {
  }

  datatype Point = Point(x: real, y: real)

  datatype Segment = Segment(x1: real, y1: real, x2: real, y2: real)

  function Sq(a: real): real {
    a * a
  }

  /** Squared Euclidean distance. */
  function DistSq(ax: real, ay: real, bx: real, bY: real): real {
    Sq(ax - bx) + Sq(ay - bY)
  }

  /** `Math.hypot(dx, dy) < t`, decided without square roots: the
      hypotenuse is never negative, so the test fails for t <= 0. */
  predicate HypotBelow(dx: real, dy: real, t: real) {
    t > 0.0 && Sq(dx) + Sq(dy) < Sq(t)
  }

  /** The point at parameter t along a segment. */
  function Lerp(a: real, b: real, t: real): real {
    a + t * (b - a)
  }

  /** The result of `distToSegment`: for a zero-length segment the source
      returns a bare number whose `.dist` is undefined, modelled as
      `Degenerate`; otherwise the distance to the clamped projection and the
      projected point. Distances are kept squared. */
  datatype SegmentDistance =
    | Degenerate(distSq: real)
    | Projection(distSq: real, x: real, y: real)

  /** The squared length of a segment. */
  function LengthSq(s: Segment): real {
    DistSq(s.x1, s.y1, s.x2, s.y2)
  }

  /** The dot product of (p - p1) with the segment direction (p2 - p1). */
  function Dot(px: real, py: real, s: Segment): real {
    (px - s.x1) * (s.x2 - s.x1) + (py - s.y1) * (s.y2 - s.y1)
  }

  /** The clamped projection parameter of (px, py) onto a proper segment. */
  function ProjectionParam(px: real, py: real, s: Segment): (t: real)
    requires LengthSq(s) != 0.0
    ensures 0.0 <= t <= 1.0
  {
    ClampUnit(Dot(px, py, s) / LengthSq(s))
  }

  /** Clamping to the unit interval, `Math.max(0, Math.min(1, x))`. */
  function ClampUnit(x: real): (t: real)
    ensures 0.0 <= t <= 1.0
    ensures 0.0 <= x <= 1.0 ==> t == x
  {
    Max(0.0, Min(1.0, x))
  }

  function DistToSegment(px: real, py: real, s: Segment): (r: SegmentDistance)
    ensures r.Degenerate? <==> s.x1 == s.x2 && s.y1 == s.y2
    ensures r.Projection? ==> Min(s.x1, s.x2) <= r.x <= Max(s.x1, s.x2)
    ensures r.Projection? ==> Min(s.y1, s.y2) <= r.y <= Max(s.y1, s.y2)
    ensures r.Projection? ==> r.distSq == DistSq(px, py, r.x, r.y)
    ensures r.Projection? ==> exists u :: 0.0 <= u <= 1.0 && r.x == Lerp(s.x1, s.x2, u) && r.y == Lerp(s.y1, s.y2, u)
  {
    DistSqZero(s.x1, s.y1, s.x2, s.y2);
    if LengthSq(s) == 0.0 then
      Degenerate(DistSq(px, py, s.x1, s.y1))
    else
      var t := ProjectionParam(px, py, s);
      LerpBetween(s.x1, s.x2, t);
      LerpBetween(s.y1, s.y2, t);
      Projection(DistSq(px, py, Lerp(s.x1, s.x2, t), Lerp(s.y1, s.y2, t)), Lerp(s.x1, s.x2, t), Lerp(s.y1, s.y2, t))
  }

  lemma MulNonNegative(a: real, b: real)
    requires a >= 0.0 && b >= 0.0
    ensures a * b >= 0.0
  {
  }

  lemma SquareNonNegative(a: real)
    ensures Sq(a) >= 0.0
  {
  }

  lemma DivideBack(a: real)
    requires a != 0.0
    ensures (a * a) / a == a
  {
  }

  /** Only zero squares to zero. */
  lemma SquareZero(a: real)
    requires Sq(a) == 0.0
    ensures a == 0.0
  {
    if a != 0.0 {
      DivideBack(a);
      assert false;
    }
  }

  lemma SquareOfAbs(a: real)
    ensures Sq(Abs(a)) == Sq(a)
  {
  }

  lemma SquareMonotone(a: real, b: real)
    requires 0.0 <= b <= a
    ensures Sq(b) <= Sq(a)
  {
    assert Sq(a) - Sq(b) == (a - b) * (a + b);
    MulNonNegative(a - b, a + b);
  }

  /** A hypotenuse below t bounds each leg: |dx| < t and |dy| < t. */
  lemma HypotBound(dx: real, dy: real, t: real)
    requires HypotBelow(dx, dy, t)
    ensures Abs(dx) < t && Abs(dy) < t
  {
    SquareNonNegative(dx);
    SquareNonNegative(dy);
    if Abs(dx) >= t {
      SquareMonotone(Abs(dx), t);
      SquareOfAbs(dx);
      assert false;
    }
    if Abs(dy) >= t {
      SquareMonotone(Abs(dy), t);
      SquareOfAbs(dy);
      assert false;
    }
  }

  /** A squared distance is zero exactly when the two points coincide. */
  lemma DistSqZero(ax: real, ay: real, bx: real, bY: real)
    ensures DistSq(ax, ay, bx, bY) >= 0.0
    ensures DistSq(ax, ay, bx, bY) == 0.0 <==> ax == bx && ay == bY
  {
    SquareNonNegative(ax - bx);
    SquareNonNegative(ay - bY);
    if DistSq(ax, ay, bx, bY) == 0.0 {
      SquareZero(ax - bx);
      SquareZero(ay - bY);
    }
  }

  lemma LerpBetween(a: real, b: real, t: real)
    requires 0.0 <= t <= 1.0
    ensures Min(a, b) <= Lerp(a, b, t) <= Max(a, b)
  {
    var d := b - a;
    assert t * d + (1.0 - t) * d == d;
    if d >= 0.0 {
      MulNonNegative(t, d);
      MulNonNegative(1.0 - t, d);
    } else {
      MulNonNegative(t, -d);
      MulNonNegative(1.0 - t, -d);
      assert t * d == -(t * (-d)) && (1.0 - t) * d == -((1.0 - t) * (-d));
    }
  }

  /** The quadratic d0 - 2 v n + v^2 l2 at parameter v. */
  function Along(d0: real, n: real, l2: real, v: real): real {
    d0 - 2.0 * v * n + v * v * l2
  }

  /** The squared distance from (px, py) to the point at parameter v of a
      segment, as a quadratic in v. */
  lemma DistSqAlong(px: real, py: real, s: Segment, v: real)
    ensures DistSq(px, py, Lerp(s.x1, s.x2, v), Lerp(s.y1, s.y2, v))
         == Along(DistSq(px, py, s.x1, s.y1), Dot(px, py, s), LengthSq(s), v)
  {
    var dx, dy := s.x2 - s.x1, s.y2 - s.y1;
    var ax, ay := px - s.x1, py - s.y1;
    assert px - Lerp(s.x1, s.x2, v) == ax - v * dx;
    assert py - Lerp(s.y1, s.y2, v) == ay - v * dy;
    assert Sq(ax - v * dx) == Sq(ax) - 2.0 * v * (ax * dx) + v * v * Sq(dx);
    assert Sq(ay - v * dy) == Sq(ay) - 2.0 * v * (ay * dy) + v * v * Sq(dy);
    assert Sq(s.x1 - s.x2) == Sq(dx) && Sq(s.y1 - s.y2) == Sq(dy);
  }

  /** The clamped minimiser of v*v*l2 - 2*v*n over [0, 1] is no worse than any u there. */
  lemma ClampedMinimum(d0: real, n: real, l2: real, u: real)
    requires l2 > 0.0 && 0.0 <= u <= 1.0
    ensures Along(d0, n, l2, ClampUnit(n / l2)) <= Along(d0, n, l2, u)
  {
    var q := n / l2;
    assert n == q * l2;
    if q <= 0.0 {
      MinimumAtZero(n, l2, u);
    } else if q >= 1.0 {
      MinimumAtOne(n, l2, u);
    } else {
      MinimumInside(q, l2, u);
    }
  }

  lemma MinimumAtZero(n: real, l2: real, u: real)
    requires l2 > 0.0 && 0.0 <= u && n <= 0.0
    ensures 0.0 <= u * u * l2 - 2.0 * u * n
  {
    MulNonNegative(u, u);
    MulNonNegative(u * u, l2);
    MulNonNegative(u, -n);
    assert -2.0 * u * n == 2.0 * (u * (-n));
  }

  lemma MinimumAtOne(n: real, l2: real, u: real)
    requires l2 > 0.0 && 0.0 <= u <= 1.0 && n >= l2
    ensures l2 - 2.0 * n <= u * u * l2 - 2.0 * u * n
  {
    MulNonNegative(1.0 - u, l2);
    var w := 2.0 * n - (u + 1.0) * l2;
    assert w >= 0.0;
    MulNonNegative(1.0 - u, w);
    assert (u * u * l2 - 2.0 * u * n) - (l2 - 2.0 * n) == (1.0 - u) * w;
  }

  lemma MinimumInside(q: real, l2: real, u: real)
    requires l2 > 0.0
    ensures q * q * l2 - 2.0 * q * (q * l2) <= u * u * l2 - 2.0 * u * (q * l2)
  {
    var d := u - q;
    SquareNonNegative(d);
    MulNonNegative(d * d, l2);
    assert (u * u * l2 - 2.0 * u * (q * l2)) - (q * q * l2 - 2.0 * q * (q * l2)) == d * d * l2;
  }

  /** The projection is the point of the segment nearest to (px, py): no
      point at any parameter u in [0, 1] is closer. */
  lemma ProjectionIsNearest(px: real, py: real, s: Segment, u: real)
    requires !(s.x1 == s.x2 && s.y1 == s.y2)
    requires 0.0 <= u <= 1.0
    ensures DistToSegment(px, py, s).Projection?
    ensures DistToSegment(px, py, s).distSq <= DistSq(px, py, Lerp(s.x1, s.x2, u), Lerp(s.y1, s.y2, u))
  {
    ProjectionAlong(px, py, s);
    DistSqAlong(px, py, s, u);
    ClampedMinimum(DistSq(px, py, s.x1, s.y1), Dot(px, py, s), LengthSq(s), u);
  }

  /** The projection's squared distance is the quadratic of `DistSqAlong`
      at the clamped parameter. */
  lemma ProjectionAlong(px: real, py: real, s: Segment)
    requires !(s.x1 == s.x2 && s.y1 == s.y2)
    ensures LengthSq(s) > 0.0
    ensures DistToSegment(px, py, s).Projection?
    ensures DistToSegment(px, py, s).distSq
         == Along(DistSq(px, py, s.x1, s.y1), Dot(px, py, s), LengthSq(s), ClampUnit(Dot(px, py, s) / LengthSq(s)))
  {
    DistSqZero(s.x1, s.y1, s.x2, s.y2);
    DistSqAlong(px, py, s, ProjectionParam(px, py, s));
  }
}
