/**
 * The immutable 2D vector `Point` of src/drawer/Point.ts. Coordinates are
 * reals; operations that need a square root or trigonometry are not modelled.
 */
module Points {
  import opened Wrappers

  datatype Point = Point(x: real, y: real)

  datatype Axis = X | Y

  /** `Point.zero` */
  const Zero := Point(0.0, 0.0)

  function Abs(v: real): (r: real)
    ensures r >= 0.0 && (r == v || r == -v)
  {
    if v < 0.0 then -v else v
  }

  function MinReal(a: real, b: real): (r: real)
    ensures r <= a && r <= b && (r == a || r == b)
  {
    if a < b then a else b
  }

  function MaxReal(a: real, b: real): (r: real)
    ensures r >= a && r >= b && (r == a || r == b)
  {
    if a > b then a else b
  }

  /** Largest integer not above `v` (`Math.floor`). */
  function FloorReal(v: real): (r: int)
    ensures r as real <= v < r as real + 1.0
  {
    v.Floor
  }

  /** Smallest integer not below `v` (`Math.ceil`). */
  function CeilReal(v: real): (r: int)
    ensures v <= r as real < v + 1.0
  {
    -((-v).Floor)
  }

  /** The component of `p` on `axis`. */
  function Get(p: Point, axis: Axis): real {
    match axis
    case X => p.x
    case Y => p.y
  }

  function OtherAxis(axis: Axis): (r: Axis)
    ensures r != axis
  {
    if axis == X then Y else X
  }

  /** `p.add(q)`, the object overload. */
  function Add(p: Point, q: Point): (r: Point)
    ensures r == p <==> IsZero(q)
  {
    Point(p.x + q.x, p.y + q.y)
  }

  /** `p.add(x, y)`, the number overload (`y` defaults to 0). */
  function AddXY(p: Point, x: real, y: real := 0.0): (r: Point)
    ensures r == Add(p, Point(x, y))
  {
    Point(p.x + x, p.y + y)
  }

  /** `p.sub(q)`, the object overload. */
  function Sub(p: Point, q: Point): (r: Point)
    ensures IsZero(r) <==> p == q
  {
    Point(p.x - q.x, p.y - q.y)
  }

  /** `p.sub(x, y)`, the number overload (`y` defaults to 0). */
  function SubXY(p: Point, x: real, y: real := 0.0): (r: Point)
    ensures r == Sub(p, Point(x, y))
  {
    Point(p.x - x, p.y - y)
  }

  /** `p.mul(s)`: multiplication by a scalar. */
  function Mul(p: Point, s: real): (r: Point)
    ensures s == 1.0 ==> r == p
    ensures s == 0.0 ==> r == Zero
  {
    Point(p.x * s, p.y * s)
  }

  /** `p.scale(q)`: element-wise multiplication by another vector. */
  function Scale(p: Point, q: Point): Point {
    Point(p.x * q.x, p.y * q.y)
  }

  /** `p.scale(n, otherY)`, the number overload; `otherY` defaults to 0. */
  function ScaleNum(p: Point, n: real, otherY: real := 0.0): (r: Point)
    ensures r == Scale(p, Point(n, otherY))
  {
    Point(p.x * n, p.y * otherY)
  }

  /** `p.with(axis, value)` */
  function With(p: Point, axis: Axis, value: real): (r: Point)
    ensures Get(r, axis) == value
    ensures Get(r, OtherAxis(axis)) == Get(p, OtherAxis(axis))
  {
    match axis
    case X => Point(value, p.y)
    case Y => Point(p.x, value)
  }

  /** `p.equals(q)`: componentwise equality. */
  function Equals(p: Point, q: Point): (r: bool)
    ensures r <==> p == q
  {
    p.x == q.x && p.y == q.y
  }

  function IsZero(p: Point): (r: bool)
    ensures r <==> p == Zero
  {
    p.x == 0.0 && p.y == 0.0
  }

  function Floor(p: Point): Point {
    Point(FloorReal(p.x) as real, FloorReal(p.y) as real)
  }

  function Ceil(p: Point): Point {
    Point(CeilReal(p.x) as real, CeilReal(p.y) as real)
  }

  /** `Point.dot(a, b)` */
  function Dot(a: Point, b: Point): (r: real)
    ensures a == b ==> r >= 0.0
    ensures IsZero(a) || IsZero(b) ==> r == 0.0
  {
    a.x * b.x + a.y * b.y
  }

  /** `Point.distSqr(a, b)` */
  function DistSqr(a: Point, b: Point): (r: real)
    ensures r >= 0.0
  {
    (a.x - b.x) * (a.x - b.x) + (a.y - b.y) * (a.y - b.y)
  }

  /** `Point.min(a, b)` */
  function Min(a: Point, b: Point): (r: Point)
    ensures r.x <= a.x && r.x <= b.x && (r.x == a.x || r.x == b.x)
    ensures r.y <= a.y && r.y <= b.y && (r.y == a.y || r.y == b.y)
  {
    Point(MinReal(a.x, b.x), MinReal(a.y, b.y))
  }

  /** `Point.max(a, b)` */
  function Max(a: Point, b: Point): (r: Point)
    ensures r.x >= a.x && r.x >= b.x && (r.x == a.x || r.x == b.x)
    ensures r.y >= a.y && r.y >= b.y && (r.y == a.y || r.y == b.y)
  {
    Point(MaxReal(a.x, b.x), MaxReal(a.y, b.y))
  }

  /**
   * `Point.cardinalDirection(start, end)`: the difference `end - start` with
   * only the component of strictly larger magnitude kept; a tie keeps y.
   */
  function CardinalDirection(start: Point, end: Point): (r: Point)
    ensures var d := Add(end, Mul(start, -1.0));
      || (r == Point(d.x, 0.0) && Abs(d.x) > Abs(d.y))
      || (r == Point(0.0, d.y) && Abs(d.y) >= Abs(d.x))
  {
    var diff := Add(end, Mul(start, -1.0));
    if Abs(diff.x) > Abs(diff.y) then Point(diff.x, 0.0) else Point(0.0, diff.y)
  }

  /** `p.lerp(target, frac)` */
  function Lerp(p: Point, target: Point, frac: real): (r: Point)
    ensures r == Add(Mul(p, 1.0 - frac), Mul(target, frac))
  {
    Add(p, Mul(Add(target, Mul(p, -1.0)), frac))
  }

  /** The object returned by `Point.project(start, direction, target)`. */
  datatype Projection = Projection(start: Point, direction: Point, length: real)

  /** `Point.project(start, direction, target)` */
  function Project(start: Point, direction: Point, target: Point): (r: Projection)
    ensures r.start == start && r.direction == direction
    ensures r.length == Dot(direction, Sub(target, start))
  {
    var targetStart := Add(target, Mul(start, -1.0));
    Projection(start, direction, Dot(direction, targetStart))
  }

  /** The projection's `point()`: `start + direction * length`. */
  function ProjectedPoint(pr: Projection): (r: Point)
    ensures pr.length == 0.0 || IsZero(pr.direction) ==> r == pr.start
  {
    Add(pr.start, Mul(pr.direction, pr.length))
  }

  /**
   * Along a unit direction, the projected point projects onto itself: its
   * length is the length of the projection it came from.
   */
  lemma ProjectIdempotent(start: Point, direction: Point, target: Point)
    requires Dot(direction, direction) == 1.0
    ensures Project(start, direction, ProjectedPoint(Project(start, direction, target))).length
      == Project(start, direction, target).length
  {
    var l := Project(start, direction, target).length;
    var q := ProjectedPoint(Project(start, direction, target));
    assert Sub(q, start) == Mul(direction, l);
    calc {
      Dot(direction, Mul(direction, l));
      direction.x * (direction.x * l) + direction.y * (direction.y * l);
      (direction.x * direction.x + direction.y * direction.y) * l;
      l;
    }
  }

  /** The length used by `pointClamped(maxLength)`. */
  function ClampedLength(length: real, maxLength: real): (r: real)
    ensures maxLength >= 0.0 ==> 0.0 <= r <= maxLength
    ensures 0.0 <= length <= maxLength ==> r == length
    ensures length < 0.0 ==> r == 0.0
    ensures 0.0 <= length && length > maxLength ==> r == maxLength
  {
    if length < 0.0 then 0.0 else if length > maxLength then maxLength else length
  }

  /** The projection's `pointClamped(maxLength)`. */
  function PointClamped(pr: Projection, maxLength: real): (r: Point)
    ensures 0.0 <= pr.length <= maxLength ==> r == ProjectedPoint(pr)
    ensures pr.length < 0.0 ==> r == pr.start
  {
    Add(pr.start, Mul(pr.direction, ClampedLength(pr.length, maxLength)))
  }

  /** The pair returned by `getLineIntersectionScalars`; `Parallel` is `[Infinity, Infinity]`. */
  datatype Scalars = Scalars(t1: real, t2: real) | Parallel

  /** The denominator of `getLineIntersectionScalars`; zero exactly for parallel directions. */
  function Cross(dir1: Point, dir2: Point): real {
    dir2.y * dir1.x - dir2.x * dir1.y
  }

  /**
   * `Point.getLineIntersectionScalars(pos1, dir1, pos2, dir2)`: the scalars
   * at which the two lines meet, or `Parallel` when the denominator is 0.
   */
  function GetLineIntersectionScalars(pos1: Point, dir1: Point, pos2: Point, dir2: Point): (r: Scalars)
    ensures r.Parallel? <==> Cross(dir1, dir2) == 0.0
    ensures r.Scalars? ==> Add(pos1, Mul(dir1, r.t1)) == Add(pos2, Mul(dir2, r.t2))
  {
    var denom := Cross(dir1, dir2);
    if denom == 0.0 then Parallel
    else
      var ax, ay := pos1.x - pos2.x, pos1.y - pos2.y;
      var t1 := (dir2.x * ay - dir2.y * ax) / denom;
      var t2 := (dir1.x * ay - dir1.y * ax) / denom;
      IntersectionMeets(pos1, dir1, pos2, dir2, t1, t2);
      Scalars(t1, t2)
  }

  lemma IntersectionMeets(pos1: Point, dir1: Point, pos2: Point, dir2: Point, t1: real, t2: real)
    requires Cross(dir1, dir2) != 0.0
    requires t1 == (dir2.x * (pos1.y - pos2.y) - dir2.y * (pos1.x - pos2.x)) / Cross(dir1, dir2)
    requires t2 == (dir1.x * (pos1.y - pos2.y) - dir1.y * (pos1.x - pos2.x)) / Cross(dir1, dir2)
    ensures Add(pos1, Mul(dir1, t1)) == Add(pos2, Mul(dir2, t2))
  {
    var d := Cross(dir1, dir2);
    var ax, ay := pos1.x - pos2.x, pos1.y - pos2.y;
    var n1 := dir2.x * ay - dir2.y * ax;
    var n2 := dir1.x * ay - dir1.y * ax;
    assert t1 * d == n1;
    assert t2 * d == n2;
    // x: ax + dir1.x * t1 - dir2.x * t2 == 0, after multiplying by d
    assert (dir1.x * t1 - dir2.x * t2) * d == dir1.x * n1 - dir2.x * n2;
    assert dir1.x * n1 - dir2.x * n2 == -ax * d;
    assert dir1.x * t1 - dir2.x * t2 == -ax;
    assert (dir1.y * t1 - dir2.y * t2) * d == dir1.y * n1 - dir2.y * n2;
    assert dir1.y * n1 - dir2.y * n2 == -ay * d;
    assert dir1.y * t1 - dir2.y * t2 == -ay;
  }

  /**
   * `Point.getLineIntersection(pos1, dir1, pos2, dir2)`; `None` stands for
   * the point of infinite components returned for parallel lines.
   */
  function GetLineIntersection(pos1: Point, dir1: Point, pos2: Point, dir2: Point): (r: Option<Point>)
    ensures r.None? <==> Cross(dir1, dir2) == 0.0
    ensures r.Some? ==> exists t2: real :: r.value == Add(pos2, Mul(dir2, t2))
  {
    match GetLineIntersectionScalars(pos1, dir1, pos2, dir2)
    case Parallel => None
    case Scalars(t1, t2) => Some(Add(pos1, Mul(dir1, t1)))
  }

  lemma AddSubInverse(p: Point, q: Point)
    ensures Sub(Add(p, q), q) == p
    ensures Add(p, Sub(q, q)) == p
  {
  }

  lemma MinLeMax(a: Point, b: Point)
    ensures Min(a, b).x <= Max(a, b).x && Min(a, b).y <= Max(a, b).y
  {
  }

  lemma LerpEndpoints(p: Point, target: Point)
    ensures Lerp(p, target, 0.0) == p
    ensures Lerp(p, target, 1.0) == target
  {
  }

  lemma ScaleSingleNumber(p: Point, n: real)
    ensures ScaleNum(p, n) == Point(p.x * n, 0.0)
  {
  }
}
