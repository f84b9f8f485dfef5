/**
 * The immutable 3x3 homogeneous matrix `Matrix` of src/drawer/Matrix.ts.
 * Components are named `mCR` as in the source, with C the column (1: x,
 * 2: y, 3: translation) and R the row; a point (x, y) maps to
 * (x*m11 + y*m21 + m31, x*m12 + y*m22 + m32) divided by x*m13 + y*m23 + m33.
 */
module Matrices {
  import opened Wrappers
  import opened Points
  import opened Rects

  datatype Matrix = Matrix(
    m11: real, m21: real, m31: real,
    m12: real, m22: real, m32: real,
    m13: real, m23: real, m33: real)

  datatype MatrixError = RangeError

  /** `Matrix.identity`, also what `new Matrix()` builds from its defaults. */
  const Identity := Matrix(1.0, 0.0, 0.0, 0.0, 1.0, 0.0, 0.0, 0.0, 1.0)

  /** The bottom row is (0, 0, 1): the matrix is an affine map. */
  predicate IsAffine(m: Matrix) {
    m.m13 == 0.0 && m.m23 == 0.0 && m.m33 == 1.0
  }

  /** `m.translate(offset)`: only the translation column changes. */
  function Translate(m: Matrix, offset: Point): (r: Matrix)
    ensures r.m31 == m.m31 + offset.x && r.m32 == m.m32 + offset.y
    ensures r.m11 == m.m11 && r.m21 == m.m21 && r.m12 == m.m12 && r.m22 == m.m22
    ensures r.m13 == m.m13 && r.m23 == m.m23 && r.m33 == m.m33
  {
    Matrix(m.m11, m.m21, m.m31 + offset.x,
           m.m12, m.m22, m.m32 + offset.y,
           m.m13, m.m23, m.m33)
  }

  /** `m.translate(x, y)`, the number overload. */
  function TranslateXY(m: Matrix, x: real, y: real): (r: Matrix)
    ensures r == Translate(m, Point(x, y))
  {
    Matrix(m.m11, m.m21, m.m31 + x,
           m.m12, m.m22, m.m32 + y,
           m.m13, m.m23, m.m33)
  }

  /** `m.transpose()` */
  function Transpose(m: Matrix): (r: Matrix)
    ensures r.m21 == m.m12 && r.m12 == m.m21 && r.m31 == m.m13 && r.m13 == m.m31
    ensures r.m32 == m.m23 && r.m23 == m.m32
    ensures r.m11 == m.m11 && r.m22 == m.m22 && r.m33 == m.m33
  {
    Matrix(m.m11, m.m12, m.m13,
           m.m21, m.m22, m.m23,
           m.m31, m.m32, m.m33)
  }

  /** `m.scale(x, y)`: the first row, translation included, times x; the second times y. */
  function ScaleXY(m: Matrix, x: real, y: real): (r: Matrix)
    ensures r.m11 == m.m11 * x && r.m21 == m.m21 * x && r.m31 == m.m31 * x
    ensures r.m12 == m.m12 * y && r.m22 == m.m22 * y && r.m32 == m.m32 * y
    ensures r.m13 == m.m13 && r.m23 == m.m23 && r.m33 == m.m33
  {
    Matrix(m.m11 * x, m.m21 * x, m.m31 * x,
           m.m12 * y, m.m22 * y, m.m32 * y,
           m.m13, m.m23, m.m33)
  }

  /** `m.scale(s)` with one number scales both rows. */
  function Scale(m: Matrix, s: real): (r: Matrix)
    ensures r == ScaleXY(m, s, s)
  {
    ScaleXY(m, s, s)
  }

  /** `m.scale(p)` with a point. */
  function ScalePoint(m: Matrix, p: Point): (r: Matrix)
    ensures r == ScaleXY(m, p.x, p.y)
  {
    ScaleXY(m, p.x, p.y)
  }

  /** `a.mul(b)`: the matrix product a·b, which applies b first. */
  function Mul(a: Matrix, b: Matrix): (r: Matrix)
    ensures IsAffine(a) && IsAffine(b) ==> IsAffine(r)
  {
    Matrix(
      a.m11 * b.m11 + a.m21 * b.m12 + a.m31 * b.m13,
      a.m11 * b.m21 + a.m21 * b.m22 + a.m31 * b.m23,
      a.m11 * b.m31 + a.m21 * b.m32 + a.m31 * b.m33,

      a.m12 * b.m11 + a.m22 * b.m12 + a.m32 * b.m13,
      a.m12 * b.m21 + a.m22 * b.m22 + a.m32 * b.m23,
      a.m12 * b.m31 + a.m22 * b.m32 + a.m32 * b.m33,

      a.m13 * b.m11 + a.m23 * b.m12 + a.m33 * b.m13,
      a.m13 * b.m21 + a.m23 * b.m22 + a.m33 * b.m23,
      a.m13 * b.m31 + a.m23 * b.m32 + a.m33 * b.m33)
  }

  /** The homogeneous coordinate `transform` divides by. */
  function W(m: Matrix, p: Point): real {
    p.x * m.m13 + p.y * m.m23 + m.m33
  }

  /** `m.transform(p)`; the division by a zero `W` (an infinity in JavaScript) is excluded. */
  function Transform(m: Matrix, p: Point): (r: Point)
    requires W(m, p) != 0.0
    ensures IsAffine(m) ==> r == Point(p.x * m.m11 + p.y * m.m21 + m.m31, p.x * m.m12 + p.y * m.m22 + m.m32)
  {
    var w := W(m, p);
    Point((p.x * m.m11 + p.y * m.m21 + m.m31) / w, (p.x * m.m12 + p.y * m.m22 + m.m32) / w)
  }

  /** The homogeneous coordinate `transformVector` divides by: the translation column is dropped. */
  function WVector(m: Matrix, p: Point): real {
    p.x * m.m13 + p.y * m.m23 + 1.0
  }

  /** `m.transformVector(p)`: `transform` with the translation column replaced by (0, 0, 1). */
  function TransformVector(m: Matrix, p: Point): (r: Point)
    requires WVector(m, p) != 0.0
    ensures r == Transform(m.(m31 := 0.0, m32 := 0.0, m33 := 1.0), p)
  {
    var w := WVector(m, p);
    Point((p.x * m.m11 + p.y * m.m21) / w, (p.x * m.m12 + p.y * m.m22) / w)
  }

  /** `m.end()`: where the origin goes. */
  function End(m: Matrix): (r: Point)
    requires W(m, Zero) != 0.0
    ensures r == Transform(m, Zero)
  {
    Transform(m, Zero)
  }

  /** `m.transformRect(rect)`: the images of the two corners, as position and size. */
  function TransformRect(m: Matrix, rect: Rect): (r: Rect)
    requires W(m, Pos(rect)) != 0.0 && W(m, Rects.End(rect)) != 0.0
    ensures Pos(r) == Transform(m, Pos(rect))
    ensures Rects.End(r) == Transform(m, Rects.End(rect))
  {
    var start := Transform(m, Pos(rect));
    var end := Transform(m, Rects.End(rect));
    FromPosSize(start, Add(end, Points.Mul(start, -1.0)))
  }

  /** `m.isIdentity()` */
  function IsIdentity(m: Matrix): (b: bool)
    ensures b <==> m == Identity
  {
    m.m11 == 1.0 && m.m21 == 0.0 && m.m31 == 0.0 &&
    m.m12 == 0.0 && m.m22 == 1.0 && m.m32 == 0.0 &&
    m.m13 == 0.0 && m.m23 == 0.0 && m.m33 == 1.0
  }

  /** `m.get(x, y)`: the entry of column x and row y; any other index throws `RangeError`. */
  function Get(m: Matrix, x: int, y: int): (r: Result<real, MatrixError>)
    ensures r.Err? <==> !(0 <= x <= 2 && 0 <= y <= 2)
    ensures x == 0 && y == 0 ==> r == Ok(m.m11)
    ensures x == 0 && y == 1 ==> r == Ok(m.m12)
    ensures x == 0 && y == 2 ==> r == Ok(m.m13)
    ensures x == 1 && y == 0 ==> r == Ok(m.m21)
    ensures x == 1 && y == 1 ==> r == Ok(m.m22)
    ensures x == 1 && y == 2 ==> r == Ok(m.m23)
    ensures x == 2 && y == 0 ==> r == Ok(m.m31)
    ensures x == 2 && y == 1 ==> r == Ok(m.m32)
    ensures x == 2 && y == 2 ==> r == Ok(m.m33)
  {
    if x == 0 && y == 0 then Ok(m.m11)
    else if x == 0 && y == 1 then Ok(m.m12)
    else if x == 0 && y == 2 then Ok(m.m13)
    else if x == 1 && y == 0 then Ok(m.m21)
    else if x == 1 && y == 1 then Ok(m.m22)
    else if x == 1 && y == 2 then Ok(m.m23)
    else if x == 2 && y == 0 then Ok(m.m31)
    else if x == 2 && y == 1 then Ok(m.m32)
    else if x == 2 && y == 2 then Ok(m.m33)
    else Err(RangeError)
  }

  /** `get` and `transpose` agree on the index convention: transposing swaps the two indices. */
  lemma GetTranspose(m: Matrix, x: int, y: int)
    ensures Get(Transpose(m), x, y) == Get(m, y, x)
  {
  }

  /** `Matrix.fromDOMMatrix(source)` from the six entries a..f of a 2D DOM matrix. */
  function FromDOMMatrix(a: real, b: real, c: real, d: real, e: real, f: real): (r: Matrix)
    ensures IsAffine(r)
    ensures Transform(r, Point(0.0, 0.0)) == Point(e, f)
  {
    Matrix(a, c, e, b, d, f, 0.0, 0.0, 1.0)
  }

  lemma IdentityTransform(p: Point)
    ensures IsIdentity(Identity)
    ensures Transform(Identity, p) == p
  {
  }

  /** `translate`, `scale` and `mul` keep the bottom row (0, 0, 1). */
  lemma AffinePreserved(a: Matrix, b: Matrix, t: Point, x: real, y: real)
    requires IsAffine(a) && IsAffine(b)
    ensures IsAffine(Translate(a, t)) && IsAffine(ScaleXY(a, x, y)) && IsAffine(Mul(a, b))
  {
  }

  /** Translating an affine matrix shifts every image point by the offset. */
  lemma TranslateTransform(m: Matrix, t: Point, p: Point)
    requires IsAffine(m)
    ensures Transform(Translate(m, t), p) == Add(Transform(m, p), t)
  {
  }

  /** Scaling an affine matrix scales every image point. */
  lemma ScaleTransform(m: Matrix, x: real, y: real, p: Point)
    requires IsAffine(m)
    ensures Transform(ScaleXY(m, x, y), p) == Points.Scale(Transform(m, p), Point(x, y))
  {
    var q := Transform(m, p);
    calc {
      Transform(ScaleXY(m, x, y), p).x;
      p.x * (m.m11 * x) + p.y * (m.m21 * x) + m.m31 * x;
      (p.x * m.m11 + p.y * m.m21 + m.m31) * x;
    }
    calc {
      Transform(ScaleXY(m, x, y), p).y;
      p.x * (m.m12 * y) + p.y * (m.m22 * y) + m.m32 * y;
      (p.x * m.m12 + p.y * m.m22 + m.m32) * y;
    }
  }

  /** The product of affine matrices transforms as the composition, `b` first. */
  lemma MulTransform(a: Matrix, b: Matrix, p: Point)
    requires IsAffine(a) && IsAffine(b)
    ensures IsAffine(Mul(a, b))
    ensures Transform(Mul(a, b), p) == Transform(a, Transform(b, p))
  {
    var q := Transform(b, p);
    var m := Mul(a, b);
    calc {
      Transform(m, p).x;
      p.x * m.m11 + p.y * m.m21 + m.m31;
      p.x * (a.m11 * b.m11 + a.m21 * b.m12) + p.y * (a.m11 * b.m21 + a.m21 * b.m22)
        + (a.m11 * b.m31 + a.m21 * b.m32 + a.m31);
      a.m11 * (p.x * b.m11 + p.y * b.m21 + b.m31) + a.m21 * (p.x * b.m12 + p.y * b.m22 + b.m32) + a.m31;
      q.x * a.m11 + q.y * a.m21 + a.m31;
    }
    calc {
      Transform(m, p).y;
      p.x * m.m12 + p.y * m.m22 + m.m32;
      p.x * (a.m12 * b.m11 + a.m22 * b.m12) + p.y * (a.m12 * b.m21 + a.m22 * b.m22)
        + (a.m12 * b.m31 + a.m22 * b.m32 + a.m32);
      a.m12 * (p.x * b.m11 + p.y * b.m21 + b.m31) + a.m22 * (p.x * b.m12 + p.y * b.m22 + b.m32) + a.m32;
      q.x * a.m12 + q.y * a.m22 + a.m32;
    }
  }

  /** `identity` is a unit on both sides of `mul`. */
  lemma MulIdentity(m: Matrix)
    ensures Mul(Identity, m) == m && Mul(m, Identity) == m
  {
  }

  /** For an affine matrix, `transformVector` is the difference of two point images. */
  lemma TransformVectorIsDifference(m: Matrix, p: Point)
    requires IsAffine(m)
    ensures TransformVector(m, p) == Sub(Transform(m, p), Transform(m, Zero))
  {
  }

  lemma TransposeInvolution(m: Matrix)
    ensures Transpose(Transpose(m)) == m
  {
  }
}
