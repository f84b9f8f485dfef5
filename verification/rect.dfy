/**
 * The immutable axis-aligned rectangle `Rect` of src/drawer/Rect.ts. A
 * rectangle may have a negative width or height; `Min` and `Max` are correct
 * for either sign.
 */
module Rects {
  import opened Wrappers
  import opened Points

  datatype Rect = Rect(x: real, y: real, width: real, height: real)

  /** The four components `with` can replace. */
  datatype Component = CX | CY | CWidth | CHeight

  /** `Rect.zero` */
  const ZeroRect := Rect(0.0, 0.0, 0.0, 0.0)

  /** The first constructor argument: a number, a point-like or a rect-like object. */
  datatype FirstArg = FirstNumber(n: real) | FirstPoint(p: Point) | FirstRect(r: Rect)

  /** The second constructor argument: a number or a point-like object. */
  datatype SecondArg = SecondNumber(n: real) | SecondPoint(p: Point)

  datatype RectError = TypeError

  function Pos(r: Rect): Point {
    Point(r.x, r.y)
  }

  function Size(r: Rect): Point {
    Point(r.width, r.height)
  }

  /** `r.end()`: the corner opposite to the position. */
  function End(r: Rect): (p: Point)
    ensures Sub(p, Pos(r)) == Size(r)
  {
    Point(r.x + r.width, r.y + r.height)
  }

  /**
   * `new Rect(x, y, width, height)` with its overloads; every argument has the
   * source's default.
   */
  function New(x: FirstArg := FirstNumber(0.0), y: SecondArg := SecondNumber(0.0),
               width: real := 0.0, height: real := 0.0): (r: Result<Rect, RectError>)
    ensures r.Err? <==> x.FirstNumber? && y.SecondPoint?
    ensures x.FirstRect? ==> r == Ok(x.r)
    ensures x.FirstPoint? && y.SecondPoint? ==> r.Ok? && Pos(r.value) == x.p && Size(r.value) == y.p
    ensures x.FirstPoint? && y.SecondNumber? ==>
              r.Ok? && Pos(r.value) == x.p && r.value.width == y.n && r.value.height == width
    ensures x.FirstNumber? && y.SecondNumber? ==> r == Ok(Rect(x.n, y.n, width, height))
  {
    match x
    case FirstRect(rect) => Ok(rect)
    case FirstPoint(p) =>
      (match y
       case SecondPoint(q) => Ok(Rect(p.x, p.y, q.x, q.y))
       case SecondNumber(n) => Ok(Rect(p.x, p.y, n, width)))
    case FirstNumber(n) =>
      (match y
       case SecondNumber(m) => Ok(Rect(n, m, width, height))
       case SecondPoint(_) => Err(TypeError))
  }

  /** `new Rect(pos, size)`, the overload that cannot fail. */
  function FromPosSize(pos: Point, size: Point): (r: Rect)
    ensures New(FirstPoint(pos), SecondPoint(size)) == Ok(r)
  {
    Rect(pos.x, pos.y, size.x, size.y)
  }

  /** `r.with(component, value)` */
  function With(r: Rect, c: Component, value: real): (s: Rect)
    ensures c == CX ==> s.x == value && s.y == r.y && Size(s) == Size(r)
    ensures c == CY ==> s.y == value && s.x == r.x && Size(s) == Size(r)
    ensures c == CWidth ==> s.width == value && s.height == r.height && Pos(s) == Pos(r)
    ensures c == CHeight ==> s.height == value && s.width == r.width && Pos(s) == Pos(r)
  {
    match c
    case CX => r.(x := value)
    case CY => r.(y := value)
    case CWidth => r.(width := value)
    case CHeight => r.(height := value)
  }

  /** `r.origin()`: the same size at (0, 0). */
  function Origin(r: Rect): (o: Rect)
    ensures Pos(o) == Zero && Size(o) == Size(r)
  {
    Rect(0.0, 0.0, r.width, r.height)
  }

  /** `r.translate(offset)` */
  function Translate(r: Rect, offset: Point): (s: Rect)
    ensures Pos(s) == Add(Pos(r), offset) && Size(s) == Size(r)
  {
    Rect(r.x + offset.x, r.y + offset.y, r.width, r.height)
  }

  /** `r.translate(dx, dy)`; `dy` defaults to 0. */
  function TranslateXY(r: Rect, dx: real, dy: real := 0.0): (s: Rect)
    ensures s == Translate(r, Point(dx, dy))
  {
    Rect(r.x + dx, r.y + dy, r.width, r.height)
  }

  /** `r.expand(offset)` */
  function Expand(r: Rect, offset: Point): (s: Rect)
    ensures Pos(s) == Pos(r) && Size(s) == Add(Size(r), offset)
  {
    Rect(r.x, r.y, r.width + offset.x, r.height + offset.y)
  }

  /** `r.expand(dx, dy)`; `dy` defaults to 0. */
  function ExpandXY(r: Rect, dx: real, dy: real := 0.0): (s: Rect)
    ensures s == Expand(r, Point(dx, dy))
  {
    Rect(r.x, r.y, r.width + dx, r.height + dy)
  }

  /** `r.center()` */
  function Center(r: Rect): (c: Point)
    ensures Sub(c, Pos(r)) == Sub(End(r), c)
  {
    Add(Pos(r), Mul(Size(r), 0.5))
  }

  /** `r.equals(other)`: componentwise equality. */
  function Equals(r: Rect, other: Rect): (b: bool)
    ensures b <==> r == other
  {
    r.x == other.x && r.y == other.y && r.width == other.width && r.height == other.height
  }

  /** `r.containsPoint(p)`: half-open on both axes. */
  function ContainsPoint(r: Rect, p: Point): (b: bool)
    ensures b ==> InClosed(r, p) && r.width > 0.0 && r.height > 0.0
    ensures p == End(r) ==> !b
  {
    p.x >= r.x && p.x < r.x + r.width && p.y >= r.y && p.y < r.y + r.height
  }

  /** `p` lies in the closed extent of `r`. */
  ghost predicate InClosed(r: Rect, p: Point) {
    r.x <= p.x <= r.x + r.width && r.y <= p.y <= r.y + r.height
  }

  /** `r.containsRect(other)`: despite its name, a test of overlap of the closed extents. */
  function ContainsRect(r: Rect, other: Rect): (b: bool)
    ensures ContainsPoint(r, Pos(other)) && other.width >= 0.0 && other.height >= 0.0 ==> b
    ensures ContainsPoint(other, Pos(r)) && r.width >= 0.0 && r.height >= 0.0 ==> b
  {
    var thisEnd, otherEnd := End(r), End(other);
    otherEnd.x >= r.x && otherEnd.y >= r.y && other.x <= thisEnd.x && other.y <= thisEnd.y
  }

  /** `r.min()`: the corner with the smallest components. */
  function Min(r: Rect): (p: Point)
    ensures p.x <= r.x && p.x <= r.x + r.width && (p.x == r.x || p.x == r.x + r.width)
    ensures p.y <= r.y && p.y <= r.y + r.height && (p.y == r.y || p.y == r.y + r.height)
  {
    Point(MinReal(r.x, r.x + r.width), MinReal(r.y, r.y + r.height))
  }

  /** `r.max()`: the corner with the largest components. */
  function Max(r: Rect): (p: Point)
    ensures p.x >= r.x && p.x >= r.x + r.width && (p.x == r.x || p.x == r.x + r.width)
    ensures p.y >= r.y && p.y >= r.y + r.height && (p.y == r.y || p.y == r.y + r.height)
  {
    Point(MaxReal(r.x, r.x + r.width), MaxReal(r.y, r.y + r.height))
  }

  /** `v` has no fractional part. */
  predicate IsIntegral(v: real) {
    v == v.Floor as real
  }

  lemma IntegralSum(a: int, b: int)
    ensures IsIntegral(a as real) && IsIntegral(b as real - a as real)
  {
    assert b as real - a as real == (b - a) as real;
  }

  /** `r.snapToGrid()`: the smallest integer-aligned rectangle covering `r`. */
  function SnapToGrid(r: Rect): (s: Rect)
    ensures IsIntegral(s.x) && IsIntegral(s.y) && IsIntegral(s.width) && IsIntegral(s.height)
    ensures s.x <= r.x < s.x + 1.0 && s.y <= r.y < s.y + 1.0
    ensures End(r).x <= End(s).x < End(r).x + 1.0 && End(r).y <= End(s).y < End(r).y + 1.0
  {
    var x0, y0 := FloorReal(r.x), FloorReal(r.y);
    var x1, y1 := CeilReal(r.x + r.width), CeilReal(r.y + r.height);
    IntegralSum(x0, x1);
    IntegralSum(y0, y1);
    FromPosSize(Point(x0 as real, y0 as real), Point(x1 as real - x0 as real, y1 as real - y0 as real))
  }

  /** The constraint object accepted by `align`. */
  datatype AlignOptions = AlignOptions(
    width: Option<real>, height: Option<real>,
    left: Option<real>, right: Option<real>, top: Option<real>, bottom: Option<real>,
    size: Option<real>, padding: Option<real>)

  /** The caller's options object as `align` leaves it: `size` and `padding` expanded in place. */
  function AlignedOptions(o: AlignOptions): (n: AlignOptions)
    ensures o.size.Some? ==> n.width == o.size && n.height == o.size
    ensures o.size.None? ==> n.width == o.width && n.height == o.height
    ensures o.padding.Some? ==>
              n.left == o.padding && n.right == o.padding && n.top == o.padding && n.bottom == o.padding
    ensures o.padding.None? ==>
              n.left == o.left && n.right == o.right && n.top == o.top && n.bottom == o.bottom
    ensures n.size == o.size && n.padding == o.padding
  {
    var sized := if o.size.Some? then o.(width := o.size, height := o.size) else o;
    if sized.padding.Some? then
      sized.(top := sized.padding, left := sized.padding, right := sized.padding, bottom := sized.padding)
    else sized
  }

  /** Position and extent on one axis, as chosen by `align`. */
  datatype Span = Span(pos: real, len: real)

  /**
   * One axis of `align` within a container extent: `len` is the explicit
   * extent, `start` and `end` the distances from the two opposite sides.
   */
  function AlignAxis(extent: real, len: Option<real>, start: Option<real>, end: Option<real>): (s: Span)
    // An explicit extent is kept and anchored at the start edge, else the end edge, else centred.
    ensures len.Some? ==> s.len == len.value
    ensures len.Some? && start.Some? ==> s.pos == start.value
    ensures len.Some? && start.None? && end.Some? ==> extent - (s.pos + s.len) == end.value
    ensures len.Some? && start.None? && end.None? ==> s.pos == extent - (s.pos + s.len)
    // Without an extent, the span is cut from the edges that are given.
    ensures len.None? && start.Some? ==> s.pos == start.value
    ensures len.None? && start.Some? && end.Some? ==> extent - (s.pos + s.len) == end.value
    ensures len.None? && start.Some? && end.None? ==> s.pos + s.len == extent
    ensures len.None? && start.None? && end.Some? ==> s.pos == 0.0 && extent - (s.pos + s.len) == end.value
    ensures len.None? && start.None? && end.None? ==> s == Span(0.0, 0.0)
  {
    if len.Some? then
      var pos :=
        if start.Some? then start.value
        else if end.Some? then extent - end.value - len.value
        else (extent - len.value) / 2.0;
      Span(pos, len.value)
    else if start.Some? && end.Some? then
      Span(start.value, extent - start.value - end.value)
    else if start.Some? then
      Span(start.value, extent - start.value)
    else if end.Some? then
      Span(0.0, extent - end.value)
    else
      Span(0.0, 0.0)
  }

  /**
   * `container.align(options)`: a rectangle placed inside `container` (in the
   * container's own coordinates) according to the constraints.
   */
  function Align(container: Rect, options: AlignOptions): (r: Rect)
    ensures var o := AlignedOptions(options);
      && Span(r.x, r.width) == AlignAxis(container.width, o.width, o.left, o.right)
      && Span(r.y, r.height) == AlignAxis(container.height, o.height, o.top, o.bottom)
  {
    var o := AlignedOptions(options);
    var h := AlignAxis(container.width, o.width, o.left, o.right);
    var v := AlignAxis(container.height, o.height, o.top, o.bottom);
    Rect(h.pos, v.pos, h.len, v.len)
  }

  /** The divisions `aspectRatio` performs have non-zero divisors (JavaScript would give an infinity). */
  predicate AspectRatioDefined(r: Rect, ratio: real) {
    if ratio > 1.0 then (r.height / ratio > r.width ==> r.height / ratio != 0.0)
    else (r.width * ratio > r.height ==> r.width * ratio != 0.0)
  }

  /**
   * `r.aspectRatio(ratio)`: the largest rectangle at the origin, inside
   * `r`'s size, whose height is `ratio` times its width (see `AspectRatioFits`).
   */
  function AspectRatio(r: Rect, ratio: real): (s: Rect)
    requires AspectRatioDefined(r, ratio)
    ensures Pos(s) == Zero
  {
    if ratio > 1.0 then
      var width := r.height / ratio;
      if width > r.width then
        var widthRatio := r.width / width;
        var height := r.height * widthRatio;
        Rect(0.0, 0.0, width * widthRatio, height)
      else
        Rect(0.0, 0.0, width, r.height)
    else
      var height := r.width * ratio;
      if height > r.height then
        var widthRatio := r.height / height;
        var width := r.width * widthRatio;
        Rect(0.0, 0.0, width, height * widthRatio)
      else
        Rect(0.0, 0.0, r.width, height)
  }

  /** For a positive size and ratio, `aspectRatio` keeps the ratio, fits inside, and touches one side. */
  lemma AspectRatioFits(r: Rect, ratio: real)
    requires r.width > 0.0 && r.height > 0.0 && ratio > 0.0
    ensures AspectRatioDefined(r, ratio)
    ensures var s := AspectRatio(r, ratio);
      && s.height == ratio * s.width
      && 0.0 < s.width <= r.width && 0.0 < s.height <= r.height
      && (s.width == r.width || s.height == r.height)
  {
    var w, h := r.width, r.height;
    if ratio > 1.0 {
      var width := h / ratio;
      assert width > 0.0;
      if width > w {
        var widthRatio := w / width;
        DivBelowOne(w, width);
        ScaleBelowOne(h, widthRatio);
        assert width * ratio == h;
        calc {
          h * widthRatio;
          (width * ratio) * widthRatio;
          ratio * (width * widthRatio);
        }
      } else {
        assert h == ratio * width;
      }
    } else {
      var height := w * ratio;
      assert height > 0.0;
      if height > h {
        var widthRatio := h / height;
        DivBelowOne(h, height);
        ScaleBelowOne(w, widthRatio);
        calc {
          height * widthRatio;
          (w * ratio) * widthRatio;
          ratio * (w * widthRatio);
        }
      } else {
        assert height <= w;
      }
    }
  }

  lemma DivBelowOne(a: real, b: real)
    requires 0.0 < a < b
    ensures (a / b) * b == a
    ensures 0.0 < a / b < 1.0
  {
    var q := a / b;
    assert q * b == a;
    assert (1.0 - q) * b == b - a;
    PositiveFactor(1.0 - q, b);
    PositiveFactor(q, b);
  }

  lemma PositiveFactor(x: real, b: real)
    requires b > 0.0 && x * b > 0.0
    ensures x > 0.0
  {
  }

  lemma ScaleBelowOne(a: real, q: real)
    requires a > 0.0 && 0.0 < q < 1.0
    ensures 0.0 < a * q < a
  {
  }

  /** An element of the list given to `Rect.union`. */
  datatype Target = RectTarget(rect: Rect) | PointTarget(point: Point)

  function TargetMin(t: Target): Point {
    match t
    case RectTarget(r) => Min(r)
    case PointTarget(p) => p
  }

  function TargetMax(t: Target): Point {
    match t
    case RectTarget(r) => Max(r)
    case PointTarget(p) => p
  }

  /** The four accumulators of `Rect.union`. */
  datatype Bounds = Bounds(minX: real, minY: real, maxX: real, maxY: real)

  /** One step of the accumulator loop of `Rect.union`. */
  function Include(b: Bounds, t: Target): Bounds {
    var lo, hi := TargetMin(t), TargetMax(t);
    Bounds(if b.minX > lo.x then lo.x else b.minX,
           if b.minY > lo.y then lo.y else b.minY,
           if b.maxX < hi.x then hi.x else b.maxX,
           if b.maxY < hi.y then hi.y else b.maxY)
  }

  /** The accumulators after the first element: infinity loses every comparison. */
  function Initial(t: Target): Bounds {
    var lo, hi := TargetMin(t), TargetMax(t);
    Bounds(lo.x, lo.y, hi.x, hi.y)
  }

  /** The accumulators after visiting `ts` in order; `None` while they are still infinite. */
  function Fold(ts: seq<Target>): (b: Option<Bounds>)
    ensures b.None? <==> ts == []
    decreases |ts|
  {
    if ts == [] then None
    else
      var prev := Fold(ts[..|ts| - 1]);
      Some(if prev.None? then Initial(ts[|ts| - 1]) else Include(prev.value, ts[|ts| - 1]))
  }

  /** Every element's corners lie within the folded bounds, and each bound is some element's corner. */
  lemma {:induction false} FoldBounds(ts: seq<Target>)
    requires ts != []
    ensures var b := Fold(ts).value;
      forall j :: 0 <= j < |ts| ==>
        b.minX <= TargetMin(ts[j]).x && b.minY <= TargetMin(ts[j]).y &&
        b.maxX >= TargetMax(ts[j]).x && b.maxY >= TargetMax(ts[j]).y
    ensures var b := Fold(ts).value;
      && (exists j :: 0 <= j < |ts| && b.minX == TargetMin(ts[j]).x)
      && (exists j :: 0 <= j < |ts| && b.minY == TargetMin(ts[j]).y)
      && (exists j :: 0 <= j < |ts| && b.maxX == TargetMax(ts[j]).x)
      && (exists j :: 0 <= j < |ts| && b.maxY == TargetMax(ts[j]).y)
    decreases |ts|
  {
    var n := |ts| - 1;
    if n > 0 {
      var init := ts[..n];
      FoldBounds(init);
      assert forall j :: 0 <= j < n ==> ts[j] == init[j];
      var b := Fold(init).value;
      var jx :| 0 <= jx < n && b.minX == TargetMin(init[jx]).x;
      var jy :| 0 <= jy < n && b.minY == TargetMin(init[jy]).y;
      var kx :| 0 <= kx < n && b.maxX == TargetMax(init[kx]).x;
      var ky :| 0 <= ky < n && b.maxY == TargetMax(init[ky]).y;
      var c := Fold(ts).value;
      assert c.minX == TargetMin(ts[jx]).x || c.minX == TargetMin(ts[n]).x;
      assert c.minY == TargetMin(ts[jy]).y || c.minY == TargetMin(ts[n]).y;
      assert c.maxX == TargetMax(ts[kx]).x || c.maxX == TargetMax(ts[n]).x;
      assert c.maxY == TargetMax(ts[ky]).y || c.maxY == TargetMax(ts[n]).y;
    } else {
      assert ts[..n] == [];
    }
  }

  /** The rectangle `Rect.union` builds from its accumulators. */
  function BoundsRect(b: Bounds): Rect {
    Rect(b.minX, b.minY, b.maxX - b.minX, b.maxY - b.minY)
  }

  /**
   * `Rect.union(targets)`: the bounding rectangle of all rectangles and
   * points. `None` stands for the rectangle of infinite components returned
   * for an empty list.
   */
  method Union(targets: seq<Target>) returns (r: Option<Rect>)
    ensures r.None? <==> targets == []
    ensures r.Some? ==> r == Some(BoundsRect(Fold(targets).value))
    ensures r.Some? ==> forall j :: 0 <= j < |targets| ==>
      && Min(r.value).x <= TargetMin(targets[j]).x && Min(r.value).y <= TargetMin(targets[j]).y
      && Max(r.value).x >= TargetMax(targets[j]).x && Max(r.value).y >= TargetMax(targets[j]).y
  {
    var acc: Option<Bounds> := None;
    var i := 0;
    while i < |targets|
      invariant 0 <= i <= |targets|
      invariant acc == Fold(targets[..i])
    {
      var t := targets[i];
      assert targets[..i + 1][..i] == targets[..i];
      acc := Some(if acc.None? then Initial(t) else Include(acc.value, t));
      i := i + 1;
    }
    assert targets[..i] == targets;
    if acc.None? {
      r := None;
    } else {
      FoldBounds(targets);
      MinMaxOfBounds(acc.value, targets);
      r := Some(BoundsRect(acc.value));
    }
  }

  lemma MinMaxOfBounds(b: Bounds, ts: seq<Target>)
    requires ts != [] && Fold(ts) == Some(b)
    requires forall j :: 0 <= j < |ts| ==>
        b.minX <= TargetMin(ts[j]).x && b.minY <= TargetMin(ts[j]).y &&
        b.maxX >= TargetMax(ts[j]).x && b.maxY >= TargetMax(ts[j]).y
    ensures Min(BoundsRect(b)) == Point(b.minX, b.minY)
    ensures Max(BoundsRect(b)) == Point(b.maxX, b.maxY)
  {
    assert b.minX <= TargetMin(ts[0]).x <= TargetMax(ts[0]).x <= b.maxX;
    assert b.minY <= TargetMin(ts[0]).y <= TargetMax(ts[0]).y <= b.maxY;
  }

  /** `containsPoint` includes the start corner of a non-empty rectangle and never its end corner. */
  lemma ContainsPointHalfOpen(r: Rect)
    ensures ContainsPoint(r, Pos(r)) <==> r.width > 0.0 && r.height > 0.0
    ensures !ContainsPoint(r, End(r))
  {
  }

  /** For non-negative sizes, `containsRect` holds exactly when the closed extents share a point. */
  lemma ContainsRectIsOverlap(r: Rect, o: Rect)
    requires r.width >= 0.0 && r.height >= 0.0 && o.width >= 0.0 && o.height >= 0.0
    ensures ContainsRect(r, o) ==>
              InClosed(r, Points.Max(Pos(r), Pos(o))) && InClosed(o, Points.Max(Pos(r), Pos(o)))
    ensures !ContainsRect(r, o) ==> forall p :: !(InClosed(r, p) && InClosed(o, p))
  {
  }

  lemma MinLeMax(r: Rect)
    ensures Min(r).x <= Max(r).x && Min(r).y <= Max(r).y
    ensures r.width >= 0.0 && r.height >= 0.0 ==> Min(r) == Pos(r) && Max(r) == End(r)
  {
  }

  /** `align` resolves each axis from that axis' constraints alone. */
  lemma AlignAxesIndependent(container: Rect, o1: AlignOptions, o2: AlignOptions)
    requires o1.size == o2.size == None && o1.padding == o2.padding == None
    requires o1.width == o2.width && o1.left == o2.left && o1.right == o2.right
    ensures Align(container, o1).x == Align(container, o2).x
    ensures Align(container, o1).width == Align(container, o2).width
  {
  }
}
