/**
 * `Drawer.Camera` of src/drawer/Drawer.ts: an offset and a zoom factor,
 * and the two matrices between world and screen space derived from them.
 */
module Cameras {
  import opened Points
  import opened Rects
  import opened Matrices
  import Drawers

  /** The translation `updateViewport` uses: the offset, shifted by the viewport's centre when centring. */
  function ViewPos(offset: Point, shouldCenterView: bool, viewport: Rect): (p: Point)
    ensures !shouldCenterView ==> p == offset
    ensures shouldCenterView ==> p == Add(offset, Center(viewport))
  {
    if shouldCenterView then Add(offset, Center(viewport)) else offset
  }

  /** `identity.translate(pos).scale(scale)` */
  function WorldToScreen(pos: Point, scale: real): (m: Matrix)
    ensures IsAffine(m)
  {
    Matrices.Scale(Matrices.Translate(Identity, pos), scale)
  }

  /** `identity.scale(1 / scale).translate(pos.mul(-1))` */
  function ScreenToWorld(pos: Point, scale: real): (m: Matrix)
    requires scale != 0.0
    ensures IsAffine(m)
  {
    Matrices.Translate(Matrices.Scale(Identity, 1.0 / scale), Points.Mul(pos, -1.0))
  }

  /** World to screen, point by point: shift by `pos`, then multiply by `scale`. */
  function ToScreen(pos: Point, scale: real, p: Point): (r: Point)
    ensures scale == 1.0 ==> r == Add(p, pos)
    ensures p == Sub(Zero, pos) ==> r == Zero
  {
    Points.Mul(Add(p, pos), scale)
  }

  /** Screen to world, point by point: divide by `scale`, then shift back by `pos`. */
  function ToWorld(pos: Point, scale: real, q: Point): (r: Point)
    requires scale != 0.0
    ensures scale == 1.0 ==> r == Sub(q, pos)
    ensures q == Zero ==> r == Sub(Zero, pos)
  {
    Sub(Points.Mul(q, 1.0 / scale), pos)
  }

  lemma WorldToScreenMaps(pos: Point, scale: real, p: Point)
    ensures Transform(WorldToScreen(pos, scale), p) == ToScreen(pos, scale, p)
  {
    var m := WorldToScreen(pos, scale);
    assert m == Matrix(scale, 0.0, pos.x * scale, 0.0, scale, pos.y * scale, 0.0, 0.0, 1.0);
    assert p.x * scale + pos.x * scale == (p.x + pos.x) * scale;
    assert p.y * scale + pos.y * scale == (p.y + pos.y) * scale;
  }

  lemma ScreenToWorldMaps(pos: Point, scale: real, q: Point)
    requires scale != 0.0
    ensures Transform(ScreenToWorld(pos, scale), q) == ToWorld(pos, scale, q)
  {
    var m := ScreenToWorld(pos, scale);
    assert m == Matrix(1.0 / scale, 0.0, -pos.x, 0.0, 1.0 / scale, -pos.y, 0.0, 0.0, 1.0);
  }

  /** The two maps undo each other, in both orders, for a nonzero scale. */
  lemma ToScreenToWorldInverse(pos: Point, scale: real, p: Point)
    requires scale != 0.0
    ensures ToWorld(pos, scale, ToScreen(pos, scale, p)) == p
    ensures ToScreen(pos, scale, ToWorld(pos, scale, p)) == p
  {
    MulDiv(p.x + pos.x, scale);
    MulDiv(p.y + pos.y, scale);
    DivMul(p.x, scale);
    DivMul(p.y, scale);
  }

  /** The two matrices `updateViewport` builds undo each other, in both orders. */
  lemma ViewportInverse(pos: Point, scale: real, p: Point)
    requires scale != 0.0
    ensures Transform(ScreenToWorld(pos, scale), Transform(WorldToScreen(pos, scale), p)) == p
    ensures Transform(WorldToScreen(pos, scale), Transform(ScreenToWorld(pos, scale), p)) == p
  {
    WorldToScreenMaps(pos, scale, p);
    ScreenToWorldMaps(pos, scale, ToScreen(pos, scale, p));
    ScreenToWorldMaps(pos, scale, p);
    WorldToScreenMaps(pos, scale, ToWorld(pos, scale, p));
    ToScreenToWorldInverse(pos, scale, p);
  }

  lemma MulDiv(v: real, s: real)
    requires s != 0.0
    ensures v * s * (1.0 / s) == v
  {
    assert s * (1.0 / s) == 1.0;
  }

  lemma DivMul(v: real, s: real)
    requires s != 0.0
    ensures v * (1.0 / s) * s == v
  {
    assert (1.0 / s) * s == 1.0;
  }

  /**
   * The offset `zoomViewport` leaves, as written: `centerWorld` is what the
   * cached `screenToWorld` made of `center`, and the screen-space correction
   * `center - newCenter` is added to the offset unscaled.
   */
  function ZoomOffset(offset: Point, shouldCenterView: bool, centerWorld: Point,
                      newScale: real, center: Point, viewport: Rect): Point
  {
    var newCenter := ToScreen(ViewPos(offset, shouldCenterView, viewport), newScale, centerWorld);
    Add(offset, Add(center, Points.Mul(newCenter, -1.0)))
  }

  /**
   * The offset that keeps the world point under `center` in place: the
   * same correction, converted to world units by dividing it by `newScale`.
   */
  function CenteredZoomOffset(offset: Point, shouldCenterView: bool, centerWorld: Point,
                              newScale: real, center: Point, viewport: Rect): Point
    requires newScale != 0.0
  {
    var newCenter := ToScreen(ViewPos(offset, shouldCenterView, viewport), newScale, centerWorld);
    Add(offset, Points.Mul(Add(center, Points.Mul(newCenter, -1.0)), 1.0 / newScale))
  }

  /**
   * As written, with up-to-date matrices, the offset moves by
   * `center - center * newScale / scale`, a distance in screen units.
   */
  lemma ZoomOffsetAsWritten(offset: Point, shouldCenterView: bool, scale: real,
                            newScale: real, center: Point, viewport: Rect)
    requires scale != 0.0
    ensures var centerWorld := ToWorld(ViewPos(offset, shouldCenterView, viewport), scale, center);
      ZoomOffset(offset, shouldCenterView, centerWorld, newScale, center, viewport)
        == Add(offset, Sub(center, Points.Mul(Points.Mul(center, 1.0 / scale), newScale)))
  {
    var pos0 := ViewPos(offset, shouldCenterView, viewport);
    var centerWorld := ToWorld(pos0, scale, center);
    assert Add(centerWorld, pos0) == Points.Mul(center, 1.0 / scale);
  }

  /**
   * As written, zooming an uncentred camera at the origin from scale 1 to 2
   * about screen point (10, 0) moves the offset to (-10, 0), after which
   * world point 15, not 10, sits under that screen point once the viewport
   * is updated. Any viewport will do.
   */
  lemma ZoomViewportDrifts(viewport: Rect)
    ensures var centerWorld := ToWorld(ViewPos(Zero, false, viewport), 1.0, Point(10.0, 0.0));
      var offset := ZoomOffset(Zero, false, centerWorld, 2.0, Point(10.0, 0.0), viewport);
      && centerWorld == Point(10.0, 0.0)
      && offset == Point(-10.0, 0.0)
      && ToWorld(ViewPos(offset, false, viewport), 2.0, Point(10.0, 0.0)) == Point(15.0, 0.0)
  {
    DriftCenterWorld(viewport);
    DriftOffset(viewport);
    DriftWorldPoint(viewport);
  }

  lemma DriftCenterWorld(viewport: Rect)
    ensures ToWorld(ViewPos(Zero, false, viewport), 1.0, Point(10.0, 0.0)) == Point(10.0, 0.0)
  {
  }

  lemma DriftOffset(viewport: Rect)
    ensures ZoomOffset(Zero, false, Point(10.0, 0.0), 2.0, Point(10.0, 0.0), viewport) == Point(-10.0, 0.0)
  {
  }

  lemma DriftWorldPoint(viewport: Rect)
    ensures ToWorld(ViewPos(Point(-10.0, 0.0), false, viewport), 2.0, Point(10.0, 0.0)) == Point(15.0, 0.0)
  {
    assert Points.Mul(Point(10.0, 0.0), 1.0 / 2.0) == Point(5.0, 0.0);
  }

  /**
   * With the corrected offset and up-to-date matrices, the world point that
   * was under `center` is under it again after the zoom, in both directions.
   */
  lemma {:induction false} CenteredZoomKeepsPoint(offset: Point, shouldCenterView: bool, scale: real,
                                                  newScale: real, center: Point, viewport: Rect)
    requires scale != 0.0 && newScale != 0.0
    ensures var centerWorld := ToWorld(ViewPos(offset, shouldCenterView, viewport), scale, center);
      var pos := ViewPos(CenteredZoomOffset(offset, shouldCenterView, centerWorld, newScale, center, viewport), shouldCenterView, viewport);
      && ToScreen(pos, newScale, centerWorld) == center
      && ToWorld(pos, newScale, center) == centerWorld
  {
    var centerWorld := ToWorld(ViewPos(offset, shouldCenterView, viewport), scale, center);
    CenteredZoomPos(ViewPos(offset, shouldCenterView, viewport), offset, shouldCenterView, centerWorld, newScale, center, viewport);
    ToScreenToWorldInverse(centerWorld, newScale, center);
  }

  /** After the corrected zoom, the view translation is the world image of `center` seen from `centerWorld`. */
  lemma CenteredZoomPos(pos0: Point, offset: Point, shouldCenterView: bool, centerWorld: Point,
                        newScale: real, center: Point, viewport: Rect)
    requires newScale != 0.0 && pos0 == ViewPos(offset, shouldCenterView, viewport)
    ensures ViewPos(CenteredZoomOffset(offset, shouldCenterView, centerWorld, newScale, center, viewport), shouldCenterView, viewport)
      == ToWorld(centerWorld, newScale, center)
  {
    var correction := Add(center, Points.Mul(ToScreen(pos0, newScale, centerWorld), -1.0));
    var shift := Points.Mul(correction, 1.0 / newScale);
    ViewPosShift(offset, shift, shouldCenterView, viewport);
    // correction / newScale == center / newScale - centerWorld - pos0
    CorrectionInWorldUnits(center.x, centerWorld.x, pos0.x, newScale);
    CorrectionInWorldUnits(center.y, centerWorld.y, pos0.y, newScale);
  }

  lemma ViewPosShift(offset: Point, shift: Point, shouldCenterView: bool, viewport: Rect)
    ensures ViewPos(Add(offset, shift), shouldCenterView, viewport) == Add(ViewPos(offset, shouldCenterView, viewport), shift)
  {
  }

  lemma CorrectionInWorldUnits(c: real, w: real, p: real, s: real)
    requires s != 0.0
    ensures p + (c + (w + p) * s * -1.0) * (1.0 / s) == c * (1.0 / s) - w
  {
    MulDiv(w + p, s);
    assert (c + (w + p) * s * -1.0) * (1.0 / s) == c * (1.0 / s) - (w + p) * s * (1.0 / s);
  }

  class Camera {
    /** The negative of the camera's position. */
    var offset: Point
    var scale: real
    var shouldCenterView: bool
    var worldToScreen: Matrix
    var screenToWorld: Matrix

    /** The zoom is nonzero and both cached matrices are affine. */
    predicate Valid()
      reads this
    {
      scale != 0.0 && IsAffine(worldToScreen) && IsAffine(screenToWorld)
    }

    /** The cached matrices are those `updateViewport(viewport)` builds from the current state. */
    predicate UpToDate(viewport: Rect)
      reads this
      requires scale != 0.0
    {
      && worldToScreen == WorldToScreen(ViewPos(offset, shouldCenterView, viewport), scale)
      && screenToWorld == ScreenToWorld(ViewPos(offset, shouldCenterView, viewport), scale)
    }

    /** `new Camera({ pos, scale, shouldCenterView })`; both matrices start as the identity. */
    constructor(pos: Point := Zero, scale: real := 1.0, shouldCenterView: bool := false)
      requires scale != 0.0
      ensures offset == pos && this.scale == scale && this.shouldCenterView == shouldCenterView
      ensures worldToScreen == Identity && screenToWorld == Identity
      ensures Valid()
    {
      offset := pos;
      this.scale := scale;
      this.shouldCenterView := shouldCenterView;
      worldToScreen := Identity;
      screenToWorld := Identity;
    }

    /** `updateViewport(size)`; the drawer overload passes the drawer's `size`. */
    method UpdateViewport(viewport: Rect)
      requires Valid()
      modifies this
      ensures offset == old(offset) && scale == old(scale) && shouldCenterView == old(shouldCenterView)
      ensures UpToDate(viewport)
      ensures Valid()
    {
      var pos := ViewPos(offset, shouldCenterView, viewport);
      worldToScreen := Matrices.Scale(Matrices.Translate(Identity, pos), scale);
      screenToWorld := Matrices.Translate(Matrices.Scale(Identity, 1.0 / scale), Points.Mul(pos, -1.0));
    }

    /** `updateViewport(drawer)` */
    method UpdateViewportTo(drawer: Drawers.Drawer)
      requires Valid()
      modifies this
      ensures offset == old(offset) && scale == old(scale) && shouldCenterView == old(shouldCenterView)
      ensures UpToDate(drawer.size)
      ensures Valid()
    {
      UpdateViewport(drawer.size);
    }

    /** `translate(offset)`: the offset moves; the matrices wait for the next `updateViewport`. */
    method Translate(delta: Point)
      modifies this
      ensures offset == Add(old(offset), delta)
      ensures scale == old(scale) && shouldCenterView == old(shouldCenterView)
      ensures worldToScreen == old(worldToScreen) && screenToWorld == old(screenToWorld)
    {
      offset := Add(offset, delta);
    }

    /**
     * `zoomViewport(newScale, center, viewport)` as written: read the world
     * point under `center` through the cached `screenToWorld`, switch scale,
     * update the viewport, and add the screen-space correction to the offset.
     * The matrices stay those of the pre-correction offset.
     */
    method ZoomViewport(newScale: real, center: Point, viewport: Rect)
      requires Valid() && newScale != 0.0
      modifies this
      ensures scale == newScale && shouldCenterView == old(shouldCenterView)
      ensures offset == ZoomOffset(old(offset), shouldCenterView, Transform(old(screenToWorld), center), newScale, center, viewport)
      ensures worldToScreen == WorldToScreen(ViewPos(old(offset), shouldCenterView, viewport), newScale)
      ensures screenToWorld == ScreenToWorld(ViewPos(old(offset), shouldCenterView, viewport), newScale)
      ensures Valid()
    {
      var centerWorld := Transform(screenToWorld, center);
      scale := newScale;
      UpdateViewport(viewport);
      var newCenter := Transform(worldToScreen, centerWorld);
      WorldToScreenMaps(ViewPos(offset, shouldCenterView, viewport), newScale, centerWorld);
      var correction := Add(center, Points.Mul(newCenter, -1.0));
      offset := Add(offset, correction);
    }

    /**
     * The zoom with the correction divided by `newScale`: when the matrices
     * were up to date, the world point under `center` is under it again
     * once the viewport is updated.
     */
    method ZoomViewportCentered(newScale: real, center: Point, viewport: Rect)
      requires Valid() && newScale != 0.0
      modifies this
      ensures scale == newScale && shouldCenterView == old(shouldCenterView)
      ensures offset == CenteredZoomOffset(old(offset), shouldCenterView, Transform(old(screenToWorld), center), newScale, center, viewport)
      ensures worldToScreen == WorldToScreen(ViewPos(old(offset), shouldCenterView, viewport), newScale)
      ensures screenToWorld == ScreenToWorld(ViewPos(old(offset), shouldCenterView, viewport), newScale)
      ensures old(UpToDate(viewport)) ==>
        Transform(ScreenToWorld(ViewPos(offset, shouldCenterView, viewport), newScale), center)
          == Transform(old(screenToWorld), center)
      ensures Valid()
    {
      ghost var upToDate := UpToDate(viewport);
      ghost var oldScale, oldOffset := scale, offset;
      var centerWorld := Transform(screenToWorld, center);
      if upToDate {
        ScreenToWorldMaps(ViewPos(offset, shouldCenterView, viewport), scale, center);
      }
      scale := newScale;
      UpdateViewport(viewport);
      var newCenter := Transform(worldToScreen, centerWorld);
      WorldToScreenMaps(ViewPos(offset, shouldCenterView, viewport), newScale, centerWorld);
      var correction := Add(center, Points.Mul(newCenter, -1.0));
      offset := Add(offset, Points.Mul(correction, 1.0 / newScale));
      ScreenToWorldMaps(ViewPos(offset, shouldCenterView, viewport), newScale, center);
      if upToDate {
        CenteredZoomKeepsPoint(oldOffset, shouldCenterView, oldScale, newScale, center, viewport);
      }
    }
  }
}
