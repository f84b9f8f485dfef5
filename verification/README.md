# Drawer, modelled in Dafny

Drawer is a small TypeScript library for drawing on an HTML canvas. It
consists of:

- value types: a 2D `Point`, an axis-aligned `Rect`, a 3×3 `Matrix` and an
  RGBA `Color`;
- the `Drawer` wrapper around a canvas rendering context. It sizes the canvas,
  sets the font and lays out multi-line text, and builds paths;
- a `Camera` that keeps a world-to-screen matrix and its inverse, and zooms
  about a point;
- `DrawerInput`, which turns mouse, keyboard and frame events into state for
  each button and each key, with edge queries such as "pressed since the last
  frame".

This project models that core and proves properties of the model.

The modules follow the source files:

| file | module | models |
|---|---|---|
| `wrappers.dfy` | `Wrappers` | `Option`, `Result` and `Outcome`, for absent values and thrown errors |
| `point.dfy` | `Points` | `Point` (src/drawer/Point.ts) |
| `rect.dfy` | `Rects` | `Rect` (src/drawer/Rect.ts) |
| `matrix.dfy` | `Matrices` | `Matrix` (src/drawer/Matrix.ts) |
| `color.dfy` | `Colors` | `Color` (src/drawer/Color.ts) |
| `drawer.dfy` | `Drawers` | the `Drawer` class (src/drawer/Drawer.ts) as a Dafny class whose canvas calls are appended to a command log |
| `camera.dfy` | `Cameras` | `Drawer.Camera` (src/drawer/Drawer.ts) as a Dafny class |
| `drawer_input.dfy` | `Input` | `DrawerInput` and its mouse buttons and keys (src/drawerInput/DrawerInput.ts) as a Dafny class; every event it emits is appended to an event log |

Numbers are Dafny `real`s. A JavaScript value that would be NaN or an
infinity is modelled in one of three ways:

- as an explicit case: `MousePos.Unknown`, `Scalars.Parallel`, or `None`;
- as a thrown error: `Result.Err` or `Outcome.Fail`;
- by a precondition that excludes it (listed under "Left out").

Some inputs come from the browser and are parameters of the model:

- the clock;
- the canvas element's scroll size;
- `getComputedStyle`;
- the font string the context reports back;
- the measured line height.

## Model

| member | source | states |
|---|---|---|
| Points.Add | src/drawer/Point.ts:94-101 | the sum equals `p` exactly when `q` is the origin; `AddSubInverse` undoes it |
| Points.Sub | src/drawer/Point.ts:104-111 | the difference is the origin exactly when the two points are equal |
| Points.Mul | src/drawer/Point.ts:84-86 | multiplying by 1 keeps the point and multiplying by 0 gives the origin |
| Points.AddXY | src/drawer/Point.ts:96-101 | the `(x, y)` overload of `add` equals the object overload on `Point(x, y)` |
| Points.SubXY | src/drawer/Point.ts:106-111 | the `(x, y)` overload of `sub` equals the object overload on `Point(x, y)` |
| Points.AddSubInverse | src/drawer/Point.ts:96-111 | subtracting what was added gives the original point back |
| Points.ScaleNum | src/drawer/Point.ts:45-50 | the number overload of `scale` is the vector overload on `Point(n, otherY)` |
| Points.ScaleSingleNumber | src/drawer/Point.ts:45-50 | `scale(n)` with one number multiplies x by n and sets y to 0, because `otherY` defaults to 0 |
| Points.With | src/drawer/Point.ts:169-171 | the chosen axis takes the value and the other axis is kept |
| Points.Equals | src/drawer/Point.ts:164-166 | true exactly when both components are equal |
| Points.IsZero | src/drawer/Point.ts:131-133 | true exactly for the origin |
| Points.DistSqr | src/drawer/Point.ts:233-235 | the squared distance is never negative |
| Points.Dot | src/drawer/Point.ts:179-181 | the dot product of a vector with itself is never negative, and is 0 when either vector is the origin |
| Points.Min | src/drawer/Point.ts:218-220 | each component is one of the two inputs and not above either |
| Points.Max | src/drawer/Point.ts:223-225 | each component is one of the two inputs and not below either |
| Points.MinLeMax | src/drawer/Point.ts:218-225 | `min` is below `max` on both axes |
| Points.Lerp | src/drawer/Point.ts:213-215 | `lerp` is the weighted sum `p * (1 - frac) + target * frac` |
| Points.LerpEndpoints | src/drawer/Point.ts:213-215 | `lerp` is the start at 0 and the target at 1 |
| Points.CardinalDirection | src/drawer/Point.ts:199-210 | keeps only the component of `end - start` with the larger magnitude; a tie keeps y |
| Points.Project | src/drawer/Point.ts:184-191 | the projection keeps `start` and `direction`; its length is the dot product of `direction` with `target - start` |
| Points.ProjectedPoint | src/drawer/Point.ts:192 | `point()` is `start` when the length or the direction is zero |
| Points.ProjectIdempotent | src/drawer/Point.ts:184-192 | along a unit direction, projecting the projected point gives the same length again |
| Points.ClampedLength | src/drawer/Point.ts:194 | the length `pointClamped` uses lies in `[0, maxLength]` and equals the length when the length is already in range |
| Points.PointClamped | src/drawer/Point.ts:192-194 | a length within range gives `point()`; a negative length gives `start` |
| Points.GetLineIntersectionScalars | src/drawer/Point.ts:264-272 | `Parallel` exactly when the denominator is 0; otherwise both scalars reach the same point on the two lines |
| Points.IntersectionMeets | src/drawer/Point.ts:264-272 | the scalars of the closed formula put `pos1 + dir1*t1` and `pos2 + dir2*t2` at the same point |
| Points.GetLineIntersection | src/drawer/Point.ts:275-278 | no point for parallel lines; otherwise the point lies on the second line too |
| Rects.New | src/drawer/Rect.ts:52-76 | all four constructor overloads; a number for `x` with an object for `y` throws `TypeError` |
| Rects.FromPosSize | src/drawer/Rect.ts:52-76 | a rectangle built from a position and a size is the `(Point, Point)` constructor overload |
| Rects.With | src/drawer/Rect.ts:45-47 | the named component is replaced and the other three are kept |
| Rects.Origin | src/drawer/Rect.ts:84-86 | moved to the origin, same size |
| Rects.End | src/drawer/Rect.ts:99-101 | the end minus the position is the size |
| Rects.Translate | src/drawer/Rect.ts:104-110 | the position moves by the offset and the size is kept |
| Rects.TranslateXY | src/drawer/Rect.ts:104-110 | the number overload of `translate` equals the point overload |
| Rects.Expand | src/drawer/Rect.ts:113-119 | the size grows by the offset and the position is kept |
| Rects.ExpandXY | src/drawer/Rect.ts:113-119 | the number overload of `expand` equals the point overload |
| Rects.Equals | src/drawer/Rect.ts:145-147 | true exactly when all four components are equal |
| Rects.ContainsPoint | src/drawer/Rect.ts:127-129 | a contained point lies in the closed rectangle, which then has a positive size; the end corner is never contained |
| Rects.Center | src/drawer/Rect.ts:132-134 | the centre is as far from the position as from the end |
| Rects.ContainsRect | src/drawer/Rect.ts:137-142 | true whenever either rectangle has a non-negative size and contains the other's position |
| Rects.ContainsPointHalfOpen | src/drawer/Rect.ts:127-129 | containment is half-open: the position is inside only for a positive size, and the end corner is never inside |
| Rects.ContainsRectIsOverlap | src/drawer/Rect.ts:137-142 | `containsRect` tests overlap, not containment: true gives a point common to both closed rectangles, false rules out any common point |
| Rects.Min | src/drawer/Rect.ts:320-325 | the lower corner, correct for negative sizes too |
| Rects.Max | src/drawer/Rect.ts:328-333 | the upper corner, correct for negative sizes too |
| Rects.MinLeMax | src/drawer/Rect.ts:320-333 | `min` is below `max`; for a non-negative size they are the position and the end |
| Rects.SnapToGrid | src/drawer/Rect.ts:336-340 | the result has integral position and size, starts at the floor of the start and ends at the ceiling of the end |
| Rects.AlignedOptions | src/drawer/Rect.ts:246-247 | `size` sets both width and height, and `padding` sets all four edges |
| Rects.AlignAxis | src/drawer/Rect.ts:249-269 | an explicit length is anchored at the start edge, else at the end edge, else centred; without a length, the span is cut from the edges that are given |
| Rects.Align | src/drawer/Rect.ts:240-296 | each axis is aligned on its own by the rule of `AlignAxis` |
| Rects.AlignAxesIndependent | src/drawer/Rect.ts:249-292 | the horizontal result depends only on the horizontal options |
| Rects.AspectRatio | src/drawer/Rect.ts:299-317 | the result is at the origin |
| Rects.AspectRatioFits | src/drawer/Rect.ts:299-317 | for a positive size and ratio, the result keeps `height == ratio * width`, fits inside, and touches at least one side |
| Rects.Fold | src/drawer/Rect.ts:358-383 | the running bounds exist exactly for a non-empty target list |
| Rects.FoldBounds | src/drawer/Rect.ts:358-383 | the bounds include every target's `min` and `max`, and each bound is reached by some target |
| Rects.Union | src/drawer/Rect.ts:358-383 | the loop's result contains every rectangle and point; `None` exactly for an empty list |
| Rects.MinMaxOfBounds | src/drawer/Rect.ts:382 | the union rectangle's corners are the bounds |
| Matrices.Translate | src/drawer/Matrix.ts:7-16 | only the translation entries change, by the offset |
| Matrices.TranslateXY | src/drawer/Matrix.ts:7-16 | the number overload of `translate` equals the point overload |
| Matrices.TranslateTransform | src/drawer/Matrix.ts:7-16 | transforming with a translated matrix adds the offset to the image |
| Matrices.Transpose | src/drawer/Matrix.ts:35-41 | the entries are mirrored across the diagonal |
| Matrices.TransposeInvolution | src/drawer/Matrix.ts:35-41 | transposing twice gives the matrix back |
| Matrices.ScaleXY | src/drawer/Matrix.ts:46-67 | the first row is multiplied by x and the second by y; the last row is kept |
| Matrices.Scale | src/drawer/Matrix.ts:46-67 | the one-number overload scales both axes by that number |
| Matrices.ScalePoint | src/drawer/Matrix.ts:46-67 | the point overload scales by the point's components |
| Matrices.ScaleTransform | src/drawer/Matrix.ts:46-67 | transforming with a scaled matrix scales the image componentwise |
| Matrices.Mul | src/drawer/Matrix.ts:69-83 | the product of affine matrices is affine; `MulTransform` gives its action on points |
| Matrices.MulTransform | src/drawer/Matrix.ts:69-83 | the product transforms like `b` followed by `a` |
| Matrices.MulIdentity | src/drawer/Matrix.ts:69-83 | the identity is a unit on both sides |
| Matrices.AffinePreserved | src/drawer/Matrix.ts:7-83 | translate, scale and product keep the bottom row `0 0 1` |
| Matrices.Transform | src/drawer/Matrix.ts:85-104 | an affine matrix maps `p` to the affine image of `p` |
| Matrices.TransformVector | src/drawer/Matrix.ts:106-125 | `transformVector` is `transform` with the translation removed |
| Matrices.TransformVectorIsDifference | src/drawer/Matrix.ts:106-125 | the image of a vector is the difference between the images of the point and of the origin |
| Matrices.TransformRect | src/drawer/Matrix.ts:127-132 | the rectangle's position and end are the images of its position and end |
| Matrices.IsIdentity | src/drawer/Matrix.ts:138-150 | true exactly for the identity matrix |
| Matrices.IdentityTransform | src/drawer/Matrix.ts:138-150 | the identity leaves points unchanged |
| Matrices.Get | src/drawer/Matrix.ts:152-163 | indices outside 0..2 raise the range error; each of the nine index pairs returns its own entry, `m(x+1)(y+1)` |
| Matrices.GetTranspose | src/drawer/Matrix.ts:35-41 | reading the transpose at (x, y) is reading the matrix at (y, x) |
| Matrices.End | src/drawer/Matrix.ts:165-167 | `end()` is the image of the origin |
| Matrices.FromDOMMatrix | src/drawer/Matrix.ts:187-197 | the result is affine and maps the origin to `(e, f)` |
| Colors.Lerp | src/drawer/Color.ts:11-18 | gives the first colour at 0 and the second at 1 |
| Colors.Mul | src/drawer/Color.ts:20-27 | scales the colour channels and keeps alpha |
| Colors.Opacity | src/drawer/Color.ts:29-31 | replaces alpha only |
| Colors.Clamp01 | src/drawer/Color.ts:4-7 | the result is in [0, 1] and equals the input when the input is in range |
| Colors.Channel255 | src/drawer/Color.ts:4-6 | a printed channel is the floor of the clamped value times 255, in 0..255 |
| Colors.ToStyle | src/drawer/Color.ts:3-9 | each printed channel is `Channel255` of the colour's channel, a byte, and alpha is clamped |
| Colors.ParseIntHex | src/drawer/Color.ts:52-54 | `parseInt(…, 16)` on a two-character window yields -15..255 or NaN, and NaN for an empty window |
| Colors.ParseIntHexByte | src/drawer/Color.ts:52-54 | on two hexadecimal digits, `parseInt` reads exactly that byte |
| Colors.HexOffset | src/drawer/Color.ts:49-50 | the digits start after a leading `#` and at 0 otherwise |
| Colors.FromHex | src/drawer/Color.ts:48-57 | a colour exactly when all three channels parse, with alpha 1 |
| Colors.FromHexToStyle | src/drawer/Color.ts:3-9 | for `#rrggbb` with hexadecimal digits, the `toStyle` channels are the bytes written |
| Colors.HexRoundTrip | src/drawer/Color.ts:48-57 | three bytes written as `#rrggbb` and parsed come back unchanged through `toStyle` |
| Colors.FromHexReadsDigitPrefix | src/drawer/Color.ts:52-54 | a pair such as `1z` reads as its leading digit, as `parseInt` does |
| Colors.FromHexRejectsNonDigit | src/drawer/Color.ts:52-54 | a pair with no leading digit gives no colour |
| Drawers.IsFragile | src/drawer/Drawer.ts:17-23 | fragile for `"fragile"` or `{ fragile: true }`, and not fragile otherwise |
| Drawers.NewSize | src/drawer/Drawer.ts:165-167 | the new size is at the origin, each side at least 1, and equal to the request when the request is at least 1 |
| Drawers.SizeCommand | src/drawer/Drawer.ts:169-174 | `clearRect` of the whole canvas exactly when the canvas dimensions equal the new size; otherwise a reallocation to the new size truncated to whole pixels |
| Drawers.SizeCommandBlanks | src/drawer/Drawer.ts:169-174 | either branch leaves the canvas blank at the new size; a size that is not whole pixels always reallocates |
| Drawers.ResolveSize | src/drawer/Drawer.ts:102-104 | a number gets `px`, a string is kept, and no size inherits the computed style or fails without one |
| Drawers.ResolveFamily | src/drawer/Drawer.ts:106 | a non-empty font is kept; an empty one inherits the computed style or fails without one |
| Drawers.FontString | src/drawer/Drawer.ts:105-108 | the size and the family separated by a space, preceded by the modifier and a space when there is one |
| Drawers.ResolveFont | src/drawer/Drawer.ts:100-110 | the font string is `[modifier ]size font`, and an error in the size or the family is passed on |
| Drawers.SplitLines | src/drawer/Drawer.ts:119 | splitting on `\n` gives at least one line, and no line holds a `\n` |
| Drawers.SplitJoin | src/drawer/Drawer.ts:119 | joining the lines with `\n` gives the text back |
| Drawers.LinePos | src/drawer/Drawer.ts:123 | line i is drawn `lineHeight * i` below the position |
| Drawers.TextCommands | src/drawer/Drawer.ts:119-139 | each line issues one command, or two when outlined; `TextCommandsLayout` places them |
| Drawers.TextCommandsStep | src/drawer/Drawer.ts:122-139 | one more line appends that line's commands |
| Drawers.TextCommandsLayout | src/drawer/Drawer.ts:122-139 | each line issues a fill, preceded by a stroke when outlined, at its own line position, and nothing else |
| Drawers.ShapeCommands | src/drawer/Drawer.ts:253-265 | a polygon moves to its first point and draws lines to the rest |
| Drawers.Drawer.constructor | src/drawer/Drawer.ts:16-30 | a fragile drawer takes the canvas size as it is with an empty log; any other drawer sets its native size, and its log is the one blanking call of that `setSize` |
| Drawers.Drawer.NativeRect | src/drawer/Drawer.ts:150-154 | the scroll size when the canvas has one, else the canvas size |
| Drawers.Drawer.SetNativeSize | src/drawer/Drawer.ts:147-158 | fails on a fragile canvas; otherwise sets the size from the native rectangle and appends the blanking call `SizeCommand` chooses |
| Drawers.Drawer.SetSize | src/drawer/Drawer.ts:161-177 | fails on a fragile canvas with nothing changed; otherwise stores the new size, sets the canvas to its whole pixels, appends exactly the `clearRect` or reallocation of `SizeCommand`, and keeps the class invariant |
| Drawers.Drawer.Clear | src/drawer/Drawer.ts:73-76 | clearing keeps the size and appends one call that blanks the whole canvas: `clearRect` for a whole-pixel size, a reallocation otherwise |
| Drawers.Drawer.MatchSize | src/drawer/Drawer.ts:180-188 | an equal size changes nothing; otherwise the target size is set and the blanking call of that `setSize` is appended |
| Drawers.Drawer.IntegralSizeMatchesCanvas | src/drawer/Drawer.ts:161-177 | for an integral size, the canvas dimensions equal the stored size |
| Drawers.Drawer.Move | src/drawer/Drawer.ts:215-218 | one `moveTo` is issued |
| Drawers.Drawer.LineTo | src/drawer/Drawer.ts:221-224 | one `lineTo` is issued |
| Drawers.Drawer.Shape | src/drawer/Drawer.ts:253-265 | the loop issues the polygon's commands |
| Drawers.Drawer.FillTextLines | src/drawer/Drawer.ts:87-144 | a font error issues nothing; a font the context rejects is set and then fails; otherwise font, alignment (default `start`), baseline (default `alphabetic`) and every line are issued |
| Drawers.Drawer.DrawLines | src/drawer/Drawer.ts:122-139 | the line loop issues the layout's commands |
| Cameras.ViewPos | src/drawer/Drawer.ts:537 | the view position is the offset, shifted to the viewport centre when centring |
| Cameras.WorldToScreen | src/drawer/Drawer.ts:539-541 | the world-to-screen matrix is affine |
| Cameras.ScreenToWorld | src/drawer/Drawer.ts:543-545 | the screen-to-world matrix is affine |
| Cameras.ToScreen | src/drawer/Drawer.ts:539-541 | at scale 1 a point is shifted by the view position; `ToScreenToWorldInverse` relates it to `ToWorld` |
| Cameras.ToWorld | src/drawer/Drawer.ts:543-545 | at scale 1 the view position is subtracted, and the screen origin maps to minus the view position |
| Cameras.WorldToScreenMaps | src/drawer/Drawer.ts:539-541 | world to screen maps `p` to `(p + pos) * scale` |
| Cameras.ScreenToWorldMaps | src/drawer/Drawer.ts:543-545 | screen to world maps `q` to `q / scale - pos` |
| Cameras.ToScreenToWorldInverse | src/drawer/Drawer.ts:535-546 | the two point maps are inverse to each other |
| Cameras.ViewportInverse | src/drawer/Drawer.ts:535-546 | the two matrices are inverse to each other on every point |
| Cameras.ZoomOffsetAsWritten | src/drawer/Drawer.ts:573-580 | the zoom adds `center - center / scale * newScale` to the offset, a screen-space correction |
| Cameras.ZoomViewportDrifts | src/drawer/Drawer.ts:573-580 | zooming from 1 to 2 about screen point (10, 0) moves the world point under it from (10, 0) to (15, 0) |
| Cameras.CenteredZoomKeepsPoint | src/drawer/Drawer.ts:570-580 | with the correction divided by the new scale, the world point under `center` stays under it |
| Cameras.Camera.constructor | src/drawer/Drawer.ts:582-588 | stores position, scale and centring; both matrices start as the identity |
| Cameras.Camera.UpdateViewport | src/drawer/Drawer.ts:535-546 | recomputes both matrices for the viewport and keeps offset, scale and centring |
| Cameras.Camera.UpdateViewportTo | src/drawer/Drawer.ts:535-536 | the drawer overload uses the drawer's size |
| Cameras.Camera.Translate | src/drawer/Drawer.ts:566-568 | adds to the offset only |
| Cameras.Camera.ZoomViewport | src/drawer/Drawer.ts:573-580 | sets the scale, recomputes the matrices from the old offset, then moves the offset by the screen-space correction |
| Cameras.Camera.ZoomViewportCentered | src/drawer/Drawer.ts:570-580 | the corrected zoom recomputes the matrices from the old offset as `zoomViewport` does, and, when they were current, the world point under `center` stays under it |
| Input.Diff | src/drawerInput/DrawerInput.ts:29 | the delta is known exactly when both positions are, and adding it to the old position gives the new one |
| Input.Pressed | src/drawerInput/DrawerInput.ts:169-171 | down now and not at the last frame |
| Input.Released | src/drawerInput/DrawerInput.ts:174-176 | up now and down at the last frame |
| Input.DragStarted | src/drawerInput/DrawerInput.ts:179-181 | dragging now and not at the last frame |
| Input.DragEnded | src/drawerInput/DrawerInput.ts:184-186 | not dragging now but dragging at the last frame |
| Input.EdgeQueriesExclusive | src/drawerInput/DrawerInput.ts:169-186 | never pressed and released at once, and never drag-started and drag-ended at once |
| Input.SnapshotClearsEdges | src/drawerInput/DrawerInput.ts:169-186 | a button whose snapshot equals its state reports no edge |
| Input.DrawTickClearsEdges | src/drawerInput/DrawerInput.ts:92-95 | after a frame's snapshot no button reports any edge |
| Input.PressReleaseEdges | src/drawerInput/DrawerInput.ts:47-59 | within a frame, "down" on a released button makes it pressed, and "up" on a held button makes it released |
| Input.BeyondThreshold | src/drawerInput/DrawerInput.ts:37 | never true for the NaN position; otherwise the distance exceeds the threshold |
| Input.EventPos | src/drawerInput/DrawerInput.ts:23 | the event offset, or NaN on "leave" |
| Input.DragPhaseEffect | src/drawerInput/DrawerInput.ts:34-45 | `DragPhase` leaves an idle button alone; a held one emits the move first, keeps its press, and is dragging exactly when it was or is beyond the threshold |
| Input.ReleaseEffect | src/drawerInput/DrawerInput.ts:54-58 | `Release` leaves the button up and not dragging, emits `onUp` first, and `onDragEnd` exactly when it was dragging |
| Input.PressPhaseEffect | src/drawerInput/DrawerInput.ts:47-59 | `PressPhase` acts only on "down" and "up" for the named button: "down" holds it at the event point and emits `onDown`, "up" releases it there |
| Input.LeavePhaseEffect | src/drawerInput/DrawerInput.ts:61-66 | `LeavePhase` acts only on "leave", releasing the button at the unknown position |
| Input.StepButton | src/drawerInput/DrawerInput.ts:33-67 | a mouse event never changes a button's last-frame snapshot |
| Input.StepButtonValid | src/drawerInput/DrawerInput.ts:33-67 | a button drags only while it is held |
| Input.StepButtonPress | src/drawerInput/DrawerInput.ts:47-59 | "down" holds the button at the event position and emits `onDown`; "up" releases it, stops the drag, and emits `onDragEnd` exactly when it was dragging |
| Input.StepButtonOther | src/drawerInput/DrawerInput.ts:33-45 | a button the event does not name changes only by the drag test |
| Input.DragStartCondition | src/drawerInput/DrawerInput.ts:34-45 | a drag starts exactly for a held, not yet dragging button beyond the threshold, and emits move, drag start and drag in that order |
| Input.DragPhaseNoDragEnd | src/drawerInput/DrawerInput.ts:34-45 | the drag test never emits `onDragEnd` |
| Input.StepButtonLeave | src/drawerInput/DrawerInput.ts:61-66 | "leave" releases every button and emits `onUp` for each, even for a button that was not down |
| Input.VisitDrag | src/drawerInput/DrawerInput.ts:34-45 | the statements of the drag test compute `DragPhase` |
| Input.VisitRelease | src/drawerInput/DrawerInput.ts:54-58 | the release statements compute `Release` |
| Input.VisitButton | src/drawerInput/DrawerInput.ts:33-67 | one loop iteration computes `StepButton` |
| Input.VisitButtons | src/drawerInput/DrawerInput.ts:33-67 | the loop visits left, middle and right in order, emits their events in that order, and keeps every button valid |
| Input.AdvanceClock | src/drawerInput/DrawerInput.ts:72-84 | an explicit delta is added to the time and reported; otherwise the clock is read, and the first reading reports 0 |
| Input.SnapshotButtons | src/drawerInput/DrawerInput.ts:92-95 | each button's last-frame state becomes its current state |
| Input.SnapshotKeyMap | src/drawerInput/DrawerInput.ts:97-99 | each key's last-frame state becomes its current state, and the key set is unchanged |
| Input.SnapshotKeys | src/drawerInput/DrawerInput.ts:97-99 | the same keys, each with `lastDown` set to `down` |
| Input.WithKey | src/drawerInput/DrawerInput.ts:197-205 | the key is present afterwards; existing entries are untouched, and a new one starts up |
| Input.WithKeyIdempotent | src/drawerInput/DrawerInput.ts:197-205 | looking a key up twice is the same as once |
| Input.ToLower | src/drawerInput/DrawerInput.ts:104 | same length; ASCII capitals are lowered and other characters kept |
| Input.IsTextField | src/drawerInput/DrawerInput.ts:104 | an event with no target tag is never ignored; the tags `INPUT`, `TEXTAREA`, `input` and `textarea` are; any ignored tag has 5 or 8 characters |
| Input.DrawerInput.constructor | src/drawerInput/DrawerInput.ts:119-121 | all buttons are up, the mouse is at the origin, the time is -1, and there are no keys |
| Input.DrawerInput.ProcessMouseInput | src/drawerInput/DrawerInput.ts:21-68 | sets `over` and the position, emits the mouse move and then the button events, updates each button by `StepButton`, and keeps the class invariant |
| Input.DrawerInput.ProcessDrawEvent | src/drawerInput/DrawerInput.ts:70-100 | advances the clock, emits `onDraw`, computes the mouse delta, and snapshots the mouse, the buttons and the keys |
| Input.DrawerInput.Key | src/drawerInput/DrawerInput.ts:197-205 | returns the key's state and creates its entry on first use |
| Input.DrawerInput.ProcessKeyboardEvent | src/drawerInput/DrawerInput.ts:102-117 | events aimed at `input` or `textarea` change nothing; otherwise the key goes down or up and both the key's and the keyboard's event are emitted; the mouse, buttons, clock and drag threshold are kept |

## Left out

- I/O is not modelled: the canvas is a command log. The following become parameters:
  - the clock (`now`);
  - the canvas scroll size;
  - `getComputedStyle`;
  - the font string the context reports back;
  - the measured line height.
- Event subscription, emitter listeners and disposal are left out, and so is the `drawer` field of `DrawerInput`. The model appends every emitted event to a log instead.
- The clock is sampled once per frame. The source calls `Date.now()` twice on a clock-driven frame, and three times on the first one.
- Object identity is not captured. Points, rectangles, buttons and keys are values. The object that `keyboard.key` returns is modelled by its state.
- The keyboard's key table is a plain JavaScript object in the source. An inherited name such as `constructor` is already "in" it; the model's map has no such names.
- `ToLower` lowers ASCII letters only; `toLowerCase` also lowers other scripts. This does not matter for HTML tag names.
- Floating point, rounding, infinities and NaN are not modelled beyond the cases above. In particular:
  - Matrices.Transform: requires a non-zero homogeneous coordinate. JavaScript divides and gets an infinity or NaN.
  - Matrices.TransformVector: requires a non-zero homogeneous coordinate, for the same reason.
  - Matrices.End: requires a non-zero homogeneous coordinate, for the same reason.
  - Matrices.TransformRect: requires a non-zero homogeneous coordinate, for the same reason.
  - Rects.AspectRatio: requires that its divisors are non-zero. JavaScript gives an infinity there.
  - Rects.Union: returns `None` for an empty list. JavaScript builds a rectangle of infinities.
  - Colors.FromHex: returns `None` where a channel would be NaN, instead of a colour holding NaN.
  - Points.GetLineIntersection: returns `None` for parallel lines, where JavaScript gives a point with infinite components.
- Colors.ParseIntHex: skips the white space that ECMAScript defines, and nothing else.
- Cameras.Camera.constructor: requires a non-zero scale. `1 / scale` would be an infinity.
- Cameras.Camera.ZoomViewport: requires a non-zero new scale, for the same reason.
- Cameras.Camera.ZoomViewportCentered: requires a non-zero new scale, for the same reason.
- Cameras.Camera: the matrices go stale when the offset or scale is changed without `updateViewport`, as in the source. `UpToDate` states when they are current.
- Drawers.Drawer: a canvas dimension is stored as the floor of the requested size, as in the DOM's `unsigned long`. Wrap-around above 2^32 is not modelled.
- Drawers.Drawer: assigning `canvas.width` and `canvas.height` is logged as one `Resize` command, even when the pixel size stays the same. What the reset does to the context state (transform, styles, path) is not modelled beyond that command.
- Drawers.Drawer.MatchSize: takes the target rectangle. The `Drawer` and `{width, height}` overloads reduce to it.
- Drawers.Drawer.FillTextLines: models the options overload. The `(size, font)` overload calls it.
- Drawers.Drawer.FillTextLines: an `outline` callback is not modelled, and neither is `measureText`. Only `outline: true` strokes the line.
- The other `Drawer` methods are not modelled. They forward one call to the context:
  - styles, `fillRect`, `strokeRect`, paths, `arc`, `ellipse`, `bezierTo`;
  - `stroke`, `fill`, gradients, `save`, `restore`, `clip`, `rect`;
  - transforms, `blit`, image data, `asPattern`.
- The camera's `pushTransform` and `overrideTransform` are not modelled; they only forward the matrix to the drawer.
- Functions built on trigonometry or square roots are not modelled:
  - `rotate`, `normalize`, `tangent`, `toAngle`, `fromAngle`, `dist`, `size`;
  - `clampSize`, `calculateObjectFit`, `awayVector`, `clampVector`.
- These `Point` and `Rect` helpers are not modelled: `round`, `makePixelPerfect`, `antiScale`, `invert`, `pow`, `makeKey`, `hash`, `area`, `copy`, `spread`, `mul`/`mulAll` on `Rect`, `sizeEquals`, `clampPoint`, `ceilSize`, `getFracPoint`, `extends`, `fromDOMRect`, `fromSize`, and `transformWithContext`.
- `toCSS` and the number-to-text formatting of `toStyle` are not modelled. `ToStyle` returns the four numbers it prints.
- Rects.Align: does not model that `align` writes `size` and `padding` back into the caller's options object.
- Rects.AspectRatio: the source's `center` parameter is unused there, and is left out.
- Points.DistSqr: states only that the result is non-negative, not that it is zero exactly for equal points.

## Findings

| source | as written | input that shows it | evidently intended | confidence | as-written member | corrected member |
|---|---|---|---|---|---|---|
| src/drawer/Drawer.ts:570-580 | `zoomViewport` adds the screen-space difference `center - newCenter` to `offset`, which is in world units | scale 1, offset (0, 0), no centring; zoom to 2 about screen point (10, 0) | the doc comment says the zoom is "centered on a point": the world point under `center` should stay there, so the correction should be divided by the new scale | not executed | Cameras.ZoomViewportDrifts | Cameras.CenteredZoomKeepsPoint |
