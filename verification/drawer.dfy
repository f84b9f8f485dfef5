/**
 * The surface bookkeeping of `Drawer` (src/drawer/Drawer.ts): the fragile
 * flag, the logical `size`, the pixel dimensions of the canvas it draws on,
 * and the rendering-context calls it issues, kept as a command log.
 */
module Drawers {
  import opened Wrappers
  import opened Points
  import opened Rects

  /**
   * The rendering-context calls the modelled operations make, in order.
   * `Resize` is an assignment of `canvas.width` and `canvas.height`, which
   * reallocates the bitmap blank and resets the context state.
   */
  datatype Command =
    | ClearRect(rect: Rect)
    | Resize(width: nat, height: nat)
    | SetFont(font: string)
    | SetTextAlign(align: string)
    | SetTextBaseline(baseline: string)
    | StrokeText(text: string, pos: Point)
    | FillText(text: string, pos: Point)
    | MoveTo(pos: Point)
    | LineTo(pos: Point)

  datatype DrawerError =
    | FragileCanvas
    | InvalidFont(requested: string, reported: string)
    | InheritedSizeUnsupported
    | InheritedFontUnsupported

  /** The `options` argument of the constructor: absent, the string `"fragile"`, or `{ fragile? }`. */
  datatype DrawerOptions = NoOptions | FragileString | OptionsObject(fragile: Option<bool>)

  function IsFragile(options: DrawerOptions): (b: bool)
    ensures b <==> options == FragileString || options == OptionsObject(Some(true))
  {
    match options
    case NoOptions => false
    case FragileString => true
    case OptionsObject(f) => if f.Some? then f.value else false
  }

  /** The argument of `setSize`: a `Point` is a size, a `Rect` contributes only its size. */
  datatype SizeArg = SizePoint(p: Point) | SizeRect(r: Rect)

  /** The rect at the origin `setSize` starts from. */
  function SizeTarget(arg: SizeArg): (r: Rect)
    ensures Pos(r) == Zero
    ensures arg.SizePoint? ==> Rects.Size(r) == arg.p
    ensures arg.SizeRect? ==> Rects.Size(r) == Rects.Size(arg.r)
  {
    match arg
    case SizePoint(p) => FromPosSize(Zero, p)
    case SizeRect(r) => Origin(r)
  }

  /** The new `size` of `setSize`: at the origin, each dimension raised to at least 1. */
  function NewSize(arg: SizeArg): (r: Rect)
    ensures Pos(r) == Zero && r.width >= 1.0 && r.height >= 1.0
    ensures r.width == MaxReal(SizeTarget(arg).width, 1.0)
    ensures r.height == MaxReal(SizeTarget(arg).height, 1.0)
    ensures SizeTarget(arg).width >= 1.0 && SizeTarget(arg).height >= 1.0 ==> r == SizeTarget(arg)
  {
    var t := SizeTarget(arg);
    Rect(0.0, 0.0, MaxReal(t.width, 1.0), MaxReal(t.height, 1.0))
  }

  /**
   * The call `setSize(arg)` makes on a canvas of `width` x `height` pixels,
   * once `size` is `NewSize(arg)`: a `clearRect` of the whole canvas when its
   * dimensions equal the new size exactly, else a reallocation to the new
   * size truncated to whole pixels.
   */
  function SizeCommand(width: nat, height: nat, arg: SizeArg): (c: Command)
    ensures c.ClearRect? <==> width as real == NewSize(arg).width && height as real == NewSize(arg).height
    ensures c.ClearRect? ==> c.rect == Rect(0.0, 0.0, width as real, height as real)
    ensures c.Resize? ==> c.width == FloorReal(NewSize(arg).width) && c.height == FloorReal(NewSize(arg).height)
  {
    var newSize := NewSize(arg);
    if width as real == newSize.width && height as real == newSize.height then
      ClearRect(Rect(0.0, 0.0, width as real, height as real))
    else Resize(FloorReal(newSize.width), FloorReal(newSize.height))
  }

  /** `c` leaves a canvas of `width` x `height` pixels blank. */
  predicate Blanks(c: Command, width: nat, height: nat) {
    c == ClearRect(Rect(0.0, 0.0, width as real, height as real)) || c == Resize(width, height)
  }

  /**
   * Whichever branch `setSize` takes, the canvas ends up blank at the new
   * size; a size that is not whole pixels always takes the reallocating branch.
   */
  lemma SizeCommandBlanks(width: nat, height: nat, arg: SizeArg)
    ensures Blanks(SizeCommand(width, height, arg), FloorReal(NewSize(arg).width), FloorReal(NewSize(arg).height))
    ensures !IsIntegral(NewSize(arg).width) || !IsIntegral(NewSize(arg).height) ==> SizeCommand(width, height, arg).Resize?
  {
  }

  /** The `size` property of the text options: a number (with its decimal text), a string, or absent. */
  datatype FontSize = NumberSize(digits: string) | StringSize(text: string) | NoSize

  datatype Modifier = Bold | Italic | ItalicBold

  function ModifierText(m: Modifier): string {
    match m
    case Bold => "bold"
    case Italic => "italic"
    case ItalicBold => "italic bold"
  }

  /** `Drawer.TextOptions`; `font == ""` stands for an absent font, which the source treats alike. */
  datatype TextOptions = TextOptions(
    font: string,
    size: FontSize,
    align: Option<string>,
    baseline: Option<string>,
    outline: bool,
    modifier: Option<Modifier>)

  /** The canvas element's computed CSS font; `None` where `getComputedStyle` does not exist. */
  datatype ComputedStyle = ComputedStyle(fontSize: string, fontFamily: string)

  /** The size part of the font string. */
  function ResolveSize(size: FontSize, style: Option<ComputedStyle>): (r: Result<string, DrawerError>)
    ensures size.NumberSize? ==> r == Ok(size.digits + "px")
    ensures size.StringSize? ==> r == Ok(size.text)
    ensures size.NoSize? ==> (r.Err? <==> style.None?)
    ensures r.Err? ==> r.error == InheritedSizeUnsupported
  {
    match size
    case NumberSize(digits) => Ok(digits + "px")
    case StringSize(text) => Ok(text)
    case NoSize => if style.Some? then Ok(style.value.fontSize) else Err(InheritedSizeUnsupported)
  }

  /** The family part of the font string; an empty `font` falls back to the computed style. */
  function ResolveFamily(font: string, style: Option<ComputedStyle>): (r: Result<string, DrawerError>)
    ensures font != "" ==> r == Ok(font)
    ensures r.Err? <==> font == "" && style.None?
    ensures r.Err? ==> r.error == InheritedFontUnsupported
  {
    if font != "" then Ok(font)
    else if style.Some? then Ok(style.value.fontFamily)
    else Err(InheritedFontUnsupported)
  }

  /** `[modifier + " "] + size + " " + font` */
  function FontString(modifier: Option<Modifier>, size: string, family: string): (s: string)
    ensures modifier.None? ==> s == size + " " + family
    ensures modifier.Some? ==> s == ModifierText(modifier.value) + " " + size + " " + family
  {
    var fontStyle := size + " " + family;
    if modifier.Some? then ModifierText(modifier.value) + " " + fontStyle else fontStyle
  }

  /** The font string `fillText` assigns, or the error thrown while computing it (size first). */
  function ResolveFont(options: TextOptions, style: Option<ComputedStyle>): (r: Result<string, DrawerError>)
    ensures r.Ok? <==> ResolveSize(options.size, style).Ok? && ResolveFamily(options.font, style).Ok?
    ensures r.Ok? ==> r.value == FontString(options.modifier, ResolveSize(options.size, style).value, ResolveFamily(options.font, style).value)
    ensures ResolveSize(options.size, style).Err? ==> r == Err(InheritedSizeUnsupported)
  {
    match ResolveSize(options.size, style)
    case Err(e) => Err(e)
    case Ok(size) =>
      match ResolveFamily(options.font, style)
      case Err(e) => Err(e)
      case Ok(family) => Ok(FontString(options.modifier, size, family))
  }

  /** `text.split("\n")` */
  function SplitLines(text: string): (lines: seq<string>)
    ensures |lines| >= 1
    ensures forall i :: 0 <= i < |lines| ==> '\n' !in lines[i]
  {
    if |text| == 0 then [""]
    else
      var rest := SplitLines(text[1..]);
      if text[0] == '\n' then [""] + rest
      else [[text[0]] + rest[0]] + rest[1..]
  }

  /** Lines joined back with `"\n"` between them. */
  function JoinLines(lines: seq<string>): string
    requires |lines| >= 1
  {
    if |lines| == 1 then lines[0] else lines[0] + "\n" + JoinLines(lines[1..])
  }

  /** Splitting loses nothing: joining the lines with `"\n"` gives the text back. */
  lemma {:induction false} SplitJoin(text: string)
    ensures JoinLines(SplitLines(text)) == text
    decreases |text|
  {
    if |text| == 0 {
    } else {
      var rest := SplitLines(text[1..]);
      SplitJoin(text[1..]);
      if text[0] == '\n' {
        assert SplitLines(text)[1..] == rest;
      } else {
        var lines := SplitLines(text);
        if |rest| == 1 {
          assert lines == [[text[0]] + rest[0]];
        } else {
          assert lines[1..] == rest[1..];
          assert JoinLines(rest) == rest[0] + "\n" + JoinLines(rest[1..]);
        }
      }
    }
  }

  /** Where line `i` of a text is drawn. */
  function LinePos(pos: Point, lineHeight: real, i: nat): (p: Point)
    ensures p == AddXY(pos, 0.0, lineHeight * i as real)
  {
    Point(pos.x, pos.y + lineHeight * i as real)
  }

  /** The commands for one line: stroked first when outlined, then filled. */
  function LineCommands(line: string, p: Point, outline: bool): seq<Command> {
    (if outline then [StrokeText(line, p)] else []) + [FillText(line, p)]
  }

  /** The commands for the lines, in order, line `i` at `LinePos(pos, lineHeight, i)`. */
  function TextCommands(lines: seq<string>, pos: Point, lineHeight: real, outline: bool): (cs: seq<Command>)
    ensures |cs| == PerLine(outline) * |lines|
  {
    if |lines| == 0 then []
    else
      var n := |lines| - 1;
      TextCommands(lines[..n], pos, lineHeight, outline) + LineCommands(lines[n], LinePos(pos, lineHeight, n), outline)
  }

  lemma TextCommandsStep(lines: seq<string>, i: nat, pos: Point, lineHeight: real, outline: bool)
    requires i < |lines|
    ensures TextCommands(lines[..i + 1], pos, lineHeight, outline)
      == TextCommands(lines[..i], pos, lineHeight, outline) + LineCommands(lines[i], LinePos(pos, lineHeight, i), outline)
  {
    assert lines[..i + 1][..i] == lines[..i];
  }

  /** The number of commands each line issues. */
  function PerLine(outline: bool): nat {
    if outline then 2 else 1
  }

  /**
   * Line `i` is filled at `pos + (0, i * lineHeight)` by command
   * `PerLine * i + PerLine - 1`, and, when outlined, stroked there just before.
   */
  lemma {:induction false} TextCommandsLayout(lines: seq<string>, pos: Point, lineHeight: real, outline: bool)
    ensures |TextCommands(lines, pos, lineHeight, outline)| == PerLine(outline) * |lines|
    ensures forall i :: 0 <= i < |lines| ==>
      TextCommands(lines, pos, lineHeight, outline)[PerLine(outline) * i + PerLine(outline) - 1]
        == FillText(lines[i], LinePos(pos, lineHeight, i))
    ensures outline ==> forall i :: 0 <= i < |lines| ==>
      TextCommands(lines, pos, lineHeight, outline)[2 * i] == StrokeText(lines[i], LinePos(pos, lineHeight, i))
  {
    if |lines| > 0 {
      var n := |lines| - 1;
      var k := PerLine(outline);
      var prefix := TextCommands(lines[..n], pos, lineHeight, outline);
      var last := LineCommands(lines[n], LinePos(pos, lineHeight, n), outline);
      TextCommandsLayout(lines[..n], pos, lineHeight, outline);
      assert |prefix| == k * n;
      assert TextCommands(lines, pos, lineHeight, outline) == prefix + last;
      forall i | 0 <= i < |lines|
        ensures TextCommands(lines, pos, lineHeight, outline)[k * i + k - 1] == FillText(lines[i], LinePos(pos, lineHeight, i))
      {
        if i < n {
          assert lines[..n][i] == lines[i];
        }
      }
      if outline {
        forall i | 0 <= i < |lines|
          ensures TextCommands(lines, pos, lineHeight, outline)[2 * i] == StrokeText(lines[i], LinePos(pos, lineHeight, i))
        {
          if i < n {
            assert lines[..n][i] == lines[i];
          }
        }
      }
    }
  }

  /** The path commands of `shape(points)`: `moveTo` the first point, `lineTo` each later one. */
  function ShapeCommands(points: seq<Point>): (cs: seq<Command>)
    ensures |cs| == |points|
    ensures |points| > 0 ==> cs[0] == MoveTo(points[0])
    ensures forall i :: 0 < i < |points| ==> cs[i] == LineTo(points[i])
  {
    seq(|points|, i requires 0 <= i < |points| => if i == 0 then MoveTo(points[i]) else LineTo(points[i]))
  }

  class Drawer {
    /** The logical size, always at the origin. */
    var size: Rect
    const fragile: bool
    /** The pixel dimensions of the canvas element (`canvas.width`, `canvas.height`). */
    var canvasWidth: nat
    var canvasHeight: nat
    /** Every rendering-context call issued so far. */
    var log: seq<Command>

    /**
     * The canvas holds `size` truncated to whole pixels, and a drawer that
     * may resize keeps at least one pixel in each dimension.
     */
    predicate Valid()
      reads this
    {
      && Pos(size) == Zero
      && canvasWidth == FloorReal(size.width)
      && canvasHeight == FloorReal(size.height)
      && (!fragile ==> size.width >= 1.0 && size.height >= 1.0)
    }

    /**
     * `new Drawer(ctx, options)` on a canvas of `canvasWidth` x `canvasHeight`
     * pixels whose element reports `scroll` as its scroll size, if it has one.
     */
    constructor(canvasWidth: nat, canvasHeight: nat, scroll: Option<Point>, options: DrawerOptions)
      ensures fragile == IsFragile(options)
      ensures fragile ==> size == Rect(0.0, 0.0, canvasWidth as real, canvasHeight as real)
      ensures fragile ==> this.canvasWidth == canvasWidth && this.canvasHeight == canvasHeight && log == []
      ensures !fragile ==> size == NewSize(SizeRect(NativeRect(canvasWidth, canvasHeight, scroll)))
      ensures !fragile ==> log == [SizeCommand(canvasWidth, canvasHeight, SizeRect(NativeRect(canvasWidth, canvasHeight, scroll)))]
      ensures Valid()
    {
      fragile := IsFragile(options);
      this.canvasWidth := canvasWidth;
      this.canvasHeight := canvasHeight;
      log := [];
      size := if IsFragile(options) then Rect(0.0, 0.0, canvasWidth as real, canvasHeight as real) else ZeroRect;
      new;
      if !fragile {
        var _ := SetNativeSize(scroll);
      }
    }

    /** The rect `setNativeSize` passes on: the scroll size when the element has one, else the canvas size. */
    static function NativeRect(canvasWidth: nat, canvasHeight: nat, scroll: Option<Point>): (r: Rect)
      ensures Pos(r) == Zero
      ensures scroll.None? ==> r == Rect(0.0, 0.0, canvasWidth as real, canvasHeight as real)
      ensures scroll.Some? ==> Rects.Size(r) == scroll.value
    {
      if scroll.Some? then Rect(0.0, 0.0, scroll.value.x, scroll.value.y)
      else Rect(0.0, 0.0, canvasWidth as real, canvasHeight as real)
    }

    /**
     * `setSize(size)`. A fragile drawer throws and nothing changes. Otherwise
     * `size` becomes `NewSize(arg)` and the canvas is blanked by the one call
     * `SizeCommand` chooses: a `clearRect` when it already has those pixel
     * dimensions, else a reallocation.
     */
    method SetSize(arg: SizeArg) returns (r: Outcome<DrawerError>)
      modifies this
      ensures r.Fail? <==> fragile
      ensures r.Fail? ==> r.error == FragileCanvas && unchanged(this)
      ensures r.Pass? ==> size == NewSize(arg)
      ensures r.Pass? ==> canvasWidth == FloorReal(size.width) && canvasHeight == FloorReal(size.height)
      ensures r.Pass? ==> log == old(log) + [SizeCommand(old(canvasWidth), old(canvasHeight), arg)]
      ensures r.Pass? || old(Valid()) ==> Valid()
    {
      if fragile {
        return Fail(FragileCanvas);
      }
      size := NewSize(arg);
      if canvasWidth as real == size.width && canvasHeight as real == size.height {
        log := log + [ClearRect(Rect(0.0, 0.0, canvasWidth as real, canvasHeight as real))];
      } else {
        canvasWidth := FloorReal(size.width);
        canvasHeight := FloorReal(size.height);
        log := log + [Resize(canvasWidth, canvasHeight)];
      }
      return Pass;
    }

    /** `setNativeSize()`: `setSize` with the element's own size; a fragile drawer throws. */
    method SetNativeSize(scroll: Option<Point>) returns (r: Outcome<DrawerError>)
      modifies this
      ensures r.Fail? <==> fragile
      ensures r.Fail? ==> r.error == FragileCanvas && unchanged(this)
      ensures r.Pass? ==> size == NewSize(SizeRect(NativeRect(old(canvasWidth), old(canvasHeight), scroll)))
      ensures r.Pass? ==> log == old(log) + [SizeCommand(old(canvasWidth), old(canvasHeight), SizeRect(NativeRect(old(canvasWidth), old(canvasHeight), scroll)))]
      ensures r.Pass? || old(Valid()) ==> Valid()
    {
      if fragile {
        return Fail(FragileCanvas);
      }
      r := SetSize(SizeRect(NativeRect(canvasWidth, canvasHeight, scroll)));
    }

    /**
     * `clear()`: `setSize(size)`, which keeps `size` and blanks the canvas
     * with one call: a `clearRect` of the whole canvas when the size is whole
     * pixels, else a reallocation at the same pixel size.
     */
    method Clear() returns (r: Outcome<DrawerError>)
      requires Valid()
      modifies this
      ensures r.Fail? <==> fragile
      ensures r.Fail? ==> unchanged(this)
      ensures size == old(size) && canvasWidth == old(canvasWidth) && canvasHeight == old(canvasHeight)
      ensures r.Pass? ==> |log| == |old(log)| + 1 && log[..|old(log)|] == old(log)
      ensures r.Pass? ==> Blanks(log[|old(log)|], canvasWidth, canvasHeight)
      ensures r.Pass? && IsIntegral(size.width) && IsIntegral(size.height)
        ==> log == old(log) + [ClearRect(size)]
      ensures r.Pass? && !(IsIntegral(size.width) && IsIntegral(size.height))
        ==> log == old(log) + [Resize(canvasWidth, canvasHeight)]
      ensures Valid()
    {
      assert SizeTarget(SizeRect(size)) == size;
      ghost var w, h := size.width, size.height;
      SizeCommandBlanks(canvasWidth, canvasHeight, SizeRect(size));
      r := SetSize(SizeRect(size));
      if IsIntegral(w) && IsIntegral(h) {
        assert canvasWidth as real == w && canvasHeight as real == h;
      }
    }

    /**
     * `matchSize(other)` with the size of the other drawer, the rect, or the
     * `{ width, height }` object: `setSize` runs only when the sizes differ.
     */
    method MatchSize(target: Rect) returns (r: Outcome<DrawerError>)
      modifies this
      ensures Rects.Equals(old(size), target) ==> r.Pass? && unchanged(this)
      ensures !Rects.Equals(old(size), target) ==> (r.Fail? <==> fragile)
      ensures !Rects.Equals(old(size), target) && r.Pass? ==> size == NewSize(SizeRect(target))
      ensures !Rects.Equals(old(size), target) && r.Pass? ==> log == old(log) + [SizeCommand(old(canvasWidth), old(canvasHeight), SizeRect(target))]
      ensures r.Fail? ==> unchanged(this)
      ensures !Rects.Equals(old(size), target) && r.Pass? ==> Valid()
      ensures old(Valid()) ==> Valid()
    {
      if !Rects.Equals(size, target) {
        r := SetSize(SizeRect(target));
      } else {
        r := Pass;
      }
    }

    /** `move(pos)` */
    method Move(pos: Point)
      modifies this
      ensures log == old(log) + [MoveTo(pos)]
      ensures size == old(size) && canvasWidth == old(canvasWidth) && canvasHeight == old(canvasHeight)
    {
      log := log + [MoveTo(pos)];
    }

    /** `lineTo(pos)` */
    method LineTo(pos: Point)
      modifies this
      ensures log == old(log) + [Command.LineTo(pos)]
      ensures size == old(size) && canvasWidth == old(canvasWidth) && canvasHeight == old(canvasHeight)
    {
      log := log + [Command.LineTo(pos)];
    }

    /** `shape(points)`: the loop with its `first` flag issues `ShapeCommands(points)`. */
    method Shape(points: seq<Point>)
      modifies this
      ensures log == old(log) + ShapeCommands(points)
      ensures size == old(size) && canvasWidth == old(canvasWidth) && canvasHeight == old(canvasHeight)
    {
      var first := true;
      var i := 0;
      while i < |points|
        invariant 0 <= i <= |points|
        invariant first <==> i == 0
        invariant log == old(log) + ShapeCommands(points[..i])
        invariant size == old(size) && canvasWidth == old(canvasWidth) && canvasHeight == old(canvasHeight)
      {
        assert ShapeCommands(points[..i + 1]) == ShapeCommands(points[..i]) + [ShapeCommands(points[..i + 1])[i]];
        if first {
          Move(points[i]);
          first := false;
        } else {
          LineTo(points[i]);
        }
        i := i + 1;
      }
      assert points[..i] == points;
    }

    /**
     * `fillText(text, pos, options)`. `style` is what `getComputedStyle`
     * reports for the canvas, `reported` the font the context reads back
     * after the assignment, and `lineHeight` the measured height of a line.
     * The font is assigned, then checked; on a mismatch the call throws.
     */
    method FillTextLines(text: string, pos: Point, options: TextOptions, style: Option<ComputedStyle>,
                         reported: string, lineHeight: real) returns (r: Outcome<DrawerError>)
      modifies this
      ensures size == old(size) && canvasWidth == old(canvasWidth) && canvasHeight == old(canvasHeight)
      ensures ResolveFont(options, style).Err? ==> r == Fail(ResolveFont(options, style).error) && log == old(log)
      ensures ResolveFont(options, style).Ok? && reported != ResolveFont(options, style).value ==>
        r == Fail(InvalidFont(ResolveFont(options, style).value, reported))
        && log == old(log) + [SetFont(ResolveFont(options, style).value)]
      ensures ResolveFont(options, style).Ok? && reported == ResolveFont(options, style).value ==>
        r == Pass
        && log == old(log)
          + [SetFont(reported),
             SetTextAlign(if options.align.Some? then options.align.value else "start"),
             SetTextBaseline(if options.baseline.Some? then options.baseline.value else "alphabetic")]
          + TextCommands(SplitLines(text), pos, lineHeight, options.outline)
    {
      var font := ResolveFont(options, style);
      if font.Err? {
        return Fail(font.error);
      }
      var fontStyle := font.value;
      log := log + [SetFont(fontStyle)];
      if reported != fontStyle {
        return Fail(InvalidFont(fontStyle, reported));
      }
      var align := if options.align.Some? then options.align.value else "start";
      var baseline := if options.baseline.Some? then options.baseline.value else "alphabetic";
      log := log + [SetTextAlign(align), SetTextBaseline(baseline)];
      DrawLines(SplitLines(text), pos, lineHeight, options.outline);
      return Pass;
    }

    /** The `forEach` over the lines of `fillText`: each line stroked (when outlined) and filled at its position. */
    method DrawLines(lines: seq<string>, pos: Point, lineHeight: real, outline: bool)
      modifies this
      ensures log == old(log) + TextCommands(lines, pos, lineHeight, outline)
      ensures size == old(size) && canvasWidth == old(canvasWidth) && canvasHeight == old(canvasHeight)
    {
      var i := 0;
      while i < |lines|
        invariant 0 <= i <= |lines|
        invariant log == old(log) + TextCommands(lines[..i], pos, lineHeight, outline)
        invariant size == old(size) && canvasWidth == old(canvasWidth) && canvasHeight == old(canvasHeight)
      {
        var linePos := AddXY(pos, 0.0, lineHeight * i as real);
        assert linePos == LinePos(pos, lineHeight, i);
        if outline {
          log := log + [StrokeText(lines[i], linePos)];
        }
        log := log + [FillText(lines[i], linePos)];
        TextCommandsStep(lines, i, pos, lineHeight, outline);
        i := i + 1;
      }
      assert lines[..i] == lines;
    }

    /** After a successful `setSize`, an integral size is exactly the canvas' pixel size. */
    lemma IntegralSizeMatchesCanvas()
      requires Valid() && IsIntegral(size.width) && IsIntegral(size.height)
      ensures canvasWidth as real == size.width && canvasHeight as real == size.height
    {
    }
  }
}
