/**
 * `DrawerInput` of src/drawerInput/DrawerInput.ts: turns mouse, keyboard
 * and frame events into per-button and per-key state. Every event the
 * source emits is appended, in order, to the `events` log.
 */
module Input {
  import opened Wrappers
  import opened Points

  /** A mouse position; `Unknown` is the NaN point set when the mouse leaves. */
  datatype MousePos = Known(p: Point) | Unknown

  /** `pos.add(other.mul(-1))`; NaN in either operand gives NaN. */
  function Diff(pos: MousePos, other: MousePos): (d: MousePos)
    ensures d.Known? <==> pos.Known? && other.Known?
    ensures d.Known? ==> Add(other.p, d.p) == pos.p
  {
    if pos.Known? && other.Known? then Known(Add(pos.p, Points.Mul(other.p, -1.0))) else Unknown
  }

  /** The state of one `MouseButton`; its `buttonIndex` is its position in `buttons`. */
  datatype ButtonState = ButtonState(down: bool, lastDown: bool, downPos: Point, dragging: bool, lastDragging: bool)

  const InitialButton := ButtonState(false, false, Zero, false, false)

  /** The state of one `Key`. */
  datatype KeyState = KeyState(down: bool, lastDown: bool)

  const InitialKey := KeyState(false, false)

  datatype MouseEventKind = Up | Down | Move | Leave

  datatype KeyEventKind = KeyUp | KeyDown

  /** The events emitted, by emitter; `button` is the button's index (0 left, 1 middle, 2 right). */
  datatype InputEvent =
    | MouseMove(pos: MousePos, lastPos: MousePos, delta: MousePos)
    | ButtonMove(button: nat, pos: MousePos, delta: MousePos, lastPos: MousePos)
    | DragStart(button: nat, pos: MousePos)
    | Drag(button: nat, pos: MousePos, delta: MousePos, lastPos: MousePos)
    | ButtonDown(button: nat, pos: MousePos)
    | ButtonUp(button: nat, pos: MousePos)
    | DragEnd(button: nat, pos: MousePos)
    | Draw(deltaTime: real)
    | KeyPressed(code: string)
    | KeyReleased(code: string)
    | KeyboardDown(code: string)
    | KeyboardUp(code: string)

  /** `pressed()`: down now, not down at the last frame. */
  function Pressed(b: ButtonState): (r: bool)
    ensures r <==> b.down && !b.lastDown
  {
    b.down && !b.lastDown
  }

  /** `released()` */
  function Released(b: ButtonState): (r: bool)
    ensures r <==> !b.down && b.lastDown
  {
    !b.down && b.lastDown
  }

  /** `dragStart()` */
  function DragStarted(b: ButtonState): (r: bool)
    ensures r <==> b.dragging && !b.lastDragging
  {
    b.dragging && !b.lastDragging
  }

  /** `dragEnd()` */
  function DragEnded(b: ButtonState): (r: bool)
    ensures r <==> !b.dragging && b.lastDragging
  {
    !b.dragging && b.lastDragging
  }

  /** A button is never reported pressed and released, or drag-started and drag-ended, at once. */
  lemma EdgeQueriesExclusive(b: ButtonState)
    ensures !(Pressed(b) && Released(b))
    ensures !(DragStarted(b) && DragEnded(b))
  {
  }

  /** A button with its snapshot taken reports no edge. */
  lemma SnapshotClearsEdges(b: ButtonState)
    requires b.lastDown == b.down && b.lastDragging == b.dragging
    ensures !Pressed(b) && !Released(b) && !DragStarted(b) && !DragEnded(b)
  {
  }

  /** Dragging only while held, in the current state and in the snapshot. */
  predicate ButtonValid(b: ButtonState) {
    (b.dragging ==> b.down) && (b.lastDragging ==> b.lastDown)
  }

  /**
   * `downPos.dist(pos) > threshold`, without the square root: false for the
   * NaN position, true for any position when the threshold is negative.
   */
  function BeyondThreshold(downPos: Point, pos: MousePos, threshold: real): (r: bool)
    ensures pos.Unknown? ==> !r
    ensures pos.Known? && threshold >= 0.0 ==> (r <==> DistSqr(downPos, pos.p) > threshold * threshold)
  {
    pos.Known? && (threshold < 0.0 || DistSqr(downPos, pos.p) > threshold * threshold)
  }

  /** What one `processMouseInput` call knows while it visits the buttons. */
  datatype MouseContext = MouseContext(kind: MouseEventKind, eventButton: int, point: Point,
                                       lastPos: MousePos, threshold: real)

  /** The position of the call: the event's offset, or NaN on "leave". */
  function EventPos(ctx: MouseContext): (pos: MousePos)
    ensures pos.Unknown? <==> ctx.kind == Leave
    ensures pos.Known? ==> pos.p == ctx.point
  {
    if ctx.kind == Leave then Unknown else Known(ctx.point)
  }

  function EventDelta(ctx: MouseContext): MousePos {
    Diff(EventPos(ctx), ctx.lastPos)
  }

  datatype ButtonStep = ButtonStep(button: ButtonState, emitted: seq<InputEvent>)

  /** The drag phase: a held button reports the move, and may start dragging. */
  function DragPhase(b: ButtonState, index: nat, ctx: MouseContext): ButtonStep {
    var pos, delta := EventPos(ctx), EventDelta(ctx);
    if b.down then
      var starts := !b.dragging && BeyondThreshold(b.downPos, pos, ctx.threshold);
      var b1 := if starts then b.(dragging := true) else b;
      ButtonStep(b1,
        [ButtonMove(index, pos, delta, ctx.lastPos)]
        + (if starts then [DragStart(index, pos)] else [])
        + (if b1.dragging then [Drag(index, pos, delta, ctx.lastPos)] else []))
    else ButtonStep(b, [])
  }

  /** Releasing a button: `onUp`, then `onDragEnd` if it was dragging. */
  function Release(b: ButtonState, index: nat, pos: MousePos): ButtonStep {
    ButtonStep(b.(down := false, dragging := false),
      [ButtonUp(index, pos)] + (if b.dragging then [DragEnd(index, pos)] else []))
  }

  /** The press/release phase for the button the event names. */
  function PressPhase(b: ButtonState, index: nat, ctx: MouseContext): ButtonStep {
    if ctx.kind != Move && index == ctx.eventButton then
      if ctx.kind == Down then ButtonStep(b.(down := true, downPos := ctx.point), [ButtonDown(index, EventPos(ctx))])
      else if ctx.kind == Up then Release(b, index, EventPos(ctx))
      else ButtonStep(b, [])
    else ButtonStep(b, [])
  }

  /** The leave phase: every button is released. */
  function LeavePhase(b: ButtonState, index: nat, ctx: MouseContext): ButtonStep {
    if ctx.kind == Leave then Release(b, index, EventPos(ctx)) else ButtonStep(b, [])
  }

  /**
   * The drag phase leaves an idle button alone; a held button reports the
   * move first, keeps its press, and is dragging afterwards exactly when it
   * was already or the pointer is now beyond the threshold.
   */
  lemma DragPhaseEffect(b: ButtonState, index: nat, ctx: MouseContext)
    ensures !b.down ==> DragPhase(b, index, ctx) == ButtonStep(b, [])
    ensures var r := DragPhase(b, index, ctx);
      && (b.down ==> |r.emitted| >= 1 && r.emitted[0] == ButtonMove(index, EventPos(ctx), EventDelta(ctx), ctx.lastPos))
      && r.button.down == b.down && r.button.downPos == b.downPos
      && (r.button.dragging <==> b.dragging || (b.down && BeyondThreshold(b.downPos, EventPos(ctx), ctx.threshold)))
  {
  }

  /** A release leaves the button up and not dragging, emits `onUp` first, and `onDragEnd` exactly when it was dragging. */
  lemma ReleaseEffect(b: ButtonState, index: nat, pos: MousePos)
    ensures var r := Release(b, index, pos);
      && !r.button.down && !r.button.dragging && r.button.downPos == b.downPos
      && |r.emitted| >= 1 && r.emitted[0] == ButtonUp(index, pos)
      && (DragEnd(index, pos) in r.emitted <==> b.dragging)
  {
  }

  /**
   * Only "down" and "up" on the named button act: "down" holds it at the
   * event point and emits `onDown` there; "up" is a release at that point.
   */
  lemma PressPhaseEffect(b: ButtonState, index: nat, ctx: MouseContext)
    ensures ctx.kind == Move || ctx.kind == Leave || index != ctx.eventButton ==> PressPhase(b, index, ctx) == ButtonStep(b, [])
    ensures ctx.kind == Down && index == ctx.eventButton ==>
      PressPhase(b, index, ctx) == ButtonStep(b.(down := true, downPos := ctx.point), [ButtonDown(index, Known(ctx.point))])
    ensures ctx.kind == Up && index == ctx.eventButton ==> PressPhase(b, index, ctx) == Release(b, index, Known(ctx.point))
  {
  }

  /** Only "leave" acts, releasing the button at the unknown position. */
  lemma LeavePhaseEffect(b: ButtonState, index: nat, ctx: MouseContext)
    ensures ctx.kind != Leave ==> LeavePhase(b, index, ctx) == ButtonStep(b, [])
    ensures ctx.kind == Leave ==> LeavePhase(b, index, ctx) == Release(b, index, Unknown)
  {
  }

  /** One iteration of the button loop of `processMouseInput`: the three phases in order. */
  function StepButton(b: ButtonState, index: nat, ctx: MouseContext): (r: ButtonStep)
    ensures r.button.lastDown == b.lastDown && r.button.lastDragging == b.lastDragging
  {
    var s1 := DragPhase(b, index, ctx);
    var s2 := PressPhase(s1.button, index, ctx);
    var s3 := LeavePhase(s2.button, index, ctx);
    ButtonStep(s3.button, s1.emitted + s2.emitted + s3.emitted)
  }

  /** The events the first `n` buttons emit, in loop order. */
  function ButtonEvents(bs: seq<ButtonState>, n: nat, ctx: MouseContext): seq<InputEvent>
    requires n <= |bs|
  {
    if n == 0 then [] else ButtonEvents(bs, n - 1, ctx) + StepButton(bs[n - 1], n - 1, ctx).emitted
  }

  /** A button loop step keeps `dragging ==> down`. */
  lemma StepButtonValid(b: ButtonState, index: nat, ctx: MouseContext)
    requires ButtonValid(b)
    ensures ButtonValid(StepButton(b, index, ctx).button)
  {
  }

  /**
   * The named button goes down at the event position on "down"; on "up" it
   * is released and stops dragging, and `onDragEnd` is emitted exactly when
   * it was dragging after the drag phase.
   */
  lemma StepButtonPress(b: ButtonState, index: nat, ctx: MouseContext)
    requires ctx.kind != Move && ctx.kind != Leave && index == ctx.eventButton
    ensures ctx.kind == Down ==> StepButton(b, index, ctx).button.down
    ensures ctx.kind == Down ==> StepButton(b, index, ctx).button.downPos == ctx.point
    ensures ctx.kind == Down ==> ButtonDown(index, Known(ctx.point)) in StepButton(b, index, ctx).emitted
    ensures ctx.kind == Up ==> !StepButton(b, index, ctx).button.down && !StepButton(b, index, ctx).button.dragging
    ensures ctx.kind == Up ==> ButtonUp(index, Known(ctx.point)) in StepButton(b, index, ctx).emitted
    ensures ctx.kind == Up ==>
      (DragEnd(index, Known(ctx.point)) in StepButton(b, index, ctx).emitted <==> DragPhase(b, index, ctx).button.dragging)
  {
    var s1 := DragPhase(b, index, ctx);
    var r := StepButton(b, index, ctx);
    if ctx.kind == Down {
      assert r.emitted == s1.emitted + [ButtonDown(index, Known(ctx.point))];
    } else {
      var tail := [ButtonUp(index, Known(ctx.point))] + (if s1.button.dragging then [DragEnd(index, Known(ctx.point))] else []);
      assert r.emitted == s1.emitted + tail;
      assert tail[0] in r.emitted;
      if s1.button.dragging {
        assert tail[1] in r.emitted;
      } else {
        DragPhaseNoDragEnd(b, index, ctx);
      }
    }
  }

  lemma DragPhaseNoDragEnd(b: ButtonState, index: nat, ctx: MouseContext)
    ensures forall e :: e in DragPhase(b, index, ctx).emitted ==> !e.DragEnd?
  {
  }

  /** A button the event does not name, on "down", "up" or "move", changes only by the drag phase. */
  lemma StepButtonOther(b: ButtonState, index: nat, ctx: MouseContext)
    requires ctx.kind != Leave && (ctx.kind == Move || index != ctx.eventButton)
    ensures StepButton(b, index, ctx) == DragPhase(b, index, ctx)
  {
    assert StepButton(b, index, ctx).emitted == DragPhase(b, index, ctx).emitted + [] + [];
  }

  /**
   * A button starts dragging only while held and beyond the threshold from
   * where it went down; then `onDragStart` carries the current position and
   * is followed by `onDrag`.
   */
  lemma DragStartCondition(b: ButtonState, index: nat, ctx: MouseContext)
    ensures DragPhase(b, index, ctx).button.dragging && !b.dragging
      <==> b.down && !b.dragging && BeyondThreshold(b.downPos, EventPos(ctx), ctx.threshold)
    ensures DragPhase(b, index, ctx).button.dragging && !b.dragging ==>
      DragPhase(b, index, ctx).emitted
        == [ButtonMove(index, EventPos(ctx), EventDelta(ctx), ctx.lastPos),
            DragStart(index, EventPos(ctx)),
            Drag(index, EventPos(ctx), EventDelta(ctx), ctx.lastPos)]
  {
  }

  /** "leave" releases every button, emitting `onUp` even for a button that was not down. */
  lemma StepButtonLeave(b: ButtonState, index: nat, ctx: MouseContext)
    requires ctx.kind == Leave
    ensures !StepButton(b, index, ctx).button.down && !StepButton(b, index, ctx).button.dragging
    ensures ButtonUp(index, Unknown) in StepButton(b, index, ctx).emitted
  {
    var s1 := DragPhase(b, index, ctx);
    var s3 := Release(s1.button, index, Unknown);
    assert StepButton(b, index, ctx).emitted == s1.emitted + [] + s3.emitted;
    assert s3.emitted[0] == ButtonUp(index, Unknown);
  }

  /** The drag part of one iteration of the button loop, statement by statement. */
  method VisitDrag(b: ButtonState, index: nat, ctx: MouseContext) returns (b1: ButtonState, out: seq<InputEvent>)
    ensures ButtonStep(b1, out) == DragPhase(b, index, ctx)
  {
    var pos, delta := EventPos(ctx), EventDelta(ctx);
    b1, out := b, [];
    if b1.down {
      out := out + [ButtonMove(index, pos, delta, ctx.lastPos)];
      if !b1.dragging && BeyondThreshold(b1.downPos, pos, ctx.threshold) {
        b1 := b1.(dragging := true);
        out := out + [DragStart(index, pos)];
      }
      if b1.dragging {
        out := out + [Drag(index, pos, delta, ctx.lastPos)];
      }
    }
  }

  /** Releasing a button statement by statement: `down` is cleared before the events, `dragging` after. */
  method VisitRelease(b: ButtonState, index: nat, pos: MousePos) returns (b1: ButtonState, out: seq<InputEvent>)
    ensures ButtonStep(b1, out) == Release(b, index, pos)
  {
    var wasDragging := b.dragging;
    b1 := b.(down := false);
    out := [ButtonUp(index, pos)];
    if wasDragging {
      out := out + [DragEnd(index, pos)];
    }
    b1 := b1.(dragging := false);
  }

  /** One iteration of the button loop of `processMouseInput`. */
  method VisitButton(b: ButtonState, index: nat, ctx: MouseContext) returns (r: ButtonStep)
    ensures r == StepButton(b, index, ctx)
  {
    var pos := EventPos(ctx);
    var b1, out := VisitDrag(b, index, ctx);
    var more: seq<InputEvent> := [];
    if ctx.kind != Move && index == ctx.eventButton {
      if ctx.kind == Down {
        b1 := b1.(down := true, downPos := ctx.point);
        more := [ButtonDown(index, pos)];
      }
      if ctx.kind == Up {
        b1, more := VisitRelease(b1, index, pos);
      }
    }
    out := out + more;
    more := [];
    if ctx.kind == Leave {
      b1, more := VisitRelease(b1, index, pos);
    }
    r := ButtonStep(b1, out + more);
  }

  /** The button loop of `processMouseInput`, over `mouse.left`, `mouse.middle` and `mouse.right`. */
  method VisitButtons(bs: seq<ButtonState>, ctx: MouseContext) returns (r: seq<ButtonState>, emitted: seq<InputEvent>)
    requires |bs| == 3
    ensures |r| == 3
    ensures forall i :: 0 <= i < 3 ==> r[i] == StepButton(bs[i], i, ctx).button
    ensures emitted == ButtonEvents(bs, 3, ctx)
    ensures (forall i :: 0 <= i < 3 ==> ButtonValid(bs[i])) ==> forall i :: 0 <= i < 3 ==> ButtonValid(r[i])
  {
    r, emitted := bs, [];
    var i := 0;
    while i < 3
      invariant 0 <= i <= 3 && |r| == 3
      invariant forall j :: 0 <= j < i ==> r[j] == StepButton(bs[j], j, ctx).button
      invariant forall j :: i <= j < 3 ==> r[j] == bs[j]
      invariant emitted == ButtonEvents(bs, i, ctx)
    {
      var step := VisitButton(r[i], i, ctx);
      r := r[i := step.button];
      emitted := emitted + step.emitted;
      i := i + 1;
    }
    forall j | 0 <= j < 3 && ButtonValid(bs[j])
      ensures ButtonValid(r[j])
    {
      StepButtonValid(bs[j], j, ctx);
    }
  }

  /** The new clock and the `deltaTime` reported to `onDraw`. */
  datatype Tick = Tick(time: real, elapsed: real)

  /**
   * The clock of `processDrawEvent`: an explicit delta advances the time by
   * that delta; otherwise the clock reading `now` is taken, and the first
   * reading (time still -1) reports 0.
   */
  function AdvanceClock(time: real, deltaTime: Option<real>, now: real): (r: Tick)
    ensures deltaTime.Some? ==> r == Tick(time + deltaTime.value, deltaTime.value)
    ensures deltaTime.None? ==> r.time == now
    ensures deltaTime.None? && time != -1.0 ==> r.elapsed == now - time
    ensures deltaTime.None? && time == -1.0 ==> r.elapsed == 0.0
  {
    var start := if time == -1.0 && deltaTime.None? then now else time;
    match deltaTime
    case Some(d) => Tick(start + d, d)
    case None => Tick(now, now - start)
  }

  /** The button loop of `processDrawEvent`: each button's snapshot is taken. */
  method SnapshotButtons(bs: seq<ButtonState>) returns (r: seq<ButtonState>)
    ensures |r| == |bs|
    ensures forall i :: 0 <= i < |bs| ==> r[i] == bs[i].(lastDown := bs[i].down, lastDragging := bs[i].dragging)
    ensures forall i :: 0 <= i < |bs| ==> ButtonValid(bs[i]) ==> ButtonValid(r[i])
  {
    r := bs;
    var i := 0;
    while i < |bs|
      invariant 0 <= i <= |bs| && |r| == |bs|
      invariant forall j :: 0 <= j < i ==> r[j] == bs[j].(lastDown := bs[j].down, lastDragging := bs[j].dragging)
      invariant forall j :: i <= j < |bs| ==> r[j] == bs[j]
    {
      r := r[i := r[i].(lastDown := r[i].down, lastDragging := r[i].dragging)];
      i := i + 1;
    }
  }

  /** The key loop of `processDrawEvent`: each key's snapshot is taken. */
  method SnapshotKeyMap(keys: map<string, KeyState>) returns (r: map<string, KeyState>)
    ensures r == SnapshotKeys(keys)
  {
    r := keys;
    var pending := keys.Keys;
    while pending != {}
      invariant r.Keys == keys.Keys && pending <= r.Keys
      invariant forall c :: c in r && c in pending ==> r[c] == keys[c]
      invariant forall c :: c in r && c !in pending ==> r[c] == keys[c].(lastDown := keys[c].down)
      decreases pending
    {
      var code :| code in pending;
      r := r[code := r[code].(lastDown := r[code].down)];
      pending := pending - {code};
    }
  }

  /** `keyboard.key(code)`: the key map with an entry for `code`, created only if missing. */
  function WithKey(keys: map<string, KeyState>, code: string): (r: map<string, KeyState>)
    ensures code in r && r.Keys == keys.Keys + {code}
    ensures forall c :: c in keys ==> r[c] == keys[c]
    ensures code !in keys ==> r[code] == InitialKey
  {
    if code in keys then keys else keys[code := InitialKey]
  }

  /** `key(code)` is idempotent: a second call finds the entry and adds nothing. */
  lemma WithKeyIdempotent(keys: map<string, KeyState>, code: string)
    ensures WithKey(WithKey(keys, code), code) == WithKey(keys, code)
  {
  }

  /** ASCII lower case, as `toLowerCase` acts on tag names. */
  function ToLower(s: string): (r: string)
    ensures |r| == |s|
    ensures forall i :: 0 <= i < |s| ==> r[i] == (if 'A' <= s[i] <= 'Z' then s[i] - 'A' + 'a' else s[i])
  {
    seq(|s|, i requires 0 <= i < |s| => if 'A' <= s[i] <= 'Z' then s[i] - 'A' + 'a' else s[i])
  }

  /** Keyboard events aimed at an `input` or `textarea` element are ignored. */
  function IsTextField(tagName: Option<string>): (r: bool)
    ensures tagName.None? ==> !r
    ensures tagName == Some("INPUT") || tagName == Some("TEXTAREA") || tagName == Some("input") || tagName == Some("textarea") ==> r
    ensures r ==> tagName.Some? && |tagName.value| in {5, 8}
  {
    tagName.Some? && (ToLower(tagName.value) == "input" || ToLower(tagName.value) == "textarea")
  }

  /** The key-state snapshot `processDrawEvent` takes. */
  function SnapshotKeys(keys: map<string, KeyState>): (r: map<string, KeyState>)
    ensures r.Keys == keys.Keys
    ensures forall c :: c in r ==> r[c] == keys[c].(lastDown := keys[c].down)
  {
    map c | c in keys :: keys[c].(lastDown := keys[c].down)
  }

  class DrawerInput {
    /** `mouse.left`, `mouse.middle`, `mouse.right`, by `buttonIndex`. */
    var buttons: seq<ButtonState>
    var over: bool
    var pos: MousePos
    var delta: MousePos
    var lastPos: MousePos
    /** The clock of the last frame, -1 before the first. */
    var time: real
    var dragThreshold: real
    var keys: map<string, KeyState>
    var events: seq<InputEvent>

    predicate Valid()
      reads this
    {
      |buttons| == 3 && forall i :: 0 <= i < 3 ==> ButtonValid(buttons[i])
    }

    /** `new DrawerInput(dragThreshold)` */
    constructor(dragThreshold: real := 10.0)
      ensures buttons == [InitialButton, InitialButton, InitialButton]
      ensures !over && pos == Known(Zero) && delta == Known(Zero) && lastPos == Known(Zero)
      ensures time == -1.0 && this.dragThreshold == dragThreshold
      ensures keys == map[] && events == []
      ensures Valid()
    {
      buttons := [InitialButton, InitialButton, InitialButton];
      over := false;
      pos := Known(Zero);
      delta := Known(Zero);
      lastPos := Known(Zero);
      time := -1.0;
      this.dragThreshold := dragThreshold;
      keys := map[];
      events := [];
    }

    /**
     * `processMouseInput(drawer, kind, event)` for an event at `point` (the
     * event's offset) naming button `eventButton`.
     */
    method ProcessMouseInput(kind: MouseEventKind, point: Point, eventButton: int)
      requires |buttons| == 3
      modifies this
      ensures over <==> kind != Leave
      ensures pos == EventPos(MouseContext(kind, eventButton, point, old(pos), dragThreshold))
      ensures |buttons| == 3
      ensures forall i :: 0 <= i < 3 ==>
        buttons[i] == StepButton(old(buttons)[i], i, MouseContext(kind, eventButton, point, old(pos), dragThreshold)).button
      ensures var ctx := MouseContext(kind, eventButton, point, old(pos), dragThreshold);
        events == old(events) + [MouseMove(EventPos(ctx), old(pos), EventDelta(ctx))] + ButtonEvents(old(buttons), 3, ctx)
      ensures lastPos == old(lastPos) && delta == old(delta) && time == old(time)
      ensures keys == old(keys) && dragThreshold == old(dragThreshold)
      ensures old(Valid()) ==> Valid()
    {
      var ctx := MouseContext(kind, eventButton, point, pos, dragThreshold);
      var newPos := if kind == Leave then Unknown else Known(point);
      assert newPos == EventPos(ctx) && Diff(newPos, pos) == EventDelta(ctx);
      over := kind != Leave;
      var previous := pos;
      pos := newPos;
      events := events + [MouseMove(newPos, previous, Diff(newPos, previous))];
      var visited, emitted := VisitButtons(buttons, ctx);
      buttons := visited;
      events := events + emitted;
    }

    /**
     * `processDrawEvent(drawer, deltaTime)` with the clock reading `now`:
     * advance the time, emit `onDraw`, and take the snapshot of the mouse,
     * the buttons and the keys.
     */
    method ProcessDrawEvent(deltaTime: Option<real>, now: real)
      requires |buttons| == 3
      modifies this
      ensures time == AdvanceClock(old(time), deltaTime, now).time
      ensures events == old(events) + [Draw(AdvanceClock(old(time), deltaTime, now).elapsed)]
      ensures delta == Diff(old(pos), old(lastPos)) && lastPos == old(pos)
      ensures pos == old(pos) && over == old(over) && dragThreshold == old(dragThreshold)
      ensures |buttons| == 3
      ensures forall i :: 0 <= i < 3 ==>
        buttons[i] == old(buttons)[i].(lastDown := old(buttons)[i].down, lastDragging := old(buttons)[i].dragging)
      ensures keys == SnapshotKeys(old(keys))
      ensures old(Valid()) ==> Valid()
    {
      var tick := AdvanceClock(time, deltaTime, now);
      time := tick.time;
      delta := Diff(pos, lastPos);
      events := events + [Draw(tick.elapsed)];
      lastPos := pos;
      var snapshot := SnapshotButtons(buttons);
      buttons := snapshot;
      var keySnapshot := SnapshotKeyMap(keys);
      keys := keySnapshot;
    }

    /** `keyboard.key(code)`: the key's state, its entry created on first use. */
    method Key(code: string) returns (k: KeyState)
      modifies this
      ensures keys == WithKey(old(keys), code) && k == keys[code]
      ensures buttons == old(buttons) && events == old(events) && pos == old(pos) && lastPos == old(lastPos)
      ensures delta == old(delta) && time == old(time) && over == old(over) && dragThreshold == old(dragThreshold)
    {
      if code !in keys {
        keys := keys[code := InitialKey];
      }
      k := keys[code];
    }

    /**
     * `processKeyboardEvent(drawer, kind, event)` for key `code`, aimed at an
     * element with tag `targetTag` (if any).
     */
    method ProcessKeyboardEvent(kind: KeyEventKind, code: string, targetTag: Option<string>)
      modifies this
      ensures IsTextField(targetTag) ==> unchanged(this)
      ensures !IsTextField(targetTag) ==> keys == WithKey(old(keys), code)[code := KeyState(kind == KeyDown, WithKey(old(keys), code)[code].lastDown)]
      ensures !IsTextField(targetTag) && kind == KeyDown ==> events == old(events) + [KeyPressed(code), KeyboardDown(code)]
      ensures !IsTextField(targetTag) && kind == KeyUp ==> events == old(events) + [KeyReleased(code), KeyboardUp(code)]
      ensures buttons == old(buttons) && pos == old(pos) && lastPos == old(lastPos) && delta == old(delta)
      ensures time == old(time) && over == old(over) && dragThreshold == old(dragThreshold)
    {
      if IsTextField(targetTag) {
        return;
      }
      var key := Key(code);
      if kind == KeyDown {
        key := key.(down := true);
        keys := keys[code := key];
        events := events + [KeyPressed(code), KeyboardDown(code)];
      }
      if kind == KeyUp {
        key := key.(down := false);
        keys := keys[code := key];
        events := events + [KeyReleased(code), KeyboardUp(code)];
      }
    }
  }

  /** After a draw tick every button reports no edge. */
  lemma DrawTickClearsEdges(b: ButtonState)
    ensures var s := b.(lastDown := b.down, lastDragging := b.dragging);
      !Pressed(s) && !Released(s) && !DragStarted(s) && !DragEnded(s)
  {
  }

  /**
   * Between two draw ticks, a "down" event on a button that was up makes
   * `pressed()` true, and an "up" event on a button that was down makes
   * `released()` true.
   */
  lemma PressReleaseEdges(b: ButtonState, index: nat, ctx: MouseContext)
    requires b.lastDown == b.down && index == ctx.eventButton
    ensures ctx.kind == Down && !b.down ==> Pressed(StepButton(b, index, ctx).button)
    ensures ctx.kind == Up && b.down ==> Released(StepButton(b, index, ctx).button)
  {
  }
}
