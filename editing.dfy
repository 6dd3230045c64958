/** Edits of one line: dragging one of its handles, translating its body,
    and the keyboard edits of a selected end point (extension length with
    `+`/`-`, ortho-aware arrow keys). */
module Editing {
  import opened Options
  import opened Geometry
  import opened Scene

  /** The handles drawn on a selected line: `start`/`end` on measurements,
      annotations and simple lines; four corners and four side midpoints
      on boxes and circles. */
  datatype HandleKind =
    | StartHandle | EndHandle
    | TopLeft | TopRight | BottomLeft | BottomRight
    | EdgeY1 | EdgeY2 | EdgeX1 | EdgeX2

  /** The end point a `start`/`end` handle selects for the keyboard. */
  datatype Endpoint = StartPoint | EndPoint

  /** Where each handle is drawn on a line. */
  function HandlePosition(l: Line, h: HandleKind): Point {
    match h
    case StartHandle => Point(l.x1, l.y1)
    case EndHandle => Point(l.x2, l.y2)
    case TopLeft => Point(l.x1, l.y1)
    case TopRight => Point(l.x2, l.y1)
    case BottomLeft => Point(l.x1, l.y2)
    case BottomRight => Point(l.x2, l.y2)
    case EdgeY1 => Point((l.x1 + l.x2) / 2.0, l.y1)
    case EdgeY2 => Point((l.x1 + l.x2) / 2.0, l.y2)
    case EdgeX1 => Point(l.x1, (l.y1 + l.y2) / 2.0)
    case EdgeX2 => Point(l.x2, (l.y1 + l.y2) / 2.0)
  }

  /** The handle across the line or box from `h`. */
  function Opposite(h: HandleKind): (o: HandleKind)
    ensures o != h
  {
    match h
    case StartHandle => EndHandle
    case EndHandle => StartHandle
    case TopLeft => BottomRight
    case BottomRight => TopLeft
    case TopRight => BottomLeft
    case BottomLeft => TopRight
    case EdgeY1 => EdgeY2
    case EdgeY2 => EdgeY1
    case EdgeX1 => EdgeX2
    case EdgeX2 => EdgeX1
  }

  lemma OppositeInvolution(h: HandleKind)
    ensures Opposite(Opposite(h)) == h
  {
  }

  /** The snap anchor of a handle drag, taken from the line as it was when
      the drag began. */
  function HandleAnchor(h: HandleKind, init: Line): (p: Point)
    ensures p == HandlePosition(init, Opposite(h))
  {
    match h
    case StartHandle => Point(init.x2, init.y2)
    case EndHandle => Point(init.x1, init.y1)
    case TopLeft => Point(init.x2, init.y2)
    case BottomRight => Point(init.x1, init.y1)
    case TopRight => Point(init.x1, init.y2)
    case BottomLeft => Point(init.x2, init.y1)
    case EdgeY1 => Point((init.x1 + init.x2) / 2.0, init.y2)
    case EdgeY2 => Point((init.x1 + init.x2) / 2.0, init.y1)
    case EdgeX1 => Point(init.x2, (init.y1 + init.y2) / 2.0)
    case EdgeX2 => Point(init.x1, (init.y1 + init.y2) / 2.0)
  }

  /** Whether the handle moves both coordinates (end points and corners)
      rather than one (side midpoints). */
  predicate IsCorner(h: HandleKind) {
    !(h == EdgeY1 || h == EdgeY2 || h == EdgeX1 || h == EdgeX2)
  }

  /** A handle drag writes the snapped point into the handle's coordinates. */
  function DragHandle(l: Line, h: HandleKind, x: real, y: real): Line {
    match h
    case StartHandle => l.(x1 := x, y1 := y)
    case EndHandle => l.(x2 := x, y2 := y)
    case TopLeft => l.(x1 := x, y1 := y)
    case BottomRight => l.(x2 := x, y2 := y)
    case TopRight => l.(x2 := x, y1 := y)
    case BottomLeft => l.(x1 := x, y2 := y)
    case EdgeY1 => l.(y1 := y)
    case EdgeY2 => l.(y2 := y)
    case EdgeX1 => l.(x1 := x)
    case EdgeX2 => l.(x2 := x)
  }

  /** After a drag the handle sits at the pointer (on the axis it controls),
      the opposite handle has not moved, and nothing but the four
      coordinates changed. */
  lemma DragHandleEffect(l: Line, h: HandleKind, x: real, y: real)
    ensures var r := DragHandle(l, h, x, y);
      && (IsCorner(h) ==> HandlePosition(r, h) == Point(x, y))
      && (h == EdgeY1 || h == EdgeY2 ==> HandlePosition(r, h).y == y && r.x1 == l.x1 && r.x2 == l.x2)
      && (h == EdgeX1 || h == EdgeX2 ==> HandlePosition(r, h).x == x && r.y1 == l.y1 && r.y2 == l.y2)
      && HandlePosition(r, Opposite(h)) == HandlePosition(l, Opposite(h))
      && r.(x1 := l.x1, y1 := l.y1, x2 := l.x2, y2 := l.y2) == l
  {
  }

  /** Dragging a handle onto its own anchor makes it meet the opposite
      handle: a corner drag onto the anchor collapses the box. */
  lemma DragOntoAnchor(l: Line, h: HandleKind)
    requires IsCorner(h)
    ensures var a := HandleAnchor(h, l);
      HandlePosition(DragHandle(l, h, a.x, a.y), h) == HandlePosition(DragHandle(l, h, a.x, a.y), Opposite(h))
  {
  }

  /** A body move puts both ends at their gesture-start positions plus the
      pointer delta. */
  function MoveBody(l: Line, init: Line, dx: real, dy: real): (r: Line)
    ensures r.x2 - r.x1 == init.x2 - init.x1 && r.y2 - r.y1 == init.y2 - init.y1
    ensures r.(x1 := l.x1, y1 := l.y1, x2 := l.x2, y2 := l.y2) == l
  {
    l.(x1 := init.x1 + dx, y1 := init.y1 + dy, x2 := init.x2 + dx, y2 := init.y2 + dy)
  }

  /** Two pointer deltas of one gesture compose: the move depends only on
      the gesture-start line, never on earlier moves. */
  lemma MoveBodyForgetsEarlierMoves(l: Line, init: Line, dx: real, dy: real, ex: real, ey: real)
    ensures MoveBody(MoveBody(l, init, dx, dy), init, ex, ey) == MoveBody(l, init, ex, ey)
  {
  }

  // ---- keyboard edits of a selected end point -----------------------------

  /** `line[field]` for `extLenStart`/`extLenEnd`. */
  function ExtensionOf(l: Line, e: Endpoint): Option<real> {
    match e
    case StartPoint => l.extLenStart
    case EndPoint => l.extLenEnd
  }

  function WithExtension(l: Line, e: Endpoint, v: real): (r: Line)
    ensures ExtensionOf(r, e) == Some(v)
    ensures e == StartPoint ==> r.extLenEnd == l.extLenEnd
    ensures e == EndPoint ==> r.extLenStart == l.extLenStart
  {
    match e
    case StartPoint => l.(extLenStart := Some(v))
    case EndPoint => l.(extLenEnd := Some(v))
  }

  /** The line rewrite a key produces: set one extension length on every
      line with the selected id, or replace those lines by a moved copy. */
  datatype LineEdit = SetExtension(end: Endpoint, value: real) | Replace(line: Line)

  predicate IsArrow(key: string) {
    key == "ArrowUp" || key == "ArrowDown" || key == "ArrowLeft" || key == "ArrowRight"
  }

  /** What an arrow does: grow or shrink the extension, or slide the end point. */
  datatype ArrowEffect = Resize(change: real) | Slide(dx: real, dy: real)

  predicate IsVert(l: Line) {
    Abs(l.x1 - l.x2) < 0.1
  }

  predicate IsHorz(l: Line) {
    Abs(l.y1 - l.y2) < 0.1
  }

  /** Tank controls: on a horizontal line (checked first) Up/Down resize and
      Left/Right slide along x; on a vertical line Left/Right resize and
      Up/Down slide along y; on any other line every arrow slides. Shift
      makes the step 10 instead of 1. */
  function ArrowEffectFor(l: Line, key: string, shift: bool): ArrowEffect
    requires IsArrow(key)
  {
    var step := if shift then 10.0 else 1.0;
    if IsHorz(l) then
      if key == "ArrowUp" then Resize(step)
      else if key == "ArrowDown" then Resize(-step)
      else if key == "ArrowLeft" then Slide(-step, 0.0)
      else Slide(step, 0.0)
    else if IsVert(l) then
      if key == "ArrowLeft" then Resize(-step)
      else if key == "ArrowRight" then Resize(step)
      else if key == "ArrowUp" then Slide(0.0, -step)
      else Slide(0.0, step)
    else
      if key == "ArrowLeft" then Slide(-step, 0.0)
      else if key == "ArrowRight" then Slide(step, 0.0)
      else if key == "ArrowUp" then Slide(0.0, -step)
      else Slide(0.0, step)
  }

  /** Moving the selected end point by (dx, dy). */
  function SlideEnd(l: Line, e: Endpoint, dx: real, dy: real): Line {
    match e
    case StartPoint => l.(x1 := l.x1 + dx, y1 := l.y1 + dy)
    case EndPoint => l.(x2 := l.x2 + dx, y2 := l.y2 + dy)
  }

  /** The edit a key makes to the selected end point of `l`, or `None` for
      a key the handle branch ignores. The current extension falls back to
      `defaultExt` when unset; `+` has no upper bound, while `-` and a
      shrinking arrow stop at 0. */
  function KeyEdit(l: Line, e: Endpoint, key: string, shift: bool, defaultExt: real): (r: Option<LineEdit>)
    ensures r.Some? <==> key == "+" || key == "=" || key == "-" || key == "_" || IsArrow(key)
  {
    var cur := ExtensionOf(l, e).GetOr(defaultExt);
    if key == "+" || key == "=" then Some(SetExtension(e, cur + 1.0))
    else if key == "-" || key == "_" then Some(SetExtension(e, Max(0.0, cur - 1.0)))
    else if IsArrow(key) then
      match ArrowEffectFor(l, key, shift)
      case Resize(change) => Some(SetExtension(e, Max(0.0, cur + change)))
      case Slide(dx, dy) => Some(Replace(SlideEnd(l, e, dx, dy)))
    else None
  }

  /** `+` adds one to the current (or default) extension and `-` takes one
      off, stopping at 0. */
  lemma PlusMinus(l: Line, e: Endpoint, shift: bool, defaultExt: real)
    ensures var cur := ExtensionOf(l, e).GetOr(defaultExt);
      && KeyEdit(l, e, "+", shift, defaultExt) == Some(SetExtension(e, cur + 1.0))
      && KeyEdit(l, e, "=", shift, defaultExt) == Some(SetExtension(e, cur + 1.0))
      && KeyEdit(l, e, "-", shift, defaultExt) == Some(SetExtension(e, if cur >= 1.0 then cur - 1.0 else 0.0))
      && KeyEdit(l, e, "_", shift, defaultExt) == Some(SetExtension(e, if cur >= 1.0 then cur - 1.0 else 0.0))
  {
  }

  /** On a horizontal line Up/Down resize the extension by the step and
      Left/Right slide the end point along x, keeping its y. */
  lemma HorizontalArrows(l: Line, e: Endpoint, shift: bool, defaultExt: real)
    requires IsHorz(l)
    ensures var step := if shift then 10.0 else 1.0;
      var cur := ExtensionOf(l, e).GetOr(defaultExt);
      && KeyEdit(l, e, "ArrowUp", shift, defaultExt) == Some(SetExtension(e, Max(0.0, cur + step)))
      && KeyEdit(l, e, "ArrowDown", shift, defaultExt) == Some(SetExtension(e, Max(0.0, cur - step)))
      && KeyEdit(l, e, "ArrowLeft", shift, defaultExt) == Some(Replace(SlideEnd(l, e, -step, 0.0)))
      && KeyEdit(l, e, "ArrowRight", shift, defaultExt) == Some(Replace(SlideEnd(l, e, step, 0.0)))
  {
  }

  /** On a vertical line that is not also horizontal the roles swap:
      Left/Right resize, Up/Down slide along y. */
  lemma VerticalArrows(l: Line, e: Endpoint, shift: bool, defaultExt: real)
    requires IsVert(l) && !IsHorz(l)
    ensures var step := if shift then 10.0 else 1.0;
      var cur := ExtensionOf(l, e).GetOr(defaultExt);
      && KeyEdit(l, e, "ArrowLeft", shift, defaultExt) == Some(SetExtension(e, Max(0.0, cur - step)))
      && KeyEdit(l, e, "ArrowRight", shift, defaultExt) == Some(SetExtension(e, Max(0.0, cur + step)))
      && KeyEdit(l, e, "ArrowUp", shift, defaultExt) == Some(Replace(SlideEnd(l, e, 0.0, -step)))
      && KeyEdit(l, e, "ArrowDown", shift, defaultExt) == Some(Replace(SlideEnd(l, e, 0.0, step)))
  {
  }

  /** On a diagonal line every arrow slides the end point. */
  lemma DiagonalArrows(l: Line, e: Endpoint, key: string, shift: bool, defaultExt: real)
    requires !IsVert(l) && !IsHorz(l) && IsArrow(key)
    ensures KeyEdit(l, e, key, shift, defaultExt).value.Replace?
  {
  }

  /** A slide keeps the line's slope class: only the selected end point
      moves, along the axis the key names, so a horizontal line slid by
      Left/Right keeps its y values and a vertical one slid by Up/Down
      keeps its x values. */
  lemma SlidesStayOrtho(l: Line, e: Endpoint, key: string, shift: bool, defaultExt: real)
    requires IsArrow(key) && KeyEdit(l, e, key, shift, defaultExt).value.Replace?
    ensures var r := KeyEdit(l, e, key, shift, defaultExt).value.line;
      && (IsHorz(l) ==> r.y1 == l.y1 && r.y2 == l.y2)
      && (IsVert(l) && !IsHorz(l) ==> r.x1 == l.x1 && r.x2 == l.x2)
      && (e == StartPoint ==> r.x2 == l.x2 && r.y2 == l.y2)
      && (e == EndPoint ==> r.x1 == l.x1 && r.y1 == l.y1)
  {
  }

  /** A line short in both directions is treated as horizontal: Up resizes
      even though the line is just as vertical. */
  lemma ShortLineIsHorizontal()
    ensures var l := Line("a", Measurement, 0.0, 0.0, 0.05, 0.05, None, Some(5.0), Some(5.0), LINE_TEXT, NoFill);
      IsVert(l) && IsHorz(l)
      && KeyEdit(l, EndPoint, "ArrowUp", false, 5.0) == Some(SetExtension(EndPoint, 6.0))
      && KeyEdit(l, EndPoint, "ArrowLeft", false, 5.0) == Some(Replace(l.(x2 := -0.95)))
  {
  }

  /** The line as a key edit leaves it. */
  function ApplyEdit(l: Line, edit: LineEdit): Line {
    match edit
    case SetExtension(e, v) => WithExtension(l, e, v)
    case Replace(line) => line
  }

  /** Extension lengths never become negative through the keyboard, given
      a non-negative default. */
  lemma KeyEditKeepsLineOk(l: Line, e: Endpoint, key: string, shift: bool, defaultExt: real)
    requires LineOk(l) && defaultExt >= 0.0
    requires KeyEdit(l, e, key, shift, defaultExt).Some?
    ensures var edit := KeyEdit(l, e, key, shift, defaultExt).value;
      edit.SetExtension? ==> edit.value >= 0.0
    ensures LineOk(ApplyEdit(l, KeyEdit(l, e, key, shift, defaultExt).value))
  {
  }
}
