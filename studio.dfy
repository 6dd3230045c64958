/** The editor component: its state variables as fields, each event handler
    as a method that updates them in place, and `getSnapPosition` as the
    loop it is. Each handler is proved to perform the transition of the same
    name in `Editor` and to keep the editor's invariant. */
module StudioApp {
  import opened Options
  import opened Geometry
  import opened Scene
  import History
  import opened Snap
  import opened Editing
  import opened Input
  import opened Editor

  class Studio {
    var elements: seq<Symbol>
    var lines: seq<Line>
    var history: seq<Snapshot>
    var historyStep: int
    var selectedId: Option<Id>
    var selectedHandle: Option<SelectedHandle>
    var drawingTool: Option<LineKind>
    var unit: Unit
    var showBackground: bool
    var stickyTools: bool
    var interaction: Interaction

    /** `config.global.snapThreshold`, `config.symbols.snapOffsetFactor`,
        `config.measurements.extensionLength`. */
    const snapThreshold: real
    const snapOffsetFactor: real
    const extensionLength: real

    function Cfg(): Config {
      Config(snapThreshold, snapOffsetFactor, extensionLength)
    }

    function Timeline(): History.Timeline
      reads this
    {
      History.Timeline(history, historyStep)
    }

    /** All state variables as one value. */
    function State(): EditorState
      reads this
    {
      EditorState(elements, lines, Timeline(), selectedId, selectedHandle, drawingTool, unit,
                  showBackground, stickyTools, interaction)
    }

    predicate Valid()
      reads this
    {
      Editor.Valid(State(), Cfg())
    }

    constructor()
      ensures State() == InitialState && Cfg() == DefaultConfig
      ensures Valid()
    {
      snapThreshold, snapOffsetFactor, extensionLength := 20.0, 0.25, 5.0;
      elements, lines := [], [];
      history, historyStep := [Snapshot([], [])], 0;
      selectedId, selectedHandle, drawingTool := None, None, None;
      unit, showBackground, stickyTools := Inch, true, true;
      interaction := Idle;
      InitialValid();
    }

    // ---- snapping --------------------------------------------------------------

    /** `getSnapPosition`: point snaps around every symbol, then every line's
        points and segments (skipping `exclude`), then the anchor, then the
        background segments; the first point within reach is returned at
        once. */
    method GetSnapPosition(rawX: real, rawY: real, anchor: Option<Point>, exclude: Option<Id>,
                           activeType: Option<LineKind>) returns (r: SnapResult)
      ensures r == SnapPosition(elements, lines, showBackground, snapThreshold, snapOffsetFactor,
                                rawX, rawY, anchor, exclude, activeType)
    {
      var p := Probe(rawX, rawY, snapThreshold);
      var isMeasurement := activeType == Some(Measurement);
      var syms := SymbolTargets(elements, isMeasurement, snapOffsetFactor);
      var segs := BackgroundSegments(showBackground);
      ghost var backdrop := BackdropTargets(segs);
      ghost var afterLines := AnchorTargets(anchor) + backdrop;
      ghost var afterSymbols := LinesTargets(lines, exclude) + afterLines;
      RunAppend(p, syms, afterSymbols, Start(p));
      var o := ScanSymbols(p, elements, isMeasurement, snapOffsetFactor, Start(p));
      if o.Hit? {
        return SnapResult(o.x, o.y, true);
      }
      RunAppend(p, LinesTargets(lines, exclude), afterLines, o.axes);
      o := ScanLines(p, lines, exclude, o.axes);
      if o.Hit? {
        return SnapResult(o.x, o.y, true);
      }
      var axes := o.axes;
      if anchor.Some? {
        RunAppend(p, [Anchor(anchor.value.x, anchor.value.y)], backdrop, axes);
        axes := TrySnapX(p, axes, anchor.value.x);
        axes := TrySnapY(p, axes, anchor.value.y);
      } else {
        assert afterLines == backdrop;
      }
      o := ScanBackdrop(p, segs, axes);
      return Result(o);
    }

    // ---- history ----------------------------------------------------------------

    /** `addToHistory`. */
    method AddToHistory(els: seq<Symbol>, ls: seq<Line>)
      requires 0 <= historyStep < |history|
      modifies this`history, this`historyStep
      ensures Timeline() == History.Push(old(Timeline()), Snapshot(els, ls))
    {
      history := history[..historyStep + 1] + [Snapshot(els, ls)];
      historyStep := |history| - 1;
    }

    /** Replace both lists and record them as one history entry. */
    method CommitScene(els: seq<Symbol>, ls: seq<Line>)
      requires History.Valid(Timeline())
      modifies this`elements, this`lines, this`history, this`historyStep
      ensures State() == Commit(old(State()), els, ls)
    {
      elements, lines := els, ls;
      AddToHistory(els, ls);
    }

    /** Replace the lines and record the scene as one history entry. */
    method CommitLines(ls: seq<Line>)
      requires History.Valid(Timeline())
      modifies this`lines, this`history, this`historyStep
      ensures State() == Commit(old(State()), old(elements), ls)
    {
      lines := ls;
      AddToHistory(elements, ls);
    }

    method Undo()
      requires Valid()
      modifies this`historyStep, this`elements, this`lines, this`selectedId, this`selectedHandle
      ensures Valid()
      ensures State() == Editor.Undo(old(State()))
    {
      ghost var s0 := State();
      if historyStep > 0 {
        var prevStep := historyStep - 1;
        historyStep := prevStep;
        elements := history[prevStep].elements;
        lines := history[prevStep].lines;
        selectedId := None;
        selectedHandle := None;
      }
      UndoValid(s0, Cfg());
    }

    method Redo()
      requires Valid()
      modifies this`historyStep, this`elements, this`lines, this`selectedId, this`selectedHandle
      ensures Valid()
      ensures State() == Editor.Redo(old(State()))
    {
      ghost var s0 := State();
      if historyStep < |history| - 1 {
        var nextStep := historyStep + 1;
        historyStep := nextStep;
        elements := history[nextStep].elements;
        lines := history[nextStep].lines;
        selectedId := None;
        selectedHandle := None;
      }
      RedoValid(s0, Cfg());
    }

    // ---- pointer ----------------------------------------------------------------

    method Drop(typeId: string, clientX: real, clientY: real, left: real, top: real, freshId: Id)
      requires Valid()
      modifies this`elements, this`lines, this`selectedId, this`history, this`historyStep
      ensures Valid()
      ensures State() == Editor.Drop(old(State()), typeId, clientX, clientY, left, top, freshId)
    {
      ghost var s0 := State();
      DropValid(s0, Cfg(), typeId, clientX, clientY, left, top, freshId);
      if drawingTool.Some? {
        return;
      }
      var symbolDef := SymbolKindOf(typeId);
      if symbolDef.None? {
        return;
      }
      var pixelX, pixelY := clientX - left, clientY - top;
      var newElement := NewSymbol(freshId, symbolDef.value, pixelX, pixelY);
      selectedId := Some(freshId);
      CommitScene(elements + [newElement], lines);
    }

    method MouseDown(clientX: real, clientY: real, left: real, top: real, freshId: Id)
      requires Valid()
      modifies this`lines, this`selectedId, this`selectedHandle, this`interaction
      ensures Valid()
      ensures State() == Editor.MouseDown(old(State()), Cfg(), clientX, clientY, left, top, freshId)
    {
      ghost var s0 := State();
      var x, y := clientX - left, clientY - top;
      var startSnap := GetSnapPosition(x, y, None, None, drawingTool);
      match drawingTool {
        case Some(kind) => StartLine(kind, startSnap.x, startSnap.y, freshId);
        case None => Deselect();
      }
      MouseDownValid(s0, Cfg(), clientX, clientY, left, top, freshId);
    }

    /** Clear the selection and the keyboard's handle. */
    method Deselect()
      modifies this`selectedId, this`selectedHandle
      ensures State() == old(State()).(selectedId := None, selectedHandle := None)
    {
      selectedId := None;
      selectedHandle := None;
    }

    /** A new zero-length line at (x, y), selected, with its drawing gesture. */
    method StartLine(kind: LineKind, x: real, y: real, freshId: Id)
      modifies this`lines, this`selectedId, this`interaction
      ensures var l := NewLine(freshId, kind, x, y, extensionLength);
        State() == old(State()).(lines := old(lines) + [l], selectedId := Some(freshId),
                                 interaction := DrawingLine(freshId, x, y, l, false))
    {
      var newLine := NewLine(freshId, kind, x, y, extensionLength);
      lines := lines + [newLine];
      selectedId := Some(freshId);
      interaction := DrawingLine(freshId, x, y, newLine, false);
    }

    method SymbolMouseDown(id: Id, clientX: real, clientY: real)
      requires Valid()
      modifies this`selectedId, this`selectedHandle, this`interaction
      ensures Valid()
      ensures State() == Editor.SymbolMouseDown(old(State()), id, clientX, clientY)
    {
      if drawingTool.Some? {
        return;
      }
      var item := FindSymbol(elements, id);
      if item.None? {
        return;
      }
      selectedId := Some(id);
      selectedHandle := None;
      interaction := DraggingSymbol(id, clientX, clientY, item.value.x, item.value.y, false);
    }

    method HandleMouseDown(lineId: Id, handleType: HandleKind, clientX: real, clientY: real)
      requires Valid()
      modifies this`selectedId, this`selectedHandle, this`interaction
      ensures Valid()
      ensures State() == Editor.HandleMouseDown(old(State()), lineId, handleType, clientX, clientY)
    {
      if drawingTool.Some? {
        return;
      }
      var line := FindLine(lines, lineId);
      if line.None? {
        return;
      }
      selectedId := Some(lineId);
      if handleType == StartHandle {
        selectedHandle := Some(SelectedHandle(lineId, StartPoint));
      } else if handleType == EndHandle {
        selectedHandle := Some(SelectedHandle(lineId, EndPoint));
      } else {
        selectedHandle := None;
      }
      interaction := MovingHandle(lineId, handleType, clientX, clientY, line.value, false);
    }

    /** A press on a symbol: its own handler runs first; with a tool armed
        that handler returns without stopping the event, which then reaches
        the canvas and starts a drawing there. */
    method PressSymbol(id: Id, clientX: real, clientY: real, left: real, top: real, freshId: Id)
      requires Valid()
      modifies this`lines, this`selectedId, this`selectedHandle, this`interaction
      ensures Valid()
      ensures old(drawingTool).Some? ==> State() == Editor.MouseDown(old(State()), Cfg(), clientX, clientY, left, top, freshId)
      ensures old(drawingTool).None? ==> State() == Editor.SymbolMouseDown(old(State()), id, clientX, clientY)
    {
      SymbolMouseDown(id, clientX, clientY);
      if drawingTool.Some? {
        MouseDown(clientX, clientY, left, top, freshId);
      }
    }

    /** A press on a handle, with the same fall-through to the canvas. */
    method PressHandle(lineId: Id, handleType: HandleKind, clientX: real, clientY: real,
                       left: real, top: real, freshId: Id)
      requires Valid()
      modifies this`lines, this`selectedId, this`selectedHandle, this`interaction
      ensures Valid()
      ensures old(drawingTool).Some? ==> State() == Editor.MouseDown(old(State()), Cfg(), clientX, clientY, left, top, freshId)
      ensures old(drawingTool).None? ==> State() == Editor.HandleMouseDown(old(State()), lineId, handleType, clientX, clientY)
    {
      HandleMouseDown(lineId, handleType, clientX, clientY);
      if drawingTool.Some? {
        MouseDown(clientX, clientY, left, top, freshId);
      }
    }

    method BoxMove(lineId: Id, clientX: real, clientY: real)
      requires Valid()
      modifies this`selectedId, this`selectedHandle, this`interaction
      ensures Valid()
      ensures State() == Editor.BoxMove(old(State()), lineId, clientX, clientY)
    {
      if drawingTool.Some? {
        return;
      }
      var line := FindLine(lines, lineId);
      if line.None? {
        return;
      }
      selectedId := Some(lineId);
      selectedHandle := None;
      interaction := MovingLineBody(lineId, clientX, clientY, line.value, false);
    }

    method MouseMove(clientX: real, clientY: real, left: real, top: real)
      requires Valid()
      modifies this`elements, this`lines, this`interaction
      ensures Valid()
      ensures State() == Editor.MouseMove(old(State()), Cfg(), clientX, clientY, left, top)
    {
      match interaction
      case Idle =>
      case DraggingSymbol(_, _, _, _, _, _) => DragSymbol(clientX, clientY);
      case DrawingLine(_, _, _, _, _) => DrawLine(clientX - left, clientY - top);
      case MovingLineBody(_, _, _, _, _) => MoveLineBody(clientX, clientY);
      case MovingHandle(_, _, _, _, _, _) => HandleMove(clientX, clientY, left, top);
    }

    /** The handle-drag case of `MouseMove`, in client coordinates. */
    method HandleMove(clientX: real, clientY: real, left: real, top: real)
      requires Valid() && interaction.MovingHandle?
      modifies this`lines, this`interaction
      ensures Valid()
      ensures State() == Editor.MouseMove(old(State()), Cfg(), clientX, clientY, left, top)
    {
      MoveHandle(clientX - left, clientY - top);
    }

    /** `handleMouseMove` while a symbol is dragged: it follows the pointer. */
    method DragSymbol(clientX: real, clientY: real)
      requires Valid() && interaction.DraggingSymbol?
      modifies this`elements, this`interaction
      ensures Valid()
      ensures State() == Editor.DragStep(old(State()), clientX, clientY)
    {
      DraggingValid(State(), Cfg(), clientX, clientY);
      var current := interaction;
      elements := PlaceSymbol(elements, current.activeId,
                              current.initX + (clientX - current.startX),
                              current.initY + (clientY - current.startY));
      interaction := Moved(current);
    }

    /** `handleMouseMove` while a line is drawn: its end follows the snapped pointer. */
    method DrawLine(canvasX: real, canvasY: real)
      requires Valid() && interaction.DrawingLine?
      modifies this`lines, this`interaction
      ensures Valid()
      ensures State() == Editor.DrawStep(old(State()), Cfg(), canvasX, canvasY)
    {
      ghost var s0 := State();
      DrawingValid(s0, Cfg(), canvasX, canvasY);
      var current := interaction;
      var initialData := current.initial;
      var snap := GetSnapPosition(canvasX, canvasY, Some(Point(initialData.x1, initialData.y1)),
                                  Some(current.activeId), Some(initialData.kind));
      lines := SetLineEnd(lines, current.activeId, snap.x, snap.y);
      interaction := Moved(current);
      assert lines == DrawLines(s0, Cfg(), current.activeId, initialData, canvasX, canvasY);
    }

    /** `handleMouseMove` while a line's body is dragged: both ends move by the offset. */
    method MoveLineBody(clientX: real, clientY: real)
      requires Valid() && interaction.MovingLineBody?
      modifies this`lines, this`interaction
      ensures Valid()
      ensures State() == Editor.BodyStep(old(State()), clientX, clientY)
    {
      ghost var s1 := Editor.BodyStep(State(), clientX, clientY);
      BodyMoveValid(State(), Cfg(), clientX, clientY);
      match interaction
      case MovingLineBody(activeId, startX, startY, initialData, _) =>
        lines, interaction := MoveBodyIn(lines, activeId, initialData, clientX - startX, clientY - startY),
                              MovingLineBody(activeId, startX, startY, initialData, true);
        assert lines == s1.lines;
    }

    /** `handleMouseMove` while a handle is dragged: one end follows the snapped pointer. */
    method MoveHandle(canvasX: real, canvasY: real)
      requires Valid() && interaction.MovingHandle?
      modifies this`lines, this`interaction
      ensures Valid()
      ensures State() == Editor.HandleStep(old(State()), Cfg(), canvasX, canvasY)
    {
      ghost var s0 := State();
      HandleMoveValid(s0, Cfg(), canvasX, canvasY);
      var current := interaction;
      var initialData := current.initial;
      var snap := GetSnapPosition(canvasX, canvasY, Some(HandleAnchor(current.handle, initialData)),
                                  Some(current.activeId), Some(initialData.kind));
      lines := DragHandleIn(lines, current.activeId, current.handle, snap.x, snap.y);
      interaction := Moved(current);
      assert lines == HandleDragLines(s0, Cfg(), current.activeId, current.handle, initialData, canvasX, canvasY);
    }

    method MouseUp()
      requires Valid()
      modifies this`history, this`historyStep, this`drawingTool, this`interaction
      ensures Valid()
      ensures State() == Editor.MouseUp(old(State()))
    {
      ghost var s0 := State();
      MouseUpValid(s0, Cfg());
      if !interaction.Idle? && interaction.hasMoved {
        AddToHistory(elements, lines);
      }
      if !stickyTools && interaction.DrawingLine? {
        drawingTool := None;
      }
      interaction := Idle;
    }

    // ---- edits from the scene's widgets ------------------------------------------

    method TextChange(id: Id, newText: string)
      requires Valid()
      modifies this`elements, this`history, this`historyStep
      ensures Valid()
      ensures State() == Editor.TextChange(old(State()), id, newText)
    {
      ghost var s0 := State();
      TextEditsValid(s0, Cfg(), id, newText, NoFill, None);
      var nextElements := SetSymbolText(elements, id, newText);
      elements := nextElements;
      AddToHistory(nextElements, lines);
    }

    method LineTextChange(id: Id, newText: string)
      requires Valid()
      modifies this`lines, this`history, this`historyStep
      ensures Valid()
      ensures State() == Editor.LineTextChange(old(State()), id, newText)
    {
      ghost var s0 := State();
      TextEditsValid(s0, Cfg(), id, newText, NoFill, None);
      var nextLines := SetLineText(lines, id, newText);
      lines := nextLines;
      AddToHistory(elements, nextLines);
    }

    method UpdateFillStyle(style: FillStyle)
      requires Valid()
      modifies this`lines, this`history, this`historyStep
      ensures Valid()
      ensures State() == Editor.UpdateFillStyle(old(State()), style)
    {
      ghost var s0 := State();
      TextEditsValid(s0, Cfg(), "", "", style, None);
      if selectedId.None? {
        return;
      }
      var nextLines := SetFillStyle(lines, selectedId.value, style);
      lines := nextLines;
      AddToHistory(elements, nextLines);
    }

    method MeasurementValueChange(id: Id, newMm: Option<real>)
      requires Valid()
      modifies this`lines, this`history, this`historyStep
      ensures Valid()
      ensures State() == Editor.MeasurementValueChange(old(State()), id, newMm)
    {
      ghost var s0 := State();
      TextEditsValid(s0, Cfg(), id, "", NoFill, newMm);
      var nextLines := SetManualLength(lines, id, newMm);
      lines := nextLines;
      AddToHistory(elements, nextLines);
    }

    /** A keystroke in a measurement label's input, reported through
        `onValueChange` when the filter accepts it. */
    method MeasurementInput(id: Id, text: string)
      requires Valid()
      modifies this`lines, this`history, this`historyStep
      ensures Valid()
      ensures State() == Editor.MeasurementInput(old(State()), id, text)
    {
      match InputChange(text, unit)
      case Rejected =>
      case Cleared => MeasurementValueChange(id, None);
      case Entered(mm) => MeasurementValueChange(id, Some(mm));
    }

    method DeleteSelected()
      requires Valid()
      modifies this`elements, this`lines, this`selectedId, this`selectedHandle, this`history, this`historyStep
      ensures Valid()
      ensures State() == Editor.DeleteSelected(old(State()))
    {
      ghost var s0 := State();
      DeleteSelectedValid(s0, Cfg());
      match selectedId
      case None =>
      case Some(id) =>
        var nextElements := RemoveSymbols(elements, id);
        var nextLines := RemoveLines(lines, id);
        selectedId := None;
        selectedHandle := None;
        CommitScene(nextElements, nextLines);
    }

    /** `clearCanvas` after the user confirmed. */
    method ClearCanvas()
      requires Valid()
      modifies this`elements, this`lines, this`selectedId, this`selectedHandle, this`history, this`historyStep
      ensures Valid()
      ensures State() == Editor.ClearCanvas(old(State()))
    {
      ghost var s0 := State();
      ClearCanvasValid(s0, Cfg());
      selectedId := None;
      selectedHandle := None;
      CommitScene([], []);
    }

    // ---- toolbar -----------------------------------------------------------------

    method ToggleTool(tool: LineKind)
      requires Valid()
      modifies this`drawingTool
      ensures Valid()
      ensures State() == Editor.ToggleTool(old(State()), tool)
    {
      if drawingTool == Some(tool) {
        drawingTool := None;
      } else {
        drawingTool := Some(tool);
      }
    }

    /** A line's `onSelect`. */
    method Select(id: Id)
      requires Valid()
      modifies this`selectedId
      ensures Valid()
      ensures State() == Editor.Select(old(State()), id)
    {
      selectedId := Some(id);
    }

    method ToggleSticky()
      requires Valid()
      modifies this`stickyTools
      ensures Valid()
      ensures State() == old(State()).(stickyTools := !old(stickyTools))
    {
      stickyTools := !stickyTools;
    }

    method ToggleBackground()
      requires Valid()
      modifies this`showBackground
      ensures Valid()
      ensures State() == old(State()).(showBackground := !old(showBackground))
    {
      showBackground := !showBackground;
    }

    method SetUnit(u: Unit)
      requires Valid()
      modifies this`unit
      ensures Valid()
      ensures State() == old(State()).(unit := u)
    {
      unit := u;
    }

    // ---- keyboard ----------------------------------------------------------------

    /** The `+`/`-`/arrow keys on the selected handle's line. */
    method HandleKey(key: string, shift: bool)
      requires Valid()
      modifies this`lines, this`history, this`historyStep
      ensures Valid()
      ensures State() == Editor.HandleKey(old(State()), Cfg(), key, shift)
    {
      ghost var s0 := State();
      HandleKeyValid(s0, Cfg(), key, shift);
      match selectedHandle
      case None =>
      case Some(sh) =>
        match FindLine(lines, sh.id)
        case None =>
        case Some(line) =>
          match KeyEdit(line, sh.end, key, shift, extensionLength)
          case None =>
          case Some(edit) =>
            CommitLines(ApplyEditIn(lines, line.id, edit));
    }

    /** The window's keydown listener; its checks run in the source's order. */
    method KeyDown(key: string, command: bool, shift: bool, inTextField: bool)
      requires Valid()
      modifies this`elements, this`lines, this`history, this`historyStep, this`selectedId,
               this`selectedHandle, this`drawingTool, this`interaction
      ensures Valid()
      ensures State() == Editor.KeyDown(old(State()), Cfg(), key, command, shift, inTextField)
    {
      if inTextField {
        return;
      }
      Shortcut(key, command, shift);
      ghost var s1 := State();
      if command && (key == "z" || key == "y") {
        HandleKeyIgnoresOtherKeys(s1, Cfg(), key, shift);
      }
      OtherKeys(key, shift);
    }

    /** The Ctrl/Cmd shortcuts: `z` undoes (with Shift it redoes), `y` redoes. */
    method Shortcut(key: string, command: bool, shift: bool)
      requires Valid()
      modifies this`historyStep, this`elements, this`lines, this`selectedId, this`selectedHandle
      ensures Valid()
      ensures command && (key == "z" || key == "y")
        ==> State() == Editor.KeyDown(old(State()), Cfg(), key, command, shift, false)
      ensures !(command && (key == "z" || key == "y")) ==> State() == old(State())
    {
      if command {
        if key == "z" {
          if shift {
            Redo();
          } else {
            Undo();
          }
        } else if key == "y" {
          Redo();
        }
      }
    }

    /** The listener's remaining checks: handle keys, Escape, Delete and Backspace. */
    method OtherKeys(key: string, shift: bool)
      requires Valid()
      modifies this`elements, this`lines, this`history, this`historyStep, this`selectedId,
               this`selectedHandle, this`drawingTool, this`interaction
      ensures Valid()
      ensures State() == Editor.KeyDown(old(State()), Cfg(), key, false, shift, false)
    {
      ghost var s0 := State();
      if selectedHandle.Some? {
        HandleKey(key, shift);
      }
      assert State() == Editor.HandleKey(s0, Cfg(), key, shift);
      if key == "Escape" {
        HandleKeyIgnoresOtherKeys(s0, Cfg(), key, shift);
        Escape();
      } else if key == "Delete" || key == "Backspace" {
        HandleKeyIgnoresOtherKeys(s0, Cfg(), key, shift);
        if selectedId.Some? {
          DeleteSelected();
        }
      }
    }

    /** Escape: disarm the tool, drop the selection, end any gesture. */
    method Escape()
      modifies this`drawingTool, this`selectedId, this`selectedHandle, this`interaction
      ensures State() == old(State()).(drawingTool := None, selectedId := None, selectedHandle := None,
                                       interaction := Idle)
    {
      drawingTool := None;
      selectedId := None;
      selectedHandle := None;
      interaction := Idle;
    }
  }

  // ---- the scan, phase by phase ------------------------------------------------

  /** The `tryPointSnap` loop over a list of points. */
  method ScanPoints(p: Probe, pts: seq<Target>, a: Axes) returns (o: Outcome)
    requires forall k :: 0 <= k < |pts| ==> pts[k].PointAt?
    ensures o == Run(p, pts, a)
    ensures o.Open? ==> o.axes == a
  {
    var j := 0;
    while j < |pts|
      invariant 0 <= j <= |pts|
      invariant Run(p, pts[j..], a) == Run(p, pts, a)
    {
      assert pts[j..][1..] == pts[j + 1..];
      var tx, ty := pts[j].x, pts[j].y;
      if PointHits(p, tx, ty) {
        return Hit(tx, ty);
      }
      j := j + 1;
    }
    return Open(a);
  }

  /** The axis snaps of one segment's projection. */
  method SnapToSegment(p: Probe, seg: Segment, a: Axes) returns (b: Axes)
    ensures Step(p, a, Edge(seg)) == Open(b)
  {
    b := a;
    var res := DistToSegment(p.rawX, p.rawY, seg);
    if Near(p, res) {
      if Abs(seg.x1 - seg.x2) < 0.1 {
        b := TrySnapX(p, b, res.x);
      } else if Abs(seg.y1 - seg.y2) < 0.1 {
        b := TrySnapY(p, b, res.y);
      } else {
        b := TrySnapX(p, b, res.x);
        b := TrySnapY(p, b, res.y);
      }
    }
  }

  /** The loop over a line's segments; segments never return early. */
  method ScanSegments(p: Probe, segments: seq<Target>, a: Axes) returns (b: Axes)
    requires forall k :: 0 <= k < |segments| ==> segments[k].Edge?
    ensures Open(b) == Run(p, segments, a)
  {
    b := a;
    var j := 0;
    while j < |segments|
      invariant 0 <= j <= |segments|
      invariant Run(p, segments[j..], b) == Run(p, segments, a)
    {
      assert segments[j..][1..] == segments[j + 1..];
      b := SnapToSegment(p, segments[j].seg, b);
      j := j + 1;
    }
  }

  /** The first loop: the offsets around every symbol. */
  method ScanSymbols(p: Probe, els: seq<Symbol>, measurement: bool, factor: real, a: Axes) returns (o: Outcome)
    ensures o == Run(p, SymbolTargets(els, measurement, factor), a)
  {
    var axes := a;
    var i := 0;
    while i < |els|
      invariant 0 <= i <= |els|
      invariant Run(p, SymbolTargets(els[i..], measurement, factor), axes) == Run(p, SymbolTargets(els, measurement, factor), a)
    {
      var offsets := SymbolOffsets(els[i], measurement, factor);
      assert els[i..][0] == els[i] && els[i..][1..] == els[i + 1..];
      assert SymbolTargets(els[i..], measurement, factor) == offsets + SymbolTargets(els[i + 1..], measurement, factor);
      RunAppend(p, offsets, SymbolTargets(els[i + 1..], measurement, factor), axes);
      var hit := ScanPoints(p, offsets, axes);
      if hit.Hit? {
        return hit;
      }
      i := i + 1;
    }
    return Open(axes);
  }

  /** The second loop: every line's points, then its segments. */
  method ScanLines(p: Probe, ls: seq<Line>, exclude: Option<Id>, a: Axes) returns (o: Outcome)
    ensures o == Run(p, LinesTargets(ls, exclude), a)
  {
    var axes := a;
    var k := 0;
    while k < |ls|
      invariant 0 <= k <= |ls|
      invariant Run(p, LinesTargets(ls[k..], exclude), axes) == Run(p, LinesTargets(ls, exclude), a)
    {
      var line := ls[k];
      assert ls[k..][0] == line && ls[k..][1..] == ls[k + 1..];
      if exclude == Some(line.id) {
        k := k + 1;
        continue;
      }
      var points := LinePoints(line);
      var segments := LineSegments(line);
      ghost var rest := LinesTargets(ls[k + 1..], exclude);
      RunAppend(p, points, segments + rest, axes);
      var hit := ScanPoints(p, points, axes);
      if hit.Hit? {
        return hit;
      }
      RunAppend(p, segments, rest, axes);
      axes := ScanSegments(p, segments, axes);
      k := k + 1;
    }
    return Open(axes);
  }

  /** The last loop: near a background segment, its end points are point
      snaps, then its projection feeds the axis snaps. */
  method ScanBackdrop(p: Probe, segs: seq<Segment>, a: Axes) returns (o: Outcome)
    ensures o == Run(p, BackdropTargets(segs), a)
  {
    ghost var ts := BackdropTargets(segs);
    var axes := a;
    var k := 0;
    while k < |segs|
      invariant 0 <= k <= |segs|
      invariant Run(p, ts[k..], axes) == Run(p, ts, a)
    {
      assert ts[k..][1..] == ts[k + 1..];
      var seg := segs[k];
      var res := DistToSegment(p.rawX, p.rawY, seg);
      if Near(p, res) {
        if PointHits(p, seg.x1, seg.y1) {
          return Hit(seg.x1, seg.y1);
        }
        if PointHits(p, seg.x2, seg.y2) {
          return Hit(seg.x2, seg.y2);
        }
        if Abs(seg.x1 - seg.x2) < 0.1 {
          axes := TrySnapX(p, axes, res.x);
        } else if Abs(seg.y1 - seg.y2) < 0.1 {
          axes := TrySnapY(p, axes, res.y);
        } else {
          axes := TrySnapX(p, axes, res.x);
          axes := TrySnapY(p, axes, res.y);
        }
      }
      k := k + 1;
    }
    return Open(axes);
  }
}
