/** The editor's state as a value and every event handler as a transition
    on it. The `Studio` class performs the same transitions field by field;
    the properties of the handlers are proved here. */
module Editor {
  import opened Options
  import opened Geometry
  import opened Scene
  import History
  import opened Snap
  import opened Editing
  import opened Input

  /** The pointer gesture in progress. `startX`/`startY` are where it began
      (client coordinates, or the snapped canvas point for a drawing), and
      the initial data is the gesture-start copy of what is moved. */
  datatype Interaction =
    | Idle
    | DrawingLine(activeId: Id, startX: real, startY: real, initial: Line, hasMoved: bool)
    | DraggingSymbol(activeId: Id, startX: real, startY: real, initX: real, initY: real, hasMoved: bool)
    | MovingLineBody(activeId: Id, startX: real, startY: real, initial: Line, hasMoved: bool)
    | MovingHandle(activeId: Id, handle: HandleKind, startX: real, startY: real, initial: Line, hasMoved: bool)

  /** The end point the keyboard acts on. */
  datatype SelectedHandle = SelectedHandle(id: Id, end: Endpoint)

  /** The configurable values the engine reads. */
  datatype Config = Config(snapThreshold: real, snapOffsetFactor: real, extensionLength: real)

  const DefaultConfig: Config := Config(20.0, 0.25, 5.0)

  /** The drawing tool is the kind of line it draws (the ruler draws
      measurements). */
  datatype EditorState = EditorState(
    elements: seq<Symbol>,
    lines: seq<Line>,
    timeline: History.Timeline,
    selectedId: Option<Id>,
    selectedHandle: Option<SelectedHandle>,
    drawingTool: Option<LineKind>,
    unit: Unit,
    showBackground: bool,
    stickyTools: bool,
    interaction: Interaction)

  const InitialState: EditorState :=
    EditorState([], [], History.Initial, None, None, None, Inch, true, true, Idle)

  /** The invariant every handler keeps: the history cursor is in range,
      every symbol's zone matches its position and its size is positive,
      no extension length is negative, in the scene and in every snapshot. */
  predicate Valid(st: EditorState, cfg: Config) {
    History.Valid(st.timeline) && History.AllOk(st.timeline)
    && SceneOk(st.elements, st.lines) && cfg.extensionLength >= 0.0
  }

  lemma InitialValid()
    ensures Valid(InitialState, DefaultConfig)
  {
  }

  // ---- history -------------------------------------------------------------

  /** `addToHistory(els, ls)`. */
  function AddToHistory(st: EditorState, els: seq<Symbol>, ls: seq<Line>): EditorState
    requires History.Valid(st.timeline)
  {
    st.(timeline := History.Push(st.timeline, Snapshot(els, ls)))
  }

  /** Set both lists and push them as one history entry. */
  function Commit(st: EditorState, els: seq<Symbol>, ls: seq<Line>): (r: EditorState)
    requires History.Valid(st.timeline)
    ensures r.elements == els && r.lines == ls
    ensures History.Valid(r.timeline) && History.Current(r.timeline) == Snapshot(els, ls)
  {
    AddToHistory(st.(elements := els, lines := ls), els, ls)
  }

  /** Restore the snapshot at `step` and clear the selection. */
  function Restore(st: EditorState, t: History.Timeline): EditorState
    requires History.Valid(t)
  {
    var s := History.Current(t);
    st.(timeline := t, elements := s.elements, lines := s.lines, selectedId := None, selectedHandle := None)
  }

  /** `undo`. */
  function Undo(st: EditorState): EditorState
    requires History.Valid(st.timeline)
  {
    if History.CanUndo(st.timeline) then Restore(st, History.Undo(st.timeline)) else st
  }

  /** `redo`. */
  function Redo(st: EditorState): EditorState
    requires History.Valid(st.timeline)
  {
    if History.CanRedo(st.timeline) then Restore(st, History.Redo(st.timeline)) else st
  }

  /** Undo and redo at the ends of the history change nothing; otherwise
      they move the cursor by one, show that entry and clear the selection
      and the active handle. */
  lemma UndoRedoEffects(st: EditorState)
    requires History.Valid(st.timeline)
    ensures !History.CanUndo(st.timeline) ==> Undo(st) == st
    ensures !History.CanRedo(st.timeline) ==> Redo(st) == st
    ensures History.CanUndo(st.timeline) ==>
      var r := Undo(st);
      r.timeline.step == st.timeline.step - 1 && r.timeline.entries == st.timeline.entries
      && Snapshot(r.elements, r.lines) == st.timeline.entries[st.timeline.step - 1]
      && r.selectedId == None && r.selectedHandle == None
    ensures History.CanRedo(st.timeline) ==>
      var r := Redo(st);
      r.timeline.step == st.timeline.step + 1 && r.timeline.entries == st.timeline.entries
      && Snapshot(r.elements, r.lines) == st.timeline.entries[st.timeline.step + 1]
      && r.selectedId == None && r.selectedHandle == None
  {
  }

  /** Undo then redo comes back to the same history position and shows the
      snapshot stored there. */
  lemma RedoAfterUndo(st: EditorState)
    requires History.Valid(st.timeline) && History.CanUndo(st.timeline)
    ensures Redo(Undo(st)).timeline == st.timeline
    ensures Snapshot(Redo(Undo(st)).elements, Redo(Undo(st)).lines) == History.Current(st.timeline)
  {
    History.RedoUndoes(st.timeline);
  }

  // ---- symbols ---------------------------------------------------------------

  /** `handleDrop`: with no tool armed and a known catalog id, a new symbol
      at the drop point, selected, and one history entry. */
  function Drop(st: EditorState, typeId: string, clientX: real, clientY: real,
                left: real, top: real, freshId: Id): EditorState
    requires History.Valid(st.timeline)
  {
    if st.drawingTool.Some? then st
    else
      match SymbolKindOf(typeId)
      case None => st
      case Some(kind) =>
        var e := NewSymbol(freshId, kind, clientX - left, clientY - top);
        var els := st.elements + [e];
        Commit(st.(selectedId := Some(freshId)), els, st.lines)
  }

  /** A drop appends exactly one symbol, classified into the zone under the
      drop point and selected, and pushes one entry; with a tool armed or an
      unknown id nothing changes. The active handle is left as it was. */
  lemma DropEffect(st: EditorState, typeId: string, clientX: real, clientY: real,
                   left: real, top: real, freshId: Id)
    requires History.Valid(st.timeline)
    ensures var r := Drop(st, typeId, clientX, clientY, left, top, freshId);
      if st.drawingTool.Some? || SymbolKindOf(typeId).None? then r == st
      else
        |r.elements| == |st.elements| + 1 && r.elements[..|st.elements|] == st.elements
        && var e := r.elements[|st.elements|];
        e.id == freshId && TypeId(e.kind) == typeId
        && e.x == clientX - left && e.y == clientY - top
        && e.zone == ZoneAt(clientX - left, clientY - top)
        && r.lines == st.lines && r.selectedId == Some(freshId)
        && r.selectedHandle == st.selectedHandle
        && r.timeline == History.Push(st.timeline, Snapshot(r.elements, r.lines))
  {
  }

  /** `handleSymbolMouseDown`: with no tool armed, select a known symbol and
      start dragging it from its current centre. */
  function SymbolMouseDown(st: EditorState, id: Id, clientX: real, clientY: real): EditorState {
    if st.drawingTool.Some? then st
    else
      match FindSymbol(st.elements, id)
      case None => st
      case Some(item) =>
        st.(selectedId := Some(id), selectedHandle := None,
            interaction := DraggingSymbol(id, clientX, clientY, item.x, item.y, false))
  }

  /** `handleTextChange`. */
  function TextChange(st: EditorState, id: Id, text: string): EditorState
    requires History.Valid(st.timeline)
  {
    Commit(st, SetSymbolText(st.elements, id, text), st.lines)
  }

  // ---- lines -----------------------------------------------------------------

  /** `handleMouseDown` on the canvas at client (clientX, clientY). With a
      tool armed: a zero-length line at the snapped press point, selected,
      and a drawing gesture; no history entry yet. Otherwise the selection
      and the active handle are cleared. */
  function MouseDown(st: EditorState, cfg: Config, clientX: real, clientY: real,
                     left: real, top: real, freshId: Id): EditorState
  {
    var x, y := clientX - left, clientY - top;
    var snap := SnapPosition(st.elements, st.lines, st.showBackground, cfg.snapThreshold, cfg.snapOffsetFactor,
                             x, y, None, None, st.drawingTool);
    match st.drawingTool
    case Some(kind) =>
      var l := NewLine(freshId, kind, snap.x, snap.y, cfg.extensionLength);
      st.(lines := st.lines + [l], selectedId := Some(freshId),
          interaction := DrawingLine(freshId, snap.x, snap.y, l, false))
    case None => st.(selectedId := None, selectedHandle := None)
  }

  /** A press with a tool armed leaves a zero-length line of the tool's kind
      in the scene, within the threshold of the press point, without a
      history entry; a press without a tool only clears the selection. */
  lemma MouseDownEffect(st: EditorState, cfg: Config, clientX: real, clientY: real,
                        left: real, top: real, freshId: Id)
    ensures var r := MouseDown(st, cfg, clientX, clientY, left, top, freshId);
      r.timeline == st.timeline && r.elements == st.elements
      && (st.drawingTool.None? ==> r == st.(selectedId := None, selectedHandle := None))
      && (st.drawingTool.Some? ==>
            |r.lines| == |st.lines| + 1 && r.lines[..|st.lines|] == st.lines
            && var l := r.lines[|st.lines|];
            l.id == freshId && l.kind == st.drawingTool.value && l.x1 == l.x2 && l.y1 == l.y2
            && Abs(l.x1 - (clientX - left)) <= Max(0.0, cfg.snapThreshold)
            && Abs(l.y1 - (clientY - top)) <= Max(0.0, cfg.snapThreshold)
            && r.selectedId == Some(freshId) && r.interaction.DrawingLine?
            && r.interaction.initial == l && !r.interaction.hasMoved)
  {
    var r := MouseDown(st, cfg, clientX, clientY, left, top, freshId);
    match st.drawingTool
    case None =>
    case Some(kind) =>
      var snap := SnapPosition(st.elements, st.lines, st.showBackground, cfg.snapThreshold, cfg.snapOffsetFactor,
                               clientX - left, clientY - top, None, None, st.drawingTool);
      SnapWithinThreshold(st.elements, st.lines, st.showBackground, cfg.snapThreshold, cfg.snapOffsetFactor,
                          clientX - left, clientY - top, None, None, st.drawingTool);
      var l := NewLine(freshId, kind, snap.x, snap.y, cfg.extensionLength);
      assert r.lines == st.lines + [l];
      assert r.lines[..|st.lines|] == st.lines;
  }

  /** `handleHandleMouseDown`: with no tool armed, select the line, make a
      `start`/`end` handle the keyboard's target (any other handle clears
      it) and start moving the handle. */
  function HandleMouseDown(st: EditorState, id: Id, h: HandleKind, clientX: real, clientY: real): EditorState {
    if st.drawingTool.Some? then st
    else
      match FindLine(st.lines, id)
      case None => st
      case Some(line) =>
        var sh := if h == StartHandle then Some(SelectedHandle(id, StartPoint))
                  else if h == EndHandle then Some(SelectedHandle(id, EndPoint))
                  else None;
        st.(selectedId := Some(id), selectedHandle := sh,
            interaction := MovingHandle(id, h, clientX, clientY, line, false))
  }

  /** `handleBoxMove`: with no tool armed, select the line and start moving
      its body. */
  function BoxMove(st: EditorState, id: Id, clientX: real, clientY: real): EditorState {
    if st.drawingTool.Some? then st
    else
      match FindLine(st.lines, id)
      case None => st
      case Some(line) =>
        st.(selectedId := Some(id), selectedHandle := None,
            interaction := MovingLineBody(id, clientX, clientY, line, false))
  }

  /** The body-move rewrite of the lines with that id. */
  function MoveBodyIn(ls: seq<Line>, id: Id, init: Line, dx: real, dy: real): (r: seq<Line>)
    ensures |r| == |ls|
    ensures forall i :: 0 <= i < |ls| ==> r[i] == (if ls[i].id == id then MoveBody(ls[i], init, dx, dy) else ls[i])
  {
    UpdateLines(ls, id, (l: Line) => MoveBody(l, init, dx, dy))
  }

  /** The handle-drag rewrite of the lines with that id. */
  function DragHandleIn(ls: seq<Line>, id: Id, h: HandleKind, x: real, y: real): (r: seq<Line>)
    ensures |r| == |ls|
    ensures forall i :: 0 <= i < |ls| ==> r[i] == (if ls[i].id == id then DragHandle(ls[i], h, x, y) else ls[i])
  {
    UpdateLines(ls, id, (l: Line) => DragHandle(l, h, x, y))
  }

  /** The same gesture, marked as having moved. */
  function Moved(i: Interaction): (r: Interaction)
    ensures r.Idle? <==> i.Idle?
    ensures !i.Idle? ==> r.hasMoved && r.activeId == i.activeId
    ensures !i.Idle? && i.hasMoved ==> r == i
  {
    match i
    case Idle => Idle
    case DrawingLine(id, sx, sy, init, _) => DrawingLine(id, sx, sy, init, true)
    case DraggingSymbol(id, sx, sy, ix, iy, _) => DraggingSymbol(id, sx, sy, ix, iy, true)
    case MovingLineBody(id, sx, sy, init, _) => MovingLineBody(id, sx, sy, init, true)
    case MovingHandle(id, h, sx, sy, init, _) => MovingHandle(id, h, sx, sy, init, true)
  }

  /** The pointer moved to client (clientX, clientY): mark the gesture as
      moved and update what it moves. */
  function MouseMove(st: EditorState, cfg: Config, clientX: real, clientY: real, left: real, top: real): EditorState {
    match st.interaction
    case Idle => st
    case DraggingSymbol(_, _, _, _, _, _) => DragStep(st, clientX, clientY)
    case DrawingLine(_, _, _, _, _) => DrawStep(st, cfg, clientX - left, clientY - top)
    case MovingLineBody(_, _, _, _, _) => BodyStep(st, clientX, clientY)
    case MovingHandle(_, _, _, _, _, _) => HandleStep(st, cfg, clientX - left, clientY - top)
  }

  /** A symbol drag: the symbol goes to its start position plus the pointer
      delta since the press. */
  function DragStep(st: EditorState, clientX: real, clientY: real): EditorState
    requires st.interaction.DraggingSymbol?
  {
    var i := st.interaction;
    st.(elements := PlaceSymbol(st.elements, i.activeId, i.initX + (clientX - i.startX), i.initY + (clientY - i.startY)),
        interaction := Moved(i))
  }

  /** Drawing: the free end follows the snapped canvas point (x, y). */
  function DrawStep(st: EditorState, cfg: Config, x: real, y: real): EditorState
    requires st.interaction.DrawingLine?
  {
    var i := st.interaction;
    st.(lines := DrawLines(st, cfg, i.activeId, i.initial, x, y), interaction := Moved(i))
  }

  /** A body move: the line is the press-time line shifted by the pointer delta. */
  function BodyStep(st: EditorState, clientX: real, clientY: real): EditorState
    requires st.interaction.MovingLineBody?
  {
    var i := st.interaction;
    st.(lines := MoveBodyIn(st.lines, i.activeId, i.initial, clientX - i.startX, clientY - i.startY),
        interaction := Moved(i))
  }

  /** A handle drag: the handle follows the snapped canvas point (x, y). */
  function HandleStep(st: EditorState, cfg: Config, x: real, y: real): EditorState
    requires st.interaction.MovingHandle?
  {
    var i := st.interaction;
    st.(lines := HandleDragLines(st, cfg, i.activeId, i.handle, i.initial, x, y), interaction := Moved(i))
  }

  /** The lines after moving the free end of line `id` towards canvas
      point (x, y): the point is snapped with the start point as anchor,
      skipping the line itself. */
  function DrawLines(st: EditorState, cfg: Config, id: Id, init: Line, x: real, y: real): seq<Line> {
    var snap := SnapPosition(st.elements, st.lines, st.showBackground, cfg.snapThreshold, cfg.snapOffsetFactor,
                             x, y, Some(Point(init.x1, init.y1)), Some(id), Some(init.kind));
    SetLineEnd(st.lines, id, snap.x, snap.y)
  }

  /** The lines after dragging handle `h` of line `id` towards canvas point
      (x, y): the point is snapped with the handle's anchor, skipping the
      line itself. */
  function HandleDragLines(st: EditorState, cfg: Config, id: Id, h: HandleKind, init: Line, x: real, y: real): seq<Line> {
    var snap := SnapPosition(st.elements, st.lines, st.showBackground, cfg.snapThreshold, cfg.snapOffsetFactor,
                             x, y, Some(HandleAnchor(h, init)), Some(id), Some(init.kind));
    DragHandleIn(st.lines, id, h, snap.x, snap.y)
  }

  /** A move never touches the history, the selection or the tool, and
      marks a gesture in progress as moved. A symbol drag puts the symbol at
      its start position plus the pointer delta, in the zone found there; a
      body move translates the line rigidly, with no snapping. */
  lemma MouseMoveEffect(st: EditorState, cfg: Config, clientX: real, clientY: real, left: real, top: real)
    ensures var r := MouseMove(st, cfg, clientX, clientY, left, top);
      r.timeline == st.timeline && r.selectedId == st.selectedId && r.selectedHandle == st.selectedHandle
      && r.drawingTool == st.drawingTool
      && (st.interaction.Idle? ==> r == st)
      && (!st.interaction.Idle? ==> r.interaction == Moved(st.interaction))
      && (st.interaction.DraggingSymbol? ==>
            var i := st.interaction;
            var nx, ny := i.initX + (clientX - i.startX), i.initY + (clientY - i.startY);
            r.lines == st.lines && |r.elements| == |st.elements|
            && forall k :: 0 <= k < |st.elements| ==>
                 if st.elements[k].id == i.activeId
                 then r.elements[k] == st.elements[k].(x := nx, y := ny, zone := ZoneAt(nx, ny))
                 else r.elements[k] == st.elements[k])
      && (st.interaction.MovingLineBody? ==>
            var i := st.interaction;
            r.elements == st.elements && |r.lines| == |st.lines|
            && forall k :: 0 <= k < |st.lines| && st.lines[k].id == i.activeId ==>
                 r.lines[k].x2 - r.lines[k].x1 == i.initial.x2 - i.initial.x1
                 && r.lines[k].y2 - r.lines[k].y1 == i.initial.y2 - i.initial.y1
                 && r.lines[k].x1 == i.initial.x1 + (clientX - i.startX)
                 && r.lines[k].y1 == i.initial.y1 + (clientY - i.startY))
  {
  }

  /** While drawing, the free end follows the pointer within the snap
      threshold, and the start point stays where the press put it. */
  lemma DrawingFollowsPointer(st: EditorState, cfg: Config, clientX: real, clientY: real, left: real, top: real)
    requires st.interaction.DrawingLine?
    ensures var r := MouseMove(st, cfg, clientX, clientY, left, top);
      var id := st.interaction.activeId;
      r.elements == st.elements && |r.lines| == |st.lines|
      && forall k :: 0 <= k < |st.lines| ==>
           if st.lines[k].id == id then
             r.lines[k].x1 == st.lines[k].x1 && r.lines[k].y1 == st.lines[k].y1
             && Abs(r.lines[k].x2 - (clientX - left)) <= Max(0.0, cfg.snapThreshold)
             && Abs(r.lines[k].y2 - (clientY - top)) <= Max(0.0, cfg.snapThreshold)
           else r.lines[k] == st.lines[k]
  {
    var init, id := st.interaction.initial, st.interaction.activeId;
    var snap := SnapPosition(st.elements, st.lines, st.showBackground, cfg.snapThreshold, cfg.snapOffsetFactor,
                             clientX - left, clientY - top, Some(Point(init.x1, init.y1)), Some(id), Some(init.kind));
    SnapWithinThreshold(st.elements, st.lines, st.showBackground, cfg.snapThreshold, cfg.snapOffsetFactor,
                        clientX - left, clientY - top, Some(Point(init.x1, init.y1)), Some(id), Some(init.kind));
    assert MouseMove(st, cfg, clientX, clientY, left, top).lines == SetLineEnd(st.lines, id, snap.x, snap.y);
  }

  /** A handle drag changes only the dragged handle's coordinates of the
      lines with the gesture's id; the opposite handle stays put. */
  lemma HandleDragEffect(st: EditorState, cfg: Config, clientX: real, clientY: real, left: real, top: real)
    requires st.interaction.MovingHandle?
    ensures var r := MouseMove(st, cfg, clientX, clientY, left, top);
      var i := st.interaction;
      r.elements == st.elements && |r.lines| == |st.lines|
      && forall k :: 0 <= k < |st.lines| ==>
           if st.lines[k].id == i.activeId then
             HandlePosition(r.lines[k], Opposite(i.handle)) == HandlePosition(st.lines[k], Opposite(i.handle))
             && r.lines[k].(x1 := st.lines[k].x1, y1 := st.lines[k].y1, x2 := st.lines[k].x2, y2 := st.lines[k].y2)
                == st.lines[k]
           else r.lines[k] == st.lines[k]
  {
    var i := st.interaction;
    var snap := SnapPosition(st.elements, st.lines, st.showBackground, cfg.snapThreshold, cfg.snapOffsetFactor,
                             clientX - left, clientY - top, Some(HandleAnchor(i.handle, i.initial)), Some(i.activeId),
                             Some(i.initial.kind));
    DragHandleInEffect(st.lines, i.activeId, i.handle, snap.x, snap.y);
  }

  /** The per-line facts of a handle drag over the whole list. */
  lemma DragHandleInEffect(ls: seq<Line>, id: Id, h: HandleKind, x: real, y: real)
    ensures var r := DragHandleIn(ls, id, h, x, y);
      forall k :: 0 <= k < |ls| && ls[k].id == id ==>
        HandlePosition(r[k], Opposite(h)) == HandlePosition(ls[k], Opposite(h))
        && r[k].(x1 := ls[k].x1, y1 := ls[k].y1, x2 := ls[k].x2, y2 := ls[k].y2) == ls[k]
  {
    forall k | 0 <= k < |ls| && ls[k].id == id
      ensures var r := DragHandleIn(ls, id, h, x, y);
        HandlePosition(r[k], Opposite(h)) == HandlePosition(ls[k], Opposite(h))
        && r[k].(x1 := ls[k].x1, y1 := ls[k].y1, x2 := ls[k].x2, y2 := ls[k].y2) == ls[k]
    {
      DragHandleEffect(ls[k], h, x, y);
    }
  }

  /** `handleMouseUp`: a gesture that moved pushes the current scene; a
      drawing ends the tool unless tools are sticky; the gesture ends. */
  function MouseUp(st: EditorState): EditorState
    requires History.Valid(st.timeline)
  {
    var moved := !st.interaction.Idle? && st.interaction.hasMoved;
    var t := if moved then History.Push(st.timeline, Snapshot(st.elements, st.lines)) else st.timeline;
    var tool := if !st.stickyTools && st.interaction.DrawingLine? then None else st.drawingTool;
    st.(timeline := t, drawingTool := tool, interaction := Idle)
  }

  /** Mouse-up pushes exactly one entry iff a gesture moved, disarms the
      tool iff tools are not sticky and a line was being drawn, always ends
      the gesture, and changes nothing else. */
  lemma MouseUpEffect(st: EditorState)
    requires History.Valid(st.timeline)
    ensures var r := MouseUp(st);
      && r.interaction == Idle
      && (r.timeline != st.timeline <==> !st.interaction.Idle? && st.interaction.hasMoved)
      && (r.timeline != st.timeline ==> r.timeline == History.Push(st.timeline, Snapshot(st.elements, st.lines)))
      && (r.drawingTool == None && st.drawingTool.Some? <==>
            !st.stickyTools && st.interaction.DrawingLine? && st.drawingTool.Some?)
      && r.elements == st.elements && r.lines == st.lines
      && r.selectedId == st.selectedId && r.selectedHandle == st.selectedHandle
  {
    var h := History.Push(st.timeline, Snapshot(st.elements, st.lines));
    assert |h.entries| == st.timeline.step + 2;
    if |st.timeline.entries| == st.timeline.step + 2 {
      assert h.step == st.timeline.step + 1;
    }
  }

  /** A click with a tool armed and no movement leaves a zero-length line
      behind that no history entry records. */
  lemma ClickLeavesUnrecordedLine(st: EditorState, cfg: Config, x: real, y: real, freshId: Id)
    requires History.Valid(st.timeline) && st.drawingTool.Some?
    ensures var r := MouseUp(MouseDown(st, cfg, x, y, 0.0, 0.0, freshId));
      r.timeline == st.timeline && |r.lines| == |st.lines| + 1
      && r.lines[|st.lines|].x1 == r.lines[|st.lines|].x2 && r.lines[|st.lines|].y1 == r.lines[|st.lines|].y2
  {
  }

  /** `handleLineTextChange`. */
  function LineTextChange(st: EditorState, id: Id, text: string): EditorState
    requires History.Valid(st.timeline)
  {
    Commit(st, st.elements, SetLineText(st.lines, id, text))
  }

  /** `handleUpdateFillStyle`: only with something selected. */
  function UpdateFillStyle(st: EditorState, style: FillStyle): EditorState
    requires History.Valid(st.timeline)
  {
    match st.selectedId
    case None => st
    case Some(id) => Commit(st, st.elements, SetFillStyle(st.lines, id, style))
  }

  /** `handleMeasurementValueChange`. */
  function MeasurementValueChange(st: EditorState, id: Id, mm: Option<real>): EditorState
    requires History.Valid(st.timeline)
  {
    Commit(st, st.elements, SetManualLength(st.lines, id, mm))
  }

  /** A keystroke in a measurement label's input, filtered as the label
      does before it reports the value. */
  function MeasurementInput(st: EditorState, id: Id, text: string): EditorState
    requires History.Valid(st.timeline)
  {
    match InputChange(text, st.unit)
    case Rejected => st
    case Cleared => MeasurementValueChange(st, id, None)
    case Entered(mm) => MeasurementValueChange(st, id, Some(mm))
  }

  /** A rejected keystroke changes nothing; an accepted one stores a
      non-negative length, or clears it, and pushes one entry. */
  lemma MeasurementInputEffect(st: EditorState, id: Id, text: string)
    requires History.Valid(st.timeline)
    ensures var r := MeasurementInput(st, id, text);
      (!DecimalShape(text) ==> r == st)
      && (DecimalShape(text) ==>
            r.elements == st.elements && r.timeline == History.Push(st.timeline, Snapshot(r.elements, r.lines))
            && |r.lines| == |st.lines|
            && forall k :: 0 <= k < |st.lines| ==>
                 if st.lines[k].id == id then
                   r.lines[k] == st.lines[k].(manualLengthMm := r.lines[k].manualLengthMm)
                   && (r.lines[k].manualLengthMm.None? <==> text == "" || text == ".")
                   && (r.lines[k].manualLengthMm.Some? ==> r.lines[k].manualLengthMm.value >= 0.0)
                 else r.lines[k] == st.lines[k])
  {
  }

  // ---- deletion and clearing ------------------------------------------------

  /** `handleDeleteSelected`: with something selected, remove every symbol
      and line with that id, clear the selection and push. */
  function DeleteSelected(st: EditorState): EditorState
    requires History.Valid(st.timeline)
  {
    match st.selectedId
    case None => st
    case Some(id) =>
      Commit(st.(selectedId := None, selectedHandle := None), RemoveSymbols(st.elements, id), RemoveLines(st.lines, id))
  }

  /** After deleting, nothing with the selected id is left and everything
      else is kept, in its order: the survivors of any front part of a list
      come before those of the rest, and a list without the id is kept
      as it is. */
  lemma DeleteSelectedEffect(st: EditorState)
    requires History.Valid(st.timeline) && st.selectedId.Some?
    ensures var r := DeleteSelected(st);
      var id := st.selectedId.value;
      (forall e :: e in r.elements <==> e in st.elements && e.id != id)
      && (forall l :: l in r.lines <==> l in st.lines && l.id != id)
      && r.selectedId == None && r.selectedHandle == None
      && r.timeline == History.Push(st.timeline, Snapshot(r.elements, r.lines))
      && (forall i :: 0 <= i <= |st.elements| ==>
            r.elements == RemoveSymbols(st.elements[..i], id) + RemoveSymbols(st.elements[i..], id))
      && (forall i :: 0 <= i <= |st.lines| ==>
            r.lines == RemoveLines(st.lines[..i], id) + RemoveLines(st.lines[i..], id))
      && ((forall k :: 0 <= k < |st.elements| ==> st.elements[k].id != id) ==> r.elements == st.elements)
      && ((forall k :: 0 <= k < |st.lines| ==> st.lines[k].id != id) ==> r.lines == st.lines)
  {
    var id := st.selectedId.value;
    forall i | 0 <= i <= |st.elements|
      ensures RemoveSymbols(st.elements, id) == RemoveSymbols(st.elements[..i], id) + RemoveSymbols(st.elements[i..], id)
    {
      RemoveSymbolsKeepsOrder(st.elements, id, i);
    }
    forall i | 0 <= i <= |st.lines|
      ensures RemoveLines(st.lines, id) == RemoveLines(st.lines[..i], id) + RemoveLines(st.lines[i..], id)
    {
      RemoveLinesKeepsOrder(st.lines, id, i);
    }
    RemoveSymbolsKeepsOrder(st.elements, id, 0);
    RemoveLinesKeepsOrder(st.lines, id, 0);
  }

  /** `clearCanvas`, once the user confirmed. */
  function ClearCanvas(st: EditorState): EditorState
    requires History.Valid(st.timeline)
  {
    Commit(st.(selectedId := None, selectedHandle := None), [], [])
  }

  /** Clearing empties the scene and records the empty scene, so one undo
      brings the previous entry back. */
  lemma ClearThenUndo(st: EditorState)
    requires History.Valid(st.timeline)
    ensures var r := ClearCanvas(st);
      r.elements == [] && r.lines == [] && History.Current(r.timeline) == Snapshot([], [])
      && Snapshot(Undo(r).elements, Undo(r).lines) == History.Current(st.timeline)
  {
    History.UndoAfterPush(st.timeline, Snapshot([], []));
  }

  // ---- tools, selection, toggles -------------------------------------------

  /** `toggleTool`: the armed tool is disarmed, any other is armed. */
  function ToggleTool(st: EditorState, tool: LineKind): (r: EditorState)
    ensures r.drawingTool == (if st.drawingTool == Some(tool) then None else Some(tool))
    ensures r.(drawingTool := st.drawingTool) == st
  {
    st.(drawingTool := if st.drawingTool == Some(tool) then None else Some(tool))
  }

  /** Toggling the same tool twice restores the tool unless another was armed. */
  lemma ToggleToolTwice(st: EditorState, tool: LineKind)
    requires st.drawingTool.None? || st.drawingTool == Some(tool)
    ensures ToggleTool(ToggleTool(st, tool), tool) == st
  {
  }

  /** A click on a line selects it. */
  function Select(st: EditorState, id: Id): EditorState {
    st.(selectedId := Some(id))
  }

  // ---- keyboard ----------------------------------------------------------------

  /** The line rewrite of a key edit on every line with the selected id. */
  function ApplyEditIn(ls: seq<Line>, id: Id, edit: LineEdit): (r: seq<Line>)
    ensures |r| == |ls|
    ensures forall i :: 0 <= i < |ls| ==> r[i] == (if ls[i].id == id then ApplyEdit(ls[i], edit) else ls[i])
  {
    match edit
    case SetExtension(e, v) => UpdateLines(ls, id, (l: Line) => WithExtension(l, e, v))
    case Replace(line) => ReplaceLines(ls, id, line)
  }

  /** The keys acting on the selected `start`/`end` handle's line. */
  function HandleKey(st: EditorState, cfg: Config, key: string, shift: bool): EditorState
    requires History.Valid(st.timeline)
  {
    match st.selectedHandle
    case None => st
    case Some(sh) =>
      match FindLine(st.lines, sh.id)
      case None => st
      case Some(line) =>
        match KeyEdit(line, sh.end, key, shift, cfg.extensionLength)
        case None => st
        case Some(edit) => Commit(st, st.elements, ApplyEditIn(st.lines, line.id, edit))
  }

  /** The window's keydown handler. Its branches are told apart by the key,
      so at most one of them acts: the undo/redo shortcuts, the handle
      keys, Escape, and Delete/Backspace. Keys typed into a text field are
      ignored. */
  function KeyDown(st: EditorState, cfg: Config, key: string, command: bool, shift: bool, inTextField: bool): EditorState
    requires History.Valid(st.timeline)
  {
    if inTextField then st
    else if command && key == "z" then (if shift then Redo(st) else Undo(st))
    else if command && key == "y" then Redo(st)
    else if key == "Escape" then
      st.(drawingTool := None, selectedId := None, selectedHandle := None, interaction := Idle)
    else if key == "Delete" || key == "Backspace" then DeleteSelected(st)
    else HandleKey(st, cfg, key, shift)
  }

  /** A key that is not a handle key leaves the state as it is. */
  lemma HandleKeyIgnoresOtherKeys(st: EditorState, cfg: Config, key: string, shift: bool)
    requires History.Valid(st.timeline)
    requires !(key == "+" || key == "=" || key == "-" || key == "_" || IsArrow(key))
    ensures HandleKey(st, cfg, key, shift) == st
  {
  }

  /** Each handle key pushes exactly one history entry and changes only the
      lines with the handle's id, each by the key's edit of the found line
      (what each key's edit is: `PlusMinus` and the arrow lemmas). */
  lemma HandleKeyEffect(st: EditorState, cfg: Config, key: string, shift: bool)
    requires History.Valid(st.timeline) && st.selectedHandle.Some?
    requires FindLine(st.lines, st.selectedHandle.value.id).Some?
    requires key == "+" || key == "=" || key == "-" || key == "_" || IsArrow(key)
    ensures var r := HandleKey(st, cfg, key, shift);
      var sh := st.selectedHandle.value;
      var line := FindLine(st.lines, sh.id).value;
      var edit := KeyEdit(line, sh.end, key, shift, cfg.extensionLength).value;
      r.timeline == History.Push(st.timeline, Snapshot(st.elements, r.lines))
      && r.elements == st.elements && r.selectedHandle == st.selectedHandle
      && |r.lines| == |st.lines|
      && (forall k :: 0 <= k < |st.lines| ==>
            r.lines[k] == (if st.lines[k].id == sh.id then ApplyEdit(st.lines[k], edit) else st.lines[k]))
  {
    var sh := st.selectedHandle.value;
    var line := FindLine(st.lines, sh.id).value;
    var edit := KeyEdit(line, sh.end, key, shift, cfg.extensionLength).value;
    assert HandleKey(st, cfg, key, shift) == Commit(st, st.elements, ApplyEditIn(st.lines, line.id, edit));
  }

  /** Delete works whenever something is selected, in any gesture state;
      Escape cancels the tool, the selection and the gesture. */
  lemma DeleteAndEscapeKeys(st: EditorState, cfg: Config, command: bool, shift: bool)
    requires History.Valid(st.timeline)
    ensures KeyDown(st, cfg, "Delete", command, shift, false) == DeleteSelected(st)
    ensures KeyDown(st, cfg, "Backspace", command, shift, false) == DeleteSelected(st)
    ensures var r := KeyDown(st, cfg, "Escape", command, shift, false);
      r.drawingTool == None && r.selectedId == None && r.selectedHandle == None && r.interaction == Idle
      && r.elements == st.elements && r.lines == st.lines && r.timeline == st.timeline
  {
  }

  // ---- the invariant -----------------------------------------------------

  // Helpers for the invariant.

  lemma UpdateLinesOk(ls: seq<Line>, id: Id, f: Line -> Line)
    requires forall l :: l in ls ==> LineOk(l)
    requires forall l :: LineOk(l) ==> LineOk(f(l))
    ensures forall l :: l in UpdateLines(ls, id, f) ==> LineOk(l)
  {
    var r := UpdateLines(ls, id, f);
    forall l | l in r
      ensures LineOk(l)
    {
      var i :| 0 <= i < |r| && r[i] == l;
      assert ls[i] in ls;
    }
  }

  lemma UpdateSymbolsOk(els: seq<Symbol>, id: Id, f: Symbol -> Symbol)
    requires forall e :: e in els ==> SymbolOk(e)
    requires forall e :: SymbolOk(e) ==> SymbolOk(f(e))
    ensures forall e :: e in UpdateSymbols(els, id, f) ==> SymbolOk(e)
  {
    var r := UpdateSymbols(els, id, f);
    forall e | e in r
      ensures SymbolOk(e)
    {
      var i :| 0 <= i < |r| && r[i] == e;
      assert els[i] in els;
    }
  }

  lemma CommitValid(st: EditorState, cfg: Config, els: seq<Symbol>, ls: seq<Line>)
    requires Valid(st, cfg) && SceneOk(els, ls)
    ensures Valid(Commit(st, els, ls), cfg)
  {
    History.PushKeepsOk(st.timeline, Snapshot(els, ls));
  }

  lemma RestoreValid(st: EditorState, cfg: Config, t: History.Timeline)
    requires Valid(st, cfg) && History.Valid(t) && History.AllOk(t)
    ensures Valid(Restore(st, t), cfg)
  {
    assert History.Current(t) in t.entries;
  }

  lemma UndoValid(st: EditorState, cfg: Config)
    requires Valid(st, cfg)
    ensures Valid(Undo(st), cfg)
  {
    if History.CanUndo(st.timeline) {
      RestoreValid(st, cfg, History.Undo(st.timeline));
    }
  }

  lemma RedoValid(st: EditorState, cfg: Config)
    requires Valid(st, cfg)
    ensures Valid(Redo(st), cfg)
  {
    if History.CanRedo(st.timeline) {
      RestoreValid(st, cfg, History.Redo(st.timeline));
    }
  }

  lemma DeleteSelectedValid(st: EditorState, cfg: Config)
    requires Valid(st, cfg)
    ensures Valid(DeleteSelected(st), cfg)
  {
    if st.selectedId.Some? {
      CommitValid(st.(selectedId := None, selectedHandle := None), cfg,
                  RemoveSymbols(st.elements, st.selectedId.value), RemoveLines(st.lines, st.selectedId.value));
    }
  }

  lemma ApplyEditInOk(ls: seq<Line>, id: Id, edit: LineEdit)
    requires forall l :: l in ls ==> LineOk(l)
    requires forall l :: l in ls && l.id == id ==> LineOk(ApplyEdit(l, edit))
    ensures forall l :: l in ApplyEditIn(ls, id, edit) ==> LineOk(l)
  {
    var r := ApplyEditIn(ls, id, edit);
    forall l | l in r
      ensures LineOk(l)
    {
      var i :| 0 <= i < |r| && r[i] == l;
      assert ls[i] in ls;
    }
  }

  lemma HandleKeyValid(st: EditorState, cfg: Config, key: string, shift: bool)
    requires Valid(st, cfg)
    ensures Valid(HandleKey(st, cfg, key, shift), cfg)
  {
    if st.selectedHandle.Some? && FindLine(st.lines, st.selectedHandle.value.id).Some? {
      var sh := st.selectedHandle.value;
      var line := FindLine(st.lines, sh.id).value;
      var edit := KeyEdit(line, sh.end, key, shift, cfg.extensionLength);
      if edit.Some? {
        assert line in st.lines;
        KeyEditKeepsLineOk(line, sh.end, key, shift, cfg.extensionLength);
        forall l | l in st.lines && l.id == line.id
          ensures LineOk(ApplyEdit(l, edit.value))
        {
          if edit.value.SetExtension? {
            assert ApplyEdit(l, edit.value) == WithExtension(l, edit.value.end, edit.value.value);
          }
        }
        ApplyEditInOk(st.lines, line.id, edit.value);
        CommitValid(st, cfg, st.elements, ApplyEditIn(st.lines, line.id, edit.value));
      }
    }
  }

  lemma KeyDownValid(st: EditorState, cfg: Config, key: string, command: bool, shift: bool, inField: bool)
    requires Valid(st, cfg)
    ensures Valid(KeyDown(st, cfg, key, command, shift, inField), cfg)
  {
    UndoValid(st, cfg);
    RedoValid(st, cfg);
    DeleteSelectedValid(st, cfg);
    HandleKeyValid(st, cfg, key, shift);
  }

  lemma SetLineEndOk(ls: seq<Line>, id: Id, x: real, y: real)
    requires forall l :: l in ls ==> LineOk(l)
    ensures forall l :: l in SetLineEnd(ls, id, x, y) ==> LineOk(l)
  {
    UpdateLinesOk(ls, id, (l: Line) => l.(x2 := x, y2 := y));
  }

  lemma DragHandleInOk(ls: seq<Line>, id: Id, h: HandleKind, x: real, y: real)
    requires forall l :: l in ls ==> LineOk(l)
    ensures forall l :: l in DragHandleIn(ls, id, h, x, y) ==> LineOk(l)
  {
    UpdateLinesOk(ls, id, (l: Line) => DragHandle(l, h, x, y));
  }

  lemma DraggingValid(st: EditorState, cfg: Config, clientX: real, clientY: real)
    requires Valid(st, cfg) && st.interaction.DraggingSymbol?
    ensures Valid(DragStep(st, clientX, clientY), cfg)
  {
    var i := st.interaction;
    var nx, ny := i.initX + (clientX - i.startX), i.initY + (clientY - i.startY);
    var els := PlaceSymbol(st.elements, i.activeId, nx, ny);
    PlaceSymbolKeepsScene(st.elements, st.lines, i.activeId, nx, ny);
    assert SceneOk(els, st.lines);
    assert DragStep(st, clientX, clientY) == st.(elements := els, interaction := Moved(i));
  }

  lemma DrawingValid(st: EditorState, cfg: Config, x: real, y: real)
    requires Valid(st, cfg) && st.interaction.DrawingLine?
    ensures Valid(DrawStep(st, cfg, x, y), cfg)
  {
    var i := st.interaction;
    var snap := SnapPosition(st.elements, st.lines, st.showBackground, cfg.snapThreshold, cfg.snapOffsetFactor,
                             x, y, Some(Point(i.initial.x1, i.initial.y1)), Some(i.activeId), Some(i.initial.kind));
    SetLineEndOk(st.lines, i.activeId, snap.x, snap.y);
  }

  lemma BodyMoveValid(st: EditorState, cfg: Config, clientX: real, clientY: real)
    requires Valid(st, cfg) && st.interaction.MovingLineBody?
    ensures Valid(BodyStep(st, clientX, clientY), cfg)
  {
    var i := st.interaction;
    UpdateLinesOk(st.lines, i.activeId, (l: Line) => MoveBody(l, i.initial, clientX - i.startX, clientY - i.startY));
  }

  lemma HandleMoveValid(st: EditorState, cfg: Config, x: real, y: real)
    requires Valid(st, cfg) && st.interaction.MovingHandle?
    ensures Valid(HandleStep(st, cfg, x, y), cfg)
  {
    var i := st.interaction;
    var snap := SnapPosition(st.elements, st.lines, st.showBackground, cfg.snapThreshold, cfg.snapOffsetFactor,
                             x, y, Some(HandleAnchor(i.handle, i.initial)), Some(i.activeId), Some(i.initial.kind));
    DragHandleInOk(st.lines, i.activeId, i.handle, snap.x, snap.y);
  }

  lemma MouseMoveValid(st: EditorState, cfg: Config, clientX: real, clientY: real, left: real, top: real)
    requires Valid(st, cfg)
    ensures Valid(MouseMove(st, cfg, clientX, clientY, left, top), cfg)
  {
    var r := MouseMove(st, cfg, clientX, clientY, left, top);
    match st.interaction
    case Idle =>
    case DraggingSymbol(_, _, _, _, _, _) =>
      DraggingValid(st, cfg, clientX, clientY);
      assert r == DragStep(st, clientX, clientY);
    case DrawingLine(_, _, _, _, _) =>
      DrawingValid(st, cfg, clientX - left, clientY - top);
      assert r == DrawStep(st, cfg, clientX - left, clientY - top);
    case MovingLineBody(_, _, _, _, _) =>
      BodyMoveValid(st, cfg, clientX, clientY);
      assert r == BodyStep(st, clientX, clientY);
    case MovingHandle(_, _, _, _, _, _) =>
      HandleMoveValid(st, cfg, clientX - left, clientY - top);
      assert r == HandleStep(st, cfg, clientX - left, clientY - top);
  }

  lemma DropValid(st: EditorState, cfg: Config, t: string, cx: real, cy: real, left: real, top: real, fid: Id)
    requires Valid(st, cfg)
    ensures Valid(Drop(st, t, cx, cy, left, top, fid), cfg)
  {
    if st.drawingTool.None? && SymbolKindOf(t).Some? {
      var els := st.elements + [NewSymbol(fid, SymbolKindOf(t).value, cx - left, cy - top)];
      CommitValid(st.(selectedId := Some(fid)), cfg, els, st.lines);
    }
  }

  lemma MouseUpValid(st: EditorState, cfg: Config)
    requires Valid(st, cfg)
    ensures Valid(MouseUp(st), cfg)
  {
    History.PushKeepsOk(st.timeline, Snapshot(st.elements, st.lines));
  }

  lemma TextEditsValid(st: EditorState, cfg: Config, id: Id, text: string, style: FillStyle, mm: Option<real>)
    requires Valid(st, cfg)
    ensures Valid(TextChange(st, id, text), cfg)
    ensures Valid(LineTextChange(st, id, text), cfg)
    ensures Valid(UpdateFillStyle(st, style), cfg)
    ensures Valid(MeasurementValueChange(st, id, mm), cfg)
  {
    UpdateSymbolsOk(st.elements, id, (e: Symbol) => e.(text := Some(text)));
    CommitValid(st, cfg, SetSymbolText(st.elements, id, text), st.lines);
    UpdateLinesOk(st.lines, id, (l: Line) => l.(text := text));
    CommitValid(st, cfg, st.elements, SetLineText(st.lines, id, text));
    if st.selectedId.Some? {
      UpdateLinesOk(st.lines, st.selectedId.value, (l: Line) => l.(fillStyle := style));
      CommitValid(st, cfg, st.elements, SetFillStyle(st.lines, st.selectedId.value, style));
    }
    UpdateLinesOk(st.lines, id, (l: Line) => l.(manualLengthMm := mm));
    CommitValid(st, cfg, st.elements, SetManualLength(st.lines, id, mm));
  }

  lemma MeasurementInputValid(st: EditorState, cfg: Config, id: Id, text: string)
    requires Valid(st, cfg)
    ensures Valid(MeasurementInput(st, id, text), cfg)
  {
    var o := InputChange(text, st.unit);
    if o.Cleared? {
      TextEditsValid(st, cfg, id, text, NoFill, None);
    } else if o.Entered? {
      TextEditsValid(st, cfg, id, text, NoFill, Some(o.mm));
    }
  }

  lemma ClearCanvasValid(st: EditorState, cfg: Config)
    requires Valid(st, cfg)
    ensures Valid(ClearCanvas(st), cfg)
  {
    CommitValid(st.(selectedId := None, selectedHandle := None), cfg, [], []);
  }

  /** Every event keeps the invariant. */
  lemma MouseDownValid(st: EditorState, cfg: Config, clientX: real, clientY: real, left: real, top: real, fid: Id)
    requires Valid(st, cfg)
    ensures Valid(MouseDown(st, cfg, clientX, clientY, left, top, fid), cfg)
  {
    var snap := SnapPosition(st.elements, st.lines, st.showBackground, cfg.snapThreshold, cfg.snapOffsetFactor,
                             clientX - left, clientY - top, None, None, st.drawingTool);
    var r := MouseDown(st, cfg, clientX, clientY, left, top, fid);
    if st.drawingTool.Some? {
      var nl := NewLine(fid, st.drawingTool.value, snap.x, snap.y, cfg.extensionLength);
      assert r.lines == st.lines + [nl];
      assert forall l :: l in st.lines + [nl] ==> LineOk(l);
    }
    assert r.elements == st.elements && r.timeline == st.timeline;
  }
}
