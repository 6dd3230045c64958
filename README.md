# Symbol Studio editor core, in Dafny

This project models the editing core of Symbol Studio's `App` component
(`symbol-studio/src/App.jsx`). Symbol Studio is a floor-plan annotation
editor. The user drops plumbing and electrical symbols onto a 210 mm
perspective room drawing and draws measurements, annotations, simple lines,
boxes and circles. Every point a line gets is snapped to nearby symbols,
lines and the room outline. Edits are recorded in a linear undo/redo
history.

The project has these modules:

- `Geometry` (geometry.dfy): the fixed mm/px scale, the units, the wall/floor
  zone classifier `getZone`, and `distToSegment`.
- `Scene` (scene.dfy): symbols, lines, the symbol catalog, and the id-keyed
  list rewrites that every handler uses.
- `History` (history.dfy): the snapshot list and its cursor, with `addToHistory`, `undo` and
  `redo`.
- `Snap` (snap.dfy): `getSnapPosition`. It is specified as a fold (`Run`) over
  the snap candidates in the order the code visits them. Each candidate
  either returns a point at once or updates the best match on each axis.
- `Input` (input.dfy): the measurement label's keystroke filter `^\d*\.?\d*$`.
- `Editing` (editing.dfy): handle drags, body moves and the keyboard edits of
  a selected end point.
- `Editor` (editor.dfy): the whole editor state as a value. Each event handler
  is a transition on it. The handler properties and the invariant are proved here.
- `StudioApp` (studio.dfy): the class `Studio`, whose fields are the
  component's state variables. Each handler is a method that updates them in
  place and is proved to perform the `Editor` transition of the same name
  and to keep the invariant. `getSnapPosition` is the nested loop it is in
  the source: one loop per candidate group, each proved equal to `Run`.

Coordinates and lengths are exact reals. `Math.hypot(a, b) < T` is modelled
as `T > 0 && a*a + b*b < T*T`, which is the same test for every `T`. A
zero-length segment makes `distToSegment` return a bare number, so
`res.dist` is undefined and never passes the threshold test. The model
represents that case as the `Degenerate` result, which never snaps.

Behaviour of the code worth knowing:

- The left wall boundary is `210 - 1.555 x`. At x = 45 it gives 140.025, not
  140, so the zones step at x = 45: (44.99, 140.01) is `left` and
  (45, 140.01) is `floor` (`LeftBoundaryStepAt45`). The zones are therefore
  not continuous at that threshold.
- The 4 canvas edges are always snap segments. The 5 room-outline segments
  are only added while the background is shown.
- `selectedHandle` is not cleared when a drawing starts, when a symbol is
  dropped or when a line is selected by a click. It is cleared only by
  undo/redo, deletion, clearing, Escape, a click on empty canvas, the
  symbol and body mouse-downs, and a press on a corner or side handle.
- A symbol or handle mouse-down with a tool armed returns before it stops
  propagation. The canvas mouse-down then runs and starts a drawing
  (`PressSymbol`, `PressHandle`). A box or circle body stops propagation
  first.

## Model

| member | source | states |
|---|---|---|
| Geometry.MmToPx | symbol-studio/src/App.jsx:36-39 | converting millimetres to pixels and back gives the original length |
| Geometry.PxToMmRoundTrip | symbol-studio/src/App.jsx:36-39 | converting pixels to millimetres and back gives the original length |
| Geometry.Factor | symbol-studio/src/App.jsx:41-45 | every unit's factor is positive, so lengths can be divided by it |
| Geometry.GetZone | symbol-studio/src/App.jsx:123-134 | left only for x < 45 and right only for x > 165; in the band 45..165, front iff y < 140 and floor iff y >= 140; left of 45, left iff above the left wall line; right of 165, right iff above the right wall line |
| Geometry.FloorIsClosedDownwards | symbol-studio/src/App.jsx:123-134 | a point below a floor point in the same column is floor as well |
| Geometry.LeftBoundaryStepAt45 | symbol-studio/src/App.jsx:124-132 | the left wall line meets x = 45 at 140.025, so the zone changes from left to floor between x = 44.99 and x = 45 at y = 140.01 |
| Geometry.DropAt100IsLeftWall | symbol-studio/src/App.jsx:36-39 | 100 px is 26.25 mm, and a symbol dropped at pixel (100, 100) is on the left wall |
| Geometry.ClampUnit | symbol-studio/src/App.jsx:140 | the clamped parameter lies in [0, 1] and equals the input when the input already does |
| Geometry.ProjectionParam | symbol-studio/src/App.jsx:139-140 | the projection parameter of a non-degenerate segment lies in [0, 1] |
| Geometry.DistToSegment | symbol-studio/src/App.jsx:136-144 | no projection iff the segment has zero length; otherwise the projected point is a point of the segment (at some parameter in [0, 1]), inside its bounding box, and the squared distance is the distance to that point |
| Geometry.HypotBound | symbol-studio/src/App.jsx:925-927 | a point within Euclidean distance T is within T on each axis |
| Geometry.DistSqZero | symbol-studio/src/App.jsx:136-144 | squared distance is non-negative and zero exactly at the same point |
| Geometry.LerpBetween | symbol-studio/src/App.jsx:141-142 | a point on the segment lies between its end points on each axis |
| Geometry.ProjectionIsNearest | symbol-studio/src/App.jsx:136-144 | the clamped projection is no farther from the pointer than any point of the segment |
| Geometry.ProjectionAlong | symbol-studio/src/App.jsx:139-143 | the projection's squared distance is the distance to the segment point at the clamped parameter |
| Scene.SymbolKindOf | symbol-studio/src/App.jsx:220-227 | a catalog lookup that succeeds returns the kind whose id was asked for |
| Scene.CatalogRoundTrip | symbol-studio/src/App.jsx:220-227 | every catalog kind is found again by its own id |
| Scene.BaseHeightMm | symbol-studio/src/App.jsx:220-227 | every catalog height is positive |
| Scene.AspectRatio | symbol-studio/src/App.jsx:220-227 | every catalog aspect ratio is positive |
| Scene.NewSymbol | symbol-studio/src/App.jsx:1087-1104 | the new symbol has the given id, kind and position, the zone under its position, and a positive size; a text label is 120 by 60 with the default text, any other kind is its catalog height in pixels by height times aspect ratio |
| Scene.NewLine | symbol-studio/src/App.jsx:1130-1143 | a new line has zero length at the press point, both extensions at the configured length, no manual length, no fill and the default text |
| Scene.FindLine | symbol-studio/src/App.jsx:1207 | no result iff no line has the id; a result is the first line of the list with that id |
| Scene.FindSymbol | symbol-studio/src/App.jsx:1164 | no result iff no symbol has the id; a result is the first symbol of the list with that id |
| Scene.RemoveLines | symbol-studio/src/App.jsx:1372 | a line is kept iff it was there and has another id |
| Scene.RemoveSymbols | symbol-studio/src/App.jsx:1371 | a symbol is kept iff it was there and has another id |
| Scene.FilterOutAppend | symbol-studio/src/App.jsx:1371-1372 | filtering a concatenation is filtering each part, in the same order |
| Scene.FilterOutSingle | symbol-studio/src/App.jsx:1371-1372 | one item is dropped when it matches and kept otherwise |
| Scene.FilterOutNothing | symbol-studio/src/App.jsx:1371-1372 | a filter that matches nothing returns the list unchanged, duplicates included |
| Scene.RemoveLinesKeepsOrder | symbol-studio/src/App.jsx:1372 | removing lines keeps the survivors in their order: cut anywhere, the front's survivors come first; with nothing to remove the list is unchanged |
| Scene.RemoveSymbolsKeepsOrder | symbol-studio/src/App.jsx:1371 | the same for symbols |
| Scene.SetSymbolText | symbol-studio/src/App.jsx:1180-1182 | only the symbols with the id get the new text; all others are unchanged |
| Scene.PlaceSymbol | symbol-studio/src/App.jsx:1263-1272 | only the symbols with the id move, and they get the zone of their new position |
| Scene.SetLineText | symbol-studio/src/App.jsx:1188-1190 | only the lines with the id get the new text |
| Scene.SetFillStyle | symbol-studio/src/App.jsx:1197-1199 | only the lines with the id get the new fill style |
| Scene.SetManualLength | symbol-studio/src/App.jsx:1362-1364 | only the lines with the id get the new manual length |
| Scene.SetLineEnd | symbol-studio/src/App.jsx:1285-1287 | only the lines with the id get the new end point |
| Scene.ReplaceLines | symbol-studio/src/App.jsx:1489 | the lines with the id are replaced by the edited copy; all others are unchanged |
| Scene.PlaceSymbolKeepsScene | symbol-studio/src/App.jsx:1263-1272 | moving a symbol keeps every symbol's zone consistent with its position |
| History.Push | symbol-studio/src/App.jsx:784-792 | a push keeps the entries up to the cursor, appends the snapshot, puts the cursor on it, and leaves nothing to redo |
| History.Undo | symbol-studio/src/App.jsx:794-803 | the cursor moves back one step when it can and otherwise nothing changes; the entries are never touched |
| History.Redo | symbol-studio/src/App.jsx:805-814 | the cursor moves forward one step when it can and otherwise nothing changes; the entries are never touched |
| History.RedoAfterPushIsNoOp | symbol-studio/src/App.jsx:784-814 | a redo right after a push changes nothing |
| History.UndoAfterPush | symbol-studio/src/App.jsx:784-803 | an undo right after a push shows the entry that was current before the push |
| History.RedoUndoes | symbol-studio/src/App.jsx:794-814 | redo after undo restores the same history position |
| History.UndoRedoes | symbol-studio/src/App.jsx:794-814 | undo after redo restores the same history position |
| History.PushKeepsOk | symbol-studio/src/App.jsx:784-792 | pushing a consistent scene keeps every stored snapshot consistent |
| Snap.TrySnapX | symbol-studio/src/App.jsx:906-913 | the best x distance becomes the smaller of the old one and the candidate's; the match changes iff the candidate is strictly closer (a tie keeps the earlier match), and then to the candidate; y is left alone |
| Snap.TrySnapY | symbol-studio/src/App.jsx:914-921 | the best y distance becomes the smaller of the old one and the candidate's; the match changes iff the candidate is strictly closer (a tie keeps the earlier match), and then to the candidate; x is left alone |
| Snap.SymbolOffsets | symbol-studio/src/App.jsx:934-961 | a symbol offers 5 points for a measurement and 9 otherwise, all point candidates, with its centre first |
| Snap.LinePoints | symbol-studio/src/App.jsx:969-1003 | a line offers only point candidates |
| Snap.LineSegments | symbol-studio/src/App.jsx:1005-1018 | a line's segments are only axis candidates |
| Snap.BackgroundSegments | symbol-studio/src/App.jsx:1026-1041 | 9 background segments with the background shown, 4 without it |
| Snap.BackdropTargets | symbol-studio/src/App.jsx:1043-1061 | one background candidate per background segment, in order |
| Snap.StepKeepsOk | symbol-studio/src/App.jsx:906-929 | a point hit is within the threshold, and axis matches stay within the threshold |
| Snap.RunKeepsOk | symbol-studio/src/App.jsx:934-1061 | the same holds after any sequence of candidates |
| Snap.SnapWithinThreshold | symbol-studio/src/App.jsx:895-1064 | a snapped position moves each coordinate by less than the threshold, and only when the threshold is positive; an unsnapped result is exactly the raw position |
| Snap.HitIsOffered | symbol-studio/src/App.jsx:923-929 | a point hit is a point that one of the candidates offers, within the threshold |
| Snap.FirstPointWins | symbol-studio/src/App.jsx:923-929 | the first candidate point within reach is returned, when no earlier candidate offers one |
| Snap.FirstSymbolCentreWins | symbol-studio/src/App.jsx:934-961 | when the first symbol's centre is within reach, it is the answer, whatever else is on the canvas |
| Snap.ExcludedLineSkipped | symbol-studio/src/App.jsx:963-964 | skipping the excluded id is the same as scanning the list with that line removed |
| Snap.SnapIgnoresExcluded | symbol-studio/src/App.jsx:963-964 | the snap result does not depend on the excluded line |
| Snap.UpdateThenRemove | symbol-studio/src/App.jsx:963-964 | rewriting the lines with an id, then removing that id, is the same as removing it |
| Snap.DrawnLineIgnored | symbol-studio/src/App.jsx:1283-1287 | moving the free end of the line being drawn does not change later snaps of the same gesture |
| Snap.StepSegmentBound | symbol-studio/src/App.jsx:1005-1018 | after a near segment's step, each axis it feeds has a best distance no larger than the projection's |
| Snap.RunSegmentBound | symbol-studio/src/App.jsx:1005-1061 | without a point hit, each axis's best distance is at most that of every near segment projection fed to it anywhere in the scan |
| Snap.SegmentBound | symbol-studio/src/App.jsx:1005-1061 | without a point hit, the snapped position is on each axis at least as close to the pointer as the projection onto every near drawn or background segment that feeds that axis |
| Snap.RunAppend | symbol-studio/src/App.jsx:934-1061 | scanning two candidate groups in a row is scanning the second from where the first left off, unless the first returned a point |
| Snap.RunShrinks | symbol-studio/src/App.jsx:906-921 | the best distance on each axis only shrinks during a scan |
| Snap.AnchorThenRest | symbol-studio/src/App.jsx:1021-1024 | after the anchor's step, each axis match is at least as close to the pointer as the anchor |
| Snap.AnchorAfter | symbol-studio/src/App.jsx:1021-1024 | the same holds with the symbol and line candidates scanned first |
| Snap.AnchorBound | symbol-studio/src/App.jsx:1021-1024 | without a point hit, the snapped position is at least as close to the pointer on each axis as the anchor |
| Input.MatchesAfterDot | symbol-studio/src/App.jsx:389 | after the dot, the filter accepts exactly digit strings |
| Input.MatchesSkipsDigits | symbol-studio/src/App.jsx:389 | leading digits do not change the filter's answer |
| Input.ShapeSplit | symbol-studio/src/App.jsx:389 | accepted text is digits, then optionally a dot and more digits |
| Input.MatchedHasShape | symbol-studio/src/App.jsx:389 | text the filter accepts has the decimal shape |
| Input.ShapeIsMatched | symbol-studio/src/App.jsx:389 | text of the decimal shape is accepted by the filter |
| Input.MatchesIsShape | symbol-studio/src/App.jsx:389 | the filter accepts exactly the strings of the form digits, optional dot, digits |
| Input.DotIndex | symbol-studio/src/App.jsx:394 | the index of the first dot, or the length when there is none |
| Input.DecimalValue | symbol-studio/src/App.jsx:394 | an accepted number is never negative |
| Input.InputChange | symbol-studio/src/App.jsx:387-397 | rejected iff the text is not of the decimal shape; cleared iff it is empty or a lone dot; an entered length is never negative |
| Input.EnteredShowsTyped | symbol-studio/src/App.jsx:394-395 | the stored millimetres, converted back to the display unit, are the typed number |
| Input.AcceptedHasDigit | symbol-studio/src/App.jsx:391-395 | accepted text other than the empty string and a lone dot has a digit, so it parses to a number |
| Input.TypedDecimal | symbol-studio/src/App.jsx:387-397 | typing 12.5 in millimetres stores 12.5 mm |
| Input.TypedCentimetres | symbol-studio/src/App.jsx:387-397 | typing 1.5 in centimetres stores 15 mm |
| Input.TypedRejected | symbol-studio/src/App.jsx:389 | a second dot or a minus sign is rejected |
| Editing.Opposite | symbol-studio/src/App.jsx:1310-1320 | no handle is its own opposite |
| Editing.OppositeInvolution | symbol-studio/src/App.jsx:1310-1320 | the opposite of the opposite handle is the handle itself |
| Editing.HandleAnchor | symbol-studio/src/App.jsx:1307-1321 | a handle drag is anchored at the opposite handle of the line as it was when the drag began |
| Editing.DragHandleEffect | symbol-studio/src/App.jsx:1325-1343 | a corner or end handle lands on the pointer; a side handle changes only its own axis; the opposite handle stays put; nothing but the four coordinates changes |
| Editing.DragOntoAnchor | symbol-studio/src/App.jsx:1307-1343 | dragging a corner onto its anchor makes it meet the opposite corner |
| Editing.MoveBody | symbol-studio/src/App.jsx:1290-1302 | a body move keeps the line's extent on both axes and changes nothing but the coordinates |
| Editing.MoveBodyForgetsEarlierMoves | symbol-studio/src/App.jsx:1290-1302 | each move is computed from the line at gesture start, so only the latest pointer delta counts |
| Editing.WithExtension | symbol-studio/src/App.jsx:1417-1419 | the chosen end's extension is set and the other end's is kept |
| Editing.KeyEdit | symbol-studio/src/App.jsx:1411-1493 | a key edits the line iff it is one of + = - _ or an arrow |
| Editing.PlusMinus | symbol-studio/src/App.jsx:1415-1432 | + and = add 1 to the current or default extension; - and _ take 1 off, stopping at 0 |
| Editing.HorizontalArrows | symbol-studio/src/App.jsx:1447-1454 | on a horizontal line Up/Down resize the extension by the step, not below 0, and Left/Right slide the end point along x |
| Editing.VerticalArrows | symbol-studio/src/App.jsx:1455-1462 | on a vertical line Left/Right resize the extension and Up/Down slide the end point along y |
| Editing.DiagonalArrows | symbol-studio/src/App.jsx:1463-1469 | on a diagonal line every arrow slides the end point |
| Editing.SlidesStayOrtho | symbol-studio/src/App.jsx:1480-1488 | a slide moves only the selected end, and only along the line's own axis on horizontal and vertical lines |
| Editing.ShortLineIsHorizontal | symbol-studio/src/App.jsx:1439-1450 | a line short in both directions counts as horizontal: Up resizes it and Left slides its end |
| Editing.KeyEditKeepsLineOk | symbol-studio/src/App.jsx:1415-1492 | keyboard edits never make an extension negative |
| Editor.InitialValid | symbol-studio/src/App.jsx:730-763 | the initial state satisfies the editor invariant |
| Editor.Commit | symbol-studio/src/App.jsx:784-792 | after a commit the scene is the new lists and the current history entry records them |
| Editor.UndoRedoEffects | symbol-studio/src/App.jsx:794-814 | at the ends of the history undo and redo change nothing; otherwise they move the cursor by one, show that entry, and clear the selection and the active handle |
| Editor.RedoAfterUndo | symbol-studio/src/App.jsx:794-814 | undo then redo comes back to the same position and shows the snapshot stored there |
| Editor.DropEffect | symbol-studio/src/App.jsx:1073-1110 | with no tool and a known id, exactly one symbol is appended at the drop point, in its zone, selected, with one history entry; otherwise nothing changes |
| Editor.MouseDownEffect | symbol-studio/src/App.jsx:1112-1159 | with a tool armed, a zero-length line of the tool's kind is appended within the threshold of the press point and starts a drawing gesture, with no history entry; without a tool, only the selection is cleared |
| Editor.MoveBodyIn | symbol-studio/src/App.jsx:1292-1301 | only the lines with the id are moved |
| Editor.DragHandleIn | symbol-studio/src/App.jsx:1325-1343 | only the lines with the id have their handle dragged |
| Editor.Moved | symbol-studio/src/App.jsx:1251-1253 | an active gesture is marked as moved and keeps its id; idle stays idle |
| Editor.MouseMoveEffect | symbol-studio/src/App.jsx:1247-1302 | a move never touches the history, the selection or the tool; a symbol drag puts the symbol at start plus delta in the zone found there; a body move translates the line rigidly with no snapping |
| Editor.DrawingFollowsPointer | symbol-studio/src/App.jsx:1274-1288 | while drawing, the free end is within the threshold of the pointer and the start point and the other lines stay put |
| Editor.HandleDragEffect | symbol-studio/src/App.jsx:1304-1344 | a handle drag changes only the dragged handle's coordinates of the lines with the id; the opposite handle and all other lines stay put |
| Editor.DragHandleInEffect | symbol-studio/src/App.jsx:1325-1343 | the same per-line facts over a whole list |
| Editor.MouseUpEffect | symbol-studio/src/App.jsx:1347-1359 | one history entry iff the gesture moved; the tool is disarmed iff tools are not sticky and a line was drawn; the gesture always ends; nothing else changes |
| Editor.ClickLeavesUnrecordedLine | symbol-studio/src/App.jsx:1129-1155 | a click with a tool armed and no movement leaves a zero-length line that no history entry records |
| Editor.MeasurementInputEffect | symbol-studio/src/App.jsx:387-397 | a rejected keystroke changes nothing; an accepted one sets or clears the manual length of the lines with the id, never negative, and pushes one entry |
| Editor.DeleteSelectedEffect | symbol-studio/src/App.jsx:1369-1379 | after a delete nothing with the selected id remains, everything else is kept in its original order, a list without the id is unchanged, the selection is cleared, and one entry is pushed |
| Editor.ClearThenUndo | symbol-studio/src/App.jsx:1381-1389 | clearing empties and records the scene, and one undo brings the previous scene back |
| Editor.ToggleTool | symbol-studio/src/App.jsx:1514-1520 | the armed tool is disarmed and any other is armed; nothing else changes |
| Editor.ToggleToolTwice | symbol-studio/src/App.jsx:1514-1520 | toggling the same tool twice restores the previous tool state |
| Editor.ApplyEditIn | symbol-studio/src/App.jsx:1419-1489 | a key edit is applied to the lines with the id and to no other line |
| Editor.HandleKeyIgnoresOtherKeys | symbol-studio/src/App.jsx:1411-1493 | a key that is not a handle key leaves the state unchanged |
| Editor.HandleKeyEffect | symbol-studio/src/App.jsx:1411-1493 | each handle key pushes exactly one entry and changes only the lines with the handle's id, each by the key's edit |
| Editor.DeleteAndEscapeKeys | symbol-studio/src/App.jsx:1497-1506 | Delete and Backspace delete the selection in any gesture state; Escape disarms the tool, clears the selection and ends the gesture |
| Editor.CommitValid | symbol-studio/src/App.jsx:784-792 | committing a consistent scene keeps the invariant |
| Editor.UndoValid | symbol-studio/src/App.jsx:794-803 | undo keeps the invariant |
| Editor.RedoValid | symbol-studio/src/App.jsx:805-814 | redo keeps the invariant |
| Editor.DeleteSelectedValid | symbol-studio/src/App.jsx:1369-1379 | delete keeps the invariant |
| Editor.HandleKeyValid | symbol-studio/src/App.jsx:1411-1493 | handle keys keep the invariant |
| Editor.KeyDownValid | symbol-studio/src/App.jsx:1392-1508 | every key keeps the invariant |
| Editor.MouseMoveValid | symbol-studio/src/App.jsx:1247-1345 | every pointer move keeps the invariant |
| Editor.DropValid | symbol-studio/src/App.jsx:1073-1110 | a drop keeps the invariant |
| Editor.MouseUpValid | symbol-studio/src/App.jsx:1347-1359 | mouse-up keeps the invariant |
| Editor.TextEditsValid | symbol-studio/src/App.jsx:1179-1202 | text, fill and manual-length edits keep the invariant |
| Editor.MeasurementInputValid | symbol-studio/src/App.jsx:387-397 | a measurement keystroke keeps the invariant |
| Editor.ClearCanvasValid | symbol-studio/src/App.jsx:1381-1389 | clearing keeps the invariant |
| Editor.MouseDownValid | symbol-studio/src/App.jsx:1112-1159 | a canvas press keeps the invariant |
| StudioApp.Studio.constructor | symbol-studio/src/App.jsx:730-763 | the component starts with an empty scene, one empty history entry, nothing selected, inches, background shown, sticky tools, and no gesture |
| StudioApp.Studio.GetSnapPosition | symbol-studio/src/App.jsx:895-1064 | the loop returns the snap position the candidate fold specifies |
| StudioApp.Studio.AddToHistory | symbol-studio/src/App.jsx:784-792 | the history fields become the pushed timeline |
| StudioApp.Studio.Undo | symbol-studio/src/App.jsx:794-803 | performs the undo transition and keeps the invariant |
| StudioApp.Studio.Redo | symbol-studio/src/App.jsx:805-814 | performs the redo transition and keeps the invariant |
| StudioApp.Studio.Drop | symbol-studio/src/App.jsx:1073-1110 | performs the drop transition and keeps the invariant |
| StudioApp.Studio.MouseDown | symbol-studio/src/App.jsx:1112-1159 | performs the canvas press transition and keeps the invariant |
| StudioApp.Studio.SymbolMouseDown | symbol-studio/src/App.jsx:1161-1177 | performs the symbol press transition: the symbol is selected and a drag begins |
| StudioApp.Studio.HandleMouseDown | symbol-studio/src/App.jsx:1204-1228 | performs the handle press transition: start and end handles become the keyboard's target |
| StudioApp.Studio.PressSymbol | symbol-studio/src/App.jsx:326 | a symbol press starts a drag without a tool, and falls through to the canvas press with one |
| StudioApp.Studio.PressHandle | symbol-studio/src/App.jsx:1940-1972 | a handle press starts a handle drag without a tool, and falls through to the canvas press with one |
| StudioApp.Studio.BoxMove | symbol-studio/src/App.jsx:1230-1245 | performs the body press transition |
| StudioApp.Studio.MouseMove | symbol-studio/src/App.jsx:1247-1345 | performs the pointer-move transition and keeps the invariant |
| StudioApp.Studio.HandleMove | symbol-studio/src/App.jsx:1304-1344 | the handle-drag branch of a pointer move |
| StudioApp.Studio.DragSymbol | symbol-studio/src/App.jsx:1261-1273 | the symbol-drag branch |
| StudioApp.Studio.DrawLine | symbol-studio/src/App.jsx:1275-1288 | the drawing branch |
| StudioApp.Studio.MoveLineBody | symbol-studio/src/App.jsx:1290-1302 | the body-move branch |
| StudioApp.Studio.MoveHandle | symbol-studio/src/App.jsx:1304-1344 | the handle-drag update of the lines |
| StudioApp.Studio.MouseUp | symbol-studio/src/App.jsx:1347-1359 | performs the mouse-up transition and keeps the invariant |
| StudioApp.Studio.TextChange | symbol-studio/src/App.jsx:1179-1185 | performs the symbol text edit and records it |
| StudioApp.Studio.LineTextChange | symbol-studio/src/App.jsx:1187-1193 | performs the line text edit and records it |
| StudioApp.Studio.UpdateFillStyle | symbol-studio/src/App.jsx:1195-1202 | sets the fill of the selected line and records it; nothing happens without a selection |
| StudioApp.Studio.MeasurementValueChange | symbol-studio/src/App.jsx:1361-1367 | sets the manual length and records it |
| StudioApp.Studio.MeasurementInput | symbol-studio/src/App.jsx:387-397 | a filtered keystroke in a measurement label reaches the manual-length handler |
| StudioApp.Studio.DeleteSelected | symbol-studio/src/App.jsx:1369-1379 | performs the delete transition and keeps the invariant |
| StudioApp.Studio.ClearCanvas | symbol-studio/src/App.jsx:1381-1389 | performs the confirmed clear and keeps the invariant |
| StudioApp.Studio.ToggleTool | symbol-studio/src/App.jsx:1514-1520 | performs the tool toggle |
| StudioApp.Studio.Select | symbol-studio/src/App.jsx:1877 | a click on a line selects it |
| StudioApp.Studio.ToggleSticky | symbol-studio/src/App.jsx:1587 | flips only the sticky-tools flag |
| StudioApp.Studio.ToggleBackground | symbol-studio/src/App.jsx:1790 | flips only the background flag |
| StudioApp.Studio.SetUnit | symbol-studio/src/App.jsx:1705 | changes only the unit |
| StudioApp.Studio.HandleKey | symbol-studio/src/App.jsx:1411-1493 | performs the handle-key transition and keeps the invariant |
| StudioApp.Studio.KeyDown | symbol-studio/src/App.jsx:1392-1508 | performs the keydown transition and keeps the invariant |
| StudioApp.Studio.Shortcut | symbol-studio/src/App.jsx:1396-1408 | Ctrl/Cmd+Z undoes, with Shift it redoes, Ctrl/Cmd+Y redoes; other keys change nothing here |
| StudioApp.Studio.OtherKeys | symbol-studio/src/App.jsx:1411-1506 | the handle keys, Escape and Delete/Backspace perform their transitions |
| StudioApp.Studio.Escape | symbol-studio/src/App.jsx:1497-1503 | Escape disarms the tool, clears the selection and the handle, and ends the gesture |
| StudioApp.ScanPoints | symbol-studio/src/App.jsx:923-929 | the point loop computes the fold over its points and returns at the first hit |
| StudioApp.SnapToSegment | symbol-studio/src/App.jsx:1005-1018 | one segment's axis snaps are its step in the fold |
| StudioApp.ScanSegments | symbol-studio/src/App.jsx:1005-1018 | the segment loop computes the fold over its segments, which never returns early |
| StudioApp.ScanSymbols | symbol-studio/src/App.jsx:934-961 | the symbol loop computes the fold over every symbol's offset points |
| StudioApp.ScanLines | symbol-studio/src/App.jsx:963-1019 | the line loop computes the fold over every line but the excluded one, points before segments |
| StudioApp.ScanBackdrop | symbol-studio/src/App.jsx:1043-1061 | the background loop computes the fold over the background segments |

## Left out

- Rendering and markup: the canvas, symbols, labels, handles, sidebar and perspective transforms produce UI only.
- The configuration panel, the password dialog and `generateTransformString`: UI configuration and CSS strings. The snap threshold, offset factor and extension length are read-only constants of `Studio`.
- Export and clipboard (PDF and image capture): asynchronous calls into foreign libraries.
- Loading scripts from a CDN: DOM input/output.
- `getNumericValue` and the label display formatting: IEEE float-to-string behaviour.
- `intersectVert`: never called.
- Floating point: all arithmetic is on exact reals. `Math.hypot` is compared through squares, and the 0.1 ortho tolerance is kept literally.
- React state batching and stale closures: each handler is one atomic transition on the current state.
- `crypto.randomUUID`: ids are a fresh-id parameter, with no uniqueness assumed.
- `clearCanvas`: the `confirm` dialog is not modelled; `ClearCanvas` is the branch taken after confirmation.
- The `canvasRef` null checks and `getBoundingClientRect`: the canvas offset is the `left`/`top` parameters.
- Browser event plumbing: `preventDefault`, and the key handler's text-field check, which becomes an `inTextField` flag.
- A symbol's `rotation` field: always 0 and never read by the core.
- Label components' local `isEditing`/`inputValue` state: display only.
- Input.DecimalValue: the typed number is the exact decimal value of the text, not `parseFloat`'s nearest double.
- Editor.HandleKeyEffect: does not restate what each key's edit is; `PlusMinus`, `HorizontalArrows`, `VerticalArrows` and `DiagonalArrows` state that per key.
