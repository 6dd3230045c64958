/** `getSnapPosition` as a specification: the candidate targets in the order
    the program visits them, and a fold over them that keeps the closest
    axis candidate per axis and stops at the first point within reach. */
module Snap {
  import opened Options
  import opened Geometry
  import opened Scene

  /** The pointer position and the snap threshold (`SNAP_THRESH`). */
  datatype Probe = Probe(rawX: real, rawY: real, threshold: real)

  /** One candidate, in visiting order:
      - `PointAt`: a point snap (`tryPointSnap`), which returns on a hit;
      - `Edge`: a drawn line's segment; its projection feeds the axis snaps;
      - `Anchor`: the gesture's anchor, tried on both axes;
      - `Backdrop`: a background segment: near it, its end points are point
        snaps, then its projection feeds the axis snaps. */
  datatype Target =
    | PointAt(x: real, y: real)
    | Edge(seg: Segment)
    | Anchor(x: real, y: real)
    | Backdrop(seg: Segment)

  /** The mutable locals `bestX`, `bestY`, `minDistX`, `minDistY`, `snapped`. */
  datatype Axes = Axes(bestX: real, bestY: real, minDistX: real, minDistY: real, snapped: bool)

  /** Either a point snap returned early, or the scan went on with these axes. */
  datatype Outcome = Hit(x: real, y: real) | Open(axes: Axes)

  /** The object `getSnapPosition` returns. */
  datatype SnapResult = SnapResult(x: real, y: real, snapped: bool)

  function Start(p: Probe): Axes {
    Axes(p.rawX, p.rawY, p.threshold, p.threshold, false)
  }

  /** `trySnapX`: take v when it is strictly closer than the best so far;
      a tie keeps the earlier match. */
  function TrySnapX(p: Probe, a: Axes, v: real): (r: Axes)
    ensures r.minDistX <= a.minDistX && r.minDistY == a.minDistY && r.bestY == a.bestY
    ensures r.minDistX <= Abs(p.rawX - v)
    ensures r.minDistX == Min(a.minDistX, Abs(p.rawX - v))
    ensures r == a <==> a.minDistX <= Abs(p.rawX - v)
    ensures r != a ==> r.bestX == v && r.snapped
  {
    var d := Abs(p.rawX - v);
    if d < a.minDistX then a.(minDistX := d, bestX := v, snapped := true) else a
  }

  /** `trySnapY`. */
  function TrySnapY(p: Probe, a: Axes, v: real): (r: Axes)
    ensures r.minDistY <= a.minDistY && r.minDistX == a.minDistX && r.bestX == a.bestX
    ensures r.minDistY <= Abs(p.rawY - v)
    ensures r.minDistY == Min(a.minDistY, Abs(p.rawY - v))
    ensures r == a <==> a.minDistY <= Abs(p.rawY - v)
    ensures r != a ==> r.bestY == v && r.snapped
  {
    var d := Abs(p.rawY - v);
    if d < a.minDistY then a.(minDistY := d, bestY := v, snapped := true) else a
  }

  /** `Math.hypot(rawX - tx, rawY - ty) < SNAP_THRESH`. */
  predicate PointHits(p: Probe, tx: real, ty: real) {
    HypotBelow(p.rawX - tx, p.rawY - ty, p.threshold)
  }

  /** `res.dist < SNAP_THRESH`; false for a zero-length segment, whose
      result has no `dist`. */
  predicate Near(p: Probe, res: SegmentDistance) {
    res.Projection? && HypotBelow(p.rawX - res.x, p.rawY - res.y, p.threshold)
  }

  /** The axis snap of a segment's projection: a vertical segment (|dx| < 0.1)
      snaps x only, else a horizontal one (|dy| < 0.1) snaps y only, else both. */
  function AxisSnap(p: Probe, a: Axes, seg: Segment, res: SegmentDistance): Axes
    requires res.Projection?
  {
    if Abs(seg.x1 - seg.x2) < 0.1 then TrySnapX(p, a, res.x)
    else if Abs(seg.y1 - seg.y2) < 0.1 then TrySnapY(p, a, res.y)
    else TrySnapY(p, TrySnapX(p, a, res.x), res.y)
  }

  /** One candidate's effect. */
  function Step(p: Probe, a: Axes, t: Target): Outcome {
    match t
    case PointAt(x, y) => if PointHits(p, x, y) then Hit(x, y) else Open(a)
    case Edge(seg) =>
      var res := DistToSegment(p.rawX, p.rawY, seg);
      if Near(p, res) then Open(AxisSnap(p, a, seg, res)) else Open(a)
    case Anchor(x, y) => Open(TrySnapY(p, TrySnapX(p, a, x), y))
    case Backdrop(seg) =>
      var res := DistToSegment(p.rawX, p.rawY, seg);
      if !Near(p, res) then Open(a)
      else if PointHits(p, seg.x1, seg.y1) then Hit(seg.x1, seg.y1)
      else if PointHits(p, seg.x2, seg.y2) then Hit(seg.x2, seg.y2)
      else Open(AxisSnap(p, a, seg, res))
  }

  /** The scan over the candidates in order, stopping at the first hit. */
  function Run(p: Probe, ts: seq<Target>, a: Axes): Outcome {
    if ts == [] then Open(a)
    else
      match Step(p, a, ts[0])
      case Hit(x, y) => Hit(x, y)
      case Open(b) => Run(p, ts[1..], b)
  }

  function Result(o: Outcome): SnapResult {
    match o
    case Hit(x, y) => SnapResult(x, y, true)
    case Open(a) => SnapResult(a.bestX, a.bestY, a.snapped)
  }

  // ---- the candidates ------------------------------------------------------

  /** The offsets tried around a symbol: while drawing a measurement, the
      centre and four points pushed out by `gap = width * factor` past each
      side; otherwise the centre, the four corners and the four side
      midpoints of its box. */
  function SymbolOffsets(e: Symbol, measurement: bool, factor: real): (ts: seq<Target>)
    ensures |ts| == (if measurement then 5 else 9)
    ensures forall k :: 0 <= k < |ts| ==> ts[k].PointAt?
    ensures ts[0] == PointAt(e.x, e.y)
  {
    var w, h := e.width, e.height;
    if measurement then
      var gap := w * factor;
      [PointAt(e.x, e.y),
       PointAt(e.x, e.y + (-h / 2.0 - gap)),
       PointAt(e.x, e.y + (h / 2.0 + gap)),
       PointAt(e.x + (-w / 2.0 - gap), e.y),
       PointAt(e.x + (w / 2.0 + gap), e.y)]
    else
      [PointAt(e.x, e.y),
       PointAt(e.x - w / 2.0, e.y - h / 2.0),
       PointAt(e.x, e.y - h / 2.0),
       PointAt(e.x + w / 2.0, e.y - h / 2.0),
       PointAt(e.x + w / 2.0, e.y),
       PointAt(e.x + w / 2.0, e.y + h / 2.0),
       PointAt(e.x, e.y + h / 2.0),
       PointAt(e.x - w / 2.0, e.y + h / 2.0),
       PointAt(e.x - w / 2.0, e.y)]
  }

  function SymbolTargets(els: seq<Symbol>, measurement: bool, factor: real): seq<Target> {
    if els == [] then [] else SymbolOffsets(els[0], measurement, factor) + SymbolTargets(els[1..], measurement, factor)
  }

  /** A line's snap points: a box's four corners, a circle's centre and the
      four extreme points of its ellipse, any other line's two end points. */
  function LinePoints(l: Line): (ts: seq<Target>)
    ensures forall k :: 0 <= k < |ts| ==> ts[k].PointAt?
  {
    match l.kind
    case Box =>
      [PointAt(l.x1, l.y1), PointAt(l.x2, l.y1), PointAt(l.x2, l.y2), PointAt(l.x1, l.y2)]
    case Circle =>
      var rx := Abs(l.x1 - l.x2) / 2.0;
      var ry := Abs(l.y1 - l.y2) / 2.0;
      var xMin := Min(l.x1, l.x2);
      var yMin := Min(l.y1, l.y2);
      var centerX := xMin + rx;
      var centerY := yMin + ry;
      [PointAt((l.x1 + l.x2) / 2.0, (l.y1 + l.y2) / 2.0),
       PointAt(centerX, yMin),
       PointAt(centerX, yMin + 2.0 * ry),
       PointAt(xMin, centerY),
       PointAt(xMin + 2.0 * rx, centerY)]
    case _ => [PointAt(l.x1, l.y1), PointAt(l.x2, l.y2)]
  }

  /** A line's segments: a box's top, right, bottom and left sides, none
      for a circle, the line itself otherwise. */
  function LineSegments(l: Line): (ts: seq<Target>)
    ensures forall k :: 0 <= k < |ts| ==> ts[k].Edge?
  {
    match l.kind
    case Box =>
      [Edge(Segment(l.x1, l.y1, l.x2, l.y1)),
       Edge(Segment(l.x2, l.y1, l.x2, l.y2)),
       Edge(Segment(l.x2, l.y2, l.x1, l.y2)),
       Edge(Segment(l.x1, l.y2, l.x1, l.y1))]
    case Circle => []
    case _ => [Edge(Segment(l.x1, l.y1, l.x2, l.y2))]
  }

  /** Whether the scan skips this line (`line.id === excludeId`). */
  predicate Excluded(l: Line, exclude: Option<Id>) {
    exclude == Some(l.id)
  }

  function LinesTargets(ls: seq<Line>, exclude: Option<Id>): seq<Target> {
    if ls == [] then []
    else if Excluded(ls[0], exclude) then LinesTargets(ls[1..], exclude)
    else LinePoints(ls[0]) + (LineSegments(ls[0]) + LinesTargets(ls[1..], exclude))
  }

  /** The anchor is tried only when both its coordinates are given. */
  function AnchorTargets(anchor: Option<Point>): seq<Target> {
    match anchor
    case Some(pt) => [Anchor(pt.x, pt.y)]
    case None => []
  }

  /** The canvas border, always; with the background shown, also the room
      skeleton: the two wall corners from the top edge down to y = 120 mm,
      the front wall's bottom edge, and the two floor diagonals. */
  function BackgroundSegments(showBackground: bool): (segs: seq<Segment>)
    ensures |segs| == (if showBackground then 9 else 4)
  {
    var edge := MmToPx(210.0);
    var border := [Segment(0.0, 0.0, edge, 0.0),
                   Segment(edge, 0.0, edge, edge),
                   Segment(edge, edge, 0.0, edge),
                   Segment(0.0, edge, 0.0, 0.0)];
    if showBackground then
      border + [Segment(MmToPx(45.0), 0.0, MmToPx(45.0), MmToPx(120.0)),
                Segment(MmToPx(165.0), 0.0, MmToPx(165.0), MmToPx(120.0)),
                Segment(MmToPx(45.0), MmToPx(120.0), MmToPx(165.0), MmToPx(120.0)),
                Segment(0.0, MmToPx(210.0), MmToPx(45.0), MmToPx(120.0)),
                Segment(MmToPx(210.0), MmToPx(210.0), MmToPx(165.0), MmToPx(120.0))]
    else border
  }

  function BackdropTargets(segs: seq<Segment>): (ts: seq<Target>)
    ensures |ts| == |segs|
    ensures forall k :: 0 <= k < |segs| ==> ts[k] == Backdrop(segs[k])
  {
    if segs == [] then [] else [Backdrop(segs[0])] + BackdropTargets(segs[1..])
  }

  /** Every candidate of one call, in the program's visiting order. */
  function Targets(els: seq<Symbol>, ls: seq<Line>, showBackground: bool, factor: real,
                   anchor: Option<Point>, exclude: Option<Id>, activeType: Option<LineKind>): seq<Target>
  {
    SymbolTargets(els, activeType == Some(Measurement), factor)
      + (LinesTargets(ls, exclude)
      + (AnchorTargets(anchor) + BackdropTargets(BackgroundSegments(showBackground))))
  }

  function SnapOutcome(els: seq<Symbol>, ls: seq<Line>, showBackground: bool, threshold: real, factor: real,
                       rawX: real, rawY: real, anchor: Option<Point>, exclude: Option<Id>,
                       activeType: Option<LineKind>): Outcome
  {
    var p := Probe(rawX, rawY, threshold);
    Run(p, Targets(els, ls, showBackground, factor, anchor, exclude, activeType), Start(p))
  }

  /** `getSnapPosition(rawX, rawY, anchorX, anchorY, excludeId, activeType)`. */
  function SnapPosition(els: seq<Symbol>, ls: seq<Line>, showBackground: bool, threshold: real, factor: real,
                        rawX: real, rawY: real, anchor: Option<Point>, exclude: Option<Id>,
                        activeType: Option<LineKind>): SnapResult
  {
    Result(SnapOutcome(els, ls, showBackground, threshold, factor, rawX, rawY, anchor, exclude, activeType))
  }

  // ---- the threshold bound -------------------------------------------------

  /** What the scan keeps true of its locals: each best coordinate is either
      the raw one or a candidate strictly within the threshold at distance
      `minDist`, and `snapped` is set as soon as one of them moved. */
  predicate AxesOk(p: Probe, a: Axes) {
    a.minDistX <= p.threshold && a.minDistY <= p.threshold
    && (a.bestX == p.rawX || (Abs(a.bestX - p.rawX) == a.minDistX && a.minDistX < p.threshold))
    && (a.bestY == p.rawY || (Abs(a.bestY - p.rawY) == a.minDistY && a.minDistY < p.threshold))
    && (a.snapped || (a.bestX == p.rawX && a.bestY == p.rawY))
    && (a.snapped ==> p.threshold > 0.0)
  }

  lemma StepKeepsOk(p: Probe, a: Axes, t: Target)
    requires AxesOk(p, a)
    ensures Step(p, a, t).Hit? ==> PointHits(p, Step(p, a, t).x, Step(p, a, t).y)
    ensures Step(p, a, t).Open? ==> AxesOk(p, Step(p, a, t).axes)
  {
  }

  /** Every step of the scan keeps `AxesOk`, and a hit is within reach. */
  lemma {:induction false} RunKeepsOk(p: Probe, ts: seq<Target>, a: Axes)
    requires AxesOk(p, a)
    ensures Run(p, ts, a).Hit? ==> PointHits(p, Run(p, ts, a).x, Run(p, ts, a).y)
    ensures Run(p, ts, a).Open? ==> AxesOk(p, Run(p, ts, a).axes)
    decreases |ts|
  {
    if ts != [] {
      StepKeepsOk(p, a, ts[0]);
      match Step(p, a, ts[0])
      case Hit(x, y) =>
      case Open(b) => RunKeepsOk(p, ts[1..], b);
    }
  }

  /** The snapped position never moves either coordinate by as much as the
      threshold, nothing snaps unless the threshold is positive, and an
      unsnapped result is the raw position itself. */
  lemma SnapWithinThreshold(els: seq<Symbol>, ls: seq<Line>, showBackground: bool, threshold: real, factor: real,
                            rawX: real, rawY: real, anchor: Option<Point>, exclude: Option<Id>,
                            activeType: Option<LineKind>)
    ensures var r := SnapPosition(els, ls, showBackground, threshold, factor, rawX, rawY, anchor, exclude, activeType);
      (r.snapped ==> threshold > 0.0 && Abs(r.x - rawX) < threshold && Abs(r.y - rawY) < threshold)
      && (!r.snapped ==> r.x == rawX && r.y == rawY)
  {
    var p := Probe(rawX, rawY, threshold);
    var ts := Targets(els, ls, showBackground, factor, anchor, exclude, activeType);
    RunKeepsOk(p, ts, Start(p));
    var o := Run(p, ts, Start(p));
    if o.Hit? {
      HypotBound(rawX - o.x, rawY - o.y, threshold);
      assert Abs(o.x - rawX) == Abs(rawX - o.x);
      assert Abs(o.y - rawY) == Abs(rawY - o.y);
    }
  }

  // ---- point hits ----------------------------------------------------------

  /** The points a candidate may return as a point snap. */
  predicate Offers(t: Target, x: real, y: real) {
    match t
    case PointAt(tx, ty) => tx == x && ty == y
    case Backdrop(seg) => (seg.x1 == x && seg.y1 == y) || (seg.x2 == x && seg.y2 == y)
    case _ => false
  }

  /** A point snap returns one of the candidates' points, and one within reach. */
  lemma {:induction false} HitIsOffered(p: Probe, ts: seq<Target>, a: Axes)
    requires Run(p, ts, a).Hit?
    ensures PointHits(p, Run(p, ts, a).x, Run(p, ts, a).y)
    ensures exists k :: 0 <= k < |ts| && Offers(ts[k], Run(p, ts, a).x, Run(p, ts, a).y)
    decreases |ts|
  {
    var o := Run(p, ts, a);
    match Step(p, a, ts[0])
    case Hit(x, y) =>
      assert Offers(ts[0], x, y);
    case Open(b) =>
      HitIsOffered(p, ts[1..], b);
      var k :| 0 <= k < |ts[1..]| && Offers(ts[1..][k], o.x, o.y);
      assert ts[k + 1] == ts[1..][k];
  }

  /** First match wins: a point candidate within reach is returned when no
      earlier candidate offers a point within reach. */
  lemma {:induction false} FirstPointWins(p: Probe, ts: seq<Target>, a: Axes, k: nat)
    requires k < |ts| && ts[k].PointAt? && PointHits(p, ts[k].x, ts[k].y)
    requires forall j, x, y :: 0 <= j < k && Offers(ts[j], x, y) ==> !PointHits(p, x, y)
    ensures Run(p, ts, a) == Hit(ts[k].x, ts[k].y)
    decreases k
  {
    if k == 0 {
    } else {
      var t := ts[0];
      assert t.Backdrop? ==> !PointHits(p, t.seg.x1, t.seg.y1) && !PointHits(p, t.seg.x2, t.seg.y2) by {
        if t.Backdrop? {
          assert Offers(t, t.seg.x1, t.seg.y1) && Offers(t, t.seg.x2, t.seg.y2);
        }
      }
      assert t.PointAt? ==> !PointHits(p, t.x, t.y) by {
        if t.PointAt? {
          assert Offers(t, t.x, t.y);
        }
      }
      var b := Step(p, a, t).axes;
      forall j, x, y | 0 <= j < k - 1 && Offers(ts[1..][j], x, y)
        ensures !PointHits(p, x, y)
      {
        assert ts[1..][j] == ts[j + 1];
      }
      FirstPointWins(p, ts[1..], b, k - 1);
    }
  }

  /** A symbol's centre within reach is the answer when it is the first
      element of the scene and is the first candidate of every scan. */
  lemma FirstSymbolCentreWins(els: seq<Symbol>, ls: seq<Line>, showBackground: bool, threshold: real, factor: real,
                              rawX: real, rawY: real, anchor: Option<Point>, exclude: Option<Id>,
                              activeType: Option<LineKind>)
    requires |els| > 0 && HypotBelow(rawX - els[0].x, rawY - els[0].y, threshold)
    ensures SnapPosition(els, ls, showBackground, threshold, factor, rawX, rawY, anchor, exclude, activeType)
         == SnapResult(els[0].x, els[0].y, true)
  {
    var ts := Targets(els, ls, showBackground, factor, anchor, exclude, activeType);
    var offs := SymbolOffsets(els[0], activeType == Some(Measurement), factor);
    assert ts[0] == offs[0];
  }

  // ---- the excluded line ---------------------------------------------------

  /** Skipping the excluded line is the same as scanning the list without it. */
  lemma {:induction false} ExcludedLineSkipped(ls: seq<Line>, id: Id)
    ensures LinesTargets(ls, Some(id)) == LinesTargets(RemoveLines(ls, id), None)
    decreases |ls|
  {
    if ls != [] {
      ExcludedLineSkipped(ls[1..], id);
      var hit := (l: Line) => l.id == id;
      assert RemoveLines(ls, id) == FilterOut(ls, hit);
      assert RemoveLines(ls[1..], id) == FilterOut(ls[1..], hit);
      if ls[0].id == id {
        assert FilterOut(ls, hit) == FilterOut(ls[1..], hit);
      } else {
        var rest := FilterOut(ls[1..], hit);
        assert FilterOut(ls, hit) == [ls[0]] + rest;
        assert ([ls[0]] + rest)[1..] == rest;
      }
    }
  }

  /** The excluded line never contributes: two line lists that agree once
      lines with that id are removed give the same snap. */
  lemma SnapIgnoresExcluded(els: seq<Symbol>, ls: seq<Line>, ls': seq<Line>, showBackground: bool,
                            threshold: real, factor: real, rawX: real, rawY: real,
                            anchor: Option<Point>, id: Id, activeType: Option<LineKind>)
    requires RemoveLines(ls, id) == RemoveLines(ls', id)
    ensures SnapPosition(els, ls, showBackground, threshold, factor, rawX, rawY, anchor, Some(id), activeType)
         == SnapPosition(els, ls', showBackground, threshold, factor, rawX, rawY, anchor, Some(id), activeType)
  {
    ExcludedLineSkipped(ls, id);
    ExcludedLineSkipped(ls', id);
  }

  /** Rewriting the lines with one id, keeping their id, changes nothing
      once they are removed. */
  lemma {:induction false} UpdateThenRemove(ls: seq<Line>, id: Id, f: Line -> Line)
    requires forall l :: f(l).id == l.id
    ensures RemoveLines(UpdateLines(ls, id, f), id) == RemoveLines(ls, id)
    decreases |ls|
  {
    var hit := (l: Line) => l.id == id;
    if ls != [] {
      var u := UpdateLines(ls, id, f);
      UpdateThenRemove(ls[1..], id, f);
      assert u[1..] == UpdateLines(ls[1..], id, f);
      assert RemoveLines(u, id) == FilterOut(u, hit);
      assert RemoveLines(u[1..], id) == FilterOut(u[1..], hit);
      assert RemoveLines(ls, id) == FilterOut(ls, hit);
      assert RemoveLines(ls[1..], id) == FilterOut(ls[1..], hit);
      assert u[0].id == ls[0].id;
    } else {
      assert UpdateLines(ls, id, f) == [];
    }
  }

  /** The line being drawn does not snap to itself: moving its free end
      leaves every later snap of the same gesture unchanged. */
  lemma DrawnLineIgnored(els: seq<Symbol>, ls: seq<Line>, showBackground: bool, threshold: real, factor: real,
                         rawX: real, rawY: real, anchor: Option<Point>, id: Id, activeType: Option<LineKind>,
                         x: real, y: real)
    ensures SnapPosition(els, SetLineEnd(ls, id, x, y), showBackground, threshold, factor, rawX, rawY, anchor, Some(id), activeType)
         == SnapPosition(els, ls, showBackground, threshold, factor, rawX, rawY, anchor, Some(id), activeType)
  {
    var f := (l: Line) => l.(x2 := x, y2 := y);
    assert SetLineEnd(ls, id, x, y) == UpdateLines(ls, id, f);
    UpdateThenRemove(ls, id, f);
    SnapIgnoresExcluded(els, SetLineEnd(ls, id, x, y), ls, showBackground, threshold, factor, rawX, rawY, anchor, id, activeType);
  }

  // ---- segment projections -------------------------------------------------

  /** Whether a near segment's projection is offered to the x axis: a
      vertical segment snaps x only, a horizontal one y only, any other
      both. */
  predicate SnapsX(seg: Segment) {
    Abs(seg.x1 - seg.x2) < 0.1 || !(Abs(seg.y1 - seg.y2) < 0.1)
  }

  predicate SnapsY(seg: Segment) {
    !(Abs(seg.x1 - seg.x2) < 0.1)
  }

  /** A segment candidate whose projection is within reach. */
  predicate NearSegment(p: Probe, t: Target) {
    (t.Edge? || t.Backdrop?) && Near(p, DistToSegment(p.rawX, p.rawY, t.seg))
  }

  /** After a near segment's step, the best distance on each axis it feeds
      is at most the projection's distance on that axis. */
  lemma StepSegmentBound(p: Probe, a: Axes, t: Target)
    requires NearSegment(p, t) && Step(p, a, t).Open?
    ensures var res := DistToSegment(p.rawX, p.rawY, t.seg);
      var b := Step(p, a, t).axes;
      (SnapsX(t.seg) ==> b.minDistX <= Abs(p.rawX - res.x))
      && (SnapsY(t.seg) ==> b.minDistY <= Abs(p.rawY - res.y))
  {
  }

  /** Axis snaps keep the closest candidate: when the scan does not hit a
      point, each axis's best distance is at most that of every near
      segment projection offered to it. */
  lemma {:induction false} RunSegmentBound(p: Probe, ts: seq<Target>, a: Axes, k: nat)
    requires k < |ts|
    ensures Run(p, ts, a).Open? && NearSegment(p, ts[k]) ==>
      var res := DistToSegment(p.rawX, p.rawY, ts[k].seg);
      var r := Run(p, ts, a).axes;
      (SnapsX(ts[k].seg) ==> r.minDistX <= Abs(p.rawX - res.x))
      && (SnapsY(ts[k].seg) ==> r.minDistY <= Abs(p.rawY - res.y))
    decreases k
  {
    if !(Run(p, ts, a).Open? && NearSegment(p, ts[k])) {
      return;
    }
    var b := Step(p, a, ts[0]).axes;
    if k == 0 {
      StepSegmentBound(p, a, ts[0]);
      RunShrinks(p, ts[1..], b);
    } else {
      assert ts[1..][k - 1] == ts[k];
      RunSegmentBound(p, ts[1..], b, k - 1);
    }
  }

  /** Without a point hit, the snapped position is on each axis at least as
      close to the pointer as the projection onto any near segment that
      feeds that axis, drawn or in the background. */
  lemma SegmentBound(els: seq<Symbol>, ls: seq<Line>, showBackground: bool, threshold: real, factor: real,
                     rawX: real, rawY: real, anchor: Option<Point>, exclude: Option<Id>,
                     activeType: Option<LineKind>, k: nat)
    requires k < |Targets(els, ls, showBackground, factor, anchor, exclude, activeType)|
    ensures SnapOutcome(els, ls, showBackground, threshold, factor, rawX, rawY, anchor, exclude, activeType).Open?
            && NearSegment(Probe(rawX, rawY, threshold), Targets(els, ls, showBackground, factor, anchor, exclude, activeType)[k]) ==>
      var seg := Targets(els, ls, showBackground, factor, anchor, exclude, activeType)[k].seg;
      var res := DistToSegment(rawX, rawY, seg);
      var r := SnapPosition(els, ls, showBackground, threshold, factor, rawX, rawY, anchor, exclude, activeType);
      (SnapsX(seg) ==> Abs(r.x - rawX) <= Abs(res.x - rawX))
      && (SnapsY(seg) ==> Abs(r.y - rawY) <= Abs(res.y - rawY))
  {
    var p := Probe(rawX, rawY, threshold);
    var ts := Targets(els, ls, showBackground, factor, anchor, exclude, activeType);
    RunKeepsOk(p, ts, Start(p));
    RunSegmentBound(p, ts, Start(p), k);
    if NearSegment(p, ts[k]) {
      var res := DistToSegment(rawX, rawY, ts[k].seg);
      assert Abs(rawX - res.x) == Abs(res.x - rawX) && Abs(rawY - res.y) == Abs(res.y - rawY);
    }
  }

  // ---- the anchor ----------------------------------------------------------

  /** Splitting the candidate list: the scan of `xs + ys` is the scan of
      `xs` continued with `ys` unless it already hit. */
  lemma {:induction false} RunAppend(p: Probe, xs: seq<Target>, ys: seq<Target>, a: Axes)
    ensures Run(p, xs + ys, a) == match Run(p, xs, a) case Hit(x, y) => Hit(x, y) case Open(b) => Run(p, ys, b)
    decreases |xs|
  {
    if xs != [] {
      assert (xs + ys)[0] == xs[0];
      assert (xs + ys)[1..] == xs[1..] + ys;
      match Step(p, a, xs[0])
      case Hit(x, y) =>
      case Open(b) => RunAppend(p, xs[1..], ys, b);
    } else {
      assert xs + ys == ys;
    }
  }

  /** The best distance per axis only ever shrinks. */
  lemma {:induction false} RunShrinks(p: Probe, ts: seq<Target>, a: Axes)
    requires Run(p, ts, a).Open?
    ensures Run(p, ts, a).axes.minDistX <= a.minDistX
    ensures Run(p, ts, a).axes.minDistY <= a.minDistY
    decreases |ts|
  {
    if ts != [] {
      RunShrinks(p, ts[1..], Step(p, a, ts[0]).axes);
    }
  }

  /** The anchor's step bounds both best distances by the anchor's own,
      and later steps only shrink them. */
  lemma AnchorThenRest(p: Probe, ax: real, ay: real, tail: seq<Target>, a: Axes)
    requires AxesOk(p, a)
    requires Run(p, [Anchor(ax, ay)] + tail, a).Open?
    ensures var r := Run(p, [Anchor(ax, ay)] + tail, a).axes;
      Abs(r.bestX - p.rawX) <= Abs(ax - p.rawX) && Abs(r.bestY - p.rawY) <= Abs(ay - p.rawY)
  {
    var ts := [Anchor(ax, ay)] + tail;
    assert ts[1..] == tail;
    var c := Step(p, a, Anchor(ax, ay)).axes;
    RunShrinks(p, tail, c);
    RunKeepsOk(p, ts, a);
    assert Abs(p.rawX - ax) == Abs(ax - p.rawX) && Abs(p.rawY - ay) == Abs(ay - p.rawY);
  }

  /** The same bound with the symbol and line candidates in front. */
  lemma AnchorAfter(p: Probe, syms: seq<Target>, lns: seq<Target>, ax: real, ay: real, tail: seq<Target>)
    requires Run(p, syms + (lns + ([Anchor(ax, ay)] + tail)), Start(p)).Open?
    ensures var r := Run(p, syms + (lns + ([Anchor(ax, ay)] + tail)), Start(p)).axes;
      Abs(r.bestX - p.rawX) <= Abs(ax - p.rawX) && Abs(r.bestY - p.rawY) <= Abs(ay - p.rawY)
  {
    var rest := [Anchor(ax, ay)] + tail;
    RunAppend(p, syms, lns + rest, Start(p));
    RunKeepsOk(p, syms, Start(p));
    var b := Run(p, syms, Start(p)).axes;
    RunAppend(p, lns, rest, b);
    RunKeepsOk(p, lns, b);
    AnchorThenRest(p, ax, ay, tail, Run(p, lns, b).axes);
  }

  /** Without a point hit, the snapped position is on each axis at least as
      close to the pointer as the anchor is. */
  lemma AnchorBound(els: seq<Symbol>, ls: seq<Line>, showBackground: bool, threshold: real, factor: real,
                    rawX: real, rawY: real, ax: real, ay: real, exclude: Option<Id>, activeType: Option<LineKind>)
    requires SnapOutcome(els, ls, showBackground, threshold, factor, rawX, rawY, Some(Point(ax, ay)), exclude, activeType).Open?
    ensures var r := SnapPosition(els, ls, showBackground, threshold, factor, rawX, rawY, Some(Point(ax, ay)), exclude, activeType);
      Abs(r.x - rawX) <= Abs(ax - rawX) && Abs(r.y - rawY) <= Abs(ay - rawY)
  {
    AnchorAfter(Probe(rawX, rawY, threshold),
                SymbolTargets(els, activeType == Some(Measurement), factor),
                LinesTargets(ls, exclude), ax, ay,
                BackdropTargets(BackgroundSegments(showBackground)));
  }
}
