/** The drawing's entities: placed symbols (the `elements` list), drawn
    lines of five kinds (the `lines` list), the symbol catalog, and the
    id-keyed `map`/`filter`/`find` rewrites every handler uses. */
module Scene {
  import opened Options
  import opened Geometry

  /** Ids are opaque strings (`crypto.randomUUID()` in the program). */
  type Id = string

  /** The six draggable catalog entries. */
  datatype SymbolKind = Socket | TwoSockets | ThreeSockets | WaterInlet | Drain | TextLabel

  /** The catalog id each entry is dragged with. */
  function TypeId(k: SymbolKind): string {
    match k
    case Socket => "sym1"
    case TwoSockets => "sym2"
    case ThreeSockets => "sym3"
    case WaterInlet => "sym4"
    case Drain => "sym5"
    case TextLabel => "text_label"
  }

  /** `SYMBOL_TYPES.find(t => t.id === typeId)`: unknown ids (the empty
      string among them) find nothing. */
  function SymbolKindOf(typeId: string): (r: Option<SymbolKind>)
    ensures r.Some? ==> TypeId(r.value) == typeId
  {
    if typeId == "sym1" then Some(Socket)
    else if typeId == "sym2" then Some(TwoSockets)
    else if typeId == "sym3" then Some(ThreeSockets)
    else if typeId == "sym4" then Some(WaterInlet)
    else if typeId == "sym5" then Some(Drain)
    else if typeId == "text_label" then Some(TextLabel)
    else None
  }

  /** Every catalog entry is found by its own id, so the lookup and the
      id are inverse to each other. */
  lemma CatalogRoundTrip(k: SymbolKind)
    ensures SymbolKindOf(TypeId(k)) == Some(k)
  {
  }

  function BaseHeightMm(k: SymbolKind): (h: real)
    ensures h > 0.0
  {
    match k
    case Socket => 8.0
    case TwoSockets => 8.0
    case ThreeSockets => 8.0
    case WaterInlet => 5.0
    case Drain => 5.0
    case TextLabel => 15.0
  }

  /** Width over height of each icon's view box. */
  function AspectRatio(k: SymbolKind): (a: real)
    ensures a > 0.0
  {
    match k
    case Socket => 1.98 / 2.22
    case TwoSockets => 7.73 / 4.41
    case ThreeSockets => 17.27 / 6.59
    case WaterInlet => 3.12 / 1.08
    case Drain => 3.41 / 1.45
    case TextLabel => 1.0
  }

  /** A placed symbol: centre in canvas pixels, size in pixels, the zone it
      was last classified into, and the text of a text label. */
  datatype Symbol = Symbol(id: Id, kind: SymbolKind, x: real, y: real,
                           width: real, height: real, zone: Zone,
                           text: Option<string>)

  /** The five drawing tools' line kinds; the ruler draws `Measurement`. */
  datatype LineKind = Measurement | Annotation | SimpleLine | Box | Circle

  datatype FillStyle = NoFill | Solid | Hatch

  /** A drawn line. Boxes and circles use (x1, y1)-(x2, y2) as opposite
      corners of their bounding box. */
  datatype Line = Line(id: Id, kind: LineKind,
                       x1: real, y1: real, x2: real, y2: real,
                       manualLengthMm: Option<real>,
                       extLenStart: Option<real>, extLenEnd: Option<real>,
                       text: string, fillStyle: FillStyle)

  /** One history entry: a deep copy of both lists. */
  datatype Snapshot = Snapshot(elements: seq<Symbol>, lines: seq<Line>)

  /** The text a freshly dropped text label shows. */
  const LABEL_TEXT: string := "Hot & Cold \n Water Inlet"
  /** The text every freshly drawn line carries. */
  const LINE_TEXT: string := "15-AMP Electric Socket"

  /** The symbol `handleDrop` creates for catalog entry `k` at pixel (x, y). */
  function NewSymbol(id: Id, k: SymbolKind, x: real, y: real): (e: Symbol)
    ensures e.id == id && e.kind == k && e.x == x && e.y == y
    ensures e.zone == ZoneAt(x, y)
    ensures e.width > 0.0 && e.height > 0.0
    ensures k == TextLabel ==> e.width == 120.0 && e.height == 60.0 && e.text == Some(LABEL_TEXT)
    ensures k != TextLabel ==>
      e.height == BaseHeightMm(k) * MM_TO_PX && e.width == e.height * AspectRatio(k) && e.text == None
  {
    var heightPx := BaseHeightMm(k) * MM_TO_PX;
    MulPositive(BaseHeightMm(k), MM_TO_PX);
    MulPositive(heightPx, AspectRatio(k));
    Symbol(id, k, x, y,
           if k == TextLabel then 120.0 else heightPx * AspectRatio(k),
           if k == TextLabel then 60.0 else heightPx,
           GetZone(x * PX_TO_MM, y * PX_TO_MM),
           if k == TextLabel then Some(LABEL_TEXT) else None)
  }

  lemma MulPositive(a: real, b: real)
    requires a > 0.0 && b > 0.0
    ensures a * b > 0.0
  {
  }

  /** The zero-length line `handleMouseDown` starts a drawing with. */
  function NewLine(id: Id, k: LineKind, x: real, y: real, extensionLength: real): (l: Line)
    ensures l.id == id && l.kind == k
    ensures l.x1 == l.x2 == x && l.y1 == l.y2 == y
    ensures l.extLenStart == l.extLenEnd == Some(extensionLength)
    ensures l.manualLengthMm == None && l.fillStyle == NoFill && l.text == LINE_TEXT
  {
    Line(id, k, x, y, x, y, None, Some(extensionLength), Some(extensionLength), LINE_TEXT, NoFill)
  }

  // ---- id-keyed rewrites -------------------------------------------------

  /** `s.map(v => hit(v) ? f(v) : v)`. */
  function MapWhere<T>(s: seq<T>, hit: T -> bool, f: T -> T): (r: seq<T>)
    ensures |r| == |s|
    ensures forall i :: 0 <= i < |s| ==> r[i] == (if hit(s[i]) then f(s[i]) else s[i])
  {
    seq(|s|, i requires 0 <= i < |s| => if hit(s[i]) then f(s[i]) else s[i])
  }

  /** `s.filter(v => !hit(v))`. */
  function FilterOut<T(!new)>(s: seq<T>, hit: T -> bool): (r: seq<T>)
    ensures |r| <= |s|
    ensures forall v :: v in r <==> v in s && !hit(v)
  {
    if s == [] then []
    else if hit(s[0]) then FilterOut(s[1..], hit)
    else [s[0]] + FilterOut(s[1..], hit)
  }

  /** Filtering distributes over concatenation: the kept items of `xs`
      come first, in their order, then those of `ys`. */
  lemma {:induction false} FilterOutAppend<T(!new)>(xs: seq<T>, ys: seq<T>, hit: T -> bool)
    ensures FilterOut(xs + ys, hit) == FilterOut(xs, hit) + FilterOut(ys, hit)
    decreases |xs|
  {
    if xs == [] {
      assert xs + ys == ys;
    } else {
      assert (xs + ys)[0] == xs[0];
      assert (xs + ys)[1..] == xs[1..] + ys;
      FilterOutAppend(xs[1..], ys, hit);
    }
  }

  /** One item is dropped when it is hit and kept otherwise. */
  lemma FilterOutSingle<T(!new)>(x: T, hit: T -> bool)
    ensures FilterOut([x], hit) == if hit(x) then [] else [x]
  {
  }

  /** A filter that hits nothing keeps the list as it is, every duplicate
      included. */
  lemma {:induction false} FilterOutNothing<T(!new)>(s: seq<T>, hit: T -> bool)
    requires forall i :: 0 <= i < |s| ==> !hit(s[i])
    ensures FilterOut(s, hit) == s
    decreases |s|
  {
    if s != [] {
      FilterOutNothing(s[1..], hit);
    }
  }

  /** `lines.find(l => l.id === id)`: the first line with that id. */
  function FindLine(ls: seq<Line>, id: Id): (r: Option<Line>)
    ensures r.None? <==> forall i :: 0 <= i < |ls| ==> ls[i].id != id
    ensures r.Some? ==> exists k :: 0 <= k < |ls| && ls[k] == r.value && r.value.id == id
                           && forall j :: 0 <= j < k ==> ls[j].id != id
  {
    if ls == [] then None
    else if ls[0].id == id then Some(ls[0])
    else
      var r := FindLine(ls[1..], id);
      assert forall i :: 1 <= i < |ls| ==> ls[i] == ls[1..][i - 1];
      r
  }

  /** `elements.find(el => el.id === id)`. */
  function FindSymbol(els: seq<Symbol>, id: Id): (r: Option<Symbol>)
    ensures r.None? <==> forall i :: 0 <= i < |els| ==> els[i].id != id
    ensures r.Some? ==> r.value in els && r.value.id == id
    ensures r.Some? ==> exists k :: 0 <= k < |els| && els[k] == r.value
                           && forall j :: 0 <= j < k ==> els[j].id != id
  {
    if els == [] then None
    else if els[0].id == id then Some(els[0])
    else
      var r := FindSymbol(els[1..], id);
      assert forall i :: 1 <= i < |els| ==> els[i] == els[1..][i - 1];
      r
  }

  /** Every line with id `id` rewritten by `f`, the others left alone. */
  function UpdateLines(ls: seq<Line>, id: Id, f: Line -> Line): (r: seq<Line>)
    ensures |r| == |ls|
    ensures forall i :: 0 <= i < |ls| ==> r[i] == (if ls[i].id == id then f(ls[i]) else ls[i])
  {
    MapWhere(ls, (l: Line) => l.id == id, f)
  }

  /** Every symbol with id `id` rewritten by `f`, the others left alone. */
  function UpdateSymbols(els: seq<Symbol>, id: Id, f: Symbol -> Symbol): (r: seq<Symbol>)
    ensures |r| == |els|
    ensures forall i :: 0 <= i < |els| ==> r[i] == (if els[i].id == id then f(els[i]) else els[i])
  {
    MapWhere(els, (e: Symbol) => e.id == id, f)
  }

  function RemoveLines(ls: seq<Line>, id: Id): (r: seq<Line>)
    ensures forall l :: l in r <==> l in ls && l.id != id
  {
    FilterOut(ls, (l: Line) => l.id == id)
  }

  function RemoveSymbols(els: seq<Symbol>, id: Id): (r: seq<Symbol>)
    ensures forall e :: e in r <==> e in els && e.id != id
  {
    FilterOut(els, (e: Symbol) => e.id == id)
  }

  /** Removal keeps the survivors in their order: cut the list anywhere,
      and the survivors of the front come before those of the back. With
      no item to remove, the list is kept as it is. */
  lemma RemoveLinesKeepsOrder(ls: seq<Line>, id: Id, i: nat)
    requires i <= |ls|
    ensures RemoveLines(ls, id) == RemoveLines(ls[..i], id) + RemoveLines(ls[i..], id)
    ensures (forall k :: 0 <= k < |ls| ==> ls[k].id != id) ==> RemoveLines(ls, id) == ls
  {
    assert ls == ls[..i] + ls[i..];
    FilterOutAppend(ls[..i], ls[i..], (l: Line) => l.id == id);
    if forall k :: 0 <= k < |ls| ==> ls[k].id != id {
      FilterOutNothing(ls, (l: Line) => l.id == id);
    }
  }

  lemma RemoveSymbolsKeepsOrder(els: seq<Symbol>, id: Id, i: nat)
    requires i <= |els|
    ensures RemoveSymbols(els, id) == RemoveSymbols(els[..i], id) + RemoveSymbols(els[i..], id)
    ensures (forall k :: 0 <= k < |els| ==> els[k].id != id) ==> RemoveSymbols(els, id) == els
  {
    assert els == els[..i] + els[i..];
    FilterOutAppend(els[..i], els[i..], (e: Symbol) => e.id == id);
    if forall k :: 0 <= k < |els| ==> els[k].id != id {
      FilterOutNothing(els, (e: Symbol) => e.id == id);
    }
  }

  /** `handleTextChange`: the text of the symbols with that id. */
  function SetSymbolText(els: seq<Symbol>, id: Id, text: string): (r: seq<Symbol>)
    ensures |r| == |els|
    ensures forall i :: 0 <= i < |els| ==>
      r[i] == (if els[i].id == id then els[i].(text := Some(text)) else els[i])
  {
    UpdateSymbols(els, id, (e: Symbol) => e.(text := Some(text)))
  }

  /** The symbol-drag rewrite: new centre and the zone of the new centre. */
  function PlaceSymbol(els: seq<Symbol>, id: Id, x: real, y: real): (r: seq<Symbol>)
    ensures |r| == |els|
    ensures forall i :: 0 <= i < |els| ==>
      r[i] == (if els[i].id == id then els[i].(x := x, y := y, zone := ZoneAt(x, y)) else els[i])
  {
    UpdateSymbols(els, id, (e: Symbol) => e.(x := x, y := y, zone := GetZone(x * PX_TO_MM, y * PX_TO_MM)))
  }

  /** `handleLineTextChange`. */
  function SetLineText(ls: seq<Line>, id: Id, text: string): (r: seq<Line>)
    ensures |r| == |ls|
    ensures forall i :: 0 <= i < |ls| ==> r[i] == (if ls[i].id == id then ls[i].(text := text) else ls[i])
  {
    UpdateLines(ls, id, (l: Line) => l.(text := text))
  }

  /** `handleUpdateFillStyle`. */
  function SetFillStyle(ls: seq<Line>, id: Id, style: FillStyle): (r: seq<Line>)
    ensures |r| == |ls|
    ensures forall i :: 0 <= i < |ls| ==> r[i] == (if ls[i].id == id then ls[i].(fillStyle := style) else ls[i])
  {
    UpdateLines(ls, id, (l: Line) => l.(fillStyle := style))
  }

  /** `handleMeasurementValueChange`; `None` clears the typed length. */
  function SetManualLength(ls: seq<Line>, id: Id, mm: Option<real>): (r: seq<Line>)
    ensures |r| == |ls|
    ensures forall i :: 0 <= i < |ls| ==> r[i] == (if ls[i].id == id then ls[i].(manualLengthMm := mm) else ls[i])
  {
    UpdateLines(ls, id, (l: Line) => l.(manualLengthMm := mm))
  }

  /** The drawing rewrite: the second end point follows the snapped pointer. */
  function SetLineEnd(ls: seq<Line>, id: Id, x: real, y: real): (r: seq<Line>)
    ensures |r| == |ls|
    ensures forall i :: 0 <= i < |ls| ==> r[i] == (if ls[i].id == id then ls[i].(x2 := x, y2 := y) else ls[i])
  {
    UpdateLines(ls, id, (l: Line) => l.(x2 := x, y2 := y))
  }

  /** Every line with that id replaced by `line` as a whole. */
  function ReplaceLines(ls: seq<Line>, id: Id, line: Line): (r: seq<Line>)
    ensures |r| == |ls|
    ensures forall i :: 0 <= i < |ls| ==> r[i] == (if ls[i].id == id then line else ls[i])
  {
    UpdateLines(ls, id, (l: Line) => line)
  }

  // ---- scene invariants ----------------------------------------------------

  /** A symbol's zone is the zone of its centre, and its size is positive. */
  predicate SymbolOk(e: Symbol) {
    e.zone == ZoneAt(e.x, e.y) && e.width > 0.0 && e.height > 0.0
  }

  /** Extension lengths, where set, are never negative. */
  predicate LineOk(l: Line) {
    (l.extLenStart.Some? ==> l.extLenStart.value >= 0.0) &&
    (l.extLenEnd.Some? ==> l.extLenEnd.value >= 0.0)
  }

  predicate SceneOk(els: seq<Symbol>, ls: seq<Line>) {
    (forall e :: e in els ==> SymbolOk(e)) && (forall l :: l in ls ==> LineOk(l))
  }

  predicate SnapshotOk(s: Snapshot) {
    SceneOk(s.elements, s.lines)
  }

  /** Dragging keeps every symbol's zone in step with its position. */
  lemma PlaceSymbolKeepsScene(els: seq<Symbol>, ls: seq<Line>, id: Id, x: real, y: real)
    requires SceneOk(els, ls)
    ensures SceneOk(PlaceSymbol(els, id, x, y), ls)
  {
    var r := PlaceSymbol(els, id, x, y);
    forall e | e in r
      ensures SymbolOk(e)
    {
      var i :| 0 <= i < |r| && r[i] == e;
      assert els[i] in els;
    }
  }
}
