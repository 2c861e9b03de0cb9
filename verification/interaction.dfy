/**
 * The interaction state machine of the reduction view: pointer, wheel and
 * tool messages update the view's fields and produce hover and click
 * emissions; rendering fits the camera to new data and builds the buffer.
 */
module Interaction {
  import opened Wrappers
  import opened AppState
  import opened ReductionData
  import opened Selection
  import opened HexColor
  import opened VertexBuffer

  type PositiveReal = r: real | r > 0.0 witness 1.0

  /** World-space centre and per-axis zoom; the zoom factors are strictly positive. */
  datatype Camera2D = Camera2D(x: real, y: real, zoomX: PositiveReal, zoomY: PositiveReal)

  datatype CurrentTool = Zoom | ZoomAll | Select

  /** Messages the view receives; pointer positions are in camera (device) coordinates. */
  datatype MsgReduction =
    | MouseMove(x: real, y: real, pressLeft: bool)
    | MouseClick
    | MouseWheel(dy: real)
    | MouseStartSelect(cx: real, cy: real)
    | MouseEndSelect(cx: real, cy: real)
    | SelectCurrentTool(tool: CurrentTool)

  /** Calls of the view's two callbacks, returned instead of emitted. */
  datatype Emission =
    | CellHovered(cell: Option<nat>)
    | CellsClicked(cells: seq<nat>)

  /**
   * The view's properties and the collaborators this model does not define:
   * the camera's device-to-world conversion, the closest-point index, the
   * wheel zoom (zoom_around with scale 10^(dy/100)), fitting the camera to a
   * reduction, the bundled palette, the safe maximum of a column, and the
   * equality `AsyncData` defines on reductions (its PartialEq lives outside
   * this model, so whether it compares contents, identity or only the variant
   * is left open).
   */
  datatype Env = Env(
    reductionData: AsyncData<ReductionViewData>,
    colorReductionBy: ColoringWithData,
    camToWorld: (Camera2D, real, real) -> (real, real),
    closestPoint: (real, real) -> Option<nat>,
    zoomAround: (Camera2D, real, real, real) -> Camera2D,
    fitReduction: (Camera2D, ReductionViewData) -> Camera2D,
    palette: seq<Color3>,
    safeMax: seq<real> -> PositiveReal,
    sameReduction: (AsyncData<ReductionViewData>, AsyncData<ReductionViewData>) -> bool)
  {
    /** Loaded reductions come from the adapter: one (x, y) pair per point. */
    predicate Valid() {
      reductionData.Loaded? ==> reductionData.value.WellFormed()
    }
  }

  /** Panning by a device-space delta: the centre moves against the drag, scaled by 1/zoom. */
  function Panned(c: Camera2D, dx: real, dy: real): (r: Camera2D)
    ensures r.zoomX == c.zoomX && r.zoomY == c.zoomY
    ensures (r.x - c.x) * c.zoomX == -dx && (r.y - c.y) * c.zoomY == -dy
  {
    c.(x := c.x - dx / c.zoomX, y := c.y - dy / c.zoomY)
  }

  /** Dragging back by the opposite delta restores the camera. */
  lemma PanIsUndone(c: Camera2D, dx: real, dy: real)
    ensures Panned(Panned(c, dx, dy), -dx, -dy) == c
  {
  }

  /** Two drags pan as far as one drag by the summed delta. */
  lemma PansCompose(c: Camera2D, dx1: real, dy1: real, dx2: real, dy2: real)
    ensures Panned(Panned(c, dx1, dy1), dx2, dy2) == Panned(c, dx1 + dx2, dy1 + dy2)
  {
  }

  /**
   * What ending a selection gesture emits for the finished rectangle: nothing
   * without data; on a click, the hovered point when the Select tool is
   * active; otherwise the scan's ids.
   */
  function EndSelectEmission(rect: Rectangle2D, tool: CurrentTool, lastCell: Option<nat>,
                             data: AsyncData<ReductionViewData>): (e: Option<Emission>)
    requires data.Loaded? ==> data.value.WellFormed()
    ensures e.Some? ==> data.Loaded? && e.value.CellsClicked?
    ensures data.Loaded? && rect.IsClick() ==>
      e == if tool == Select && lastCell.Some? then Some(CellsClicked([lastCell.value])) else None
    ensures data.Loaded? && !rect.IsClick() ==>
      var d := data.value;
      && e.Some?
      && StrictlyIncreasing(e.value.cells)
      && (forall k :: 0 <= k < |e.value.cells| ==> e.value.cells[k] < d.numPoint)
      && (forall i :: 0 <= i < d.numPoint ==>
            (i in e.value.cells <==> StrictlyInside(d, i, rect.RangeX(), rect.RangeY())))
  {
    match data
    case Loaded(d) =>
      if rect.IsClick() then
        if tool == Select && lastCell.Some? then Some(CellsClicked([lastCell.value])) else None
      else
        InsideIdsExact(d, rect.RangeX(), rect.RangeY(), d.numPoint);
        Some(CellsClicked(InsideIds(d, rect.RangeX(), rect.RangeY(), d.numPoint)))
    case _ => None
  }

  /** The normaliser of a numeric column: the safe maximum of its values. */
  function Normaliser(column: Option<ColumnData>, safeMax: seq<real> -> PositiveReal): PositiveReal {
    match column
    case Some(Numeric(values)) => safeMax(values)
    case Some(SparseNumeric(_, values)) => safeMax(values)
    case _ => 1.0
  }

  /** A loaded reduction can be coloured by the active column without a panic. */
  predicate RenderFits(env: Env) {
    env.Valid()
    && (env.reductionData.Loaded? ==>
          var column := ActiveColumn(env.colorReductionBy);
          ColumnFits(column, env.reductionData.value.numPoint, env.palette, Normaliser(column, env.safeMax)))
  }

  class ReductionView {
    var lastPos: (real, real)
    var lastCell: Option<nat>
    var currentTool: CurrentTool
    var camera: Camera2D
    var currentSelection: Option<Rectangle2D>
    var lastReductionData: AsyncData<ReductionViewData>

    /** ZoomAll is an action, never the current tool. */
    ghost predicate Valid()
      reads this
    {
      currentTool != ZoomAll
    }

    /** A fresh view: Select tool, nothing hovered or selected, no data seen yet. */
    constructor (initialCamera: Camera2D)
      ensures Valid()
      ensures lastPos == (0.0, 0.0) && lastCell == None && currentTool == Select
      ensures camera == initialCamera && currentSelection == None && lastReductionData == NotLoaded
    {
      lastPos := (0.0, 0.0);
      lastCell := None;
      currentTool := Select;
      camera := initialCamera;
      currentSelection := None;
      lastReductionData := NotLoaded;
    }

    /**
     * Moving the pointer: remember the position, hover the closest point and
     * report it only when it changed, drag the second corner of an active
     * selection, and pan when the Zoom tool is used with the left button held.
     */
    twostate predicate MouseMoveEffect(x: real, y: real, pressLeft: bool, env: Env,
                                       redraw: bool, new emitted: Option<Emission>)
      reads this
    {
      var w := env.camToWorld(old(camera), x, y);
      var cp := env.closestPoint(w.0, w.1);
      var pans := old(currentTool) == Zoom && pressLeft;
      && lastPos == (x, y)
      && lastCell == cp
      && emitted == (if cp != old(lastCell) then Some(CellHovered(cp)) else None)
      && currentSelection == (if old(currentSelection).Some?
                              then Some(old(currentSelection).value.(x2 := w.0, y2 := w.1))
                              else None)
      && camera == (if pans then Panned(old(camera), x - old(lastPos).0, y - old(lastPos).1) else old(camera))
      && redraw == (pans || cp != old(lastCell) || old(currentSelection).Some?)
      && currentTool == old(currentTool)
      && lastReductionData == old(lastReductionData)
    }

    /** The wheel zooms around the world point under the last pointer position. */
    twostate predicate MouseWheelEffect(dy: real, env: Env, redraw: bool, new emitted: Option<Emission>)
      reads this
    {
      var w := env.camToWorld(old(camera), old(lastPos).0, old(lastPos).1);
      && camera == env.zoomAround(old(camera), w.0, w.1, dy)
      && redraw && emitted == None
      && lastPos == old(lastPos) && lastCell == old(lastCell) && currentTool == old(currentTool)
      && currentSelection == old(currentSelection) && lastReductionData == old(lastReductionData)
    }

    /** A plain click changes nothing and asks for no redraw. */
    twostate predicate MouseClickEffect(redraw: bool, new emitted: Option<Emission>)
      reads this
    {
      && !redraw && emitted == None
      && lastPos == old(lastPos) && lastCell == old(lastCell) && currentTool == old(currentTool)
      && camera == old(camera) && currentSelection == old(currentSelection)
      && lastReductionData == old(lastReductionData)
    }

    /**
     * Choosing a tool: ZoomAll fits the camera to loaded data and keeps the
     * current tool; any other tool becomes the current one.
     */
    twostate predicate SelectToolEffect(t: CurrentTool, env: Env, redraw: bool, new emitted: Option<Emission>)
      reads this
    {
      && currentTool == (if t == ZoomAll then old(currentTool) else t)
      && camera == (if t == ZoomAll && env.reductionData.Loaded?
                    then env.fitReduction(old(camera), env.reductionData.value)
                    else old(camera))
      && redraw && emitted == None
      && lastPos == old(lastPos) && lastCell == old(lastCell)
      && currentSelection == old(currentSelection) && lastReductionData == old(lastReductionData)
    }

    /** Pressing the button starts a zero-size selection at the pointer, with the Select tool only. */
    twostate predicate StartSelectEffect(cx: real, cy: real, env: Env, redraw: bool, new emitted: Option<Emission>)
      reads this
    {
      var w := env.camToWorld(old(camera), cx, cy);
      && currentSelection == (if old(currentTool) == Select
                              then Some(Rectangle2D(w.0, w.0, w.1, w.1))
                              else old(currentSelection))
      && redraw == (old(currentTool) == Select) && emitted == None
      && lastPos == old(lastPos) && lastCell == old(lastCell) && currentTool == old(currentTool)
      && camera == old(camera) && lastReductionData == old(lastReductionData)
    }

    /**
     * Releasing the button finishes an active selection at the pointer, emits
     * what EndSelectEmission says, and discards the selection.
     */
    twostate predicate EndSelectEffect(cx: real, cy: real, env: Env, redraw: bool, new emitted: Option<Emission>)
      requires env.Valid()
      reads this
    {
      && currentSelection == None
      && redraw
      && emitted == (match old(currentSelection)
                     case None => None
                     case Some(sel) =>
                       var w := env.camToWorld(old(camera), cx, cy);
                       EndSelectEmission(sel.(x2 := w.0, y2 := w.1), old(currentTool), old(lastCell),
                                         env.reductionData))
      && lastPos == old(lastPos) && lastCell == old(lastCell) && currentTool == old(currentTool)
      && camera == old(camera) && lastReductionData == old(lastReductionData)
    }

    method OnMouseMove(x: real, y: real, pressLeft: bool, env: Env) returns (redraw: bool, emitted: Option<Emission>)
      requires Valid()
      modifies this
      ensures Valid() && MouseMoveEffect(x, y, pressLeft, env, redraw, emitted)
    {
      var doUpdate := false;
      var prevPos := lastPos;
      lastPos := (x, y);

      var (wx, wy) := env.camToWorld(camera, x, y);
      var cp := env.closestPoint(wx, wy);

      var pointChanged := lastCell != cp;
      lastCell := cp;
      emitted := None;
      if pointChanged {
        emitted := Some(CellHovered(cp));
        doUpdate := true;
      }

      if currentSelection.Some? {
        currentSelection := Some(currentSelection.value.(x2 := wx, y2 := wy));
      }

      if currentTool == Zoom && pressLeft {
        var dx := x - prevPos.0;
        var dy := y - prevPos.1;
        camera := camera.(x := camera.x - dx / camera.zoomX, y := camera.y - dy / camera.zoomY);
        return true, emitted;
      }

      if currentSelection.Some? {
        doUpdate := true;
      }
      redraw := doUpdate;
    }

    method OnMouseWheel(dy: real, env: Env) returns (redraw: bool, emitted: Option<Emission>)
      requires Valid()
      modifies this
      ensures Valid() && MouseWheelEffect(dy, env, redraw, emitted)
    {
      var (cx, cy) := lastPos;
      var (wx, wy) := env.camToWorld(camera, cx, cy);
      camera := env.zoomAround(camera, wx, wy, dy);
      return true, None;
    }

    method OnSelectCurrentTool(t: CurrentTool, env: Env) returns (redraw: bool, emitted: Option<Emission>)
      requires Valid()
      modifies this
      ensures Valid() && SelectToolEffect(t, env, redraw, emitted)
    {
      if t == ZoomAll {
        if env.reductionData.Loaded? {
          camera := env.fitReduction(camera, env.reductionData.value);
        }
      } else {
        currentTool := t;
      }
      return true, None;
    }

    method OnMouseStartSelect(cx: real, cy: real, env: Env) returns (redraw: bool, emitted: Option<Emission>)
      requires Valid()
      modifies this
      ensures Valid() && StartSelectEffect(cx, cy, env, redraw, emitted)
    {
      emitted := None;
      if currentTool == Select {
        var (wx, wy) := env.camToWorld(camera, cx, cy);
        currentSelection := Some(Rectangle2D(wx, wx, wy, wy));
        redraw := true;
      } else {
        redraw := false;
      }
    }

    method OnMouseEndSelect(cx: real, cy: real, env: Env) returns (redraw: bool, emitted: Option<Emission>)
      requires Valid() && env.Valid()
      modifies this
      ensures Valid() && EndSelectEffect(cx, cy, env, redraw, emitted)
    {
      emitted := None;
      if currentSelection.Some? {
        var (wx, wy) := env.camToWorld(camera, cx, cy);
        var rect := currentSelection.value.(x2 := wx, y2 := wy);
        currentSelection := Some(rect);

        if env.reductionData.Loaded? {
          var d := env.reductionData.value;
          var rx := rect.RangeX();
          var ry := rect.RangeY();
          if rx.0 == rx.1 && ry.0 == ry.1 {
            if currentTool == Select && lastCell.Some? {
              emitted := Some(CellsClicked([lastCell.value]));
            }
          } else {
            var selectedVert := SelectInside(d, rx, ry);
            emitted := Some(CellsClicked(selectedVert));
          }
        }
        currentSelection := None;
      }
      redraw := true;
    }

    /** Handles one message; the result says whether the view must be redrawn. */
    method Update(msg: MsgReduction, env: Env) returns (redraw: bool, emitted: Option<Emission>)
      requires Valid() && env.Valid()
      modifies this
      ensures Valid()
      ensures match msg
        case MouseMove(x, y, pressLeft) => MouseMoveEffect(x, y, pressLeft, env, redraw, emitted)
        case MouseWheel(dy) => MouseWheelEffect(dy, env, redraw, emitted)
        case MouseClick => MouseClickEffect(redraw, emitted)
        case SelectCurrentTool(t) => SelectToolEffect(t, env, redraw, emitted)
        case MouseStartSelect(cx, cy) => StartSelectEffect(cx, cy, env, redraw, emitted)
        case MouseEndSelect(cx, cy) => EndSelectEffect(cx, cy, env, redraw, emitted)
    {
      match msg {
        case MouseMove(x, y, pressLeft) =>
          redraw, emitted := OnMouseMove(x, y, pressLeft, env);
        case MouseWheel(dy) =>
          redraw, emitted := OnMouseWheel(dy, env);
        case MouseClick =>
          redraw, emitted := false, None;
        case SelectCurrentTool(t) =>
          redraw, emitted := OnSelectCurrentTool(t, env);
        case MouseStartSelect(cx, cy) =>
          redraw, emitted := OnMouseStartSelect(cx, cy, env);
        case MouseEndSelect(cx, cy) =>
          redraw, emitted := OnMouseEndSelect(cx, cy, env);
      }
    }

    /**
     * After the DOM is built: with a loaded reduction, fit the camera when the
     * reduction differs from the last one seen, remember it, and build the
     * vertex buffer coloured by the active column. Without data nothing happens.
     */
    method Rendered(env: Env) returns (vertices: Option<seq<real>>)
      requires Valid() && RenderFits(env)
      modifies this
      ensures Valid()
      ensures lastPos == old(lastPos) && lastCell == old(lastCell) && currentTool == old(currentTool)
      ensures currentSelection == old(currentSelection)
      ensures match env.reductionData
        case Loaded(d) =>
          var column := ActiveColumn(env.colorReductionBy);
          && camera == (if !env.sameReduction(old(lastReductionData), env.reductionData)
                        then env.fitReduction(old(camera), d)
                        else old(camera))
          && lastReductionData == env.reductionData
          && vertices.Some?
          && IsVertexBuffer(vertices.value, d, column, env.palette, Normaliser(column, env.safeMax))
        case _ =>
          vertices == None && camera == old(camera) && lastReductionData == old(lastReductionData)
    {
      vertices := None;
      if env.reductionData.Loaded? {
        var datapoints := env.reductionData.value;
        if !env.sameReduction(lastReductionData, env.reductionData) {
          camera := env.fitReduction(camera, datapoints);
        }
        lastReductionData := env.reductionData;

        var column := ActiveColumn(env.colorReductionBy);
        var buf := BuildVertexBuffer(datapoints, env.colorReductionBy, env.palette, Normaliser(column, env.safeMax));
        vertices := Some(buf);
      }
    }
  }

  /**
   * A three-point session: choose Select, drag from (0, 0) to (3, 3) over
   * points (1, 1), (4, 4) and (2, 2), release; the view emits ids 0 and 2.
   */
  method ThreePointRectangleSelection() returns (emitted: Option<Emission>)
    ensures emitted == Some(CellsClicked([0, 2]))
  {
    var data := ConvertFromResponse([1.0, 4.0, 2.0], [1.0, 4.0, 2.0]);
    var env := Env(Loaded(data), NoColoring,
                   (c, x, y) => (x, y), (wx, wy) => None,
                   (c, wx, wy, dy) => c, (c, d) => c,
                   [], s => 1.0, (a, b) => a == b);
    var view := new ReductionView(Camera2D(0.0, 0.0, 1.0, 1.0));
    var redraw;
    redraw, emitted := view.Update(SelectCurrentTool(Select), env);
    redraw, emitted := view.Update(MouseStartSelect(0.0, 0.0), env);
    redraw, emitted := view.Update(MouseMove(3.0, 3.0, true), env);
    redraw, emitted := view.Update(MouseEndSelect(3.0, 3.0), env);
    var box := (0.0, 3.0);
    assert StrictlyInside(data, 0, box, box) && !StrictlyInside(data, 1, box, box) && StrictlyInside(data, 2, box, box);
    assert InsideIds(data, box, box, 1) == [] + [0];
    assert InsideIds(data, box, box, 2) == [0];
    assert InsideIds(data, box, box, 3) == [0, 2];
  }
}
