/** The tool state of the desktop application's image view: the zoom, pan and pen switches of the menus, the
    drawing and dragging state that the mouse handlers keep between events, the analysis result that
    `run_analysis` stores, and the plot-type switch that redraws the stored series or shows a notice. Redrawing the
    canvas, the axis limits that zoom and pan change, pen colour and size are not modelled; the pen strokes are
    recorded as the segments the motion handler plots. */
module DesktopTools {
  import opened Common
  import opened Charts

  datatype Point = Point(x: real, y: real)

  /** A matplotlib mouse event: the data coordinates when the cursor is over an axes (`inaxes` set), and the
      button number (1 is the left button). */
  datatype MouseEvent = MouseEvent(inAxes: Option<Point>, button: int)

  /** One line segment drawn by the pen, from the previous point to the current one. */
  datatype Segment = Segment(from: Point, to: Point)

  /** What `change_plot_type` reads of the stored analysis result: whether the dict is truthy (non-empty), and its
      list-valued entries by key. */
  datatype AnalysisResult = AnalysisResult(nonEmpty: bool, lists: map<string, seq<real>>)

  /** What follows a call of `change_plot_type`: nothing, a `plot_distribution` call with its data, title and axis
      label, or a `messagebox.showinfo` notice. */
  datatype PlotAction = Unchanged | Plot(values: seq<real>, title: string, xLabel: string) | Notify(message: string)

  const NoAnalysisMessage: string := "请先进行分析，再查看图表"

  /** The result entry each analysis plots: the areas of holes and grains, the crack widths. */
  function SeriesKey(kind: AnalysisKind): string
  {
    if kind == CrackKind then "裂缝宽度列表" else "面积列表"
  }

  function SeriesTitle(kind: AnalysisKind): string
  {
    match kind
    case HoleKind => "孔洞面积分布"
    case CrackKind => "裂缝宽度分布"
    case GrainKind => "粒度分布"
  }

  function SeriesLabel(kind: AnalysisKind): string
  {
    if kind == CrackKind then "宽度" else "面积"
  }

  /** The notice for a result without the entry, or with an empty one. */
  function NoSeriesMessage(kind: AnalysisKind): string
  {
    match kind
    case HoleKind => "孔洞分析结果中没有面积数据"
    case CrackKind => "裂缝分析结果中没有宽度数据"
    case GrainKind => "粒度分析结果中没有面积数据"
  }

  /** The notice for an entry without a positive value. */
  function NoValidSeriesMessage(kind: AnalysisKind): string
  {
    match kind
    case HoleKind => "孔洞分析结果中没有有效面积数据"
    case CrackKind => "裂缝分析结果中没有有效宽度数据"
    case GrainKind => "粒度分析结果中没有有效面积数据"
  }

  /** What `change_plot_type` does after storing a new type: without a truthy result and an analysis type it asks
      for an analysis first; otherwise it plots the positive values of the analysis's entry, or tells that the entry
      is missing, empty, or has no positive value. */
  function Replot(result: Option<AnalysisResult>, kind: Option<AnalysisKind>): (a: PlotAction)
    ensures !a.Unchanged?
    ensures a == Notify(NoAnalysisMessage) <==> result.None? || !result.value.nonEmpty || kind.None?
    ensures a.Plot? <==>
      && result.Some? && result.value.nonEmpty && kind.Some?
      && SeriesKey(kind.value) in result.value.lists && |Positive(result.value.lists[SeriesKey(kind.value)])| > 0
    ensures a.Plot? ==>
      && a.values == Positive(result.value.lists[SeriesKey(kind.value)])
      && a.title == SeriesTitle(kind.value) && a.xLabel == SeriesLabel(kind.value)
    ensures result.Some? && result.value.nonEmpty && kind.Some? && SeriesKey(kind.value) in result.value.lists
            && |result.value.lists[SeriesKey(kind.value)]| > 0 && !a.Plot?
            ==> a == Notify(NoValidSeriesMessage(kind.value))
  {
    if result.None? || !result.value.nonEmpty || kind.None? then Notify(NoAnalysisMessage)
    else
      var key := SeriesKey(kind.value);
      if key !in result.value.lists || |result.value.lists[key]| == 0 then Notify(NoSeriesMessage(kind.value))
      else
        var data := Positive(result.value.lists[key]);
        if |data| > 0 then Plot(data, SeriesTitle(kind.value), SeriesLabel(kind.value))
        else Notify(NoValidSeriesMessage(kind.value))
  }

  /** A replot always has positive data, so `plot_distribution` never shows its no-data or invalid-data text, and
      a pie is always drawn for it. */
  lemma ReplotDrawsChart(result: Option<AnalysisResult>, kind: Option<AnalysisKind>, plotType: string)
    requires Replot(result, kind).Plot?
    ensures var a := Replot(result, kind);
      && !PlanChart(a.values, plotType, kind).NoData? && !PlanChart(a.values, plotType, kind).InvalidData?
      && (plotType == "pie" ==> PlanChart(a.values, plotType, kind).Pie?)
  {
    var a := Replot(result, kind);
    PositiveExactly(a.values, 0.0);
    FilterAll(a.values, IsPositive());
    assert Positive(a.values) == a.values;
    if plotType == "pie" {
      PieAlwaysAvailable(a.values, kind.value);
    }
  }

  class ToolState {
    var zoomEnabled: bool
    var panEnabled: bool
    var penEnabled: bool
    var isDrawing: bool
    var lastX: Option<real>
    var lastY: Option<real>
    var press: Option<Point>
    var plotType: string
    var strokes: seq<Segment>
    var analysisResult: Option<AnalysisResult>
    var analysisKind: Option<AnalysisKind>

    /** What the handlers keep true together: drawing happens only with the pen on and always has a previous
        point, the previous point is cleared whenever drawing stops, and a drag origin exists only while panning
        is on. */
    ghost predicate Valid()
      reads this
    {
      && (isDrawing ==> penEnabled && lastX.Some? && lastY.Some?)
      && (!isDrawing ==> lastX.None? && lastY.None?)
      && (press.Some? ==> panEnabled)
    }

    /** The initial values set in `__init__` and `setup_gui`. */
    constructor ()
      ensures Valid()
      ensures !zoomEnabled && !panEnabled && !penEnabled && !isDrawing
      ensures lastX.None? && lastY.None? && press.None?
      ensures plotType == "histogram" && strokes == []
      ensures analysisResult.None? && analysisKind.None?
    {
      zoomEnabled := false;
      panEnabled := false;
      penEnabled := false;
      isDrawing := false;
      lastX := None;
      lastY := None;
      press := None;
      plotType := "histogram";
      strokes := [];
      analysisResult := None;
      analysisKind := None;
    }

    /** `toggle_zoom(enable)`: only the zoom switch changes. */
    method ToggleZoom(enable: bool)
      requires Valid()
      modifies this
      ensures Valid()
      ensures zoomEnabled == enable
      ensures panEnabled == old(panEnabled) && penEnabled == old(penEnabled) && isDrawing == old(isDrawing)
      ensures lastX == old(lastX) && lastY == old(lastY) && press == old(press)
      ensures plotType == old(plotType) && strokes == old(strokes)
      ensures analysisResult == old(analysisResult) && analysisKind == old(analysisKind)
    {
      zoomEnabled := enable;
    }

    /** `toggle_pan(enable)`: switching panning off also forgets the drag origin. */
    method TogglePan(enable: bool)
      requires Valid()
      modifies this
      ensures Valid()
      ensures panEnabled == enable
      ensures press == (if enable then old(press) else None)
      ensures zoomEnabled == old(zoomEnabled) && penEnabled == old(penEnabled) && isDrawing == old(isDrawing)
      ensures lastX == old(lastX) && lastY == old(lastY)
      ensures plotType == old(plotType) && strokes == old(strokes)
      ensures analysisResult == old(analysisResult) && analysisKind == old(analysisKind)
    {
      panEnabled := enable;
      if !enable {
        press := None;
      }
    }

    /** `toggle_pen(enable)`: switching the pen off ends any drawing and clears the previous point. */
    method TogglePen(enable: bool)
      requires Valid()
      modifies this
      ensures Valid()
      ensures penEnabled == enable
      ensures isDrawing == (enable && old(isDrawing))
      ensures !enable ==> lastX.None? && lastY.None?
      ensures enable ==> lastX == old(lastX) && lastY == old(lastY)
      ensures zoomEnabled == old(zoomEnabled) && panEnabled == old(panEnabled) && press == old(press)
      ensures plotType == old(plotType) && strokes == old(strokes)
      ensures analysisResult == old(analysisResult) && analysisKind == old(analysisKind)
    {
      penEnabled := enable;
      if !enable {
        isDrawing := false;
        lastX := None;
        lastY := None;
      }
    }

    /** `on_mouse_press`: outside the axes nothing happens; a left press with the pen on starts drawing at the
        cursor and leaves the drag origin alone; otherwise, with panning on, the cursor becomes the drag origin. */
    method OnMousePress(event: MouseEvent)
      requires Valid()
      modifies this
      ensures Valid()
      ensures zoomEnabled == old(zoomEnabled) && panEnabled == old(panEnabled) && penEnabled == old(penEnabled)
      ensures plotType == old(plotType) && strokes == old(strokes)
      ensures analysisResult == old(analysisResult) && analysisKind == old(analysisKind)
      ensures event.inAxes.None? ==>
        isDrawing == old(isDrawing) && lastX == old(lastX) && lastY == old(lastY) && press == old(press)
      ensures event.inAxes.Some? && penEnabled && event.button == 1 ==>
        && isDrawing
        && lastX == Some(event.inAxes.value.x) && lastY == Some(event.inAxes.value.y)
        && press == old(press)
      ensures event.inAxes.Some? && !(penEnabled && event.button == 1) ==>
        && isDrawing == old(isDrawing) && lastX == old(lastX) && lastY == old(lastY)
        && press == (if panEnabled then Some(event.inAxes.value) else old(press))
    {
      if event.inAxes.None? {
        return;
      }
      var p := event.inAxes.value;
      if penEnabled && event.button == 1 {
        isDrawing := true;
        lastX, lastY := Some(p.x), Some(p.y);
        return;
      }
      if panEnabled {
        press := Some(p);
      }
    }

    /** `on_mouse_release`: a release while drawing ends the stroke and clears the previous point, leaving the
        drag origin alone; otherwise, with panning on, it ends the drag. */
    method OnMouseRelease(event: MouseEvent)
      requires Valid()
      modifies this
      ensures Valid()
      ensures !isDrawing
      ensures zoomEnabled == old(zoomEnabled) && panEnabled == old(panEnabled) && penEnabled == old(penEnabled)
      ensures plotType == old(plotType) && strokes == old(strokes)
      ensures analysisResult == old(analysisResult) && analysisKind == old(analysisKind)
      ensures old(isDrawing) ==> lastX.None? && lastY.None? && press == old(press)
      ensures !old(isDrawing) ==>
        lastX == old(lastX) && lastY == old(lastY) && press == (if panEnabled then None else old(press))
    {
      if isDrawing {
        isDrawing := false;
        lastX := None;
        lastY := None;
        return;
      }
      if panEnabled {
        press := None;
      }
    }

    /** `on_mouse_motion`: outside the axes nothing happens; while drawing, the segment from the previous point to
        the cursor is drawn and the cursor becomes the previous point; otherwise, while dragging, the cursor
        becomes the new drag origin. */
    method OnMouseMotion(event: MouseEvent)
      requires Valid()
      modifies this
      ensures Valid()
      ensures zoomEnabled == old(zoomEnabled) && panEnabled == old(panEnabled) && penEnabled == old(penEnabled)
      ensures isDrawing == old(isDrawing) && plotType == old(plotType)
      ensures analysisResult == old(analysisResult) && analysisKind == old(analysisKind)
      ensures event.inAxes.None? ==>
        lastX == old(lastX) && lastY == old(lastY) && press == old(press) && strokes == old(strokes)
      ensures event.inAxes.Some? && old(isDrawing) ==>
        && lastX == Some(event.inAxes.value.x) && lastY == Some(event.inAxes.value.y)
        && press == old(press)
        && strokes == old(strokes) + [Segment(Point(old(lastX).value, old(lastY).value), event.inAxes.value)]
      ensures event.inAxes.Some? && !old(isDrawing) ==>
        && lastX == old(lastX) && lastY == old(lastY) && strokes == old(strokes)
        && press == (if panEnabled && old(press).Some? then Some(event.inAxes.value) else old(press))
    {
      if event.inAxes.None? {
        return;
      }
      var p := event.inAxes.value;
      if isDrawing && lastX.Some? && lastY.Some? {
        strokes := strokes + [Segment(Point(lastX.value, lastY.value), p)];
        lastX, lastY := Some(p.x), Some(p.y);
        return;
      }
      if panEnabled && press.Some? {
        press := Some(p);
      }
    }

    /** The assignments `run_analysis` makes once an analysis has returned: the result and its kind are stored. */
    method RecordAnalysis(kind: AnalysisKind, result: AnalysisResult)
      requires Valid()
      modifies this
      ensures Valid()
      ensures analysisResult == Some(result) && analysisKind == Some(kind)
      ensures zoomEnabled == old(zoomEnabled) && panEnabled == old(panEnabled) && penEnabled == old(penEnabled)
      ensures isDrawing == old(isDrawing) && lastX == old(lastX) && lastY == old(lastY) && press == old(press)
      ensures plotType == old(plotType) && strokes == old(strokes)
    {
      analysisResult := Some(result);
      analysisKind := Some(kind);
    }

    /** `change_plot_type(plot_type)`: choosing the current type does nothing at all; another type is stored, and
        then the stored analysis decides between a chart and a notice (`Replot`). */
    method ChangePlotType(newType: string) returns (action: PlotAction)
      requires Valid()
      modifies this
      ensures Valid()
      ensures newType == old(plotType) ==> action == Unchanged
      ensures newType != old(plotType) ==> action == Replot(analysisResult, analysisKind)
      ensures plotType == newType
      ensures zoomEnabled == old(zoomEnabled) && panEnabled == old(panEnabled) && penEnabled == old(penEnabled)
      ensures isDrawing == old(isDrawing) && lastX == old(lastX) && lastY == old(lastY) && press == old(press)
      ensures strokes == old(strokes)
      ensures analysisResult == old(analysisResult) && analysisKind == old(analysisKind)
    {
      if newType == plotType {
        return Unchanged;
      }
      plotType := newType;
      if analysisResult.None? || !analysisResult.value.nonEmpty || analysisKind.None? {
        return Notify(NoAnalysisMessage);
      }
      var kind := analysisKind.value;
      var key := SeriesKey(kind);
      if key !in analysisResult.value.lists || |analysisResult.value.lists[key]| == 0 {
        return Notify(NoSeriesMessage(kind));
      }
      var data := Positive(analysisResult.value.lists[key]);
      if |data| > 0 {
        action := Plot(data, SeriesTitle(kind), SeriesLabel(kind));
      } else {
        action := Notify(NoValidSeriesMessage(kind));
      }
    }
  }
}
