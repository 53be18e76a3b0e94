/** Chart-type detection and the per-category axis styling rules. */
module Axis {
  import opened Common
  import opened Theme
  import opened Artists

  /** The three categories `detect_chart_type` produces. */
  datatype ChartType = Timeseries | Scatter | SingleNumeric

  /** The outcome of asking the axes for its lines. */
  datatype LinesQuery = Raised | Returned(lines: seq<Line2D>)

  predicate HasDatetimeDType(x: XData)
  {
    x.NdArray? && x.dtype == Datetime64
  }

  predicate StartsWithPyNumber(x: XData)
  {
    |x.elems| > 0 && IsPyNumber(x.elems[0])
  }

  // ---------------------------------------------------------------------
  // detect_chart_type
  // ---------------------------------------------------------------------

  /** First match wins over the first line's x data: a datetime64 dtype
      gives Timeseries, then a Python int or float first element gives
      Scatter; everything else, including no lines at all or a failing
      query, gives SingleNumeric. */
  function DetectChartType(q: LinesQuery): (t: ChartType)
    ensures q.Raised? || q.lines == [] ==> t == SingleNumeric
    ensures q.Returned? && q.lines != [] ==>
              (t == Timeseries <==> HasDatetimeDType(q.lines[0].xdata))
    ensures q.Returned? && q.lines != [] && !HasDatetimeDType(q.lines[0].xdata) ==>
              (t == Scatter <==> StartsWithPyNumber(q.lines[0].xdata))
  {
    match q
    case Raised => SingleNumeric
    case Returned(lines) =>
      if lines == [] then SingleNumeric
      else
        var x := lines[0].xdata;
        if HasDatetimeDType(x) then Timeseries
        else if StartsWithPyNumber(x) then Scatter
        else SingleNumeric
  }

  /** Only the first line is looked at. */
  lemma OnlyFirstLineMatters(a: seq<Line2D>, b: seq<Line2D>)
    requires a != [] && b != [] && a[0] == b[0]
    ensures DetectChartType(Returned(a)) == DetectChartType(Returned(b))
  {
  }

  /** The datetime check comes first: a datetime64 array is Timeseries
      whatever its elements are. */
  lemma DatetimeBeforeNumber(lines: seq<Line2D>)
    requires lines != [] && HasDatetimeDType(lines[0].xdata)
    ensures DetectChartType(Returned(lines)) == Timeseries
  {
  }

  // ---------------------------------------------------------------------
  // apply_axis_styling
  // ---------------------------------------------------------------------

  const LabelColor := "#111111"
  const TickColor := "#666666"
  const GridColor := "#CED4DE"
  const ZeroLineColor := "#8A969F"

  /** The grid the styling turns on: dashes (4, 2), width 1, light grey. */
  const MajorGrid := Grid(true, [4.0, 2.0], 1.0, GridColor)

  /** The line `axhline(0, linewidth=1, color=..., zorder=5)` adds: it spans
      the axes from 0 to 1 in axes coordinates, given as a list of ints. */
  const ZeroLine := Line2D(PySeq([PyIntElem, PyIntElem]), [0.0, 0.0], "",
                           ZeroLineColor, ZeroLineColor, ZeroLineColor, 1.0, 5.0)

  function AxisLabelStyle(t: Text, size: nat): Text
  {
    t.(fontSize := size, fontWeight := "semibold", color := LabelColor, lineSpacing := 1.2)
  }

  function TickLabelStyle(t: Text, size: nat): Text
  {
    t.(fontSize := size, fontWeight := "regular", color := TickColor, lineSpacing := 1.2)
  }

  function TickLabelsStyle(ts: seq<Text>, size: nat): (r: seq<Text>)
    ensures |r| == |ts|
    ensures forall i :: 0 <= i < |ts| ==> r[i] == TickLabelStyle(ts[i], size)
  {
    seq(|ts|, i requires 0 <= i < |ts| => TickLabelStyle(ts[i], size))
  }

  /** `add_zero_line` draws only for these categories, on a linear y axis
      whose range contains zero. */
  predicate ZeroLineDue(ct: ChartType, yScale: string, yLim: (real, real))
  {
    (ct == Scatter || ct == SingleNumeric) && yScale == "linear" && yLim.0 <= 0.0 <= yLim.1
  }

  /** Typography shared by every category. */
  predicate BaseStyled(s: AxesState, size: nat)
  {
    && s.xLabel.fontSize == size && s.xLabel.fontWeight == "semibold" && s.xLabel.color == LabelColor && s.xLabel.lineSpacing == 1.2
    && s.yLabel.fontSize == size && s.yLabel.fontWeight == "semibold" && s.yLabel.color == LabelColor && s.yLabel.lineSpacing == 1.2
    && (forall t :: t in s.xTickLabels ==> t.fontSize == size && t.fontWeight == "regular" && t.color == TickColor && t.lineSpacing == 1.2)
    && (forall t :: t in s.yTickLabels ==> t.fontSize == size && t.fontWeight == "regular" && t.color == TickColor && t.lineSpacing == 1.2)
    && s.grid == MajorGrid
  }

  /** Labels, tick labels and grid: the part of the styling every
      category gets. */
  function Typeset(s: AxesState, size: nat): AxesState
  {
    s.(xLabel := AxisLabelStyle(s.xLabel, size),
       yLabel := AxisLabelStyle(s.yLabel, size),
       xTickLabels := TickLabelsStyle(s.xTickLabels, size),
       yTickLabels := TickLabelsStyle(s.yTickLabels, size),
       grid := MajorGrid)
  }

  /** `add_zero_line`, run for the categories that call it. */
  function WithZeroLine(s: AxesState, ct: ChartType): AxesState
  {
    if ZeroLineDue(ct, s.yScale, s.yLim) then s.(lines := s.lines + [ZeroLine]) else s
  }

  /** The category-specific part: label pads for scatter, a cleared x axis
      for timeseries. */
  function CategoryAdjusted(s: AxesState, spacing: Spacing, ct: ChartType): AxesState
  {
    match ct
    case Scatter =>
      s.(xLabelPad := spacing.xxs as real, yLabelPad := spacing.xxs as real)
    case Timeseries =>
      s.(xLabel := s.xLabel.(text := ""), xTicks := [], xTickLabels := [])
    case SingleNumeric =>
      s
  }

  /** The state `apply_axis_styling` leaves behind. */
  function StyleAxes(s: AxesState, fonts: FontSizes, spacing: Spacing, ct: ChartType): AxesState
  {
    CategoryAdjusted(WithZeroLine(Typeset(s, fonts.s), ct), spacing, ct)
  }

  /** What styling does to each part of the axes, and what it leaves alone. */
  lemma StyleAxesEffect(s: AxesState, fonts: FontSizes, spacing: Spacing, ct: ChartType)
    ensures var r := StyleAxes(s, fonts, spacing, ct);
            (BaseStyled(r, fonts.s))
            && (ZeroLineDue(ct, s.yScale, s.yLim) ==> r.lines == s.lines + [ZeroLine])
            && (!ZeroLineDue(ct, s.yScale, s.yLim) ==> r.lines == s.lines)
            && (ct == Scatter ==> r.xLabelPad == spacing.xxs as real && r.yLabelPad == spacing.xxs as real)
            && (ct != Scatter ==> r.xLabelPad == s.xLabelPad && r.yLabelPad == s.yLabelPad)
            && (ct == Timeseries ==> r.xLabel.text == "" && r.xTicks == [] && r.xTickLabels == [])
            && (ct != Timeseries ==> r.xLabel.text == s.xLabel.text && r.xTicks == s.xTicks && r.xTickLabels == TickLabelsStyle(s.xTickLabels, fonts.s))
            && (r.yLabel.text == s.yLabel.text && r.yTickLabels == TickLabelsStyle(s.yTickLabels, fonts.s))
            && (forall i :: 0 <= i < |s.yTickLabels| ==> r.yTickLabels[i].text == s.yTickLabels[i].text)
            && (r.patches == s.patches && r.collections == s.collections && r.texts == s.texts)
            && (r.legend == s.legend && r.yScale == s.yScale && r.yLim == s.yLim)
  {
  }

  /** Nothing de-duplicates the zero line: styling twice adds it twice,
      and apart from that second line the second pass changes nothing. */
  lemma StylingTwice(s: AxesState, fonts: FontSizes, spacing: Spacing, ct: ChartType)
    ensures var once := StyleAxes(s, fonts, spacing, ct);
            var twice := StyleAxes(once, fonts, spacing, ct);
            twice == once.(lines := twice.lines)
            && (ZeroLineDue(ct, s.yScale, s.yLim) ==> twice.lines == s.lines + [ZeroLine, ZeroLine])
            && (!ZeroLineDue(ct, s.yScale, s.yLim) ==> twice.lines == s.lines)
  {
    var once := StyleAxes(s, fonts, spacing, ct);
    var twice := StyleAxes(once, fonts, spacing, ct);
    assert twice.xLabel == once.xLabel;
    assert twice.yLabel == once.yLabel;
    assert twice.xTickLabels == once.xTickLabels;
    assert twice.yTickLabels == once.yTickLabels;
    if ZeroLineDue(ct, s.yScale, s.yLim) {
      assert twice.lines == (s.lines + [ZeroLine]) + [ZeroLine];
    }
  }

  /** Styling never changes the category of an axes that already had a
      line: the zero line is appended after the first line. */
  lemma StylingKeepsCategoryOfDrawnLines(s: AxesState, fonts: FontSizes, spacing: Spacing, ct: ChartType)
    requires s.lines != []
    ensures DetectChartType(Returned(StyleAxes(s, fonts, spacing, ct).lines)) == DetectChartType(Returned(s.lines))
  {
    var r := StyleAxes(s, fonts, spacing, ct);
    assert r.lines[0] == s.lines[0];
  }

  /** An axes with no lines is SingleNumeric; once styled with 0 in a
      linear y range it holds the zero line, whose x data is a list of
      ints, so detecting again gives Scatter. */
  lemma StylingEmptyAxesMakesItScatter(s: AxesState, fonts: FontSizes, spacing: Spacing)
    requires s.lines == [] && s.yScale == "linear" && s.yLim.0 <= 0.0 <= s.yLim.1
    ensures DetectChartType(Returned(s.lines)) == SingleNumeric
    ensures DetectChartType(Returned(StyleAxes(s, fonts, spacing, SingleNumeric).lines)) == Scatter
  {
    assert StyleAxes(s, fonts, spacing, SingleNumeric).lines == [ZeroLine];
  }

  /** Restyles tick labels one at a time, as wbpyplot's loops over
      `get_xticklabels()` and `get_yticklabels()` do. */
  method StyleTickLabels(ts: seq<Text>, size: nat) returns (r: seq<Text>)
    ensures r == TickLabelsStyle(ts, size)
  {
    r := ts;
    var i := 0;
    while i < |r|
      invariant 0 <= i <= |r| == |ts|
      invariant forall j :: 0 <= j < i ==> r[j] == TickLabelStyle(ts[j], size)
      invariant forall j :: i <= j < |r| ==> r[j] == ts[j]
    {
      r := r[i := TickLabelStyle(r[i], size)];
      i := i + 1;
    }
  }

  method TypesetAxes(ax: Axes, size: nat)
    modifies ax
    ensures ax.State() == Typeset(old(ax.State()), size)
  {
    ax.xLabel := AxisLabelStyle(ax.xLabel, size);
    ax.yLabel := AxisLabelStyle(ax.yLabel, size);
    ax.xTickLabels := StyleTickLabels(ax.xTickLabels, size);
    ax.yTickLabels := StyleTickLabels(ax.yTickLabels, size);
    ax.grid := MajorGrid;
  }

  method AddZeroLine(ax: Axes, ct: ChartType)
    modifies ax
    ensures ax.State() == WithZeroLine(old(ax.State()), ct)
  {
    if ct == Scatter || ct == SingleNumeric {
      if ax.yScale == "linear" && ax.yLim.0 <= 0.0 <= ax.yLim.1 {
        ax.lines := ax.lines + [ZeroLine];
      }
    }
  }

  method AdjustForCategory(ax: Axes, spacing: Spacing, ct: ChartType)
    modifies ax
    ensures ax.State() == CategoryAdjusted(old(ax.State()), spacing, ct)
  {
    if ct == Scatter {
      ax.xLabelPad := spacing.xxs as real;
      ax.yLabelPad := spacing.xxs as real;
    } else if ct == Timeseries {
      ax.xLabel := ax.xLabel.(text := "");
      ax.xTicks := [];
      ax.xTickLabels := [];
    }
  }

  /** `apply_axis_styling(ax, wb_font_sizes, wb_spacing, chart_type)`. */
  method ApplyAxisStyling(ax: Axes, fonts: FontSizes, spacing: Spacing, ct: ChartType)
    modifies ax
    ensures ax.State() == StyleAxes(old(ax.State()), fonts, spacing, ct)
  {
    TypesetAxes(ax, fonts.s);
    AddZeroLine(ax, ct);
    AdjustForCategory(ax, spacing, ct);
  }
}
