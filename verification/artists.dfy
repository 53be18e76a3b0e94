/** The parts of a rendered matplotlib figure that the styling code reads
    and writes: artists as values, and the axes as an object whose fields
    the styling passes update in place. */
module Artists {
  import opened Common

  /** One element of a line's x data, as `isinstance` sees it. */
  datatype ElemKind =
    | PyIntElem       // Python int
    | PyBoolElem      // Python bool (a subclass of int)
    | PyFloatElem     // Python float
    | NpFloat64Elem   // numpy float64 (a subclass of float)
    | NpInt64Elem     // numpy int64 (a subclass of neither)
    | DatetimeElem    // numpy datetime64 or a datetime object
    | StrElem
    | OtherElem

  /** `isinstance(e, (float, int))`. */
  predicate IsPyNumber(k: ElemKind)
  {
    k.PyIntElem? || k.PyBoolElem? || k.PyFloatElem? || k.NpFloat64Elem?
  }

  datatype DType = Datetime64 | Int64 | Float64 | ObjectDType | OtherDType

  /** A line's x data as `get_xdata()` returns it: the sequence the caller
      passed (a list or tuple, with no `dtype`), or an array with a dtype. */
  datatype XData = PySeq(elems: seq<ElemKind>) | NdArray(dtype: DType, elems: seq<ElemKind>)

  datatype Line2D = Line2D(
    xdata: XData, ydata: seq<real>, labelText: string,
    color: string, markerFaceColor: string, markerEdgeColor: string,
    linewidth: real, zorder: real)

  datatype Patch = Patch(labelText: string, faceColor: string, edgeColor: string)

  datatype PathCollection = PathCollection(labelText: string, faceColors: seq<string>, edgeColors: seq<string>)

  datatype Text = Text(text: string, color: string, fontSize: nat, fontWeight: string, lineSpacing: real)

  /** A legend handle, by the classes wbpyplot tells apart. */
  datatype Handle =
    | LineHandle(line: Line2D)
    | CollectionHandle(coll: PathCollection)
    | PatchHandle(patch: Patch)
    | OtherHandle

  datatype Legend = Legend(handles: seq<Handle>, texts: seq<Text>)

  /** The major grid: visibility, dash pattern (on, off), width and colour. */
  datatype Grid = Grid(visible: bool, dashes: seq<real>, linewidth: real, color: string)

  /** A figure's size in inches and its resolution. */
  datatype Figure = Figure(widthIn: real, heightIn: real, dpi: real)
  {
    predicate Valid() { widthIn > 0.0 && heightIn > 0.0 && dpi > 0.0 }
    function WidthPx(): real { widthIn * dpi }
    function HeightPx(): real { heightIn * dpi }
  }

  /** A snapshot of every field of an `Axes`. */
  datatype AxesState = AxesState(
    lines: seq<Line2D>, patches: seq<Patch>, collections: seq<PathCollection>,
    texts: seq<Text>, legend: Option<Legend>,
    xLabel: Text, yLabel: Text, xLabelPad: real, yLabelPad: real,
    xTicks: seq<real>, xTickLabels: seq<Text>, yTickLabels: seq<Text>,
    grid: Grid, yScale: string, yLim: (real, real))

  /** One plotting region. `lines` holds every Line2D on the axes,
      including reference lines added with `axhline`; `yLim` is the y range
      as read after a canvas draw. */
  class Axes {
    var lines: seq<Line2D>
    var patches: seq<Patch>
    var collections: seq<PathCollection>
    var texts: seq<Text>
    var legend: Option<Legend>
    var xLabel: Text
    var yLabel: Text
    var xLabelPad: real
    var yLabelPad: real
    var xTicks: seq<real>
    var xTickLabels: seq<Text>
    var yTickLabels: seq<Text>
    var grid: Grid
    var yScale: string
    var yLim: (real, real)

    function State(): AxesState
      reads this
    {
      AxesState(lines, patches, collections, texts, legend, xLabel, yLabel,
                xLabelPad, yLabelPad, xTicks, xTickLabels, yTickLabels, grid, yScale, yLim)
    }

    constructor (s: AxesState)
      ensures State() == s
    {
      lines, patches, collections, texts, legend := s.lines, s.patches, s.collections, s.texts, s.legend;
      xLabel, yLabel, xLabelPad, yLabelPad := s.xLabel, s.yLabel, s.xLabelPad, s.yLabelPad;
      xTicks, xTickLabels, yTickLabels := s.xTicks, s.xTickLabels, s.yTickLabels;
      grid, yScale, yLim := s.grid, s.yScale, s.yLim;
    }
  }
}
