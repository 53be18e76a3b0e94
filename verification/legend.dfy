/** The figure legend drawn below the plot: when it is suppressed, and the
    marker handles, labels, column count and anchor it is drawn with. */
module Legend {
  import opened Common
  import opened Theme
  import opened Artists

  /** The set of distinct labels. */
  function Distinct(labels: seq<string>): set<string>
  {
    set l | l in labels
  }

  /** `should_suppress_legend`: at most one distinct label. The handles
      are not consulted. */
  predicate ShouldSuppressLegend(handles: seq<Handle>, labels: seq<string>)
  {
    |Distinct(labels)| <= 1
  }

  /** Suppressed exactly when all labels are equal, so in particular when
      there are none. */
  lemma SuppressIffAllEqual(handles: seq<Handle>, labels: seq<string>)
    ensures ShouldSuppressLegend(handles, labels) <==>
            forall i, j :: 0 <= i < |labels| && 0 <= j < |labels| ==> labels[i] == labels[j]
    ensures labels == [] ==> ShouldSuppressLegend(handles, labels)
  {
    var d := Distinct(labels);
    if labels == [] {
      assert d == {};
    } else if forall i :: 0 <= i < |labels| ==> labels[i] == labels[0] {
      assert d == {labels[0]};
    } else {
      var k :| 0 <= k < |labels| && labels[k] != labels[0];
      assert {labels[0], labels[k]} <= d;
      CardOfSubset({labels[0], labels[k]}, d);
    }
  }

  lemma CardOfSubset<T>(a: set<T>, b: set<T>)
    requires a <= b
    ensures |a| <= |b|
  {
    if a != {} {
      var x :| x in a;
      CardOfSubset(a - {x}, b - {x});
    }
  }

  /** A shown legend has at least two entries in its label list. */
  lemma ShownLegendHasTwoLabels(handles: seq<Handle>, labels: seq<string>)
    requires !ShouldSuppressLegend(handles, labels)
    ensures |labels| >= 2
  {
    SuppressIffAllEqual(handles, labels);
  }

  const NoColor := "#CED4DE"

  /** The colour a custom handle takes from the original handle: a line's
      own colour, a collection's first face colour, grey otherwise. */
  function HandleColor(h: Handle): (c: string)
    ensures h.LineHandle? ==> c == h.line.color
    ensures h.CollectionHandle? && h.coll.faceColors != [] ==> c == h.coll.faceColors[0]
    ensures !h.LineHandle? && !(h.CollectionHandle? && h.coll.faceColors != []) ==> c == NoColor
  {
    match h
    case LineHandle(l) => l.color
    case CollectionHandle(p) => if |p.faceColors| > 0 then p.faceColors[0] else NoColor
    case _ => NoColor
  }

  /** A round, edgeless marker of size 7 in the given face colour. */
  datatype Marker = Marker(shape: string, size: real, edgeWidth: real, faceColor: string)

  function MarkerFor(h: Handle): Marker
  {
    Marker("o", 7.0, 0.0, HandleColor(h))
  }

  /** What `fig.legend` is called with. */
  datatype FigureLegend = FigureLegend(
    markers: seq<Marker>, labels: seq<string>, ncol: int, anchorX: real, anchorY: real)

  function UpperAll(labels: seq<string>): (u: seq<string>)
    ensures |u| == |labels|
    ensures forall i :: 0 <= i < |labels| ==> u[i] == Upper(labels[i])
  {
    seq(|labels|, i requires 0 <= i < |labels| => Upper(labels[i]))
  }

  /** `render_legend_below_plot`: one marker per handle/label pair up to
      the shorter list, every label upper-cased, at most three columns
      counted over the whole label list, anchored `xl` pixels above
      `yPosition`. */
  method RenderLegendBelowPlot(fig: Figure, handles: seq<Handle>, labels: seq<string>,
                               spacing: Spacing, yPosition: real) returns (lg: FigureLegend)
    requires fig.Valid()
    ensures |lg.markers| == Min(|handles|, |labels|)
    ensures forall i :: 0 <= i < |lg.markers| ==> lg.markers[i] == MarkerFor(handles[i])
    ensures |lg.labels| == |labels|
    ensures forall i :: 0 <= i < |labels| ==> lg.labels[i] == Upper(labels[i])
    ensures lg.ncol == Min(|labels|, 3)
    ensures lg.anchorX == 0.5
    ensures (lg.anchorY - yPosition) * fig.HeightPx() == spacing.xl as real
  {
    var spacingY := spacing.xl as real / fig.HeightPx();
    var upper := UpperAll(labels);

    var markers: seq<Marker> := [];
    var i := 0;
    while i < |handles| && i < |upper|
      invariant 0 <= i <= Min(|handles|, |upper|)
      invariant |markers| == i
      invariant forall j :: 0 <= j < i ==> markers[j] == MarkerFor(handles[j])
    {
      var h := handles[i];
      var color: string;
      if h.LineHandle? {
        color := h.line.color;
      } else if h.CollectionHandle? {
        color := if |h.coll.faceColors| > 0 then h.coll.faceColors[0] else NoColor;
      } else {
        color := NoColor;
      }
      markers := markers + [Marker("o", 7.0, 0.0, color)];
      i := i + 1;
    }

    lg := FigureLegend(markers, upper, Min(|upper|, 3), 0.5, yPosition + spacingY);
  }

  /** Whenever the legend is shown, it has two or three columns. */
  lemma ShownLegendColumns(handles: seq<Handle>, labels: seq<string>)
    requires !ShouldSuppressLegend(handles, labels)
    ensures 2 <= Min(|labels|, 3) <= 3
  {
    ShownLegendHasTwoLabels(handles, labels);
  }

  /** The labels drawn are already upper case: upper-casing them again
      changes nothing. */
  lemma DrawnLabelsStable(labels: seq<string>)
    ensures UpperAll(UpperAll(labels)) == UpperAll(labels)
  {
    forall i | 0 <= i < |labels|
      ensures UpperAll(UpperAll(labels))[i] == UpperAll(labels)[i]
    {
      UpperIdempotent(labels[i]);
    }
  }
}
