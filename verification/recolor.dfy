/** Label-driven recolouring of artists already drawn on a list of axes:
    lines, patches and collections by label, annotation texts by their
    text, and legend handles by the text beside them. */
module Recolor {
  import opened Common
  import opened Artists

  // ---------------------------------------------------------------------
  // One artist
  // ---------------------------------------------------------------------

  function LineRecolored(l: Line2D, m: map<string, string>): Line2D
  {
    if l.labelText in m then l.(color := m[l.labelText]) else l
  }

  function PatchRecolored(p: Patch, m: map<string, string>): Patch
  {
    if p.labelText in m then p.(faceColor := m[p.labelText]) else p
  }

  /** `set_facecolor` with one colour leaves a single face colour. */
  function CollectionRecolored(c: PathCollection, m: map<string, string>): PathCollection
  {
    if c.labelText in m then c.(faceColors := [m[c.labelText]]) else c
  }

  function TextRecolored(t: Text, m: map<string, string>): Text
  {
    if t.text in m then t.(color := m[t.text]) else t
  }

  /** The recolouring of one legend handle with colour `c`. */
  function HandleRecolored(h: Handle, c: string): Handle
  {
    match h
    case LineHandle(l) => LineHandle(l.(color := c, markerFaceColor := c, markerEdgeColor := c))
    case CollectionHandle(p) => CollectionHandle(p.(faceColors := [c], edgeColors := [c]))
    case PatchHandle(p) => PatchHandle(p.(faceColor := c, edgeColor := c))
    case OtherHandle => OtherHandle
  }

  // ---------------------------------------------------------------------
  // Whole axes, as functions of the state before
  // ---------------------------------------------------------------------

  function LinesRecolored(ls: seq<Line2D>, m: map<string, string>): seq<Line2D>
  {
    seq(|ls|, i requires 0 <= i < |ls| => LineRecolored(ls[i], m))
  }

  function PatchesRecolored(ps: seq<Patch>, m: map<string, string>): seq<Patch>
  {
    seq(|ps|, i requires 0 <= i < |ps| => PatchRecolored(ps[i], m))
  }

  function CollectionsRecolored(cs: seq<PathCollection>, m: map<string, string>): seq<PathCollection>
  {
    seq(|cs|, i requires 0 <= i < |cs| => CollectionRecolored(cs[i], m))
  }

  function TextsRecolored(ts: seq<Text>, m: map<string, string>): seq<Text>
  {
    seq(|ts|, i requires 0 <= i < |ts| => TextRecolored(ts[i], m))
  }

  /** Handles paired with legend texts by position, up to the shorter
      list; a handle whose text is a key takes that key's colour. */
  function HandlesRecolored(hs: seq<Handle>, ts: seq<Text>, m: map<string, string>): seq<Handle>
  {
    seq(|hs|, i requires 0 <= i < |hs| =>
      if i < |ts| && ts[i].text in m then HandleRecolored(hs[i], m[ts[i].text]) else hs[i])
  }

  /** The axes after `apply_color_map_to_axes`. */
  function ColorMapApplied(s: AxesState, m: map<string, string>): AxesState
  {
    s.(lines := LinesRecolored(s.lines, m),
       patches := PatchesRecolored(s.patches, m),
       collections := CollectionsRecolored(s.collections, m))
  }

  /** The axes after `apply_annotation_text_colors`. */
  function TextColorsApplied(s: AxesState, m: map<string, string>): AxesState
  {
    s.(texts := TextsRecolored(s.texts, m))
  }

  /** The axes after `apply_legend_marker_colors`. */
  function LegendColorsApplied(s: AxesState, m: map<string, string>): AxesState
  {
    match s.legend
    case None => s
    case Some(leg) => s.(legend := Some(leg.(handles := HandlesRecolored(leg.handles, leg.texts, m))))
  }

  // ---------------------------------------------------------------------
  // What the recolouring promises
  // ---------------------------------------------------------------------

  /** Exactly the artists whose label is a key change, each to that key's
      colour and in nothing but its colour; nothing else on the axes
      changes. */
  lemma ColorMapExactlyKeyed(s: AxesState, m: map<string, string>)
    ensures var r := ColorMapApplied(s, m);
            && r == s.(lines := r.lines, patches := r.patches, collections := r.collections)
            && |r.lines| == |s.lines| && |r.patches| == |s.patches| && |r.collections| == |s.collections|
            && (forall i :: 0 <= i < |s.lines| ==>
                  if s.lines[i].labelText in m
                  then r.lines[i] == s.lines[i].(color := m[s.lines[i].labelText])
                  else r.lines[i] == s.lines[i])
            && (forall i :: 0 <= i < |s.patches| ==>
                  if s.patches[i].labelText in m
                  then r.patches[i] == s.patches[i].(faceColor := m[s.patches[i].labelText])
                  else r.patches[i] == s.patches[i])
            && (forall i :: 0 <= i < |s.collections| ==>
                  if s.collections[i].labelText in m
                  then r.collections[i] == s.collections[i].(faceColors := [m[s.collections[i].labelText]])
                  else r.collections[i] == s.collections[i])
  {
  }

  /** Texts whose content is a key take that key's colour; all else stays. */
  lemma TextColorsExactlyKeyed(s: AxesState, m: map<string, string>)
    ensures var r := TextColorsApplied(s, m);
            && r == s.(texts := r.texts) && |r.texts| == |s.texts|
            && (forall i :: 0 <= i < |s.texts| ==>
                  if s.texts[i].text in m
                  then r.texts[i] == s.texts[i].(color := m[s.texts[i].text])
                  else r.texts[i] == s.texts[i])
  {
  }

  /** An axes without a legend is left alone; otherwise only handles at
      positions that have a text that is a key change, and the legend's
      texts stay as they were. */
  lemma LegendColorsExactlyKeyed(s: AxesState, m: map<string, string>)
    ensures s.legend.None? ==> LegendColorsApplied(s, m) == s
    ensures s.legend.Some? ==>
              var r := LegendColorsApplied(s, m);
              var hs := s.legend.value.handles;
              var ts := s.legend.value.texts;
              && r.legend.Some? && r == s.(legend := r.legend)
              && r.legend.value.texts == ts
              && |r.legend.value.handles| == |hs|
              && (forall i :: 0 <= i < |hs| ==>
                    if i < |ts| && ts[i].text in m
                    then r.legend.value.handles[i] == HandleRecolored(hs[i], m[ts[i].text])
                    else r.legend.value.handles[i] == hs[i])
  {
  }

  /** Every kind of handle that is recoloured shows `c` afterwards in each
      colour it has; other handles are untouched. */
  lemma HandleShowsColor(h: Handle, c: string)
    ensures var r := HandleRecolored(h, c);
            && (r.LineHandle? <==> h.LineHandle?)
            && (r.CollectionHandle? <==> h.CollectionHandle?)
            && (r.PatchHandle? <==> h.PatchHandle?)
            && (h.LineHandle? ==>
                  r.line == h.line.(color := c, markerFaceColor := c, markerEdgeColor := c))
            && (h.CollectionHandle? ==>
                  r.coll.faceColors == [c] && r.coll.edgeColors == [c] && r.coll.labelText == h.coll.labelText)
            && (h.PatchHandle? ==>
                  r.patch.faceColor == c && r.patch.edgeColor == c && r.patch.labelText == h.patch.labelText)
            && (h.OtherHandle? ==> r == h)
  {
  }

  /** Recolouring never changes a label or a text, so doing it twice is
      doing it once; this is why an axes listed twice ends up the same. */
  lemma {:induction false} ColorMapIdempotent(s: AxesState, m: map<string, string>)
    ensures ColorMapApplied(ColorMapApplied(s, m), m) == ColorMapApplied(s, m)
  {
    var r := ColorMapApplied(s, m);
    assert LinesRecolored(r.lines, m) == r.lines;
    assert PatchesRecolored(r.patches, m) == r.patches;
    assert CollectionsRecolored(r.collections, m) == r.collections;
  }

  lemma {:induction false} TextColorsIdempotent(s: AxesState, m: map<string, string>)
    ensures TextColorsApplied(TextColorsApplied(s, m), m) == TextColorsApplied(s, m)
  {
    var r := TextColorsApplied(s, m);
    assert TextsRecolored(r.texts, m) == r.texts;
  }

  lemma {:induction false} LegendColorsIdempotent(s: AxesState, m: map<string, string>)
    ensures LegendColorsApplied(LegendColorsApplied(s, m), m) == LegendColorsApplied(s, m)
  {
    if s.legend.Some? {
      var leg := LegendColorsApplied(s, m).legend.value;
      assert HandlesRecolored(leg.handles, leg.texts, m) == leg.handles;
    }
  }

  /** With an empty map nothing changes. */
  lemma EmptyMapChangesNothing(s: AxesState)
    ensures ColorMapApplied(s, map[]) == s
    ensures TextColorsApplied(s, map[]) == s
    ensures LegendColorsApplied(s, map[]) == s
  {
    assert LinesRecolored(s.lines, map[]) == s.lines;
    assert PatchesRecolored(s.patches, map[]) == s.patches;
    assert CollectionsRecolored(s.collections, map[]) == s.collections;
    assert TextsRecolored(s.texts, map[]) == s.texts;
    if s.legend.Some? {
      assert HandlesRecolored(s.legend.value.handles, s.legend.value.texts, map[]) == s.legend.value.handles;
    }
  }

  // ---------------------------------------------------------------------
  // The loops
  // ---------------------------------------------------------------------

  method RecolorLines(ls: seq<Line2D>, m: map<string, string>) returns (r: seq<Line2D>)
    ensures r == LinesRecolored(ls, m)
  {
    r := ls;
    var i := 0;
    while i < |r|
      invariant 0 <= i <= |r| == |ls|
      invariant forall j :: 0 <= j < i ==> r[j] == LineRecolored(ls[j], m)
      invariant forall j :: i <= j < |r| ==> r[j] == ls[j]
    {
      var lbl := r[i].labelText;
      if lbl in m {
        r := r[i := r[i].(color := m[lbl])];
      }
      i := i + 1;
    }
  }

  method RecolorPatches(ps: seq<Patch>, m: map<string, string>) returns (r: seq<Patch>)
    ensures r == PatchesRecolored(ps, m)
  {
    r := ps;
    var i := 0;
    while i < |r|
      invariant 0 <= i <= |r| == |ps|
      invariant forall j :: 0 <= j < i ==> r[j] == PatchRecolored(ps[j], m)
      invariant forall j :: i <= j < |r| ==> r[j] == ps[j]
    {
      var lbl := r[i].labelText;
      if lbl in m {
        r := r[i := r[i].(faceColor := m[lbl])];
      }
      i := i + 1;
    }
  }

  method RecolorCollections(cs: seq<PathCollection>, m: map<string, string>) returns (r: seq<PathCollection>)
    ensures r == CollectionsRecolored(cs, m)
  {
    r := cs;
    var i := 0;
    while i < |r|
      invariant 0 <= i <= |r| == |cs|
      invariant forall j :: 0 <= j < i ==> r[j] == CollectionRecolored(cs[j], m)
      invariant forall j :: i <= j < |r| ==> r[j] == cs[j]
    {
      var lbl := r[i].labelText;
      if lbl in m {
        r := r[i := r[i].(faceColors := [m[lbl]])];
      }
      i := i + 1;
    }
  }

  method RecolorTexts(ts: seq<Text>, m: map<string, string>) returns (r: seq<Text>)
    ensures r == TextsRecolored(ts, m)
  {
    r := ts;
    var i := 0;
    while i < |r|
      invariant 0 <= i <= |r| == |ts|
      invariant forall j :: 0 <= j < i ==> r[j] == TextRecolored(ts[j], m)
      invariant forall j :: i <= j < |r| ==> r[j] == ts[j]
    {
      var txt := r[i].text;
      if txt in m {
        r := r[i := r[i].(color := m[txt])];
      }
      i := i + 1;
    }
  }

  /** The `zip(leg.legendHandles, leg.texts)` loop. */
  method RecolorHandles(hs: seq<Handle>, ts: seq<Text>, m: map<string, string>) returns (r: seq<Handle>)
    ensures r == HandlesRecolored(hs, ts, m)
  {
    r := hs;
    var i := 0;
    while i < |r| && i < |ts|
      invariant 0 <= i <= |r| == |hs|
      invariant forall j :: 0 <= j < i ==> r[j] == HandlesRecolored(hs, ts, m)[j]
      invariant forall j :: i <= j < |r| ==> r[j] == hs[j]
    {
      var name := ts[i].text;
      if name in m {
        r := r[i := HandleRecolored(r[i], m[name])];
      }
      i := i + 1;
    }
  }

  /** One pass of the text map over an axes listed several times: whether
      or not it was already recoloured, it ends recoloured once. */
  lemma TextColorsStep(prior: AxesState, start: AxesState, m: map<string, string>, seen: bool)
    requires if seen then prior == TextColorsApplied(start, m) else prior == start
    ensures TextColorsApplied(prior, m) == TextColorsApplied(start, m)
  {
    if seen {
      TextColorsIdempotent(start, m);
    }
  }

  /** One axes of `apply_color_map_to_axes`. */
  method ColorMapOnAxes(ax: Axes, m: map<string, string>)
    modifies ax
    ensures ax.State() == ColorMapApplied(old(ax.State()), m)
  {
    ax.lines := RecolorLines(ax.lines, m);
    ax.patches := RecolorPatches(ax.patches, m);
    ax.collections := RecolorCollections(ax.collections, m);
  }

  /** One axes of `apply_annotation_text_colors`. */
  method TextColorsOnAxes(ax: Axes, m: map<string, string>)
    modifies ax
    ensures ax.State() == TextColorsApplied(old(ax.State()), m)
  {
    ax.texts := RecolorTexts(ax.texts, m);
  }

  /** One axes of `apply_legend_marker_colors`. */
  method LegendColorsOnAxes(ax: Axes, m: map<string, string>)
    modifies ax
    ensures ax.State() == LegendColorsApplied(old(ax.State()), m)
  {
    if ax.legend.Some? {
      var leg := ax.legend.value;
      var hs := RecolorHandles(leg.handles, leg.texts, m);
      ax.legend := Some(leg.(handles := hs));
    }
  }

  method ApplyColorMapToAxes(axs: seq<Axes>, m: map<string, string>)
    modifies set a | a in axs
    ensures forall a :: a in axs ==> a.State() == ColorMapApplied(old(a.State()), m)
  {
    var i := 0;
    while i < |axs|
      invariant 0 <= i <= |axs|
      invariant forall a :: a in axs[..i] ==> a.State() == ColorMapApplied(old(a.State()), m)
      invariant forall a :: a in axs && a !in axs[..i] ==> a.State() == old(a.State())
    {
      var ax := axs[i];
      ghost var prior := ax.State();
      if ax in axs[..i] {
        ColorMapIdempotent(old(ax.State()), m);
        assert ColorMapApplied(prior, m) == ColorMapApplied(old(ax.State()), m);
      } else {
        assert prior == old(ax.State());
      }
      ColorMapOnAxes(ax, m);
      assert ax.State() == ColorMapApplied(old(ax.State()), m);
      assert axs[..i + 1] == axs[..i] + [ax];
      i := i + 1;
    }
    assert axs[..i] == axs;
  }

  method ApplyAnnotationTextColors(axs: seq<Axes>, m: map<string, string>)
    modifies set a | a in axs
    ensures forall a :: a in axs ==> a.State() == TextColorsApplied(old(a.State()), m)
  {
    var i := 0;
    while i < |axs|
      invariant 0 <= i <= |axs|
      invariant forall a :: a in axs[..i] ==> a.State() == TextColorsApplied(old(a.State()), m)
      invariant forall a :: a in axs && a !in axs[..i] ==> a.State() == old(a.State())
    {
      var ax := axs[i];
      TextColorsStep(ax.State(), old(ax.State()), m, ax in axs[..i]);
      TextColorsOnAxes(ax, m);
      assert axs[..i + 1] == axs[..i] + [ax];
      i := i + 1;
    }
    assert axs[..i] == axs;
  }

  method ApplyLegendMarkerColors(axs: seq<Axes>, m: map<string, string>)
    modifies set a | a in axs
    ensures forall a :: a in axs ==> a.State() == LegendColorsApplied(old(a.State()), m)
  {
    var i := 0;
    while i < |axs|
      invariant 0 <= i <= |axs|
      invariant forall a :: a in axs[..i] ==> a.State() == LegendColorsApplied(old(a.State()), m)
      invariant forall a :: a in axs && a !in axs[..i] ==> a.State() == old(a.State())
    {
      var ax := axs[i];
      ghost var prior := ax.State();
      if ax in axs[..i] {
        LegendColorsIdempotent(old(ax.State()), m);
        assert LegendColorsApplied(prior, m) == LegendColorsApplied(old(ax.State()), m);
      } else {
        assert prior == old(ax.State());
      }
      LegendColorsOnAxes(ax, m);
      assert ax.State() == LegendColorsApplied(old(ax.State()), m);
      assert axs[..i + 1] == axs[..i] + [ax];
      i := i + 1;
    }
    assert axs[..i] == axs;
  }

}
