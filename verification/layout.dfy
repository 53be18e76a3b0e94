/** Figure-fraction arithmetic for the title block, the note stack and the
    bottom margin. Rendered text heights are inputs, measured in pixels. */
module Layout {
  import opened Common
  import opened Theme
  import opened Artists

  /** `px_to_fig_frac`: pixels as a fraction of the figure height when the
      axis is "y", of its width for any other axis name. */
  function PxToFigFrac(px: real, fig: Figure, axis: string): real
    requires fig.Valid()
  {
    if axis == "y" then px / fig.HeightPx() else px / fig.WidthPx()
  }

  lemma PixelsArePositive(fig: Figure)
    requires fig.Valid()
    ensures fig.HeightPx() > 0.0 && fig.WidthPx() > 0.0
  {
  }

  /** The fraction scaled back by the figure's size in that direction is
      the pixel count again. */
  lemma FracTimesSize(px: real, fig: Figure, axis: string)
    requires fig.Valid()
    ensures axis == "y" ==> PxToFigFrac(px, fig, axis) * fig.HeightPx() == px
    ensures axis != "y" ==> PxToFigFrac(px, fig, axis) * fig.WidthPx() == px
  {
    PixelsArePositive(fig);
  }

  lemma DivIsUnique(x: real, d: real, y: real)
    requires d > 0.0 && y * d == x
    ensures x / d == y
  {
  }

  /** Dividing a sum is summing the quotients. */
  lemma DivLinear(a: real, b: real, k: real, d: real)
    requires d > 0.0
    ensures (a + k * b) / d == a / d + k * (b / d)
  {
    var fa, fb := a / d, b / d;
    assert fa * d == a && fb * d == b;
    calc {
      (fa + k * fb) * d;
      fa * d + k * (fb * d);
      a + k * b;
    }
    DivIsUnique(a + k * b, d, fa + k * fb);
  }

  // ---------------------------------------------------------------------
  // The note argument
  // ---------------------------------------------------------------------

  /** The `note` argument: None, a string, a (label, text) tuple, a list of
      such tuples, or any other object with its truth value. */
  datatype Note =
    | NoNote
    | NoteStr(s: string)
    | NoteTuple(tag: string, text: string)
    | NoteList(items: seq<(string, string)>)
    | NoteOther(truthy: bool)

  predicate Truthy(n: Note)
  {
    match n
    case NoNote => false
    case NoteStr(s) => s != ""
    case NoteTuple(_, _) => true
    case NoteList(items) => items != []
    case NoteOther(t) => t
  }

  /** The list of (label, text) notes to render. */
  function NormalizeNote(n: Note): (notes: seq<(string, string)>)
    ensures !Truthy(n) ==> notes == []
    ensures Truthy(n) && n.NoteStr? ==> notes == [("", n.s)]
    ensures Truthy(n) && n.NoteTuple? ==> notes == [(n.tag, n.text)]
    ensures Truthy(n) && n.NoteList? ==> notes == n.items
    ensures n.NoteOther? ==> notes == []
  {
    if !Truthy(n) then []
    else match n
      case NoteStr(s) => [("", s)]
      case NoteTuple(tag, text) => [(tag, text)]
      case NoteList(items) => items
      case _ => []
  }

  /** A note renders something exactly when it is truthy and not of some
      other type. */
  lemma NotesPresentIffTruthy(n: Note)
    ensures NormalizeNote(n) != [] <==> Truthy(n) && !n.NoteOther?
  {
  }

  // ---------------------------------------------------------------------
  // render_title_subtitle_note
  // ---------------------------------------------------------------------

  /** The running top of the note stack: it starts at `start` and each note
      raises it by its height plus `step`. */
  function StackTop(heights: seq<real>, start: real, step: real): real
  {
    if heights == [] then start
    else StackTop(heights[..|heights| - 1], start, step) + heights[|heights| - 1] + step
  }

  function Sum(xs: seq<real>): real
  {
    if xs == [] then 0.0 else Sum(xs[..|xs| - 1]) + xs[|xs| - 1]
  }

  /** The stack's top is its start, plus every height, plus one step per
      note. */
  lemma {:induction false} StackTopClosedForm(heights: seq<real>, start: real, step: real)
    ensures StackTop(heights, start, step) == start + Sum(heights) + |heights| as real * step
  {
    if heights != [] {
      StackTopClosedForm(heights[..|heights| - 1], start, step);
    }
  }

  /** Pixel heights as fractions of the figure height. */
  function Fracs(pxs: seq<real>, fig: Figure): (fs: seq<real>)
    requires fig.Valid()
    ensures |fs| == |pxs|
    ensures forall i :: 0 <= i < |pxs| ==> fs[i] == pxs[i] / fig.HeightPx()
  {
    seq(|pxs|, i requires 0 <= i < |pxs| => pxs[i] / fig.HeightPx())
  }

  /** Summing fractions is taking the fraction of the summed pixels. */
  lemma {:induction false} SumOfFracs(pxs: seq<real>, fig: Figure)
    requires fig.Valid()
    ensures Sum(Fracs(pxs, fig)) == Sum(pxs) / fig.HeightPx()
  {
    if pxs != [] {
      var init := pxs[..|pxs| - 1];
      SumOfFracs(init, fig);
      assert Fracs(pxs, fig)[..|pxs| - 1] == Fracs(init, fig);
      PixelsArePositive(fig);
      DivLinear(Sum(init), pxs[|pxs| - 1], 1.0, fig.HeightPx());
    }
  }

  /** Where the title block ends, as a figure fraction: `xl` below the
      top, then the title and `xxs` if there is a title, then the subtitle
      and `xl` if there is a subtitle. */
  function TitleBlockBottom(fig: Figure, title: string, subtitle: string, spacing: Spacing,
                            titleHeightPx: real, subtitleHeightPx: real): real
    requires fig.Valid()
  {
    var h := fig.HeightPx();
    var afterTitle :=
      if title != "" then 1.0 - spacing.xl as real / h - (titleHeightPx / h + spacing.xxs as real / h)
      else 1.0 - spacing.xl as real / h;
    if subtitle != "" then afterTitle - (subtitleHeightPx / h + spacing.xl as real / h) else afterTitle
  }

  lemma TimesDiv(x: real, h: real)
    requires h > 0.0
    ensures (x / h) * h == x
  {
  }

  /** The same position counted in pixels from the bottom edge. */
  lemma TitleBlockBottomInPixels(fig: Figure, title: string, subtitle: string, spacing: Spacing,
                                 titleHeightPx: real, subtitleHeightPx: real)
    requires fig.Valid()
    ensures TitleBlockBottom(fig, title, subtitle, spacing, titleHeightPx, subtitleHeightPx) * fig.HeightPx()
            == fig.HeightPx() - spacing.xl as real
               - (if title != "" then titleHeightPx + spacing.xxs as real else 0.0)
               - (if subtitle != "" then subtitleHeightPx + spacing.xl as real else 0.0)
  {
    var h := fig.HeightPx();
    PixelsArePositive(fig);
    var xl, xxs := spacing.xl as real, spacing.xxs as real;
    var tt := if title != "" then titleHeightPx / h + xxs / h else 0.0;
    var ss := if subtitle != "" then subtitleHeightPx / h + xl / h else 0.0;
    assert TitleBlockBottom(fig, title, subtitle, spacing, titleHeightPx, subtitleHeightPx) == 1.0 - xl / h - tt - ss;
    TimesDiv(xl, h);
    assert tt * h == (if title != "" then titleHeightPx + xxs else 0.0) by {
      if title != "" {
        TimesDiv(titleHeightPx, h);
        TimesDiv(xxs, h);
        assert (titleHeightPx / h + xxs / h) * h == (titleHeightPx / h) * h + (xxs / h) * h;
      }
    }
    assert ss * h == (if subtitle != "" then subtitleHeightPx + xl else 0.0) by {
      if subtitle != "" {
        TimesDiv(subtitleHeightPx, h);
        assert (subtitleHeightPx / h + xl / h) * h == (subtitleHeightPx / h) * h + (xl / h) * h;
      }
    }
    calc {
      (1.0 - xl / h - tt - ss) * h;
      h - (xl / h) * h - tt * h - ss * h;
    }
  }

  /** What `render_title_subtitle_note` hands back: the y at which the plot
      area may start, the space reserved below for notes, the left margin,
      and the y of each note line drawn. */
  datatype TitleBlock = TitleBlock(yPos: real, bottomSpace: real, marginX: real, noteYs: seq<real>)

  /** The title and subtitle heights are only read when that text is
      present; `noteHeightsPx` holds one measured height per note. */
  method RenderTitleSubtitleNote(fig: Figure, title: string, subtitle: string, note: Note,
                                 spacing: Spacing, titleHeightPx: real, subtitleHeightPx: real,
                                 noteHeightsPx: seq<real>) returns (tb: TitleBlock)
    requires fig.Valid()
    requires |noteHeightsPx| == |NormalizeNote(note)|
    ensures tb.marginX == spacing.m as real / fig.WidthPx()
    ensures tb.yPos == TitleBlockBottom(fig, title, subtitle, spacing, titleHeightPx, subtitleHeightPx)
    ensures |tb.noteYs| == |noteHeightsPx|
    ensures var xl := spacing.xl as real / fig.HeightPx();
            forall i :: 0 <= i < |noteHeightsPx| ==>
              tb.noteYs[i] == StackTop(Fracs(noteHeightsPx[..i], fig), xl, xl)
    ensures var xl := spacing.xl as real / fig.HeightPx();
            tb.bottomSpace == StackTop(Fracs(noteHeightsPx, fig), xl, xl) + xl
  {
    var xl := PxToFigFrac(spacing.xl as real, fig, "y");
    var xxs := PxToFigFrac(spacing.xxs as real, fig, "y");
    var marginX := PxToFigFrac(spacing.m as real, fig, "x");

    var yPos := 1.0 - xl;
    if title != "" {
      var titleHeight := PxToFigFrac(titleHeightPx, fig, "y");
      yPos := yPos - (titleHeight + xxs);
    }
    if subtitle != "" {
      var subtitleHeight := PxToFigFrac(subtitleHeightPx, fig, "y");
      yPos := yPos - (subtitleHeight + xl);
    }

    var notes := NormalizeNote(note);
    var yNote := xl;
    var lineSpacing := xl;
    var noteYs: seq<real> := [];
    var i := 0;
    while i < |notes|
      invariant 0 <= i <= |notes|
      invariant |noteYs| == i
      invariant yNote == StackTop(Fracs(noteHeightsPx[..i], fig), xl, xl)
      invariant forall j :: 0 <= j < i ==> noteYs[j] == StackTop(Fracs(noteHeightsPx[..j], fig), xl, xl)
    {
      noteYs := noteYs + [yNote];
      var noteHeight := PxToFigFrac(noteHeightsPx[i], fig, "y");
      assert Fracs(noteHeightsPx[..i + 1], fig)[..i] == Fracs(noteHeightsPx[..i], fig);
      yNote := yNote + noteHeight + lineSpacing;
      i := i + 1;
    }
    assert noteHeightsPx[..i] == noteHeightsPx;

    tb := TitleBlock(yPos, yNote + xl, marginX, noteYs);
  }

  /** The reserved bottom space in pixels: one `xl` below the notes, each
      note's height plus `xl`, and one `xl` on top. */
  lemma {:induction false} BottomSpaceInPixels(heights: seq<real>, fig: Figure, xl: real)
    requires fig.Valid()
    ensures var f := xl / fig.HeightPx();
            StackTop(Fracs(heights, fig), f, f) + f
            == (Sum(heights) + (|heights| as real + 2.0) * xl) / fig.HeightPx()
  {
    var h := fig.HeightPx();
    PixelsArePositive(fig);
    var f := xl / h;
    var n := |heights| as real;
    var fs := Fracs(heights, fig);
    var sum := Sum(heights);
    assert StackTop(fs, f, f) + f == f + Sum(fs) + n * f + f by {
      StackTopClosedForm(fs, f, f);
    }
    assert Sum(fs) == sum / h by {
      SumOfFracs(heights, fig);
    }
    assert sum / h + (n + 2.0) * f == (sum + (n + 2.0) * xl) / h by {
      DivLinear(sum, xl, n + 2.0, h);
    }
  }

  // ---------------------------------------------------------------------
  // compute_total_bottom_margin
  // ---------------------------------------------------------------------

  /** Some axes has a non-empty x label. */
  predicate HasXLabel(axs: seq<Axes>)
    reads set a | a in axs
  {
    exists i :: 0 <= i < |axs| && axs[i].xLabel.text != ""
  }

  /** `compute_total_bottom_margin`: the four cases on handles and note. */
  function ComputeTotalBottomMargin(fig: Figure, axs: seq<Axes>, handles: seq<Handle>, note: Note,
                                    noteMarginFrac: real, spacing: Spacing): real
    requires fig.Valid()
    reads set a | a in axs
  {
    var xlFrac := PxToFigFrac(spacing.xl as real, fig, "y");
    var xlabelSpacing := if HasXLabel(axs) then xlFrac * 4.0 else xlFrac * 2.0;
    var legendSpacing := xlFrac;
    if handles != [] && !Truthy(note) then
      legendSpacing + PxToFigFrac(spacing.xl as real * 4.0, fig, "y") + xlabelSpacing
    else if handles != [] && Truthy(note) then
      noteMarginFrac + legendSpacing + PxToFigFrac(spacing.xl as real * 4.0, fig, "y") + xlabelSpacing
    else if Truthy(note) then
      noteMarginFrac + xlabelSpacing
    else
      xlabelSpacing
  }

  /** One formula for all four cases: the x-label band (four `xl` with an
      x label, two without), plus the note margin when there is a note,
      plus five `xl` when there are handles. */
  lemma BottomMarginClosedForm(fig: Figure, axs: seq<Axes>, handles: seq<Handle>, note: Note,
                               noteMarginFrac: real, spacing: Spacing)
    requires fig.Valid()
    ensures var xl := spacing.xl as real;
            ComputeTotalBottomMargin(fig, axs, handles, note, noteMarginFrac, spacing) * fig.HeightPx()
            == (if HasXLabel(axs) then 4.0 else 2.0) * xl
               + (if Truthy(note) then noteMarginFrac * fig.HeightPx() else 0.0)
               + (if handles != [] then 5.0 * xl else 0.0)
  {
    var xl := spacing.xl as real;
    var h := fig.HeightPx();
    var f := PxToFigFrac(xl, fig, "y");
    var f4 := PxToFigFrac(xl * 4.0, fig, "y");
    FracTimesSize(xl, fig, "y");
    FracTimesSize(xl * 4.0, fig, "y");
    var xs := if HasXLabel(axs) then f * 4.0 else f * 2.0;
    assert xs * h == (if HasXLabel(axs) then 4.0 else 2.0) * xl;
    assert (f + f4) * h == 5.0 * xl;
  }

  /** With the note status fixed, having handles adds exactly `5 xl`
      pixels' worth of figure height to the margin. */
  lemma HandlesAddFiveXl(fig: Figure, axs: seq<Axes>, handles: seq<Handle>, note: Note,
                         noteMarginFrac: real, spacing: Spacing)
    requires fig.Valid() && handles != []
    ensures (ComputeTotalBottomMargin(fig, axs, handles, note, noteMarginFrac, spacing)
             - ComputeTotalBottomMargin(fig, axs, [], note, noteMarginFrac, spacing)) * fig.HeightPx()
            == 5.0 * spacing.xl as real
  {
    BottomMarginClosedForm(fig, axs, handles, note, noteMarginFrac, spacing);
    BottomMarginClosedForm(fig, axs, [], note, noteMarginFrac, spacing);
  }
}
