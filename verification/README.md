# wbpyplot core in Dafny

wbpyplot is a decorator that restyles a matplotlib chart in the World Bank
look. This project models the logic under the decorator:

- **Axis.** It sorts an axes into one of three categories: timeseries,
  scatter or single-numeric. It then restyles the axes' typography and grid.
  For scatter and single-numeric charts it adds a zero line when the y axis
  is linear and its range contains 0.
- **Palettes.** It resolves a palette name into four things: a colour cycle,
  a label map, a companion text map and a colormap. It repaints the lines,
  patches, collections, annotation texts and legend handles whose label is
  a key of the map.
- **Numbers.** It formats a number with a magnitude suffix (K, M, B), a unit,
  the currency sign, the percent sign and thousands grouping.
- **Legend.** It decides when the legend is suppressed. It builds the
  legend drawn below the plot: round markers, upper-cased labels, at most
  three columns.
- **Layout.** It converts pixels into figure fractions. It computes where
  the title block ends, where each note line sits, and how much margin the
  bottom of the figure needs.
- **Theme.** It picks the font sizes and spacings for the figure width.

The project has these modules:

- `Common`: small sequence and string helpers.
- `Theme`: `theme.py`.
- `NumberFormatting`: `number_formatting.py`.
- `Artists`: the matplotlib objects the core reads and writes, as records,
  and an `Axes` class whose fields the styling and recolouring routines
  update in place.
- `Axis`: `axis.py`.
- `Palettes`: the palette tables of `colors.py`.
- `Colors`: the palette resolution in `colors.py`.
- `Recolor`: the three recolouring routines in `colors.py`.
- `Legend`: `legend.py`.
- `Layout`: `layout.py`.

### Modelling choices

- **Axes.** Each routine that mutates an axes is a method on the `Axes`
  class. Its postcondition ties the new `State()` to a function of the old
  one. The properties are proved as lemmas about that function.
- **Numbers.** Python numbers are modelled by their exact value: `int` as
  `int` and `float` as `real`. Python's `isinstance` rules are kept:
  - `bool` counts as an `int`;
  - numpy `float64` counts as a `float`;
  - numpy `int64` counts as neither.
- **Formatting.** The `{:.Nf}` formats round half to even, as Python does.
  The formatted numeral is proved to read back to within half a unit of its
  last place.
- **Measurements.** Rendered text heights are inputs in pixels, because they
  come from matplotlib's renderer.

### Styling and the chart category

Styling can change the category `detect_chart_type` gives an axes without
lines: `axhline` appends a line whose x data is the Python list `[0, 1]`, so
detecting again gives scatter instead of single-numeric. Once a line is
drawn the category is kept.

- `Axis.StylingEmptyAxesMakesItScatter` proves the change for an axes
  without lines;
- `Axis.StylingKeepsCategoryOfDrawnLines` proves the category is kept once
  a line is drawn.

### `wb_categorical`

The palette is listed among the auto-cycle-only names. Even so, its all-hex
dict resolves to a label map, because `_force_mode` hands back whatever it
is given. `Colors.CategoricalResolvesToLabelMap` records this.

## Model

| member | source | states |
|---|---|---|
| Theme.TierOf | wbpyplot/theme.py:48-56 | below 400 px is the small tier; 400 to 700 inclusive is the medium tier; above 700 is the large tier |
| Theme.GetDynamicSizes | wbpyplot/theme.py:47-57 | the three font sizes and six spacings of the width's tier, each table strictly increasing |
| Theme.SizesDependOnTierOnly | wbpyplot/theme.py:47-57 | two widths in the same tier get identical sizes |
| Theme.SizesMonotone | wbpyplot/theme.py:48-56 | a wider figure never gets a smaller font size or spacing |
| Theme.HigherTierStrictlyLarger | wbpyplot/theme.py:48-56 | a higher tier has every font size and spacing strictly larger |
| NumberFormatting.RoundHalfEven | wbpyplot/number_formatting.py:45 | the integer is within 1/2 of the value; on an exact tie it is even; it is non-negative for a non-negative value |
| NumberFormatting.NatToString | wbpyplot/number_formatting.py:6 | `str(n)` is a non-empty string of digits with no leading zero |
| NumberFormatting.ParseNatToString | wbpyplot/number_formatting.py:6 | reading `str(n)` back gives `n` |
| NumberFormatting.PlacedDigitsShape | wbpyplot/number_formatting.py:45 | the unsigned numeral has an integer part of digits with no leading zero; with `d == 0` no point; otherwise the point stands exactly `d` digits from the end, trailing zeros kept |
| NumberFormatting.FixedShape | wbpyplot/number_formatting.py:36-45 | `{:.Nf}` starts with '-' exactly when the value is negative (so "-0.00" for a small negative value), followed by an unsigned numeral with exactly N places |
| NumberFormatting.PlacedDigitsReadBack | wbpyplot/number_formatting.py:45 | the digits placed with `d` decimals read back as n / 10^d |
| NumberFormatting.FixedReadsBackExactly | wbpyplot/number_formatting.py:36-45 | `{:.Nf}` reads back as the sign and the half-even rounded digits |
| NumberFormatting.FixedReadsBack | wbpyplot/number_formatting.py:36-45 | `{:.Nf}` reads back to within half a unit in its last place of the value |
| NumberFormatting.GroupThousands | wbpyplot/number_formatting.py:48 | grouping `n` digits adds (n - 1) / 3 commas; where they go is `GroupThousandsCommas` |
| NumberFormatting.GroupThousandsCommas | wbpyplot/number_formatting.py:48 | in grouped digits a character is a comma exactly when it stands 4, 8, 12, ... places from the end: one comma before each group of three digits counted from the right |
| NumberFormatting.UngroupThousands | wbpyplot/number_formatting.py:48 | removing the commas from grouped digits gives the digits back |
| NumberFormatting.UngroupedIsFixed | wbpyplot/number_formatting.py:45-48 | `{:,.0f}` without its commas is `{:.0f}` |
| NumberFormatting.GroupedReadsBack | wbpyplot/number_formatting.py:47-48 | the grouped numeral read back is within 1/2 of the value |
| NumberFormatting.Magnitude | wbpyplot/number_formatting.py:16-24 | suffix B with divisor 10^9 exactly from 10^9 up; M with 10^6 for [10^6, 10^9); K with 10^3 for [10^4, 10^6); no suffix with divisor 1 below 10^4 |
| NumberFormatting.SpecialUnitTable | wbpyplot/number_formatting.py:12-29 | for watt, tons, bits and bytes the three replacements do not interfere: B becomes G plus the abbreviation, M and K keep their letter plus it, no suffix stays empty |
| NumberFormatting.Decimals | wbpyplot/number_formatting.py:35-43 | integral values get 0 places; otherwise 2 places below 1, 1 below 100, else 0 |
| NumberFormatting.FormatNumber | wbpyplot/number_formatting.py:1-55 | non-numbers give their own text; integral values from 1000 to 2100 give `str(int(value))`; otherwise the result is "$" if currency, then the numeral, "%" if percent, then the suffix |
| NumberFormatting.YearShortcut | wbpyplot/number_formatting.py:5-6 | an integral value from 1000 to 2100 prints as bare digits that read back as the value, whatever the flags and unit |
| NumberFormatting.GroupingOnlyForFourDigits | wbpyplot/number_formatting.py:47-48 | grouping happens only for magnitudes from 1000 to below 10000, with no magnitude suffix, and the grouped numeral without commas reads back within 1/2 of the value |
| NumberFormatting.PlainUnitPreventsGrouping | wbpyplot/number_formatting.py:30-31 | a plain non-empty unit makes the suffix non-empty, so no grouping happens |
| NumberFormatting.NumberTextReadsBack | wbpyplot/number_formatting.py:33-45 | without grouping, the numeral read back is within half a unit in its last printed place of the scaled value |
| NumberFormatting.HalfEvenExamples | wbpyplot/number_formatting.py:19-45 | 2500000 prints "2M" and 3500000 prints "4M": ties go to the even digit |
| NumberFormatting.MarkOrderExample | wbpyplot/number_formatting.py:26-55 | 12345 with unit "bytes", percent and currency prints "$12%KB" |
| NumberFormatting.TwoPlacesExample | wbpyplot/number_formatting.py:38-45 | 0.125 prints "0.12" |
| NumberFormatting.GroupingExample | wbpyplot/number_formatting.py:47-48 | -2500 prints "-2,500" |
| NumberFormatting.Fixed | wbpyplot/number_formatting.py:45 | no ensures; `{:.Nf}` of an exact value; its text is pinned by `FixedShape`, its value by `FixedReadsBackExactly` and `FixedReadsBack` |
| NumberFormatting.Grouped | wbpyplot/number_formatting.py:48 | no ensures; `{:,.0f}`; see `UngroupedIsFixed` and `GroupedReadsBack` |
| NumberFormatting.ApplyUnit | wbpyplot/number_formatting.py:26-31 | no ensures; the unit replacements; see `SpecialUnitTable` and `PlainUnitPreventsGrouping` |
| NumberFormatting.FinalSuffix | wbpyplot/number_formatting.py:16-31 | no ensures; the magnitude suffix after the unit is applied; see `Magnitude` and `SpecialUnitTable` |
| NumberFormatting.NumberText | wbpyplot/number_formatting.py:33-48 | no ensures; the numeral with its places or its grouping; see `NumberTextReadsBack` and `GroupingOnlyForFourDigits` |
| Axis.DetectChartType | wbpyplot/axis.py:44-59 | single-numeric on a failing query or no lines; timeseries iff the first line's x data has a datetime64 dtype; otherwise scatter iff its first element is a Python int or float |
| Axis.OnlyFirstLineMatters | wbpyplot/axis.py:48 | two line lists with the same first line get the same category |
| Axis.DatetimeBeforeNumber | wbpyplot/axis.py:54-57 | a datetime64 array is timeseries whatever its elements are |
| Axis.TickLabelsStyle | wbpyplot/axis.py:11-15 | every tick label gets size `s`, regular weight, grey #666666 and line spacing 1.2; the count is unchanged |
| Axis.StyleTickLabels | wbpyplot/axis.py:11-15 | the loop restyles the tick labels exactly as `TickLabelsStyle` does |
| Axis.StyleAxesEffect | wbpyplot/axis.py:4-42 | typography (size, weight, colour, line spacing 1.2) and grid always applied, every kept tick label restyled as `TickLabelsStyle` does; the zero line appended iff the category is scatter or single-numeric on a linear y axis whose range holds 0; label pads set to `xxs` only for scatter; x label, ticks and tick labels cleared only for timeseries; texts and everything else untouched |
| Axis.StylingTwice | wbpyplot/axis.py:19-27 | styling a second time changes nothing but adding a second zero line when one is due |
| Axis.StylingKeepsCategoryOfDrawnLines | wbpyplot/axis.py:24 | an axes with a line keeps its category after styling |
| Axis.StylingEmptyAxesMakesItScatter | wbpyplot/axis.py:24 | an empty single-numeric axes with 0 in a linear range is detected as scatter after styling |
| Axis.TypesetAxes | wbpyplot/axis.py:5-17 | the axes' new state is its old one with labels, tick labels and grid restyled (`Typeset`) |
| Axis.AddZeroLine | wbpyplot/axis.py:19-27 | the zero line is appended exactly when it is due (`WithZeroLine`); nothing else changes |
| Axis.AdjustForCategory | wbpyplot/axis.py:29-42 | pads for scatter, cleared x axis for timeseries, nothing for single-numeric (`CategoryAdjusted`) |
| Axis.ApplyAxisStyling | wbpyplot/axis.py:4-42 | the axes' new state is `StyleAxes` of its old state |
| Axis.Typeset | wbpyplot/axis.py:5-17 | no ensures; labels, tick labels and grid restyled; see `StyleAxesEffect` |
| Axis.WithZeroLine | wbpyplot/axis.py:19-27 | no ensures; the zero line appended when due; see `StyleAxesEffect` and `StylingTwice` |
| Axis.CategoryAdjusted | wbpyplot/axis.py:29-42 | no ensures; pads for scatter, cleared x axis for timeseries; see `StyleAxesEffect` |
| Axis.StyleAxes | wbpyplot/axis.py:4-42 | no ensures; the state `apply_axis_styling` leaves; see `StyleAxesEffect`, `StylingTwice`, `StylingKeepsCategoryOfDrawnLines` and `StylingEmptyAxesMakesItScatter` |
| Colors.IsHexColor | wbpyplot/colors.py:212-213 | no ensures; a string starting with '#' of length 4 or 7; see `HexDigitsNotChecked` |
| Colors.LooksLikeLabelMap | wbpyplot/colors.py:215-216 | no ensures; a non-empty dict of hex colours; see `LabelMapNeverSeqOrDiv` |
| Colors.LooksLikeSequence | wbpyplot/colors.py:218-219 | no ensures; a non-empty list or tuple of hex colours; see `ResolveFromRegistry` |
| Colors.HexDigitsNotChecked | wbpyplot/colors.py:212-213 | a hex colour is only '#' with length 4 or 7: "#zzz" passes; "#12345", a string without '#' and a non-string fail |
| Colors.Values | wbpyplot/colors.py:230 | a dict's values, in insertion order |
| Colors.ResolveFromRegistry | wbpyplot/colors.py:221-236 | None for a non-string or unknown name; a dict is a label map iff the name lacks "seq" and "div" and every value is a hex colour, else the sequence of its values; a list resolves iff it is non-empty and all hex |
| Colors.ForceMode | wbpyplot/colors.py:245-250 | returns what it is given, so the forced-mode tables never change the result |
| Colors.ResolveColorCycleAndLabelMap | wbpyplot/colors.py:238-282 | all four results are None exactly when the registry lookup fails; a sequence gives a cycle cut to `n` when `n` is given, no maps, and a colormap of all colours iff the name has "seq" or "div"; a label map gives the entries and the companion text dict, no cycle and no colormap |
| Colors.CycleIsPrefix | wbpyplot/colors.py:271-272 | the cut cycle is a prefix of the uncut one, at most `n` long |
| Colors.LabelMapNeverSeqOrDiv | wbpyplot/colors.py:229-232 | a label map result implies the name has neither "seq" nor "div" and the entry is an all-hex dict |
| Colors.RegionResolvesToLabelMap | wbpyplot/colors.py:238-282 | `wb_region` resolves to its own entries as label map with `wb_region_text` as text map |
| Colors.CategoricalResolvesToLabelMap | wbpyplot/colors.py:191-250 | `wb_categorical` is listed as auto-cycle-only yet resolves to a label map with its text companion, for any `n` |
| Colors.BadToGoodFirstThree | wbpyplot/colors.py:259-273 | `wb_seq_bad_to_good` with n = 3 gives its first three stops as cycle and a colormap of all five |
| Recolor.ColorMapExactlyKeyed | wbpyplot/colors.py:284-303 | exactly the lines, patches and collections whose label is a key change, each to that key's colour in its colour field only; nothing else changes |
| Recolor.TextColorsExactlyKeyed | wbpyplot/colors.py:305-313 | exactly the texts whose content is a key take its colour; nothing else changes |
| Recolor.LegendColorsExactlyKeyed | wbpyplot/colors.py:315-340 | no legend: nothing changes; otherwise only handles paired with a text that is a key are recoloured, and the texts stay |
| Recolor.HandleRecolored | wbpyplot/colors.py:325-340 | no ensures; one legend handle recoloured; see `HandleShowsColor` |
| Recolor.ColorMapApplied | wbpyplot/colors.py:284-303 | no ensures; the axes after the colour map; see `ColorMapExactlyKeyed` and `ColorMapIdempotent` |
| Recolor.TextColorsApplied | wbpyplot/colors.py:305-313 | no ensures; the axes after the text map; see `TextColorsExactlyKeyed` and `TextColorsIdempotent` |
| Recolor.LegendColorsApplied | wbpyplot/colors.py:315-340 | no ensures; the axes after the legend recolouring; see `LegendColorsExactlyKeyed` and `LegendColorsIdempotent` |
| Recolor.HandleShowsColor | wbpyplot/colors.py:325-340 | a line handle takes the colour as line, marker face and marker edge; a collection or patch as face and edge; other handles stay |
| Recolor.ColorMapIdempotent | wbpyplot/colors.py:284-303 | applying the colour map twice equals applying it once |
| Recolor.TextColorsIdempotent | wbpyplot/colors.py:305-313 | applying the text map twice equals applying it once |
| Recolor.LegendColorsIdempotent | wbpyplot/colors.py:315-340 | recolouring legend markers twice equals doing it once |
| Recolor.EmptyMapChangesNothing | wbpyplot/colors.py:284-340 | with an empty map none of the three routines changes the axes |
| Recolor.RecolorLines | wbpyplot/colors.py:287-290 | the loop gives `LinesRecolored` |
| Recolor.RecolorPatches | wbpyplot/colors.py:292-295 | the loop gives `PatchesRecolored` |
| Recolor.RecolorCollections | wbpyplot/colors.py:297-303 | the loop gives `CollectionsRecolored` |
| Recolor.RecolorTexts | wbpyplot/colors.py:307-313 | the loop gives `TextsRecolored` |
| Recolor.RecolorHandles | wbpyplot/colors.py:320-340 | the loop over the handle/text pairs gives `HandlesRecolored` |
| Recolor.ColorMapOnAxes | wbpyplot/colors.py:286-303 | one axes' new state is `ColorMapApplied` of its old state |
| Recolor.ApplyColorMapToAxes | wbpyplot/colors.py:284-303 | every listed axes, even one listed twice, ends in `ColorMapApplied` of its old state |
| Recolor.TextColorsOnAxes | wbpyplot/colors.py:307-313 | one axes' new state is `TextColorsApplied` of its old state |
| Recolor.LegendColorsOnAxes | wbpyplot/colors.py:317-340 | one axes' new state is `LegendColorsApplied` of its old state |
| Recolor.ApplyAnnotationTextColors | wbpyplot/colors.py:305-313 | every listed axes ends in `TextColorsApplied` of its old state |
| Recolor.ApplyLegendMarkerColors | wbpyplot/colors.py:315-340 | every listed axes ends in `LegendColorsApplied` of its old state |
| Legend.ShouldSuppressLegend | wbpyplot/legend.py:44-45 | no ensures; at most one distinct label; see `SuppressIffAllEqual` and `ShownLegendHasTwoLabels` |
| Legend.SuppressIffAllEqual | wbpyplot/legend.py:44-45 | suppressed iff all labels are equal, in particular with no labels |
| Legend.ShownLegendHasTwoLabels | wbpyplot/legend.py:44-45 | a shown legend has at least two labels |
| Legend.HandleColor | wbpyplot/legend.py:12-17 | a line's colour, a collection's first face colour, otherwise #CED4DE |
| Legend.UpperAll | wbpyplot/legend.py:8 | every label upper-cased, same count |
| Legend.RenderLegendBelowPlot | wbpyplot/legend.py:5-41 | one round marker per handle/label pair up to the shorter list, in the handle's colour; all labels upper-cased; `min(len(labels), 3)` columns; anchored at x 0.5 and `xl` pixels above `y_position` |
| Legend.ShownLegendColumns | wbpyplot/legend.py:37-45 | a shown legend has two or three columns |
| Legend.DrawnLabelsStable | wbpyplot/legend.py:8 | upper-casing the drawn labels again changes nothing |
| Common.Upper | wbpyplot/legend.py:8 | `str.upper` on ASCII: same length, each letter upper-cased |
| Common.UpperIdempotent | wbpyplot/legend.py:8 | upper-casing twice is upper-casing once |
| Common.SliceTo | wbpyplot/colors.py:272 | `s[:k]`: the first `k` elements, all of them when `k` is past the end, and what remains after dropping `-k` from the end when `k` is negative |
| Layout.PxToFigFrac | wbpyplot/layout.py:4-7 | no ensures; pixels over the figure height for "y", over its width otherwise; see `FracTimesSize` |
| Layout.FracTimesSize | wbpyplot/layout.py:4-7 | the fraction times the figure height ("y") or width (any other axis) is the pixel count |
| Layout.NormalizeNote | wbpyplot/layout.py:55-62 | a falsy note gives no notes; a string gives one note with an empty label; a tuple gives itself; a list gives its items; another object gives none |
| Layout.NotesPresentIffTruthy | wbpyplot/layout.py:55-62 | notes are rendered iff the note is truthy and is a string, tuple or list |
| Layout.StackTopClosedForm | wbpyplot/layout.py:64-97 | the running note position is the start plus all heights plus one step per note |
| Layout.Fracs | wbpyplot/layout.py:95 | each height divided by the figure height |
| Layout.SumOfFracs | wbpyplot/layout.py:95-97 | the sum of the fractions is the fraction of the summed pixels |
| Layout.TitleBlockBottom | wbpyplot/layout.py:19-53 | no ensures; the title block's bottom as a figure fraction; see `TitleBlockBottomInPixels` |
| Layout.TitleBlockBottomInPixels | wbpyplot/layout.py:19-53 | the title block's bottom, in pixels, is the height less `xl`, less title height and `xxs` with a title, less subtitle height and `xl` with a subtitle |
| Layout.RenderTitleSubtitleNote | wbpyplot/layout.py:14-100 | the margin is `m` over the width; `y_pos` is the title block's bottom; note i sits at `xl` plus the earlier notes' heights and steps; the bottom space is the final position plus `xl` |
| Layout.BottomSpaceInPixels | wbpyplot/layout.py:64-99 | the bottom space in pixels is the sum of note heights plus (notes + 2) times `xl` |
| Layout.ComputeTotalBottomMargin | wbpyplot/layout.py:103-128 | no ensures; the four cases on handles and note; see `BottomMarginClosedForm` and `HandlesAddFiveXl` |
| Layout.BottomMarginClosedForm | wbpyplot/layout.py:103-128 | the margin in pixels is 4 `xl` with an x label (else 2 `xl`), plus the note margin with a note, plus 5 `xl` with handles |
| Layout.HandlesAddFiveXl | wbpyplot/layout.py:112-128 | with the note fixed, having handles adds exactly 5 `xl` pixels of margin |
| Artists.Axes.constructor | wbpyplot/axis.py:4 | an axes whose state is the one given |

## Left out

- `decorator.py` and `tidy_numeric_ticks` are not part of this model. Nor
  are the binned colormap helpers, `apply_cmap_to_mappables`, the font
  registration and the rcParams. They wire matplotlib together and hold no
  logic of the core.
- Rendering is not modelled: `fig.canvas.draw`, `wrap_text`, and the
  placement of the title, subtitle and note texts. The heights they measure
  are inputs in pixels. The width of a note's label only shifts its text
  sideways and is left out.
- Axis.ApplyAxisStyling: the 0.01 nudge of scatter tick-label positions is
  not modelled, because positions are not part of the axes state here.
- Axis.ZeroLine: the automatic label matplotlib gives an `axhline` is not
  modelled; the zero line's label is empty.
- Axis.ApplyAxisStyling takes the chart type as one of the three values
  `detect_chart_type` returns. Any other string would skip the zero line,
  the pads and the clearing alike.
- NumberFormatting.FormatNumber works on exact values. It does not model:
  - float rounding of the division by 10^3, 10^6 or 10^9;
  - an int so large that the division overflows a float (Python raises
    OverflowError);
  - infinities, NaN and negative zero;
  - a unit argument that is not a string or None.
- Common.Upper: upper-cases ASCII letters only.
- Colors.IsHexColor checks shape only, as wbpyplot does. Whether
  matplotlib accepts the colour, and the exceptions wbpyplot swallows
  from `set_facecolor`, `set_color` and the colormap build, are not
  modelled. The colormap is recorded by its name and stops, not built.
- Colors.ResolveColorCycleAndLabelMap:
  - the registry is a parameter;
  - a non-string palette is passed as None;
  - `n` is taken as an integer (the Python code's `int(n)` of a float is left
    out).
- Legend.HandleColor treats a collection's face colours as colour strings;
  matplotlib returns RGBA rows.
- Recolor.ApplyLegendMarkerColors reads the legend handles through one
  attribute. The renaming of `legendHandles` across matplotlib versions is
  left out.
- Layout.PxToFigFrac and the layout routines require a figure with positive
  size and dpi; a zero-size figure makes the Python code divide by zero.
- Layout.RenderTitleSubtitleNote takes a note tuple as a (label, text)
  pair; a tuple of another length makes the Python code raise.
