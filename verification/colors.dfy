/** Palette resolution: from a palette name to a colour cycle, a label
    map, a companion text map and a colormap. The registry is a parameter;
    `Palettes.Palettes` is the one the package ships. */
module Colors {
  import opened Common
  import opened Palettes

  // ---------------------------------------------------------------------
  // Shape predicates
  // ---------------------------------------------------------------------

  /** A string that starts with '#' and has length 4 or 7. The characters
      after '#' are not checked. */
  predicate IsHexColor(o: Obj)
  {
    o.StrObj? && |o.s| > 0 && o.s[0] == '#' && (|o.s| == 4 || |o.s| == 7)
  }

  lemma HexDigitsNotChecked()
    ensures IsHexColor(StrObj("#zzz")) && IsHexColor(StrObj("#GGGGGG"))
    ensures !IsHexColor(StrObj("#12345")) && !IsHexColor(StrObj("0000000")) && !IsHexColor(NonStrObj)
  {
  }

  function Values(entries: seq<(string, Obj)>): (vs: seq<Obj>)
    ensures |vs| == |entries|
    ensures forall i :: 0 <= i < |entries| ==> vs[i] == entries[i].1
  {
    seq(|entries|, i requires 0 <= i < |entries| => entries[i].1)
  }

  /** A non-empty dict whose values are all hex colours. */
  predicate LooksLikeLabelMap(n: Node)
  {
    n.DictNode? && |n.entries| > 0 && forall i :: 0 <= i < |n.entries| ==> IsHexColor(n.entries[i].1)
  }

  /** A non-empty list or tuple whose items are all hex colours. */
  predicate LooksLikeSequence(n: Node)
  {
    n.ListNode? && |n.items| > 0 && forall i :: 0 <= i < |n.items| ==> IsHexColor(n.items[i])
  }

  /** `"seq" in name or "div" in name`. */
  predicate SeqOrDiv(name: string)
  {
    Contains(name, "seq") || Contains(name, "div")
  }

  // ---------------------------------------------------------------------
  // Registry lookup
  // ---------------------------------------------------------------------

  /** The two kinds a registry entry resolves to. */
  datatype Reg = Sequence(colors: seq<Obj>) | LabelMap(entries: seq<(string, Obj)>)

  /** `_resolve_from_registry`: `palette` is None when the argument is not a
      string. */
  function ResolveFromRegistry(reg: map<string, Node>, palette: Option<string>): (r: Option<Reg>)
    ensures palette.None? || palette.value !in reg ==> r.None?
    ensures palette.Some? && palette.value in reg && reg[palette.value].DictNode? ==>
              var es := reg[palette.value].entries;
              r.Some? &&
              (r.value.LabelMap? <==> !SeqOrDiv(palette.value) && LooksLikeLabelMap(reg[palette.value])) &&
              (r.value.LabelMap? ==> r.value.entries == es) &&
              (r.value.Sequence? ==> r.value.colors == Values(es))
    ensures palette.Some? && palette.value in reg && !reg[palette.value].DictNode? ==>
              (r.Some? <==> LooksLikeSequence(reg[palette.value])) &&
              (r.Some? ==> r.value == Sequence(reg[palette.value].items))
  {
    if palette.None? || |reg| == 0 then None
    else if palette.value !in reg then None
    else
      var name := palette.value;
      var node := reg[name];
      match node
      case DictNode(es) =>
        if SeqOrDiv(name) then Some(Sequence(Values(es)))
        else if LooksLikeLabelMap(node) then Some(LabelMap(es))
        else Some(Sequence(Values(es)))
      case ListNode(items) =>
        if LooksLikeSequence(node) then Some(Sequence(items)) else None
      case OtherNode => None
  }

  /** The inner `_force_mode`: each of its branches hands back the pair it
      was given, so membership in `LabelMapOnly` or `AutoCycleOnly` never
      changes the resolved kind. */
  function ForceMode(name: string, r: Option<Reg>): (f: Option<Reg>)
    ensures f == r
  {
    if name in LabelMapOnly && r.Some? && r.value.LabelMap? then Some(LabelMap(r.value.entries))
    else if name in AutoCycleOnly && r.Some? && r.value.Sequence? then Some(Sequence(r.value.colors))
    else r
  }

  // ---------------------------------------------------------------------
  // resolve_color_cycle_and_label_map
  // ---------------------------------------------------------------------

  /** A linear segmented colormap, by its name and its colour stops. */
  datatype Colormap = Colormap(name: string, colors: seq<Obj>)

  /** The four results: colour cycle, label map, text map, colormap. */
  datatype Resolution = Resolution(
    cycle: Option<seq<Obj>>,
    labelMap: Option<seq<(string, Obj)>>,
    textMap: Option<seq<(string, Obj)>>,
    cmap: Option<Colormap>)

  const Unresolved := Resolution(None, None, None, None)

  /** The companion palette's entries, when the name has a companion that
      is a registered dict. */
  function CompanionTextMap(reg: map<string, Node>, name: string): Option<seq<(string, Obj)>>
  {
    if name in CompanionTextAliases && CompanionTextAliases[name] != ""
       && CompanionTextAliases[name] in reg && reg[CompanionTextAliases[name]].DictNode?
    then Some(reg[CompanionTextAliases[name]].entries)
    else None
  }

  function ResolveColorCycleAndLabelMap(reg: map<string, Node>, palette: Option<string>, n: Option<int>): (r: Resolution)
    ensures ResolveFromRegistry(reg, palette).None? <==> r == Unresolved
    ensures ResolveFromRegistry(reg, palette).Some? && ResolveFromRegistry(reg, palette).value.Sequence? ==>
              var colors := ResolveFromRegistry(reg, palette).value.colors;
              && r.cycle == Some(if n.Some? then SliceTo(colors, n.value) else colors)
              && r.labelMap.None? && r.textMap.None?
              && (r.cmap.Some? <==> SeqOrDiv(palette.value))
              && (r.cmap.Some? ==> r.cmap.value == Colormap(palette.value, colors))
    ensures ResolveFromRegistry(reg, palette).Some? && ResolveFromRegistry(reg, palette).value.LabelMap? ==>
              && r.cycle.None? && r.cmap.None?
              && r.labelMap == Some(ResolveFromRegistry(reg, palette).value.entries)
              && r.textMap == CompanionTextMap(reg, palette.value)
  {
    var resolved := if palette.Some? then ForceMode(palette.value, ResolveFromRegistry(reg, palette)) else None;
    if resolved.None? then Unresolved
    else
      var name := palette.value;
      match resolved.value
      case Sequence(colors) =>
        var cmap := if SeqOrDiv(name) then Some(Colormap(name, colors)) else None;
        Resolution(Some(if n.Some? then SliceTo(colors, n.value) else colors), None, None, cmap)
      case LabelMap(entries) =>
        Resolution(None, Some(entries), CompanionTextMap(reg, name), None)
  }

  /** With a count, the cycle holds at most that many colours, and it is a
      prefix of the palette's colours. */
  lemma CycleIsPrefix(reg: map<string, Node>, palette: Option<string>, n: int)
    requires ResolveColorCycleAndLabelMap(reg, palette, Some(n)).cycle.Some?
    ensures var r := ResolveColorCycleAndLabelMap(reg, palette, Some(n));
            var all := ResolveColorCycleAndLabelMap(reg, palette, None);
            all.cycle.Some? && |r.cycle.value| <= |all.cycle.value|
            && (n >= 0 ==> |r.cycle.value| <= n)
            && r.cycle.value == all.cycle.value[..|r.cycle.value|]
  {
  }

  /** A name that resolves never loses a colormap for its `seq`/`div`
      wording: resolution into a label map needs a name with neither. */
  lemma LabelMapNeverSeqOrDiv(reg: map<string, Node>, palette: Option<string>, n: Option<int>)
    requires ResolveColorCycleAndLabelMap(reg, palette, n).labelMap.Some?
    ensures palette.Some? && !SeqOrDiv(palette.value)
    ensures LooksLikeLabelMap(reg[palette.value])
  {
  }

  // ---------------------------------------------------------------------
  // The shipped registry
  // ---------------------------------------------------------------------

  lemma RegionEntry()
    ensures "wb_region" in Palettes.Palettes && Palettes.Palettes["wb_region"] == WbRegion
  {
  }

  lemma RegionIsLabelMap()
    ensures LooksLikeLabelMap(WbRegion)
  {
  }

  /** A name without 'q' and without 'v' can contain neither "seq" nor
      "div". */
  lemma PlainName(name: string)
    requires 'q' !in name && 'v' !in name
    ensures !SeqOrDiv(name)
  {
    NoContainsWithoutChar(name, "seq", 'q');
    NoContainsWithoutChar(name, "div", 'v');
  }

  lemma RegionCompanion()
    ensures CompanionTextMap(Palettes.Palettes, "wb_region") == Some(WbRegionText.entries)
  {
    assert Palettes.Palettes["wb_region_text"] == WbRegionText;
  }

  /** `wb_region` resolves to its own entries as a label map, with the
      region text palette as text map. */
  lemma RegionResolvesToLabelMap()
    ensures ResolveColorCycleAndLabelMap(Palettes.Palettes, Some("wb_region"), None)
            == Resolution(None, Some(WbRegion.entries), Some(WbRegionText.entries), None)
  {
    RegionEntry();
    RegionIsLabelMap();
    assert 'q' !in "wb_region" && 'v' !in "wb_region";
    PlainName("wb_region");
    RegionCompanion();
    assert ResolveFromRegistry(Palettes.Palettes, Some("wb_region")) == Some(LabelMap(WbRegion.entries));
  }

  lemma CategoricalEntry()
    ensures "wb_categorical" in Palettes.Palettes && Palettes.Palettes["wb_categorical"] == WbCategorical
  {
  }

  lemma CategoricalIsLabelMap()
    ensures LooksLikeLabelMap(WbCategorical)
  {
  }

  lemma CategoricalCompanion()
    ensures CompanionTextMap(Palettes.Palettes, "wb_categorical") == Some(WbCategoricalText.entries)
  {
    assert Palettes.Palettes["wb_categorical_text"] == WbCategoricalText;
  }

  /** `wb_categorical` is listed in `AutoCycleOnly`, yet its all-hex dict
      resolves to a label map (with the categorical text palette as text
      map) and gives no colour cycle. */
  lemma CategoricalResolvesToLabelMap(n: Option<int>)
    ensures "wb_categorical" in AutoCycleOnly
    ensures ResolveColorCycleAndLabelMap(Palettes.Palettes, Some("wb_categorical"), n)
            == Resolution(None, Some(WbCategorical.entries), Some(WbCategoricalText.entries), None)
  {
    CategoricalEntry();
    CategoricalIsLabelMap();
    assert 'q' !in "wb_categorical" && 'v' !in "wb_categorical";
    PlainName("wb_categorical");
    CategoricalCompanion();
    assert ResolveFromRegistry(Palettes.Palettes, Some("wb_categorical")) == Some(LabelMap(WbCategorical.entries));
  }

  lemma BadToGoodEntry()
    ensures "wb_seq_bad_to_good" in Palettes.Palettes && Palettes.Palettes["wb_seq_bad_to_good"] == WbSeqBadToGood
  {
  }

  /** A sequential palette with a count: the cycle is the first three stops
      in written order, and the colormap keeps all five. */
  lemma BadToGoodFirstThree()
    ensures var stops := [StrObj("#FDF6DB"), StrObj("#A1CBCF"), StrObj("#5D99C2"),
                          StrObj("#2868A0"), StrObj("#023B6F")];
            ResolveColorCycleAndLabelMap(Palettes.Palettes, Some("wb_seq_bad_to_good"), Some(3))
            == Resolution(Some(stops[..3]), None, None, Some(Colormap("wb_seq_bad_to_good", stops)))
  {
    var stops := [StrObj("#FDF6DB"), StrObj("#A1CBCF"), StrObj("#5D99C2"),
                  StrObj("#2868A0"), StrObj("#023B6F")];
    BadToGoodEntry();
    var name := "wb_seq_bad_to_good";
    assert name[3..6] == "seq";
    ContainsAt(name, "seq", 3);
    assert Values(WbSeqBadToGood.entries) == stops;
    assert ResolveFromRegistry(Palettes.Palettes, Some("wb_seq_bad_to_good")) == Some(Sequence(stops));
  }
}
