/** Width-dependent font sizes and spacing units (the three size tiers). */
module Theme {

  /** Font sizes in points, keyed s/m/l in wbpyplot. */
  datatype FontSizes = FontSizes(s: nat, m: nat, l: nat)
  {
    predicate Increasing() { s < m < l }
    predicate AtMost(o: FontSizes) { s <= o.s && m <= o.m && l <= o.l }
  }

  /** Spacing units in pixels, keyed xxs/xs/s/m/l/xl in wbpyplot. */
  datatype Spacing = Spacing(xxs: nat, xs: nat, s: nat, m: nat, l: nat, xl: nat)
  {
    predicate Increasing() { xxs < xs < s < m < l < xl }
    predicate AtMost(o: Spacing) {
      xxs <= o.xxs && xs <= o.xs && s <= o.s && m <= o.m && l <= o.l && xl <= o.xl
    }
  }

  datatype Tier = Narrow | Medium | Wide

  /** The tier a figure width (in pixels) falls into; 400 and 700 are both
      in the middle tier. */
  function TierOf(width: real): (t: Tier)
    ensures t == Narrow <==> width < 400.0
    ensures t == Medium <==> 400.0 <= width <= 700.0
    ensures t == Wide <==> 700.0 < width
  {
    if width < 400.0 then Narrow
    else if 400.0 <= width <= 700.0 then Medium
    else Wide
  }

  function TierRank(t: Tier): nat
  {
    match t
    case Narrow => 0
    case Medium => 1
    case Wide => 2
  }

  /** The font and spacing tables for a figure width. */
  function GetDynamicSizes(width: real): (r: (FontSizes, Spacing))
    ensures r.0.Increasing() && r.1.Increasing()
    ensures width < 400.0 ==> r == (FontSizes(12, 14, 16), Spacing(2, 4, 6, 12, 14, 16))
    ensures 400.0 <= width <= 700.0 ==> r == (FontSizes(13, 15, 18), Spacing(3, 6, 9, 15, 18, 21))
    ensures 700.0 < width ==> r == (FontSizes(14, 16, 20), Spacing(4, 8, 12, 16, 20, 24))
  {
    if width < 400.0 then
      (FontSizes(12, 14, 16), Spacing(2, 4, 6, 12, 14, 16))
    else if 400.0 <= width <= 700.0 then
      (FontSizes(13, 15, 18), Spacing(3, 6, 9, 15, 18, 21))
    else
      (FontSizes(14, 16, 20), Spacing(4, 8, 12, 16, 20, 24))
  }

  /** The tables depend on the width only through its tier. */
  lemma SizesDependOnTierOnly(w1: real, w2: real)
    requires TierOf(w1) == TierOf(w2)
    ensures GetDynamicSizes(w1) == GetDynamicSizes(w2)
  {
  }

  /** A wider figure never gets a smaller font or spacing entry. */
  lemma SizesMonotone(w1: real, w2: real)
    requires w1 <= w2
    ensures TierRank(TierOf(w1)) <= TierRank(TierOf(w2))
    ensures GetDynamicSizes(w1).0.AtMost(GetDynamicSizes(w2).0)
    ensures GetDynamicSizes(w1).1.AtMost(GetDynamicSizes(w2).1)
  {
  }

  /** Moving to a strictly higher tier strictly enlarges every entry. */
  lemma HigherTierStrictlyLarger(w1: real, w2: real)
    requires TierRank(TierOf(w1)) < TierRank(TierOf(w2))
    ensures var (f1, s1) := GetDynamicSizes(w1);
            var (f2, s2) := GetDynamicSizes(w2);
            f1.s < f2.s && f1.m < f2.m && f1.l < f2.l &&
            s1.xxs < s2.xxs && s1.xs < s2.xs && s1.s < s2.s &&
            s1.m < s2.m && s1.l < s2.l && s1.xl < s2.xl
  {
  }
}
