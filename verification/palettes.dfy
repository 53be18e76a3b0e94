/** The palette registry shipped with the package, as data: every palette
    is an ordered table from a colour key to a colour string, in the order
    the keys are written. */
module Palettes {

  /** A Python object as the colour predicates see it: a string, or
      something else. */
  datatype Obj = StrObj(s: string) | NonStrObj

  /** A registry entry: a dict (ordered key/value pairs), a list or tuple of
      values, or any other object. */
  datatype Node =
    | DictNode(entries: seq<(string, Obj)>)
    | ListNode(items: seq<Obj>)
    | OtherNode

  const WbCategorical := DictNode([
    ("cat1", StrObj("#34A7F2")), ("cat2", StrObj("#FF9800")), ("cat3", StrObj("#664AB6")),
    ("cat4", StrObj("#4EC2C0")), ("cat5", StrObj("#F3578E")), ("cat6", StrObj("#081079")),
    ("cat7", StrObj("#0C7C68")), ("cat8", StrObj("#AA0000")), ("cat9", StrObj("#DDDA21"))])

  const WbCategoricalText := DictNode([
    ("cat1Text", StrObj("#106CA1")), ("cat2Text", StrObj("#B65F0C")),
    ("cat3Text", StrObj("#664AB6")), ("cat4Text", StrObj("#208383")),
    ("cat5Text", StrObj("#BB3B64")), ("cat6Text", StrObj("#081079")),
    ("cat7Text", StrObj("#0C7C68")), ("cat8Text", StrObj("#AA0000")),
    ("cat9Text", StrObj("#767712"))])

  const WbRegion := DictNode([
    ("WLD", StrObj("#081079")), ("NAC", StrObj("#34A7F2")), ("LCN", StrObj("#0C7C68")),
    ("SAS", StrObj("#4EC2C0")), ("MEA", StrObj("#664AB6")), ("ECS", StrObj("#AA0000")),
    ("EAS", StrObj("#F3578E")), ("SSF", StrObj("#FF9800")), ("AFE", StrObj("#FF9800")),
    ("AFW", StrObj("#DDDA21"))])

  const WbRegionText := DictNode([
    ("NACText", StrObj("#106CA1")), ("SSFText", StrObj("#B65F0C")),
    ("AFEText", StrObj("#B65F0C")), ("MEAText", StrObj("#664AB6")),
    ("SASText", StrObj("#208383")), ("EASText", StrObj("#BB3B64")),
    ("WLDText", StrObj("#081079")), ("LCNText", StrObj("#0C7C68")),
    ("ECSText", StrObj("#AA0000")), ("AFWText", StrObj("#767712"))])

  const WbSeqBadToGood := DictNode([
    ("seq1", StrObj("#FDF6DB")), ("seq2", StrObj("#A1CBCF")), ("seq3", StrObj("#5D99C2")),
    ("seq4", StrObj("#2868A0")), ("seq5", StrObj("#023B6F"))])

  const WbSeqGoodToBad := DictNode([
    ("seqRev1", StrObj("#E3F6FD")), ("seqRev2", StrObj("#91C5F0")),
    ("seqRev3", StrObj("#8B8AC0")), ("seqRev4", StrObj("#88506E")),
    ("seqRev5", StrObj("#691B15"))])

  const WbDivDefault := DictNode([
    ("divNeg3", StrObj("#920000")), ("divNeg2", StrObj("#BD6126")),
    ("divNeg1", StrObj("#E3A763")), ("divMid", StrObj("#EFEFEF")),
    ("divPos1", StrObj("#80BDE7")), ("divPos2", StrObj("#3587C3")),
    ("divPos3", StrObj("#025288"))])

  const WbDivAlt := DictNode([
    ("div3L3", StrObj("#002c8b")), ("div3L2", StrObj("#4868af")),
    ("div3L1", StrObj("#79a7d5")), ("div3Mid", StrObj("#efefef")),
    ("div3R1", StrObj("#eca08c")), ("div3R2", StrObj("#c9573e")), ("div3R3", StrObj("#920000"))])

  const WbIncome := DictNode([
    ("HIC", StrObj("#016B6C")), ("UMC", StrObj("#73AF48")), ("LMC", StrObj("#DB95D7")),
    ("LIC", StrObj("#3B4DA6"))])

  const WbGender := DictNode([
    ("male", StrObj("#664AB6")), ("female", StrObj("#FF9800")), ("diverse", StrObj("#4EC2C0"))])

  const WbUrbanisation := DictNode([
    ("rural", StrObj("#54AE89")), ("urban", StrObj("#6D88D1"))])

  const WbAge := DictNode([
    ("youngestAge", StrObj("#F8A8DF")), ("youngerAge", StrObj("#B38FD8")),
    ("middleAge", StrObj("#462f98")), ("olderAge", StrObj("#6D88D1")),
    ("oldestAge", StrObj("#A1C6FF"))])

  const WbBinary := DictNode([
    ("yes", StrObj("#0071BC")), ("no", StrObj("#EBEEF4"))])

  const WbTotal := DictNode([
    ("total", StrObj("#163C6C"))])

  const WbReference := DictNode([
    ("reference", StrObj("#8A969F"))])

  const WbNoData := DictNode([
    ("noData", StrObj("#CED4DE"))])

  const WbHighlightSelection := DictNode([
    ("selection1", StrObj("#0071BC")), ("selection2", StrObj("#8963C1"))])

  const WbTextColors := DictNode([
    ("text", StrObj("#111111")), ("textSubtle", StrObj("#666666"))])

  const WbGreys := DictNode([
    ("grey500", StrObj("#111111")), ("grey400", StrObj("#666666")),
    ("grey300", StrObj("#8a969f")), ("grey200", StrObj("#CED4DE")),
    ("grey100", StrObj("#EBEEF4"))])

  const WbSeqMonochromeBlue := DictNode([
    ("seqB1", StrObj("#E3F6FD")), ("seqB2", StrObj("#75CCEC")), ("seqB3", StrObj("#089BD4")),
    ("seqB4", StrObj("#0169A1")), ("seqB5", StrObj("#023B6F"))])

  const WbSeqMonochromeYellow := DictNode([
    ("seqY1", StrObj("#FDF7DB")), ("seqY2", StrObj("#ECB63A")), ("seqY3", StrObj("#BE792B")),
    ("seqY4", StrObj("#8D4117")), ("seqY5", StrObj("#5C0000"))])

  const WbSeqMonochromePurple := DictNode([
    ("seqP1", StrObj("#FFE2FF")), ("seqP2", StrObj("#D3ACE6")), ("seqP3", StrObj("#A37ACD")),
    ("seqP4", StrObj("#6F4CB4")), ("seqP5", StrObj("#2F1E9C"))])

  const WbSeqMonochromeGreen := DictNode([
    ("seqG1", StrObj("#d2ffe1")), ("seqG2", StrObj("#8ad4a7")), ("seqG3", StrObj("#54a67f")),
    ("seqG4", StrObj("#27795a")), ("seqG5", StrObj("#084d31"))])

  const WbSeqMonochromeRed := DictNode([
    ("seqR1", StrObj("#ffd6b9")), ("seqR2", StrObj("#f99c78")), ("seqR3", StrObj("#e56245")),
    ("seqR4", StrObj("#c1261a")), ("seqR5", StrObj("#870000"))])

  const WbDivNeutral := DictNode([
    ("div2L3", StrObj("#24768E")), ("div2L2", StrObj("#4EA2AC")),
    ("div2L1", StrObj("#98CBCC")), ("div2Mid", StrObj("#EFEFEF")),
    ("div2R1", StrObj("#D1AEE3")), ("div2R2", StrObj("#A873C4")), ("div2R3", StrObj("#754493"))])

  const WbPillars := DictNode([
    ("people", StrObj("#f7b841")), ("planet", StrObj("#07ab50")),
    ("prosperity", StrObj("#872c8f")), ("infrastructure", StrObj("#91302f")),
    ("digital", StrObj("#5d6472")), ("corporate", StrObj("#004972"))])

  const Palettes: map<string, Node> := map[
    "wb_categorical" := WbCategorical,
    "wb_categorical_text" := WbCategoricalText,
    "wb_region" := WbRegion,
    "wb_region_text" := WbRegionText,
    "wb_seq_bad_to_good" := WbSeqBadToGood,
    "wb_seq_good_to_bad" := WbSeqGoodToBad,
    "wb_div_default" := WbDivDefault,
    "wb_div_alt" := WbDivAlt,
    "wb_income" := WbIncome,
    "wb_gender" := WbGender,
    "wb_urbanisation" := WbUrbanisation,
    "wb_age" := WbAge,
    "wb_binary" := WbBinary,
    "wb_total" := WbTotal,
    "wb_reference" := WbReference,
    "wb_noData" := WbNoData,
    "wb_highlight_selection" := WbHighlightSelection,
    "wb_text_colors" := WbTextColors,
    "wb_greys" := WbGreys,
    "wb_seq_monochrome_blue" := WbSeqMonochromeBlue,
    "wb_seq_monochrome_yellow" := WbSeqMonochromeYellow,
    "wb_seq_monochrome_purple" := WbSeqMonochromePurple,
    "wb_seq_monochrome_green" := WbSeqMonochromeGreen,
    "wb_seq_monochrome_red" := WbSeqMonochromeRed,
    "wb_div_neutral" := WbDivNeutral,
    "wb_pillars" := WbPillars
  ]

  /** Palettes whose companion palette supplies annotation text colours. */
  const CompanionTextAliases: map<string, string> := map[
    "wb_region" := "wb_region_text",
    "wb_categorical" := "wb_categorical_text"
  ]

  /** Palettes meant to behave as label maps. */
  const LabelMapOnly: set<string> := {
    "wb_region", "wb_region_secondary", "wb_age", "wb_gender",
    "wb_income", "wb_binary", "wb_total", "wb_pillars"
  }

  /** Palettes meant to behave as colour cycles. */
  const AutoCycleOnly: set<string> := {
    "wb_categorical", "wb_categorical_text", "wb_region_text", "wb_reference",
    "wb_noData", "wb_highlight_selection", "wb_text_colors", "wb_greys",
    "wb_seq_bad_to_good", "wb_seq_good_to_bad", "wb_seq_monochrome_blue",
    "wb_seq_monochrome_green", "wb_seq_monochrome_red", "wb_seq_monochrome_yellow",
    "wb_seq_monochrome_purple", "wb_div_default", "wb_div_neutral", "wb_div_alt"
  }
}
