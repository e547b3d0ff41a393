/** The rendering options and their defaults (`options_defaults`), and how
    `get_graph` merges the caller's keyword options over them. */
module Config {
  import opened Schema

  datatype Options = Options(
    htmlColorDefault: string,
    htmlColorHighlight: string,
    fontname: string,
    fontsize: int,
    fontsizeTitle: int,
    fontsizeLabel: int,
    bgcolorIndexes: string,
    rankdir: string,          // "LR" or "RL"; anything but "RL" behaves as "LR"
    edgeThickness: real,
    displayColumns: bool,
    displayIndexes: bool,
    displayCrowfoots: bool,
    omitIsolatedTables: bool)

  const Defaults: Options := Options(
    "#ccff99", "#33cc99", "Helvetica", 8, 10, 6, "#ccccff", "LR", 1.0,
    true, true, true, false)

  /** The keyword options a caller passes; `None` is an option left out. */
  datatype Overrides = Overrides(
    htmlColorDefault: Option<string>,
    htmlColorHighlight: Option<string>,
    fontname: Option<string>,
    fontsize: Option<int>,
    fontsizeTitle: Option<int>,
    fontsizeLabel: Option<int>,
    bgcolorIndexes: Option<string>,
    rankdir: Option<string>,
    edgeThickness: Option<real>,
    displayColumns: Option<bool>,
    displayIndexes: Option<bool>,
    displayCrowfoots: Option<bool>,
    omitIsolatedTables: Option<bool>)

  const NoOverrides: Overrides := Overrides(
    None, None, None, None, None, None, None, None, None, None, None, None, None)

  function Pick<T>(given: Option<T>, default: T): T {
    if given.Some? then given.value else default
  }

  /** `opt = options_defaults.copy(); opt.update(options)`: every option
      the caller passes wins, every other one keeps its default. */
  function Merge(ov: Overrides): (opt: Options)
    ensures ov.htmlColorDefault.Some? ==> opt.htmlColorDefault == ov.htmlColorDefault.value
    ensures ov.htmlColorDefault.None? ==> opt.htmlColorDefault == Defaults.htmlColorDefault
    ensures ov.htmlColorHighlight.Some? ==> opt.htmlColorHighlight == ov.htmlColorHighlight.value
    ensures ov.htmlColorHighlight.None? ==> opt.htmlColorHighlight == Defaults.htmlColorHighlight
    ensures ov.fontname.Some? ==> opt.fontname == ov.fontname.value
    ensures ov.fontname.None? ==> opt.fontname == Defaults.fontname
    ensures ov.fontsize.Some? ==> opt.fontsize == ov.fontsize.value
    ensures ov.fontsize.None? ==> opt.fontsize == Defaults.fontsize
    ensures ov.fontsizeTitle.Some? ==> opt.fontsizeTitle == ov.fontsizeTitle.value
    ensures ov.fontsizeTitle.None? ==> opt.fontsizeTitle == Defaults.fontsizeTitle
    ensures ov.fontsizeLabel.Some? ==> opt.fontsizeLabel == ov.fontsizeLabel.value
    ensures ov.fontsizeLabel.None? ==> opt.fontsizeLabel == Defaults.fontsizeLabel
    ensures ov.bgcolorIndexes.Some? ==> opt.bgcolorIndexes == ov.bgcolorIndexes.value
    ensures ov.bgcolorIndexes.None? ==> opt.bgcolorIndexes == Defaults.bgcolorIndexes
    ensures ov.rankdir.Some? ==> opt.rankdir == ov.rankdir.value
    ensures ov.rankdir.None? ==> opt.rankdir == Defaults.rankdir
    ensures ov.edgeThickness.Some? ==> opt.edgeThickness == ov.edgeThickness.value
    ensures ov.edgeThickness.None? ==> opt.edgeThickness == Defaults.edgeThickness
    ensures ov.displayColumns.Some? ==> opt.displayColumns == ov.displayColumns.value
    ensures ov.displayColumns.None? ==> opt.displayColumns == Defaults.displayColumns
    ensures ov.displayIndexes.Some? ==> opt.displayIndexes == ov.displayIndexes.value
    ensures ov.displayIndexes.None? ==> opt.displayIndexes == Defaults.displayIndexes
    ensures ov.displayCrowfoots.Some? ==> opt.displayCrowfoots == ov.displayCrowfoots.value
    ensures ov.displayCrowfoots.None? ==> opt.displayCrowfoots == Defaults.displayCrowfoots
    ensures ov.omitIsolatedTables.Some? ==> opt.omitIsolatedTables == ov.omitIsolatedTables.value
    ensures ov.omitIsolatedTables.None? ==> opt.omitIsolatedTables == Defaults.omitIsolatedTables
  {
    Options(
      Pick(ov.htmlColorDefault, Defaults.htmlColorDefault),
      Pick(ov.htmlColorHighlight, Defaults.htmlColorHighlight),
      Pick(ov.fontname, Defaults.fontname),
      Pick(ov.fontsize, Defaults.fontsize),
      Pick(ov.fontsizeTitle, Defaults.fontsizeTitle),
      Pick(ov.fontsizeLabel, Defaults.fontsizeLabel),
      Pick(ov.bgcolorIndexes, Defaults.bgcolorIndexes),
      Pick(ov.rankdir, Defaults.rankdir),
      Pick(ov.edgeThickness, Defaults.edgeThickness),
      Pick(ov.displayColumns, Defaults.displayColumns),
      Pick(ov.displayIndexes, Defaults.displayIndexes),
      Pick(ov.displayCrowfoots, Defaults.displayCrowfoots),
      Pick(ov.omitIsolatedTables, Defaults.omitIsolatedTables))
  }

  /** The overrides that set every option to the value `opt` holds. */
  function Full(opt: Options): Overrides {
    Overrides(
      Some(opt.htmlColorDefault), Some(opt.htmlColorHighlight), Some(opt.fontname),
      Some(opt.fontsize), Some(opt.fontsizeTitle), Some(opt.fontsizeLabel),
      Some(opt.bgcolorIndexes), Some(opt.rankdir), Some(opt.edgeThickness),
      Some(opt.displayColumns), Some(opt.displayIndexes), Some(opt.displayCrowfoots),
      Some(opt.omitIsolatedTables))
  }

  /** Passing no options yields the defaults; passing every option yields
      exactly what was passed. */
  lemma MergeExtremes(opt: Options)
    ensures Merge(NoOverrides) == Defaults
    ensures Merge(Full(opt)) == opt
  {
  }
}
