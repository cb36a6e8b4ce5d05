/**
 * The visual adjustments: three scalar parameters and the CSS filter chain
 * built from them, which lists brightness, saturate and contrast in that
 * fixed order. How the numbers are printed into the CSS text is not modelled.
 */
module Filters {
  import opened Wrappers

  /** Brightness, saturation and contrast multipliers; 1 leaves the picture unchanged. */
  datatype FilterState = FilterState(brightness: real, saturation: real, contrast: real)

  /** Every adjustment starts at 1. */
  const DefaultFilters: FilterState := FilterState(1.0, 1.0, 1.0)

  /** One CSS filter function of the chain. */
  datatype FilterFn = Brightness(amount: real) | Saturate(amount: real) | Contrast(amount: real)

  /** The CSS name of a filter function. */
  function FnName(fn: FilterFn): string
  {
    match fn
    case Brightness(_) => "brightness"
    case Saturate(_) => "saturate"
    case Contrast(_) => "contrast"
  }

  /**
   * The `filter` style applied to the main video and to the trimmed-video
   * player: brightness, saturate and contrast in that order, carrying the whole
   * filter state (reading it back gives the state it was built from).
   */
  function VideoStyles(f: FilterState): (r: seq<FilterFn>)
    ensures |r| == 3 && FnName(r[0]) == "brightness" && FnName(r[1]) == "saturate" && FnName(r[2]) == "contrast"
    ensures FiltersOf(r) == Some(f)
  {
    [Brightness(f.brightness), Saturate(f.saturation), Contrast(f.contrast)]
  }

  /** Reads a filter state back from a chain that has the shape VideoStyles produces. */
  function FiltersOf(chain: seq<FilterFn>): (r: Option<FilterState>)
    ensures r.Some? <==> |chain| == 3 && chain[0].Brightness? && chain[1].Saturate? && chain[2].Contrast?
  {
    if |chain| == 3 && chain[0].Brightness? && chain[1].Saturate? && chain[2].Contrast? then
      Some(FilterState(chain[0].amount, chain[1].amount, chain[2].amount))
    else
      None
  }

  /** Two filter states give the same chain only when they are equal. */
  lemma StylesInjective(f: FilterState, g: FilterState)
    requires VideoStyles(f) == VideoStyles(g)
    ensures f == g
  {
    assert Some(f) == FiltersOf(VideoStyles(f)) == FiltersOf(VideoStyles(g)) == Some(g);
  }
}
