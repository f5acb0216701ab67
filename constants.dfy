/** The card's constant tables: default range, gradient resolutions and the
    severity colour map, whose colours come from the page's CSS variables
    with fixed fallbacks. */
module Constants {
  import opened Js

  const DEFAULT_MIN: real := 0.0
  const DEFAULT_MAX: real := 100.0
  const DEFAULT_GRADIENT_RESOLUTION: string := "medium"

  /** How finely the gradient path is drawn: arc subdivisions and colour
      samples per subdivision. */
  datatype Resolution = Resolution(segments: nat, samples: nat)

  /** Object.keys(GRADIENT_RESOLUTION_MAP). */
  const RESOLUTION_NAMES: seq<string> := ["low", "medium", "high"]

  /** GRADIENT_RESOLUTION_MAP[name]. */
  function ResolutionOf(name: string): (r: Option<Resolution>)
    ensures r.Some? <==> name in RESOLUTION_NAMES
  {
    if name == "low" then Some(Resolution(25, 2))
    else if name == "medium" then Some(Resolution(50, 5))
    else if name == "high" then Some(Resolution(100, 10))
    else None
  }

  /** The four colours, each read from a CSS variable once when the module
      loads. */
  datatype Palette = Palette(error: string, success: string, warning: string, info: string)

  /** `css || fallback`. */
  function CssOr(css: string, fallback: string): (c: string)
    ensures c == (if css != "" then css else fallback)
  {
    if css != "" then css else fallback
  }

  /** The palette from the page's CSS variables (`env` maps a variable name
      to its value, empty when unset). */
  function LoadPalette(env: string -> string): (p: Palette)
    ensures env("--error-color") == "" ==> p.error == "#db4437"
    ensures env("--success-color") == "" ==> p.success == "#43a047"
    ensures env("--warning-color") == "" ==> p.warning == "#ffa600"
    ensures env("--info-color") == "" ==> p.info == "#039be5"
    ensures env("--error-color") != "" ==> p.error == env("--error-color")
    ensures env("--success-color") != "" ==> p.success == env("--success-color")
    ensures env("--warning-color") != "" ==> p.warning == env("--warning-color")
    ensures env("--info-color") != "" ==> p.info == env("--info-color")
  {
    Palette(
      CssOr(env("--error-color"), "#db4437"),
      CssOr(env("--success-color"), "#43a047"),
      CssOr(env("--warning-color"), "#ffa600"),
      CssOr(env("--info-color"), "#039be5"))
  }

  const SEVERITY_NAMES: set<string> := {"red", "green", "yellow", "normal"}

  /** SEVERITY_MAP[name]. */
  function SeverityColour(p: Palette, name: string): (c: Option<string>)
    ensures c.Some? <==> name in SEVERITY_NAMES
  {
    if name == "red" then Some(p.error)
    else if name == "green" then Some(p.success)
    else if name == "yellow" then Some(p.warning)
    else if name == "normal" then Some(p.info)
    else None
  }

  /** The default range is a proper interval. */
  lemma DefaultRangeProper()
    ensures DEFAULT_MIN < DEFAULT_MAX
  {
  }

  /** The default resolution is one of the map's keys. */
  lemma DefaultResolutionIsKey()
    ensures ResolutionOf(DEFAULT_GRADIENT_RESOLUTION).Some?
  {
  }

  /** Each step up the resolution scale draws strictly more subdivisions
      and strictly more samples. */
  lemma ResolutionsIncrease(i: nat, j: nat)
    requires i < j < |RESOLUTION_NAMES|
    ensures ResolutionOf(RESOLUTION_NAMES[i]).Some? && ResolutionOf(RESOLUTION_NAMES[j]).Some?
    ensures ResolutionOf(RESOLUTION_NAMES[i]).value.segments < ResolutionOf(RESOLUTION_NAMES[j]).value.segments
    ensures ResolutionOf(RESOLUTION_NAMES[i]).value.samples < ResolutionOf(RESOLUTION_NAMES[j]).value.samples
  {
  }

  /** The severity map binds its four names to the four palette colours. */
  lemma SeverityMapColours(p: Palette)
    ensures SeverityColour(p, "red") == Some(p.error)
    ensures SeverityColour(p, "green") == Some(p.success)
    ensures SeverityColour(p, "yellow") == Some(p.warning)
    ensures SeverityColour(p, "normal") == Some(p.info)
  {
  }
}
