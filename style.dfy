/** The two style decisions `draw_fixed_width_text` makes before placing any
    glyph: the coarse SVG font weight and the fill colour. */
module Style {
  import opened Strings

  /** Subfamily names (lower-cased) that render as `normal`. */
  const NormalNames: set<string> := {"regular", "medium"}

  /** Subfamily names (lower-cased) that render as `bold`. */
  const BoldNames: set<string> := {"bold", "semibold", "extrabold", "black"}

  /** The weight table lookup with its `"normal"` default: only two values
      ever come out, and `bold` exactly for the four heavy subfamilies,
      whatever the case they are written in. */
  function FontWeight(subfamily: string): (weight: string)
    ensures weight == "normal" || weight == "bold"
    ensures weight == "bold" <==> Lower(subfamily) in BoldNames
    ensures Lower(subfamily) in NormalNames ==> weight == "normal"
  {
    var table := map["regular" := "normal", "medium" := "normal",
                     "bold" := "bold", "semibold" := "bold",
                     "extrabold" := "bold", "black" := "bold"];
    var key := Lower(subfamily);
    if key in table then table[key] else "normal"
  }

  /** The lookup ignores case: a name and its upper-cased spelling get the
      same weight. */
  lemma FontWeightIgnoresCase(subfamily: string)
    ensures FontWeight(Upper(subfamily)) == FontWeight(subfamily)
    ensures FontWeight(Lower(subfamily)) == FontWeight(subfamily)
  {
    LowerUpper(subfamily);
    LowerIdempotent(subfamily);
  }

  /** Normalising a weight that is already normalised changes nothing. This
      is a property of the lookup table alone: the renderer looks the weight
      up once per line, always from the font's own subfamily name. */
  lemma FontWeightIdempotent(subfamily: string)
    ensures FontWeight(FontWeight(subfamily)) == FontWeight(subfamily)
  {
    var w := FontWeight(subfamily);
    if w == "bold" {
      assert Lower("bold") == "bold";
    } else {
      assert Lower("normal") == "normal";
    }
  }

  /** A fill as handed to the SVG writer: either a colour string passed
      through as given, or the opaque colour built from three channels. */
  datatype Fill = Named(name: string) | Rgb(r: real, g: real, b: real)

  /** What happened to an `rgba…` string: the pattern
      `rgba\((.+),\s*(.+),\s*(.+),\s*(.+)\)` did not match it, or it matched
      and each of the first three groups was or was not a valid `float()`. */
  datatype RgbaMatch = NoMatch | Match(r: Option<real>, g: Option<real>, b: Option<real>)

  datatype Option<T> = None | Some(value: T)

  /** The only failure: `float()` raising on a matched channel. */
  datatype Error = ValueError

  datatype Result<T> = Ok(value: T) | Err(error: Error)

  /** The colour dispatch: a colour not starting with `rgba` is passed on
      unchanged; an `rgba` string the pattern rejects falls back to black; a
      matched one keeps its three channels and drops the alpha. */
  function FontColor(color: string, parsed: RgbaMatch): (fill: Result<Fill>)
    ensures !StartsWith(color, "rgba") ==> fill == Ok(Named(color))
    ensures StartsWith(color, "rgba") && parsed.NoMatch? ==> fill == Ok(Named("black"))
    ensures fill.Err? <==> StartsWith(color, "rgba") && parsed.Match?
                            && (parsed.r.None? || parsed.g.None? || parsed.b.None?)
    ensures StartsWith(color, "rgba") && parsed.Match? && parsed.r.Some? && parsed.g.Some? && parsed.b.Some?
            ==> fill == Ok(Rgb(parsed.r.value, parsed.g.value, parsed.b.value))
    ensures fill.Ok? && fill.value.Rgb? ==> parsed.Match? && parsed.r == Some(fill.value.r)
                                            && parsed.g == Some(fill.value.g) && parsed.b == Some(fill.value.b)
  {
    if !StartsWith(color, "rgba") then Ok(Named(color))
    else
      match parsed
      case NoMatch => Ok(Named("black"))
      case Match(r, g, b) =>
        if r.Some? && g.Some? && b.Some? then Ok(Rgb(r.value, g.value, b.value)) else Err(ValueError)
  }

  /** A colour string the dispatch produced is left alone by a second pass:
      the result of the dispatch never starts with `rgba`. This is a property
      of the dispatch alone: every line starts again from the caller's
      colour, so the renderer never dispatches a colour twice. */
  lemma FontColorIdempotent(color: string, parsed: RgbaMatch, again: RgbaMatch)
    requires FontColor(color, parsed).Ok? && FontColor(color, parsed).value.Named?
    ensures FontColor(FontColor(color, parsed).value.name, again) == FontColor(color, parsed)
  {
    if StartsWith(color, "rgba") {
      assert !StartsWith("black", "rgba") by {
        assert "black"[..4] != "rgba" by { assert "black"[0] != "rgba"[0]; }
      }
    }
  }
}
