# Five-character-take layout, in Dafny

This project models the layout engine of `gomojidori.py`. The engine draws
names in the Japanese "five-character-take" style: every line of a text is
laid out inside one fixed horizontal slot. The slot is as wide as five
full-width reference characters plus four gaps, and it is centred on the
canvas.

What is modelled:

- **Lines and heights** (`Document`). The input is split at `\n`. Each line
  is captured with `^\s*(.+)\s*$`. An empty line gets `space_line_height`;
  every other line gets `line_height`, including a line of blanks, since the
  capture never empties a non-empty line. The lines are stacked from the top,
  and line `k` is drawn on baseline `font_size + (heights of lines 0..k-1)`.
  The drawing loop gets the original, uncaptured line. The capture only
  decides the height. It also keeps trailing whitespace, because the greedy
  `.+` runs to the end of the line.
- **Slot metrics** (`Metrics`). `base_area_width` is the sum of the widths of
  `あいうえお` plus four `font_space` gaps. `area_x` leaves equal margins. The
  left, right and centre anchor points `L_POS`, `R_POS` and `C_POS` are
  derived from these.
- **Placement rules** (`Placement`). These model `draw_fixed_width_text` and
  its `put_text` helper. A line is cut at ASCII spaces, and the number of
  remaining characters picks the rule:
  - 0 characters: nothing is drawn.
  - 1 character: the centre.
  - 2 characters: the edges.
  - 3 characters: the edges, with a middle glyph anchored towards the longer
    part of the name.
  - 4 characters as 2+2: the edges and the thirds of the slot.
  - 4 characters split unevenly: one text with an ideographic space inserted.
  - Other 4- and 5-character lines: an even run that fills the slot.
  - 6 or more characters: a run compressed by one common horizontal scale and
    centred in the slot.
  Each rule is a function on values. The loops of the source are methods
  proved equal to those functions, and lemmas state the geometry each rule
  promises.
- **Style** (`Style`). This covers the font-weight table, including its
  default and its case-insensitivity, and the colour dispatch for `rgba(...)`
  strings.

Some things are parameters instead of computations:

- **Glyph widths.** `draw.textbbox(...)[2]` is the function parameter
  `measure: char -> real`, and it is required to be non-negative.
- **Colour parsing.** The outcome of matching the `rgba` pattern, and of
  `float()` on each channel, is the parameter `parsed: RgbaMatch`.
- **Font weight.** The font's subfamily name is a string parameter.

Coordinates are exact reals. The SVG document is modelled as its size plus,
line by line, the list of `put_text` calls made for it.

## Model

| member | source | states |
|---|---|---|
| Strings.Split | gomojidori.py:49 | `split` with a one-character separator always yields at least one piece |
| Strings.JoinSplit | gomojidori.py:49 | joining the pieces of a split with the same separator gives the input back |
| Strings.SplitShape | gomojidori.py:49-50 | a split has one piece more than the separator count (so `num_spaces` is the number of spaces), and no piece contains the separator |
| Strings.ConcatSplit | gomojidori.py:49-51 | `"".join(text.split(" "))` is the text with its spaces removed |
| Strings.WithoutLength | gomojidori.py:51-52 | removing spaces shortens the text by the number of spaces and leaves none |
| Strings.Lower | gomojidori.py:64 | ASCII `lower()` keeps the length and lower-cases letter by letter |
| Strings.LowerUpper | gomojidori.py:64 | lower-casing erases ASCII upper-casing |
| Strings.LowerIdempotent | gomojidori.py:64 | lower-casing twice is lower-casing once |
| Strings.StartsWith | gomojidori.py:77 | `startswith` holds exactly when the prefix is no longer than the string and agrees with it character by character |
| Placement.MergedIsNonSpace | gomojidori.py:49-52 | `merged` is the line without spaces, `num_chars` is the line length minus the spaces, and `num_spaces` counts the spaces |
| Style.FontWeight | gomojidori.py:56-64 | the weight is always `normal` or `bold`; it is `bold` exactly when the lower-cased subfamily is one of the four heavy names; `regular` and `medium` give `normal`; unknown names default to `normal` |
| Style.FontWeightIgnoresCase | gomojidori.py:64 | the weight does not depend on the ASCII case the subfamily name is written in |
| Style.FontWeightIdempotent | gomojidori.py:56-64 | looking up an already-normalised weight returns it unchanged (a property of the table; the renderer looks the weight up once per line) |
| Style.FontColor | gomojidori.py:77-83 | a colour not starting with `rgba` passes through; an unmatched `rgba` becomes `black`; a match fails exactly when a channel fails `float()`; otherwise the fill carries the three parsed channels |
| Style.FontColorIdempotent | gomojidori.py:77-83 | a colour string the dispatch produced passes through a second dispatch unchanged (a property of the dispatch; every line starts from the caller's colour) |
| Metrics.BaseAreaWidth | gomojidori.py:208-212 | the slot width is the five reference widths plus four `font_space` gaps |
| Metrics.AreaX | gomojidori.py:213 | the slot leaves equal margins on both sides of the canvas |
| Metrics.RightPos | gomojidori.py:75 | `R_POS` is one slot width right of `L_POS` |
| Metrics.CenterPos | gomojidori.py:76 | `C_POS` is equidistant from `L_POS` and `R_POS` |
| Metrics.CenteredSlot | gomojidori.py:74-76 | with the slot placed at `area_x`, `C_POS` is the canvas centre and `L_POS`/`R_POS` are symmetric about it |
| Metrics.SumNonNegative | gomojidori.py:135 | a sum of non-negative widths is non-negative |
| Placement.CharWidths | gomojidori.py:69 | one width per non-space character, and width `i` is the measure of merged character `i` |
| Placement.Put | gomojidori.py:85-88 | `put_text` draws a bare underscore as a blank and any other text as given, at the given position, anchor, scale and pen |
| Placement.Run | gomojidori.py:156-159 | a run (the `pos` loops at lines 156-159, 164-167 and 176-179) has one glyph per character, each left-anchored, at the run's scale, with the line's pen and never a bare underscore |
| Placement.RunAt | gomojidori.py:156-159 | glyph `k` of a run is character `k`, drawn at `k` gaps plus the scaled widths before it |
| Placement.RunGlyphs | gomojidori.py:156-158 | a run starts at its start position and draws every merged character in order |
| Placement.RunSteps | gomojidori.py:157-159 | each next glyph of a run is one gap plus the previous glyph's scaled width further right |
| Placement.RunEnd | gomojidori.py:156-159 | the last glyph of a run ends after all gaps and all scaled widths |
| Placement.RunXStep | gomojidori.py:159 | the cursor update agrees with the closed-form position |
| Placement.PlaceRun | gomojidori.py:156-159 | the `pos`-cursor loop produces exactly the run specification |
| Placement.ShortLayout | gomojidori.py:109-131 | one to three characters give one glyph per character, with no scaling and the line's pen |
| Placement.ShortRules | gomojidori.py:109-120 | one character: the whole line text on the slot centre, anchored middle; two or three: the first glyph starts at `L_POS` and the last ends at `R_POS` |
| Placement.MiddleRule | gomojidori.py:118-131 | the middle of three glyphs sits on the centre; anchored `start` iff one space splits the line with the shorter part first, `end` iff one space with the longer-or-equal part first, `middle` iff not exactly one space |
| Placement.FourLayout | gomojidori.py:139-153 | four characters with one space draw one text when the parts differ in length, else four glyphs |
| Placement.TwoPlusTwo | gomojidori.py:139-149 | a 2+2 name: first at `L_POS`, last at `R_POS`, the inner two centred at the thirds and symmetric about the centre, in that order |
| Placement.UnevenFour | gomojidori.py:150-153 | an uneven four-character name is one five-character text from `L_POS`: the parts with an ideographic space between them |
| Placement.Even | gomojidori.py:154-167 | an even run has one glyph per character |
| Placement.EvenRules | gomojidori.py:154-167 | an even run is left-anchored, unscaled and in order; it starts at `L_POS`; the blank between neighbours is the slot's leftover width shared equally; the last glyph ends exactly at `R_POS` |
| Placement.Compressed | gomojidori.py:170-179 | a line of six or more characters draws one glyph per character, left-anchored, all at the one compression scale, which is never below `min_scale` |
| Placement.ScaledRun | gomojidori.py:176-179 | the centred run has one glyph per character, left-anchored at the given scale with the line's pen |
| Placement.CompressionScale | gomojidori.py:171-174 | the compression scale is the larger of `min_scale` and the fitting scale, and its denominator is positive |
| Placement.CompressionFits | gomojidori.py:171-174 | at the compression scale, the glyphs and unit gaps span at least the slot, and exactly the slot unless the floor applies |
| Placement.CompressedRules | gomojidori.py:176-179 | a compressed run is left-anchored at the common scale, one spacer plus the scaled width between neighbours, as wide as the scaled glyphs plus gaps, and centred on the slot centre |
| Placement.Layout | gomojidori.py:53-179 | one glyph per non-space character (one text for an uneven four-character name); every glyph carries the line's pen and is never a bare underscore |
| Placement.Draw | gomojidori.py:48-179 | a line fails exactly when it has a non-space character and the colour dispatch fails; a line of spaces draws nothing; otherwise the glyph count is as in `Layout`, and every glyph is on the given baseline in the normalised weight and the fill the colour dispatch returned |
| Placement.DrawFixedWidthText | gomojidori.py:48-179 | the step-by-step procedure equals `Draw` |
| Placement.PlaceLine | gomojidori.py:49-179 | the dispatch on the character count produces exactly `Layout` |
| Placement.PlaceShort | gomojidori.py:109-131 | the one-to-three-character calls produce exactly `ShortLayout` |
| Placement.PlaceFour | gomojidori.py:139-153 | the four-character calls, including the inner loop, produce exactly `FourLayout` |
| Placement.PlaceCompressed | gomojidori.py:170-179 | the scale and the compressed loop produce exactly `Compressed` |
| Placement.PlaceScaledRun | gomojidori.py:176-179 | the centred start and the loop produce exactly `ScaledRun` |
| Document.LeadingSpaces | gomojidori.py:189 | counts exactly the leading `\s` characters |
| Document.Capture | gomojidori.py:189-198 | the capture of `^\s*(.+)\s*$` is empty only for the empty line; otherwise it is a non-empty suffix of the line after leading whitespace, keeping one blank of an all-blank line |
| Document.Heights | gomojidori.py:194-204 | one height per line: `space_line_height` exactly when the captured line is empty, otherwise `line_height` |
| Document.ClassifyLine | gomojidori.py:196-204 | a line gets `space_line_height` exactly when it is empty, otherwise `line_height` |
| Document.ClassifyLines | gomojidori.py:186-204 | the lines are the `\n`-split of the input, each height is chosen per line as above, and `svg_height` is the sum of all heights |
| Document.SumIntAppend | gomojidori.py:200-204 | adding a line's height to the running total keeps it equal to the sum of the heights so far |
| Document.Collect | gomojidori.py:226-232 | the drawing loop keeps one drawing per line when it completes, and a failing last line makes the whole drawing fail |
| Document.CollectResult | gomojidori.py:226-232 | the drawing loop fails exactly when some line fails, and otherwise keeps one drawing per line in order |
| Document.DrawingFails | gomojidori.py:226-232 | the document fails exactly when the colour dispatch fails and some line has a non-space character |
| Document.Baselines | gomojidori.py:226-232 | every glyph of line `k` is on `font_size` plus the heights of lines above it, in the normalised weight; lines of spaces draw nothing, other lines draw something |
| Document.DrawLines | gomojidori.py:226-232 | the `y_cursor` loop produces exactly the per-line drawings on their baselines, stopping at the first error |
| Document.RenderTextToSvg | gomojidori.py:182-235 | fails exactly as `DrawingFails` says; otherwise the document is canvas-wide and as tall as the sum of line heights, and holds every line drawn in the slot centred by `area_x` |

## Left out

- Font loading (`ImageFont.truetype`), `font.getname()` and the font family attribute: fonts are outside the model, and glyph widths come from the `measure` parameter.
- `get_font_weight_name`, which reads the subfamily name from the font file with fontTools: the subfamily is a string parameter.
- SVG serialisation by svgwrite: the text elements, the transform string of scaled glyphs (including its use of `-text_xscale` as a translation), `dwg.save()` and `dwg.tostring()`. The document is its size plus the recorded `put_text` calls.
- The regular expression and `float()` on the `rgba` channels: their outcome is the `RgbaMatch` parameter. `svgwrite.rgb`'s conversion and formatting of the channels, including the errors it can raise, is not modelled: the fill keeps the three parsed reals.
- The debug guide lines drawn when `debug` is set, the Gradio interface, command-line parsing and file output.
- Floating-point rounding: all coordinates and scales are exact reals.
- Strings.Lower: Python's `lower()` can change a string's length (`'İ'.lower()` has two characters); the model lower-cases ASCII letters only and keeps the length.
- Style.FontWeight: `lower()` is modelled for ASCII letters only. Python also lower-cases other characters, e.g. U+212A KELVIN SIGN to `k`, so `"BLAC\u212A"` is `bold` in the source but `normal` in the model; Strings.LowerUpper and Style.FontWeightIgnoresCase speak of ASCII case only.
- Placement.Draw: glyph widths are required to be non-negative, as bounding-box right edges of rendered glyphs are. The compression scale's denominator relies on this.
- A `font_weight` of `None` (no subfamily name in the font) makes the source raise on `.lower()`; the model always has a string.
