/** `render_text_to_svg` without the font and file handling: the input is cut
    into lines, every line gets a height, the heights are stacked from the top
    of the canvas, and each line is laid out in the common slot on its own
    baseline. */
module Document {
  import opened Strings
  import opened Metrics
  import opened Style
  import opened Placement

  /** Python's `\s` for `str` patterns: the characters `str.isspace()`
      accepts. */
  predicate IsSpace(c: char)
  {
    || c == ' ' || '\t' <= c <= '\r' || '\U{1C}' <= c <= '\U{1F}'
    || c == '\U{85}' || c == '\U{A0}' || c == '\U{1680}' || '\U{2000}' <= c <= '\U{200A}'
    || c == '\U{2028}' || c == '\U{2029}' || c == '\U{202F}' || c == '\U{205F}' || c == '\U{3000}'
  }

  /** How many whitespace characters the string starts with. */
  function LeadingSpaces(s: string): (k: nat)
    ensures k <= |s|
    ensures forall i :: 0 <= i < k ==> IsSpace(s[i])
    ensures k < |s| ==> !IsSpace(s[k])
    decreases |s|
  {
    if |s| == 0 || !IsSpace(s[0]) then 0 else 1 + LeadingSpaces(s[1..])
  }

  /** The line after `regex.match(line).group(1)` for `^\s*(.+)\s*$`, or the
      line itself when the pattern does not match. The greedy `.+` runs to
      the end of the line, so trailing whitespace stays; `\s*` gives back one
      character when the line is all whitespace, because `.+` needs one. The
      pattern fails only on the empty line, since the lines come from a split
      at `\n` and so never hold the one character `.` does not match. */
  function Capture(line: string): (group: string)
    ensures line == "" ==> group == ""
    ensures line != "" ==> 1 <= |group| <= |line| && group == line[|line| - |group|..]
    ensures forall i :: 0 <= i < |line| - |group| ==> IsSpace(line[i])
    ensures |group| > 1 ==> !IsSpace(group[0])
  {
    if line == "" then line
    else
      var k := LeadingSpaces(line);
      if k < |line| then line[k..] else line[|line| - 1..]
  }

  /** The `heights` list: `space_line_height` for the empty line, and
      `line_height` for every other line, a line of blanks included. */
  function Heights(lines: seq<string>, lineHeight: int, spaceLineHeight: int): (heights: seq<int>)
    ensures |heights| == |lines|
    ensures forall k :: 0 <= k < |lines| ==>
              heights[k] == if Capture(lines[k]) == "" then spaceLineHeight else lineHeight
  {
    seq(|lines|, k requires 0 <= k < |lines| => if lines[k] == "" then spaceLineHeight else lineHeight)
  }

  /** Prefix sums only look at the prefix. */
  lemma {:induction false} SumIntToPrefix(a: seq<int>, b: seq<int>, n: nat)
    requires n <= |a| && n <= |b| && a[..n] == b[..n]
    ensures SumIntTo(a, n) == SumIntTo(b, n)
    decreases n
  {
    if n > 0 {
      assert a[n - 1] == a[..n][n - 1] == b[..n][n - 1] == b[n - 1];
      assert a[..n - 1] == a[..n][..n - 1] == b[..n][..n - 1] == b[..n - 1];
      SumIntToPrefix(a, b, n - 1);
    }
  }

  /** Appending one height adds it to the total. */
  lemma SumIntAppend(xs: seq<int>, x: int)
    ensures SumInt(xs + [x]) == SumInt(xs) + x
  {
    assert (xs + [x])[..|xs|] == xs[..|xs|];
    SumIntToPrefix(xs + [x], xs, |xs|);
  }

  /** One step of the classification loop: capture the line, then choose
      the height by whether the capture is empty, which it is exactly for
      the empty line. */
  method ClassifyLine(line: string, lineHeight: int, spaceLineHeight: int) returns (h: int)
    ensures h == if line == "" then spaceLineHeight else lineHeight
  {
    var captured := Capture(line);
    if captured == "" {
      h := spaceLineHeight;
    } else {
      h := lineHeight;
    }
  }

  /** The classification loop: the lines of the input, the height of each,
      and `svg_height`, the sum of all heights. */
  method ClassifyLines(text: string, lineHeight: int, spaceLineHeight: int)
    returns (lines: seq<string>, heights: seq<int>, svgHeight: int)
    ensures lines == Split(text, '\n')
    ensures heights == Heights(lines, lineHeight, spaceLineHeight)
    ensures svgHeight == SumInt(heights)
  {
    lines := Split(text, '\n');
    svgHeight := 0;
    heights := [];
    for i := 0 to |lines|
      invariant |heights| == i
      invariant forall k :: 0 <= k < i ==> heights[k] == if lines[k] == "" then spaceLineHeight else lineHeight
      invariant svgHeight == SumInt(heights)
    {
      var h := ClassifyLine(lines[i], lineHeight, spaceLineHeight);
      SumIntAppend(heights, h);
      heights := heights + [h];
      svgHeight := svgHeight + h;
    }
  }

  /** The baseline of line `k`: `font_size` below the sum of the heights of
      the lines above it. */
  function Baseline(heights: seq<int>, fontSize: int, k: nat): int
    requires k <= |heights|
  {
    fontSize + SumIntTo(heights, k)
  }

  /** What `draw_fixed_width_text` does for each line, on the line's own
      baseline. */
  function LineResults(lines: seq<string>, heights: seq<int>, measure: char -> real, subfamily: string,
                       color: string, parsed: RgbaMatch, fontSize: int, areaX: real, base: real,
                       minScale: real): (results: seq<Result<seq<Instr>>>)
    requires |heights| == |lines|
    requires forall c :: measure(c) >= 0.0
    ensures |results| == |lines|
  {
    seq(|lines|, k requires 0 <= k < |lines| =>
      Draw(lines[k], measure, subfamily, color, parsed, Baseline(heights, fontSize, k), areaX, base, minScale))
  }

  /** The drawing loop's outcome: every line's drawing in order, or the
      first error, since the first line that raises ends the loop. */
  function Collect(results: seq<Result<seq<Instr>>>): (r: Result<seq<seq<Instr>>>)
    ensures r.Ok? ==> |r.value| == |results|
    ensures |results| > 0 && results[|results| - 1].Err? ==> r.Err?
    decreases |results|
  {
    if |results| == 0 then Ok([])
    else
      match Collect(results[..|results| - 1])
      case Err(e) => Err(e)
      case Ok(drawn) =>
        match results[|results| - 1]
        case Err(e) => Err(e)
        case Ok(out) => Ok(drawn + [out])
  }

  /** Collecting fails exactly when some line fails; otherwise it keeps one
      drawing per line, in order. */
  lemma {:induction false} CollectResult(results: seq<Result<seq<Instr>>>)
    ensures Collect(results).Err? <==> exists k :: 0 <= k < |results| && results[k].Err?
    ensures Collect(results).Ok? ==>
              && |Collect(results).value| == |results|
              && forall k :: 0 <= k < |results| ==> results[k] == Ok(Collect(results).value[k])
    decreases |results|
  {
    if |results| > 0 {
      var n := |results|;
      var init := results[..n - 1];
      CollectResult(init);
      if Collect(init).Err? {
        var k :| 0 <= k < |init| && init[k].Err?;
        assert results[k] == init[k];
      } else if results[n - 1].Ok? {
        var drawn := Collect(init).value + [results[n - 1].value];
        assert Collect(results) == Ok(drawn);
        forall k | 0 <= k < n
          ensures results[k] == Ok(drawn[k])
        {
          if k < n - 1 {
            assert results[k] == init[k];
          }
        }
      }
    }
  }

  /** The drawing fails exactly when the colour dispatch fails and some line
      has a non-space character: a line of spaces returns before the colour
      is looked at. */
  lemma DrawingFails(lines: seq<string>, heights: seq<int>, measure: char -> real, subfamily: string,
                     color: string, parsed: RgbaMatch, fontSize: int, areaX: real, base: real, minScale: real)
    requires |heights| == |lines|
    requires forall c :: measure(c) >= 0.0
    ensures Collect(LineResults(lines, heights, measure, subfamily, color, parsed, fontSize, areaX, base, minScale)).Err?
        <==> FontColor(color, parsed).Err? && exists k :: 0 <= k < |lines| && NumChars(lines[k]) > 0
  {
    var results := LineResults(lines, heights, measure, subfamily, color, parsed, fontSize, areaX, base, minScale);
    CollectResult(results);
    if Collect(results).Err? {
      var k :| 0 <= k < |results| && results[k].Err?;
      assert NumChars(lines[k]) > 0;
    } else if FontColor(color, parsed).Err? {
      forall k | 0 <= k < |lines|
        ensures NumChars(lines[k]) == 0
      {
        assert results[k].Ok?;
      }
    }
  }

  /** Every glyph of line `k` sits on the baseline of line `k`, `font_size`
      below the heights of the lines above it, in the normalised weight; a
      line of spaces draws nothing, and every other line draws something. */
  lemma Baselines(lines: seq<string>, heights: seq<int>, measure: char -> real, subfamily: string,
                  color: string, parsed: RgbaMatch, fontSize: int, areaX: real, base: real, minScale: real)
    requires |heights| == |lines|
    requires forall c :: measure(c) >= 0.0
    requires Collect(LineResults(lines, heights, measure, subfamily, color, parsed, fontSize, areaX, base, minScale)).Ok?
    ensures var drawn := Collect(LineResults(lines, heights, measure, subfamily, color, parsed, fontSize, areaX, base, minScale)).value;
      && |drawn| == |lines|
      && (forall k :: 0 <= k < |lines| && NumChars(lines[k]) == 0 ==> drawn[k] == [])
      && (forall k :: 0 <= k < |lines| && NumChars(lines[k]) > 0 ==> |drawn[k]| >= 1)
      && forall k, j :: 0 <= k < |lines| && 0 <= j < |drawn[k]| ==>
           drawn[k][j].pen.y == fontSize + SumIntTo(heights, k) && drawn[k][j].pen.weight == FontWeight(subfamily)
  {
    var results := LineResults(lines, heights, measure, subfamily, color, parsed, fontSize, areaX, base, minScale);
    var drawn: seq<seq<Instr>> := Collect(results).value;
    CollectResult(results);
    forall k: int | 0 <= k < |lines|
      ensures NumChars(lines[k]) == 0 ==> drawn[k] == []
      ensures NumChars(lines[k]) > 0 ==> |drawn[k]| >= 1
      ensures forall j :: 0 <= j < |drawn[k]| ==>
                drawn[k][j].pen.y == fontSize + SumIntTo(heights, k) && drawn[k][j].pen.weight == FontWeight(subfamily)
    {
      assert results[k] == Ok(drawn[k]);
    }
  }

  /** The drawing loop: each line drawn at `y_cursor + font_size`, then the
      cursor moved down by the line's height. */
  method DrawLines(lines: seq<string>, heights: seq<int>, measure: char -> real, subfamily: string,
                   color: string, parsed: RgbaMatch, fontSize: int, areaX: real, base: real, minScale: real)
    returns (r: Result<seq<seq<Instr>>>)
    requires |heights| == |lines|
    requires forall c :: measure(c) >= 0.0
    ensures r == Collect(LineResults(lines, heights, measure, subfamily, color, parsed, fontSize, areaX, base, minScale))
  {
    ghost var results := LineResults(lines, heights, measure, subfamily, color, parsed, fontSize, areaX, base, minScale);
    var drawn: seq<seq<Instr>> := [];
    var yCursor := 0;
    for i := 0 to |lines|
      invariant yCursor == SumIntTo(heights, i)
      invariant Collect(results[..i]) == Ok(drawn)
    {
      var y := yCursor + fontSize;
      assert y == Baseline(heights, fontSize, i);
      var out := DrawFixedWidthText(lines[i], measure, subfamily, color, parsed, y, areaX, base, minScale);
      assert out == results[i];
      assert results[..i + 1][..i] == results[..i];
      if out.Err? {
        CollectResult(results);
        return Err(out.error);
      }
      drawn := drawn + [out.value];
      yCursor := yCursor + heights[i];
    }
    assert results[..|lines|] == results;
    r := Ok(drawn);
  }

  /** The SVG document: its size and, line by line, the texts drawn on it
      (the document's elements are these in order). */
  datatype Svg = Svg(width: int, height: int, lines: seq<seq<Instr>>)

  /** `render_text_to_svg`: classify and stack the lines, measure the slot,
      then draw every line; fails when a line with a non-space character
      meets an `rgba` colour whose channels do not parse. */
  method RenderTextToSvg(text: string, measure: char -> real, subfamily: string, color: string,
                         parsed: RgbaMatch, fontSize: int, fontSpace: int, minScale: real,
                         lineHeight: int, spaceLineHeight: int, svgWidth: int)
    returns (r: Result<Svg>)
    requires forall c :: measure(c) >= 0.0
    ensures var lines := Split(text, '\n');
      r.Err? <==> FontColor(color, parsed).Err? && exists k :: 0 <= k < |lines| && NumChars(lines[k]) > 0
    ensures var lines, base := Split(text, '\n'), BaseAreaWidth(measure, fontSpace);
      var heights := Heights(lines, lineHeight, spaceLineHeight);
      var drawn := Collect(LineResults(lines, heights, measure, subfamily, color, parsed, fontSize,
                                       AreaX(svgWidth, base), base, minScale));
      r.Ok? ==> drawn.Ok? && r.value == Svg(svgWidth, SumInt(heights), drawn.value)
  {
    var lines, heights, svgHeight := ClassifyLines(text, lineHeight, spaceLineHeight);
    var base := BaseAreaWidth(measure, fontSpace);
    var areaX := AreaX(svgWidth, base);
    var drawn := DrawLines(lines, heights, measure, subfamily, color, parsed, fontSize, areaX, base, minScale);
    DrawingFails(lines, heights, measure, subfamily, color, parsed, fontSize, areaX, base, minScale);
    if drawn.Err? {
      return Err(drawn.error);
    }
    return Ok(Svg(svgWidth, svgHeight, drawn.value));
  }
}
