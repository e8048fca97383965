/** The five-character-take placement rules of `draw_fixed_width_text`: a
    line is cut at its ASCII spaces, and the number of remaining characters
    (and, for three or four of them, how the spaces split them) decides where
    each glyph goes inside the slot, with which anchor and which horizontal
    scale. */
module Placement {
  import opened Strings
  import opened Metrics
  import opened Style

  /** SVG `text-anchor`: `start`, `middle` or `end`. */
  datatype Anchor = Start | Middle | End

  /** What every glyph of one line shares: the baseline and the text style. */
  datatype Pen = Pen(y: int, weight: string, fill: Fill)

  /** One `put_text` call: the text drawn, its anchor point and anchor, and
      the horizontal scale (1.0 means no transform group). */
  datatype Instr = Instr(content: string, x: real, anchor: Anchor, xscale: real, pen: Pen)

  /** The ideographic space put between surname and given name when four
      characters are split unevenly. */
  const FullWidthSpace: char := '　'

  /** The fixed, unscaled gap between compressed glyphs. */
  const Spacer: real := 1.0

  /** `text.split(" ")`. */
  function Parts(text: string): seq<string>
  {
    Split(text, ' ')
  }

  /** `num_spaces`. */
  function NumSpaces(text: string): nat
  {
    |Parts(text)| - 1
  }

  /** `merged`: the parts glued back together without the spaces. */
  function Merged(text: string): string
  {
    Concat(Parts(text))
  }

  /** `num_chars`. */
  function NumChars(text: string): nat
  {
    |Merged(text)|
  }

  /** The merged text is exactly the line's non-space characters; the number
      of spaces is the number of ASCII spaces in the line. */
  lemma {:induction false} MergedIsNonSpace(text: string)
    ensures Merged(text) == Without(text, ' ')
    ensures NumChars(text) == |text| - Count(text, ' ')
    ensures NumSpaces(text) == Count(text, ' ')
    ensures ' ' !in Merged(text)
  {
    ConcatSplit(text, ' ');
    WithoutLength(text, ' ');
    SplitShape(text, ' ');
  }

  /** `char_widths`: one measured width per non-space character of the line,
      in order, so the i-th width belongs to the i-th merged character. */
  function CharWidths(text: string, measure: char -> real): (widths: seq<real>)
    ensures |widths| == NumChars(text)
    ensures forall i :: 0 <= i < |widths| ==> widths[i] == measure(Merged(text)[i])
  {
    MergedIsNonSpace(text);
    var chars := Without(text, ' ');
    seq(|chars|, i requires 0 <= i < |chars| => measure(chars[i]))
  }

  /** `put_text`: a text that is exactly one underscore is drawn as a
      blank; any other text is drawn as given. */
  function Put(texts: string, x: real, anchor: Anchor, xscale: real, pen: Pen): (instr: Instr)
    ensures instr.content != "_"
    ensures texts == "_" ==> instr.content == " "
    ensures texts != "_" ==> instr.content == texts
    ensures instr.x == x && instr.anchor == anchor && instr.xscale == xscale && instr.pen == pen
    ensures |instr.content| == |texts|
  {
    Instr(if texts == "_" then " " else texts, x, anchor, xscale, pen)
  }

  /** Where the i-th glyph of a run goes: `i` gaps and the scaled widths of
      the glyphs before it to the right of `start`. */
  function RunX(widths: seq<real>, start: real, gap: real, scale: real, i: nat): real
    requires i <= |widths|
  {
    start + i as real * gap + scale * SumTo(widths, i)
  }

  /** The first `n` glyphs of a run of left-anchored glyphs, each at its
      `RunX` position and drawn with the run's scale. */
  function RunUpTo(m: string, widths: seq<real>, start: real, gap: real, scale: real, pen: Pen, n: nat)
    : (r: seq<Instr>)
    requires |widths| == |m| && n <= |m|
    ensures |r| == n
    ensures forall k :: 0 <= k < n ==>
              r[k].pen == pen && r[k].content != "_" && r[k].anchor == Start && r[k].xscale == scale
    decreases n
  {
    if n == 0 then []
    else RunUpTo(m, widths, start, gap, scale, pen, n - 1) + [Put([m[n - 1]], RunX(widths, start, gap, scale, n - 1), Start, scale, pen)]
  }

  /** A whole run: one glyph per character of `m`. */
  function Run(m: string, widths: seq<real>, start: real, gap: real, scale: real, pen: Pen): (r: seq<Instr>)
    requires |widths| == |m|
    ensures |r| == |m|
    ensures forall k :: 0 <= k < |r| ==>
              r[k].pen == pen && r[k].content != "_" && r[k].anchor == Start && r[k].xscale == scale
  {
    RunUpTo(m, widths, start, gap, scale, pen, |m|)
  }

  /** Glyph `k` of a run is the `k`-th character, at its `RunX` position. */
  lemma {:induction false} RunAt(m: string, widths: seq<real>, start: real, gap: real, scale: real, pen: Pen,
                                 n: nat, k: nat)
    requires |widths| == |m| && k < n <= |m|
    ensures RunUpTo(m, widths, start, gap, scale, pen, n)[k]
         == Put([m[k]], RunX(widths, start, gap, scale, k), Start, scale, pen)
    decreases n
  {
    if k < n - 1 {
      RunAt(m, widths, start, gap, scale, pen, n - 1, k);
    }
  }

  /** `max(base / (total + spacer * (n - 1)), min_scale)`: never below the
      floor, never below the fitting scale, and equal to one of them. */
  function CompressionScale(widths: seq<real>, base: real, minScale: real): (scale: real)
    requires |widths| >= 2
    requires forall k :: 0 <= k < |widths| ==> widths[k] >= 0.0
    ensures Sum(widths) + Spacer * (|widths| - 1) as real > 0.0
    ensures scale >= minScale
    ensures scale >= base / (Sum(widths) + Spacer * (|widths| - 1) as real)
    ensures scale == minScale || scale == base / (Sum(widths) + Spacer * (|widths| - 1) as real)
  {
    SumNonNegative(widths, |widths|);
    var fit := base / (Sum(widths) + Spacer * (|widths| - 1) as real);
    if fit >= minScale then fit else minScale
  }

  /** The anchor of the middle glyph of a three-character line: pulled
      towards the longer part when exactly one space splits the line. */
  function MiddleAnchor(parts: seq<string>): Anchor
    requires |parts| >= 1
  {
    if |parts| == 2 then (if |parts[0]| < |parts[1]| then Start else End) else Middle
  }

  /** The line is four characters split unevenly by a single space. */
  predicate FourUneven(text: string)
  {
    NumChars(text) == 4 && NumSpaces(text) == 1 && |Parts(text)[0]| != |Parts(text)[1]|
  }

  /** The rules for one to three characters: the first glyph flush left,
      the last flush right, a middle one on the slot centre. A single
      character is drawn as the whole line text, spaces included. */
  function ShortLayout(text: string, pen: Pen, areaX: real, base: real): (r: seq<Instr>)
    requires 1 <= NumChars(text) <= 3
    ensures |r| == NumChars(text)
    ensures forall k :: 0 <= k < |r| ==> r[k].pen == pen && r[k].content != "_" && r[k].xscale == 1.0
  {
    var m := Merged(text);
    var L, R, C := LeftPos(areaX), RightPos(areaX, base), CenterPos(areaX, base);
    if |m| == 1 then [Put(text, C, Middle, 1.0, pen)]
    else if |m| == 2 then [Put([m[0]], L, Start, 1.0, pen), Put([m[1]], R, End, 1.0, pen)]
    else
      [Put([m[0]], L, Start, 1.0, pen), Put([m[2]], R, End, 1.0, pen),
       Put([m[1]], C, MiddleAnchor(Parts(text)), 1.0, pen)]
  }

  /** The rules for four characters split by exactly one space: a 2+2 name
      at the two edges and the two thirds of the slot; an uneven split as
      one text with an ideographic space between the parts, from the left
      edge. */
  function FourLayout(text: string, pen: Pen, areaX: real, base: real): (r: seq<Instr>)
    requires NumChars(text) == 4 && NumSpaces(text) == 1
    ensures |r| == if FourUneven(text) then 1 else 4
    ensures forall k :: 0 <= k < |r| ==> r[k].pen == pen && r[k].content != "_" && r[k].xscale == 1.0
  {
    var parts, m := Parts(text), Merged(text);
    var L, R := LeftPos(areaX), RightPos(areaX, base);
    var step := (R - L) / (|m| - 1) as real;
    if |parts[0]| == |parts[1]| then
      [Put([m[0]], L, Start, 1.0, pen), Put([m[3]], R, End, 1.0, pen),
       Put([m[1]], L + step * 1.0, Middle, 1.0, pen), Put([m[2]], L + step * 2.0, Middle, 1.0, pen)]
    else
      [Put(parts[0] + [FullWidthSpace] + parts[1], L, Start, 1.0, pen)]
  }

  /** The rule for four characters not split by exactly one space, and for
      five: a left-anchored run from `L` whose gaps share out the width the
      glyphs leave free in the slot. */
  function Even(m: string, widths: seq<real>, L: real, base: real, pen: Pen): (r: seq<Instr>)
    requires |widths| == |m| >= 2
    ensures |r| == |m|
  {
    Run(m, widths, L, (base - Sum(widths)) / (|m| - 1) as real, 1.0, pen)
  }

  /** Everything one line puts on the drawing, in the order of the calls. */
  function Layout(text: string, widths: seq<real>, pen: Pen, areaX: real, base: real, minScale: real): (r: seq<Instr>)
    requires |widths| == NumChars(text)
    requires forall k :: 0 <= k < |widths| ==> widths[k] >= 0.0
    ensures |r| == if FourUneven(text) then 1 else NumChars(text)
    ensures forall k :: 0 <= k < |r| ==> r[k].pen == pen && r[k].content != "_"
  {
    var n := NumChars(text);
    if n == 0 then []
    else if n <= 3 then ShortLayout(text, pen, areaX, base)
    else if n == 4 && NumSpaces(text) == 1 then FourLayout(text, pen, areaX, base)
    else if n <= 5 then Even(Merged(text), widths, LeftPos(areaX), base, pen)
    else Compressed(Merged(text), widths, LeftPos(areaX), base, minScale, pen)
  }

  /** The rule for six or more characters: one common horizontal scale, and
      a run that starts half the leftover width to the right of `L`. */
  function Compressed(m: string, widths: seq<real>, L: real, base: real, minScale: real, pen: Pen): (r: seq<Instr>)
    requires |widths| == |m| >= 2
    requires forall k :: 0 <= k < |widths| ==> widths[k] >= 0.0
    ensures |r| == |m|
    ensures forall k :: 0 <= k < |r| ==>
              r[k].pen == pen && r[k].anchor == Start && r[k].xscale == CompressionScale(widths, base, minScale)
              && r[k].xscale >= minScale
  {
    ScaledRun(m, widths, L, base, CompressionScale(widths, base, minScale), pen)
  }

  /** A run of glyphs drawn at horizontal scale `scale`, one spacer apart,
      starting half the width they leave free in the slot to the right of
      `L`. */
  function ScaledRun(m: string, widths: seq<real>, L: real, base: real, scale: real, pen: Pen): (r: seq<Instr>)
    requires |widths| == |m|
    ensures |r| == |m|
    ensures forall k :: 0 <= k < |r| ==> r[k].pen == pen && r[k].anchor == Start && r[k].xscale == scale
  {
    Run(m, widths, L + 0.5 * (base - Sum(widths) * scale - Spacer * (|m| - 1) as real), Spacer, scale, pen)
  }

  /** All of `draw_fixed_width_text` for one line: nothing for a line without
      non-space characters, otherwise the colour dispatch (which may raise)
      and then the line's layout in the normalised weight and colour. */
  function Draw(text: string, measure: char -> real, subfamily: string, color: string, parsed: RgbaMatch,
                y: int, areaX: real, base: real, minScale: real): (r: Result<seq<Instr>>)
    requires forall c :: measure(c) >= 0.0
    ensures r.Err? <==> NumChars(text) > 0 && FontColor(color, parsed).Err?
    ensures NumChars(text) == 0 ==> r == Ok([])
    ensures r.Ok? ==> |r.value| == if FourUneven(text) then 1 else NumChars(text)
    ensures r.Ok? ==> forall k :: 0 <= k < |r.value| ==>
              r.value[k].pen.y == y && r.value[k].pen.weight == FontWeight(subfamily)
    ensures r.Ok? && NumChars(text) > 0 ==> FontColor(color, parsed).Ok?
    ensures r.Ok? ==> forall k :: 0 <= k < |r.value| ==> r.value[k].pen.fill == FontColor(color, parsed).value
  {
    if NumChars(text) == 0 then Ok([])
    else
      match FontColor(color, parsed)
      case Err(e) => Err(e)
      case Ok(fill) =>
        Ok(Layout(text, CharWidths(text, measure), Pen(y, FontWeight(subfamily), fill), areaX, base, minScale))
  }

  /** The run loops: each glyph is put at the cursor, then the cursor moves
      on by the gap and the glyph's scaled width. */
  method PlaceRun(m: string, widths: seq<real>, start: real, gap: real, scale: real, pen: Pen)
    returns (out: seq<Instr>)
    requires |widths| == |m|
    ensures out == Run(m, widths, start, gap, scale, pen)
  {
    out := [];
    var pos := start;
    for i := 0 to |m|
      invariant out == RunUpTo(m, widths, start, gap, scale, pen, i)
      invariant pos == RunX(widths, start, gap, scale, i)
    {
      out := out + [Put([m[i]], pos, Start, scale, pen)];
      RunXStep(widths, start, gap, scale, i);
      pos := pos + (gap + widths[i] * scale);
    }
  }

  /** `draw_fixed_width_text`: the early return for a line without
      non-space characters, the weight lookup, the widths, the colour
      dispatch, then the placement rules. */
  method DrawFixedWidthText(text: string, measure: char -> real, subfamily: string, color: string,
                            parsed: RgbaMatch, y: int, areaX: real, base: real, minScale: real)
    returns (r: Result<seq<Instr>>)
    requires forall c :: measure(c) >= 0.0
    ensures r == Draw(text, measure, subfamily, color, parsed, y, areaX, base, minScale)
  {
    if NumChars(text) == 0 {
      return Ok([]);
    }
    var weight := FontWeight(subfamily);
    var widths := CharWidths(text, measure);
    var fill := FontColor(color, parsed);
    if fill.Err? {
      return Err(fill.error);
    }
    var out := PlaceLine(text, widths, Pen(y, weight, fill.value), areaX, base, minScale);
    return Ok(out);
  }

  /** The placement rules of `draw_fixed_width_text`, keyed on the number
      of non-space characters. */
  method PlaceLine(text: string, widths: seq<real>, pen: Pen, areaX: real, base: real, minScale: real)
    returns (out: seq<Instr>)
    requires |widths| == NumChars(text)
    requires forall k :: 0 <= k < |widths| ==> widths[k] >= 0.0
    ensures out == Layout(text, widths, pen, areaX, base, minScale)
  {
    var parts := Split(text, ' ');
    var numSpaces := |parts| - 1;
    var merged := Concat(parts);
    var numChars := |merged|;
    if numChars == 0 {
      return [];
    }
    if numChars <= 3 {
      out := PlaceShort(text, parts, merged, pen, areaX, base);
      return;
    }
    var L := LeftPos(areaX);
    var totalCharWidth := Sum(widths);
    var marginRest := base - totalCharWidth;
    if numChars == 4 && numSpaces == 1 {
      out := PlaceFour(text, parts, merged, pen, areaX, base);
      return;
    }
    if numChars <= 5 {
      out := PlaceRun(merged, widths, L, marginRest / (numChars - 1) as real, 1.0, pen);
      return;
    }
    out := PlaceCompressed(merged, widths, L, base, minScale, pen);
  }

  /** The one-, two- and three-character rules, one `put_text` call at a
      time. */
  method PlaceShort(text: string, parts: seq<string>, merged: string, pen: Pen, areaX: real, base: real)
    returns (out: seq<Instr>)
    requires parts == Parts(text) && merged == Merged(text)
    requires 1 <= |merged| <= 3
    ensures out == ShortLayout(text, pen, areaX, base)
  {
    var numSpaces := |parts| - 1;
    var numChars := |merged|;
    var L, R, C := LeftPos(areaX), RightPos(areaX, base), CenterPos(areaX, base);
    out := [];
    if numChars == 1 {
      out := out + [Put(text, C, Middle, 1.0, pen)];
      return;
    }
    if numChars == 2 {
      out := out + [Put([merged[0]], L, Start, 1.0, pen)];
      out := out + [Put([merged[1]], R, End, 1.0, pen)];
      return;
    }
    out := out + [Put([merged[0]], L, Start, 1.0, pen)];
    out := out + [Put([merged[2]], R, End, 1.0, pen)];
    if numSpaces == 1 {
      if |parts[0]| < |parts[1]| {
        out := out + [Put([merged[1]], C, Start, 1.0, pen)];
      } else {
        out := out + [Put([merged[1]], C, End, 1.0, pen)];
      }
    } else {
      out := out + [Put([merged[1]], C, Middle, 1.0, pen)];
    }
  }

  /** The four-character rules for a line split by exactly one space; the
      2+2 case puts the two inner glyphs in a loop. */
  method PlaceFour(text: string, parts: seq<string>, merged: string, pen: Pen, areaX: real, base: real)
    returns (out: seq<Instr>)
    requires parts == Parts(text) && merged == Merged(text)
    requires |merged| == 4 && |parts| == 2
    ensures out == FourLayout(text, pen, areaX, base)
  {
    var numChars := |merged|;
    var L, R := LeftPos(areaX), RightPos(areaX, base);
    var step := (R - L) / (numChars - 1) as real;
    ghost var spec := FourLayout(text, pen, areaX, base);
    out := [];
    if |parts[0]| == |parts[1]| {
      assert spec == [Put([merged[0]], L, Start, 1.0, pen), Put([merged[3]], R, End, 1.0, pen),
                      Put([merged[1]], L + step * 1.0, Middle, 1.0, pen),
                      Put([merged[2]], L + step * 2.0, Middle, 1.0, pen)];
      out := out + [Put([merged[0]], L, Start, 1.0, pen)];
      out := out + [Put([merged[numChars - 1]], R, End, 1.0, pen)];
      for i := 1 to numChars - 1
        invariant out == spec[..i + 1]
      {
        var pos := L + step * i as real;
        if i == 1 {
          assert spec[2] == Put([merged[1]], pos, Middle, 1.0, pen);
        } else {
          assert i == 2 && pos == L + step * 2.0;
          assert spec[3] == Put([merged[2]], pos, Middle, 1.0, pen);
        }
        assert spec[..i + 2] == spec[..i + 1] + [spec[i + 1]];
        out := out + [Put([merged[i]], pos, Middle, 1.0, pen)];
      }
    } else {
      out := out + [Put(parts[0] + [FullWidthSpace] + parts[1], L, Start, 1.0, pen)];
    }
  }

  /** The rule for six or more characters: the common scale, then the
      centred run at that scale. */
  method PlaceCompressed(merged: string, widths: seq<real>, L: real, base: real, minScale: real, pen: Pen)
    returns (out: seq<Instr>)
    requires |widths| == |merged| >= 2
    requires forall k :: 0 <= k < |widths| ==> widths[k] >= 0.0
    ensures out == Compressed(merged, widths, L, base, minScale, pen)
  {
    var textXScale := CompressionScale(widths, base, minScale);
    out := PlaceScaledRun(merged, widths, L, base, textXScale, pen);
  }

  /** The start of the centred run, then the run loop with the common
      scale. */
  method PlaceScaledRun(merged: string, widths: seq<real>, L: real, base: real, scale: real, pen: Pen)
    returns (out: seq<Instr>)
    requires |widths| == |merged|
    ensures out == ScaledRun(merged, widths, L, base, scale, pen)
  {
    var start := L + 0.5 * (base - Sum(widths) * scale - Spacer * (|merged| - 1) as real);
    out := PlaceRun(merged, widths, start, Spacer, scale, pen);
  }

  /** The text a single character is drawn as: an underscore becomes a blank. */
  function Glyph(c: char): string
  {
    if c == '_' then " " else [c]
  }

  /** The cursor update of the run loops: the next position is the gap plus
      the scaled width of the current glyph further on. */
  lemma RunXStep(widths: seq<real>, start: real, gap: real, scale: real, i: nat)
    requires i < |widths|
    ensures RunX(widths, start, gap, scale, i + 1) == RunX(widths, start, gap, scale, i) + gap + widths[i] * scale
  {
    var before, next := SumTo(widths, i), SumTo(widths, i + 1);
    AdvanceStep(RunX(widths, start, gap, scale, i), start, i as real, gap, scale, before, widths[i], next);
  }

  /** Where a glyph of a run ends: the gaps before it and the scaled widths
      up to and including its own after `start`. */
  lemma RunXEnd(widths: seq<real>, start: real, gap: real, scale: real, i: nat)
    requires i < |widths|
    ensures RunX(widths, start, gap, scale, i) + widths[i] * scale
         == start + i as real * gap + scale * SumTo(widths, i + 1)
  {
    var before, next := SumTo(widths, i), SumTo(widths, i + 1);
    Advance(RunX(widths, start, gap, scale, i), start, i as real, gap, scale, before, widths[i], next);
  }

  /** The end of a glyph in closed form: `k` gaps and the scaled width
      `before` after `start`, plus the glyph's own scaled width `w`. */
  lemma Advance(x: real, start: real, k: real, gap: real, scale: real, before: real, w: real, after: real)
    requires x == start + k * gap + scale * before
    requires after == before + w
    ensures x + w * scale == start + k * gap + scale * after
  {
  }

  /** One cursor step in closed form: one more gap and one more scaled
      width. */
  lemma AdvanceStep(x: real, start: real, k: real, gap: real, scale: real, before: real, w: real, after: real)
    requires x == start + k * gap + scale * before
    requires after == before + w
    ensures x + gap + w * scale == start + (k + 1.0) * gap + scale * after
  {
  }

  /** Every glyph of a run shows its own character, and the first one sits
      at `start`. */
  lemma RunGlyphs(m: string, widths: seq<real>, start: real, gap: real, scale: real, pen: Pen)
    requires |widths| == |m| >= 1
    ensures Run(m, widths, start, gap, scale, pen)[0].x == start
    ensures forall i :: 0 <= i < |m| ==> Run(m, widths, start, gap, scale, pen)[i].content == Glyph(m[i])
  {
    var r := Run(m, widths, start, gap, scale, pen);
    forall i | 0 <= i < |m|
      ensures r[i].content == Glyph(m[i])
    {
      RunAt(m, widths, start, gap, scale, pen, |m|, i);
    }
    RunAt(m, widths, start, gap, scale, pen, |m|, 0);
  }

  /** Consecutive glyphs of a run: each next one the gap plus the scaled
      width of the previous glyph further right, which is the cursor update
      of the run loops. */
  lemma RunSteps(m: string, widths: seq<real>, start: real, gap: real, scale: real, pen: Pen)
    requires |widths| == |m| >= 1
    ensures forall i :: 0 <= i < |m| - 1 ==>
              Run(m, widths, start, gap, scale, pen)[i + 1].x
              == Run(m, widths, start, gap, scale, pen)[i].x + gap + widths[i] * scale
  {
    var r := Run(m, widths, start, gap, scale, pen);
    forall i | 0 <= i < |m| - 1
      ensures r[i + 1].x == r[i].x + gap + widths[i] * scale
    {
      RunAt(m, widths, start, gap, scale, pen, |m|, i);
      RunAt(m, widths, start, gap, scale, pen, |m|, i + 1);
      RunXStep(widths, start, gap, scale, i);
    }
  }

  /** The last glyph of a run ends all gaps and scaled widths after `start`. */
  lemma RunEnd(m: string, widths: seq<real>, start: real, gap: real, scale: real, pen: Pen)
    requires |widths| == |m| >= 1
    ensures Run(m, widths, start, gap, scale, pen)[|m| - 1].x + widths[|m| - 1] * scale
         == start + (|m| - 1) as real * gap + scale * Sum(widths)
  {
    RunAt(m, widths, start, gap, scale, pen, |m|, |m| - 1);
    RunXEnd(widths, start, gap, scale, |m| - 1);
  }

  /** One, two and three characters: one glyph on the slot centre; or the
      first glyph starting at the left edge and the last ending at the right
      edge. */
  lemma ShortRules(text: string, pen: Pen, areaX: real, base: real)
    requires 1 <= NumChars(text) <= 3
    ensures var r, m := ShortLayout(text, pen, areaX, base), Merged(text);
      && (|m| == 1 ==> r == [Instr(if text == "_" then " " else text, areaX + base / 2.0, Middle, 1.0, pen)])
      && (|m| >= 2 ==>
            && r[0] == Instr(Glyph(m[0]), areaX, Start, 1.0, pen)
            && r[1] == Instr(Glyph(m[|m| - 1]), areaX + base, End, 1.0, pen))
  {
    var m := Merged(text);
    if |m| >= 2 {
      assert ShortLayout(text, pen, areaX, base)[1] == Put([m[|m| - 1]], areaX + base, End, 1.0, pen);
    }
  }

  /** The middle glyph of three characters sits on the slot centre,
      anchored towards the longer part of a line split by one space. */
  lemma MiddleRule(text: string, pen: Pen, areaX: real, base: real)
    requires NumChars(text) == 3
    ensures var r, m, parts := ShortLayout(text, pen, areaX, base), Merged(text), Parts(text);
      && r[2].content == Glyph(m[1]) && r[2].x == areaX + base / 2.0
      && (r[2].anchor == Start <==> NumSpaces(text) == 1 && |parts[0]| < |parts[1]|)
      && (r[2].anchor == End <==> NumSpaces(text) == 1 && |parts[0]| >= |parts[1]|)
      && (r[2].anchor == Middle <==> NumSpaces(text) != 1)
  {
    var m := Merged(text);
    assert ShortLayout(text, pen, areaX, base)[2] == Put([m[1]], CenterPos(areaX, base), MiddleAnchor(Parts(text)), 1.0, pen);
  }

  /** Four characters split 2+2 by one space: the four anchor points cut the
      slot into thirds, the inner pair centred, and the glyphs are put in the
      order first, last, second, third. */
  lemma TwoPlusTwo(text: string, pen: Pen, areaX: real, base: real)
    requires NumChars(text) == 4 && NumSpaces(text) == 1 && !FourUneven(text)
    ensures var r, m := FourLayout(text, pen, areaX, base), Merged(text);
      && |r| == 4
      && r[0] == Instr(Glyph(m[0]), areaX, Start, 1.0, pen)
      && r[1] == Instr(Glyph(m[3]), areaX + base, End, 1.0, pen)
      && r[2] == Instr(Glyph(m[1]), areaX + base / 3.0, Middle, 1.0, pen)
      && r[3] == Instr(Glyph(m[2]), areaX + 2.0 * base / 3.0, Middle, 1.0, pen)
      && r[2].x + r[3].x == 2.0 * CenterPos(areaX, base)
  {
  }

  /** Four characters split unevenly by one space: a single five-character
      text, the parts with an ideographic space between them, from the left
      edge. */
  lemma UnevenFour(text: string, pen: Pen, areaX: real, base: real)
    requires FourUneven(text)
    ensures var r := FourLayout(text, pen, areaX, base);
      && r == [Instr(Parts(text)[0] + [FullWidthSpace] + Parts(text)[1], areaX, Start, 1.0, pen)]
      && |r[0].content| == 5
      && Without(r[0].content, FullWidthSpace) == Without(Merged(text), FullWidthSpace)
  {
    var parts := Parts(text);
    var c := parts[0] + [FullWidthSpace] + parts[1];
    assert Merged(text) == parts[0] + parts[1] by {
      assert parts[2..] == [];
      assert Concat(parts[1..]) == parts[1] + Concat(parts[2..]);
    }
    WithoutAppend(parts[0], [FullWidthSpace], FullWidthSpace);
    WithoutAppend(parts[0] + [FullWidthSpace], parts[1], FullWidthSpace);
    WithoutAppend(parts[0], parts[1], FullWidthSpace);
    assert Without([FullWidthSpace], FullWidthSpace) == "";
  }

  /** Four characters not split by exactly one space, and five characters:
      left-anchored at full width, the first glyph at the left edge, the
      same blank between every two neighbours, and the last glyph ending
      exactly at the right edge. */
  lemma EvenRules(m: string, widths: seq<real>, L: real, base: real, pen: Pen)
    requires |widths| == |m| >= 2
    ensures var r, n := Even(m, widths, L, base, pen), |m|;
      && (forall k :: 0 <= k < n ==>
            r[k].anchor == Start && r[k].xscale == 1.0 && r[k].content == Glyph(m[k]))
      && r[0].x == L
      && (forall i :: 0 <= i < n - 1 ==>
            r[i + 1].x == r[i].x + (base - Sum(widths)) / (n - 1) as real + widths[i])
      && r[n - 1].x + widths[n - 1] == L + base
  {
    var n := |m|;
    var gap := (base - Sum(widths)) / (n - 1) as real;
    RunGlyphs(m, widths, L, gap, 1.0, pen);
    RunSteps(m, widths, L, gap, 1.0, pen);
    RunEnd(m, widths, L, gap, 1.0, pen);
    SharedEvenly(base - Sum(widths), (n - 1) as real);
  }

  /** The common scale of a compressed line stretches glyphs and unit gaps
      to at least the slot width, and to exactly the slot width unless the
      floor `minScale` holds it higher. */
  lemma CompressionFits(widths: seq<real>, base: real, minScale: real)
    requires |widths| >= 2
    requires forall k :: 0 <= k < |widths| ==> widths[k] >= 0.0
    ensures CompressionScale(widths, base, minScale) * (Sum(widths) + (|widths| - 1) as real) >= base
    ensures CompressionScale(widths, base, minScale) == minScale
         || CompressionScale(widths, base, minScale) * (Sum(widths) + (|widths| - 1) as real) == base
  {
    FitScale(CompressionScale(widths, base, minScale), base, Sum(widths) + Spacer * (|widths| - 1) as real);
  }

  /** Six or more characters: every glyph at the common scale, glyphs one
      unit apart, and the run from the first glyph to the end of the last
      exactly as wide as the scaled glyphs and gaps, centred on the slot
      centre. */
  lemma CompressedRules(m: string, widths: seq<real>, L: real, base: real, scale: real, pen: Pen)
    requires |widths| == |m| >= 2
    ensures var r, n := ScaledRun(m, widths, L, base, scale, pen), |m|;
      && (forall k :: 0 <= k < n ==>
            r[k].anchor == Start && r[k].xscale == scale && r[k].content == Glyph(m[k]))
      && (forall i :: 0 <= i < n - 1 ==> r[i + 1].x == r[i].x + Spacer + widths[i] * scale)
      && r[0].x + (Sum(widths) * scale + (n - 1) as real) / 2.0 == L + base / 2.0
      && r[n - 1].x + widths[n - 1] * scale - r[0].x == Sum(widths) * scale + (n - 1) as real
  {
    var n := |m|;
    var start := L + 0.5 * (base - Sum(widths) * scale - Spacer * (n - 1) as real);
    var r := Run(m, widths, start, Spacer, scale, pen);
    RunGlyphs(m, widths, start, Spacer, scale, pen);
    RunSteps(m, widths, start, Spacer, scale, pen);
    RunEnd(m, widths, start, Spacer, scale, pen);
    Centred(r[0].x, r[n - 1].x + widths[n - 1] * scale, L, base, Sum(widths) * scale, (n - 1) as real);
  }

  /** A run of width `scaled + k` that starts half the slot's leftover
      width in from `L` is centred on the slot and ends `scaled + k` after
      its start. */
  lemma Centred(first: real, end: real, L: real, base: real, scaled: real, k: real)
    requires first == L + 0.5 * (base - scaled - 1.0 * k)
    requires end == first + k * 1.0 + scaled
    ensures first + (scaled + k) / 2.0 == L + base / 2.0
    ensures end - first == scaled + k
  {
  }

  /** A margin shared out into `k` equal gaps gives the margin back when
      the gaps are added up again. */
  lemma SharedEvenly(margin: real, k: real)
    requires k > 0.0
    ensures k * (margin / k) == margin
  {
  }

  /** A scale at least the fitting scale `base / d` stretches `d` to at
      least `base`, and exactly to `base` when it is the fitting scale. */
  lemma FitScale(scale: real, base: real, d: real)
    requires d > 0.0 && scale >= base / d
    ensures scale * d >= base
    ensures scale == base / d ==> scale * d == base
  {
    assert (base / d) * d == base;
  }
}
