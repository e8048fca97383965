/** Sums of widths and heights, and the slot every line is laid out in: a
    span five reference glyphs plus four gaps wide, centred on the canvas. */
module Metrics {

  /** The sum of the first `n` real widths, accumulated from the front. */
  function SumTo(xs: seq<real>, n: nat): real
    requires n <= |xs|
    decreases n
  {
    if n == 0 then 0.0 else SumTo(xs, n - 1) + xs[n - 1]
  }

  /** `sum(xs)` over real widths. */
  function Sum(xs: seq<real>): real
  {
    SumTo(xs, |xs|)
  }

  /** The sum of the first `n` integer heights, accumulated from the front. */
  function SumIntTo(xs: seq<int>, n: nat): int
    requires n <= |xs|
    decreases n
  {
    if n == 0 then 0 else SumIntTo(xs, n - 1) + xs[n - 1]
  }

  /** `sum(xs)` over integer heights. */
  function SumInt(xs: seq<int>): int
  {
    SumIntTo(xs, |xs|)
  }

  /** Widths that are never negative have prefix sums that are never negative. */
  lemma {:induction false} SumNonNegative(xs: seq<real>, n: nat)
    requires n <= |xs|
    requires forall k :: 0 <= k < |xs| ==> xs[k] >= 0.0
    ensures SumTo(xs, n) >= 0.0
    decreases n
  {
    if n > 0 {
      SumNonNegative(xs, n - 1);
    }
  }

  /** The five full-width reference characters whose widths fix the slot. */
  const Reference: string := "あいうえお"

  /** `base_area_width`: the advance widths of the five reference characters
      plus four inter-character gaps of `fontSpace`. */
  function BaseAreaWidth(measure: char -> real, fontSpace: int): (base: real)
    ensures base - 4.0 * fontSpace as real
         == measure('あ') + measure('い') + measure('う') + measure('え') + measure('お')
  {
    var a, i, u, e, o := measure(Reference[0]), measure(Reference[1]), measure(Reference[2]),
                         measure(Reference[3]), measure(Reference[4]);
    var widths := [a, i, u, e, o];
    assert SumTo(widths, 2) == a + i && SumTo(widths, 3) == a + i + u;
    assert SumTo(widths, 4) == a + i + u + e && Sum(widths) == a + i + u + e + o;
    assert Reference == ['あ', 'い', 'う', 'え', 'お'];
    Sum(widths) + fontSpace as real * 4.0
  }

  /** `area_x`: the slot's left edge, chosen so that the margins left and
      right of the slot are equal. */
  function AreaX(svgWidth: int, base: real): (areaX: real)
    ensures areaX == svgWidth as real - (areaX + base)
  {
    (svgWidth as real - base) / 2.0
  }

  /** `L_POS`, the slot's left edge. */
  function LeftPos(areaX: real): real
  {
    areaX
  }

  /** `R_POS`: one slot width to the right of the left edge. */
  function RightPos(areaX: real, base: real): (r: real)
    ensures r - LeftPos(areaX) == base
  {
    areaX + base
  }

  /** `C_POS`: half way between the two edges of the slot. */
  function CenterPos(areaX: real, base: real): (c: real)
    ensures c - LeftPos(areaX) == RightPos(areaX, base) - c
  {
    areaX + base * 0.5
  }

  /** With the slot placed at `AreaX`, its centre is the canvas centre, and
      its edges sit symmetrically about it. */
  lemma CenteredSlot(svgWidth: int, base: real)
    ensures CenterPos(AreaX(svgWidth, base), base) == svgWidth as real / 2.0
    ensures LeftPos(AreaX(svgWidth, base)) + RightPos(AreaX(svgWidth, base), base) == svgWidth as real
  {
  }
}
