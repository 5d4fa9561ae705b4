/**
 * The evaluation bar: an evaluation clamped to ±1000, scaled to a 40–60 %
 * share of the bar, and drawn as a dark bar anchored by board orientation.
 * JavaScript numbers are modelled as reals; the arithmetic involved is exact.
 */
module EvaluationBar {
  function Min(a: real, b: real): real { if a <= b then a else b }

  function Max(a: real, b: real): real { if a >= b then a else b }

  /** The evaluation clamped to [-1000, 1000] and divided by 1000. */
  function NormalizedEval(evaluation: real): (r: real)
    ensures -1.0 <= r <= 1.0
    ensures evaluation >= 1000.0 ==> r == 1.0
    ensures evaluation <= -1000.0 ==> r == -1.0
    ensures -1000.0 <= evaluation <= 1000.0 ==> r * 1000.0 == evaluation
  {
    Max(Min(evaluation, 1000.0), -1000.0) / 1000.0
  }

  /** The share of the bar that is White's: 50 % at equality, 10 points per unit of normalised advantage. */
  function Percentage(evaluation: real): (r: real)
    ensures 40.0 <= r <= 60.0
    ensures evaluation == 0.0 ==> r == 50.0
    ensures r > 50.0 <==> evaluation > 0.0
    ensures r < 50.0 <==> evaluation < 0.0
  {
    50.0 + NormalizedEval(evaluation) * 10.0
  }

  /** The dark (Black) share of the bar. */
  function Height(evaluation: real): (r: real)
    ensures r + Percentage(evaluation) == 100.0
    ensures 40.0 <= r <= 60.0
  {
    100.0 - Percentage(evaluation)
  }

  /** A higher evaluation never gives White a smaller share. */
  lemma {:induction false} PercentageMonotone(a: real, b: real)
    requires a <= b
    ensures Percentage(a) <= Percentage(b)
  {
    assert NormalizedEval(a) <= NormalizedEval(b);
  }

  /** Beyond ±1000 the bar no longer moves. */
  lemma Saturates(a: real, b: real)
    requires (a >= 1000.0 && b >= 1000.0) || (a <= -1000.0 && b <= -1000.0)
    ensures Percentage(a) == Percentage(b)
  {
  }

  /** `percentage` after the flip for a board seen from Black's side. */
  function DisplayedPercentage(evaluation: real, orientation: string): real {
    if orientation == "black" then Height(evaluation) else Percentage(evaluation)
  }

  datatype Anchor = Top | Bottom

  /** The dark bar that is drawn: where it hangs from and how much of the bar it fills. */
  datatype DarkBar = DarkBar(anchor: Anchor, size: real)

  /**
   * The rendered bar: for "white" a bar of `height` from the top, otherwise a
   * bar of the (possibly flipped) `percentage` from the bottom.
   */
  function Rendered(evaluation: real, orientation: string): (r: DarkBar)
    ensures orientation == "white" || orientation == "black" ==> r.size + Percentage(evaluation) == 100.0
    ensures r.anchor == Top <==> orientation == "white"
    ensures orientation != "white" && orientation != "black" ==> r.size == Percentage(evaluation)
  {
    if orientation == "white" then DarkBar(Top, Height(evaluation))
    else DarkBar(Bottom, DisplayedPercentage(evaluation, orientation))
  }
}
