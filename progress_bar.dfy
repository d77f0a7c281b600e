/**
 * The horizontal progress bar (finny/src/components/ui/ProgressBar.tsx):
 * the filled share of `value` against `max`, capped at 100, and the colour
 * that turns red once the value passes the maximum.
 */
module ProgressBar {
  import opened Wrappers
  import opened Numbers

  /** The colour used when the caller gives none. */
  const DefaultColor := "#10b981"
  /** The colour of an exceeded bar. */
  const OverBudgetColor := "#ef4444"

  /**
   * `percentage`: the value's share of the maximum in percent, capped at
   * 100; zero when the maximum is not positive. A negative value gives a
   * negative share.
   */
  function Percentage(value: real, max: real): (r: real)
    ensures r <= 100.0
    ensures max <= 0.0 ==> r == 0.0
    ensures max > 0.0 && value >= 0.0 ==> r >= 0.0
    ensures max > 0.0 && value <= max ==> r * max == value * 100.0
    ensures max > 0.0 && value >= max ==> r == 100.0
  {
    if max > 0.0 then
      var share := (value / max) * 100.0;
      QuotientAtLeast(value, max, 1.0);
      assert (value / max) * max == value;
      if share < 100.0 then share else 100.0
    else 0.0
  }

  /** `isOverBudget`: the value is above the maximum. */
  predicate IsOverBudget(value: real, max: real) {
    value > max
  }

  /** `barColor`: red when over budget, otherwise the given colour (or the default). */
  function BarColor(value: real, max: real, color: Option<string>): (r: string)
    ensures IsOverBudget(value, max) ==> r == OverBudgetColor
    ensures !IsOverBudget(value, max) ==> r == color.GetOr(DefaultColor)
  {
    if IsOverBudget(value, max) then OverBudgetColor else color.GetOr(DefaultColor)
  }

  /** The rendered width, `Math.min(percentage, 100)`, in percent. */
  function Width(value: real, max: real): (r: real)
    ensures r <= 100.0
    ensures r == Percentage(value, max)
  {
    var p := Percentage(value, max);
    if p < 100.0 then p else 100.0
  }

  /** The label under the bar, `Math.round(percentage)`. */
  function Label(value: real, max: real): (r: int)
    ensures r <= 100
    ensures max <= 0.0 ==> r == 0
    ensures max > 0.0 && value >= 0.0 ==> 0 <= r
  {
    RoundHalfUp(Percentage(value, max))
  }

  /**
   * An exceeded bar with a positive maximum is drawn full and red; a bar
   * with no positive maximum is empty, whatever its colour.
   */
  lemma {:induction false} OverBudgetIsFullAndRed(value: real, max: real, color: Option<string>)
    ensures max > 0.0 && IsOverBudget(value, max) ==>
      Width(value, max) == 100.0 && BarColor(value, max, color) == OverBudgetColor
    ensures max <= 0.0 ==> Width(value, max) == 0.0
    ensures max > 0.0 && !IsOverBudget(value, max) ==> BarColor(value, max, color) == color.GetOr(DefaultColor)
  {
  }
}
