/**
 * The footer under the grid: the current age, the capped progress
 * percentage with its bar, and the years left or "Extended!". It uses the
 * estimator's raw output, without the grid's band check.
 */
module ProgressFooter {
  import opened Wrappers
  import opened Profiles
  import opened LifeProgress
  import LifeCalculator
  import LifeGrid
  import Decimal

  datatype Footer =
    | Placeholder
    | Stats(age: int, lifeExpectancy: int, yearsLeft: int, progressPercentage: int)

  /** `ProgressFooter`, given the age in whole years (a date computation, not modelled). */
  function RenderFooter(userData: Option<Profile>, age: int): Footer {
    match userData
    case None => Placeholder
    case Some(p) =>
      var lifeExpectancy := LifeCalculator.LifeExpectancy(p.nationality, p.healthyFood, p.running, p.alcohol, p.smoking);
      LifeCalculator.ExpectancyRange(p.nationality, p.healthyFood, p.running, p.alcohol, p.smoking);
      Stats(age, lifeExpectancy, lifeExpectancy - age, CappedPercent(age, lifeExpectancy))
  }

  /** The width of the progress bar, in percent. */
  function BarWidth(f: Footer): int {
    match f
    case Placeholder => 0
    case Stats(_, _, _, progressPercentage) => progressPercentage
  }

  /** The "Time Remaining" text. */
  function RemainingText(f: Footer): string {
    match f
    case Placeholder => "-- years"
    case Stats(_, _, yearsLeft, _) =>
      if yearsLeft > 0 then Decimal.IntToString(yearsLeft) + " years" else "Extended!"
  }

  /** Without a profile the footer shows dashes and an empty bar. */
  lemma PlaceholderWithoutUser(age: int)
    ensures RenderFooter(None, age) == Placeholder
    ensures BarWidth(RenderFooter(None, age)) == 0
    ensures RemainingText(RenderFooter(None, age)) == "-- years"
  {
  }

  /**
   * The footer shows the raw estimate and the years left after the age.
   * For every profile this is the same expectancy the grid uses after its
   * band check.
   */
  lemma FooterUsesRawEstimate(p: Profile, age: int, monthsLived: int)
    ensures RenderFooter(Some(p), age).lifeExpectancy == LifeGrid.Estimate(p)
    ensures RenderFooter(Some(p), age).yearsLeft == LifeGrid.Estimate(p) - age
    ensures RenderFooter(Some(p), age).lifeExpectancy == LifeGrid.Snapshot(p, monthsLived).lifeExpectancy
  {
    LifeGrid.SnapshotKeepsEstimate(p, monthsLived);
  }

  /** "Extended!" is shown exactly when no years are left; otherwise the count of years. */
  lemma ExtendedExactlyWhenNoYearsLeft(p: Profile, age: int)
    ensures var f := RenderFooter(Some(p), age);
      && (RemainingText(f) == "Extended!" <==> f.yearsLeft <= 0)
      && (f.yearsLeft > 0 ==> RemainingText(f) == Decimal.IntToString(f.yearsLeft) + " years")
  {
    var f := RenderFooter(Some(p), age);
    if f.yearsLeft > 0 {
      var t := RemainingText(f);
      assert t[|t| - 1] == 's';
    }
  }

  /** The bar never passes 100 and, for a non-negative age, never drops below 0; it is full exactly when "Extended!" shows. */
  lemma BarBounds(p: Profile, age: int)
    ensures var f := RenderFooter(Some(p), age);
      && BarWidth(f) == f.progressPercentage <= 100
      && (age >= 0 ==> 0 <= BarWidth(f))
      && (BarWidth(f) == 100 <==> RemainingText(f) == "Extended!")
  {
    var f := RenderFooter(Some(p), age);
    LifeCalculator.ExpectancyRange(p.nationality, p.healthyFood, p.running, p.alcohol, p.smoking);
    FullExactlyAtExpectancy(age, f.lifeExpectancy);
    ExtendedExactlyWhenNoYearsLeft(p, age);
    if age >= 0 {
      CappedPercentNonNegative(age, f.lifeExpectancy);
    }
  }
}
