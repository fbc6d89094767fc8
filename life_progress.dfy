/**
 * The capped life-progress percentage that the footer and the share
 * button both compute from the age in years and the raw estimate.
 */
module LifeProgress {
  import opened JsMath

  /** `Math.min(Math.round(age / lifeExpectancy * 100), 100)`. */
  function CappedPercent(age: int, lifeExpectancy: int): (percent: int)
    requires lifeExpectancy != 0
    ensures percent <= 100
  {
    Min(Round(age as real / lifeExpectancy as real * 100.0), 100)
  }

  /** The percentage is never negative for a non-negative age. */
  lemma CappedPercentNonNegative(age: int, lifeExpectancy: int)
    requires age >= 0 && lifeExpectancy > 0
    ensures 0 <= CappedPercent(age, lifeExpectancy) <= 100
  {
  }

  /**
   * For an expectancy below 200 years the percentage reaches 100 exactly
   * when the age reaches the expectancy: one year short is at most 99.5
   * before rounding.
   */
  lemma FullExactlyAtExpectancy(age: int, lifeExpectancy: int)
    requires 0 < lifeExpectancy < 200
    ensures CappedPercent(age, lifeExpectancy) == 100 <==> age >= lifeExpectancy
  {
    var e := lifeExpectancy as real;
    var ratio := age as real / e;
    if age >= lifeExpectancy {
      QuotientAtLeast(age as real, e, 1.0);
      assert ratio * 100.0 >= 100.0;
    } else {
      QuotientBelow(age as real, e, 0.995);
      assert ratio * 100.0 < 99.5;
    }
  }
}
