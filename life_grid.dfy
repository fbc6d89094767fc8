/**
 * The life grid: the snapshot derived from the profile (life expectancy
 * and total months, both checked against a plausible band), the lifestyle
 * summary shown in the tooltips, and the layout solver that picks the
 * column count, row count and dot size for the month grid.
 */
module LifeGrid {
  import opened Wrappers
  import opened JsMath
  import opened Profiles
  import LifeCalculator
  import Decimal

  // ================================================================ basicData

  /** The derived values; dates are not modelled, `monthsLived` is given. */
  datatype BasicData = BasicData(
    lifeExpectancy: int,
    monthsLived: int,
    totalMonths: int,
    lifeProgressPercent: int)

  /** A life expectancy outside [60, 120] (or 0, the falsy value) is replaced by 80. */
  function NormalizeLifeExpectancy(raw: int): (years: int)
    ensures 60 <= years <= 120
    ensures 60 <= raw <= 120 ==> years == raw
    ensures !(60 <= raw <= 120) ==> years == 80
  {
    if raw == 0 || raw < 60 || raw > 120 then 80 else raw
  }

  /** A month count outside [600, 1440] (or 0) is replaced by 960. */
  function NormalizeTotalMonths(months: int): (total: int)
    ensures 600 <= total <= 1440
    ensures 600 <= months <= 1440 ==> total == months
    ensures !(600 <= months <= 1440) ==> total == 960
  {
    if months == 0 || months < 600 || months > 1440 then 960 else months
  }

  /** `Math.round(monthsLived / totalMonths * 100)`, not capped. */
  function ProgressPercent(monthsLived: int, totalMonths: int): int
    requires totalMonths > 0
  {
    Round(monthsLived as real / totalMonths as real * 100.0)
  }

  function Estimate(p: Profile): int {
    LifeCalculator.LifeExpectancy(p.nationality, p.healthyFood, p.running, p.alcohol, p.smoking)
  }

  /** The snapshot `basicData` computes for a profile. */
  function Snapshot(p: Profile, monthsLived: int): BasicData {
    var years := NormalizeLifeExpectancy(Estimate(p));
    var total := NormalizeTotalMonths(years * 12);
    BasicData(years, monthsLived, total, ProgressPercent(monthsLived, total))
  }

  /** `basicData`: nothing without a profile, otherwise the estimate, checked twice, and the progress. */
  method ComputeBasicData(userData: Option<Profile>, monthsLived: int) returns (data: Option<BasicData>)
    ensures userData.None? ==> data == None
    ensures userData.Some? ==> data == Some(Snapshot(userData.value, monthsLived))
  {
    if userData.None? {
      return None;
    }
    var p := userData.value;
    var lifeExpectancy := LifeCalculator.GetLifeExpectancy(p.nationality, p.healthyFood, p.running, p.alcohol, p.smoking);
    var normalizedLifeExpectancy := lifeExpectancy;
    if normalizedLifeExpectancy == 0 || normalizedLifeExpectancy < 60 || normalizedLifeExpectancy > 120 {
      normalizedLifeExpectancy := 80;
    }
    var totalMonths := normalizedLifeExpectancy * 12;
    if totalMonths == 0 || totalMonths < 600 || totalMonths > 1440 {
      totalMonths := 960;
    }
    var lifeProgressPercent := Round(monthsLived as real / totalMonths as real * 100.0);
    data := Some(BasicData(normalizedLifeExpectancy, monthsLived, totalMonths, lifeProgressPercent));
  }

  /** Whatever the estimate, the snapshot stays within both bands. */
  lemma SnapshotBounds(p: Profile, monthsLived: int)
    ensures 60 <= Snapshot(p, monthsLived).lifeExpectancy <= 120
    ensures 600 <= Snapshot(p, monthsLived).totalMonths <= 1440
  {
  }

  /**
   * The second check can never fire: a normalised expectancy in [60, 120]
   * gives 720..1440 months, inside [600, 1440].
   */
  lemma TotalMonthsFallbackUnreachable(raw: int)
    ensures NormalizeTotalMonths(NormalizeLifeExpectancy(raw) * 12) == NormalizeLifeExpectancy(raw) * 12
  {
  }

  /**
   * Nor can the first one for a real profile: every estimate is in
   * [71, 89], so the snapshot keeps it and has 12 times as many months.
   */
  lemma SnapshotKeepsEstimate(p: Profile, monthsLived: int)
    ensures Snapshot(p, monthsLived).lifeExpectancy == Estimate(p)
    ensures Snapshot(p, monthsLived).totalMonths == 12 * Estimate(p)
    ensures 852 <= Snapshot(p, monthsLived).totalMonths <= 1068
  {
    LifeCalculator.ExpectancyRange(p.nationality, p.healthyFood, p.running, p.alcohol, p.smoking);
  }

  /** The progress is within half a point of the exact ratio, and between 0 and 100 while the life is within its span. */
  lemma ProgressPercentBounds(monthsLived: int, totalMonths: int)
    requires totalMonths > 0
    ensures var exact := monthsLived as real / totalMonths as real * 100.0;
      exact - 0.5 < ProgressPercent(monthsLived, totalMonths) as real <= exact + 0.5
    ensures monthsLived >= 0 ==> ProgressPercent(monthsLived, totalMonths) >= 0
    ensures 0 <= monthsLived <= totalMonths ==> ProgressPercent(monthsLived, totalMonths) <= 100
  {
    var ratio := monthsLived as real / totalMonths as real;
    if 0 <= monthsLived <= totalMonths {
      assert ratio * totalMonths as real == monthsLived as real;
      assert ratio <= 1.0;
    }
  }

  /** Past the expected span the percentage goes above 100: this layer does not cap it. */
  lemma ProgressNotCapped()
    ensures ProgressPercent(1200, 960) == 125
  {
  }

  /** Born 1990, at 2024-01-01 (408 months) with 80 years: 42.5 rounds up to 43. */
  lemma ProgressScenario()
    ensures ProgressPercent(408, 960) == 43
  {
  }

  // ================================================================ lifestyleImpact

  datatype Factor = HealthyDiet | RegularExercise | AlcoholConsumption | Smoking

  /** One line of the lifestyle summary, as the tooltip reads it. */
  datatype Impact = Impact(factor: string, impact: string, positive: bool)

  function Entry(f: Factor): Impact {
    match f
    case HealthyDiet => Impact("Healthy Diet", "+2 years", true)
    case RegularExercise => Impact("Regular Exercise", "+3 years", true)
    case AlcoholConsumption => Impact("Alcohol Consumption", "-2 years", false)
    case Smoking => Impact("Smoking", "-5 years", false)
  }

  predicate HasFactor(p: Profile, f: Factor) {
    match f
    case HealthyDiet => p.healthyFood
    case RegularExercise => p.running
    case AlcoholConsumption => p.alcohol
    case Smoking => p.smoking
  }

  /** The position of a factor in the summary. */
  function Rank(f: Factor): nat {
    match f
    case HealthyDiet => 0
    case RegularExercise => 1
    case AlcoholConsumption => 2
    case Smoking => 3
  }

  /** The factors a profile has, in summary order. */
  function ActiveFactors(p: Profile): seq<Factor> {
    (if p.healthyFood then [HealthyDiet] else []) +
    ((if p.running then [RegularExercise] else []) +
    ((if p.alcohol then [AlcoholConsumption] else []) +
    (if p.smoking then [Smoking] else [])))
  }

  /** The summary entries of a list of factors. */
  function Entries(fs: seq<Factor>): seq<Impact> {
    if fs == [] then [] else [Entry(fs[0])] + Entries(fs[1..])
  }

  /** One entry per factor, in the same order, each the factor's fixed entry. */
  lemma {:induction false} EntriesElements(fs: seq<Factor>)
    ensures |Entries(fs)| == |fs|
    ensures forall i :: 0 <= i < |fs| ==> Entries(fs)[i] == Entry(fs[i])
  {
    if fs != [] {
      EntriesElements(fs[1..]);
    }
  }

  /** `lifestyleImpact`: an empty list without a profile, otherwise one pushed entry per set flag. */
  method LifestyleImpact(userData: Option<Profile>) returns (impacts: seq<Impact>)
    ensures userData.None? ==> impacts == []
    ensures userData.Some? ==> impacts == Entries(ActiveFactors(userData.value))
  {
    if userData.None? {
      return [];
    }
    var p := userData.value;
    impacts := [];
    if p.healthyFood { impacts := impacts + [Entry(HealthyDiet)]; }
    if p.running { impacts := impacts + [Entry(RegularExercise)]; }
    if p.alcohol { impacts := impacts + [Entry(AlcoholConsumption)]; }
    if p.smoking { impacts := impacts + [Entry(Smoking)]; }
    EntriesOfActive(p);
  }

  /** The entries of a profile's factors, as the four conditional pushes build them. */
  lemma EntriesOfActive(p: Profile)
    ensures Entries(ActiveFactors(p)) ==
      (if p.healthyFood then [Entry(HealthyDiet)] else []) +
      (if p.running then [Entry(RegularExercise)] else []) +
      (if p.alcohol then [Entry(AlcoholConsumption)] else []) +
      (if p.smoking then [Entry(Smoking)] else [])
  {
    var a := if p.healthyFood then [HealthyDiet] else [];
    var b := if p.running then [RegularExercise] else [];
    var c := if p.alcohol then [AlcoholConsumption] else [];
    var d := if p.smoking then [Smoking] else [];
    assert Entries(ActiveFactors(p)) == Entries(a) + (Entries(b) + (Entries(c) + Entries(d))) by {
      EntriesConcat(c, d);
      EntriesConcat(b, c + d);
      EntriesConcat(a, b + (c + d));
    }
    EntriesOptional(p.healthyFood, HealthyDiet);
    EntriesOptional(p.running, RegularExercise);
    EntriesOptional(p.alcohol, AlcoholConsumption);
    EntriesOptional(p.smoking, Smoking);
    SeqAssoc4(Entries(a), Entries(b), Entries(c), Entries(d));
  }

  lemma EntriesOptional(present: bool, f: Factor)
    ensures Entries(if present then [f] else []) == if present then [Entry(f)] else []
  {
    if present {
      assert [f][1..] == [];
    }
  }

  lemma SeqAssoc4<T>(a: seq<T>, b: seq<T>, c: seq<T>, d: seq<T>)
    ensures a + (b + (c + d)) == a + b + c + d
  {
  }

  lemma {:induction false} EntriesConcat(xs: seq<Factor>, ys: seq<Factor>)
    ensures Entries(xs + ys) == Entries(xs) + Entries(ys)
  {
    if xs == [] {
      assert xs + ys == ys;
    } else {
      assert (xs + ys)[1..] == xs[1..] + ys;
      EntriesConcat(xs[1..], ys);
    }
  }

  /** The summary lists exactly the set flags, each once, in the fixed order diet, exercise, alcohol, smoking. */
  lemma ActiveFactorsExact(p: Profile)
    ensures forall f :: f in ActiveFactors(p) <==> HasFactor(p, f)
    ensures forall i, j :: 0 <= i < j < |ActiveFactors(p)| ==> Rank(ActiveFactors(p)[i]) < Rank(ActiveFactors(p)[j])
    ensures |ActiveFactors(p)| == LifeCalculator.Indicator(p.healthyFood) + LifeCalculator.Indicator(p.running)
                                 + LifeCalculator.Indicator(p.alcohol) + LifeCalculator.Indicator(p.smoking)
  {
  }

  /** How much the estimator adds for one factor (the same for every other input). */
  function EstimatorDelta(f: Factor): int {
    var only := Profile(None, "", 0, "", f == HealthyDiet, f == RegularExercise, f == AlcoholConsumption, f == Smoking);
    var none := Profile(None, "", 0, "", false, false, false, false);
    Estimate(only) - Estimate(none)
  }

  function SignedText(d: int): string {
    if d > 0 then "+" + Decimal.IntToString(d) else Decimal.IntToString(d)
  }

  /**
   * The summary's texts agree with the estimator: each reads the
   * estimator's adjustment for that factor, and exactly the entries that
   * lengthen life are marked positive.
   */
  lemma EntryAgreesWithEstimator(f: Factor)
    ensures Entry(f).impact == SignedText(EstimatorDelta(f)) + " years"
    ensures Entry(f).positive <==> EstimatorDelta(f) > 0
  {
    DeltaValues();
    match f
    case HealthyDiet => assert SignedText(2) == "+2";
    case RegularExercise => assert SignedText(3) == "+3";
    case AlcoholConsumption => assert SignedText(-2) == "-2";
    case Smoking => assert SignedText(-5) == "-5";
  }

  function SumDeltas(fs: seq<Factor>): int {
    if fs == [] then 0 else EstimatorDelta(fs[0]) + SumDeltas(fs[1..])
  }

  lemma DeltaValues()
    ensures EstimatorDelta(HealthyDiet) == 2 && EstimatorDelta(RegularExercise) == 3
    ensures EstimatorDelta(AlcoholConsumption) == -2 && EstimatorDelta(Smoking) == -5
  {
  }

  /** The estimate is the country's base plus the listed factors' adjustments. */
  lemma EstimateIsBasePlusSummary(p: Profile)
    ensures Estimate(p) == LifeCalculator.BaseExpectancy(p.nationality) + SumDeltas(ActiveFactors(p))
  {
    var a := if p.healthyFood then [HealthyDiet] else [];
    var b := if p.running then [RegularExercise] else [];
    var c := if p.alcohol then [AlcoholConsumption] else [];
    var d := if p.smoking then [Smoking] else [];
    SumDeltasConcat(a, b + (c + d));
    SumDeltasConcat(b, c + d);
    SumDeltasConcat(c, d);
    DeltaValues();
  }

  lemma {:induction false} SumDeltasConcat(xs: seq<Factor>, ys: seq<Factor>)
    ensures SumDeltas(xs + ys) == SumDeltas(xs) + SumDeltas(ys)
  {
    if xs != [] {
      assert (xs + ys)[1..] == xs[1..] + ys;
      SumDeltasConcat(xs[1..], ys);
    } else {
      assert xs + ys == ys;
    }
  }

  // ================================================================ gridConfig

  const FallbackWidth: real := 800.0
  const FallbackHeight: real := 600.0
  const Padding: int := 4
  const Gap: int := 2
  const MinDotSize: real := 3.0

  /** The column/row/dot choice the search keeps; the fallback and every candidate have this shape. */
  datatype Layout = Layout(numColumns: int, numRows: int, dotSize: int, gap: int)

  datatype GridConfig = GridConfig(
    numColumns: int,
    numRows: int,
    dotSize: int,
    gap: int,
    totalGridWidth: int,
    totalGridHeight: int,
    padding: int)

  /** The measured size when one is known (positive), otherwise the fallback, less the padding on both sides. */
  function AvailableSize(measured: real, fallback: real): (available: real)
    ensures measured > 0.0 ==> available == measured - 8.0
    ensures measured <= 0.0 ==> available == fallback - 8.0
  {
    var size := if measured > 0.0 then measured else fallback;
    size - (Padding * 2) as real
  }

  /** The first column count tried: `Math.ceil(Math.sqrt(totalMonths * 0.5))`. */
  function LowestColumns(totalMonths: nat): (cols: nat)
    ensures 2 * cols * cols >= totalMonths
    ensures cols == 0 || 2 * (cols - 1) * (cols - 1) < totalMonths
  {
    CeilSqrt(totalMonths, 2)
  }

  /** The last column count tried: `Math.ceil(Math.sqrt(totalMonths * 2))`. */
  function HighestColumns(totalMonths: nat): (cols: nat)
    ensures cols * cols >= 2 * totalMonths
    ensures cols == 0 || (cols - 1) * (cols - 1) < 2 * totalMonths
  {
    CeilSqrt(2 * totalMonths, 1)
  }

  /** The search range is never empty and starts above 0. */
  lemma ColumnRange(totalMonths: nat)
    requires totalMonths >= 1
    ensures 1 <= LowestColumns(totalMonths) <= HighestColumns(totalMonths)
  {
    SquareBoundsOrdered(totalMonths, LowestColumns(totalMonths), HighestColumns(totalMonths));
  }

  /** A count whose predecessor squared is under n/2 is at most any count squared to 2n or more. */
  lemma SquareBoundsOrdered(n: nat, lo: nat, hi: nat)
    requires n >= 1
    requires lo == 0 || 2 * (lo - 1) * (lo - 1) < n
    requires hi * hi >= 2 * n
    ensures lo <= hi
  {
    if lo > hi {
      SquareMonotone(hi, lo - 1);
    }
  }

  /** The rows `cols` columns need for `totalMonths` cells: `Math.ceil(totalMonths / cols)`. */
  function Rows(totalMonths: int, cols: int): (rows: int)
    requires cols >= 1
    ensures cols * rows >= totalMonths
    ensures cols * (rows - 1) < totalMonths
  {
    CeilDiv(totalMonths, cols)
  }

  /** The largest dot for which `cols` columns and their gaps fit both available extents. */
  function CandidateDotSize(totalMonths: int, availableWidth: real, availableHeight: real, cols: int): real
    requires totalMonths >= 1 && cols >= 1
  {
    var rows := Rows(totalMonths, cols);
    var maxDotWidth := (availableWidth - ((cols - 1) * Gap) as real) / cols as real;
    var maxDotHeight := (availableHeight - ((rows - 1) * Gap) as real) / rows as real;
    // `Math.min(maxDotWidth, maxDotHeight)`
    if maxDotWidth <= maxDotHeight then maxDotWidth else maxDotHeight
  }

  /** A candidate the search may keep: its dot is at least the 3-pixel floor. */
  predicate Qualifies(totalMonths: int, availableWidth: real, availableHeight: real, cols: int)
    requires totalMonths >= 1 && cols >= 1
  {
    CandidateDotSize(totalMonths, availableWidth, availableHeight, cols) >= MinDotSize
  }

  /** The layout a qualifying candidate gives: its rows, its dot rounded down, gap 2. */
  function Candidate(totalMonths: int, availableWidth: real, availableHeight: real, cols: int): Layout
    requires totalMonths >= 1 && cols >= 1
  {
    Layout(cols, Rows(totalMonths, cols), CandidateDotSize(totalMonths, availableWidth, availableHeight, cols).Floor, Gap)
  }

  /** One column holding every month, with 1-pixel dots and gaps. */
  function FallbackLayout(totalMonths: int): Layout {
    Layout(1, totalMonths, 1, 1)
  }

  /** Some column count in the search range qualifies. */
  predicate AnyQualifies(totalMonths: int, availableWidth: real, availableHeight: real)
    requires totalMonths >= 1
  {
    ColumnRange(totalMonths);
    exists c :: LowestColumns(totalMonths) <= c <= HighestColumns(totalMonths)
             && Qualifies(totalMonths, availableWidth, availableHeight, c)
  }

  /**
   * `cols` is the column count the search keeps: it qualifies, no
   * qualifying count in the range has a larger dot, and every qualifying
   * count before it has a strictly smaller one (ties keep the first).
   */
  predicate IsBestColumns(totalMonths: int, availableWidth: real, availableHeight: real, cols: int)
    requires totalMonths >= 1
  {
    ColumnRange(totalMonths);
    var lo, hi := LowestColumns(totalMonths), HighestColumns(totalMonths);
    && lo <= cols <= hi
    && Qualifies(totalMonths, availableWidth, availableHeight, cols)
    && (forall c :: lo <= c <= hi && Qualifies(totalMonths, availableWidth, availableHeight, c) ==>
          CandidateDotSize(totalMonths, availableWidth, availableHeight, c)
          <= CandidateDotSize(totalMonths, availableWidth, availableHeight, cols))
    && (forall c :: lo <= c < cols && Qualifies(totalMonths, availableWidth, availableHeight, c) ==>
          CandidateDotSize(totalMonths, availableWidth, availableHeight, c)
          < CandidateDotSize(totalMonths, availableWidth, availableHeight, cols))
  }

  /** The search's choice is determined by its inputs: at most one column count is best. */
  lemma BestColumnsUnique(totalMonths: int, availableWidth: real, availableHeight: real, c1: int, c2: int)
    requires totalMonths >= 1
    requires IsBestColumns(totalMonths, availableWidth, availableHeight, c1)
    requires IsBestColumns(totalMonths, availableWidth, availableHeight, c2)
    ensures c1 == c2
  {
  }

  /**
   * What the search knows after scanning the column counts from the
   * lowest up to `cols`: with `bestDotSize` still 0 nothing scanned
   * qualified and `best` is the fallback; otherwise `best` is the first
   * scanned count with the largest qualifying dot, and `bestDotSize` is
   * that dot before rounding.
   */
  predicate Scanned(totalMonths: int, availableWidth: real, availableHeight: real, cols: int, best: Layout, bestDotSize: real)
    requires totalMonths >= 1
  {
    ColumnRange(totalMonths);
    var lo := LowestColumns(totalMonths);
    && lo <= cols
    && (bestDotSize == 0.0 ==>
          && best == FallbackLayout(totalMonths)
          && forall c :: lo <= c < cols ==> !Qualifies(totalMonths, availableWidth, availableHeight, c))
    && (bestDotSize != 0.0 ==>
          && lo <= best.numColumns < cols
          && bestDotSize == CandidateDotSize(totalMonths, availableWidth, availableHeight, best.numColumns)
          && bestDotSize >= MinDotSize
          && best == Candidate(totalMonths, availableWidth, availableHeight, best.numColumns)
          && (forall c :: lo <= c < cols && Qualifies(totalMonths, availableWidth, availableHeight, c) ==>
                CandidateDotSize(totalMonths, availableWidth, availableHeight, c) <= bestDotSize)
          && (forall c :: lo <= c < best.numColumns && Qualifies(totalMonths, availableWidth, availableHeight, c) ==>
                CandidateDotSize(totalMonths, availableWidth, availableHeight, c) < bestDotSize))
  }

  /** Scanning one more column count: keep it exactly when its dot is strictly larger and at least 3. */
  lemma ScanStep(totalMonths: int, availableWidth: real, availableHeight: real, cols: int, best: Layout, bestDotSize: real)
    requires totalMonths >= 1 && cols >= 1
    requires Scanned(totalMonths, availableWidth, availableHeight, cols, best, bestDotSize)
    ensures var dotSize := CandidateDotSize(totalMonths, availableWidth, availableHeight, cols);
      if dotSize > bestDotSize && dotSize >= MinDotSize then
        Scanned(totalMonths, availableWidth, availableHeight, cols + 1,
                Candidate(totalMonths, availableWidth, availableHeight, cols), dotSize)
      else
        Scanned(totalMonths, availableWidth, availableHeight, cols + 1, best, bestDotSize)
  {
  }

  /** After the whole range the scan's result is the best column count, or the fallback when none qualifies. */
  lemma ScanDone(totalMonths: int, availableWidth: real, availableHeight: real, best: Layout, bestDotSize: real)
    requires totalMonths >= 1
    requires Scanned(totalMonths, availableWidth, availableHeight, HighestColumns(totalMonths) + 1, best, bestDotSize)
    ensures AnyQualifies(totalMonths, availableWidth, availableHeight) ==>
      && IsBestColumns(totalMonths, availableWidth, availableHeight, best.numColumns)
      && best == Candidate(totalMonths, availableWidth, availableHeight, best.numColumns)
    ensures !AnyQualifies(totalMonths, availableWidth, availableHeight) ==> best == FallbackLayout(totalMonths)
  {
    if bestDotSize != 0.0 {
      assert Qualifies(totalMonths, availableWidth, availableHeight, best.numColumns);
      assert IsBestColumns(totalMonths, availableWidth, availableHeight, best.numColumns);
    } else {
      assert !AnyQualifies(totalMonths, availableWidth, availableHeight);
    }
  }

  /** `gridConfig`'s search: scan the range, keep a candidate whose dot is strictly larger and at least 3. */
  method ChooseLayout(totalMonths: int, availableWidth: real, availableHeight: real) returns (best: Layout)
    requires totalMonths >= 1
    ensures AnyQualifies(totalMonths, availableWidth, availableHeight) ==>
      && IsBestColumns(totalMonths, availableWidth, availableHeight, best.numColumns)
      && best == Candidate(totalMonths, availableWidth, availableHeight, best.numColumns)
    ensures !AnyQualifies(totalMonths, availableWidth, availableHeight) ==> best == FallbackLayout(totalMonths)
  {
    ColumnRange(totalMonths);
    var lo, hi := LowestColumns(totalMonths), HighestColumns(totalMonths);
    best := FallbackLayout(totalMonths);
    var bestDotSize := 0.0;
    var cols := lo;
    while cols <= hi
      invariant lo <= cols <= hi + 1
      invariant Scanned(totalMonths, availableWidth, availableHeight, cols, best, bestDotSize)
    {
      var rows := Rows(totalMonths, cols);
      var dotSize := CandidateDotSize(totalMonths, availableWidth, availableHeight, cols);
      ScanStep(totalMonths, availableWidth, availableHeight, cols, best, bestDotSize);
      if dotSize > bestDotSize && dotSize >= MinDotSize {
        bestDotSize := dotSize;
        best := Layout(cols, rows, dotSize.Floor, Gap);
      }
      cols := cols + 1;
    }
    ScanDone(totalMonths, availableWidth, availableHeight, best, bestDotSize);
  }

  /** Every layout the search can return has room for all the months. */
  lemma LayoutCovers(totalMonths: int, availableWidth: real, availableHeight: real, cols: int)
    requires totalMonths >= 1 && cols >= 1
    ensures Candidate(totalMonths, availableWidth, availableHeight, cols).numColumns
          * Candidate(totalMonths, availableWidth, availableHeight, cols).numRows >= totalMonths
    ensures FallbackLayout(totalMonths).numColumns * FallbackLayout(totalMonths).numRows >= totalMonths
  {
  }

  /** A qualifying candidate's floored dots, with their gaps, fit the available width and height. */
  lemma CandidateFits(totalMonths: int, availableWidth: real, availableHeight: real, cols: int)
    requires totalMonths >= 1 && cols >= 1
    requires Qualifies(totalMonths, availableWidth, availableHeight, cols)
    ensures var l := Candidate(totalMonths, availableWidth, availableHeight, cols);
      && l.dotSize >= 3
      && (l.numColumns * l.dotSize + (l.numColumns - 1) * l.gap) as real <= availableWidth
      && (l.numRows * l.dotSize + (l.numRows - 1) * l.gap) as real <= availableHeight
  {
    var l := Candidate(totalMonths, availableWidth, availableHeight, cols);
    var d := CandidateDotSize(totalMonths, availableWidth, availableHeight, cols);
    var rows := Rows(totalMonths, cols);
    assert 3 <= l.dotSize && l.dotSize as real <= d;
    ExtentFits(cols, l.dotSize, d, availableWidth);
    ExtentFits(rows, l.dotSize, d, availableHeight);
  }

  /** `count` dots of size `dot <= bound` and their 2-pixel gaps fit in `available` when `bound` is the per-dot share. */
  lemma ExtentFits(count: int, dot: int, bound: real, available: real)
    requires count >= 1
    requires dot as real <= bound <= (available - ((count - 1) * Gap) as real) / count as real
    ensures (count * dot + (count - 1) * Gap) as real <= available
  {
    var share := (available - ((count - 1) * Gap) as real) / count as real;
    assert share * count as real == available - ((count - 1) * Gap) as real;
    assert (count * dot) as real == count as real * dot as real;
    assert count as real * dot as real <= count as real * share;
  }

  /**
   * `g` is what `gridConfig` yields for the container: the best layout of
   * the measured (or fallback) area when a column count qualifies, fitting
   * that area, and the one-column fallback otherwise; in both cases every
   * month has a cell, and the extents and padding follow the layout.
   */
  predicate Solved(totalMonths: int, containerWidth: real, containerHeight: real, g: GridConfig)
    requires totalMonths >= 1
  {
    var availableWidth := AvailableSize(containerWidth, FallbackWidth);
    var availableHeight := AvailableSize(containerHeight, FallbackHeight);
    && (AnyQualifies(totalMonths, availableWidth, availableHeight) ==>
          && IsBestColumns(totalMonths, availableWidth, availableHeight, g.numColumns)
          && Layout(g.numColumns, g.numRows, g.dotSize, g.gap)
             == Candidate(totalMonths, availableWidth, availableHeight, g.numColumns)
          && g.dotSize >= 3
          && g.totalGridWidth as real <= availableWidth
          && g.totalGridHeight as real <= availableHeight)
    && (!AnyQualifies(totalMonths, availableWidth, availableHeight) ==>
          Layout(g.numColumns, g.numRows, g.dotSize, g.gap) == FallbackLayout(totalMonths))
    && g.numColumns >= 1 && g.numColumns * g.numRows >= totalMonths
    && g.totalGridWidth == g.numColumns * g.dotSize + (g.numColumns - 1) * g.gap
    && g.totalGridHeight == g.numRows * g.dotSize + (g.numRows - 1) * g.gap
    && g.padding == Padding
  }

  /** `gridConfig`: the solver applied to the measured (or fallback) size, with the extents of the result. */
  method SolveGrid(totalMonths: int, containerWidth: real, containerHeight: real) returns (g: GridConfig)
    requires totalMonths >= 1
    ensures Solved(totalMonths, containerWidth, containerHeight, g)
  {
    var availableWidth := AvailableSize(containerWidth, FallbackWidth);
    var availableHeight := AvailableSize(containerHeight, FallbackHeight);
    var best := ChooseLayout(totalMonths, availableWidth, availableHeight);
    if AnyQualifies(totalMonths, availableWidth, availableHeight) {
      CandidateFits(totalMonths, availableWidth, availableHeight, best.numColumns);
      LayoutCovers(totalMonths, availableWidth, availableHeight, best.numColumns);
    }
    var totalGridWidth := best.numColumns * best.dotSize + (best.numColumns - 1) * best.gap;
    var totalGridHeight := best.numRows * best.dotSize + (best.numRows - 1) * best.gap;
    g := GridConfig(best.numColumns, best.numRows, best.dotSize, best.gap, totalGridWidth, totalGridHeight, Padding);
  }

  /** For 960 months the search tries 22 to 44 columns. */
  lemma RangeFor960()
    ensures LowestColumns(960) == 22 && HighestColumns(960) == 44
  {
    CeilSqrtIs(960, 2, 22);
    CeilSqrtIs(1920, 1, 44);
  }

  /** In an 800 x 600 container no column count beats 36 (a 20-pixel dot), and none before it ties. */
  lemma DotsFor960(c: int)
    requires 22 <= c <= 44
    ensures CandidateDotSize(960, 792.0, 592.0, c) <= 20.0
    ensures c < 36 ==> CandidateDotSize(960, 792.0, 592.0, c) < 20.0
  {
    if c <= 35 {
      FewColumnsFor960(c);
    } else if c >= 37 {
      ManyColumnsFor960(c);
    } else {
      SquareFor960();
    }
  }

  /** Up to 35 columns need at least 28 rows, and 28 rows of 592 pixels leave less than 20 per dot. */
  lemma FewColumnsFor960(c: int)
    requires 22 <= c <= 35
    ensures CandidateDotSize(960, 792.0, 592.0, c) < 20.0
  {
    var r := Rows(960, c);
    assert r >= 28 by {
      if r <= 27 {
        assert false;
      }
    }
    QuotientBelow(592.0 - ((r - 1) * Gap) as real, r as real, 20.0);
  }

  /** From 37 columns on, 792 pixels leave less than 20 per dot. */
  lemma ManyColumnsFor960(c: int)
    requires 37 <= c <= 44
    ensures CandidateDotSize(960, 792.0, 592.0, c) < 20.0
  {
    QuotientBelow(792.0 - ((c - 1) * Gap) as real, c as real, 20.0);
  }

  /** 36 columns take 27 rows, and the height allows exactly 20 per dot. */
  lemma SquareFor960()
    ensures Rows(960, 36) == 27
    ensures CandidateDotSize(960, 792.0, 592.0, 36) == 20.0
  {
    var w := (792.0 - ((36 - 1) * Gap) as real) / 36 as real;
    assert w == 722.0 / 36.0;
    assert 20.0 * 36.0 <= 722.0;
  }

  /** 960 months and no measurement: the 800 x 600 fallback gives 36 columns of 27 rows and 20-pixel dots. */
  lemma GridScenario()
    ensures AvailableSize(0.0, FallbackWidth) == 792.0 && AvailableSize(0.0, FallbackHeight) == 592.0
    ensures IsBestColumns(960, 792.0, 592.0, 36)
    ensures Candidate(960, 792.0, 592.0, 36) == Layout(36, 27, 20, 2)
  {
    RangeFor960();
    SquareFor960();
    forall c | 22 <= c <= 44
      ensures CandidateDotSize(960, 792.0, 592.0, c) <= 20.0
      ensures c < 36 ==> CandidateDotSize(960, 792.0, 592.0, c) < 20.0
    {
      DotsFor960(c);
    }
  }

  /** Whatever solves 960 months with no measurement is that layout, 790 x 592 pixels. */
  lemma SolvedFor960(g: GridConfig)
    requires Solved(960, 0.0, 0.0, g)
    ensures Layout(g.numColumns, g.numRows, g.dotSize, g.gap) == Layout(36, 27, 20, 2)
    ensures g.totalGridWidth == 790 && g.totalGridHeight == 592
  {
    GridScenario();
    RangeFor960();
    assert AnyQualifies(960, 792.0, 592.0) by {
      assert Qualifies(960, 792.0, 592.0, 36);
    }
    BestColumnsUnique(960, 792.0, 592.0, g.numColumns, 36);
  }

  // ================================================================ rendered cells

  /** The cell count the grid renders: `Math.max(600, Math.min(1440, totalMonths || 960))`. */
  function RenderedCellCount(totalMonths: int): (count: int)
    ensures 600 <= count <= 1440
    ensures 600 <= totalMonths <= 1440 ==> count == totalMonths
  {
    Max(600, Min(1440, if totalMonths == 0 then 960 else totalMonths))
  }

  /** The grid renders exactly `totalMonths` cells, one per month of the snapshot. */
  lemma RenderedCellsMatchSnapshot(p: Profile, monthsLived: int)
    ensures RenderedCellCount(Snapshot(p, monthsLived).totalMonths) == Snapshot(p, monthsLived).totalMonths
  {
  }

  /** What `LifeGrid` shows: the loading message, or the solved grid and its cells. */
  datatype GridView =
    | Preparing
    | Grid(data: BasicData, config: GridConfig, cellCount: int, impacts: seq<Impact>)

  /** `LifeGrid`'s render: without a profile, or before mounting, the loading message; otherwise the grid. */
  method RenderLifeGrid(userData: Option<Profile>, monthsLived: int, mounted: bool, containerWidth: real, containerHeight: real)
    returns (view: GridView)
    ensures view.Preparing? <==> userData.None? || !mounted
    ensures view.Grid? ==>
      && view.data == Snapshot(userData.value, monthsLived)
      && view.cellCount == view.data.totalMonths
      && Solved(view.data.totalMonths, containerWidth, containerHeight, view.config)
      && view.config.numColumns * view.config.numRows >= view.cellCount
      && view.impacts == Entries(ActiveFactors(userData.value))
  {
    var basicData := ComputeBasicData(userData, monthsLived);
    var lifestyleImpact := LifestyleImpact(userData);
    if basicData.None? || !mounted {
      return Preparing;
    }
    var data := basicData.value;
    var gridConfig := SolveGrid(data.totalMonths, containerWidth, containerHeight);
    view := Grid(data, gridConfig, RenderedCellCount(data.totalMonths), lifestyleImpact);
  }
}
