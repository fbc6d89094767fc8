# Life calendar — a Dafny model

faticalendar ("Life Visualizer") draws a person's life as a grid of
months. Each dot is a month; past months are filled and the current month
pulses. The number of months comes from a simple life-expectancy estimate:
a base per country plus four fixed lifestyle adjustments. This project
models the arithmetic and state behind that picture and proves properties
of it:

- the expectancy estimator (kept twice in the code base, both copies here);
- the normalisation of the estimate into a month count, the progress
  percentage and the lifestyle summary;
- the layout solver that picks the column count giving the largest dot
  that fits the container;
- the classification and styling of each month cell;
- the capped percentages, years left and "Extended!" line of the footer
  and the share dialog;
- the share dialog's capture and share guards, as a class;
- the user slice, which replaces the profile and mirrors it into local
  storage, and the store provider, which creates the store once and
  restores the saved profile on mount; both are classes.

Numbers follow JavaScript where it matters:

- `/` on numbers is real division;
- `Math.round(x)` is `⌊x + 0.5⌋`;
- `Math.ceil(a / b)` on positive integers is `(a + b - 1) / b`;
- `Math.ceil(Math.sqrt(n / 2))` and `Math.ceil(Math.sqrt(2 n))` are the
  least `k` with `2k² ≥ n` and with `k² ≥ 2n`, computed exactly on
  integers.

The profile is stored as text. `JSON.stringify` and `JSON.parse` are
modelled by a JSON-shaped writer (`Profiles.Serialize`, which uses the same
escapes as `JSON.stringify` and writes the fields in declaration order) and
a reader for that layout (`Profiles.Parse`, which refuses what `JSON.parse` refuses within it). The reader is proved
to invert the writer.

Modules:

| module | file |
|---|---|
| `Wrappers` | wrappers.dfy |
| `JsMath` | js_math.dfy |
| `Decimal` | decimal.dfy — integer ↔ decimal text, as in template literals |
| `Profiles` | profile.dfy — the user record and its stored text |
| `LifeCalculator` | life_calculator.dfy |
| `LifeGrid` | life_grid.dfy |
| `LifeCircle` | life_circle.dfy |
| `LifeProgress` | life_progress.dfy — the capped percentage shared by footer and dialog |
| `ProgressFooter` | progress_footer.dfy |
| `ShareButton` | share_button.dfy |
| `UserSlice` | user_slice.dfy |
| `StoreProvider` | store_provider.dfy |

## Model

| member | source | states |
|---|---|---|
| LifeCalculator.LifeExpectancy | src/utils/life-calculator.tsx:3-35 | The closed form base + 2·healthyFood + 3·running − 2·alcohol − 5·smoking. It has no contract of its own; `GetLifeExpectancy`, `ExpectancyRange` and `FlagsIndependent` state its properties. |
| LifeCalculator.BaseExpectancy | src/utils/life-calculator.tsx:13-26 | The base is 84 exactly for "jp", 78 exactly for "us", 83 exactly for "es", and 80 exactly for every other string. The function is total. |
| LifeCalculator.Indicator | src/utils/life-calculator.tsx:29-32 | A flag counts 1 exactly when it is set, otherwise 0. |
| LifeCalculator.GetLifeExpectancy | src/utils/life-calculator.tsx:3-35 | The switch-then-adjust steps return exactly base + 2·healthyFood + 3·running − 2·alcohol − 5·smoking, with no rounding or clamping. |
| LifeCalculator.ExpectancyRange | src/utils/life-calculator.tsx:13-34 | Every input gives a result in [71, 89]. |
| LifeCalculator.FlagsIndependent | src/utils/life-calculator.tsx:29-32 | Setting one flag changes the result by exactly +2, +3, −2 or −5, whatever the other inputs are. |
| LifeCalculator.DefaultBase | src/utils/life-calculator.tsx:24-25 | A country the switch does not name, such as "ar", gets base 80. |
| LifeCalculator.Scenarios | src/utils/life-calculator.tsx:14-18 | ("jp", diet, exercise) gives 89; ("us", alcohol, smoking) gives 71. |
| LifeGrid.NormalizeLifeExpectancy | src/components/life-grid.tsx:29-35 | The result is in [60, 120]. A raw value inside the band is kept; any value outside it becomes exactly 80. |
| LifeGrid.NormalizeTotalMonths | src/components/life-grid.tsx:40-46 | The result is in [600, 1440]. A month count inside the band is kept; any other becomes exactly 960. |
| LifeGrid.Snapshot | src/components/life-grid.tsx:17-77 | The data computed for a profile. It has no contract of its own; `SnapshotBounds`, `SnapshotKeepsEstimate` and `ComputeBasicData` state its properties. |
| LifeGrid.ProgressPercent | src/components/life-grid.tsx:48 | The grid's rounded percentage. It has no contract; `ProgressPercentBounds`, `ProgressNotCapped` and `ProgressScenario` state its properties. |
| LifeGrid.ComputeBasicData | src/components/life-grid.tsx:17-77 | Without a user the result is null. Otherwise it is the snapshot built from the estimate, its normalisation, the months and the progress percentage. |
| LifeGrid.SnapshotBounds | src/components/life-grid.tsx:29-46 | A snapshot's life expectancy is in [60, 120] and its total months in [600, 1440]. |
| LifeGrid.TotalMonthsFallbackUnreachable | src/components/life-grid.tsx:40-46 | Twelve times a normalised expectancy always passes the month check, so the 960 fallback never fires. |
| LifeGrid.SnapshotKeepsEstimate | src/components/life-grid.tsx:20-46 | For real profiles the normalisation changes nothing. Life expectancy equals the estimate, and total months are 12 times it, within [852, 1068]. |
| LifeGrid.ProgressPercentBounds | src/components/life-grid.tsx:48 | The percentage is the rounding of monthsLived / totalMonths · 100, within half a point. It is ≥ 0 for non-negative months and ≤ 100 while months lived do not exceed the total. |
| LifeGrid.ProgressNotCapped | src/components/life-grid.tsx:48 | The grid's percentage has no cap: 1200 of 960 months gives 125. |
| LifeGrid.ProgressScenario | src/components/life-grid.tsx:48 | 408 of 960 months gives 43. |
| LifeGrid.Entry | src/components/life-grid.tsx:84-87 | The fixed entry of each factor. It has no contract; `EntryAgreesWithEstimator` ties its text and sign to the estimator's adjustment. |
| LifeGrid.EntriesElements | src/components/life-grid.tsx:84-87 | One impact entry per factor, in the same order, each the factor's fixed entry. |
| LifeGrid.LifestyleImpact | src/components/life-grid.tsx:80-90 | The pushes build exactly the entries of the active factors; without a user the list is empty. |
| LifeGrid.EntriesOfActive | src/components/life-grid.tsx:83-89 | The entries of a profile's factors are exactly what the four conditional pushes build, starting from the empty list. |
| LifeGrid.EntriesConcat | src/components/life-grid.tsx:84-87 | The entries of two factor lists placed one after the other are the two entry lists concatenated. |
| LifeGrid.ActiveFactorsExact | src/components/life-grid.tsx:84-87 | A factor is listed exactly when its flag is set. The list is in the fixed order (diet, exercise, alcohol, smoking), and its length is the number of set flags. |
| LifeGrid.EntryAgreesWithEstimator | src/components/life-grid.tsx:84-87 | Each entry's text is the estimator's signed adjustment followed by " years". It is positive exactly when that adjustment is positive. |
| LifeGrid.DeltaValues | src/components/life-grid.tsx:84-87 | The entries' adjustments are +2, +3, −2 and −5. |
| LifeGrid.EstimateIsBasePlusSummary | src/components/life-grid.tsx:80-90 | The estimate equals the country base plus the sum of the listed entries' adjustments. |
| LifeGrid.SumDeltasConcat | src/components/life-grid.tsx:84-87 | Adjustments add up over the concatenation of two factor lists. |
| LifeGrid.AvailableSize | src/components/life-grid.tsx:99-107 | A measured size > 0 is used and a size ≤ 0 falls back. In both cases 2 · 4 pixels of padding are subtracted. |
| LifeGrid.LowestColumns | src/components/life-grid.tsx:117 | The first column count tried is the least k with 2k² ≥ n, i.e. ⌈√(n/2)⌉. |
| LifeGrid.HighestColumns | src/components/life-grid.tsx:117 | The last column count tried is the least k with k² ≥ 2n, i.e. ⌈√(2n)⌉. |
| LifeGrid.ColumnRange | src/components/life-grid.tsx:117 | For n ≥ 1 the range is non-empty and starts at 1 or above. |
| LifeGrid.Rows | src/components/life-grid.tsx:118 | rows is the least count with cols · rows ≥ n. |
| LifeGrid.CandidateDotSize | src/components/life-grid.tsx:121-123 | The real dot size of a column count: the smaller of the width and height shares. It has no contract; `CandidateFits`, `ExtentFits` and the 960-month lemmas state its properties. |
| LifeGrid.Candidate | src/components/life-grid.tsx:118-127 | The layout a column count gives: its rows, its floored dot and gap 2. It has no contract; `LayoutCovers` and `CandidateFits` state its properties. |
| LifeGrid.FallbackLayout | src/components/life-grid.tsx:114 | The initial {1, n, 1, 1}. It has no contract; `LayoutCovers` states that it covers every month. |
| LifeGrid.BestColumnsUnique | src/components/life-grid.tsx:114-129 | At most one column count meets the selection rule: in range, dot ≥ 3, largest dot, and strictly larger than every smaller qualifying count. |
| LifeGrid.ChooseLayout | src/components/life-grid.tsx:114-129 | The loop returns the first column count with the strictly largest real dot size ≥ 3, so ties keep the smaller count. Its rows are ⌈n/cols⌉, its gap 2 and its dot the floor of the real size. With no qualifier it returns {1, n, 1, 1}. |
| LifeGrid.ScanStep | src/components/life-grid.tsx:119-128 | One pass of the loop keeps the scan invariant. Every count tried so far either fails or is beaten by the running best, ties going to the earlier count. A candidate replaces the best exactly when its real dot is strictly larger and at least 3. |
| LifeGrid.ScanDone | src/components/life-grid.tsx:114-129 | Once every count up to ⌈√(2n)⌉ has been tried, the running best is the unique best count when one qualifies, and the {1, n, 1, 1} fallback otherwise. |
| LifeGrid.LayoutCovers | src/components/life-grid.tsx:114-118 | Every candidate and the fallback have cols · rows ≥ n. |
| LifeGrid.CandidateFits | src/components/life-grid.tsx:121-127 | A qualifying candidate's floored dot is ≥ 3, and its pixel extents are within the available width and height. |
| LifeGrid.ExtentFits | src/components/life-grid.tsx:134-135 | A dot no larger than its share of the space gives an extent within the space. |
| LifeGrid.SolveGrid | src/components/life-grid.tsx:93-146 | The result meets `Solved`. The fallback size and padding apply. The result is the best layout, or the fallback when nothing qualifies. A chosen layout has dot ≥ 3 and extents within the available area. cols · rows ≥ n always holds. The extents are cols·dot + (cols−1)·gap and rows·dot + (rows−1)·gap, and the padding is 4. |
| LifeGrid.RangeFor960 | src/components/life-grid.tsx:117 | With 960 months the columns tried are 22 to 44. |
| LifeGrid.DotsFor960 | src/components/life-grid.tsx:121-123 | In the 792 × 592 fallback area no column count in range gives a dot above 20, and counts below 36 give less. |
| LifeGrid.FewColumnsFor960 | src/components/life-grid.tsx:118-123 | With 960 months in 792 × 592, 22 to 35 columns need at least 28 rows, so the height allows a dot below 20. |
| LifeGrid.ManyColumnsFor960 | src/components/life-grid.tsx:121-123 | With 960 months in 792 × 592, 37 to 44 columns leave a width share below 20. |
| LifeGrid.SquareFor960 | src/components/life-grid.tsx:118-123 | 36 columns take 27 rows, and the real dot size there is exactly 20. |
| LifeGrid.GridScenario | src/components/life-grid.tsx:99-129 | With no measurement the fallback 800 × 600 leaves 792 × 592. There, for 960 months, 36 columns is the best count, giving 36 columns × 27 rows, dot 20, gap 2. |
| LifeGrid.SolvedFor960 | src/components/life-grid.tsx:93-146 | Any grid config that solves 960 months with no measurement is 36 × 27 with dot 20 and gap 2, with extents 790 × 592. |
| LifeGrid.RenderedCellCount | src/components/life-grid.tsx:221 | The cell count is in [600, 1440] and equals the month count whenever that is in the band. |
| LifeGrid.RenderedCellsMatchSnapshot | src/components/life-grid.tsx:221 | The grid renders exactly one cell per month of the snapshot. |
| LifeGrid.RenderLifeGrid | src/components/life-grid.tsx:192-221 | The loading view shows exactly when there is no user or the component is not mounted. Otherwise it shows the snapshot, a config that meets `Solved` for the snapshot's months and the container (as `SolveGrid` states it), the cell count and the impact list. |
| LifeCircle.Cell | src/components/life-circle.tsx:29-129 | One month cell: its phase flags, event flag, age split, style and tooltip bar. It has no contract; `PhaseExclusive`, `AgeSplit`, `StyleByPhase`, `PulseOnlyNow` and `ProgressWidthBounds` state its properties. |
| LifeCircle.PhaseExclusive | src/components/life-circle.tsx:29-30 | Exactly one of past (index < monthsLived), current (index = monthsLived) or future holds, matching the cell's flags. |
| LifeCircle.AgeSplit | src/components/life-circle.tsx:37-38 | monthOfYear is in [1, 12], and 12 · age + monthOfYear − 1 is the index. |
| LifeCircle.StyleByPhase | src/components/life-circle.tsx:29-95 | The fill is "#ff6b6b" for the current month, "#164e2d" for past months and "transparent" for future months. The border is "2px solid #ffd166" for a past month with an event, "none" for a past month without one, and "1px solid #164e2d" otherwise. |
| LifeCircle.PulseOnlyNow | src/components/life-circle.tsx:29-95 | The pulse animation is set exactly on the current month. The event border is set exactly on a past month with an event. hasEvent holds exactly when the events table has the index. |
| LifeCircle.ProgressWidthBounds | src/components/life-circle.tsx:129 | The tooltip bar width is (index + 1) / total · 100, and lies in (0, 100] for indices below the total. |
| LifeProgress.CappedPercent | src/components/progress-footer.tsx:58 | min(round(age / expectancy · 100), 100) is never above 100. |
| LifeProgress.CappedPercentNonNegative | src/components/progress-footer.tsx:58 | The capped percentage is ≥ 0 for a non-negative age and a positive expectancy. |
| LifeProgress.FullExactlyAtExpectancy | src/components/progress-footer.tsx:58 | The capped percentage reaches 100 exactly when the age reaches the expectancy. |
| ProgressFooter.RenderFooter | src/components/progress-footer.tsx:10-58 | The placeholder without a user, otherwise age, raw estimate, years left and capped percentage. It has no contract; `PlaceholderWithoutUser` and `FooterUsesRawEstimate` state its properties. |
| ProgressFooter.RemainingText | src/components/progress-footer.tsx:10-79 | The Time Remaining text. It has no contract; `PlaceholderWithoutUser` and `ExtendedExactlyWhenNoYearsLeft` state its properties. |
| ProgressFooter.BarWidth | src/components/progress-footer.tsx:10-88 | The progress bar's width. It has no contract; `PlaceholderWithoutUser` and `BarBounds` state its properties. |
| ProgressFooter.PlaceholderWithoutUser | src/components/progress-footer.tsx:10-43 | Without a user the placeholder shows, with a 0% bar and "-- years". |
| ProgressFooter.FooterUsesRawEstimate | src/components/progress-footer.tsx:45-56 | The footer uses the unclamped estimate, and yearsLeft = estimate − age. For every real profile this agrees with the grid's normalised value. |
| ProgressFooter.ExtendedExactlyWhenNoYearsLeft | src/components/progress-footer.tsx:79 | The footer says "Extended!" exactly when yearsLeft ≤ 0, and otherwise "<yearsLeft> years". |
| ProgressFooter.BarBounds | src/components/progress-footer.tsx:58-88 | The bar width is the capped percentage: ≤ 100, and ≥ 0 for a non-negative age. It is full exactly when the footer says "Extended!". |
| ShareButton.GetLifeExpectancy | src/components/share-button.tsx:21-53 | The dialog's own copy returns the same value as the shared estimator for every input. |
| ShareButton.ShareText | src/components/share-button.tsx:80 | The share text around the percentage. It has no contract; `PercentageEmbedded` states that the percentage reads back from it. |
| ShareButton.DownloadName | src/components/share-button.tsx:174 | The download's file name. It has no contract; `PercentageEmbedded` and `DownloadNameInjective` state its properties. |
| ShareButton.PercentageEmbedded | src/components/share-button.tsx:78-80 | The share text and the file name "life-visualization-<p>%.png" (line 174) both carry p, and p can be read back from each. |
| ShareButton.DownloadNameInjective | src/components/share-button.tsx:174 | Different percentages give different file names. |
| ShareButton.RenderShare | src/components/share-button.tsx:65-80 | The component renders nothing exactly when there is no user; otherwise its percentage is capped at 100. |
| ShareButton.ShareDialog.constructor | src/components/share-button.tsx:60-62 | A new dialog is closed, not capturing, holds no image and has recorded no effects. |
| ShareButton.ShareDialog.HasImage | src/components/share-button.tsx:138-226 | `capturedImage` is truthy: present and not empty. It has no contract; the share methods and `PreviewShown` state what depends on it. |
| ShareButton.ShareDialog.CaptureDue | src/components/share-button.tsx:132 | The auto-capture effect's guard. It has no contract; `AutoCapture`, `FinishCapture` and `OpenAndCapture` state its properties. |
| ShareButton.ShareDialog.ButtonsEnabled | src/components/share-button.tsx:226 | The buttons' enabled state, the negation of `isCapturing || !capturedImage`. It has no contract; `PreviewShown` and `OpenAndCapture` state its properties. |
| ShareButton.ShareDialog.PreviewShown | src/components/share-button.tsx:202-218 | The capturing notice shows exactly while a capture runs. The image shows exactly when the buttons are enabled (no capture running, an image present), and it is the captured image. |
| ShareButton.ShareDialog.SetOpen | src/components/share-button.tsx:183 | Opening or closing the dialog changes only isOpen. |
| ShareButton.ShareDialog.AutoCapture | src/components/share-button.tsx:131-135 | A capture starts exactly when the dialog is open, no image is held and no capture runs; starting sets isCapturing. |
| ShareButton.ShareDialog.FinishCapture | src/components/share-button.tsx:113-127 | Every outcome clears isCapturing. Only success stores the image. No element and a thrown error each give their toast. After a failure with the dialog still open the effect's guard holds again. |
| ShareButton.ShareDialog.ShareToTwitter | src/components/share-button.tsx:137-149 | Without an image: only the wait toast, nothing opened. With one: the tweet intent with the share text and URL, then the success toast. |
| ShareButton.ShareDialog.ShareToWhatsApp | src/components/share-button.tsx:151-163 | Without an image: only the wait toast, nothing opened. With one: the WhatsApp link with text + " " + URL, then the success toast. |
| ShareButton.ShareDialog.DownloadImage | src/components/share-button.tsx:165-180 | Without an image: only the no-image toast. With one: a download of the image under the percentage's file name, then the success toast. |
| ShareButton.OpenAndCapture | src/components/share-button.tsx:131-246 | Opening a fresh dialog starts one capture. Once it delivers an image, the buttons are enabled, the preview shows it, and no second capture starts. |
| UserSlice.Persist | src/lib/features/user-slice.ts:29-31 | A profile is stored under "lifeVisualizerUserData" as text that parses back to it. null leaves storage unchanged. No other key changes. |
| UserSlice.PersistIdempotent | src/lib/features/user-slice.ts:25-31 | Saving the same payload twice leaves the storage saving it once leaves. |
| UserSlice.LastSaveWins | src/lib/features/user-slice.ts:30 | A later save fully overwrites an earlier one. |
| UserSlice.LocalStorage.GetItem | src/context/store-provider.tsx:20 | A stored key gives its text; a missing key gives nothing. |
| UserSlice.LocalStorage.SetItem | src/lib/features/user-slice.ts:30 | setItem updates exactly one key. |
| UserSlice.Store.constructor | src/lib/features/user-slice.ts:17-19 | A new store starts with userData = null. |
| UserSlice.Store.SetUserData | src/lib/features/user-slice.ts:25-32 | userData becomes the payload wholesale, and storage becomes what Persist says. |
| StoreProvider.ParseSaved | src/context/store-provider.tsx:22 | The text "null" and only it reads as null. |
| StoreProvider.Restored | src/context/store-provider.tsx:20-26 | A missing or empty item gives nothing to dispatch, "null" dispatches null, and a saved profile's text dispatches that profile. |
| StoreProvider.ReloadRestores | src/lib/features/user-slice.ts:30 | After a save, reading the key back yields the saved profile. |
| StoreProvider.ReloadKeepsStorage | src/context/store-provider.tsx:21-22 | Restoring a saved profile writes back exactly the text that was there. |
| StoreProvider.Provider.constructor | src/context/store-provider.tsx:9 | A new provider holds no store yet (the ref starts as null) and keeps the storage it is given. |
| StoreProvider.Provider.Render | src/context/store-provider.tsx:9-13 | The store is created on the first render only; later renders return the same store with its state untouched. |
| StoreProvider.Provider.LoadEffect | src/context/store-provider.tsx:16-27 | With no store nothing happens. A missing, empty or unreadable item leaves state and storage unchanged. Otherwise the restored value is dispatched through setUserData. |
| StoreProvider.ReloadAfterSave | src/context/store-provider.tsx:9-27 | A new provider over storage holding a saved profile ends with exactly that profile in its store, and storage unchanged. |
| Profiles.Serialize | src/lib/features/user-slice.ts:30 | The stored text of a profile. It has no contract; `ParseSerialize` and `SerializeInjective` state its properties. |
| Profiles.Parse | src/context/store-provider.tsx:22 | Reading a stored text. It has no contract; `ParseSerialize`, `LeadingZeroRejected`, `SurrogatePairDecoded` and `LoneSurrogateRefused` state its properties. |
| Profiles.ParseSerialize | src/lib/features/user-slice.ts:30 | Reading the stored text of any profile gives back that profile. |
| Profiles.LeadingZeroRejected | src/context/store-provider.tsx:22 | A number with a leading zero, such as 01990 or -01990, is refused, as `JSON.parse` refuses it. |
| Profiles.SurrogatePairDecoded | src/context/store-provider.tsx:22 | The escape pair `\ud83d\ude00` reads as the one character U+1F600, as `JSON.parse` reads it. |
| Profiles.LoneSurrogateRefused | src/context/store-provider.tsx:22 | A high surrogate escape with no low surrogate after it is refused. |
| Profiles.SerializeInjective | src/lib/features/user-slice.ts:30 | Different profiles are stored as different texts. |
| Decimal.IntRoundTrip | src/components/share-button.tsx:80 | The decimal text of any integer reads back as that integer. |
| Decimal.NatRoundTrip | src/components/share-button.tsx:80 | The decimal text of a natural number reads back as that number. |
| Decimal.IntToStringInjective | src/components/share-button.tsx:174 | Different integers have different decimal texts. |
| JsMath.Round | src/components/life-grid.tsx:48 | Math.round gives the integer r with r ≤ x + 0.5 < r + 1. |
| JsMath.CeilDiv | src/components/life-grid.tsx:118 | Math.ceil(a / b) is the least q with b · q ≥ a. |
| JsMath.CeilSqrt | src/components/life-grid.tsx:117 | Math.ceil(Math.sqrt(num / den)) is the least k with den · k² ≥ num. |
| JsMath.CeilSqrtIs | src/components/life-grid.tsx:117 | Any k meeting both bounds is that ceiling. |

## Left out

- Dates: `differenceInMonths`, `differenceInYears`, `addMonths` and `format` belong to date-fns. Months lived and age are inputs. The tooltip's date and `timeContext` strings are not modelled.
- The DOM: measuring the container (ResizeObserver, resize listeners, the timers that set the size and `mounted`) is left out. The measured size and `mounted` are inputs. The `containerSize` React state is not modelled.
- Floating point: divisions are exact reals and `Math.sqrt` is computed exactly. IEEE rounding in `Math.sqrt`, the divisions and `Math.round` is not modelled.
- `containerAspectRatio` (src/components/life-grid.tsx:111) is computed but never used, so it is not modelled.
- The development-mode debug log and the console warnings are left out: they are output only.
- LifeGrid.NormalizeLifeExpectancy: the falsy and NaN tests are subsumed. The estimate is an integer in [71, 89], so it is never NaN or 0, and both are outside [60, 120] anyway.
- LifeGrid.SolveGrid: requires at least one month, which the source always has (600 to 1440).
- LifeProgress.CappedPercent: requires a non-zero expectancy. The estimator never returns 0, so JavaScript's Infinity and NaN are not modelled.
- JSON: `Profiles.Parse` reads the layout `Profiles.Serialize` writes: the fields in that order, no white space, integer numbers. Within that layout it takes the string escapes `JSON.parse` takes, including escapes the writer never uses (`\/`, `\u0041`, upper-case hex digits), and it decodes a `\u` surrogate pair into one character. It also reads `-0`, as 0. Like `JSON.parse`, it refuses a number with a leading zero. Valid JSON in another layout (white space, another field order, extra fields, fractions or exponents) is refused, although `JSON.parse` would accept it. So is a `\u` escape of a lone surrogate, high or low. `JSON.parse` keeps such an escape as a lone code unit, but a Dafny character is a Unicode scalar value.
- StoreProvider.Provider.LoadEffect: a saved record that `JSON.parse` accepts but `Profiles.Parse` refuses (see the JSON line above) is treated as unreadable: state and storage stay as they were. The source would restore it.
- Profiles.Serialize: writes the field order of the `UserState` type. The order `JSON.stringify` keeps depends on how the object was created, which is not part of this model.
- html2canvas, `window.open`, `encodeURIComponent`, toasts and the download link are effects recorded in the dialog's `effects` list. The tweet and WhatsApp links keep their parts unencoded. The 500 ms settling delay and the selector fallbacks collapse into one capture outcome.
- The toast descriptions ("Image ready for sharing") are not modelled.
- `console.error` in the store provider's catch is not modelled.
- Nothing in the code removes the stored record. `setUserData(null)` clears the state and leaves storage as it was, and that is what is modelled.
- The Redux Toolkit machinery (`createSlice`, `Provider`, `makeStore`, hooks) is reduced to one store object with one reducer.
- The Supabase client (src/lib/actions.ts), the form's zod schema, the animated quotes, navigation, header, loader, layout and configuration files are out of scope.
- The static tables (src/data/countries.tsx, src/data/quotes.tsx) are left out. The `lifeEvents` table, which is not part of this model, is a parameter.
