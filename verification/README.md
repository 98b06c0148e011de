# Donation dashboards: allocation, caps and project list

A Dafny model of the calculation core of two prototype dashboards for a
cultural-donation platform.

- **Donor dashboard** (`donateurs/script.js`, module `Donor`). A donation
  amount is split in whole percents across five territorial levels and the
  projects the donor picks. Each share's euro amount is
  `Math.round(pct / 100 * amount)`. Submission is enabled only when the
  percents total exactly 100 and every level meets its minimum. An
  auto-fill hands every item `floor(100 / N)`. Submitting prepends a
  snapshot to the history and resets the working state. The model also
  covers the project-search filter and the choice of receipt lines. The
  page's globals form the class `Donor.Dashboard`.
- **Project-owner dashboard** (`porteurs/script.js`, module
  `CapAllocation`). Each funding level offers its mean contribution. A
  slider adjusts that mean between -15% and a cap. The cap is a step
  function of the level's project count, lowered by the level's
  accumulated malus. The project is funded once the rounded sum of the
  proposed amounts reaches its cost. A greedy auto-fill seeds every level
  at its mean, scales the means down if they exceed the cost, and
  otherwise tops levels up to their caps in decreasing-mean order.
  Validating prepends a bonus or malus of at most 15 to each level's
  history. The page's `state` and `levelMaluses` form the class
  `CapAllocation.Allocator`.
- **Project list** (`porteurs/porteur_dashboard.js`, module
  `ProjectList`). Projects are sorted by status rank, with unknown
  statuses ranked 999, then newest first. Each status maps to its French
  label.

Supporting modules:

- `Basics` holds JavaScript's `Math.round`, whose halves round toward
  +infinity, modelled as `Floor(x + 1/2)`, and the scripts' `clamp`.
- `Text` holds decimal notation, `toLowerCase`, `trim` and `includes`,
  which the donor dashboard uses for record ids, `proj_<id>` keys and the
  search.

How the JavaScript is represented:

- Money is an exact `real`.
- Donor percents are `int`. The owner's slider positions are `real`,
  because the auto-fill writes non-integer clamped values into them.
- JavaScript objects used as dictionaries become `map`s.
- `x[k] || 0` is written out as `Pct` and `Get`.
- The source's loops are methods with loop invariants. Each method is
  proved equal to a specification function, and the properties are proved
  as lemmas about those functions.

Design decisions where the code and its own description differ (the code
is followed):

- **Cap formula.** The header comment of `porteurs/script.js:7` describes
  the cap as `clamp(min(15, 15 - cumulated), -15, 15)`. `computeCap`
  (`porteurs/script.js:109-118`) computes
  `round(clamp(min(base, base + cumulated), -15, base))` from the
  structural base cap. `CapAllocation.Cap` models the code.
- **Mean-0 sliders.** After an auto-fill a level with mean 0 does not
  always get slider 0. The code clamps 0 into `[-15, cap]`, so a level
  whose cap has gone negative gets its cap (`SlidersInRange`).
- **Levels skipped by validation.** Validation skips the `project` level
  and also every level with a mean of 0 or less
  (`porteurs/script.js:376-379`).
- **No gating of submit or validate.** Neither submitting a donation nor
  validating an allocation checks that the state is complete or funded.
  Only the disabled button prevents it, so `Dashboard.Submit` and
  `Allocator.ValidateAllocation` have no such precondition.
- **Owner auto-fill walk.** `extra = maxAmt - current` is negative for a
  level whose cap is below 0. That level's `add` is then negative: it
  lowers the level and hands the difference back to `remaining`. The
  model keeps this behaviour (`WalkStep`). It also follows the code in
  letting a scaled-down amount fall more than 15% below the mean while
  the derived slider is clamped at -15.
- **Donor slider ranges.** Percents from the donor's sliders are not
  clamped by the code. They stay within range only because of the HTML
  range inputs (`donateurs/script.js:57, 256`), which the model states as
  preconditions.

## Model

| member | source | states |
|---|---|---|
| Basics.Round | donateurs/script.js:222 | `Math.round`: the result is the integer within half a unit of x, halves going up |
| Basics.RoundMonotone | porteurs/script.js:217 | rounding never reverses the order of two amounts |
| Basics.Clamp | porteurs/script.js:94 | `clamp`: the result is at least the lower bound, at most the upper one when the bounds are ordered, the value itself inside them and the nearer bound outside |
| Text.NatToString | donateurs/script.js:376 | the decimal notation of a number is a non-empty digit string without a leading zero |
| Text.ParseNatToString | donateurs/script.js:376 | reading back the decimal notation gives the number again |
| Text.NatToStringInjective | donateurs/script.js:380 | distinct ids give distinct decimal notations |
| Text.ToLower | donateurs/script.js:178 | `toLowerCase` keeps the length, leaves no capital letter (ASCII, Latin-1 and Latin Extended-A), changes every capital, and keeps every other character in place |
| Text.ToLowerIdempotent | donateurs/script.js:178 | lower-casing twice is lower-casing once |
| Text.Trim | donateurs/script.js:178 | `trim`: the result is a slice of the input whose cut-off prefix and suffix are all whitespace, it starts and ends with a non-whitespace character, and it is empty exactly when the input is all whitespace |
| Text.Includes | donateurs/script.js:183 | definition of `includes`, without a contract of its own: some position of the text starts with the query; `IncludesIsOccurrence` states it |
| Text.IncludesIsOccurrence | donateurs/script.js:183 | `includes` holds exactly when the query occurs at some position of the text |
| Donor.TerritorialLevelsWellFormed | donateurs/script.js:20-26 | the five configured levels have distinct keys, none shaped like a project key, and defaults within their ranges |
| Donor.Defaults | donateurs/script.js:64 | the initial sliders have exactly one entry per level key |
| Donor.MessageFor | donateurs/script.js:304-313 | the message is complete iff the total is 100, missing iff below, otherwise overload; the percent shown completes the total to 100 and its euro figure is that percent of the amount |
| Donor.EqualShare | donateurs/script.js:96 | `Math.floor(100 / N)` is the largest share that N items can all receive within 100% |
| Donor.FiveLevelsGetTwenty | donateurs/script.js:93-96 | five levels and no project get 20% each |
| Donor.AutoFilledTotal | donateurs/script.js:96-117 | after an auto-fill the total is N times the share: at most 100 and short of it by less than N |
| Donor.FindProject | donateurs/script.js:217 | `find` returns the first catalogue entry with the id (no earlier entry has it), or none when no entry has it |
| Donor.WithoutProject | donateurs/script.js:230 | the filter never lengthens the selection; `WithoutProjectMembers` states which entries it keeps |
| Donor.WithoutProjectMembers | donateurs/script.js:230 | the filtered selection holds exactly the entries with another id |
| Donor.RemoveAbsent | donateurs/script.js:229-230 | removing an id that is not selected leaves the selection unchanged |
| Donor.RemoveDropsOne | donateurs/script.js:229-230 | with unique ids, removing drops exactly the entry holding the id and keeps the others in order |
| Donor.RemoveKeepsUnique | donateurs/script.js:230 | removal keeps the selected ids unique |
| Donor.LevelSharesAt | donateurs/script.js:379 | entry i of the level part of a breakdown is level i's key and percent |
| Donor.ProjectSharesAt | donateurs/script.js:380 | entry j of the project part is `proj_<id>` with the percent of selected project j |
| Donor.AmountFor | donateurs/script.js:222 | the euro amount of a percent: 0 for 0%, the rounded donation for 100%, never negative for a non-negative percent and amount |
| Donor.Snapshot | donateurs/script.js:374-387 | definition of the submitted record, without a contract of its own; `SnapshotBreakdownSum`, `SnapshotKeysDistinct`, `LevelSharesAt` and `ProjectSharesAt` state its content |
| Donor.SnapshotBreakdownSum | donateurs/script.js:378-380 | a submitted breakdown's percents add up to the summary's total |
| Donor.ProjectKeyInjective | donateurs/script.js:380 | distinct project ids give distinct `proj_<id>` keys |
| Donor.SnapshotKeysDistinct | donateurs/script.js:378-380 | the breakdown keys are pairwise distinct, so writing them into one object loses no entry |
| Donor.RecordLines | donateurs/script.js:474-479 | definition of the receipt lines of a stored breakdown, without a contract of its own; `RecordLinesSkipZero` and `RecordLinesConcat` state them |
| Donor.RecordReceipt | donateurs/script.js:466-479 | definition of a stored record's receipt, without a contract of its own; `PreviewMatchesRecord` relates it to the preview |
| Donor.PreviewReceipt | donateurs/script.js:406-425 | definition of the live preview, without a contract of its own; `PreviewMatchesRecord` and `PreviewCoversRecord` state it |
| Donor.RecordLinesConcat | donateurs/script.js:475-479 | receipt lines of a stored record follow the breakdown's stored order |
| Donor.RecordLinesSkipZero | donateurs/script.js:475-479 | a stored record's receipt lists every non-zero entry and no zero entry |
| Donor.PreviewMatchesRecord | donateurs/script.js:406-425 | preview line i carries the percent and euro amount of the submitted breakdown's entry i; a non-zero entry reappears on the stored record's receipt under its key, and a zero-percent level listed by the preview gets no line there |
| Donor.PreviewCoversRecord | donateurs/script.js:416-424 | the stored record's receipt has no more lines than the preview of the same state |
| Donor.Matches | donateurs/script.js:178-184 | definition of the search filter, without a contract of its own; `SearchMembers`, `MatchesIgnoresQueryCase` and `SearchBlankListsAll` state it |
| Donor.Search | donateurs/script.js:180-184 | the result is no longer than the catalogue |
| Donor.SearchMembers | donateurs/script.js:180-184 | the results are exactly the catalogue entries that pass the type filter and the case-insensitive query |
| Donor.SearchConcat | donateurs/script.js:180 | filtering works entry by entry, so catalogue order is kept |
| Donor.SearchBlankListsAll | donateurs/script.js:182 | a blank query with no type lists the whole catalogue |
| Donor.MatchesIgnoresQueryCase | donateurs/script.js:178 | a query and its lower-cased form select the same projects |
| Donor.TrimLowerCommute | donateurs/script.js:178 | trimming then lower-casing equals lower-casing then trimming |
| Donor.NetCostBounds | donateurs/script.js:140 | the net cost after the 66% reduction lies between 0 and the rounded donation and grows with the donation |
| Donor.NetCost | donateurs/script.js:140 | definition of the displayed net cost `Math.round(v * (1 - 0.66))`, without a contract of its own; `NetCostBounds` states its bounds and monotonicity |
| Donor.CoercedAmount | donateurs/script.js:135-136 | the amount is at least 1: the parsed input when it is at least 1, otherwise 1 |
| Donor.Dashboard.constructor | donateurs/script.js:42-70 | every level starts at its default, no project is selected, and the initial `onAmountChange` makes the amount the coerced content of the amount field |
| Donor.Dashboard.SetAmount | donateurs/script.js:133-160 | the amount becomes the coerced input, no percent changes, each project's euro amount follows the new amount, and the net cost is returned |
| Donor.Dashboard.SetLevelPercent | donateurs/script.js:167-170 | only that level's slider changes |
| Donor.Dashboard.SetProjectPercent | donateurs/script.js:270-273 | only that project's percent and euro amount change |
| Donor.Dashboard.AddProject | donateurs/script.js:215-224 | no-op for a selected or unknown id, otherwise exactly one entry at 5% is appended; ids stay unique |
| Donor.Dashboard.RemoveProject | donateurs/script.js:229-230 | the selection becomes the filtered one and nothing else changes |
| Donor.Dashboard.AutoFill | donateurs/script.js:91-122 | every level and every project gets `floor(100 / N)` with amounts recomputed, a no-op when N is 0 |
| Donor.Dashboard.Summary | donateurs/script.js:284-370 | the total percent, its euro amount, the message, and submit enabled iff the total is 100 and every minimum is met |
| Donor.Dashboard.Submit | donateurs/script.js:374-403 | the snapshot is prepended to the history, the selection is emptied, the levels return to their defaults, and the amount is kept |
| Donor.ShareEqually | donateurs/script.js:100-118 | every level key and every project ends at the share, and only pct and amount change |
| Donor.SummaryOf | donateurs/script.js:286-370 | the loops compute the total over the levels and projects and the minima check |
| Donor.Breakdown | donateurs/script.js:378-380 | the built breakdown is the level shares followed by the project shares |
| Donor.ResetSliders | donateurs/script.js:394-395 | the reset loop leaves every level at its default |
| CapAllocation.BaseCapForProjects | porteurs/script.js:95-100 | the base cap is 0, 5, 10 or 15: 0 up to two projects, 15 above seven |
| CapAllocation.BaseCapMonotone | porteurs/script.js:95-100 | more projects never lower the base cap |
| CapAllocation.Mean | porteurs/script.js:104-106 | definition of `meanForLevel`, without a contract of its own; `MeanShares` states it |
| CapAllocation.MeanShares | porteurs/script.js:104-106 | the mean times the project count is the total, 0 without projects, non-negative for a non-negative total |
| CapAllocation.FindLevel | porteurs/script.js:111 | `find` returns a level with the key, or none exactly when no level has it |
| CapAllocation.Cap | porteurs/script.js:109-118 | the cap lies in [-15, 15]: 15 for an unknown key, otherwise at most the base, equal to it for a non-negative cumulated value, lowered by a malus but never below -15 |
| CapAllocation.BonusNeverExceedsBase | porteurs/script.js:109-118 | a bonus never lifts the cap above the base; a level with at most two projects and a bonus has cap 0 |
| CapAllocation.InitialRecords | porteurs/script.js:45-51 | one record per level, a one-entry history for the base year whose delta and cumulated value are the base bonus/malus, or 0 when none is given |
| CapAllocation.Recorded | porteurs/script.js:390-392 | prepending an entry moves cumulated by its delta and keeps it equal to the history's sum |
| CapAllocation.ValidationDelta | porteurs/script.js:380-388 | the delta lies in [-15, 15]: a bonus for asking less than the mean, a malus otherwise |
| CapAllocation.Validated | porteurs/script.js:375-393 | validation keeps the record keys; `ValidatedRecord` and `ValidatedConsistent` state each record |
| CapAllocation.ValidatedConsistent | porteurs/script.js:390-392 | after validation every cumulated value still equals its history's sum |
| CapAllocation.ValidatedRecord | porteurs/script.js:375-393 | a validated level gets exactly one entry for this year with a delta of the right sign and cumulated moves by it; the project level and mean-0 levels are untouched |
| CapAllocation.SumAtPermutation | porteurs/script.js:255-258 | summing amounts over the same distinct keys in another order gives the same total |
| CapAllocation.SliderAmount | porteurs/script.js:217 | definition of `Math.round(mean * (1 + pct / 100))`, without a contract of its own; `SliderAmountWithinCap` states its bounds |
| CapAllocation.SliderAmountWithinCap | porteurs/script.js:215-217 | for a non-negative mean, an amount at any allowed slider lies between the amounts at -15% and at the cap |
| CapAllocation.StatusFor | porteurs/script.js:283-296 | funded iff the rounded total reaches the cost; otherwise the positive shortfall completes it to the cost |
| CapAllocation.PresentKeys | porteurs/script.js:302-304 | the kept keys are exactly the keys of the fixed order that name a level |
| CapAllocation.SortByMeanSorted | porteurs/script.js:305 | the walk order is by decreasing mean and stays duplicate-free |
| CapAllocation.WalkKeysFacts | porteurs/script.js:301-305 | the walk keys are distinct, sorted by decreasing mean, and exactly the known keys that name a level |
| CapAllocation.WalkStep | porteurs/script.js:332-341 | definition of one walk step, without a contract of its own; `WalkSettled`, `WalkConserves` and `WalkExhausted` state it |
| CapAllocation.Walk | porteurs/script.js:331-342 | definition of the walk, without a contract of its own; `WalkConserves`, `WalkExhausted` and `WalkUp` state it |
| CapAllocation.Start | porteurs/script.js:307-328 | definition of seeding and scaling, without a contract of its own; `StartConserves`, `StartAtMean` and `StartFill` state it |
| CapAllocation.Plan | porteurs/script.js:300-342 | definition of the whole auto-fill, without a contract of its own; `PlanConserves`, `PlanScalesDown`, `PlanShortfallAtCaps` and `AutoFillIdempotent` state it |
| CapAllocation.WalkSettled | porteurs/script.js:332 | once nothing is left to find, the rest of the walk changes nothing (the `break`) |
| CapAllocation.WalkConserves | porteurs/script.js:331-342 | what the walk adds to the amounts it takes from `remaining`, which stays non-negative |
| CapAllocation.ScaledSumIsCost | porteurs/script.js:322-326 | scaling amounts that sum to the means' total by cost/total makes them sum to the cost |
| CapAllocation.StartConserves | porteurs/script.js:307-328 | after seeding and scaling, amounts plus `remaining` make the cost; `remaining` is non-negative and zero iff the means reach the cost |
| CapAllocation.StartAtMean | porteurs/script.js:314-319 | when the means do not exceed the cost, every walked level starts at its mean |
| CapAllocation.PlanConserves | porteurs/script.js:300-342 | over the whole auto-fill the walked amounts plus `remaining` equal the cost, and `remaining` is non-negative |
| CapAllocation.WalkExhausted | porteurs/script.js:331-342 | a walk over distinct keys that ends with something left ran every step and left every walked level at its cap amount |
| CapAllocation.PlanShortfallAtCaps | porteurs/script.js:330-365 | the warning means no better split exists: every walked level is at its cap amount and those amounts add up to less than the cost |
| CapAllocation.PlanScalesDown | porteurs/script.js:321-328 | when the means exceed the cost every level is scaled by the same factor, they sum to the cost, and nothing remains |
| CapAllocation.PlanCoversCost | porteurs/script.js:255-260 | after an auto-fill the sum over all levels is the cost minus what remains |
| CapAllocation.PlanFundsProject | porteurs/script.js:283-296 | an auto-fill leaving nothing to find makes a whole-euro project funded at 100% |
| CapAllocation.AutoFillIdempotent | porteurs/script.js:311-351 | running auto-fill again on its own result gives the same amounts, remainder and sliders |
| CapAllocation.StartIgnoresAmounts | porteurs/script.js:311 | the reset to zero makes the seeding independent of the previous amounts |
| CapAllocation.SliderFor | porteurs/script.js:346-350 | definition of one derived slider, without a contract of its own; `SlidersInRange` states it |
| CapAllocation.SlidersInRange | porteurs/script.js:345-351 | every derived slider lies in [-15, cap], is the deviation from the mean when that is in range, and is clamp(0, -15, cap) for a mean-0 level |
| CapAllocation.SlidersFrame | porteurs/script.js:345-351 | keys outside the walk keep their slider |
| CapAllocation.SeedMeans | porteurs/script.js:311-319 | the seeding loop sets every walked level to its mean over a zeroed map and lowers `remaining` by the means' sum |
| CapAllocation.StartFill | porteurs/script.js:307-328 | seeding and the conditional scaling produce `Start` |
| CapAllocation.ScaleDown | porteurs/script.js:324-326 | the scaling loop multiplies exactly the walked levels by the factor |
| CapAllocation.WalkUp | porteurs/script.js:330-342 | the walk loop with its early `break` computes `Walk` |
| CapAllocation.DeriveSliders | porteurs/script.js:345-351 | the slider loop recomputes exactly the walked levels' sliders |
| CapAllocation.MeanAmounts | porteurs/script.js:128-132 | the initial amounts have one entry per level key |
| CapAllocation.AutoFillPhases | porteurs/script.js:300-351 | the three phases give `Plan` and the derived sliders, over the level keys, conserving the cost |
| CapAllocation.ValidateRecords | porteurs/script.js:375-393 | the validation loop computes `Validated`, with the same keys and every cumulated equal to its history's sum |
| CapAllocation.TotalsOf | porteurs/script.js:254-296 | the total is the rounded sum over the levels and the status is derived from it |
| CapAllocation.Allocator.constructor | porteurs/script.js:128-132 | records from the base figures, every slider at 0, every level at its rounded mean |
| CapAllocation.Allocator.SetSliderPercent | porteurs/script.js:210-218 | only that level's slider and proposed amount change; the amount is `round(mean * (1 + pct / 100))` |
| CapAllocation.Allocator.TotalsOverview | porteurs/script.js:252-296 | validating is enabled iff the rounded total reaches the cost |
| CapAllocation.Allocator.AutoFill | porteurs/script.js:300-366 | amounts and remainder are those of `Plan`, sliders are derived, records are untouched, the warning is raised iff something remains, and when it is every walked level stands at its cap amount |
| CapAllocation.Allocator.ValidateAllocation | porteurs/script.js:371-393 | the records become `Validated`; sliders and amounts are untouched and sums stay consistent |
| ProjectList.Rank | porteurs/porteur_dashboard.js:12 | a known status ranks 1 to 4 as in `statusOrder`; any other ranks 999 |
| ProjectList.RanksOrdered | porteurs/porteur_dashboard.js:12 | pending < published < funded < closed < unknown |
| ProjectList.CompareConsistent | porteurs/porteur_dashboard.js:20-26 | the comparator is antisymmetric and induces a total, transitive order |
| ProjectList.PrecedesMeans | porteurs/porteur_dashboard.js:21-25 | a precedes b iff its rank is lower, or equal with a date at least as recent |
| ProjectList.Compare | porteurs/porteur_dashboard.js:20-26 | the comparator is negative iff a ranks lower, or ranks the same and is more recent; zero iff rank and date are equal |
| ProjectList.SortProjects | porteurs/porteur_dashboard.js:20 | the sorted copy is a permutation of the projects; `SortProjectsSorted` states its order |
| ProjectList.InsertAfterAll | porteurs/porteur_dashboard.js:20-26 | an entry that every listed entry precedes is placed last |
| ProjectList.SortProjectsKeepsSorted | porteurs/porteur_dashboard.js:20-26 | a list already in comparator order is left as it is, so ties keep their order |
| ProjectList.InsertSorted | porteurs/porteur_dashboard.js:20-26 | inserting into a sorted list keeps it sorted |
| ProjectList.SortProjectsSorted | porteurs/porteur_dashboard.js:20-26 | the displayed list is in comparator order and is a permutation of the projects |
| ProjectList.SortedByRankThenNewest | porteurs/porteur_dashboard.js:21-25 | down the list ranks never decrease, and within a rank dates never increase |
| ProjectList.UnknownStatusesLast | porteurs/porteur_dashboard.js:21-22 | a project with an unknown status comes after every project with a known one |
| ProjectList.StatusLabel | porteurs/porteur_dashboard.js:52-61 | an unknown status is shown unchanged |
| ProjectList.KnownLabelsDistinct | porteurs/porteur_dashboard.js:54-58 | the four known statuses get four distinct labels, none equal to the status word |

## Left out

- DOM work is not modelled. This covers rendering, event wiring, slider and label updates, stacked-bar widths, row colours (`updateRowColor`) and the history lists. It is presentation, not logic.
- The Leaflet map is not modelled, because it is a foreign library drawing network tiles.
- Receipt downloads through Blob and URL, and `alert`, are not modelled. A receipt is modelled as its reference, date, amount and line list. The owner's warning is a returned flag.
- `fmt` and its `fr-FR` number formatting are not modelled. Receipt and message figures are the rounded integers it would format.
- `new Date()`, `Date.now()` and `getFullYear()` are not modelled. The submission date, the preview reference and the validation year are parameters.
- Raw input parsing is not modelled. `parseFloat` is an `Option<real>`, and slider values are integers whose HTML range is a precondition.
- IEEE-754 rounding is not modelled. All arithmetic is exact, for example `1 - 0.66` and the scale factor `cost / (cost - remaining)`.
- Donor.Dashboard.Summary: its refresh of every project's euro amount is not repeated, because the class invariant already keeps those amounts in step.
- The sample donation history and the unused owner `projects` array are demonstration data. The history is a constructor parameter.
- ProjectList.Project omits the image URL. Its date is a day number in calendar order, so date-string parsing is not modelled.
- Text.ToLower: lowers only ASCII A-Z, the Latin-1 capitals U+00C0..U+00DE (except U+00D7) and the Latin Extended-A capitals (U+0100..U+017E, and U+0178 to U+00FF). U+0130, whose lower case is two code units, is left unchanged, and Greek, Cyrillic and other scripts are not lowered.
- ProjectList.Rank: keys inherited from `Object.prototype`, such as a status named `constructor`, are not modelled. Only the four own keys of `statusOrder` are.
- The concrete sorted order of the four sample projects is not stated as a lemma. The general sortedness and permutation lemmas cover it.
- ProjectList.StatusLabel: states only the unknown-status case in its own contract. The known labels are its body's constants, and `KnownLabelsDistinct` states what distinguishes them.
- CapAllocation.Allocator.SetSliderPercent: takes the level by index, because the source binds it in a closure. The cap bound is read from the current records, as the slider's `max` attribute is when the table is built.
- CapAllocation.MeanAmounts: its own contract states only the key set. The values are fixed by `CapAllocation.Allocator.constructor`, which ends with every level at its rounded mean.
- Donor.Defaults: its own contract states only the key set. `Donor.ResetSliders` proves the value at each level is that level's default.
