# finance-app calculators in Dafny

This project models the calculators and state updaters of a personal-finance web app. They are:

- the period-by-period **compounding engine** (`CompoundInterestCalculator.calculate`) and its period builders;
- the compound-interest page. It expands scenario settings into monthly periods, runs the engine and samples a yearly chart series. It also has a closed-form annuity shortcut and the scenario list updaters;
- the **fee-impact simulation**. It is a nested year/month loop: contribute, take the load fee, grow, take the expense fee;
- the **retirement projection** and its three-way on-track / close / adjust status;
- the **settings store**: interest-rate presets, the saved risk profile and the savings goals, with contributions and milestone flags;
- the **risk quiz**: a five-question answer state machine, and the scoring that bands an answer total into five profiles;
- the **fund comparison**: a case-insensitive search, a selection of at most four distinct funds, and the lowest/best reductions;
- the **goal card**: progress, remaining amount, the completed state and the add-money form;
- the **numeric input**: the shorthand parser (`2.5k`, `15M`, `1,000`), comma formatting of the shown text, and the field's change/focus/blur handlers.

Money and rates are `real`, and years, ages and scores are `int`. Code that updates state step by step is imperative Dafny, and each such method is proved equal to a reference function:

- `Calculate` and `Run`;
- `GenerateYearlyData` and `YearlyData`;
- `CalculateFeeImpact` and `FeeImpact`.

Objects whose fields the app replaces are classes with `modifies` frames: `SettingsStore`, `Quiz`, `FundSelection`, `GoalCardForm` and `NumericField`. The properties of each reference function are lemmas.

Some foreign functions become function parameters:

- JavaScript's `parseFloat` is a parameter `string -> Option<real>`, where `None` stands for NaN;
- `Intl.NumberFormat` is a parameter `real -> string`;
- `Number.prototype.toString` is a parameter `real -> string`;
- the wall-clock time and the random ids (`Date.now()`, `Math.random()`) are `int`/`string` parameters.

A month's contribution change is the first entry in list order whose year is at most the month's year, as `Array.find` picks it. It is not the entry with the latest applicable year. `FirstIsLatestWhenDescending` shows the two rules agree on lists sorted by descending year, and `FirstIsNotLatestInGeneral` exhibits a list where they differ.

Files: `wrappers.dfy` (Option), `numbers.dfy` (min/max, powers), `seqs.dfy` (filter), `strings.dfy` (ASCII lower-casing, JavaScript `trim`, `includes`), then one file per source file of the app.

## Model

| member | source | states |
|---|---|---|
| CompoundInterest.Run | src/utils/CompoundInterest.ts:36-68 | one result per input period, in order |
| CompoundInterest.Step | src/utils/CompoundInterest.ts:44-61 | interest = balanceIn * rate; the period's contribution and withdrawal are recorded; netChange = interest + contribution - withdrawal; balance = balanceIn + netChange |
| CompoundInterest.CompoundInterestCalculator.constructor | src/utils/CompoundInterest.ts:27-34 | the calculator keeps exactly the principal and periods it was given, as read-only fields |
| CompoundInterest.CompoundInterestCalculator.Calculate | src/utils/CompoundInterest.ts:36-79 | the imperative loop with its four running locals returns the reference trajectory, and the summary of totals and final balance for it |
| CompoundInterest.AccumulatedStep | src/utils/CompoundInterest.ts:42-66 | one loop iteration keeps the running balance and the three running totals equal to those of the trajectory so far |
| CompoundInterest.RunSnoc | src/utils/CompoundInterest.ts:42-66 | one more period appends one step taken from the previous final balance |
| CompoundInterest.TotalSnoc | src/utils/CompoundInterest.ts:51-53 | appending a result adds its fields to each column total |
| CompoundInterest.TotalPrefixSnoc | src/utils/CompoundInterest.ts:51-53 | a prefix one longer adds that result's fields to each total |
| CompoundInterest.CreateFixedPeriods | src/utils/CompoundInterest.ts:82-94 | n periods, each with rate a/12 and the given contribution and withdrawal |
| CompoundInterest.CreateVaryingPeriods | src/utils/CompoundInterest.ts:97-111 | n periods at rate a/12; period i takes entry i of each list, or 0 past its end |
| CompoundInterest.RunPrefix | src/utils/CompoundInterest.ts:42-68 | a prefix of the trajectory is the trajectory of the prefix of the periods |
| CompoundInterest.RunIsChained | src/utils/CompoundInterest.ts:37-65 | period k starts from period k-1's balance, and the first from the initial principal |
| CompoundInterest.ChainedIsRun | src/utils/CompoundInterest.ts:37-65 | any chained trajectory is the run, so the result is unique and repeated calls agree |
| CompoundInterest.RunStep | src/utils/CompoundInterest.ts:44-61 | each result has interest = balanceIn * rate, balance = balanceIn + interest + contribution - withdrawal, netChange = balance - balanceIn |
| CompoundInterest.BalanceIdentity | src/utils/CompoundInterest.ts:47-76 | final balance = principal + total interest + total contributions - total withdrawals |
| CompoundInterest.ZeroRateNoInterest | src/utils/CompoundInterest.ts:44-53 | with every rate 0 the total interest is 0 |
| CompoundInterest.ZeroRateFinalBalance | src/utils/CompoundInterest.ts:47-76 | with every rate 0 the final balance is principal + contributions - withdrawals |
| CompoundInterest.RunKeepsFlows | src/utils/CompoundInterest.ts:51-53 | the contribution and withdrawal totals are the sums of the input periods' amounts |
| CompoundInterest.EmptyRun | src/utils/CompoundInterest.ts:37-40 | no periods: the final balance is the principal and every total is 0 |
| CompoundInterest.FixedPeriodsClosedForm | src/utils/CompoundInterest.ts:82-94 | over fixed periods the final balance is the annuity closed form P(1+r)^n + c((1+r)^n - 1)/r |
| CompoundInterest.FixedPeriodsStep | src/utils/CompoundInterest.ts:82-94 | one more fixed period is one more step from the previous final balance |
| CompoundInterest.AnnuityStep | src/app/compound-interest/page.tsx:66-80 | the closed form at n is one step from the closed form at n-1 |
| CompoundInterest.AnnuityZero | src/app/compound-interest/page.tsx:66-80 | the closed form at n = 0 is the principal |
| CompoundPage.CalculateCompoundInterest | src/app/compound-interest/page.tsx:66-88 | total contributions = principal + monthly * 12 * years; interest = value - contributions; the percentage is present exactly when contributions are non-zero, and is then interest over contributions * 100 |
| CompoundPage.YearOfMonth | src/app/compound-interest/page.tsx:113 | month m lies in year ceil(m/12) |
| CompoundPage.FindChange | src/app/compound-interest/page.tsx:115-123 | none exactly when no entry's year is at most the current year; otherwise an applicable entry of the list |
| CompoundPage.Periods | src/app/compound-interest/page.tsx:104-139 | the builder emits max(0, years)*12 periods, each at rate (annualRate/100)/12 |
| CompoundPage.Rollup | src/app/compound-interest/page.tsx:156-187 | one point per year sampled |
| CompoundPage.YearlyData | src/app/compound-interest/page.tsx:148-187 | years+1 points, point 0 is (0, principal, principal, 0), and point y has year y |
| CompoundPage.GenerateYearlyData | src/app/compound-interest/page.tsx:102-190 | the imperative builder, engine call and roll-up return the reference series |
| CompoundPage.BuildPeriods | src/app/compound-interest/page.tsx:108-139 | the month loop pushes exactly the reference periods |
| CompoundPage.AddYearFlows | src/app/compound-interest/page.tsx:161-173 | the inner month loop adds year y's contributions and withdrawals, so the running sums cover months 1..12y |
| CompoundPage.RollUpYears | src/app/compound-interest/page.tsx:148-187 | the year loop returns point 0 followed by the sampled points of years 1..years |
| CompoundPage.FirstApplicableChange | src/app/compound-interest/page.tsx:115-123 | the change chosen is the first entry in list order with year <= current year |
| CompoundPage.MonthContribution | src/app/compound-interest/page.tsx:111-123 | month m's contribution is the newAmount of the first entry with year <= ceil(m/12) |
| CompoundPage.SingleChange | src/app/compound-interest/page.tsx:111-123 | with one change at year Y, earlier years use the base amount and later years the new one |
| CompoundPage.FirstIsLatestWhenDescending | src/app/compound-interest/page.tsx:115-123 | on a list sorted by descending year the first applicable entry has the latest applicable year |
| CompoundPage.FirstIsNotLatestInGeneral | src/app/compound-interest/page.tsx:115-123 | on an unsorted list year 5 still takes the year-1 entry, so the two rules differ |
| CompoundPage.WithdrawalOnlyAtYearEnd | src/app/compound-interest/page.tsx:125-132 | a non-zero withdrawal only falls on month earlyWithdrawal.year*12, with 1 <= year <= years |
| CompoundPage.WithdrawalPlaced | src/app/compound-interest/page.tsx:125-132 | a withdrawal year inside the horizon puts its amount on that year's last month |
| CompoundPage.AtMostOneWithdrawal | src/app/compound-interest/page.tsx:125-132 | at most one period has a non-zero withdrawal |
| CompoundPage.NoEventsAreFixedPeriods | src/app/compound-interest/page.tsx:108-139 | without events the builder emits the engine's fixed periods |
| CompoundPage.ClosedFormIsFold | src/app/compound-interest/page.tsx:66-80 | for a non-zero rate and no events, the closed-form total value is the fold's final balance |
| CompoundPage.InputContributions | src/app/compound-interest/page.tsx:111-123 | the builder's contributions over months 1..n sum month by month |
| CompoundPage.YearPointFields | src/app/compound-interest/page.tsx:161-183 | point y has value max(0, balance after month 12y) and contributions = principal + contributions of months 1..12y |
| CompoundPage.YearlyDataAt | src/app/compound-interest/page.tsx:141-187 | point y is sampled from the engine's run over the builder's periods |
| CompoundPage.YearPointInterest | src/app/compound-interest/page.tsx:176-184 | point y's interest is max(0, the engine's interest over months 1..12y), so never negative; unclamped, balance − (contributions − withdrawals) is that interest |
| CompoundPage.RemoveScenario | src/app/compound-interest/page.tsx:275-280 | id "1" leaves the list unchanged; any other id removes exactly the scenarios with that id |
| CompoundPage.RemoveScenarioKeepsOrder | src/app/compound-interest/page.tsx:275-280 | for an id other than "1", removal distributes over concatenation, so the remaining scenarios keep their order and multiplicity |
| CompoundPage.RemoveScenarioSingle | src/app/compound-interest/page.tsx:275-280 | a single scenario is dropped exactly when the id is not "1" and matches its id |
| CompoundPage.PresetSettings | src/app/compound-interest/page.tsx:282-360 | six preset variations |
| CompoundPage.AddPresetScenarios | src/app/compound-interest/page.tsx:282-373 | the scenarios with id "1" are kept in order, followed by the six presets with their names, colours and yearly series |
| FeeCalculator.EffectiveReturnRate | src/app/fee-calculator/page.tsx:89 | the scenario's custom return rate when present, else the page's rate |
| FeeCalculator.RatesOf | src/app/fee-calculator/page.tsx:89-94 | monthly return = rate/1200; annual fee = (expense + trading + management)/100; load = performance fee/100 |
| FeeCalculator.MonthStep | src/app/fee-calculator/page.tsx:116-135 | a month adds the contribution to the contributions and the same fees to the total and the year's fees; with no growth, new value + fees taken = old value + contribution; with no fee rates no fee is taken |
| FeeCalculator.FeeImpact | src/app/fee-calculator/page.tsx:84-148 | years+1 rows, and row y has year y |
| FeeCalculator.CalculateFeeImpact | src/app/fee-calculator/page.tsx:84-148 | the nested year and month loops return the reference rows |
| FeeCalculator.ApplyMonth | src/app/fee-calculator/page.tsx:116-135 | one month in order: add the contribution, take contribution*load, grow by 1+monthlyReturn, take value*annualFee/12 |
| FeeCalculator.YearZeroRow | src/app/fee-calculator/page.tsx:96-111 | row 0: value = principal*(1-load), fees = fees this year = principal*load, contributions = principal, interest 0 |
| FeeCalculator.PaidIsProduct | src/app/fee-calculator/page.tsx:119 | k equal contributions sum to k times the contribution |
| FeeCalculator.MonthsContributions | src/app/fee-calculator/page.tsx:116-120 | k months add k contributions |
| FeeCalculator.MonthsFees | src/app/fee-calculator/page.tsx:124-134 | k months add to the total fees exactly what they add to the year's fees |
| FeeCalculator.PaidAdd | src/app/fee-calculator/page.tsx:119 | contributions over a+b months are those over a plus those over b |
| FeeCalculator.AfterYearsContributions | src/app/fee-calculator/page.tsx:86-135 | after y years the contributions are principal + 12y contributions |
| FeeCalculator.RowContributions | src/app/fee-calculator/page.tsx:86-143 | row y has contributions = principal + 12*y*monthly and interest = value - contributions |
| FeeCalculator.RowFees | src/app/fee-calculator/page.tsx:114-143 | for y >= 1, total fees(y) = total fees(y-1) + fees this year(y) |
| FeeCalculator.MonthsWithoutRates | src/app/fee-calculator/page.tsx:116-135 | with no growth and no fees, months only add contributions |
| FeeCalculator.AfterYearsWithoutRates | src/app/fee-calculator/page.tsx:101-135 | with no growth and no fees, the value after y years is what was paid in |
| FeeCalculator.NoReturnNoFees | src/app/fee-calculator/page.tsx:96-143 | zero return and zero fees: every row's value equals its contributions |
| FeeCalculator.UpdateScenario | src/app/fee-calculator/page.tsx:150-154 | same length and order; only scenarios with the id are patched |
| FeeCalculator.PatchFields | src/app/fee-calculator/page.tsx:152 | for each of the six fields (id, name, color, annualFeeRate, customReturnRate, otherFees), the update's value when present, otherwise the scenario's |
| FeeCalculator.UpdateScenarioIdempotent | src/app/fee-calculator/page.tsx:150-154 | applying the same update twice changes nothing more |
| Retirement.CalculateRetirement | src/app/retirement-simulator/page.tsx:28-73 | years to retirement, retirement years, the future value, the total needed, the shortfall, the 4% withdrawal and its twelfth, and contributions + interest = total at retirement |
| Retirement.AdjustedIncome | src/app/retirement-simulator/page.tsx:46-50 | adjusted income = desired * (1 + inflation/100)^years to retirement |
| Retirement.NoInflation | src/app/retirement-simulator/page.tsx:46-50 | zero inflation leaves the desired income unchanged |
| Retirement.ProjectionIsFold | src/app/retirement-simulator/page.tsx:31-43 | the closed-form total at retirement is the compounding engine's final balance over 12n fixed months |
| Retirement.StatusOf | src/app/retirement-simulator/page.tsx:86-107 | on track iff shortfall <= 0; close iff 0 < shortfall < 0.2*total; adjust otherwise |
| Retirement.StatusColor | src/app/retirement-simulator/page.tsx:86-91 | green when on track, yellow when close, red when the plan needs adjusting |
| Retirement.StatusIcon | src/app/retirement-simulator/page.tsx:93-97 | the green check icon when on track, else the yellow alert icon |
| Retirement.StatusMessage | src/app/retirement-simulator/page.tsx:99-107 | the on-track, close or adjust message for the status |
| Retirement.StatusAgreement | src/app/retirement-simulator/page.tsx:86-107 | colour, message and icon each agree with the status |
| Settings.RecommendedRate | src/contexts/SettingsContext.tsx:248-271 | no profile gives average; each of the five profiles maps to its preset or midpoint |
| Settings.RecommendedRateMonotone | src/contexts/SettingsContext.tsx:253-270 | with ordered presets, the rate does not decrease along the profile order |
| Settings.RecommendedRateBounds | src/contexts/SettingsContext.tsx:248-271 | with ordered presets, the rate lies between conservative and optimistic |
| Settings.NewGoal | src/contexts/SettingsContext.tsx:174-187 | a new goal has the given id, name, target amount, target date, category and creation date, amount 0, no contributions and all four milestones false |
| Settings.AddGoalTo | src/contexts/SettingsContext.tsx:168-188 | one goal is appended at the end and earlier goals are unchanged |
| Settings.UpdateGoals | src/contexts/SettingsContext.tsx:190-194 | same length and order; only goals with the id are patched |
| Settings.EmptyUpdate | src/contexts/SettingsContext.tsx:190-194 | an empty patch changes nothing |
| Settings.DeleteGoalFrom | src/contexts/SettingsContext.tsx:196-198 | a goal is kept iff its id differs |
| Settings.DeleteAbsent | src/contexts/SettingsContext.tsx:196-198 | deleting an absent id changes nothing |
| Settings.DeleteKeepsOrder | src/contexts/SettingsContext.tsx:196-198 | deleting distributes over concatenation, so the others keep their order |
| Settings.UpdateMilestones | src/contexts/SettingsContext.tsx:217-233 | each flag is its old value or whether current/target*100 reaches 25, 50, 75 or 100 |
| Settings.WithContribution | src/contexts/SettingsContext.tsx:209-233 | the contribution is appended, the amount is the sum of all contributions, the milestones are updated against the new amount and the target, and every other field is kept |
| Settings.AddContributionTo | src/contexts/SettingsContext.tsx:200-245 | same length; goals with another id are unchanged |
| Settings.ContributionRecorded | src/contexts/SettingsContext.tsx:209-233 | in the list, the goal with the id gets the contribution appended, amount = sum of all its contributions (old amount + new amount when the old one was that sum), milestones updated against the new amount, and every other field kept |
| Settings.ReachesMonotone | src/contexts/SettingsContext.tsx:217-233 | reaching a percentage implies reaching every smaller one |
| Settings.MilestonesPreserved | src/contexts/SettingsContext.tsx:220-233 | a true milestone is never reset |
| Settings.MilestoneAtPositiveTarget | src/contexts/SettingsContext.tsx:217-233 | for a positive target, the 50% flag is set iff it was set or current*100 >= 50*target |
| Settings.GoalsStayDownwardClosed | src/contexts/SettingsContext.tsx:186-233 | contributions keep the flags downward closed: 100 implies 75 implies 50 implies 25 |
| Settings.NewGoalDownwardClosed | src/contexts/SettingsContext.tsx:186 | a new goal's flags are downward closed |
| Settings.SettingsStore.constructor | src/contexts/SettingsContext.tsx:78-102 | default presets 4/7/10, no profile, no goals |
| Settings.SettingsStore.UpdateInterestRatePresets | src/contexts/SettingsContext.tsx:151-153 | replaces the presets only |
| Settings.SettingsStore.ResetToDefaults | src/contexts/SettingsContext.tsx:155-157 | sets the presets to 4/7/10 only |
| Settings.SettingsStore.UpdateRiskProfile | src/contexts/SettingsContext.tsx:159-161 | sets the profile only |
| Settings.SettingsStore.ClearRiskProfile | src/contexts/SettingsContext.tsx:163-165 | clears the profile only |
| Settings.SettingsStore.GetRecommendedRate | src/contexts/SettingsContext.tsx:248-271 | the store's recommended rate is the mapping applied to its presets and profile |
| Settings.SettingsStore.AddGoal | src/contexts/SettingsContext.tsx:168-188 | the goals become the list with the new goal appended; nothing else changes |
| Settings.SettingsStore.UpdateGoal | src/contexts/SettingsContext.tsx:190-194 | the goals become the patched list; nothing else changes |
| Settings.SettingsStore.DeleteGoal | src/contexts/SettingsContext.tsx:196-198 | the goals become the filtered list; nothing else changes |
| Settings.SettingsStore.AddContribution | src/contexts/SettingsContext.tsx:200-245 | the goals become the list with the contribution recorded; nothing else changes |
| RiskQuiz.QuestionsShape | src/app/risk-profile/page.tsx:14-70 | five questions with ids 1..5, whose option scores lie in 1..5 |
| RiskQuiz.QuestionId | src/app/risk-profile/page.tsx:14-70 | question i has id i+1 |
| RiskQuiz.BandOf | src/app/risk-profile/page.tsx:128-181 | the average total/5 against 1.5/2.5/3.5/4.5 is total <= 7, 8..12, 13..17, 18..22, >= 23, each both ways |
| RiskQuiz.InfoFor | src/app/risk-profile/page.tsx:130-181 | the info returned is that of the band asked for |
| RiskQuiz.RiskProfileFromAnswers | src/app/risk-profile/page.tsx:121-182 | the profile is the band of the answer total, shown with that band's fixed info, so it depends on the total only |
| RiskQuiz.BandsByTotal | src/app/risk-profile/page.tsx:124-181 | total <= 7 Conservative, 8..12 Moderately Conservative, 13..17 Moderate, 18..22 Moderately Aggressive, >= 23 Aggressive, each both ways |
| RiskQuiz.BandMonotone | src/app/risk-profile/page.tsx:130-181 | the band does not decrease with the total |
| RiskQuiz.AllocationComplete | src/app/risk-profile/page.tsx:137-177 | each band's stocks + bonds + cash = 100 |
| RiskQuiz.EmptyIsConservative | src/app/risk-profile/page.tsx:121-132 | no answers scores 0 and gives Conservative |
| RiskQuiz.TotalOverEmpty | src/app/risk-profile/page.tsx:124-127 | no answers sum to 0 |
| RiskQuiz.TotalBounds | src/app/risk-profile/page.tsx:124-127 | n answers in 1..5 sum to between n and 5n |
| RiskQuiz.CompleteTotal | src/app/risk-profile/page.tsx:88-103 | five answers in 1..5 total 5..25 |
| RiskQuiz.SavedProfile | src/app/risk-profile/page.tsx:88-103 | the saved profile has the answers, their total as score, and the band of that total |
| RiskQuiz.DisplayMatchesSaved | src/app/risk-profile/page.tsx:191-193 | the shown profile is the saved band with its allocation |
| RiskQuiz.NextKeys | src/app/risk-profile/page.tsx:79-87 | answering question n+1 adds id n+1 to the answered ids |
| RiskQuiz.AnsweredIdsRange | src/app/risk-profile/page.tsx:79-87 | after n answers exactly the ids 1..n are answered |
| RiskQuiz.Quiz.constructor | src/app/risk-profile/page.tsx:74-77 | question 0, no answers, not complete; the quiz is shown when no profile is saved |
| RiskQuiz.Quiz.HandleAnswer | src/app/risk-profile/page.tsx:79-105 | records the score under the current id; advances while below the last question, else completes and saves the profile to the store; the index stays in 0..4 |
| RiskQuiz.Quiz.ResetQuiz | src/app/risk-profile/page.tsx:107-112 | back to question 0, no answers, not complete, quiz shown |
| RiskQuiz.Quiz.StartQuiz | src/app/risk-profile/page.tsx:114-119 | the same reset state |
| RiskQuiz.CompleteAnswersAll | src/app/risk-profile/page.tsx:79-103 | on completion every question has an answer |
| RiskQuiz.SavedScoreBounds | src/app/risk-profile/page.tsx:14-103 | on completion the saved score lies in 5..25 |
| FundComparison.FilteredFunds | src/app/fund-comparison/page.tsx:111-114 | a fund is kept iff it matches the lower-cased term |
| FundComparison.FilteredFundsKeepsOrder | src/app/fund-comparison/page.tsx:111-114 | the filter distributes over concatenation, so catalogue order is kept |
| FundComparison.FilterIsSubstringSearch | src/app/fund-comparison/page.tsx:111-114 | a fund passes iff the lower-cased term occurs in its lower-cased name or symbol |
| FundComparison.EmptySearchKeepsAll | src/app/fund-comparison/page.tsx:111-114 | the empty term keeps every fund in order |
| FundComparison.SearchIgnoresCase | src/app/fund-comparison/page.tsx:111-114 | terms equal up to case filter alike |
| FundComparison.FindBySymbol | src/app/fund-comparison/page.tsx:117 | none iff no fund has the symbol; otherwise a fund with it |
| FundComparison.AddFundTo | src/app/fund-comparison/page.tsx:116-120 | with fewer than 4 selected and the symbol absent the fund is appended; otherwise the selection is unchanged |
| FundComparison.AddFundKeepsSelectionValid | src/app/fund-comparison/page.tsx:116-120 | adding keeps at most 4 funds with distinct symbols |
| FundComparison.RemoveFundFrom | src/app/fund-comparison/page.tsx:122-124 | a fund is kept iff its symbol differs |
| FundComparison.RemoveFundKeepsOrder | src/app/fund-comparison/page.tsx:122-124 | removal distributes over concatenation, so the rest keep their order |
| FundComparison.RemoveFundKeepsUnique | src/app/fund-comparison/page.tsx:122-124 | removal keeps symbols distinct |
| FundComparison.AddThenRemove | src/app/fund-comparison/page.tsx:116-124 | removing a just-added fund gives back the selection |
| FundComparison.FundSelection.constructor | src/app/fund-comparison/page.tsx:108-109 | empty term, nothing selected |
| FundComparison.FundSelection.SetSearchTerm | src/app/fund-comparison/page.tsx:108-114 | sets the term and keeps the selection |
| FundComparison.FundSelection.Shown | src/app/fund-comparison/page.tsx:111-114 | the shown funds are the catalogue funds that match the term |
| FundComparison.FundSelection.AddFund | src/app/fund-comparison/page.tsx:116-120 | the selection becomes the added list and stays valid |
| FundComparison.FundSelection.RemoveFund | src/app/fund-comparison/page.tsx:122-124 | the selection becomes the filtered list and stays valid |
| FundComparison.LowestIndex | src/app/fund-comparison/page.tsx:289-293 | an index with the minimal key, and the first one on ties |
| FundComparison.BestIndex | src/app/fund-comparison/page.tsx:300-316 | an index with the maximal key, and the first one on ties |
| FundComparison.AnalysisOf | src/app/fund-comparison/page.tsx:284-326 | each summary fund is selected and is minimal in expense or minimum investment, or maximal in 1Y or 5Y return |
| FundComparison.ReturnColor | src/app/fund-comparison/page.tsx:136-140 | green iff positive, red iff negative, gray iff zero |
| FundComparison.CatalogueSummary | src/app/fund-comparison/page.tsx:8-93 | over the whole catalogue FZROX has the lowest expense ratio and SPY the best 1Y return |
| GoalCard.ProgressPercentage | src/components/GoalCard.tsx:14-17 | for a non-zero target, 100 exactly when current/target*100 >= 100 and otherwise current/target*100; at most 100; at least 0 for target > 0 and current >= 0; for target > 0 it is 100 iff current >= target; for target 0, 100 when current > 0 and undefined (NaN) otherwise |
| GoalCard.RemainingAmount | src/components/GoalCard.tsx:18 | never negative; 0 iff current >= target; otherwise current + remaining = target |
| GoalCard.CompletedIffReached | src/components/GoalCard.tsx:18-128 | completed iff current >= target, which for target > 0 is progress 100 |
| GoalCard.GoalCardForm.constructor | src/components/GoalCard.tsx:11-12 | form closed and empty |
| GoalCard.GoalCardForm.OpenAddMoney | src/components/GoalCard.tsx:118 | opens the form and keeps the text |
| GoalCard.GoalCardForm.CloseAddMoney | src/components/GoalCard.tsx:138-175 | closes the form and keeps the text |
| GoalCard.GoalCardForm.SetContributionAmount | src/components/GoalCard.tsx:161 | sets the text and keeps the open state |
| GoalCard.GoalCardForm.HandleAddMoney | src/components/GoalCard.tsx:22-30 | a parsed amount > 0 is reported with the goal id and the form is cleared and closed; otherwise nothing is reported and nothing changes |
| NumericInput.RemoveCommas | src/components/NumericInput.tsx:32 | no commas remain, and a character is in the result iff it is a non-comma of the input |
| NumericInput.RemoveCommasAppend | src/components/NumericInput.tsx:32 | removal works piece by piece, so the other characters keep their order and multiplicity |
| NumericInput.RemoveCommasChar | src/components/NumericInput.tsx:32 | a single comma is dropped and any other character is kept |
| NumericInput.SuffixMultiplier | src/components/NumericInput.tsx:37-41 | a multiplier exactly for k, m and b |
| NumericInput.ParseShorthand | src/components/NumericInput.tsx:31-54 | empty cleaned text gives the default; the other cases are the lemmas ParsedOrDefault, SuffixScales, UnparsableGivesDefault, WhitespaceIgnored and CommasAndCaseIgnored |
| NumericInput.ParseCleanSources | src/components/NumericInput.tsx:34-53 | on cleaned text the result is the default or a parsed prefix times 1, 1e3, 1e6 or 1e9 |
| NumericInput.ParsedOrDefault | src/components/NumericInput.tsx:31-54 | the result is the default or a number parseFloat read, scaled, so never NaN; when the suffix path fails and the whole cleaned text parses, the result is that number |
| NumericInput.EmptyGivesDefault | src/components/NumericInput.tsx:32-34 | input of only commas and white space gives the default |
| NumericInput.SuffixScales | src/components/NumericInput.tsx:43-50 | k, m or b after a parsable x gives x*1e3, x*1e6 or x*1e9 |
| NumericInput.UnparsableGivesDefault | src/components/NumericInput.tsx:52-53 | when neither the suffix form nor the whole text parses, the default |
| NumericInput.WhitespaceIgnored | src/components/NumericInput.tsx:32 | white space before and after the input changes neither the cleaned text nor the parse |
| NumericInput.CleanIdempotent | src/components/NumericInput.tsx:32 | cleaning twice is cleaning once |
| NumericInput.ParseDependsOnCleanText | src/components/NumericInput.tsx:32 | inputs with the same cleaned text parse alike |
| NumericInput.CommasAndCaseIgnored | src/components/NumericInput.tsx:32 | inputs equal up to commas and letter case parse alike, so "2,5K" parses as "25k" |
| NumericInput.FormatWithCommas | src/components/NumericInput.tsx:57-60 | "" for 0 when not focused, else the formatted number |
| NumericInput.BlurThenSync | src/components/NumericInput.tsx:57-90 | a blur followed by the effect with the emitted value leaves the field unfocused, showing the emitted parse formatted, and "" when it is 0 |
| NumericInput.NumericField.constructor | src/components/NumericInput.tsx:27-28 | empty text, not focused |
| NumericInput.NumericField.SyncFromValue | src/components/NumericInput.tsx:63-67 | reformats the value when not focused; otherwise keeps the text |
| NumericInput.NumericField.HandleChange | src/components/NumericInput.tsx:69-76 | shows the typed text and reports its parse |
| NumericInput.NumericField.HandleFocus | src/components/NumericInput.tsx:78-82 | focused; shows "" for 0, else the raw number |
| NumericInput.NumericField.HandleBlur | src/components/NumericInput.tsx:84-90 | unfocused; reports the parse of the shown text and shows it formatted with the render's focus flag |
| Strings.Lower | src/components/NumericInput.tsx:32 | lower-cases each character of an ASCII upper-case letter and keeps the rest |
| Strings.IncludesIff | src/app/fund-comparison/page.tsx:112-113 | includes iff the text occurs at some position |
| Strings.Trim | src/components/NumericInput.tsx:32 | a slice of the input without outer JavaScript white space |
| Strings.TrimCutsOnlyWhitespace | src/components/NumericInput.tsx:32 | the trim is a slice s[i..j] with every character before i and from j on white space |
| Strings.TrimStartAppend | src/components/NumericInput.tsx:32 | text appended after a string with a non-space is kept after its leading cut |
| Strings.TrimEndPadded | src/components/NumericInput.tsx:32 | trailing white space is cut by the end trim |
| Strings.TrimPadded | src/components/NumericInput.tsx:32 | white space added before and after does not change the trim |
| Strings.TrimLowerCommute | src/components/NumericInput.tsx:32 | trimming and lower-casing commute |
| Strings.TrimTrimmed | src/components/NumericInput.tsx:32 | trimming text without outer white space changes nothing |

## Left out

- Rendering, charts, icons, layout, the question and option wording of the quiz, and the fund descriptions shown as prose are UI. The fund catalogue keeps its numbers, and the icons are left out of the goal categories.
- The storage of settings and goals in `localStorage`, and the JSON parsing of what is stored, are I/O.
- `Date.now()`, `Math.random()` and `new Date()` are parameters: ids are strings passed in, and times are `int`.
- `Intl.NumberFormat`, `toFixed`, `toLocaleDateString` and the currency formatter are foreign library calls. A formatter is a parameter where its result is shown, and is left out elsewhere.
- IEEE-754 rounding, NaN and Infinity are not modelled; money is `real`. `parseFloat` returns `None` where JavaScript gives NaN. `ProgressPercentage` returns `None` where JavaScript gives NaN or -Infinity.
- `toLowerCase` is modelled for ASCII letters only. `trim` uses JavaScript's full white-space set.
- The `example`/`runScenario` demo functions in `src/utils/CompoundInterest.ts` only print.
- `addScenario` and `addCustomScenario` on the compound-interest page append a form-built scenario under a random id. They are not part of this model.
- CompoundPage.CalculateCompoundInterest: requires a non-zero rate, because the closed form is 0/0 there in JavaScript. It also requires a non-negative horizon or a monthly growth factor other than 0 (rate != -1200%), so that no zero base is raised to a negative power.
- Retirement.CalculateRetirement: requires a non-zero expected return (`Defined`), for the same reason. It also requires powers of zero bases to have non-negative exponents.
- CompoundPage.CalculateCompoundInterest, CompoundPage.GenerateYearlyData, FeeCalculator.FeeImpact, Retirement.CalculateRetirement: years, ages and horizons are `int`, so fractional values are not modelled. The numeric field accepts them ("2.5" years, "30.5" as an age), because it never applies its `min`/`max`/`step` props. The source then raises to a fractional power and stops its loops at floor(years·12) months or floor(years) years.
- RiskQuiz.AnswerTotal: sums the answers over the question ids 1..5 rather than over every key of the map. The quiz only writes keys 1..5, so the sums agree on every reachable state.
- Settings.GoalData: carries no milestone field, because `addGoal` always starts with all four flags false.
- FundComparison.Fund: `returns` is a fixed record of the four horizons the catalogue uses.
- The loop bodies of `calculateFeeImpact` and of the inner months of `generateYearlyData` are separate methods (`ApplyMonth`, `AddYearFlows`). The reason is size: the arithmetic in one big loop is too expensive for the solver.
- The React state setters are synchronous field assignments here. The one place where batching shows is `handleBlur`: it formats with the focus flag of the render it belongs to, so a blurred zero shows `format(0)` until the effect reruns (`NumericField.HandleBlur`, `BlurThenSync`). `BlurThenSync` assumes the parent passes the emitted value straight back as the new `value` prop.
- NumericInput.ParseShorthand: its own `ensures` covers only the empty case; the rest is in lemmas, because stating the disjunction of all cases on the function is too expensive for the solver.
- Strings.Trim: its own `ensures` do not say that the cut ends are white space; `TrimCutsOnlyWhitespace` states that, because the stronger contract on `Trim` makes every proof that unfolds the parser's cleaning too expensive.
