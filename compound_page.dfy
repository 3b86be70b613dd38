/**
 * The compound-interest page: the closed-form calculator, the period builder
 * with its yearly roll-up (`generateYearlyData`) and the comparison-scenario
 * list updaters.
 */
module CompoundPage {
  import opened Wrappers
  import opened Numbers
  import opened Seqs
  import opened CompoundInterest

  datatype EarlyWithdrawal = EarlyWithdrawal(year: int, amount: real)

  datatype ContributionChange = ContributionChange(year: int, newAmount: real)

  /** `annualRate` is a percentage; both events are optional. */
  datatype ScenarioSettings = ScenarioSettings(
    principal: real,
    monthlyContribution: real,
    annualRate: real,
    years: int,
    earlyWithdrawal: Option<EarlyWithdrawal>,
    contributionChanges: Option<seq<ContributionChange>>)

  /** One point of the yearly chart series. */
  datatype YearPoint = YearPoint(year: int, totalValue: real, totalContributions: real, totalInterest: real)

  datatype ComparisonScenario = ComparisonScenario(
    id: string,
    name: string,
    color: string,
    settings: ScenarioSettings,
    data: seq<YearPoint>)

  // ---------------------------------------------------------------------
  // Closed form
  // ---------------------------------------------------------------------

  datatype ClosedFormResult = ClosedFormResult(
    totalValue: real,
    totalContributions: real,
    totalInterest: real,
    interestPercentage: Option<real>)

  /**
   * `calculateCompoundInterest`. The annuity term divides by the monthly rate,
   * so the rate must be non-zero; a negative horizon divides by a power of 1+r.
   * The percentage is absent where JavaScript would divide by zero.
   */
  function CalculateCompoundInterest(principal: real, monthlyContribution: real, annualRate: real, years: int)
    : (r: ClosedFormResult)
    requires annualRate != 0.0
    requires years >= 0 || annualRate != -1200.0
    ensures r.totalContributions == principal + monthlyContribution * (12 * years) as real
    ensures r.totalInterest == r.totalValue - r.totalContributions
    ensures r.interestPercentage.Some? <==> r.totalContributions != 0.0
    ensures r.interestPercentage.Some? ==>
              r.interestPercentage.value * r.totalContributions == r.totalInterest * 100.0
  {
    var monthlyRate := annualRate / 100.0 / 12.0;
    var totalMonths := years * 12;
    var growth := IntPow(1.0 + monthlyRate, totalMonths);
    var principalValue := principal * growth;
    var contributionValue := monthlyContribution * ((growth - 1.0) / monthlyRate);
    var totalValue := principalValue + contributionValue;
    var totalContributions := principal + monthlyContribution * totalMonths as real;
    var totalInterest := totalValue - totalContributions;
    ClosedFormResult(totalValue, totalContributions, totalInterest,
                     if totalContributions == 0.0 then None
                     else Some(totalInterest / totalContributions * 100.0))
  }

  // ---------------------------------------------------------------------
  // Period builder
  // ---------------------------------------------------------------------

  /** `Math.ceil(month / 12)`: the year a month (numbered from 1) falls in. */
  function YearOfMonth(month: int): (y: int)
    requires month >= 1
    ensures y >= 1 && 12 * (y - 1) < month <= 12 * y
  {
    (month + 11) / 12
  }

  /** `Array.find(c => c.year <= currentYear)`: the first entry in list order that applies. */
  function FindChange(changes: seq<ContributionChange>, currentYear: int): (r: Option<ContributionChange>)
    ensures r.None? <==> forall i :: 0 <= i < |changes| ==> changes[i].year > currentYear
    ensures r.Some? ==> r.value in changes && r.value.year <= currentYear
  {
    if changes == [] then None
    else if changes[0].year <= currentYear then Some(changes[0])
    else FindChange(changes[1..], currentYear)
  }

  /** The contribution of a month: the first applicable change's amount, else the base amount. */
  function ContributionFor(s: ScenarioSettings, month: int): real
    requires month >= 1
  {
    match s.contributionChanges
    case None => s.monthlyContribution
    case Some(changes) =>
      match FindChange(changes, YearOfMonth(month))
      case Some(change) => change.newAmount
      case None => s.monthlyContribution
  }

  /** The withdrawal of a month: the early withdrawal on the last month of its year, else 0. */
  function WithdrawalFor(s: ScenarioSettings, month: int): real
    requires month >= 1
  {
    var currentYear := YearOfMonth(month);
    match s.earlyWithdrawal
    case Some(w) => if w.year == currentYear && month == currentYear * 12 then w.amount else 0.0
    case None => 0.0
  }

  /** The period the builder emits for a month. */
  function MonthPeriod(s: ScenarioSettings, month: int): Period
    requires month >= 1
  {
    Period(s.annualRate / 100.0 / 12.0, ContributionFor(s, month), WithdrawalFor(s, month))
  }

  /** Number of months the builder emits (`years * 12`, none for a non-positive horizon). */
  function MonthCount(s: ScenarioSettings): nat
  {
    if s.years > 0 then 12 * s.years else 0
  }

  /** The builder's output: month m (from 1) sits at index m - 1. */
  function Periods(s: ScenarioSettings): (ps: seq<Period>)
    ensures |ps| == MonthCount(s)
    ensures forall i :: 0 <= i < |ps| ==> ps[i].interestRate == s.annualRate / 100.0 / 12.0
  {
    seq(MonthCount(s), i requires 0 <= i => MonthPeriod(s, i + 1))
  }

  // ---------------------------------------------------------------------
  // Yearly roll-up
  // ---------------------------------------------------------------------

  /** The chart point for year y, sampled after month 12y of the trajectory. */
  function PointFor(principal: real, rs: seq<CalculationResult>, year: int): YearPoint
    requires 1 <= year && 12 * year <= |rs|
  {
    var balance := rs[12 * year - 1].balance;
    var contributions := principal + Total(rs[..12 * year], ContributionColumn);
    var withdrawals := Total(rs[..12 * year], WithdrawalColumn);
    YearPoint(year, Max(0.0, balance), contributions, Max(0.0, balance - (contributions - withdrawals)))
  }

  /** The points of years 1..n sampled from a trajectory. */
  function Rollup(principal: real, rs: seq<CalculationResult>, n: nat): (points: seq<YearPoint>)
    requires 12 * n <= |rs|
    ensures |points| == n
  {
    seq(n, i requires 0 <= i < n => PointFor(principal, rs, i + 1))
  }

  /** The series `generateYearlyData` returns. */
  function YearlyData(s: ScenarioSettings): (data: seq<YearPoint>)
    ensures |data| == MaxInt(0, s.years) + 1
    ensures data[0] == YearPoint(0, s.principal, s.principal, 0.0)
    ensures forall y :: 0 <= y < |data| ==> data[y].year == y
  {
    [YearPoint(0, s.principal, s.principal, 0.0)]
      + Rollup(s.principal, Run(s.principal, Periods(s)), MaxInt(0, s.years))
  }

  /** `generateYearlyData`: build the monthly periods, run the engine, sample every 12th month. */
  method GenerateYearlyData(settings: ScenarioSettings) returns (data: seq<YearPoint>)
    ensures data == YearlyData(settings)
  {
    var periods := BuildPeriods(settings);
    var calculator := new CompoundInterestCalculator(settings.principal, periods);
    var results := calculator.Calculate();
    data := RollUpYears(settings.principal, settings.years, results.periods);
  }

  /** The month loop of `generateYearlyData`: one period per month of the horizon. */
  method BuildPeriods(settings: ScenarioSettings) returns (periods: seq<Period>)
    ensures periods == Periods(settings)
  {
    var totalMonths := settings.years * 12;
    periods := [];
    var month := 1;
    while month <= totalMonths
      invariant 1 <= month <= MonthCount(settings) + 1
      invariant |periods| == month - 1
      invariant forall k :: 0 <= k < |periods| ==> periods[k] == MonthPeriod(settings, k + 1)
    {
      var currentYear := (month + 11) / 12;
      var monthlyContribution := settings.monthlyContribution;
      var monthlyWithdrawal := 0.0;
      if settings.contributionChanges.Some? {
        var change := FindChange(settings.contributionChanges.value, currentYear);
        if change.Some? {
          monthlyContribution := change.value.newAmount;
        }
      }
      if settings.earlyWithdrawal.Some? && settings.earlyWithdrawal.value.year == currentYear
         && month == currentYear * 12 {
        monthlyWithdrawal := settings.earlyWithdrawal.value.amount;
      }
      periods := periods + [Period(settings.annualRate / 100.0 / 12.0, monthlyContribution, monthlyWithdrawal)];
      month := month + 1;
    }
  }

  /** The inner month loop of the roll-up: add year `year`'s contributions and withdrawals to the running sums. */
  method AddYearFlows(principal: real, rs: seq<CalculationResult>, year: int, contributions: real, withdrawals: real)
    returns (cumulativeContributions: real, cumulativeWithdrawals: real)
    requires 1 <= year && 12 * year <= |rs|
    requires contributions == principal + Total(rs[..12 * (year - 1)], ContributionColumn)
    requires withdrawals == Total(rs[..12 * (year - 1)], WithdrawalColumn)
    ensures cumulativeContributions == principal + Total(rs[..12 * year], ContributionColumn)
    ensures cumulativeWithdrawals == Total(rs[..12 * year], WithdrawalColumn)
  {
    cumulativeContributions, cumulativeWithdrawals := contributions, withdrawals;
    var m := (year - 1) * 12;
    while m < year * 12 && m < |rs|
      invariant (year - 1) * 12 <= m <= year * 12
      invariant cumulativeContributions == principal + Total(rs[..m], ContributionColumn)
      invariant cumulativeWithdrawals == Total(rs[..m], WithdrawalColumn)
    {
      TotalPrefixSnoc(rs, m);
      cumulativeContributions := cumulativeContributions + rs[m].contribution;
      cumulativeWithdrawals := cumulativeWithdrawals + rs[m].withdrawal;
      m := m + 1;
    }
  }

  /**
   * The year loop of `generateYearlyData`: the year-0 point, then one point per
   * year whose last month exists, with contributions and withdrawals accumulated
   * month by month.
   */
  method RollUpYears(principal: real, years: int, rs: seq<CalculationResult>) returns (data: seq<YearPoint>)
    requires 12 * MaxInt(0, years) <= |rs|
    ensures data == [YearPoint(0, principal, principal, 0.0)] + Rollup(principal, rs, MaxInt(0, years))
  {
    ghost var points := Rollup(principal, rs, MaxInt(0, years));
    data := [YearPoint(0, principal, principal, 0.0)];
    var cumulativeContributions := principal;
    var cumulativeWithdrawals := 0.0;
    var year := 1;
    while year <= years
      invariant 1 <= year <= MaxInt(0, years) + 1
      invariant data == [YearPoint(0, principal, principal, 0.0)] + points[..year - 1]
      invariant cumulativeContributions == principal + Total(rs[..12 * (year - 1)], ContributionColumn)
      invariant cumulativeWithdrawals == Total(rs[..12 * (year - 1)], WithdrawalColumn)
    {
      var monthIndex := year * 12 - 1;
      if monthIndex < |rs| {
        var periodResult := rs[monthIndex];
        cumulativeContributions, cumulativeWithdrawals :=
          AddYearFlows(principal, rs, year, cumulativeContributions, cumulativeWithdrawals);
        var netContributions := cumulativeContributions - cumulativeWithdrawals;
        var totalInterest := periodResult.balance - netContributions;
        data := data + [YearPoint(year, Max(0.0, periodResult.balance), cumulativeContributions,
                                  Max(0.0, totalInterest))];
        assert points[year - 1] == PointFor(principal, rs, year);
        assert points[..year] == points[..year - 1] + [points[year - 1]];
      }
      year := year + 1;
    }
    assert points[..year - 1] == points;
  }

  // ---------------------------------------------------------------------
  // Properties of the builder and the roll-up
  // ---------------------------------------------------------------------

  /** Month m's contribution is the amount of the first list entry whose year is at most ceil(m/12). */
  lemma {:induction false} FirstApplicableChange(changes: seq<ContributionChange>, currentYear: int, i: nat)
    requires i < |changes| && changes[i].year <= currentYear
    requires forall j :: 0 <= j < i ==> changes[j].year > currentYear
    ensures FindChange(changes, currentYear) == Some(changes[i])
  {
    if i > 0 {
      FirstApplicableChange(changes[1..], currentYear, i - 1);
    }
  }

  /** The month rule stated on list positions; with no applicable entry the base amount is used. */
  lemma MonthContribution(s: ScenarioSettings, month: int, changes: seq<ContributionChange>, i: nat)
    requires month >= 1 && s.contributionChanges == Some(changes)
    requires i < |changes| && changes[i].year <= YearOfMonth(month)
    requires forall j :: 0 <= j < i ==> changes[j].year > YearOfMonth(month)
    ensures ContributionFor(s, month) == changes[i].newAmount
  {
    FirstApplicableChange(changes, YearOfMonth(month), i);
  }

  /** One change at year Y: months of earlier years use the base amount, later ones the new amount. */
  lemma SingleChange(s: ScenarioSettings, month: int)
    requires month >= 1
    requires s.contributionChanges.Some? && |s.contributionChanges.value| == 1
    ensures var c := s.contributionChanges.value[0];
            && (YearOfMonth(month) < c.year ==> ContributionFor(s, month) == s.monthlyContribution)
            && (YearOfMonth(month) >= c.year ==> ContributionFor(s, month) == c.newAmount)
  {
  }

  /** Sorted by descending year, "first applicable" picks the latest applicable year. */
  lemma {:induction false} FirstIsLatestWhenDescending(changes: seq<ContributionChange>, currentYear: int)
    requires forall i, j :: 0 <= i < j < |changes| ==> changes[i].year >= changes[j].year
    ensures var r := FindChange(changes, currentYear);
            r.Some? ==> forall j :: 0 <= j < |changes| && changes[j].year <= currentYear ==> changes[j].year <= r.value.year
  {
    if changes != [] && changes[0].year > currentYear {
      FirstIsLatestWhenDescending(changes[1..], currentYear);
      var r := FindChange(changes, currentYear);
      if r.Some? {
        forall j | 0 <= j < |changes| && changes[j].year <= currentYear
          ensures changes[j].year <= r.value.year
        {
          assert j > 0;
          assert changes[1..][j - 1] == changes[j];
        }
      }
    }
  }

  /** An unsorted list shows the two rules differ: year 5 still takes the year-1 entry. */
  lemma FirstIsNotLatestInGeneral()
    ensures FindChange([ContributionChange(1, 100.0), ContributionChange(5, 500.0)], 5)
              == Some(ContributionChange(1, 100.0))
  {
  }

  /** Only month 12 * earlyWithdrawal.year can carry a withdrawal. */
  lemma WithdrawalOnlyAtYearEnd(s: ScenarioSettings, month: int)
    requires 1 <= month <= MonthCount(s)
    requires WithdrawalFor(s, month) != 0.0
    ensures s.earlyWithdrawal.Some?
    ensures month == s.earlyWithdrawal.value.year * 12
    ensures 1 <= s.earlyWithdrawal.value.year <= s.years
  {
  }

  /** A withdrawal year inside the horizon puts its amount on that year's last month. */
  lemma WithdrawalPlaced(s: ScenarioSettings)
    requires s.earlyWithdrawal.Some? && 1 <= s.earlyWithdrawal.value.year <= s.years
    ensures var m := s.earlyWithdrawal.value.year * 12;
            m <= MonthCount(s) && Periods(s)[m - 1].withdrawal == s.earlyWithdrawal.value.amount
  {
    var m := s.earlyWithdrawal.value.year * 12;
    assert YearOfMonth(m) == s.earlyWithdrawal.value.year;
  }

  /** Hence at most one period of the builder's output has a non-zero withdrawal. */
  lemma AtMostOneWithdrawal(s: ScenarioSettings, i: nat, j: nat)
    requires i < j < |Periods(s)|
    ensures Periods(s)[i].withdrawal == 0.0 || Periods(s)[j].withdrawal == 0.0
  {
    if Periods(s)[i].withdrawal != 0.0 && Periods(s)[j].withdrawal != 0.0 {
      WithdrawalOnlyAtYearEnd(s, i + 1);
      WithdrawalOnlyAtYearEnd(s, j + 1);
    }
  }

  /** Without events the builder emits the engine's fixed periods. */
  lemma NoEventsAreFixedPeriods(s: ScenarioSettings)
    requires s.years >= 0 && s.earlyWithdrawal.None?
    requires s.contributionChanges.None? || s.contributionChanges == Some([])
    ensures Periods(s) == CreateFixedPeriods(12 * s.years, s.annualRate / 100.0, s.monthlyContribution, 0.0)
  {
  }

  /** The closed form is the fold over the builder's periods when there are no events. */
  lemma ClosedFormIsFold(s: ScenarioSettings)
    requires s.years >= 0 && s.annualRate != 0.0 && s.earlyWithdrawal.None?
    requires s.contributionChanges.None? || s.contributionChanges == Some([])
    ensures CalculateCompoundInterest(s.principal, s.monthlyContribution, s.annualRate, s.years).totalValue
              == FinalBalance(s.principal, Run(s.principal, Periods(s)))
  {
    NoEventsAreFixedPeriods(s);
    FixedPeriodsClosedForm(s.principal, s.annualRate / 100.0, s.monthlyContribution, 12 * s.years);
    assert s.annualRate / 100.0 / 12.0 == s.annualRate / 100.0 / 12.0;
  }

  /** Sum of the builder's contributions over months 1..n. */
  function ContributionSum(s: ScenarioSettings, n: nat): real
  {
    if n == 0 then 0.0 else ContributionSum(s, n - 1) + ContributionFor(s, n)
  }

  lemma {:induction false} InputContributions(s: ScenarioSettings, n: nat)
    requires n <= MonthCount(s)
    ensures InputTotal(Periods(s)[..n], ContributionColumn) == ContributionSum(s, n)
  {
    if n > 0 {
      InputContributions(s, n - 1);
      assert Periods(s)[..n][..n - 1] == Periods(s)[..n - 1];
    }
  }

  /**
   * Year y's point: the value is the clamped balance after month 12y, and the
   * contributions are the principal plus the contributions of months 1..12y.
   */
  lemma YearPointFields(s: ScenarioSettings, y: int)
    requires 1 <= y <= s.years
    ensures var rs := Run(s.principal, Periods(s));
            && YearlyData(s)[y].totalValue == Max(0.0, rs[12 * y - 1].balance)
            && YearlyData(s)[y].totalContributions == s.principal + ContributionSum(s, 12 * y)
  {
    var ps := Periods(s);
    var rs := Run(s.principal, ps);
    YearlyDataAt(s, y);
    RunPrefix(s.principal, ps, 12 * y);
    RunKeepsFlows(s.principal, ps[..12 * y], ContributionColumn);
    InputContributions(s, 12 * y);
    assert Total(rs[..12 * y], ContributionColumn) == ContributionSum(s, 12 * y);
  }

  /** Point y of the series is sampled from the engine's run over the builder's periods. */
  lemma YearlyDataAt(s: ScenarioSettings, y: int)
    requires 1 <= y <= s.years
    ensures YearlyData(s)[y] == PointFor(s.principal, Run(s.principal, Periods(s)), y)
  {
    var rs := Run(s.principal, Periods(s));
    assert YearlyData(s)[y] == Rollup(s.principal, rs, s.years)[y - 1];
  }

  /**
   * Year y's interest is the engine's interest of months 1..12y clamped at
   * zero; unclamped, balance minus net contributions is that interest.
   */
  lemma YearPointInterest(s: ScenarioSettings, y: int)
    requires 1 <= y <= s.years
    ensures var rs := Run(s.principal, Periods(s));
            var p := YearlyData(s)[y];
            && p.totalInterest >= 0.0
            && p.totalInterest == Max(0.0, Total(rs[..12 * y], InterestColumn))
            && (rs[12 * y - 1].balance - (p.totalContributions - Total(rs[..12 * y], WithdrawalColumn))
                  == Total(rs[..12 * y], InterestColumn))
  {
    var ps := Periods(s);
    YearlyDataAt(s, y);
    RunPrefix(s.principal, ps, 12 * y);
    BalanceIdentity(s.principal, ps[..12 * y]);
  }

  // ---------------------------------------------------------------------
  // Scenario list updaters
  // ---------------------------------------------------------------------

  /** `removeScenario`: the current-settings scenario "1" can never be removed. */
  function RemoveScenario(scenarios: seq<ComparisonScenario>, id: string): (r: seq<ComparisonScenario>)
    ensures id == "1" ==> r == scenarios
    ensures id != "1" ==> forall sc :: sc in r <==> sc in scenarios && sc.id != id
  {
    if id != "1" then
      FilterMembershipAll(scenarios, (sc: ComparisonScenario) => sc.id != id);
      Filter(scenarios, (sc: ComparisonScenario) => sc.id != id)
    else scenarios
  }

  /** Removing a scenario other than "1" distributes over concatenation, so the rest keep their order and count. */
  lemma RemoveScenarioKeepsOrder(a: seq<ComparisonScenario>, b: seq<ComparisonScenario>, id: string)
    requires id != "1"
    ensures RemoveScenario(a + b, id) == RemoveScenario(a, id) + RemoveScenario(b, id)
  {
    FilterAppend(a, b, (sc: ComparisonScenario) => sc.id != id);
  }

  /** Removing from a single scenario keeps it exactly when its id differs (or the id is "1"). */
  lemma RemoveScenarioSingle(sc: ComparisonScenario, id: string)
    ensures RemoveScenario([sc], id) == if id != "1" && sc.id == id then [] else [sc]
  {
    assert [sc][..0] == [];
  }

  /** The colour palette of the comparison chart. */
  const Palette: seq<string> := [
    "#ef4444", "#10b981", "#f59e0b", "#8b5cf6", "#06b6d4", "#f97316", "#84cc16", "#ec4899",
    "#6366f1", "#14b8a6", "#dc2626", "#059669", "#d97706", "#7c3aed", "#0891b2"]

  const PresetNames: seq<string> := [
    "Higher Contributions (+$200/mo)",
    "Early Withdrawal ($50k at year 15)",
    "Late Catch-up (2x contributions after year 20)",
    "Conservative Rate (4%)",
    "Start 10 Years Earlier",
    "Optimistic Rate (10%)"]

  /** The six preset variations of the current settings. */
  function PresetSettings(principal: real, monthlyContribution: real, annualRate: real, years: int)
    : (r: seq<ScenarioSettings>)
    ensures |r| == 6
  {
    [ ScenarioSettings(principal, monthlyContribution + 200.0, annualRate, years, None, None),
      ScenarioSettings(principal, monthlyContribution, annualRate, years,
                       Some(EarlyWithdrawal(years / 2, 50000.0)), None),
      ScenarioSettings(principal, monthlyContribution, annualRate, years, None,
                       Some([ContributionChange(MaxInt(20, years - 10), monthlyContribution * 2.0)])),
      ScenarioSettings(principal, monthlyContribution, 4.0, years, None, None),
      ScenarioSettings(principal, monthlyContribution, annualRate, years + 10, None, None),
      ScenarioSettings(principal, monthlyContribution, 10.0, years, None, None) ]
  }

  /**
   * `addPresetScenarios`: keep the scenarios with id "1", then the six presets,
   * each with its yearly series. `makeId(i)` stands for the time-and-random id of preset i.
   */
  function AddPresetScenarios(scenarios: seq<ComparisonScenario>, principal: real, monthlyContribution: real,
                              annualRate: real, years: int, makeId: int -> string)
    : (r: seq<ComparisonScenario>)
    ensures var kept := Filter(scenarios, (sc: ComparisonScenario) => sc.id == "1");
            && |r| == |kept| + 6
            && r[..|kept|] == kept
            && forall sc :: sc in kept <==> sc in scenarios && sc.id == "1"
    ensures var k := |r| - 6;
            var settings := PresetSettings(principal, monthlyContribution, annualRate, years);
            forall i :: 0 <= i < 6 ==>
              r[k + i] == ComparisonScenario(makeId(i), PresetNames[i], Palette[i], settings[i], YearlyData(settings[i]))
  {
    var settings := PresetSettings(principal, monthlyContribution, annualRate, years);
    var presets := seq(6, i requires 0 <= i < 6 =>
                          ComparisonScenario(makeId(i), PresetNames[i], Palette[i], settings[i], YearlyData(settings[i])));
    FilterMembershipAll(scenarios, (sc: ComparisonScenario) => sc.id == "1");
    Filter(scenarios, (sc: ComparisonScenario) => sc.id == "1") + presets
  }
}
