/**
 * The fee-impact simulation of the fee calculator page: a monthly loop that
 * adds the contribution, takes a load fee on it, applies growth and takes a
 * twelfth of the annual expense fee, reporting one row per year.
 */
module FeeCalculator {
  import opened Wrappers

  datatype OtherFees = OtherFees(tradingFee: real, managementFee: real, performanceFee: real)

  /** Fee rates are percentages; `customReturnRate` overrides the page's return rate. */
  datatype FeeScenario = FeeScenario(
    id: string,
    name: string,
    color: string,
    annualFeeRate: real,
    customReturnRate: Option<real>,
    otherFees: OtherFees)

  /** One yearly row of the simulation. */
  datatype FeeCalculation = FeeCalculation(
    year: int,
    totalValue: real,
    totalContributions: real,
    totalInterest: real,
    totalFees: real,
    feesThisYear: real)

  /** The three monthly rates a scenario is simulated with. */
  datatype FeeRates = FeeRates(monthlyReturn: real, annualFeeRate: real, loadFeeRate: real)

  /** The simulation's running state: value, contributions, all fees, and fees of the current year. */
  datatype FeeState = FeeState(value: real, contributions: real, fees: real, yearFees: real)

  /** The return rate used: the scenario's own when present, else the page's. */
  function EffectiveReturnRate(scenario: FeeScenario, annualReturnRate: real): (r: real)
    ensures scenario.customReturnRate.Some? ==> r == scenario.customReturnRate.value
    ensures scenario.customReturnRate.None? ==> r == annualReturnRate
  {
    scenario.customReturnRate.GetOr(annualReturnRate)
  }

  /**
   * The rates of a scenario: the monthly return, the annual fee (expense,
   * trading and management fees added, as a fraction) and the load fee
   * (the performance fee, as a fraction).
   */
  function RatesOf(scenario: FeeScenario, annualReturnRate: real): (r: FeeRates)
    ensures r.monthlyReturn * 1200.0 == EffectiveReturnRate(scenario, annualReturnRate)
    ensures r.annualFeeRate * 100.0
              == scenario.annualFeeRate + scenario.otherFees.tradingFee + scenario.otherFees.managementFee
    ensures r.loadFeeRate * 100.0 == scenario.otherFees.performanceFee
  {
    FeeRates(EffectiveReturnRate(scenario, annualReturnRate) / 100.0 / 12.0,
             (scenario.annualFeeRate + scenario.otherFees.tradingFee + scenario.otherFees.managementFee) / 100.0,
             scenario.otherFees.performanceFee / 100.0)
  }

  /** One month, in the page's order: contribute, take the load fee, grow, take the expense fee. */
  function MonthStep(st: FeeState, contribution: real, rates: FeeRates): (r: FeeState)
    ensures r.contributions == st.contributions + contribution
    ensures r.fees - st.fees == r.yearFees - st.yearFees
    ensures rates.monthlyReturn == 0.0 ==> r.value + (r.fees - st.fees) == st.value + contribution
    ensures rates.loadFeeRate == 0.0 && rates.annualFeeRate == 0.0 ==> r.fees == st.fees && r.yearFees == st.yearFees
  {
    var loadFee := contribution * rates.loadFeeRate;
    var grown := (st.value + contribution - loadFee) * (1.0 + rates.monthlyReturn);
    var fee := grown * (rates.annualFeeRate / 12.0);
    FeeState(grown - fee, st.contributions + contribution, st.fees + loadFee + fee, st.yearFees + loadFee + fee)
  }

  /** k months from a state. */
  function Months(st: FeeState, contribution: real, rates: FeeRates, k: nat): FeeState
  {
    if k == 0 then st else MonthStep(Months(st, contribution, rates, k - 1), contribution, rates)
  }

  /** The state before year 1: the load fee taken from the principal. */
  function InitialState(principal: real, rates: FeeRates): FeeState
  {
    var initialLoadFee := principal * rates.loadFeeRate;
    FeeState(principal - initialLoadFee, principal, initialLoadFee, initialLoadFee)
  }

  /** One year: twelve months with the year's fee counter restarted. */
  function YearStep(st: FeeState, contribution: real, rates: FeeRates): FeeState
  {
    Months(FeeState(st.value, st.contributions, st.fees, 0.0), contribution, rates, 12)
  }

  /** The state after y years. */
  function AfterYears(principal: real, contribution: real, rates: FeeRates, y: nat): FeeState
  {
    if y == 0 then InitialState(principal, rates)
    else YearStep(AfterYears(principal, contribution, rates, y - 1), contribution, rates)
  }

  /** The row of year y. */
  function Row(principal: real, contribution: real, rates: FeeRates, y: nat): FeeCalculation
  {
    var st := AfterYears(principal, contribution, rates, y);
    if y == 0 then FeeCalculation(0, st.value, principal, 0.0, st.fees, principal * rates.loadFeeRate)
    else FeeCalculation(y, st.value, st.contributions, st.value - st.contributions, st.fees, st.yearFees)
  }

  /** Rows for years 0..years (none for a negative horizon). */
  function RowCount(years: int): nat
  {
    if years >= 0 then years + 1 else 0
  }

  /** The rows `calculateFeeImpact` returns. */
  function FeeImpact(principal: real, monthlyContribution: real, annualReturnRate: real, years: int,
                     scenario: FeeScenario): (rows: seq<FeeCalculation>)
    ensures |rows| == RowCount(years)
    ensures forall y :: 0 <= y < |rows| ==> rows[y].year == y
  {
    var rates := RatesOf(scenario, annualReturnRate);
    seq(RowCount(years), y requires 0 <= y => Row(principal, monthlyContribution, rates, y))
  }

  /** The loop state of `CalculateFeeImpact`. */
  ghost predicate Simulated(principal: real, contribution: real, rates: FeeRates, y: nat,
                            value: real, contributions: real, fees: real)
  {
    var st := AfterYears(principal, contribution, rates, y);
    value == st.value && contributions == st.contributions && fees == st.fees
  }

  /** `calculateFeeImpact`: the nested year and month loops. */
  method CalculateFeeImpact(principal: real, monthlyContribution: real, annualReturnRate: real, years: int,
                            scenario: FeeScenario) returns (results: seq<FeeCalculation>)
    ensures results == FeeImpact(principal, monthlyContribution, annualReturnRate, years, scenario)
  {
    ghost var rows := FeeImpact(principal, monthlyContribution, annualReturnRate, years, scenario);
    results := [];
    var currentValue := principal;
    var totalContributions := principal;
    var totalFees := 0.0;

    var effectiveReturnRate := scenario.customReturnRate.GetOr(annualReturnRate);
    var monthlyReturn := effectiveReturnRate / 100.0 / 12.0;
    var annualFeeRate := (scenario.annualFeeRate + scenario.otherFees.tradingFee
                          + scenario.otherFees.managementFee) / 100.0;
    var loadFeeRate := scenario.otherFees.performanceFee / 100.0;
    ghost var rates := FeeRates(monthlyReturn, annualFeeRate, loadFeeRate);
    assert rates == RatesOf(scenario, annualReturnRate);

    var initialLoadFee := principal * loadFeeRate;
    currentValue := currentValue - initialLoadFee;
    totalFees := totalFees + initialLoadFee;

    var year := 0;
    while year <= years
      invariant 0 <= year <= RowCount(years)
      invariant results == rows[..year]
      invariant Simulated(principal, monthlyContribution, rates, if year == 0 then 0 else year - 1,
                          currentValue, totalContributions, totalFees)
    {
      if year == 0 {
        results := results + [FeeCalculation(0, currentValue, totalContributions, 0.0, totalFees, initialLoadFee)];
        assert rows[..1] == [rows[0]];
        year := year + 1;
        continue;
      }
      ghost var start := FeeState(currentValue, totalContributions, totalFees, 0.0);
      var yearFees := 0.0;
      var month := 0;
      while month < 12
        invariant 0 <= month <= 12
        invariant FeeState(currentValue, totalContributions, totalFees, yearFees)
                    == Months(start, monthlyContribution, rates, month)
      {
        currentValue, totalContributions, totalFees, yearFees :=
          ApplyMonth(currentValue, totalContributions, totalFees, yearFees, monthlyContribution,
                     monthlyReturn, annualFeeRate, loadFeeRate);
        month := month + 1;
      }
      assert FeeState(currentValue, totalContributions, totalFees, yearFees)
               == AfterYears(principal, monthlyContribution, rates, year);
      results := results + [FeeCalculation(year, currentValue, totalContributions,
                                           currentValue - totalContributions, totalFees, yearFees)];
      assert rows[..year + 1] == rows[..year] + [rows[year]];
      year := year + 1;
    }
    assert rows[..year] == rows;
  }

  /** The body of the month loop of `calculateFeeImpact`: one month's updates, in the page's order. */
  method ApplyMonth(value: real, contributions: real, fees: real, yearFeesSoFar: real, monthlyContribution: real,
                    monthlyReturn: real, annualFeeRate: real, loadFeeRate: real)
    returns (currentValue: real, totalContributions: real, totalFees: real, yearFees: real)
    ensures FeeState(currentValue, totalContributions, totalFees, yearFees)
              == MonthStep(FeeState(value, contributions, fees, yearFeesSoFar), monthlyContribution,
                           FeeRates(monthlyReturn, annualFeeRate, loadFeeRate))
  {
    currentValue, totalContributions, totalFees, yearFees := value, contributions, fees, yearFeesSoFar;
    currentValue := currentValue + monthlyContribution;
    totalContributions := totalContributions + monthlyContribution;
    var monthlyLoadFee := monthlyContribution * loadFeeRate;
    currentValue := currentValue - monthlyLoadFee;
    yearFees := yearFees + monthlyLoadFee;
    totalFees := totalFees + monthlyLoadFee;
    currentValue := currentValue * (1.0 + monthlyReturn);
    var monthlyFee := currentValue * (annualFeeRate / 12.0);
    currentValue := currentValue - monthlyFee;
    yearFees := yearFees + monthlyFee;
    totalFees := totalFees + monthlyFee;
  }

  // ---------------------------------------------------------------------
  // Properties of the simulation
  // ---------------------------------------------------------------------

  /** Year 0: the load fee is taken from the principal, nothing has grown yet. */
  lemma YearZeroRow(principal: real, monthlyContribution: real, annualReturnRate: real, years: int,
                    scenario: FeeScenario)
    requires years >= 0
    ensures var load := scenario.otherFees.performanceFee / 100.0;
            var row := FeeImpact(principal, monthlyContribution, annualReturnRate, years, scenario)[0];
            && row.totalValue == principal * (1.0 - load)
            && row.totalFees == principal * load && row.feesThisYear == principal * load
            && row.totalContributions == principal && row.totalInterest == 0.0
  {
  }

  /** The sum of k equal contributions. */
  function Paid(contribution: real, k: nat): real
  {
    if k == 0 then 0.0 else Paid(contribution, k - 1) + contribution
  }

  lemma {:induction false} PaidIsProduct(contribution: real, k: nat)
    ensures Paid(contribution, k) == k as real * contribution
  {
    if k > 0 {
      PaidIsProduct(contribution, k - 1);
    }
  }

  /** k months add k contributions. */
  lemma {:induction false} MonthsContributions(st: FeeState, contribution: real, rates: FeeRates, k: nat)
    ensures Months(st, contribution, rates, k).contributions == st.contributions + Paid(contribution, k)
  {
    if k > 0 {
      MonthsContributions(st, contribution, rates, k - 1);
    }
  }

  /** k months add to all fees exactly what they add to the year's fees. */
  lemma {:induction false} MonthsFees(st: FeeState, contribution: real, rates: FeeRates, k: nat)
    ensures var after := Months(st, contribution, rates, k);
            after.fees - st.fees == after.yearFees - st.yearFees
  {
    if k > 0 {
      MonthsFees(st, contribution, rates, k - 1);
    }
  }

  lemma {:induction false} PaidAdd(contribution: real, a: nat, b: nat)
    ensures Paid(contribution, a + b) == Paid(contribution, a) + Paid(contribution, b)
  {
    if b > 0 {
      PaidAdd(contribution, a, b - 1);
    }
  }

  lemma {:induction false} AfterYearsContributions(principal: real, contribution: real, rates: FeeRates, y: nat)
    ensures AfterYears(principal, contribution, rates, y).contributions == principal + Paid(contribution, 12 * y)
  {
    if y > 0 {
      AfterYearsContributions(principal, contribution, rates, y - 1);
      var st := AfterYears(principal, contribution, rates, y - 1);
      MonthsContributions(FeeState(st.value, st.contributions, st.fees, 0.0), contribution, rates, 12);
      PaidAdd(contribution, 12 * (y - 1), 12);
    }
  }

  /** Row y: contributions are the principal plus 12y monthly contributions; interest is value minus contributions. */
  lemma RowContributions(principal: real, monthlyContribution: real, annualReturnRate: real, years: int,
                         scenario: FeeScenario, y: nat)
    requires 1 <= y <= years
    ensures var row := FeeImpact(principal, monthlyContribution, annualReturnRate, years, scenario)[y];
            && row.totalContributions == principal + (12 * y) as real * monthlyContribution
            && row.totalInterest == row.totalValue - row.totalContributions
  {
    AfterYearsContributions(principal, monthlyContribution, RatesOf(scenario, annualReturnRate), y);
    PaidIsProduct(monthlyContribution, 12 * y);
  }

  /** Each year's total fees are the previous year's plus the fees of that year. */
  lemma RowFees(principal: real, monthlyContribution: real, annualReturnRate: real, years: int,
                scenario: FeeScenario, y: nat)
    requires 1 <= y <= years
    ensures var rows := FeeImpact(principal, monthlyContribution, annualReturnRate, years, scenario);
            rows[y].totalFees == rows[y - 1].totalFees + rows[y].feesThisYear
  {
    var rates := RatesOf(scenario, annualReturnRate);
    var st := AfterYears(principal, monthlyContribution, rates, y - 1);
    MonthsFees(FeeState(st.value, st.contributions, st.fees, 0.0), monthlyContribution, rates, 12);
  }

  /** With no growth and no fees, months only add contributions. */
  lemma {:induction false} MonthsWithoutRates(st: FeeState, contribution: real, k: nat)
    requires st.value == st.contributions
    ensures var after := Months(st, contribution, FeeRates(0.0, 0.0, 0.0), k);
            after.value == after.contributions
  {
    if k > 0 {
      MonthsWithoutRates(st, contribution, k - 1);
    }
  }

  lemma {:induction false} AfterYearsWithoutRates(principal: real, contribution: real, y: nat)
    ensures var st := AfterYears(principal, contribution, FeeRates(0.0, 0.0, 0.0), y);
            st.value == st.contributions
  {
    if y > 0 {
      AfterYearsWithoutRates(principal, contribution, y - 1);
      var st := AfterYears(principal, contribution, FeeRates(0.0, 0.0, 0.0), y - 1);
      MonthsWithoutRates(FeeState(st.value, st.contributions, st.fees, 0.0), contribution, 12);
    }
  }

  /** Zero return and zero fees: every row's value is exactly what was paid in. */
  lemma NoReturnNoFees(principal: real, monthlyContribution: real, annualReturnRate: real, years: int,
                       scenario: FeeScenario, y: nat)
    requires EffectiveReturnRate(scenario, annualReturnRate) == 0.0
    requires scenario.annualFeeRate == 0.0
    requires scenario.otherFees == OtherFees(0.0, 0.0, 0.0)
    requires y < RowCount(years)
    ensures var row := FeeImpact(principal, monthlyContribution, annualReturnRate, years, scenario)[y];
            row.totalValue == row.totalContributions
  {
    assert RatesOf(scenario, annualReturnRate) == FeeRates(0.0, 0.0, 0.0);
    AfterYearsWithoutRates(principal, monthlyContribution, y);
  }

  // ---------------------------------------------------------------------
  // Scenario updates
  // ---------------------------------------------------------------------

  /**
   * A `Partial<FeeScenario>`: each field is either absent (None) or the new
   * value; `customReturnRate` may be set to a value or to absent.
   */
  datatype FeeScenarioUpdate = FeeScenarioUpdate(
    id: Option<string>,
    name: Option<string>,
    color: Option<string>,
    annualFeeRate: Option<real>,
    customReturnRate: Option<Option<real>>,
    otherFees: Option<OtherFees>)

  /** `{ ...scenario, ...updates }`. */
  function Patch(scenario: FeeScenario, u: FeeScenarioUpdate): FeeScenario
  {
    FeeScenario(u.id.GetOr(scenario.id), u.name.GetOr(scenario.name), u.color.GetOr(scenario.color),
                u.annualFeeRate.GetOr(scenario.annualFeeRate), u.customReturnRate.GetOr(scenario.customReturnRate),
                u.otherFees.GetOr(scenario.otherFees))
  }

  /** `updateScenario`: patch the scenarios whose id matches, keep the rest. */
  function UpdateScenario(scenarios: seq<FeeScenario>, id: string, u: FeeScenarioUpdate): (r: seq<FeeScenario>)
    ensures |r| == |scenarios|
    ensures forall i :: 0 <= i < |r| && scenarios[i].id != id ==> r[i] == scenarios[i]
    ensures forall i :: 0 <= i < |r| && scenarios[i].id == id ==> r[i] == Patch(scenarios[i], u)
  {
    seq(|scenarios|, i requires 0 <= i < |scenarios| =>
          if scenarios[i].id == id then Patch(scenarios[i], u) else scenarios[i])
  }

  /** A field in the update is the field afterwards; a field not in it is kept. */
  lemma PatchFields(scenario: FeeScenario, u: FeeScenarioUpdate)
    ensures var p := Patch(scenario, u);
            && p.id == (if u.id.Some? then u.id.value else scenario.id)
            && p.name == (if u.name.Some? then u.name.value else scenario.name)
            && p.color == (if u.color.Some? then u.color.value else scenario.color)
            && p.annualFeeRate == (if u.annualFeeRate.Some? then u.annualFeeRate.value else scenario.annualFeeRate)
            && p.customReturnRate == (if u.customReturnRate.Some? then u.customReturnRate.value else scenario.customReturnRate)
            && p.otherFees == (if u.otherFees.Some? then u.otherFees.value else scenario.otherFees)
  {
  }

  /** Applying the same update twice changes nothing more. */
  lemma UpdateScenarioIdempotent(scenarios: seq<FeeScenario>, id: string, u: FeeScenarioUpdate)
    ensures UpdateScenario(UpdateScenario(scenarios, id, u), id, u) == UpdateScenario(scenarios, id, u)
  {
    var once := UpdateScenario(scenarios, id, u);
    forall i | 0 <= i < |once|
      ensures UpdateScenario(once, id, u)[i] == once[i]
    {
      if once[i].id == id {
        assert Patch(once[i], u) == once[i] by {
          if scenarios[i].id == id {
            assert Patch(Patch(scenarios[i], u), u) == Patch(scenarios[i], u);
          }
        }
      }
    }
  }
}
