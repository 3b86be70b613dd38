/**
 * The period-by-period compounding engine (CompoundInterestCalculator).
 *
 * Each period applies interest to the balance entering it, then adds the
 * contribution and removes the withdrawal. The engine returns one result per
 * period plus running totals.
 */
module CompoundInterest {
  import opened Numbers

  /** One period's transaction inputs; `interestRate` is already per period. */
  datatype Period = Period(interestRate: real, contribution: real, withdrawal: real)

  /** What one period produced. */
  datatype CalculationResult = CalculationResult(
    balance: real,
    interest: real,
    contribution: real,
    withdrawal: real,
    netChange: real)

  datatype Summary = Summary(
    totalInterest: real,
    totalContributions: real,
    totalWithdrawals: real,
    finalBalance: real)

  datatype CompoundingHistory = CompoundingHistory(periods: seq<CalculationResult>, summary: Summary)

  /** Names one of the summed columns of a result. */
  datatype Column = InterestColumn | ContributionColumn | WithdrawalColumn

  function Get(r: CalculationResult, c: Column): real
  {
    match c
    case InterestColumn => r.interest
    case ContributionColumn => r.contribution
    case WithdrawalColumn => r.withdrawal
  }

  /** Sum of one column over a sequence of results. */
  function Total(rs: seq<CalculationResult>, c: Column): real
  {
    if rs == [] then 0.0 else Total(rs[..|rs| - 1], c) + Get(rs[|rs| - 1], c)
  }

  /** One period applied to the balance entering it. */
  function Step(balanceIn: real, p: Period): (r: CalculationResult)
    ensures r.interest == balanceIn * p.interestRate
    ensures r.contribution == p.contribution && r.withdrawal == p.withdrawal
    ensures r.netChange == r.interest + p.contribution - p.withdrawal
    ensures r.balance == balanceIn + r.netChange
  {
    var interest := balanceIn * p.interestRate;
    var newBalance := balanceIn + interest + p.contribution - p.withdrawal;
    CalculationResult(newBalance, interest, p.contribution, p.withdrawal, newBalance - balanceIn)
  }

  /** The balance after a trajectory: the last result's, or the initial principal. */
  function FinalBalance(initialPrincipal: real, rs: seq<CalculationResult>): real
  {
    if rs == [] then initialPrincipal else rs[|rs| - 1].balance
  }

  /** The balance entering period k of a trajectory. */
  function BalanceIn(initialPrincipal: real, rs: seq<CalculationResult>, k: nat): real
    requires k <= |rs|
  {
    if k == 0 then initialPrincipal else rs[k - 1].balance
  }

  /** Reference fold: the trajectory of `periods` started from `initialPrincipal`. */
  function Run(initialPrincipal: real, periods: seq<Period>): (rs: seq<CalculationResult>)
    ensures |rs| == |periods|
  {
    if periods == [] then []
    else
      var prev := Run(initialPrincipal, periods[..|periods| - 1]);
      prev + [Step(FinalBalance(initialPrincipal, prev), periods[|periods| - 1])]
  }

  /** The summary that `calculate` reports for a trajectory. */
  function SummaryOf(initialPrincipal: real, rs: seq<CalculationResult>): Summary
  {
    Summary(Total(rs, InterestColumn), Total(rs, ContributionColumn), Total(rs, WithdrawalColumn),
            FinalBalance(initialPrincipal, rs))
  }

  /** Every result is one step applied to the previous result's balance. */
  ghost predicate Chained(initialPrincipal: real, periods: seq<Period>, rs: seq<CalculationResult>)
  {
    && |rs| == |periods|
    && forall k {:trigger periods[k]} :: 0 <= k < |rs| ==> rs[k] == Step(BalanceIn(initialPrincipal, rs, k), periods[k])
  }

  /**
   * The calculator object: it keeps its two inputs read-only (`const`),
   * so repeated calls to `Calculate` give identical histories.
   */
  class CompoundInterestCalculator {
    const initialPrincipal: real
    const periods: seq<Period>

    constructor (initialPrincipal: real, periods: seq<Period>)
      ensures this.initialPrincipal == initialPrincipal && this.periods == periods
    {
      this.initialPrincipal := initialPrincipal;
      this.periods := periods;
    }

    /** The source's `map` loop with its four running locals. */
    method Calculate() returns (h: CompoundingHistory)
      ensures h.periods == Run(initialPrincipal, periods)
      ensures h.summary == SummaryOf(initialPrincipal, h.periods)
    {
      var currentBalance := initialPrincipal;
      var totalInterest := 0.0;
      var totalContributions := 0.0;
      var totalWithdrawals := 0.0;
      var results: seq<CalculationResult> := [];
      var i := 0;
      while i < |periods|
        invariant 0 <= i <= |periods|
        invariant Accumulated(initialPrincipal, periods[..i], results,
                              currentBalance, totalInterest, totalContributions, totalWithdrawals)
      {
        var period := periods[i];
        var interest := currentBalance * period.interestRate;
        var newBalance := currentBalance + interest + period.contribution - period.withdrawal;
        AccumulatedStep(initialPrincipal, periods, i, results,
                        currentBalance, totalInterest, totalContributions, totalWithdrawals);
        totalInterest := totalInterest + interest;
        totalContributions := totalContributions + period.contribution;
        totalWithdrawals := totalWithdrawals + period.withdrawal;
        var result := CalculationResult(newBalance, interest, period.contribution, period.withdrawal,
                                         newBalance - currentBalance);
        assert result == Step(currentBalance, period);
        currentBalance := newBalance;
        results := results + [result];
        i := i + 1;
      }
      assert periods[..i] == periods;
      h := CompoundingHistory(results, Summary(totalInterest, totalContributions, totalWithdrawals, currentBalance));
    }
  }

  /** The loop state of `Calculate` after the periods `done`. */
  ghost predicate Accumulated(initialPrincipal: real, done: seq<Period>, results: seq<CalculationResult>,
                              currentBalance: real, totalInterest: real, totalContributions: real,
                              totalWithdrawals: real)
  {
    && results == Run(initialPrincipal, done)
    && currentBalance == FinalBalance(initialPrincipal, results)
    && totalInterest == Total(results, InterestColumn)
    && totalContributions == Total(results, ContributionColumn)
    && totalWithdrawals == Total(results, WithdrawalColumn)
  }

  /** One iteration of `Calculate` keeps its loop state. */
  lemma AccumulatedStep(initialPrincipal: real, periods: seq<Period>, i: nat, results: seq<CalculationResult>,
                        currentBalance: real, totalInterest: real, totalContributions: real,
                        totalWithdrawals: real)
    requires i < |periods|
    requires Accumulated(initialPrincipal, periods[..i], results,
                         currentBalance, totalInterest, totalContributions, totalWithdrawals)
    ensures var p := periods[i];
            var result := Step(currentBalance, p);
            Accumulated(initialPrincipal, periods[..i + 1], results + [result], result.balance,
                        totalInterest + result.interest, totalContributions + p.contribution,
                        totalWithdrawals + p.withdrawal)
  {
    RunSnoc(initialPrincipal, periods, i);
    TotalSnoc(results, Step(currentBalance, periods[i]));
  }

  /** Extending the periods by one extends the run by one step. */
  lemma RunSnoc(initialPrincipal: real, periods: seq<Period>, i: nat)
    requires i < |periods|
    ensures var prev := Run(initialPrincipal, periods[..i]);
            Run(initialPrincipal, periods[..i + 1]) == prev + [Step(FinalBalance(initialPrincipal, prev), periods[i])]
  {
    assert periods[..i + 1][..i] == periods[..i];
  }

  /** Appending one result adds its columns to the totals. */
  lemma TotalSnoc(rs: seq<CalculationResult>, x: CalculationResult)
    ensures forall c :: Total(rs + [x], c) == Total(rs, c) + Get(x, c)
  {
    assert (rs + [x])[..|rs|] == rs;
  }

  /** Extending a prefix of results by one adds that result's columns. */
  lemma TotalPrefixSnoc(rs: seq<CalculationResult>, m: nat)
    requires m < |rs|
    ensures forall c :: Total(rs[..m + 1], c) == Total(rs[..m], c) + Get(rs[m], c)
  {
    assert rs[..m + 1][..m] == rs[..m];
  }

  /** `createFixedPeriods`: n copies of one period at a twelfth of the annual rate. */
  function CreateFixedPeriods(numPeriods: nat, annualInterestRate: real,
                              monthlyContribution: real, monthlyWithdrawal: real): (ps: seq<Period>)
    ensures |ps| == numPeriods
    ensures forall i :: 0 <= i < numPeriods ==>
              ps[i] == Period(annualInterestRate / 12.0, monthlyContribution, monthlyWithdrawal)
  {
    seq(numPeriods, _ => Period(annualInterestRate / 12.0, monthlyContribution, monthlyWithdrawal))
  }

  /** `contributions[index] || 0`: the entry, or 0 past the end. */
  function EntryOrZero(xs: seq<real>, i: int): real
  {
    if 0 <= i < |xs| then xs[i] else 0.0
  }

  /** `createVaryingPeriods`: period i takes entry i of each list, or 0 past its end. */
  function CreateVaryingPeriods(numPeriods: nat, annualInterestRate: real,
                                contributions: seq<real>, withdrawals: seq<real>): (ps: seq<Period>)
    ensures |ps| == numPeriods
    ensures forall i :: 0 <= i < numPeriods ==>
              && ps[i].interestRate == annualInterestRate / 12.0
              && (i < |contributions| ==> ps[i].contribution == contributions[i])
              && (i >= |contributions| ==> ps[i].contribution == 0.0)
              && (i < |withdrawals| ==> ps[i].withdrawal == withdrawals[i])
              && (i >= |withdrawals| ==> ps[i].withdrawal == 0.0)
  {
    seq(numPeriods, i => Period(annualInterestRate / 12.0, EntryOrZero(contributions, i), EntryOrZero(withdrawals, i)))
  }

  // ---------------------------------------------------------------------
  // Properties of the fold
  // ---------------------------------------------------------------------

  /** A prefix of a run is the run of the prefix. */
  lemma {:induction false} RunPrefix(initialPrincipal: real, periods: seq<Period>, n: nat)
    requires n <= |periods|
    ensures Run(initialPrincipal, periods)[..n] == Run(initialPrincipal, periods[..n])
    decreases |periods|
  {
    if n < |periods| {
      var init := periods[..|periods| - 1];
      RunPrefix(initialPrincipal, init, n);
      assert init[..n] == periods[..n];
      assert Run(initialPrincipal, periods)[..|periods| - 1] == Run(initialPrincipal, init);
    } else {
      assert periods[..n] == periods;
    }
  }

  /** The run chains: period k starts from period k-1's balance, the first from the principal. */
  lemma {:induction false} RunIsChained(initialPrincipal: real, periods: seq<Period>)
    ensures Chained(initialPrincipal, periods, Run(initialPrincipal, periods))
  {
    if periods != [] {
      var init := periods[..|periods| - 1];
      RunIsChained(initialPrincipal, init);
      var prev := Run(initialPrincipal, init);
      var rs := Run(initialPrincipal, periods);
      assert rs[..|prev|] == prev;
      forall k | 0 <= k < |rs|
        ensures rs[k] == Step(BalanceIn(initialPrincipal, rs, k), periods[k])
      {
        if k < |prev| {
          assert rs[k] == prev[k];
          assert BalanceIn(initialPrincipal, rs, k) == BalanceIn(initialPrincipal, prev, k);
        }
      }
    }
  }

  /** Only the run chains: a chained trajectory is the run, so the result is unique. */
  lemma {:induction false} ChainedIsRun(initialPrincipal: real, periods: seq<Period>, rs: seq<CalculationResult>)
    requires Chained(initialPrincipal, periods, rs)
    ensures rs == Run(initialPrincipal, periods)
  {
    if periods != [] {
      var n := |periods| - 1;
      var init := periods[..n];
      var rs' := rs[..n];
      forall k | 0 <= k < |rs'|
        ensures rs'[k] == Step(BalanceIn(initialPrincipal, rs', k), init[k])
      {
        assert rs'[k] == rs[k];
        assert BalanceIn(initialPrincipal, rs', k) == BalanceIn(initialPrincipal, rs, k);
      }
      ChainedIsRun(initialPrincipal, init, rs');
      assert rs[n] == Step(BalanceIn(initialPrincipal, rs, n), periods[n]);
      assert rs == rs' + [rs[n]];
    }
  }

  /** Each result carries the update rule: interest, new balance and net change. */
  lemma RunStep(initialPrincipal: real, periods: seq<Period>, k: nat)
    requires k < |periods|
    ensures var rs := Run(initialPrincipal, periods);
            var b := BalanceIn(initialPrincipal, rs, k);
            && rs[k].interest == b * periods[k].interestRate
            && rs[k].balance == b + rs[k].interest + periods[k].contribution - periods[k].withdrawal
            && rs[k].contribution == periods[k].contribution
            && rs[k].withdrawal == periods[k].withdrawal
            && rs[k].netChange == rs[k].balance - b
  {
    var rs := Run(initialPrincipal, periods);
    RunIsChained(initialPrincipal, periods);
    assert rs[k] == Step(BalanceIn(initialPrincipal, rs, k), periods[k]);
  }

  /** Totals of a chained trajectory balance the books: principal plus flows gives the final balance. */
  lemma {:induction false} BalanceIdentity(initialPrincipal: real, periods: seq<Period>)
    ensures var rs := Run(initialPrincipal, periods);
            FinalBalance(initialPrincipal, rs)
              == initialPrincipal + Total(rs, InterestColumn) + Total(rs, ContributionColumn)
                 - Total(rs, WithdrawalColumn)
  {
    if periods != [] {
      var init := periods[..|periods| - 1];
      BalanceIdentity(initialPrincipal, init);
      var rs := Run(initialPrincipal, periods);
      assert rs[..|rs| - 1] == Run(initialPrincipal, init);
    }
  }

  /** With every rate 0 no interest accrues. */
  lemma {:induction false} ZeroRateNoInterest(initialPrincipal: real, periods: seq<Period>)
    requires forall k :: 0 <= k < |periods| ==> periods[k].interestRate == 0.0
    ensures Total(Run(initialPrincipal, periods), InterestColumn) == 0.0
  {
    if periods != [] {
      var init := periods[..|periods| - 1];
      ZeroRateNoInterest(initialPrincipal, init);
      var rs := Run(initialPrincipal, periods);
      assert rs[..|rs| - 1] == Run(initialPrincipal, init);
    }
  }

  /** Zero-rate law: the final balance is principal plus contributions minus withdrawals. */
  lemma ZeroRateFinalBalance(initialPrincipal: real, periods: seq<Period>)
    requires forall k :: 0 <= k < |periods| ==> periods[k].interestRate == 0.0
    ensures var rs := Run(initialPrincipal, periods);
            FinalBalance(initialPrincipal, rs)
              == initialPrincipal + Total(rs, ContributionColumn) - Total(rs, WithdrawalColumn)
  {
    BalanceIdentity(initialPrincipal, periods);
    ZeroRateNoInterest(initialPrincipal, periods);
  }

  /** The summed contribution and withdrawal columns are those of the inputs. */
  lemma {:induction false} RunKeepsFlows(initialPrincipal: real, periods: seq<Period>, c: Column)
    requires c != InterestColumn
    ensures Total(Run(initialPrincipal, periods), c) == InputTotal(periods, c)
  {
    if periods != [] {
      var init := periods[..|periods| - 1];
      RunKeepsFlows(initialPrincipal, init, c);
      var rs := Run(initialPrincipal, periods);
      assert rs[..|rs| - 1] == Run(initialPrincipal, init);
    }
  }

  /** Sum of one cash-flow column of the input periods (interest reads as 0). */
  function InputTotal(periods: seq<Period>, c: Column): real
  {
    if periods == [] then 0.0
    else
      var p := periods[|periods| - 1];
      InputTotal(periods[..|periods| - 1], c)
        + (match c
           case InterestColumn => 0.0
           case ContributionColumn => p.contribution
           case WithdrawalColumn => p.withdrawal)
  }

  /** Empty horizon: the final balance is the principal and every total is zero. */
  lemma EmptyRun(initialPrincipal: real)
    ensures SummaryOf(initialPrincipal, Run(initialPrincipal, [])) == Summary(0.0, 0.0, 0.0, initialPrincipal)
  {
  }

  /** Future value of a principal plus an ordinary annuity: P(1+r)^n + c((1+r)^n - 1)/r. */
  function AnnuityValue(principal: real, contribution: real, r: real, n: nat): real
    requires r != 0.0
  {
    principal * Pow(1.0 + r, n) + contribution * ((Pow(1.0 + r, n) - 1.0) / r)
  }

  /**
   * Fixed periods with no withdrawal follow the ordinary-annuity closed form,
   * where r is the per-period rate.
   */
  lemma {:induction false} FixedPeriodsClosedForm(principal: real, annualRate: real, contribution: real, n: nat)
    requires annualRate != 0.0
    ensures FinalBalance(principal, Run(principal, CreateFixedPeriods(n, annualRate, contribution, 0.0)))
              == AnnuityValue(principal, contribution, annualRate / 12.0, n)
  {
    var r := annualRate / 12.0;
    if n > 0 {
      FixedPeriodsClosedForm(principal, annualRate, contribution, n - 1);
      var b := FinalBalance(principal, Run(principal, CreateFixedPeriods(n - 1, annualRate, contribution, 0.0)));
      FixedPeriodsStep(principal, annualRate, contribution, n);
      AnnuityStep(principal, contribution, r, n, b);
    } else {
      AnnuityZero(principal, contribution, r);
    }
  }

  lemma AnnuityZero(p: real, c: real, r: real)
    requires r != 0.0
    ensures AnnuityValue(p, c, r, 0) == p
  {
    assert Pow(1.0 + r, 0) - 1.0 == 0.0;
    assert 0.0 / r == 0.0;
  }

  /** Running one more fixed period is one more step from the previous final balance. */
  lemma FixedPeriodsStep(principal: real, annualRate: real, contribution: real, n: nat)
    requires n > 0
    ensures var b := FinalBalance(principal, Run(principal, CreateFixedPeriods(n - 1, annualRate, contribution, 0.0)));
            FinalBalance(principal, Run(principal, CreateFixedPeriods(n, annualRate, contribution, 0.0)))
              == Step(b, Period(annualRate / 12.0, contribution, 0.0)).balance
  {
    var ps := CreateFixedPeriods(n, annualRate, contribution, 0.0);
    var ps' := CreateFixedPeriods(n - 1, annualRate, contribution, 0.0);
    assert ps[..n - 1] == ps';
    assert ps[n - 1] == Period(annualRate / 12.0, contribution, 0.0);
  }

  /** One step of the closed form: B(1+r) + c advances the exponent by one. */
  lemma AnnuityStep(p: real, c: real, r: real, n: nat, b: real)
    requires r != 0.0 && n > 0
    requires b == AnnuityValue(p, c, r, n - 1)
    ensures Step(b, Period(r, c, 0.0)).balance == AnnuityValue(p, c, r, n)
  {
    var q := Pow(1.0 + r, n - 1);
    var bigQ := Pow(1.0 + r, n);
    assert bigQ == (1.0 + r) * q;
    var d := (q - 1.0) / r;
    var e := (bigQ - 1.0) / r;
    assert b == p * q + c * d;
    assert d * r == q - 1.0;
    assert e * r == bigQ - 1.0;
    assert (d * (1.0 + r) + 1.0) * r == d * r * (1.0 + r) + r;
    CancelFactor(e, d * (1.0 + r) + 1.0, r);
    assert b + b * r + c == p * bigQ + c * (d * (1.0 + r) + 1.0);
  }

  lemma CancelFactor(x: real, y: real, r: real)
    requires r != 0.0 && x * r == y * r
    ensures x == y
  {
    assert (x - y) * r == 0.0;
  }
}
