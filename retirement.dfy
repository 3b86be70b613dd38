/**
 * The retirement simulator: a closed-form projection of savings at
 * retirement, the inflation-adjusted need, and the three-way status shown
 * to the user.
 */
module Retirement {
  import opened Numbers
  import opened CompoundInterest

  /** Ages and horizons are whole years; rates are percentages. */
  datatype RetirementInputs = RetirementInputs(
    currentAge: int,
    retirementAge: int,
    currentSavings: real,
    monthlyContribution: real,
    expectedReturn: real,
    desiredRetirementIncome: real,
    lifeExpectancy: int,
    inflationRate: real)

  datatype RetirementResult = RetirementResult(
    totalAtRetirement: real,
    adjustedDesiredIncome: real,
    totalNeeded: real,
    shortfall: real,
    sustainableAnnualWithdrawal: real,
    sustainableMonthlyWithdrawal: real,
    yearsToRetirement: int,
    retirementYears: int,
    totalContributions: real,
    interestEarned: real)

  /**
   * The projection divides by the monthly rate, so the expected return must be
   * non-zero; a retirement age below the current age raises 1+r and 1+inflation
   * to a negative power, which needs both bases non-zero.
   */
  predicate Defined(inputs: RetirementInputs)
  {
    && inputs.expectedReturn != 0.0
    && (inputs.retirementAge >= inputs.currentAge
        || (inputs.expectedReturn != -1200.0 && inputs.inflationRate != -100.0))
  }

  /** The future value of savings S and monthly contribution C over n months at monthly rate r. */
  function FutureValue(savings: real, contribution: real, monthlyRate: real, months: int): real
    requires monthlyRate != 0.0
    requires months >= 0 || monthlyRate != -1.0
  {
    var growth := IntPow(1.0 + monthlyRate, months);
    savings * growth + contribution * ((growth - 1.0) / monthlyRate)
  }

  /** `calculateRetirement`. */
  function CalculateRetirement(inputs: RetirementInputs): (r: RetirementResult)
    requires Defined(inputs)
    ensures r.yearsToRetirement == inputs.retirementAge - inputs.currentAge
    ensures r.retirementYears == inputs.lifeExpectancy - inputs.retirementAge
    ensures r.totalAtRetirement == FutureValue(inputs.currentSavings, inputs.monthlyContribution,
                                               inputs.expectedReturn / 1200.0, 12 * r.yearsToRetirement)
    ensures r.totalNeeded == r.adjustedDesiredIncome * r.retirementYears as real
    ensures r.shortfall == r.totalNeeded - r.totalAtRetirement
    ensures r.sustainableAnnualWithdrawal == 0.04 * r.totalAtRetirement
    ensures r.sustainableMonthlyWithdrawal * 12.0 == r.sustainableAnnualWithdrawal
    ensures r.totalContributions
              == inputs.currentSavings + inputs.monthlyContribution * (12 * r.yearsToRetirement) as real
    ensures r.totalContributions + r.interestEarned == r.totalAtRetirement
  {
    var yearsToRetirement := inputs.retirementAge - inputs.currentAge;
    var retirementYears := inputs.lifeExpectancy - inputs.retirementAge;
    var monthlyRate := inputs.expectedReturn / 100.0 / 12.0;
    var totalMonths := yearsToRetirement * 12;
    var growth := IntPow(1.0 + monthlyRate, totalMonths);
    var futureCurrentSavings := inputs.currentSavings * growth;
    var futureContributions := inputs.monthlyContribution * ((growth - 1.0) / monthlyRate);
    var totalAtRetirement := futureCurrentSavings + futureContributions;
    var inflationMultiplier := IntPow(1.0 + inputs.inflationRate / 100.0, yearsToRetirement);
    var adjustedDesiredIncome := inputs.desiredRetirementIncome * inflationMultiplier;
    var totalNeeded := adjustedDesiredIncome * retirementYears as real;
    var shortfall := totalNeeded - totalAtRetirement;
    var sustainableAnnualWithdrawal := totalAtRetirement * 0.04;
    RetirementResult(
      totalAtRetirement, adjustedDesiredIncome, totalNeeded, shortfall,
      sustainableAnnualWithdrawal, sustainableAnnualWithdrawal / 12.0,
      yearsToRetirement, retirementYears,
      inputs.currentSavings + inputs.monthlyContribution * totalMonths as real,
      totalAtRetirement - inputs.currentSavings - inputs.monthlyContribution * totalMonths as real)
  }

  /** The need is the desired income grown by inflation over the years to retirement. */
  lemma AdjustedIncome(inputs: RetirementInputs)
    requires Defined(inputs) && inputs.retirementAge >= inputs.currentAge
    ensures CalculateRetirement(inputs).adjustedDesiredIncome
              == inputs.desiredRetirementIncome
                 * Pow(1.0 + inputs.inflationRate / 100.0, inputs.retirementAge - inputs.currentAge)
  {
  }

  /** With no inflation the need is the desired income itself. */
  lemma NoInflation(inputs: RetirementInputs)
    requires Defined(inputs) && inputs.retirementAge >= inputs.currentAge && inputs.inflationRate == 0.0
    ensures CalculateRetirement(inputs).adjustedDesiredIncome == inputs.desiredRetirementIncome
  {
    PowOne(inputs.retirementAge - inputs.currentAge);
  }

  /** The projection is the month-by-month fold of the engine over fixed monthly periods. */
  lemma ProjectionIsFold(inputs: RetirementInputs)
    requires Defined(inputs) && inputs.retirementAge >= inputs.currentAge
    ensures var n := 12 * (inputs.retirementAge - inputs.currentAge);
            var periods := CreateFixedPeriods(n, inputs.expectedReturn / 100.0, inputs.monthlyContribution, 0.0);
            CalculateRetirement(inputs).totalAtRetirement
              == FinalBalance(inputs.currentSavings, Run(inputs.currentSavings, periods))
  {
    var n := 12 * (inputs.retirementAge - inputs.currentAge);
    FixedPeriodsClosedForm(inputs.currentSavings, inputs.expectedReturn / 100.0, inputs.monthlyContribution, n);
    assert inputs.expectedReturn / 1200.0 == inputs.expectedReturn / 100.0 / 12.0;
  }

  // ---------------------------------------------------------------------
  // Status classification
  // ---------------------------------------------------------------------

  datatype Status = OnTrack | Close | Adjust

  /** On track with no shortfall; close when the shortfall is under a fifth of the projection. */
  function StatusOf(r: RetirementResult): (s: Status)
    ensures s == OnTrack <==> r.shortfall <= 0.0
    ensures s == Close <==> 0.0 < r.shortfall < r.totalAtRetirement * 0.2
    ensures s == Adjust <==> 0.0 < r.shortfall && r.shortfall >= r.totalAtRetirement * 0.2
  {
    if r.shortfall <= 0.0 then OnTrack
    else if r.shortfall < r.totalAtRetirement * 0.2 then Close
    else Adjust
  }

  /** `getStatusColor`. */
  function StatusColor(r: RetirementResult): (c: string)
    ensures StatusOf(r) == OnTrack ==> c == "text-green-600"
    ensures StatusOf(r) == Close ==> c == "text-yellow-600"
    ensures StatusOf(r) == Adjust ==> c == "text-red-600"
  {
    if r.shortfall <= 0.0 then "text-green-600"
    else if r.shortfall < r.totalAtRetirement * 0.2 then "text-yellow-600"
    else "text-red-600"
  }

  datatype Icon = CheckCircle | AlertCircle

  /** `getStatusIcon`: the icon and its colour class. */
  function StatusIcon(r: RetirementResult): (i: (Icon, string))
    ensures StatusOf(r) == OnTrack ==> i == (CheckCircle, "text-green-600")
    ensures StatusOf(r) != OnTrack ==> i == (AlertCircle, "text-yellow-600")
  {
    if r.shortfall <= 0.0 then (CheckCircle, "text-green-600") else (AlertCircle, "text-yellow-600")
  }

  const OnTrackMessage := "Great! You're on track for your retirement goals."
  const CloseMessage := "You're close to your goals, but consider increasing contributions."
  const AdjustMessage := "You may need to adjust your retirement plan or increase savings."

  /** `getStatusMessage`. */
  function StatusMessage(r: RetirementResult): (m: string)
    ensures StatusOf(r) == OnTrack ==> m == OnTrackMessage
    ensures StatusOf(r) == Close ==> m == CloseMessage
    ensures StatusOf(r) == Adjust ==> m == AdjustMessage
  {
    if r.shortfall <= 0.0 then OnTrackMessage
    else if r.shortfall < r.totalAtRetirement * 0.2 then CloseMessage
    else AdjustMessage
  }

  /**
   * Colour, message and icon follow the classification: each status has its own
   * colour and message, and the check icon appears exactly when on track.
   */
  lemma StatusAgreement(r: RetirementResult)
    ensures StatusColor(r) == "text-green-600" <==> StatusOf(r) == OnTrack
    ensures StatusColor(r) == "text-yellow-600" <==> StatusOf(r) == Close
    ensures StatusColor(r) == "text-red-600" <==> StatusOf(r) == Adjust
    ensures StatusMessage(r) == OnTrackMessage <==> StatusOf(r) == OnTrack
    ensures StatusMessage(r) == CloseMessage <==> StatusOf(r) == Close
    ensures StatusMessage(r) == AdjustMessage <==> StatusOf(r) == Adjust
    ensures StatusIcon(r).0 == CheckCircle <==> StatusOf(r) == OnTrack
    ensures StatusOf(r) != OnTrack ==> StatusIcon(r) == (AlertCircle, "text-yellow-600")
  {
  }
}
