/**
 * The goal card: progress toward the target, the amount still missing, the
 * completed state, and the add-money form that reports a positive amount.
 */
module GoalCard {
  import opened Wrappers
  import opened Numbers
  import opened Settings

  /**
   * `Math.min(current / target * 100, 100)`. A zero target divides by zero in
   * JavaScript: a positive amount gives +Infinity and so 100, a negative one
   * -Infinity and zero NaN; those two are the absent results.
   */
  function ProgressPercentage(current: real, target: real): (r: Option<real>)
    ensures r.None? <==> target == 0.0 && current <= 0.0
    ensures r.Some? ==> r.value <= 100.0
    ensures target > 0.0 && current >= 0.0 ==> r.Some? && r.value >= 0.0
    ensures target > 0.0 ==> (r == Some(100.0) <==> current >= target)
    ensures target == 0.0 && current > 0.0 ==> r == Some(100.0)
    ensures target != 0.0 ==> r.Some? && (r.value == 100.0 || r.value * target == current * 100.0)
    ensures target != 0.0 ==> (r == Some(100.0) <==> current / target * 100.0 >= 100.0)
    ensures target > 0.0 && current < target ==> r.Some? && r.value * target == current * 100.0
  {
    if target == 0.0 then (if current > 0.0 then Some(100.0) else None)
    else
      var ratio := current / target * 100.0;
      assert ratio * target == current * 100.0;
      assert target > 0.0 ==> (ratio >= 100.0 <==> current >= target);
      Some(Min(ratio, 100.0))
  }

  /** `Math.max(target - current, 0)`. */
  function RemainingAmount(current: real, target: real): (r: real)
    ensures r >= 0.0
    ensures r == 0.0 <==> current >= target
    ensures r > 0.0 ==> current + r == target
  {
    Max(target - current, 0.0)
  }

  /** The card shows the completed banner instead of the add-money button when nothing remains. */
  predicate ShowsCompleted(goal: Goal)
  {
    !(RemainingAmount(goal.currentAmount, goal.targetAmount) > 0.0)
  }

  /** Completed exactly when the saved amount reaches the target; with a positive target that is full progress. */
  lemma CompletedIffReached(goal: Goal)
    ensures ShowsCompleted(goal) <==> goal.currentAmount >= goal.targetAmount
    ensures goal.targetAmount > 0.0 ==>
              (ShowsCompleted(goal) <==> ProgressPercentage(goal.currentAmount, goal.targetAmount) == Some(100.0))
  {
  }

  /** The card's form state. */
  class GoalCardForm {
    var showAddMoney: bool
    var contributionAmount: string

    constructor ()
      ensures !showAddMoney && contributionAmount == ""
    {
      showAddMoney := false;
      contributionAmount := "";
    }

    method OpenAddMoney()
      modifies this
      ensures showAddMoney && contributionAmount == old(contributionAmount)
    {
      showAddMoney := true;
    }

    /** The close and cancel buttons hide the form and keep the typed text. */
    method CloseAddMoney()
      modifies this
      ensures !showAddMoney && contributionAmount == old(contributionAmount)
    {
      showAddMoney := false;
    }

    /** The amount input's change handler. */
    method SetContributionAmount(text: string)
      modifies this
      ensures contributionAmount == text && showAddMoney == old(showAddMoney)
    {
      contributionAmount := text;
    }

    /**
     * `handleAddMoney`: a positive parsed amount is reported as the request
     * (goal id, amount) for `onAddMoney`, and the form is cleared and closed;
     * anything else (including an unparsable entry, NaN) reports nothing and
     * changes nothing. `parseFloat` stands for JavaScript's parser.
     */
    method HandleAddMoney(goal: Goal, parseFloat: string -> Option<real>) returns (request: Option<(string, real)>)
      modifies this
      ensures var amount := parseFloat(old(contributionAmount));
              if amount.Some? && amount.value > 0.0 then
                request == Some((goal.id, amount.value)) && contributionAmount == "" && !showAddMoney
              else
                request == None && contributionAmount == old(contributionAmount) && showAddMoney == old(showAddMoney)
    {
      var amount := parseFloat(contributionAmount);
      if amount.Some? && amount.value > 0.0 {
        request := Some((goal.id, amount.value));
        contributionAmount := "";
        showAddMoney := false;
      } else {
        request := None;
      }
    }
  }
}
