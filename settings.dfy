/**
 * The settings store shared by the pages: interest-rate presets, the saved
 * risk profile and the savings goals with their contributions and
 * milestone flags.
 */
module Settings {
  import opened Wrappers
  import opened Seqs

  datatype InterestRatePresets = InterestRatePresets(conservative: real, average: real, optimistic: real)

  /** The presets the store starts from and resets to. */
  const DefaultPresets := InterestRatePresets(4.0, 7.0, 10.0)

  datatype RiskBand = Conservative | ModeratelyConservative | Moderate | ModeratelyAggressive | Aggressive

  datatype Allocation = Allocation(stocks: int, bonds: int, cash: int)

  /** A completed quiz; `completedAt` is a timestamp supplied by the caller. */
  datatype RiskProfile = RiskProfile(
    profile: RiskBand,
    score: int,
    answers: map<int, int>,
    completedAt: int,
    expectedReturn: string,
    allocation: Allocation,
    risk: string)

  /** A goal category (its icon component is not modelled). */
  datatype GoalCategory = GoalCategory(id: string, name: string, color: string, description: string)

  datatype GoalContribution = GoalContribution(id: string, amount: real, date: int, note: Option<string>)

  /** The flags for 25, 50, 75 and 100 percent of the target. */
  datatype Milestones = Milestones(m25: bool, m50: bool, m75: bool, m100: bool)

  const NoMilestones := Milestones(false, false, false, false)

  datatype Goal = Goal(
    id: string,
    name: string,
    targetAmount: real,
    currentAmount: real,
    targetDate: string,
    category: GoalCategory,
    createdDate: int,
    contributions: seq<GoalContribution>,
    milestones: Option<Milestones>)

  /** What a caller supplies for a new goal. */
  datatype GoalData = GoalData(name: string, targetAmount: real, targetDate: string, category: GoalCategory)

  /** What a caller supplies for a new contribution. */
  datatype ContributionData = ContributionData(amount: real, date: int, note: Option<string>)

  /** A `Partial<Goal>`: None leaves a field as it is. */
  datatype GoalUpdate = GoalUpdate(
    id: Option<string>,
    name: Option<string>,
    targetAmount: Option<real>,
    currentAmount: Option<real>,
    targetDate: Option<string>,
    category: Option<GoalCategory>,
    createdDate: Option<int>,
    contributions: Option<seq<GoalContribution>>,
    milestones: Option<Option<Milestones>>)

  // ---------------------------------------------------------------------
  // Recommended rate
  // ---------------------------------------------------------------------

  /** `getRecommendedRate`: the preset matching the profile, midpoints for the in-between bands. */
  function RecommendedRate(presets: InterestRatePresets, riskProfile: Option<RiskProfile>): (r: real)
    ensures riskProfile.None? ==> r == presets.average
    ensures riskProfile.Some? ==>
              match riskProfile.value.profile
              case Conservative => r == presets.conservative
              case ModeratelyConservative => r == (presets.conservative + presets.average) / 2.0
              case Moderate => r == presets.average
              case ModeratelyAggressive => r == (presets.average + presets.optimistic) / 2.0
              case Aggressive => r == presets.optimistic
  {
    match riskProfile
    case None => presets.average
    case Some(p) =>
      match p.profile
      case Conservative => presets.conservative
      case ModeratelyConservative => (presets.conservative + presets.average) / 2.0
      case Moderate => presets.average
      case ModeratelyAggressive => (presets.average + presets.optimistic) / 2.0
      case Aggressive => presets.optimistic
  }

  /** The position of a band from the most conservative (0) to the most aggressive (4). */
  function Rank(b: RiskBand): nat
  {
    match b
    case Conservative => 0
    case ModeratelyConservative => 1
    case Moderate => 2
    case ModeratelyAggressive => 3
    case Aggressive => 4
  }

  /** With ordered presets, a more aggressive profile never gets a lower rate. */
  lemma RecommendedRateMonotone(presets: InterestRatePresets, p: RiskProfile, q: RiskProfile)
    requires presets.conservative <= presets.average <= presets.optimistic
    requires Rank(p.profile) <= Rank(q.profile)
    ensures RecommendedRate(presets, Some(p)) <= RecommendedRate(presets, Some(q))
  {
  }

  /** With ordered presets the recommendation stays within them, and no profile means the average. */
  lemma RecommendedRateBounds(presets: InterestRatePresets, riskProfile: Option<RiskProfile>)
    requires presets.conservative <= presets.average <= presets.optimistic
    ensures presets.conservative <= RecommendedRate(presets, riskProfile) <= presets.optimistic
  {
  }

  // ---------------------------------------------------------------------
  // Goals
  // ---------------------------------------------------------------------

  /** The goal `addGoal` creates; `id` and `now` stand for the clock-derived id and date. */
  function NewGoal(data: GoalData, id: string, now: int): (g: Goal)
    ensures g.id == id && g.name == data.name && g.targetAmount == data.targetAmount
    ensures g.currentAmount == 0.0 && g.contributions == [] && g.milestones == Some(NoMilestones)
    ensures g.targetDate == data.targetDate && g.category == data.category
    ensures g.createdDate == now
  {
    Goal(id, data.name, data.targetAmount, 0.0, data.targetDate, data.category, now, [], Some(NoMilestones))
  }

  /** `addGoal`: append the new goal. */
  function AddGoalTo(goals: seq<Goal>, data: GoalData, id: string, now: int): (r: seq<Goal>)
    ensures |r| == |goals| + 1 && r[..|goals|] == goals && r[|goals|] == NewGoal(data, id, now)
  {
    goals + [NewGoal(data, id, now)]
  }

  /** `{ ...goal, ...updates }`. */
  function PatchGoal(g: Goal, u: GoalUpdate): Goal
  {
    Goal(u.id.GetOr(g.id), u.name.GetOr(g.name), u.targetAmount.GetOr(g.targetAmount),
         u.currentAmount.GetOr(g.currentAmount), u.targetDate.GetOr(g.targetDate), u.category.GetOr(g.category),
         u.createdDate.GetOr(g.createdDate), u.contributions.GetOr(g.contributions),
         u.milestones.GetOr(g.milestones))
  }

  /** `updateGoal`: patch the goals with the id, keep the others, in order. */
  function UpdateGoals(goals: seq<Goal>, id: string, u: GoalUpdate): (r: seq<Goal>)
    ensures |r| == |goals|
    ensures forall i :: 0 <= i < |r| && goals[i].id != id ==> r[i] == goals[i]
    ensures forall i :: 0 <= i < |r| && goals[i].id == id ==> r[i] == PatchGoal(goals[i], u)
  {
    seq(|goals|, i requires 0 <= i < |goals| => if goals[i].id == id then PatchGoal(goals[i], u) else goals[i])
  }

  /** An empty update changes no goal. */
  lemma EmptyUpdate(goals: seq<Goal>, id: string)
    ensures UpdateGoals(goals, id, GoalUpdate(None, None, None, None, None, None, None, None, None)) == goals
  {
  }

  /** `deleteGoal`: drop the goals with the id, keep the others in order. */
  function DeleteGoalFrom(goals: seq<Goal>, id: string): (r: seq<Goal>)
    ensures forall g :: g in r <==> g in goals && g.id != id
  {
    FilterMembershipAll(goals, (g: Goal) => g.id != id);
    Filter(goals, (g: Goal) => g.id != id)
  }

  /** Deleting an id no goal has keeps the list as it is. */
  lemma DeleteAbsent(goals: seq<Goal>, id: string)
    requires forall i :: 0 <= i < |goals| ==> goals[i].id != id
    ensures DeleteGoalFrom(goals, id) == goals
  {
    FilterAll(goals, (g: Goal) => g.id != id);
  }

  /** Deleting distributes over concatenation, so the survivors keep their order. */
  lemma DeleteKeepsOrder(a: seq<Goal>, b: seq<Goal>, id: string)
    ensures DeleteGoalFrom(a + b, id) == DeleteGoalFrom(a, id) + DeleteGoalFrom(b, id)
  {
    FilterAppend(a, b, (g: Goal) => g.id != id);
  }

  /** The left-fold sum of contribution amounts. */
  function SumAmounts(cs: seq<GoalContribution>): real
  {
    if cs == [] then 0.0 else SumAmounts(cs[..|cs| - 1]) + cs[|cs| - 1].amount
  }

  /**
   * Whether `current/target*100 >= k` holds in JavaScript, where a zero target
   * gives +Infinity for a positive amount, -Infinity for a negative one and
   * NaN (never >= k) for zero.
   */
  predicate Reaches(current: real, target: real, k: real)
  {
    if target == 0.0 then current > 0.0 else current / target * 100.0 >= k
  }

  /** The milestones after a contribution: a flag already set stays set, one reached is set. */
  function UpdateMilestones(m: Option<Milestones>, current: real, target: real): (r: Milestones)
    ensures var old_ := m.GetOr(NoMilestones);
            && (r.m25 <==> old_.m25 || Reaches(current, target, 25.0))
            && (r.m50 <==> old_.m50 || Reaches(current, target, 50.0))
            && (r.m75 <==> old_.m75 || Reaches(current, target, 75.0))
            && (r.m100 <==> old_.m100 || Reaches(current, target, 100.0))
  {
    var flags := m.GetOr(NoMilestones);
    Milestones(
      if Reaches(current, target, 25.0) && !flags.m25 then true else flags.m25,
      if Reaches(current, target, 50.0) && !flags.m50 then true else flags.m50,
      if Reaches(current, target, 75.0) && !flags.m75 then true else flags.m75,
      if Reaches(current, target, 100.0) && !flags.m100 then true else flags.m100)
  }

  /** A goal after one more contribution. */
  function WithContribution(g: Goal, c: GoalContribution): (r: Goal)
    ensures r.contributions == g.contributions + [c] && r.currentAmount == SumAmounts(r.contributions)
    ensures r.milestones == Some(UpdateMilestones(g.milestones, r.currentAmount, g.targetAmount))
    ensures r.(contributions := g.contributions, currentAmount := g.currentAmount, milestones := g.milestones) == g
  {
    var newContributions := g.contributions + [c];
    var newCurrentAmount := SumAmounts(newContributions);
    g.(contributions := newContributions, currentAmount := newCurrentAmount,
       milestones := Some(UpdateMilestones(g.milestones, newCurrentAmount, g.targetAmount)))
  }

  /** `addContribution`: record the contribution on the goals with the id. */
  function AddContributionTo(goals: seq<Goal>, goalId: string, data: ContributionData, id: string)
    : (r: seq<Goal>)
    ensures |r| == |goals|
    ensures forall i :: 0 <= i < |r| && goals[i].id != goalId ==> r[i] == goals[i]
  {
    var c := GoalContribution(id, data.amount, data.date, data.note);
    seq(|goals|, i requires 0 <= i < |goals| => if goals[i].id == goalId then WithContribution(goals[i], c) else goals[i])
  }

  /**
   * The goal with the id gains the contribution at the end, its amount becomes
   * the sum of all its contributions (the old amount plus the new one when it
   * was already that sum), its milestones are updated against the new amount,
   * and everything else is kept.
   */
  lemma ContributionRecorded(goals: seq<Goal>, goalId: string, data: ContributionData, id: string, i: nat)
    requires i < |goals| && goals[i].id == goalId
    ensures var g := goals[i];
            var r := AddContributionTo(goals, goalId, data, id)[i];
            && r.contributions == g.contributions + [GoalContribution(id, data.amount, data.date, data.note)]
            && r.currentAmount == SumAmounts(r.contributions)
            && (g.currentAmount == SumAmounts(g.contributions) ==> r.currentAmount == g.currentAmount + data.amount)
            && r.milestones == Some(UpdateMilestones(g.milestones, r.currentAmount, g.targetAmount))
            && r.(contributions := g.contributions, currentAmount := g.currentAmount, milestones := g.milestones) == g
  {
    var r := AddContributionTo(goals, goalId, data, id)[i];
    assert r.contributions[..|r.contributions| - 1] == goals[i].contributions;
  }

  /** Flags at 100 imply 75, 75 imply 50, 50 imply 25. */
  predicate DownwardClosed(m: Milestones)
  {
    (m.m100 ==> m.m75) && (m.m75 ==> m.m50) && (m.m50 ==> m.m25)
  }

  /** Reaching a higher percentage reaches every lower one. */
  lemma ReachesMonotone(current: real, target: real, j: real, k: real)
    requires j <= k && Reaches(current, target, k)
    ensures Reaches(current, target, j)
  {
  }

  /** A milestone once set is never cleared, and downward-closed flags stay downward closed. */
  lemma MilestonesPreserved(m: Option<Milestones>, current: real, target: real)
    ensures var before := m.GetOr(NoMilestones);
            var after := UpdateMilestones(m, current, target);
            && (before.m25 ==> after.m25) && (before.m50 ==> after.m50)
            && (before.m75 ==> after.m75) && (before.m100 ==> after.m100)
            && (DownwardClosed(before) ==> DownwardClosed(after))
  {
    var before := m.GetOr(NoMilestones);
    if DownwardClosed(before) {
      if Reaches(current, target, 100.0) { ReachesMonotone(current, target, 75.0, 100.0); }
      if Reaches(current, target, 75.0) { ReachesMonotone(current, target, 50.0, 75.0); }
      if Reaches(current, target, 50.0) { ReachesMonotone(current, target, 25.0, 50.0); }
    }
  }

  /** A positive target: the flag for k is set after the contribution exactly when it was set or the amount reaches k percent. */
  lemma MilestoneAtPositiveTarget(m: Option<Milestones>, current: real, target: real)
    requires target > 0.0
    ensures (UpdateMilestones(m, current, target).m50
             <==> m.GetOr(NoMilestones).m50 || current * 100.0 >= 50.0 * target)
  {
    assert current / target * 100.0 * target == current * 100.0;
    if current / target * 100.0 >= 50.0 {
      assert current * 100.0 >= 50.0 * target by {
        assert current / target * 100.0 * target >= 50.0 * target;
      }
    } else {
      assert current / target * 100.0 * target < 50.0 * target;
    }
  }

  /** Goals that start from `addGoal` keep downward-closed milestones through every contribution. */
  lemma GoalsStayDownwardClosed(goals: seq<Goal>, goalId: string, data: ContributionData, id: string)
    requires forall i :: 0 <= i < |goals| ==> goals[i].milestones.Some? && DownwardClosed(goals[i].milestones.value)
    ensures var r := AddContributionTo(goals, goalId, data, id);
            forall i :: 0 <= i < |r| ==> r[i].milestones.Some? && DownwardClosed(r[i].milestones.value)
  {
    var r := AddContributionTo(goals, goalId, data, id);
    forall i | 0 <= i < |r|
      ensures r[i].milestones.Some? && DownwardClosed(r[i].milestones.value)
    {
      if goals[i].id == goalId {
        MilestonesPreserved(goals[i].milestones, r[i].currentAmount, goals[i].targetAmount);
      }
    }
  }

  /** A new goal's flags are all clear, hence downward closed. */
  lemma NewGoalDownwardClosed(data: GoalData, id: string, now: int)
    ensures DownwardClosed(NewGoal(data, id, now).milestones.value)
  {
  }

  // ---------------------------------------------------------------------
  // The store
  // ---------------------------------------------------------------------

  /** The settings provider's state and its setters. */
  class SettingsStore {
    var interestRatePresets: InterestRatePresets
    var riskProfile: Option<RiskProfile>
    var goals: seq<Goal>

    /** The state before anything is loaded from storage. */
    constructor ()
      ensures interestRatePresets == DefaultPresets && riskProfile == None && goals == []
    {
      interestRatePresets := DefaultPresets;
      riskProfile := None;
      goals := [];
    }

    method UpdateInterestRatePresets(presets: InterestRatePresets)
      modifies this
      ensures interestRatePresets == presets
      ensures riskProfile == old(riskProfile) && goals == old(goals)
    {
      interestRatePresets := presets;
    }

    method ResetToDefaults()
      modifies this
      ensures interestRatePresets == DefaultPresets
      ensures riskProfile == old(riskProfile) && goals == old(goals)
    {
      interestRatePresets := DefaultPresets;
    }

    method UpdateRiskProfile(profile: RiskProfile)
      modifies this
      ensures riskProfile == Some(profile)
      ensures interestRatePresets == old(interestRatePresets) && goals == old(goals)
    {
      riskProfile := Some(profile);
    }

    method ClearRiskProfile()
      modifies this
      ensures riskProfile == None
      ensures interestRatePresets == old(interestRatePresets) && goals == old(goals)
    {
      riskProfile := None;
    }

    /** The recommended rate for the current presets and profile. */
    function GetRecommendedRate(): (r: real)
      reads this
      ensures r == RecommendedRate(interestRatePresets, riskProfile)
    {
      RecommendedRate(interestRatePresets, riskProfile)
    }

    method AddGoal(data: GoalData, id: string, now: int)
      modifies this
      ensures goals == AddGoalTo(old(goals), data, id, now)
      ensures interestRatePresets == old(interestRatePresets) && riskProfile == old(riskProfile)
    {
      goals := AddGoalTo(goals, data, id, now);
    }

    method UpdateGoal(id: string, u: GoalUpdate)
      modifies this
      ensures goals == UpdateGoals(old(goals), id, u)
      ensures interestRatePresets == old(interestRatePresets) && riskProfile == old(riskProfile)
    {
      goals := UpdateGoals(goals, id, u);
    }

    method DeleteGoal(id: string)
      modifies this
      ensures goals == DeleteGoalFrom(old(goals), id)
      ensures interestRatePresets == old(interestRatePresets) && riskProfile == old(riskProfile)
    {
      goals := DeleteGoalFrom(goals, id);
    }

    method AddContribution(goalId: string, data: ContributionData, id: string)
      modifies this
      ensures goals == AddContributionTo(old(goals), goalId, data, id)
      ensures interestRatePresets == old(interestRatePresets) && riskProfile == old(riskProfile)
    {
      goals := AddContributionTo(goals, goalId, data, id);
    }
  }
}
