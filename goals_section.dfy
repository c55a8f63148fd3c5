/** The goals section of the earnings page: goals and bonuses narrowed to the
    selected driver, the active/completed split, bonus totals, the progress
    bar value, the potential bonus and the truncated lists. */
module GoalsSection {
  import Seqs
  import opened DriverGoalsHook

  /** `filteredGoals`: every goal for "all", otherwise the selected driver's. */
  function FilteredGoals(goals: seq<DriverGoal>, selectedDriver: string): (r: seq<DriverGoal>)
    ensures Seqs.IsSubsequence(r, goals)
    ensures selectedDriver == "all" ==> r == goals
    ensures selectedDriver != "all" ==> forall i :: 0 <= i < |r| ==> r[i].driverName == selectedDriver
    ensures selectedDriver != "all" ==>
      forall i :: 0 <= i < |goals| && goals[i].driverName == selectedDriver ==> goals[i] in r
  {
    if selectedDriver == "all" then
      Seqs.SubsequenceReflexive(goals);
      goals
    else
      Seqs.FilterIsSubsequence(goals, GoalOfDriver(selectedDriver));
      Seqs.Filter(goals, GoalOfDriver(selectedDriver))
  }

  /** `filteredBonuses`, by the same rule. */
  function FilteredBonuses(bonuses: seq<BonusRecord>, selectedDriver: string): (r: seq<BonusRecord>)
    ensures Seqs.IsSubsequence(r, bonuses)
    ensures selectedDriver == "all" ==> r == bonuses
    ensures selectedDriver != "all" ==> forall i :: 0 <= i < |r| ==> r[i].driverName == selectedDriver
    ensures selectedDriver != "all" ==>
      forall i :: 0 <= i < |bonuses| && bonuses[i].driverName == selectedDriver ==> bonuses[i] in r
  {
    if selectedDriver == "all" then
      Seqs.SubsequenceReflexive(bonuses);
      bonuses
    else
      Seqs.FilterIsSubsequence(bonuses, BonusOfDriver(selectedDriver));
      Seqs.Filter(bonuses, BonusOfDriver(selectedDriver))
  }

  function ActiveGoals(filtered: seq<DriverGoal>): seq<DriverGoal> {
    Seqs.Filter(filtered, IsActive)
  }

  function CompletedGoals(filtered: seq<DriverGoal>): seq<DriverGoal> {
    Seqs.Filter(filtered, IsCompleted)
  }

  /** The active and completed lists are order-preserving parts of the
      filtered goals that share no goal and together hold no more goals. */
  lemma ActiveCompletedSplit(filtered: seq<DriverGoal>)
    ensures Seqs.IsSubsequence(ActiveGoals(filtered), filtered)
    ensures Seqs.IsSubsequence(CompletedGoals(filtered), filtered)
    ensures forall i :: 0 <= i < |ActiveGoals(filtered)| ==> ActiveGoals(filtered)[i] !in CompletedGoals(filtered)
    ensures |ActiveGoals(filtered)| + |CompletedGoals(filtered)| <= |filtered|
  {
    Seqs.FilterIsSubsequence(filtered, IsActive);
    Seqs.FilterIsSubsequence(filtered, IsCompleted);
    Seqs.FilterDisjoint(filtered, IsActive, IsCompleted);
    Seqs.FilterCountBound2(filtered, IsActive, IsCompleted);
  }

  function TotalPendingBonus(filtered: seq<BonusRecord>): int {
    Seqs.Sum(Seqs.Filter(filtered, IsPendingBonus), BonusAmount)
  }

  function TotalPaidBonus(filtered: seq<BonusRecord>): int {
    Seqs.Sum(Seqs.Filter(filtered, IsPaid), BonusAmount)
  }

  /** The totals split over concatenated bonus lists, and with non-negative
      amounts the pending and paid totals stay within the sum of all bonuses. */
  lemma BonusTotals(a: seq<BonusRecord>, b: seq<BonusRecord>)
    ensures TotalPendingBonus(a + b) == TotalPendingBonus(a) + TotalPendingBonus(b)
    ensures TotalPaidBonus(a + b) == TotalPaidBonus(a) + TotalPaidBonus(b)
    ensures (forall i :: 0 <= i < |a| ==> a[i].amount >= 0) ==>
      TotalPendingBonus(a) + TotalPaidBonus(a) <= Seqs.Sum(a, BonusAmount)
  {
    Seqs.FilterAppend(a, b, IsPendingBonus);
    Seqs.SumAppend(Seqs.Filter(a, IsPendingBonus), Seqs.Filter(b, IsPendingBonus), BonusAmount);
    Seqs.FilterAppend(a, b, IsPaid);
    Seqs.SumAppend(Seqs.Filter(a, IsPaid), Seqs.Filter(b, IsPaid), BonusAmount);
    if forall i :: 0 <= i < |a| ==> a[i].amount >= 0 {
      Seqs.SumFilterBound2(a, IsPendingBonus, IsPaid, BonusAmount);
    }
  }

  /** With a driver selected, the section shows the same figures as that
      driver's summary from the hook. */
  lemma SectionMatchesDriverStats(goals: seq<DriverGoal>, bonuses: seq<BonusRecord>, driverName: string)
    requires driverName != "all"
    ensures |ActiveGoals(FilteredGoals(goals, driverName))| == GetDriverStats(goals, bonuses, driverName).activeGoals
    ensures |CompletedGoals(FilteredGoals(goals, driverName))| == GetDriverStats(goals, bonuses, driverName).completedGoals
    ensures TotalPaidBonus(FilteredBonuses(bonuses, driverName)) == GetDriverStats(goals, bonuses, driverName).totalBonusEarned
    ensures TotalPendingBonus(FilteredBonuses(bonuses, driverName)) == GetDriverStats(goals, bonuses, driverName).pendingBonus
  {
  }

  /** `Math.min(getGoalProgress(goal), 100)`. A NaN stays NaN, as `Math.min`
      returns NaN when either argument is. */
  function DisplayedProgress(r: Ratio): (d: Ratio)
    ensures !d.PlusInfinity?
    ensures d.Finite? ==> d.value <= 100.0
    ensures r.Finite? ==> d.Finite? && d.value <= r.value && (d.value == r.value || d.value == 100.0)
    ensures r.PlusInfinity? ==> d == Finite(100.0)
    ensures r.MinusInfinity? ==> d.MinusInfinity?
    ensures r.NotANumber? ==> d.NotANumber?
  {
    match r
    case Finite(v) => Finite(if v < 100.0 then v else 100.0)
    case PlusInfinity => Finite(100.0)
    case MinusInfinity => MinusInfinity
    case NotANumber => NotANumber
  }

  /** For a goal with a positive target, the bar is a finite value of at most
      100, full exactly when the target is reached. */
  lemma DisplayedProgressOfGoal(goal: DriverGoal)
    requires goal.targetAmount > 0
    ensures DisplayedProgress(GoalProgress(goal)).Finite?
    ensures DisplayedProgress(GoalProgress(goal)).value <= 100.0
    ensures DisplayedProgress(GoalProgress(goal)).value == 100.0 <==> goal.currentAmount >= goal.targetAmount
  {
    ProgressAgainstTarget(goal, goal);
  }

  /** `bonus_amount + current_amount * bonus_percentage / 100`. */
  function PotentialBonus(goal: DriverGoal): (b: real)
    ensures goal.bonusPercentage == 0 ==> b == goal.bonusAmount as real
    ensures b * 100.0 == goal.bonusAmount as real * 100.0 + goal.currentAmount as real * goal.bonusPercentage as real
  {
    goal.bonusAmount as real + (goal.currentAmount * goal.bonusPercentage) as real / 100.0
  }

  /** With a non-negative percentage, a goal with more earnings carries at
      least the potential bonus of one with less. */
  lemma PotentialBonusMonotone(goal: DriverGoal, later: DriverGoal)
    requires later.bonusAmount == goal.bonusAmount && later.bonusPercentage == goal.bonusPercentage
    requires goal.bonusPercentage >= 0 && goal.currentAmount <= later.currentAmount
    ensures PotentialBonus(goal) <= PotentialBonus(later)
  {
    assert goal.currentAmount * goal.bonusPercentage <= later.currentAmount * goal.bonusPercentage by {
      assert (later.currentAmount - goal.currentAmount) * goal.bonusPercentage >= 0;
    }
  }

  /** `completedGoals.slice(0, 6)`: the first six completed goals. */
  function ShownCompletedGoals(completed: seq<DriverGoal>): (r: seq<DriverGoal>)
    ensures |r| == if |completed| < 6 then |completed| else 6
    ensures r == completed[..|r|]
  {
    Seqs.Take(completed, 6)
  }

  /** `filteredBonuses.slice(0, 10)`: the first ten bonuses. */
  function ShownBonuses(filtered: seq<BonusRecord>): (r: seq<BonusRecord>)
    ensures |r| == if |filtered| < 10 then |filtered| else 10
    ensures r == filtered[..|r|]
  {
    Seqs.Take(filtered, 10)
  }

  /** `getGoalTypeLabel`: Spanish names of the three goal types; any other
      type is shown as it is. */
  function GoalTypeLabel(goalType: string): (l: string)
    ensures goalType == "daily" ==> l == "Diaria"
    ensures goalType == "weekly" ==> l == "Semanal"
    ensures goalType == "monthly" ==> l == "Mensual"
    ensures goalType != "daily" && goalType != "weekly" && goalType != "monthly" ==> l == goalType
  {
    if goalType == "daily" then "Diaria"
    else if goalType == "weekly" then "Semanal"
    else if goalType == "monthly" then "Mensual"
    else goalType
  }
}
