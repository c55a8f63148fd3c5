/** The driver-goals hook: earnings goals and bonus records per driver, goal
    progress, the per-driver summary, and the update a bonus status change
    sends. */
module DriverGoalsHook {
  import opened Wrappers
  import Seqs

  /** A row of the driver goals table. */
  datatype DriverGoal = DriverGoal(
    id: string,
    driverName: string,
    goalType: string,
    targetAmount: int,
    currentAmount: int,
    targetTrips: Option<int>,
    currentTrips: int,
    startDate: string,
    endDate: string,
    status: string,
    bonusAmount: int,
    bonusPercentage: int)

  /** A row of the bonus records table. */
  datatype BonusRecord = BonusRecord(
    id: string,
    driverName: string,
    goalId: Option<string>,
    bonusType: string,
    amount: int,
    description: Option<string>,
    status: string,
    paidAt: Option<string>)

  /** What `createGoal` inserts. */
  datatype CreateGoalData = CreateGoalData(
    driverName: string,
    goalType: string,
    targetAmount: int,
    targetTrips: Option<int>,
    startDate: string,
    endDate: string,
    bonusAmount: int,
    bonusPercentage: int)

  /** A number obtained by JavaScript division: a finite value, an infinity
      (a non-zero amount over a zero target) or NaN (zero over zero). */
  datatype Ratio = Finite(value: real) | PlusInfinity | MinusInfinity | NotANumber

  /** `getGoalProgress`: the current amount as a percentage of the target. */
  function GoalProgress(goal: DriverGoal): (r: Ratio)
    ensures goal.targetAmount != 0 ==>
      r.Finite? && r.value * goal.targetAmount as real == goal.currentAmount as real * 100.0
    ensures goal.targetAmount == 0 ==> (r.PlusInfinity? <==> goal.currentAmount > 0)
    ensures goal.targetAmount == 0 ==> (r.MinusInfinity? <==> goal.currentAmount < 0)
    ensures goal.targetAmount == 0 ==> (r.NotANumber? <==> goal.currentAmount == 0)
  {
    if goal.targetAmount != 0 then
      var q := goal.currentAmount as real / goal.targetAmount as real;
      assert q * goal.targetAmount as real == goal.currentAmount as real;
      Finite(q * 100.0)
    else if goal.currentAmount > 0 then PlusInfinity
    else if goal.currentAmount < 0 then MinusInfinity
    else NotANumber
  }

  /** With a positive target, progress is 100 exactly when the current amount
      equals the target, at least 100 exactly when it has reached it, and it
      grows with the current amount. */
  lemma ProgressAgainstTarget(goal: DriverGoal, later: DriverGoal)
    requires goal.targetAmount > 0 && later.targetAmount == goal.targetAmount
    requires goal.currentAmount <= later.currentAmount
    ensures GoalProgress(goal).value == 100.0 <==> goal.currentAmount == goal.targetAmount
    ensures GoalProgress(goal).value >= 100.0 <==> goal.currentAmount >= goal.targetAmount
    ensures GoalProgress(goal).value <= GoalProgress(later).value
  {
    var t := goal.targetAmount as real;
    var p := GoalProgress(goal).value;
    var q := GoalProgress(later).value;
    assert p * t == goal.currentAmount as real * 100.0;
    assert q * t == later.currentAmount as real * 100.0;
    assert (q - p) * t == (later.currentAmount - goal.currentAmount) as real * 100.0;
    assert (q - p) * t >= 0.0;
    if p >= 100.0 {
      assert (p - 100.0) * t >= 0.0;
      assert goal.currentAmount as real >= t;
    } else {
      assert (p - 100.0) * t < 0.0;
      assert goal.currentAmount as real < t;
    }
  }

  predicate IsActive(g: DriverGoal) { g.status == "active" }
  predicate IsCompleted(g: DriverGoal) { g.status == "completed" }
  predicate IsPaid(b: BonusRecord) { b.status == "paid" }
  predicate IsPendingBonus(b: BonusRecord) { b.status == "pending" }
  function BonusAmount(b: BonusRecord): int { b.amount }

  /** `(g) => g.driver_name === driverName`. */
  function GoalOfDriver(driverName: string): DriverGoal -> bool {
    (g: DriverGoal) => g.driverName == driverName
  }

  /** `(b) => b.driver_name === driverName`. */
  function BonusOfDriver(driverName: string): BonusRecord -> bool {
    (b: BonusRecord) => b.driverName == driverName
  }

  /** The driver's goals in one status, as a single condition. */
  function GoalOfDriverIn(driverName: string, status: string): DriverGoal -> bool {
    (g: DriverGoal) => g.driverName == driverName && g.status == status
  }

  /** The driver's bonuses in one status, as a single condition. */
  function BonusOfDriverIn(driverName: string, status: string): BonusRecord -> bool {
    (b: BonusRecord) => b.driverName == driverName && b.status == status
  }

  datatype DriverStats = DriverStats(
    activeGoals: nat,
    completedGoals: nat,
    totalBonusEarned: int,
    pendingBonus: int)

  /** `getDriverStats`: counts of the driver's active and completed goals,
      and the sums of the driver's paid and pending bonuses. */
  function GetDriverStats(goals: seq<DriverGoal>, bonuses: seq<BonusRecord>, driverName: string): (s: DriverStats)
    ensures s.activeGoals + s.completedGoals <= Seqs.Count(goals, GoalOfDriver(driverName))
    ensures s.activeGoals == |Seqs.Filter(goals, GoalOfDriverIn(driverName, "active"))|
    ensures s.completedGoals == |Seqs.Filter(goals, GoalOfDriverIn(driverName, "completed"))|
    ensures s.totalBonusEarned == Seqs.Sum(Seqs.Filter(bonuses, BonusOfDriverIn(driverName, "paid")), BonusAmount)
    ensures s.pendingBonus == Seqs.Sum(Seqs.Filter(bonuses, BonusOfDriverIn(driverName, "pending")), BonusAmount)
  {
    var driverGoals := Seqs.Filter(goals, GoalOfDriver(driverName));
    var driverBonuses := Seqs.Filter(bonuses, BonusOfDriver(driverName));
    Seqs.FilterCountBound2(driverGoals, IsActive, IsCompleted);
    Seqs.FilterFilter(goals, GoalOfDriver(driverName), IsActive, GoalOfDriverIn(driverName, "active"));
    Seqs.FilterFilter(goals, GoalOfDriver(driverName), IsCompleted, GoalOfDriverIn(driverName, "completed"));
    Seqs.FilterFilter(bonuses, BonusOfDriver(driverName), IsPaid, BonusOfDriverIn(driverName, "paid"));
    Seqs.FilterFilter(bonuses, BonusOfDriver(driverName), IsPendingBonus, BonusOfDriverIn(driverName, "pending"));
    DriverStats(
      |Seqs.Filter(driverGoals, IsActive)|,
      |Seqs.Filter(driverGoals, IsCompleted)|,
      Seqs.Sum(Seqs.Filter(driverBonuses, IsPaid), BonusAmount),
      Seqs.Sum(Seqs.Filter(driverBonuses, IsPendingBonus), BonusAmount))
  }

  /** Rows of other drivers do not matter: the summary over everything equals
      the summary over the driver's own rows. */
  lemma DriverStatsOwnRows(goals: seq<DriverGoal>, bonuses: seq<BonusRecord>, driverName: string)
    ensures GetDriverStats(goals, bonuses, driverName)
         == GetDriverStats(Seqs.Filter(goals, GoalOfDriver(driverName)),
                           Seqs.Filter(bonuses, BonusOfDriver(driverName)), driverName)
  {
    Seqs.FilterFilter(goals, GoalOfDriver(driverName), GoalOfDriver(driverName), GoalOfDriver(driverName));
    Seqs.FilterFilter(bonuses, BonusOfDriver(driverName), BonusOfDriver(driverName), BonusOfDriver(driverName));
  }

  /** Adding rows of other drivers anywhere after the existing ones leaves
      the summary unchanged. */
  lemma DriverStatsIgnoresOthers(
    goals: seq<DriverGoal>, bonuses: seq<BonusRecord>,
    otherGoals: seq<DriverGoal>, otherBonuses: seq<BonusRecord>, driverName: string)
    requires forall i :: 0 <= i < |otherGoals| ==> otherGoals[i].driverName != driverName
    requires forall i :: 0 <= i < |otherBonuses| ==> otherBonuses[i].driverName != driverName
    ensures GetDriverStats(goals + otherGoals, bonuses + otherBonuses, driverName)
         == GetDriverStats(goals, bonuses, driverName)
  {
    Seqs.FilterAppend(goals, otherGoals, GoalOfDriver(driverName));
    Seqs.FilterNone(otherGoals, GoalOfDriver(driverName));
    assert Seqs.Filter(goals + otherGoals, GoalOfDriver(driverName)) == Seqs.Filter(goals, GoalOfDriver(driverName));
    Seqs.FilterAppend(bonuses, otherBonuses, BonusOfDriver(driverName));
    Seqs.FilterNone(otherBonuses, BonusOfDriver(driverName));
    assert Seqs.Filter(bonuses + otherBonuses, BonusOfDriver(driverName)) == Seqs.Filter(bonuses, BonusOfDriver(driverName));
  }

  /** The `updates` object of `updateBonusStatus`: the status, and `paid_at`
      only when the bonus is being paid. */
  datatype BonusPatch = BonusPatch(status: string, paidAt: Option<string>)

  function BonusUpdate(status: string, now: string): (u: BonusPatch)
    ensures u.status == status
    ensures u.paidAt.Some? <==> status == "paid"
    ensures u.paidAt.Some? ==> u.paidAt.value == now
  {
    BonusPatch(status, if status == "paid" then Some(now) else None)
  }

  /** The row after the database applies a patch: the fields the patch holds
      are overwritten and every other field is kept. */
  function ApplyBonusPatch(b: BonusRecord, u: BonusPatch): (r: BonusRecord)
    ensures r.status == u.status
    ensures r.paidAt == (if u.paidAt.Some? then u.paidAt else b.paidAt)
    ensures r.(status := b.status, paidAt := b.paidAt) == b
  {
    b.(status := u.status, paidAt := if u.paidAt.Some? then u.paidAt else b.paidAt)
  }

  /** Marking a bonus paid stamps it with the time; any other status change
      leaves the stamp as it was, so a paid bonus moved back to pending
      keeps its old `paid_at`. */
  lemma BonusStatusChange(b: BonusRecord, status: string, now: string)
    ensures status == "paid" ==> ApplyBonusPatch(b, BonusUpdate(status, now)).paidAt == Some(now)
    ensures status != "paid" ==> ApplyBonusPatch(b, BonusUpdate(status, now)).paidAt == b.paidAt
    ensures ApplyBonusPatch(b, BonusUpdate(status, now)).status == status
  {
  }

  /** The hook's state: goals and bonuses as the last successful fetch left
      them, newest first, and the loading flag of `fetchAll`. */
  class GoalsStore {
    var goals: seq<DriverGoal>
    var bonuses: seq<BonusRecord>
    var loading: bool

    constructor ()
      ensures goals == [] && bonuses == [] && loading
    {
      goals, bonuses, loading := [], [], true;
    }

    method BeginFetchAll()
      modifies this`loading
      ensures loading
    {
      loading := true;
    }

    /** `fetchGoals`: success replaces the list (no rows becoming the empty
        list); an error keeps it. */
    method GoalsFetched(result: Result<seq<DriverGoal>, string>)
      modifies this`goals
      ensures result.Ok? ==> goals == result.value
      ensures result.Err? ==> goals == old(goals)
    {
      if result.Ok? {
        goals := result.value;
      }
    }

    /** `fetchBonuses`, in the same way. */
    method BonusesFetched(result: Result<seq<BonusRecord>, string>)
      modifies this`bonuses
      ensures result.Ok? ==> bonuses == result.value
      ensures result.Err? ==> bonuses == old(bonuses)
    {
      if result.Ok? {
        bonuses := result.value;
      }
    }

    method EndFetchAll()
      modifies this`loading
      ensures !loading
    {
      loading := false;
    }

    /** `getDriverStats` over the current goal and bonus lists. */
    function Stats(driverName: string): (s: DriverStats)
      reads this
      ensures s == GetDriverStats(goals, bonuses, driverName)
      ensures s.activeGoals + s.completedGoals <= Seqs.Count(goals, GoalOfDriver(driverName))
    {
      GetDriverStats(goals, bonuses, driverName)
    }
  }
}
