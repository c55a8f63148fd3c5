/** The dialog that creates an earnings goal: the driver choices, the end
    date chosen by goal type, the record built from the form, and the form
    state around a submission. */
module CreateGoalDialog {
  import opened Wrappers
  import Text
  import PaymentsHook
  import DriverEarnings
  import opened DriverGoalsHook

  /** The driver choices: the same sorted, duplicate-free list of truthy
      driver names as the earnings page. */
  function DriverChoices(payments: seq<PaymentsHook.Payment>): (r: seq<string>)
    ensures Text.StrictlySorted(r)
    ensures forall n :: n in r <==>
      n != "" && exists i :: 0 <= i < |payments| && payments[i].driverName == Some(n)
  {
    DriverEarnings.DriverNames(payments)
  }

  /** How far after the start of today a goal ends. */
  datatype Offset = Days(days: nat) | Months(months: nat)

  /** `getEndDate`: a day for daily goals, a week for weekly ones, and a
      month for monthly goals and for any other type. */
  function EndDateOffset(goalType: string): (o: Offset)
    ensures goalType == "daily" ==> o == Days(1)
    ensures goalType == "weekly" ==> o == Days(7)
    ensures goalType != "daily" && goalType != "weekly" ==> o == Months(1)
  {
    if goalType == "daily" then Days(1)
    else if goalType == "weekly" then Days(7)
    else Months(1)
  }

  /** The record `handleSubmit` passes to `createGoal`. `today` is the
      formatted current date, `endDate` the formatted end date, and `parse`
      stands for the browser's number parsing of a filled-in field. */
  function GoalData(
    driverName: string, goalType: string, targetAmount: string, targetTrips: string,
    bonusAmount: string, bonusPercentage: string, today: string, endDate: string,
    parse: string -> int): (d: CreateGoalData)
    ensures d.driverName == driverName && d.goalType == goalType
    ensures d.startDate == today && d.endDate == endDate
    ensures d.targetAmount == parse(targetAmount)
    ensures d.targetTrips.None? <==> targetTrips == ""
    ensures d.targetTrips.Some? ==> d.targetTrips.value == parse(targetTrips)
    ensures bonusAmount == "" ==> d.bonusAmount == 0
    ensures bonusAmount != "" ==> d.bonusAmount == parse(bonusAmount)
    ensures bonusPercentage == "" ==> d.bonusPercentage == 0
    ensures bonusPercentage != "" ==> d.bonusPercentage == parse(bonusPercentage)
  {
    CreateGoalData(
      driverName, goalType, parse(targetAmount),
      if targetTrips != "" then Some(parse(targetTrips)) else None,
      today, endDate,
      if bonusAmount != "" then parse(bonusAmount) else 0,
      if bonusPercentage != "" then parse(bonusPercentage) else 0)
  }

  /** A goal created from a form whose bonus fields were left empty carries
      no bonus, and its potential bonus is nothing. */
  lemma EmptyBonusFields(
    driverName: string, goalType: string, targetAmount: string, targetTrips: string,
    today: string, endDate: string, parse: string -> int)
    ensures GoalData(driverName, goalType, targetAmount, targetTrips, "", "", today, endDate, parse).bonusAmount == 0
    ensures GoalData(driverName, goalType, targetAmount, targetTrips, "", "", today, endDate, parse).bonusPercentage == 0
  {
  }

  /** The dialog's form fields and its loading flag. */
  class GoalForm {
    var driverName: string
    var goalType: string
    var targetAmount: string
    var targetTrips: string
    var bonusAmount: string
    var bonusPercentage: string
    var loading: bool

    /** The empty form: no driver, a monthly goal, no amounts. */
    predicate IsBlank()
      reads this
    {
      driverName == "" && goalType == "monthly" && targetAmount == ""
      && targetTrips == "" && bonusAmount == "" && bonusPercentage == ""
    }

    constructor ()
      ensures IsBlank() && !loading
    {
      driverName, goalType, targetAmount := "", "monthly", "";
      targetTrips, bonusAmount, bonusPercentage := "", "", "";
      loading := false;
    }

    /** The submit button is disabled while saving, without a driver or
        without a target amount. */
    predicate SubmitDisabled()
      reads this
    {
      loading || driverName == "" || targetAmount == ""
    }

    /** The start of `handleSubmit`: raise the loading flag and build the
        record. `endDateFor` formats the start of today moved by an offset. */
    method BeginSubmit(today: string, endDateFor: Offset -> string, parse: string -> int)
      returns (data: CreateGoalData)
      modifies this`loading
      ensures loading
      ensures data == GoalData(driverName, goalType, targetAmount, targetTrips,
                               bonusAmount, bonusPercentage, today,
                               endDateFor(EndDateOffset(goalType)), parse)
      ensures data.endDate == endDateFor(EndDateOffset(goalType))
    {
      loading := true;
      var endDate := endDateFor(EndDateOffset(goalType));
      data := GoalData(driverName, goalType, targetAmount, targetTrips,
                       bonusAmount, bonusPercentage, today, endDate, parse);
    }

    /** The end of `handleSubmit`: whatever `createGoal` answered, the flag
        drops, the form is cleared and the dialog asks to close. */
    method FinishSubmit(created: Option<DriverGoal>) returns (close: bool)
      modifies this
      ensures !loading && IsBlank() && close
    {
      loading := false;
      driverName, goalType, targetAmount := "", "monthly", "";
      targetTrips, bonusAmount, bonusPercentage := "", "", "";
      close := true;
    }
  }

  /** A blank form cannot be submitted, and an enabled button submits a
      record that names a driver and a filled-in target amount. */
  lemma SubmitGuard(f: GoalForm, today: string, endDate: string, parse: string -> int)
    ensures f.IsBlank() ==> f.SubmitDisabled()
    ensures !f.SubmitDisabled() ==>
      && !f.loading && f.targetAmount != ""
      && GoalData(f.driverName, f.goalType, f.targetAmount, f.targetTrips, f.bonusAmount,
                  f.bonusPercentage, today, endDate, parse).driverName != ""
  {
  }
}
