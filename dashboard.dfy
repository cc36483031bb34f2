/** The dashboard: on mount it reads three local-storage keys — the latest entry of the
    workout history, today's calorie total and the saved BMI — and it colours the BMI chart. */
module Dashboard {
  import opened Common
  import opened CalorieCounter
  import opened BmiCalculator
  import opened WorkoutHistory

  /** The `bmiData` state; the BMI page stores a record of the same shape. */
  datatype BmiData = BmiData(bmi: Option<real>, category: string)

  /** The colour of each category on the chart: a six-digit hex colour, so never the grey
      placeholder. */
  function CategoryHex(c: Category): (hex: string)
    ensures |hex| == 7 && hex[0] == '#'
    ensures hex != "#gray"
  {
    match c
    case Underweight => "#3b82f6"
    case HealthyWeight => "#22c55e"
    case Overweight => "#eab308"
    case Obesity => "#ef4444"
  }

  /** `getBmiColor`: grey for a missing or zero BMI, then the thresholds of the category chain
      (negative values count as truthy and fall below 18.5). */
  function GetBmiColor(bmi: Option<real>): string {
    if bmi.None? || bmi.value == 0.0 then "#gray"
    else if bmi.value < 18.5 then "#3b82f6"
    else if bmi.value >= 18.5 && bmi.value < 25.0 then "#22c55e"
    else if bmi.value >= 25.0 && bmi.value < 30.0 then "#eab308"
    else "#ef4444"
  }

  /** The dashboard's colour thresholds are the BMI page's category boundaries: a present,
      non-zero BMI gets the colour of its category, and grey means exactly "nothing to show". */
  lemma BmiColorFollowsCategory(bmi: Option<real>)
    ensures bmi.Some? && bmi.value != 0.0 ==> GetBmiColor(bmi) == CategoryHex(BmiCategory(bmi.value))
    ensures GetBmiColor(bmi) == "#gray" <==> bmi.None? || bmi.value == 0.0
  {
    if bmi.Some? && bmi.value != 0.0 {
      CategoryRanges(bmi.value);
    }
  }

  /** Distinct categories get distinct chart colours. */
  lemma CategoryHexInjective(c: Category, d: Category)
    ensures CategoryHex(c) == CategoryHex(d) <==> c == d
  {
  }

  /** `bmiData.bmi || 0`: a missing BMI plots as 0, and a present one (0 included) as itself. */
  function ChartValue(bmi: Option<real>): (v: real)
    ensures v == bmi.GetOr(0.0)
    ensures v == 0.0 <==> GetBmiColor(bmi) == "#gray"
  {
    BmiColorFollowsCategory(bmi);
    if bmi.Some? && bmi.value != 0.0 then bmi.value else 0.0
  }

  /** The latest workout after the history key is read: the last stored item when the list is
      non-empty, otherwise the value held before. */
  function LatestWorkout(saved: Option<seq<WorkoutHistoryItem>>, current: Option<WorkoutHistoryItem>): (r: Option<WorkoutHistoryItem>)
    ensures saved.None? || saved.value == [] ==> r == current
    ensures saved.Some? && saved.value != [] ==> r.Some? && r.value in saved.value
    ensures saved.Some? && saved.value != [] ==> r.value == saved.value[|saved.value| - 1]
  {
    match saved
    case Some(history) => if |history| > 0 then Some(history[|history| - 1]) else current
    case None => current
  }

  /** A workout added at the end of the stored history is what the dashboard shows next. */
  lemma AppendedWorkoutIsLatest(history: seq<WorkoutHistoryItem>, w: WorkoutHistoryItem, current: Option<WorkoutHistoryItem>)
    ensures LatestWorkout(Some(history + [w]), current) == Some(w)
  {
  }

  class DashboardPage {
    var todayCalories: real
    var latestWorkout: Option<WorkoutHistoryItem>
    var bmiData: BmiData

    /** The initial state: 0 kcal, no workout, no BMI. */
    constructor ()
      ensures todayCalories == 0.0 && latestWorkout.None? && bmiData == BmiData(None, "")
    {
      todayCalories := 0.0;
      latestWorkout := None;
      bmiData := BmiData(None, "");
    }

    /** The mount effect. A missing key leaves its state as it was; the calorie total is the
        sum over the stored entries dated today, the same rule as the calorie counter's. */
    method Mount(savedHistory: Option<seq<WorkoutHistoryItem>>, savedEntries: Option<seq<FoodEntry>>,
                 today: int, savedBmi: Option<BmiData>)
      modifies this
      ensures latestWorkout == LatestWorkout(savedHistory, old(latestWorkout))
      ensures savedEntries.Some? ==> todayCalories == CaloriesOnDay(savedEntries.value, today)
      ensures savedEntries.None? ==> todayCalories == old(todayCalories)
      ensures bmiData == savedBmi.GetOr(old(bmiData))
    {
      if savedHistory.Some? {
        var history := savedHistory.value;
        if |history| > 0 {
          latestWorkout := Some(history[|history| - 1]);
        }
      }
      if savedEntries.Some? {
        var total := TotalCaloriesToday(savedEntries.value, today);
        TotalIsCaloriesOnDay(savedEntries.value, today);
        todayCalories := total;
      }
      if savedBmi.Some? {
        bmiData := savedBmi.value;
      }
    }
  }
}
