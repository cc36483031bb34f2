/** The calorie counter page: a list of food entries kept in component state and mirrored to
    local storage, the entries of today, their total, the four meal groups by hour of day and
    the summary against the daily goal. */
module CalorieCounter {
  import opened Common

  /** One logged food. `calories` is `Number(text)` of the form field. */
  datatype FoodEntry = FoodEntry(id: string, name: string, calories: real, time: string, date: Stamp)

  const DailyCalorieGoal: real := 2000.0

  // ----- Pure views over the entry list -----

  /** The entries whose calendar day is `today`, in list order. */
  function TodayEntries(entries: seq<FoodEntry>, today: int): (r: seq<FoodEntry>)
    ensures forall e :: e in r <==> e in entries && e.date.day == today
    ensures SubsequenceOf(r, entries)
  {
    Filter((e: FoodEntry) => e.date.day == today, entries)
  }

  /** `reduce((sum, entry) => sum + entry.calories, 0)`: a left fold from 0. */
  function SumCalories(entries: seq<FoodEntry>): real
  {
    if entries == [] then 0.0
    else SumCalories(entries[..|entries| - 1]) + entries[|entries| - 1].calories
  }

  /** Reference definition: every entry contributes its calories if it is dated `day`, else 0. */
  function CaloriesOnDay(entries: seq<FoodEntry>, day: int): real
  {
    if entries == [] then 0.0
    else (if entries[0].date.day == day then entries[0].calories else 0.0) + CaloriesOnDay(entries[1..], day)
  }

  /** The left fold also peels off the first element. */
  lemma {:induction false} SumCaloriesCons(e: FoodEntry, rest: seq<FoodEntry>)
    ensures SumCalories([e] + rest) == e.calories + SumCalories(rest)
  {
    if rest != [] {
      var last := rest[|rest| - 1];
      assert ([e] + rest)[..|[e] + rest| - 1] == [e] + rest[..|rest| - 1];
      SumCaloriesCons(e, rest[..|rest| - 1]);
    } else {
      assert ([e] + rest)[..|[e] + rest| - 1] == [];
    }
  }

  /** The total shown for today. */
  function TotalCaloriesToday(entries: seq<FoodEntry>, today: int): real
  {
    SumCalories(TodayEntries(entries, today))
  }

  /** `totalCaloriesToday` is the sum of calories over exactly the entries dated today. */
  lemma {:induction false} TotalIsCaloriesOnDay(entries: seq<FoodEntry>, today: int)
    ensures TotalCaloriesToday(entries, today) == CaloriesOnDay(entries, today)
  {
    if entries != [] {
      TotalIsCaloriesOnDay(entries[1..], today);
      var rest := TodayEntries(entries[1..], today);
      assert entries == [entries[0]] + entries[1..];
      if entries[0].date.day == today {
        assert TodayEntries(entries, today) == [entries[0]] + rest;
        SumCaloriesCons(entries[0], rest);
      } else {
        assert TodayEntries(entries, today) == rest;
      }
    }
  }

  /** Appending an entry changes today's total by its calories when it is dated today, else not at all. */
  lemma AppendChangesTotal(entries: seq<FoodEntry>, e: FoodEntry, today: int)
    ensures TotalCaloriesToday(entries + [e], today)
         == TotalCaloriesToday(entries, today) + (if e.date.day == today then e.calories else 0.0)
  {
    var p := (x: FoodEntry) => x.date.day == today;
    FilterAppend(p, entries, [e]);
    assert Filter(p, [e]) == (if p(e) then [e] else []) by {
      assert [e][1..] == [];
    }
    var t := Filter(p, entries);
    if p(e) {
      assert (t + [e])[..|t + [e]| - 1] == t;
    } else {
      assert t + [] == t;
    }
  }

  /** `filter(entry => entry.id !== id)`: the list without every entry carrying `id`. */
  function WithoutId(entries: seq<FoodEntry>, id: string): (r: seq<FoodEntry>)
    ensures forall e :: e in r <==> e in entries && e.id != id
    ensures SubsequenceOf(r, entries)
    ensures forall e: FoodEntry :: e.id != id ==> multiset(r)[e] == multiset(entries)[e]
  {
    Filter((e: FoodEntry) => e.id != id, entries)
  }

  /** Deleting an id that no entry carries leaves the list as it was. */
  lemma DeleteAbsentIdIsNoOp(entries: seq<FoodEntry>, id: string)
    requires forall i :: 0 <= i < |entries| ==> entries[i].id != id
    ensures WithoutId(entries, id) == entries
  {
    FilterKeepsAll((e: FoodEntry) => e.id != id, entries);
  }

  /** Deleting the same id twice is deleting it once. */
  lemma DeleteTwiceIsDeleteOnce(entries: seq<FoodEntry>, id: string)
    ensures WithoutId(WithoutId(entries, id), id) == WithoutId(entries, id)
  {
    FilterIdempotent((e: FoodEntry) => e.id != id, entries);
  }

  // ----- Meal groups -----

  datatype Meal = Breakfast | Lunch | Dinner | Snack

  /** The hour test each group's filter applies. */
  predicate InMeal(m: Meal, hour: int) {
    match m
    case Breakfast => hour >= 5 && hour < 11
    case Lunch => hour >= 11 && hour < 16
    case Dinner => hour >= 16 && hour < 22
    case Snack => hour < 5 || hour >= 22
  }

  /** The entries of a day list that a meal group shows. */
  function MealEntries(m: Meal, todays: seq<FoodEntry>): (r: seq<FoodEntry>)
    ensures forall e :: e in r <==> e in todays && InMeal(m, e.date.hour)
  {
    Filter((e: FoodEntry) => InMeal(m, e.date.hour), todays)
  }

  /** The group an hour falls in. */
  function MealOfHour(hour: int): Meal {
    if hour >= 5 && hour < 11 then Breakfast
    else if hour >= 11 && hour < 16 then Lunch
    else if hour >= 16 && hour < 22 then Dinner
    else Snack
  }

  /** The four hour tests partition the hours: every hour is in exactly one group. */
  lemma HourInExactlyOneMeal(hour: int)
    ensures InMeal(MealOfHour(hour), hour)
    ensures forall m :: InMeal(m, hour) ==> m == MealOfHour(hour)
  {
  }

  /** Together the four groups hold each of today's entries exactly as often as the day list does. */
  lemma MealsPartitionToday(todays: seq<FoodEntry>)
    ensures multiset(MealEntries(Breakfast, todays)) + multiset(MealEntries(Lunch, todays))
          + multiset(MealEntries(Dinner, todays)) + multiset(MealEntries(Snack, todays))
         == multiset(todays)
  {
    var b := Filter((e: FoodEntry) => InMeal(Breakfast, e.date.hour), todays);
    var l := Filter((e: FoodEntry) => InMeal(Lunch, e.date.hour), todays);
    var d := Filter((e: FoodEntry) => InMeal(Dinner, e.date.hour), todays);
    var s := Filter((e: FoodEntry) => InMeal(Snack, e.date.hour), todays);
    forall e: FoodEntry
      ensures (multiset(b) + multiset(l) + multiset(d) + multiset(s))[e] == multiset(todays)[e]
    {
      HourInExactlyOneMeal(e.date.hour);
    }
    assert multiset(b) + multiset(l) + multiset(d) + multiset(s) == multiset(todays);
  }

  // ----- Summary against the goal -----

  datatype SummaryMessage = Left(remaining: real) | Exceeded(excess: real)

  /** What the summary card shows: the message and whether the progress bar is red. */
  datatype Summary = Summary(message: SummaryMessage, barRed: bool)

  function GoalSummary(total: real, goal: real): Summary {
    Summary(if total < goal then Left(goal - total) else Exceeded(total - goal), total > goal)
  }

  /** The two message cases and the bar colour as the card promises them. */
  lemma GoalSummaryCases(total: real, goal: real)
    ensures GoalSummary(total, goal).message.Left? <==> total < goal
    ensures total < goal ==> GoalSummary(total, goal).message.remaining == goal - total > 0.0
    ensures total >= goal ==> GoalSummary(total, goal).message.excess >= 0.0
    ensures total >= goal ==> (GoalSummary(total, goal).message.excess == 0.0 <==> total == goal)
    ensures GoalSummary(total, goal).barRed <==> total > goal
  {
  }

  // ----- The page state -----

  datatype AddOutcome = MissingField | InvalidCalories | Added(entry: FoodEntry)

  class CalorieCounterPage {
    var foodEntries: seq<FoodEntry>
    /** The `calorieEntries` key of local storage, when set. */
    var stored: Option<seq<FoodEntry>>
    var dialogOpen: bool
    var foodName: string
    var calories: string
    var mealType: string

    constructor (storage: Option<seq<FoodEntry>>)
      ensures foodEntries == [] && stored == storage && !dialogOpen
      ensures foodName == "" && calories == "" && mealType == "breakfast"
    {
      foodEntries := [];
      stored := storage;
      dialogOpen := false;
      foodName := "";
      calories := "";
      mealType := "breakfast";
    }

    /** The mount effect: a stored list replaces the initial empty one. */
    method LoadEntries()
      modifies this
      ensures foodEntries == (if old(stored).Some? then old(stored).value else old(foodEntries))
      ensures stored == old(stored) && dialogOpen == old(dialogOpen)
      ensures foodName == old(foodName) && calories == old(calories) && mealType == old(mealType)
    {
      if stored.Some? {
        foodEntries := stored.value;
      }
    }

    /** `handleAddFoodEntry`. `number` is `Number(calories)` (None for NaN); `id`, `time` and
        `now` are what `Date.now()`, `format` and `new Date()` give at the moment of the call. */
    method HandleAddFoodEntry(number: Option<real>, id: string, time: string, now: Stamp)
      returns (outcome: AddOutcome)
      modifies this
      ensures (old(foodName) == "" || old(calories) == "") ==> outcome == MissingField
      ensures old(foodName) != "" && old(calories) != "" && (number.None? || number.value <= 0.0)
              ==> outcome == InvalidCalories
      ensures !outcome.Added? ==> unchanged(this)
      ensures outcome.Added? <==> old(foodName) != "" && old(calories) != "" && number.Some? && number.value > 0.0
      ensures outcome.Added? ==> outcome.entry == FoodEntry(id, old(foodName), number.value, time, now)
      ensures outcome.Added? ==> foodEntries == old(foodEntries) + [outcome.entry] && stored == Some(foodEntries)
      ensures outcome.Added? ==> foodName == "" && calories == "" && !dialogOpen && mealType == old(mealType)
    {
      if foodName == "" || calories == "" {
        return MissingField;
      }
      if number.None? || number.value <= 0.0 {
        return InvalidCalories;
      }
      var entry := FoodEntry(id, foodName, number.value, time, now);
      foodEntries := foodEntries + [entry];
      stored := Some(foodEntries);
      foodName := "";
      calories := "";
      dialogOpen := false;
      outcome := Added(entry);
    }

    /** `handleDeleteEntry`: drop every entry with that id and rewrite storage. */
    method HandleDeleteEntry(id: string)
      modifies this
      ensures foodEntries == WithoutId(old(foodEntries), id)
      ensures stored == Some(foodEntries)
      ensures dialogOpen == old(dialogOpen) && foodName == old(foodName)
      ensures calories == old(calories) && mealType == old(mealType)
    {
      foodEntries := WithoutId(foodEntries, id);
      stored := Some(foodEntries);
    }
  }
}
