/** The workout history page: the rows of the remote `workout_history` table, the workouts of
    the day picked in the calendar, the days to highlight, and which message the list panel
    shows. The query itself is foreign; its outcome is an input. */
module WorkoutHistory {
  import opened Common

  /** One row of `workout_history`; `date` is the row's timestamp seen as day and hour. */
  datatype WorkoutHistoryItem = WorkoutHistoryItem(id: string, title: string, date: Stamp)

  /** What the query function gets back from the table: an error, or the rows. */
  datatype QueryResult = QueryError | Rows(rows: seq<WorkoutHistoryItem>)

  /** `data: history = []`: the query runs only for a signed-in user (`enabled: !!user`); an
      error is turned into []; without a user the data stays undefined and defaults to []. */
  function History(signedIn: bool, result: QueryResult): (h: seq<WorkoutHistoryItem>)
    ensures !signedIn ==> h == []
    ensures result.QueryError? ==> h == []
    ensures signedIn && result.Rows? ==> h == result.rows
  {
    if !signedIn then []
    else match result
      case QueryError => []
      case Rows(rows) => rows
  }

  /** `filteredWorkouts`: with a selected day, the items dated that day, in history order; with
      no selection, nothing. */
  function FilteredWorkouts(history: seq<WorkoutHistoryItem>, selected: Option<int>): (r: seq<WorkoutHistoryItem>)
    ensures selected.None? ==> r == []
    ensures selected.Some? ==> forall x :: x in r <==> x in history && x.date.day == selected.value
    ensures SubsequenceOf(r, history) && |r| <= |history|
  {
    match selected
    case None => []
    case Some(day) => Filter((x: WorkoutHistoryItem) => x.date.day == day, history)
  }

  /** `datesWithWorkouts`: one date per history item, in the same order. */
  function DatesWithWorkouts(history: seq<WorkoutHistoryItem>): (ds: seq<Stamp>)
    ensures |ds| == |history|
    ensures forall i :: 0 <= i < |history| ==> ds[i] == history[i].date
  {
    if history == [] then []
    else [history[0].date] + DatesWithWorkouts(history[1..])
  }

  /** A day is highlighted in the calendar exactly when selecting it lists at least one workout. */
  lemma {:induction false} HighlightedIffWorkoutsListed(history: seq<WorkoutHistoryItem>, day: int)
    ensures (exists i :: 0 <= i < |history| && DatesWithWorkouts(history)[i].day == day)
            <==> FilteredWorkouts(history, Some(day)) != []
  {
    if exists i :: 0 <= i < |history| && DatesWithWorkouts(history)[i].day == day {
      var i :| 0 <= i < |history| && DatesWithWorkouts(history)[i].day == day;
      HighlightedDayIsListed(history, day, i);
    }
    if FilteredWorkouts(history, Some(day)) != [] {
      var i := ListedDayIsHighlighted(history, day);
    }
  }

  lemma {:induction false} HighlightedDayIsListed(history: seq<WorkoutHistoryItem>, day: int, i: int)
    requires 0 <= i < |history| && DatesWithWorkouts(history)[i].day == day
    ensures history[i] in FilteredWorkouts(history, Some(day))
  {
    assert history[i] in history;
  }

  lemma {:induction false} ListedDayIsHighlighted(history: seq<WorkoutHistoryItem>, day: int) returns (i: int)
    requires FilteredWorkouts(history, Some(day)) != []
    ensures 0 <= i < |history| && DatesWithWorkouts(history)[i].day == day
  {
    var x := FilteredWorkouts(history, Some(day))[0];
    assert x in history;
    i :| 0 <= i < |history| && history[i] == x;
  }

  /** What the list card shows once loading is over. */
  datatype Panel = Loading | WorkoutList(items: seq<WorkoutHistoryItem>) | NoWorkoutsOnDay | NoWorkoutHistory

  function ShownPanel(isLoading: bool, history: seq<WorkoutHistoryItem>, selected: Option<int>): (p: Panel)
    ensures p == Loading <==> isLoading
    ensures p.WorkoutList? <==> !isLoading && FilteredWorkouts(history, selected) != []
    ensures p.WorkoutList? ==> p.items == FilteredWorkouts(history, selected)
    ensures p == NoWorkoutsOnDay <==> !isLoading && FilteredWorkouts(history, selected) == [] && history != []
    ensures p == NoWorkoutHistory <==> !isLoading && history == []
  {
    var filtered := FilteredWorkouts(history, selected);
    if isLoading then Loading
    else if |filtered| > 0 then WorkoutList(filtered)
    else if |history| > 0 then NoWorkoutsOnDay
    else NoWorkoutHistory
  }

  /** The plural suffix of "{n} workout{s} found". */
  function CountSuffix(n: nat): (s: string)
    ensures s == "" <==> n == 1
    ensures s != "" ==> s == "s"
  {
    if n != 1 then "s" else ""
  }
}
