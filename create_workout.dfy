/** The custom-workout builder: a list of selected exercises edited in place, validated on
    save, then stored as one workout row followed by one exercise row per list position. */
module CreateWorkout {
  import opened Common
  import opened WorkoutExerciseCard

  /** A row of the exercise catalog the search box offers. */
  datatype Exercise = Exercise(
    id: string, name: string, category: string, muscleGroup: Option<string>, difficulty: Option<string>)

  /** The row inserted into `custom_workouts`; `userId` is `user?.id`. */
  datatype WorkoutRow = WorkoutRow(id: int, title: string, description: string, userId: Option<string>)

  /** A row of `custom_workout_exercises`. */
  datatype ExerciseRow = ExerciseRow(
    workoutId: int, name: string, sets: JsNumber, reps: Option<JsNumber>,
    time: Option<string>, rest: Option<string>, orderIndex: int)

  /** The entry `handleAddExercise` builds: the catalog name and 3 sets, nothing else. */
  function NewSelection(e: Exercise): (r: WorkoutExercise)
    ensures r.name == e.name && r.sets == Num(3)
    ensures r.reps.None? && r.time.None? && r.rest.None?
  {
    WorkoutExercise(e.name, Num(3), None, None, None)
  }

  /** `filter((_, i) => i !== index)`: every position except `index`, in order. */
  function RemoveAt<T>(s: seq<T>, index: int): (r: seq<T>)
    ensures 0 <= index < |s| ==> r == s[..index] + s[index + 1..]
    ensures !(0 <= index < |s|) ==> r == s
    ensures |r| == |s| - 1 <==> 0 <= index < |s|
  {
    if s == [] then []
    else if index == |s| - 1 then s[..|s| - 1]
    else RemoveAt(s[..|s| - 1], index) + [s[|s| - 1]]
  }

  /** The `exercisesData` mapping: one row per selected exercise, numbered by position. */
  function ExercisesData(workoutId: int, exercises: seq<WorkoutExercise>): (rows: seq<ExerciseRow>)
    ensures |rows| == |exercises|
    ensures forall i :: 0 <= i < |rows| ==> rows[i].orderIndex == i && rows[i].workoutId == workoutId
    ensures forall i :: 0 <= i < |rows| ==>
      var ex := exercises[i];
      rows[i].name == ex.name && rows[i].sets == ex.sets && rows[i].reps == ex.reps
      && rows[i].time == ex.time && rows[i].rest == ex.rest
  {
    if exercises == [] then []
    else
      var n := |exercises| - 1;
      var ex := exercises[n];
      ExercisesData(workoutId, exercises[..n]) + [ExerciseRow(workoutId, ex.name, ex.sets, ex.reps, ex.time, ex.rest, n)]
  }

  datatype SaveOutcome = TitleMissing | NoExercises | Saved | SaveFailed

  /** The validation of `handleSave`, in its order: the title first, then the list. */
  function ValidateSave(title: string, selected: seq<WorkoutExercise>): (r: Option<SaveOutcome>)
    ensures r == Some(TitleMissing) <==> title == ""
    ensures r == Some(NoExercises) <==> title != "" && selected == []
    ensures r.None? <==> title != "" && selected != []
  {
    if title == "" then Some(TitleMissing)
    else if selected == [] then Some(NoExercises)
    else None
  }

  class CreateWorkoutPage {
    var title: string
    var description: string
    var exercises: seq<Exercise>
    var selectedExercises: seq<WorkoutExercise>
    var isLoading: bool
    /** What the page has written to `custom_workouts` and `custom_workout_exercises`. */
    var workoutTable: seq<WorkoutRow>
    var exerciseTable: seq<ExerciseRow>
    var location: string
    /** The id of the signed-in user, as the auth context gives it. */
    const userId: Option<string>

    constructor (path: string, user: Option<string>)
      ensures title == "" && description == "" && exercises == [] && selectedExercises == []
      ensures !isLoading && workoutTable == [] && exerciseTable == [] && location == path
      ensures userId == user
    {
      userId := user;
      title, description := "", "";
      exercises, selectedExercises := [], [];
      isLoading := false;
      workoutTable, exerciseTable := [], [];
      location := path;
    }

    /** The catalog fetch on mount: a failed query leaves the list as it was. */
    method LoadExercises(result: Option<seq<Exercise>>)
      modifies this`exercises
      ensures exercises == if result.Some? then result.value else old(exercises)
    {
      if result.Some? {
        exercises := result.value;
      }
    }

    /** `handleAddExercise`: append the new selection; earlier entries stay as they were. */
    method HandleAddExercise(e: Exercise)
      modifies this`selectedExercises
      ensures selectedExercises == old(selectedExercises) + [NewSelection(e)]
    {
      selectedExercises := selectedExercises + [NewSelection(e)];
    }

    /** `handleUpdateExercise`: copy the list and assign one position. */
    method HandleUpdateExercise(index: int, exercise: WorkoutExercise)
      requires 0 <= index < |selectedExercises|
      modifies this`selectedExercises
      ensures |selectedExercises| == |old(selectedExercises)|
      ensures selectedExercises[index] == exercise
      ensures forall i :: 0 <= i < |selectedExercises| && i != index ==> selectedExercises[i] == old(selectedExercises)[i]
    {
      var copy := selectedExercises;
      copy := copy[index := exercise];
      selectedExercises := copy;
    }

    /** `handleRemoveExercise`: keep every position but `index`. */
    method HandleRemoveExercise(index: int)
      modifies this`selectedExercises
      ensures selectedExercises == RemoveAt(old(selectedExercises), index)
    {
      selectedExercises := RemoveAt(selectedExercises, index);
    }

    /** `handleSave`. `workoutInsert` is the id of the created workout row, or None when that insert
        fails; `exercisesInsertOk` says whether the bulk insert of the rows succeeds. */
    method HandleSave(workoutInsert: Option<int>, exercisesInsertOk: bool) returns (outcome: SaveOutcome)
      modifies this`isLoading, this`workoutTable, this`exerciseTable, this`location
      ensures ValidateSave(old(title), old(selectedExercises)).Some? ==>
                outcome == ValidateSave(old(title), old(selectedExercises)).value && unchanged(this)
      ensures ValidateSave(old(title), old(selectedExercises)).None? ==> !isLoading
      ensures ValidateSave(old(title), old(selectedExercises)).None? && workoutInsert.None? ==>
                outcome == SaveFailed && workoutTable == old(workoutTable)
                && exerciseTable == old(exerciseTable) && location == old(location)
      ensures ValidateSave(old(title), old(selectedExercises)).None? && workoutInsert.Some? ==>
                workoutTable == old(workoutTable) + [WorkoutRow(workoutInsert.value, old(title), old(description), userId)]
      ensures ValidateSave(old(title), old(selectedExercises)).None? && workoutInsert.Some? && exercisesInsertOk ==>
                outcome == Saved && location == "/dashboard/workout-plans"
                && exerciseTable == old(exerciseTable) + ExercisesData(workoutInsert.value, old(selectedExercises))
      ensures ValidateSave(old(title), old(selectedExercises)).None? && workoutInsert.Some? && !exercisesInsertOk ==>
                outcome == SaveFailed && exerciseTable == old(exerciseTable) && location == old(location)
    {
      var invalid := ValidateSave(title, selectedExercises);
      if invalid.Some? {
        return invalid.value;
      }
      isLoading := true;
      if workoutInsert.None? {
        outcome := SaveFailed;
      } else {
        var id := workoutInsert.value;
        workoutTable := workoutTable + [WorkoutRow(id, title, description, userId)];
        var rows := ExercisesData(id, selectedExercises);
        if exercisesInsertOk {
          exerciseTable := exerciseTable + rows;
          location := "/dashboard/workout-plans";
          outcome := Saved;
        } else {
          outcome := SaveFailed;
        }
      }
      isLoading := false;
    }
  }
}
