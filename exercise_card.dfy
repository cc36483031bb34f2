/** The card that edits one exercise of a custom workout: each input builds a copy of the
    exercise with one field replaced and hands it to `onUpdate`. */
module WorkoutExerciseCard {
  import opened Common

  /** A JavaScript number as `parseInt` produces it: an integer or NaN. */
  datatype JsNumber = Num(value: int) | NaN

  /** JavaScript truthiness of a number: neither 0 nor NaN. */
  predicate Truthy(n: JsNumber) {
    n.Num? && n.value != 0
  }

  datatype WorkoutExercise = WorkoutExercise(
    name: string,
    sets: JsNumber,
    reps: Option<JsNumber>,
    time: Option<string>,
    rest: Option<string>)

  /** The sets input: `{ ...exercise, sets: parseInt(text) }`. */
  function OnSetsChange(ex: WorkoutExercise, text: string, parseInt: string -> JsNumber): (r: WorkoutExercise)
    ensures r.sets == parseInt(text)
  {
    ex.(sets := parseInt(text))
  }

  /** The reps input: `{ ...exercise, reps: parseInt(text) }`. */
  function OnRepsChange(ex: WorkoutExercise, text: string, parseInt: string -> JsNumber): (r: WorkoutExercise)
    ensures r.reps == Some(parseInt(text))
  {
    ex.(reps := Some(parseInt(text)))
  }

  /** The time input stores the raw text. */
  function OnTimeChange(ex: WorkoutExercise, text: string): (r: WorkoutExercise)
    ensures r.time == Some(text)
  {
    ex.(time := Some(text))
  }

  /** The rest input stores the raw text. */
  function OnRestChange(ex: WorkoutExercise, text: string): (r: WorkoutExercise)
    ensures r.rest == Some(text)
  {
    ex.(rest := Some(text))
  }

  /** Each handler leaves every field other than its own exactly as it was; none touches `name`. */
  lemma HandlersReplaceOneField(ex: WorkoutExercise, text: string, parseInt: string -> JsNumber)
    ensures var r := OnSetsChange(ex, text, parseInt);
      r.name == ex.name && r.reps == ex.reps && r.time == ex.time && r.rest == ex.rest
    ensures var r := OnRepsChange(ex, text, parseInt);
      r.name == ex.name && r.sets == ex.sets && r.time == ex.time && r.rest == ex.rest
    ensures var r := OnTimeChange(ex, text);
      r.name == ex.name && r.sets == ex.sets && r.reps == ex.reps && r.rest == ex.rest
    ensures var r := OnRestChange(ex, text);
      r.name == ex.name && r.sets == ex.sets && r.reps == ex.reps && r.time == ex.time
  {
  }

  /** Edits to different fields commute, and a second edit of the same field overrides the first. */
  lemma EditsCommuteAndOverride(ex: WorkoutExercise, a: string, b: string, parseInt: string -> JsNumber)
    ensures OnTimeChange(OnRestChange(ex, a), b) == OnRestChange(OnTimeChange(ex, b), a)
    ensures OnSetsChange(OnRepsChange(ex, a, parseInt), b, parseInt)
         == OnRepsChange(OnSetsChange(ex, b, parseInt), a, parseInt)
    ensures OnTimeChange(OnTimeChange(ex, a), b) == OnTimeChange(ex, b)
    ensures OnSetsChange(OnSetsChange(ex, a, parseInt), b, parseInt) == OnSetsChange(ex, b, parseInt)
  {
  }

  /** What the reps input displays: `exercise.reps || ''`; None stands for the empty text. */
  function RepsShown(ex: WorkoutExercise): (r: Option<int>)
    ensures r.None? <==> ex.reps.None? || !Truthy(ex.reps.value)
    ensures r.Some? ==> ex.reps == Some(Num(r.value)) && r.value != 0
  {
    if ex.reps.Some? && Truthy(ex.reps.value) then Some(ex.reps.value.value) else None
  }

  /** What the time input displays: `exercise.time || ''`. */
  function TimeShown(ex: WorkoutExercise): (r: string)
    ensures ex.time.None? ==> r == ""
    ensures ex.time.Some? ==> r == ex.time.value
  {
    ex.time.GetOr("")
  }

  /** What the rest input displays: `exercise.rest || ''`. */
  function RestShown(ex: WorkoutExercise): (r: string)
    ensures ex.rest.None? ==> r == ""
    ensures ex.rest.Some? ==> r == ex.rest.value
  {
    ex.rest.GetOr("")
  }
}
