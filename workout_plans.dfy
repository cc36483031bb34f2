/** The workout plans page: the intensity badge colour, the three-line exercise preview of a
    card, the detail lines of the dialog, and `startWorkout`, which records the chosen plan in
    the `workout_history` table. */
module WorkoutPlans {
  import opened Common

  // ----- Intensity badge -----

  /** `toLowerCase` on the ASCII letters. The only strings compared against are "low",
      "medium" and "high"; no other character lowers to one of their letters in a single code
      unit, so the comparisons come out as with full Unicode lowering. */
  function LowerChar(c: char): (l: char)
    ensures 'A' <= c <= 'Z' ==> l as int == c as int + 32
    ensures !('A' <= c <= 'Z') ==> l == c
  {
    if 'A' <= c <= 'Z' then (c as int + 32) as char else c
  }

  function ToLower(s: string): (t: string)
    ensures |t| == |s|
    ensures forall i :: 0 <= i < |s| ==> t[i] == LowerChar(s[i])
  {
    if s == [] then [] else [LowerChar(s[0])] + ToLower(s[1..])
  }

  /** `s` equals the lower-case word `w` up to the case of its letters. */
  predicate EqualsIgnoringCase(s: string, w: string) {
    |s| == |w| && forall i :: 0 <= i < |s| ==> LowerChar(s[i]) == w[i]
  }

  /** `getIntensityColor`: the switch over the lowered text. */
  function GetIntensityColor(intensity: string): string {
    var key := ToLower(intensity);
    if key == "low" then "bg-green-100 text-green-800"
    else if key == "medium" then "bg-yellow-100 text-yellow-800"
    else if key == "high" then "bg-red-100 text-red-800"
    else "bg-gray-100 text-gray-800"
  }

  /** Each level gets its colour whatever the case of its letters; everything else is grey. */
  lemma IntensityColorCases(intensity: string)
    ensures GetIntensityColor(intensity) == "bg-green-100 text-green-800" <==> EqualsIgnoringCase(intensity, "low")
    ensures GetIntensityColor(intensity) == "bg-yellow-100 text-yellow-800" <==> EqualsIgnoringCase(intensity, "medium")
    ensures GetIntensityColor(intensity) == "bg-red-100 text-red-800" <==> EqualsIgnoringCase(intensity, "high")
    ensures GetIntensityColor(intensity) == "bg-gray-100 text-gray-800" <==>
              !EqualsIgnoringCase(intensity, "low") && !EqualsIgnoringCase(intensity, "medium")
              && !EqualsIgnoringCase(intensity, "high")
  {
    LoweredEquals(intensity, "low");
    LoweredEquals(intensity, "medium");
    LoweredEquals(intensity, "high");
  }

  lemma LoweredEquals(s: string, w: string)
    ensures ToLower(s) == w <==> EqualsIgnoringCase(s, w)
  {
    if EqualsIgnoringCase(s, w) {
      assert ToLower(s) == w;
    }
  }

  /** Two spellings that differ only in case get the same badge. */
  lemma IntensityIgnoresCase(s: string, t: string)
    requires ToLower(s) == ToLower(t)
    ensures GetIntensityColor(s) == GetIntensityColor(t)
  {
  }

  // ----- The card preview -----

  /** The card's list: at most three names, and a "+n more" line when some are hidden. */
  datatype Preview = Preview(names: seq<string>, more: Option<nat>)

  function CardPreview(exercises: seq<string>): (p: Preview)
    ensures |p.names| == if |exercises| < 3 then |exercises| else 3
    ensures p.names == exercises[..|p.names|]
    ensures p.more.Some? <==> |exercises| > 3
  {
    var shown := if |exercises| < 3 then exercises else exercises[..3];
    Preview(shown, if |exercises| > 3 then Some(|exercises| - 3) else None)
  }

  /** The preview accounts for every exercise: those listed plus those counted in "+n more". */
  lemma PreviewAccountsForAll(exercises: seq<string>)
    ensures |CardPreview(exercises).names| + CardPreview(exercises).more.GetOr(0) == |exercises|
    ensures CardPreview(exercises).more.Some? ==> CardPreview(exercises).more.value > 0
  {
  }

  // ----- The exercise detail lines -----

  /** A catalog exercise; the counts and texts are optional. */
  datatype Exercise = Exercise(name: string, sets: Option<int>, reps: Option<int>, time: Option<string>, rest: Option<string>)

  predicate TruthyNumber(n: Option<int>) {
    n.Some? && n.value != 0
  }

  predicate TruthyText(t: Option<string>) {
    t.Some? && t.value != ""
  }

  datatype DetailLine = SetsTimesReps(sets: int, reps: int) | SetsTimesTime(sets: int, time: string) | RestLine(rest: string)

  /** The position of each kind of line in the dialog's markup. */
  function Rank(l: DetailLine): nat {
    match l
    case SetsTimesReps(_, _) => 0
    case SetsTimesTime(_, _) => 1
    case RestLine(_) => 2
  }

  /** The lines under an exercise in the dialog, in their order. */
  function DetailLines(e: Exercise): (lines: seq<DetailLine>)
    ensures SetsTimesReps(e.sets.GetOr(0), e.reps.GetOr(0)) in lines <==> TruthyNumber(e.sets) && TruthyNumber(e.reps)
    ensures SetsTimesTime(e.sets.GetOr(0), e.time.GetOr("")) in lines <==> TruthyNumber(e.sets) && TruthyText(e.time)
    ensures RestLine(e.rest.GetOr("")) in lines <==> TruthyText(e.rest)
    ensures |lines| <= 3
    ensures forall l :: l in lines ==>
              l == SetsTimesReps(e.sets.GetOr(0), e.reps.GetOr(0))
              || l == SetsTimesTime(e.sets.GetOr(0), e.time.GetOr("")) || l == RestLine(e.rest.GetOr(""))
    ensures forall i, j :: 0 <= i < j < |lines| ==> Rank(lines[i]) < Rank(lines[j])
  {
    (if TruthyNumber(e.sets) && TruthyNumber(e.reps) then [SetsTimesReps(e.sets.value, e.reps.value)] else [])
    + (if TruthyNumber(e.sets) && TruthyText(e.time) then [SetsTimesTime(e.sets.value, e.time.value)] else [])
    + (if TruthyText(e.rest) then [RestLine(e.rest.value)] else [])
  }

  // ----- startWorkout -----

  /** The row `startWorkout` inserts; `user_id` is whatever the signed-in user object carries. */
  datatype HistoryInsert = HistoryInsert(title: string, userId: Option<string>, date: int)

  datatype StartOutcome = LoginRequired | Started | StartFailed

  class WorkoutPlansPage {
    var historyTable: seq<HistoryInsert>
    var location: string

    constructor (rows: seq<HistoryInsert>, path: string)
      ensures historyTable == rows && location == path
    {
      historyTable := rows;
      location := path;
    }

    /** `startWorkout`: without a user nothing is inserted; otherwise one row with the plan's
        title is inserted, and the page moves to the history only when the insert succeeded.
        `user` is None when signed out, else the `id` the user object carries (if any). */
    method StartWorkout(title: string, user: Option<Option<string>>, now: int, insertOk: bool)
      returns (outcome: StartOutcome)
      modifies this
      ensures user.None? ==> outcome == LoginRequired && unchanged(this)
      ensures user.Some? && insertOk ==>
                && outcome == Started
                && historyTable == old(historyTable) + [HistoryInsert(title, user.value, now)]
                && location == "/dashboard/workout-history"
      ensures user.Some? && !insertOk ==> outcome == StartFailed && unchanged(this)
      ensures outcome == Started <==> user.Some? && insertOk
    {
      if user.None? {
        return LoginRequired;
      }
      if !insertOk {
        return StartFailed;
      }
      historyTable := historyTable + [HistoryInsert(title, user.value, now)];
      location := "/dashboard/workout-history";
      outcome := Started;
    }
  }
}
