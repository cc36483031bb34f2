# FitTrack core in Dafny

FitTrack is a browser fitness app written in TypeScript and React. It has:

- an onboarding carousel, login and registration forms, and a simulated account registry kept in local storage;
- a dashboard, workout plans with a workout history read from a Supabase table, and a custom-workout builder;
- a calorie counter with a static food database, and a BMI calculator;
- a singleton notification service, which sends hourly workout reminders and reminders after two hours without movement.

This project models the decision logic and state changes of those pieces, one Dafny module per source file:

| module | source file |
|---|---|
| `Common` | shared helpers: `Option`, a list `Filter`, JavaScript whitespace, calendar stamps |
| `Notifications` | `src/services/NotificationService.ts` |
| `CalorieCounter` | `src/pages/CalorieCounter.tsx` |
| `FoodDatabase` | `src/data/foodDatabase.ts` |
| `CreateWorkout` | `src/pages/CreateWorkout.tsx` |
| `WorkoutExerciseCard` | `src/components/customWorkout/WorkoutExerciseCard.tsx` |
| `AuthContext` | `src/contexts/AuthContext.tsx` |
| `EmailPattern` | the email regular expression used by `Login.tsx` and `Register.tsx` |
| `LoginPage` | `src/pages/Login.tsx` |
| `RegisterPage` | `src/pages/Register.tsx` |
| `BmiCalculator` | `src/pages/BMICalculator.tsx` |
| `Dashboard` | `src/pages/Dashboard.tsx` |
| `WorkoutHistory` | `src/pages/WorkoutHistory.tsx` |
| `WorkoutPlans` | `src/pages/WorkoutPlans.tsx` |
| `GetStarted` | `src/pages/GetStarted.tsx` |
| `AppRoutes` | `src/App.tsx` |

Code that changes state step by step is modelled as classes, with one field per piece of component state and `modifies` clauses on its methods. This covers the notification service, the auth provider, the forms, the BMI and calorie pages, the workout builder, the dashboard's mount effect and the carousel.

The browser is modelled by fields of those classes:

- local storage is an `Option` field per key;
- Supabase tables are `seq` fields;
- the timers are maps from handles to delays.

Pure expressions are modelled as functions with lemmas about them. These are the filters, folds, validators, formulas, colour maps and route guards.

The following become parameters:

- time, as integer milliseconds;
- calendar day and hour, taken as given integers;
- the outcome of every Supabase call and browser permission prompt;
- `parseInt`.

## Model

| member | source | states |
|---|---|---|
| Common.Filter | src/pages/CalorieCounter.tsx:74 | `Array.prototype.filter`: the result keeps exactly the elements satisfying the predicate, each as often as in the input, in their order (a subsequence, never longer) |
| Common.FilterAppend | src/pages/CalorieCounter.tsx:81-88 | filtering distributes over concatenation |
| Common.FilterKeepsAll | src/pages/CalorieCounter.tsx:74 | a filter that every element passes returns the list unchanged |
| Common.FilterIdempotent | src/pages/CalorieCounter.tsx:74 | filtering twice with the same predicate is filtering once |
| Notifications.MakeNotice | src/services/NotificationService.ts:144-154 | a notification carries the given title and body, the favicon and the vibration pattern [100, 50, 100] |
| Notifications.InitializeOutcome | src/services/NotificationService.ts:21-37 | unsupported or denied: returns false and leaves the flag as it was; otherwise returns the new flag, which is true iff the permission is or becomes "granted" |
| Notifications.MagnitudeSquared | src/services/NotificationService.ts:113-117 | the squared magnitude with missing axes as 0 is non-negative and bounds each axis' square |
| Notifications.RootAboveThreshold | src/services/NotificationService.ts:112-119 | for a non-negative root, exceeding the threshold 1 is the same as its square exceeding 1, so the square root need not be taken |
| Notifications.BaselineAfterCheck | src/services/NotificationService.ts:128-137 | after a check the baseline is `now` when more than 7,200,000 ms passed and unchanged otherwise; either way `now` is at most 7,200,000 ms after it |
| Notifications.NoReminderRightAfterReset | src/services/NotificationService.ts:131-136 | after a reminder resets the baseline, no check within the next two hours sends another |
| Notifications.NotificationService.AtMostOneReminderInterval | src/services/NotificationService.ts:39-61 | under the service invariant at most one reminder interval is active, and none exactly when the handle is null |
| Notifications.NotificationService.constructor | src/services/NotificationService.ts:4-12 | permission off, both handles null, the baseline at the creation time, no timers, no listener, nothing sent |
| Notifications.NotificationService.Initialize | src/services/NotificationService.ts:21-37 | the returned value and the new flag are those of `InitializeOutcome`; the invariant is kept |
| Notifications.NotificationService.SendNotification | src/services/NotificationService.ts:144-154 | one notice is appended iff permission is granted; nothing else changes |
| Notifications.NotificationService.SetInterval | src/services/NotificationService.ts:48-53 | a fresh handle is taken and registered with its period |
| Notifications.NotificationService.SetTimeout | src/services/NotificationService.ts:127-141 | a fresh handle is taken and registered with its delay |
| Notifications.NotificationService.StartWorkoutReminders | src/services/NotificationService.ts:39-54 | without permission nothing changes; otherwise the old interval is cleared and exactly one hourly interval is active |
| Notifications.NotificationService.StopWorkoutReminders | src/services/NotificationService.ts:56-61 | the handle is null and no interval is active, so a second call changes nothing |
| Notifications.NotificationService.ReminderIntervalFires | src/services/NotificationService.ts:48-53 | a reminder tick sends the workout reminder when permission is granted |
| Notifications.NotificationService.SetupAccelerometer | src/services/NotificationService.ts:99-104 | the baseline becomes the current time and the motion listener is attached |
| Notifications.NotificationService.CheckInactivity | src/services/NotificationService.ts:124-142 | arms one fresh 600,000 ms timeout and records it as `motionTimeout` |
| Notifications.NotificationService.StartMovementDetection | src/services/NotificationService.ts:63-86 | without permission nothing changes; otherwise the inactivity check is armed, and the listener is attached when motion is available without a prompt or the prompt is granted |
| Notifications.NotificationService.StopMovementDetection | src/services/NotificationService.ts:88-97 | `motionTimeout` becomes null and its timeout is cleared; the listener stays attached, because the watch id is never set |
| Notifications.NotificationService.HandleMotion | src/services/NotificationService.ts:106-122 | the baseline moves to `now` iff an acceleration is present and its squared magnitude exceeds 1 |
| Notifications.NotificationService.DeliverMotionEvent | src/services/NotificationService.ts:103-122 | an event reaches `handleMotion` only while the listener is attached |
| Notifications.NotificationService.InactivityCheckFires | src/services/NotificationService.ts:127-141 | a firing check reminds iff more than two hours passed and permission is granted, resets the baseline by `BaselineAfterCheck` and re-arms itself with a fresh 600,000 ms timeout |
| Notifications.ServiceRegistry.constructor | src/services/NotificationService.ts:3 | no instance exists yet |
| Notifications.ServiceRegistry.GetInstance | src/services/NotificationService.ts:14-19 | the first call creates the instance; every later call returns the same object |
| CalorieCounter.TodayEntries | src/pages/CalorieCounter.tsx:81-85 | an entry is listed iff it is dated today, in list order |
| CalorieCounter.TotalIsCaloriesOnDay | src/pages/CalorieCounter.tsx:88 | the `reduce` over today's entries equals the reference sum, in which each entry counts iff it is dated today |
| CalorieCounter.AppendChangesTotal | src/pages/CalorieCounter.tsx:59-88 | appending an entry raises today's total by its calories if it is dated today and leaves it unchanged otherwise |
| CalorieCounter.WithoutId | src/pages/CalorieCounter.tsx:74 | removes exactly the entries with that id and keeps the others with their multiplicities and in their order |
| CalorieCounter.DeleteAbsentIdIsNoOp | src/pages/CalorieCounter.tsx:74 | deleting an id no entry has changes nothing |
| CalorieCounter.DeleteTwiceIsDeleteOnce | src/pages/CalorieCounter.tsx:74 | deleting the same id twice is deleting it once |
| CalorieCounter.MealEntries | src/pages/CalorieCounter.tsx:91-109 | an entry is in a meal group iff its hour lies in that meal's range |
| CalorieCounter.HourInExactlyOneMeal | src/pages/CalorieCounter.tsx:91-109 | every hour lies in exactly one of [5,11), [11,16), [16,22) and the rest |
| CalorieCounter.MealsPartitionToday | src/pages/CalorieCounter.tsx:91-109 | the four groups together hold each of today's entries exactly once |
| CalorieCounter.GoalSummaryCases | src/pages/CalorieCounter.tsx:201-212 | below the goal the card shows a positive "left" amount; otherwise it shows a non-negative excess, which is zero iff the total equals the goal; the bar is red iff the total exceeds the goal |
| CalorieCounter.CalorieCounterPage.constructor | src/pages/CalorieCounter.tsx:24-28 | an empty list, an empty form, the dialog closed and the meal type "breakfast" |
| CalorieCounter.CalorieCounterPage.LoadEntries | src/pages/CalorieCounter.tsx:32-38 | the stored list replaces the state when the key is set; nothing else changes |
| CalorieCounter.CalorieCounterPage.HandleAddFoodEntry | src/pages/CalorieCounter.tsx:40-71 | an empty field and then a non-numeric or non-positive amount are rejected, and a rejection changes nothing; a success appends exactly one entry with the name and amount given, stores the new list and resets the form |
| CalorieCounter.CalorieCounterPage.HandleDeleteEntry | src/pages/CalorieCounter.tsx:73-78 | the list becomes `WithoutId` of the old list and is stored; the form is untouched |
| FoodDatabase.FoodIdsDistinct | src/data/foodDatabase.ts:10-41 | no two foods of the table share an id |
| FoodDatabase.FoodCaloriesPositive | src/data/foodDatabase.ts:12-40 | every food has a positive energy per 100 g |
| FoodDatabase.FoodsInCategory | src/data/foodDatabase.ts:43-45 | a food is returned iff its category literal equals the argument, in table order |
| FoodDatabase.UnknownCategoryIsEmpty | src/data/foodDatabase.ts:43-45 | a string naming none of the four categories selects nothing |
| FoodDatabase.Find | src/data/foodDatabase.ts:48 | `find` yields none iff no food has the id, and otherwise the first listed food with that id (every food before it has another id) |
| FoodDatabase.FindIsUnique | src/data/foodDatabase.ts:48 | with distinct ids, `find` returns the only food carrying the id |
| FoodDatabase.JsRound | src/data/foodDatabase.ts:51 | `Math.round` gives the integer within half of its argument, halves rounded up |
| FoodDatabase.CalculateCalories | src/data/foodDatabase.ts:47-49 | an id absent from the table gives 0 |
| FoodDatabase.RoundHundredths | src/data/foodDatabase.ts:51 | for whole numbers, rounding c·w/100 is (c·w + 50) div 100 |
| FoodDatabase.CaloriesForWholeGrams | src/data/foodDatabase.ts:47-52 | for a listed food and a whole number of grams the result is (c·w + 50) div 100 |
| FoodDatabase.CaloriesNonNegative | src/data/foodDatabase.ts:12-51 | a non-negative weight never gives a negative count |
| CreateWorkout.NewSelection | src/pages/CreateWorkout.tsx:59 | a newly added exercise has its name, 3 sets and no reps, time or rest |
| CreateWorkout.RemoveAt | src/pages/CreateWorkout.tsx:70 | drops exactly the position given and keeps the rest in order; the length drops by one iff the index is in range |
| CreateWorkout.ExercisesData | src/pages/CreateWorkout.tsx:99-107 | one row per selected exercise: row i has order index i, the created workout's id and the exercise's fields unchanged |
| CreateWorkout.ValidateSave | src/pages/CreateWorkout.tsx:74-82 | an empty title is rejected first, then an empty exercise list; the save goes on iff both are present |
| CreateWorkout.CreateWorkoutPage.constructor | src/pages/CreateWorkout.tsx:29-36 | empty title, description and lists, not loading, nothing inserted |
| CreateWorkout.CreateWorkoutPage.LoadExercises | src/pages/CreateWorkout.tsx:38-54 | a successful fetch replaces the exercise list and a failed one keeps it |
| CreateWorkout.CreateWorkoutPage.HandleAddExercise | src/pages/CreateWorkout.tsx:56-61 | appends `NewSelection` and leaves the earlier entries as they were |
| CreateWorkout.CreateWorkoutPage.HandleUpdateExercise | src/pages/CreateWorkout.tsx:63-67 | replaces only position `index`; the length and every other position are unchanged |
| CreateWorkout.CreateWorkoutPage.HandleRemoveExercise | src/pages/CreateWorkout.tsx:69-71 | the selection becomes `RemoveAt` of the old one |
| CreateWorkout.CreateWorkoutPage.HandleSave | src/pages/CreateWorkout.tsx:73-122 | a rejected form inserts nothing; exercise rows are inserted only after the workout insert succeeds, and then they are `ExercisesData` of the selection; the page navigates only when both inserts succeed; `isLoading` is false after every save that got past the checks |
| WorkoutExerciseCard.OnSetsChange | src/components/customWorkout/WorkoutExerciseCard.tsx:38 | `sets` becomes `parseInt` of the text |
| WorkoutExerciseCard.OnRepsChange | src/components/customWorkout/WorkoutExerciseCard.tsx:48 | `reps` becomes `parseInt` of the text |
| WorkoutExerciseCard.OnTimeChange | src/components/customWorkout/WorkoutExerciseCard.tsx:59 | `time` becomes the raw text |
| WorkoutExerciseCard.OnRestChange | src/components/customWorkout/WorkoutExerciseCard.tsx:69 | `rest` becomes the raw text |
| WorkoutExerciseCard.HandlersReplaceOneField | src/components/customWorkout/WorkoutExerciseCard.tsx:27-69 | each handler changes only its own field, and none changes `name` |
| WorkoutExerciseCard.EditsCommuteAndOverride | src/components/customWorkout/WorkoutExerciseCard.tsx:38-69 | edits of different fields commute and a later edit of the same field overrides an earlier one |
| WorkoutExerciseCard.RepsShown | src/components/customWorkout/WorkoutExerciseCard.tsx:47 | the reps input is blank iff reps is missing or falsy, and otherwise shows that number |
| WorkoutExerciseCard.TimeShown | src/components/customWorkout/WorkoutExerciseCard.tsx:58 | the time input shows '' when time is missing and the text otherwise |
| WorkoutExerciseCard.RestShown | src/components/customWorkout/WorkoutExerciseCard.tsx:68 | the rest input shows '' when rest is missing and the text otherwise |
| AuthContext.HasEmail | src/contexts/AuthContext.tsx:88 | `some` holds iff a stored user has the email |
| AuthContext.RegisterOutcome | src/contexts/AuthContext.tsx:79-97 | rejected for an empty email or password, an unreadable list or a taken email; registered exactly otherwise, with `{email, name}` appended as the only new user |
| AuthContext.AppendFreshKeepsDistinct | src/contexts/AuthContext.tsx:88-96 | appending a user with an unused email keeps the emails pairwise distinct |
| AuthContext.RegisterKeepsEmailsDistinct | src/contexts/AuthContext.tsx:88-97 | if the stored emails are distinct before a registration, they are distinct after it |
| AuthContext.SecondRegistrationRejected | src/contexts/AuthContext.tsx:85-92 | registering the same email a second time is rejected |
| AuthContext.AuthProvider.constructor | src/contexts/AuthContext.tsx:32-33 | no user, and loading |
| AuthContext.AuthProvider.RestoreSession | src/contexts/AuthContext.tsx:36-46 | loading ends; a readable stored user becomes the user, and an unreadable or absent one leaves it as it was |
| AuthContext.AuthProvider.IsAuthenticated | src/contexts/AuthContext.tsx:125 | authenticated iff a user is set |
| AuthContext.AuthProvider.Login | src/contexts/AuthContext.tsx:48-72 | succeeds iff email and password are non-empty, then sets and stores `{email}` with no name; a failure changes nothing; loading is false after it |
| AuthContext.AuthProvider.Register | src/contexts/AuthContext.tsx:74-111 | succeeds iff `RegisterOutcome` registers, then stores the extended list and signs the new user in; a failure changes nothing; distinct stored emails stay distinct; loading is false after it |
| AuthContext.AuthProvider.Logout | src/contexts/AuthContext.tsx:113-117 | the user becomes null and the stored session is removed |
| EmailPattern.EmailPatternIsValidEmail | src/pages/Login.tsx:31-32 | the regular expression `^[^\s@]+@[^\s@]+\.[^\s@]+$` matches iff there is no whitespace and exactly one '@', after a non-empty part, and the part after it has a '.' that is neither its first nor its last character |
| EmailPattern.EmailPatternSamples | src/pages/Register.tsx:33-34 | "a@b.c" passes, while "a@.bc" and "a@b@c.d" fail |
| LoginPage.ValidateLogin | src/pages/Login.tsx:24-36 | an empty field is rejected first, then an email the pattern refuses; it passes exactly otherwise |
| LoginPage.PassedLoginIsAccepted | src/pages/Login.tsx:39-40 | input that passes the form's checks is accepted by `login` and has a well-formed email |
| LoginPage.LoginForm.constructor | src/pages/Login.tsx:12-17 | empty fields, not loading, no pending call |
| LoginPage.LoginForm.HandleSubmit | src/pages/Login.tsx:19-45 | the check is `ValidateLogin`; a rejection resets `isLoading` and schedules nothing; a pass schedules exactly one delayed `login` with the entered pair |
| LoginPage.LoginForm.LoginTimerFires | src/pages/Login.tsx:39-44 | the delayed call signs in the scheduled email, navigates to /dashboard and clears `isLoading` |
| RegisterPage.Utf16Length | src/pages/Register.tsx:48 | `password.length` counts UTF-16 code units: between one and two per character, one for each character of the basic plane |
| RegisterPage.ValidateRegistration | src/pages/Register.tsx:26-52 | the four checks in their order (an empty field, the email pattern, a mismatch, fewer than 6 code units), the first failure deciding; it passes iff all hold |
| RegisterPage.PasswordLengthBoundary | src/pages/Register.tsx:48-52 | six characters are enough and five basic-plane characters are too short |
| RegisterPage.RegisterForm.constructor | src/pages/Register.tsx:12-19 | empty fields, not loading |
| RegisterPage.RegisterForm.HandleSubmit | src/pages/Register.tsx:21-63 | `register` is reached only when every check passes; success iff it registers, and only then the page navigates to /dashboard; `isLoading` is false on every exit |
| BmiCalculator.NumericPatternIsNumericInput | src/pages/BMICalculator.tsx:52 | `^\d*\.?\d*$` matches iff the text is digits with at most one '.', so "." alone passes |
| BmiCalculator.DigitsAroundFirstDot | src/pages/BMICalculator.tsx:52-53 | an accepted text is digits before its first '.' and digits after it |
| BmiCalculator.DigitsConcat | src/pages/BMICalculator.tsx:53 | the decimal value of two runs of digits written one after the other is the first run's value shifted past the second plus the second's |
| BmiCalculator.ParseDecimal | src/pages/BMICalculator.tsx:53 | `parseFloat` on an accepted non-empty text gives NaN iff the text is ".", and otherwise a non-negative number whose integer part is the digits before the dot and which, with its point moved past the digits after the dot, is the value of all the digits with the dot removed (`ShiftedIsScaled`: moving the point k places is multiplying by 10^k) |
| BmiCalculator.AcceptInput | src/pages/BMICalculator.tsx:50-62 | a text is refused iff the pattern fails; '' stores '' and any other accepted text stores exactly `ParseDecimal` of it, NaN iff the text is "." |
| BmiCalculator.MetricBmi | src/pages/BMICalculator.tsx:20-22 | the metric BMI times the height in centimetres squared is 10000 times the weight |
| BmiCalculator.ImperialBmi | src/pages/BMICalculator.tsx:24 | the imperial BMI times the height in inches squared is 703 times the weight |
| BmiCalculator.ImperialApproximatesMetric | src/pages/BMICalculator.tsx:20-25 | for the same person in pounds and inches, the imperial value lies within 0.01 % below the metric one |
| BmiCalculator.RoundToTenth | src/pages/BMICalculator.tsx:27 | `toFixed(1)` gives a whole number of tenths within 0.05 of its argument |
| BmiCalculator.CategoryRanges | src/pages/BMICalculator.tsx:33-41 | below 18.5 Underweight, [18.5, 25) Healthy Weight, [25, 30) Overweight, 30 and above Obesity, each an iff, so exactly one applies |
| BmiCalculator.CategoryMonotone | src/pages/BMICalculator.tsx:33-41 | a larger BMI never falls into a lower category |
| BmiCalculator.CategoryLabel | src/pages/BMICalculator.tsx:34-40 | every category has a non-empty label |
| BmiCalculator.CategoryColorsDistinct | src/pages/BMICalculator.tsx:72-85 | the four labels get four distinct non-empty classes and every other string gets '' |
| BmiCalculator.BmiCalculatorPage.constructor | src/pages/BMICalculator.tsx:9-14 | empty fields, no BMI, empty category, metric units |
| BmiCalculator.BmiCalculatorPage.HandleHeightChange | src/pages/BMICalculator.tsx:50-55 | the height becomes `AcceptInput` of the text and stays when it is refused |
| BmiCalculator.BmiCalculatorPage.HandleWeightChange | src/pages/BMICalculator.tsx:57-62 | the weight becomes `AcceptInput` of the text and stays when it is refused |
| BmiCalculator.BmiCalculatorPage.CalculateBmi | src/pages/BMICalculator.tsx:16-48 | nothing changes unless height and weight are both truthy; otherwise the BMI is the rounded formula value of the unit, the category is its label and the pair is stored |
| BmiCalculator.BmiCalculatorPage.HandleUnitChange | src/pages/BMICalculator.tsx:64-70 | the unit is set and both fields, the BMI and the category are cleared |
| Dashboard.CategoryHex | src/pages/Dashboard.tsx:53-56 | every category colour is a seven-character hex colour, so never the grey of "nothing to show" |
| Dashboard.BmiColorFollowsCategory | src/pages/Dashboard.tsx:51-57 | a present non-zero BMI gets the colour of its category from the BMI page's thresholds; grey iff the BMI is null or 0 |
| Dashboard.CategoryHexInjective | src/pages/Dashboard.tsx:53-56 | distinct categories get distinct chart colours |
| Dashboard.ChartValue | src/pages/Dashboard.tsx:62 | the chart plots the BMI, or 0 when it is missing; the value is 0 iff the colour is grey |
| Dashboard.LatestWorkout | src/pages/Dashboard.tsx:24-30 | the last stored item when the history is non-empty, otherwise the previous value |
| Dashboard.AppendedWorkoutIsLatest | src/pages/Dashboard.tsx:27-28 | a workout appended to the stored history is the one shown next |
| Dashboard.DashboardPage.constructor | src/pages/Dashboard.tsx:18-20 | 0 calories, no workout, no BMI |
| Dashboard.DashboardPage.Mount | src/pages/Dashboard.tsx:22-49 | the latest workout is `LatestWorkout`; with entries stored the total is the sum over the entries dated today; a missing key leaves its state as it was |
| WorkoutHistory.History | src/pages/WorkoutHistory.tsx:23-39 | no user or a query error give [], otherwise the rows |
| WorkoutHistory.FilteredWorkouts | src/pages/WorkoutHistory.tsx:42-45 | no selected date gives []; otherwise an item is listed iff its day is the selected one, in order and never more than the history |
| WorkoutHistory.DatesWithWorkouts | src/pages/WorkoutHistory.tsx:48 | one date per history item, in the same order |
| WorkoutHistory.HighlightedIffWorkoutsListed | src/pages/WorkoutHistory.tsx:42-48 | a day is highlighted in the calendar iff selecting it lists some workout |
| WorkoutHistory.HighlightedDayIsListed | src/pages/WorkoutHistory.tsx:42-48 | the item behind a highlighted date is listed when its day is selected |
| WorkoutHistory.ListedDayIsHighlighted | src/pages/WorkoutHistory.tsx:42-48 | a day that lists a workout has a highlighted date |
| WorkoutHistory.ShownPanel | src/pages/WorkoutHistory.tsx:134-166 | loading first; the list iff some workout matches; "No workouts on this day" iff none matches and the history is non-empty; "No workout history" iff it is empty |
| WorkoutHistory.CountSuffix | src/pages/WorkoutHistory.tsx:130 | "workout" takes no "s" iff exactly one is found |
| WorkoutPlans.LowerChar | src/pages/WorkoutPlans.tsx:185 | upper-case ASCII letters move to lower case and every other character stays |
| WorkoutPlans.ToLower | src/pages/WorkoutPlans.tsx:185 | lowering keeps the length and lowers each character |
| WorkoutPlans.IntensityColorCases | src/pages/WorkoutPlans.tsx:184-195 | green iff "low", yellow iff "medium", red iff "high", each up to case, and grey for everything else |
| WorkoutPlans.LoweredEquals | src/pages/WorkoutPlans.tsx:185 | the lowered text equals a lower-case word iff the text equals it up to case |
| WorkoutPlans.IntensityIgnoresCase | src/pages/WorkoutPlans.tsx:184-195 | spellings that lower alike get the same badge |
| WorkoutPlans.CardPreview | src/pages/WorkoutPlans.tsx:252-257 | the first min(3, n) names are listed, and "+more" appears iff n > 3 |
| WorkoutPlans.PreviewAccountsForAll | src/pages/WorkoutPlans.tsx:252-257 | the listed names plus the positive "+(n−3) more" count account for every exercise |
| WorkoutPlans.DetailLines | src/pages/WorkoutPlans.tsx:329-337 | "sets × reps" iff both are truthy, "sets × time" iff both are truthy, the rest line iff rest is truthy, nothing else, each at most once and in that order |
| WorkoutPlans.WorkoutPlansPage.constructor | src/pages/WorkoutPlans.tsx:146-151 | the history table and the location given |
| WorkoutPlans.WorkoutPlansPage.StartWorkout | src/pages/WorkoutPlans.tsx:153-178 | no user: nothing is inserted; otherwise exactly one row with the plan's title is inserted, and the page moves to the history iff the insert succeeded |
| GetStarted.ControlsAt | src/pages/GetStarted.tsx:76-105 | Back is disabled iff on the first slide; Next iff not on the last; the sign buttons iff on the last; the bottom links iff not on the last |
| GetStarted.Indicators | src/pages/GetStarted.tsx:62-68 | one dot per slide, highlighted iff it is the current slide |
| GetStarted.Carousel.constructor | src/pages/GetStarted.tsx:9 | the carousel starts on the first slide |
| GetStarted.Carousel.NextSlide | src/pages/GetStarted.tsx:34-36 | advances by one unless on the last of the four slides, and keeps the counter in range |
| GetStarted.Carousel.PrevSlide | src/pages/GetStarted.tsx:38-40 | goes back by one unless on the first slide, and keeps the counter in range |
| AppRoutes.ProtectedRoute | src/App.tsx:27-46 | loading iff `isLoading`; then a redirect to /login iff not authenticated, and the children otherwise |
| AppRoutes.PublicRoute | src/App.tsx:49-68 | loading iff `isLoading`; then a redirect to /dashboard iff authenticated, and the children otherwise |
| AppRoutes.GuardsAreComplementary | src/App.tsx:41-67 | once loading is over, exactly one of the two guards renders its children, and the other redirects |
| AppRoutes.Lookup | src/App.tsx:75-87 | a table gives a page iff it lists the path, and it is the page listed with it |
| AppRoutes.Resolve | src/App.tsx:75-87 | a path is public-guarded iff it is '/', '/login' or '/register', protected iff it is '/dashboard' or one of its children, and NotFound otherwise; the page is the one the route names |
| AppRoutes.TablesDisjoint | src/App.tsx:75-85 | no path is both public and protected |
| AppRoutes.CreateWorkoutIsNotRouted | src/App.tsx:75-87 | '/dashboard/create-workout', where "Create Workout" navigates, matches no route and renders NotFound, unguarded |

## Left out

- JSX, styling, toasts and icons are not modelled. A handler's message is its outcome value.
- Navigation survives only as a `location` field, written where the source calls `navigate`.
- Promises and `async` are not modelled. Each awaited call becomes an outcome parameter that resolves at the call: the Supabase inserts and selects, `Notification.requestPermission` and `DeviceMotionEvent.requestPermission`.
- Supabase and `useQuery` caching are not modelled. Tables are `seq` fields, and a query's error or success is a parameter.
- Local storage and `JSON.parse`/`JSON.stringify` are modelled only as in-memory values. Only the `fittrackUser` and `fittrackUsers` keys of the auth context have an explicit `Malformed` case for text that does not parse; other shapes of stored JSON are not modelled.
- CalorieCounter.CalorieCounterPage.LoadEntries: the stored `calorieEntries` text is taken to parse (the app writes it only through `JSON.stringify`); on other text the source's uncaught `JSON.parse` throws, which is not modelled.
- Dashboard.DashboardPage.Mount: the stored `workoutHistory`, `calorieEntries` and `bmiData` texts are taken to parse (the app writes the last two only through `JSON.stringify` and never writes the first); on other text the source's uncaught `JSON.parse` throws, which is not modelled.
- Timers are not scheduled. `setInterval`/`setTimeout` are maps from handles to delays, and a callback is a separate method that the environment calls for an active handle.
- Notifications.NotificationService.StartMovementDetection: the permission prompt's answer is taken at the call, not when its promise resolves later.
- LoginPage.LoginForm.LoginTimerFires: the pending delayed logins fire in the order they were scheduled; the 1.5 s delay itself is not modelled.
- Clocks: `Date.now()` is an integer parameter in milliseconds. `toDateString`, `getHours`, `toISOString`, `format` and time zones are not modelled; entries carry their calendar day and hour as integers.
- Ids are given, not generated; `Date.now()` ids and their possible collisions are not modelled.
- Floating point is not modelled, and all arithmetic is on exact reals:
  - `Math.sqrt` in `handleMotion` is replaced by comparing the squared magnitude with 1, which is equivalent (`RootAboveThreshold`);
  - `toFixed(1)` is modelled as rounding a non-negative value half up to tenths;
  - `parseFloat` is modelled only on the texts the input pattern admits.
- `Number(text)` and `isNaN` in the calorie form are not modelled as functions; the parsed amount is an `Option` parameter.
- `parseInt` in the exercise card is an abstract function parameter.
- BmiCalculator.BmiCalculatorPage.CalculateBmi: React's effect ordering is not modelled. The stored record is the one written once the category effect has settled; the source's first write may carry the previous category.
- The `user.id` passed as `user_id` in `WorkoutPlans.tsx` and `CreateWorkout.tsx` is kept as an optional, uninterpreted value, because the `User` type has no `id` field.
- The static workout catalog of `WorkoutPlans.tsx` is not modelled; the operations take the chosen workout's title and exercises as inputs.
- Presentational and glue files are not part of this model: `SideMenu.tsx`, `ExerciseSearch.tsx`, `ExerciseDemo.tsx`, `DashboardLayout.tsx`, `useNotifications.ts` and the generated Supabase types. The same goes for `NotFound`, beyond its being the fallback route.
- AppRoutes.Resolve: only exact path matches are modelled. React Router's case-insensitive matching and trailing slashes are not.
- WorkoutPlans.DetailLines: the stray "0" that React renders when `sets` or `reps` is the number 0 is not modelled as a line.
- WorkoutPlans.LowerChar: lowers ASCII letters only. Full Unicode `toLowerCase` could map other characters, but none lowers onto a letter of "low", "medium" or "high".
- FoodDatabase.GetFoodsByCategory has no contract of its own. It is `FoodsInCategory` applied to the table, and the properties are stated there.
- CreateWorkout.CreateWorkoutPage.HandleUpdateExercise: requires an index in range, because the source only passes the indices of rendered cards.
- Notifications.NotificationService.StartMovementDetection: a second call while detection is on starts a second inactivity-check chain, and `stopMovementDetection` stops only the latest. The model keeps both timeouts, as the source does, and proves nothing about the duplicate.
