# FitOs engine model

FitOs is a browser fitness app. Its engine keeps a user profile, per-day
statistics with a wellness score, a daily plan, a cached daily insight and
an exercise video cache in the browser's key–value storage. On top of the
storage, five screens carry logic:
- a workout player, with a countdown that advances through a routine's
  exercises and awards XP at the end;
- a stats screen, with quick-log buttons and a weekly chart;
- a meal screen, with a type filter and a craving log;
- a three-step onboarding form;
- the static catalog of routines, meals, plan items and level thresholds.

This project models that engine in Dafny and proves the properties the
program relies on. It has these modules:

- `Wrappers`: `Option` and `Result`.
- `Dates`: date keys ordered as strings.
  - `Before` is character-by-character lexicographic order, proved to be a strict total order.
  - `Descending` and `LatestAscending` give the sort, slice and reverse of the weekly window.
- `Types`: the profile, daily record, exercise, routine, meal, plan item and insight records.
- `Catalog`: the constant tables, with lemmas on their shape.
- `Storage`: the storage service.
  - The class `Store` has one field per storage key; an absent key is `None`, or the empty map for the two dictionaries.
  - Its methods are the service's operations, each specified against the pure functions beside it: `AwardXP`, `Score`, `StatsAfterUpdate`, `Toggle` and `Weekly`.
- `Workout`: the workout player.
  - The routine filter is a function.
  - The class `Session` holds the player's state, with one method per handler and `Tick` for one timer firing.
- `StatsScreen`: the metric update and its button wiring, plus the chart data.
- `MealScreen`: the meal filter and the class `MealLog`.
- `Onboarding`: draft edits, goal toggling and the class `Wizard` for the step button.

"Today" is a parameter of every operation that reads the clock.

## Model

| member | source | states |
|---|---|---|
| Dates.Before | storageService.ts:115 | the comparison the sort uses: a proper prefix, or a smaller character at the first difference |
| Dates.BeforeIrreflexive | storageService.ts:115 | no date sorts strictly before itself |
| Dates.BeforeAsymmetric | storageService.ts:115 | two dates are never each strictly before the other |
| Dates.BeforeTransitive | storageService.ts:115 | the string order used to sort dates is transitive |
| Dates.BeforeTotal | storageService.ts:115 | any two different dates are ordered one way or the other |
| Dates.GreatestExists | storageService.ts:115 | every nonempty set of dates has a greatest element |
| Dates.GreatestUnique | storageService.ts:115 | that greatest element is unique |
| Dates.Greatest | storageService.ts:115 | the result is in the set and every other date is before it |
| Dates.Descending | storageService.ts:114-115 | the dates listed once each, exactly the set, strictly descending |
| Dates.Reverse | storageService.ts:117 | same length, element i is element len-1-i of the input |
| Dates.ReversedPrefix | storageService.ts:116-117 | reversing a prefix of a descending list gives an ascending list, and every element outside the prefix is below all of it |
| Dates.LatestAscending | storageService.ts:114-117 | keeps min(n, size) of the dates in ascending order, and every date left out is before every date kept |
| Catalog.AllExercises | constants.ts:5-210 | every exercise of every routine appears in the concatenation |
| Catalog.ThresholdTable | constants.ts:3 | 10 thresholds, the first 0, strictly ascending |
| Catalog.RoutinesPlayable | constants.ts:5-210 | every routine has an exercise and every duration is positive |
| Catalog.RoutineGates | constants.ts:5-210 | three routines w1, w2, w3 gated at levels 1, 3, 5 with rewards 50, 80, 150 |
| Catalog.CatalogExercises | constants.ts:5-210 | the catalog's exercises are those of w1, w2 and w3, in that order |
| Catalog.CatalogIdsDistinct | constants.ts:15-195 | the fifteen exercise ids e1..e4, r1..r3, c1..c4, f1..f4 are pairwise different |
| Catalog.ExerciseIdsUnique | constants.ts:5-210 | the 15 exercise ids of the catalog are pairwise distinct |
| Catalog.TemplateShape | constants.ts:247-253 | five plan items dp1..dp5 with distinct ids, none completed |
| Catalog.MealTypes | constants.ts:212-245 | only the fourth meal, m4, is a cheat swap; no meal is of the budget type |
| Storage.NextLevelXp | storageService.ts:31 | the threshold lookup with its fallback to 99999 for a falsy or missing entry |
| Storage.NextLevelXpCases | storageService.ts:31 | the next threshold is the table entry for levels 1-9 and 99999 for level 0 (the falsy 0 entry) and any level past the table |
| Storage.AwardXP | storageService.ts:28-34 | xp grows by exactly the amount; the level rises by one exactly when the new xp reaches the next threshold, and by at most one; nothing else changes |
| Storage.LevelFrom | constants.ts:3 | the level whose threshold bracket contains the xp, searching upward from a given level |
| Storage.LevelFor | constants.ts:3 | every non-negative xp has a level from 1 to 10 |
| Storage.LevelForUnique | constants.ts:3 | the level whose bracket contains the xp is unique |
| Storage.AwardKeepsLevelMatch | storageService.ts:28-34 | when an award crosses at most one threshold, a profile whose level matches its xp still matches |
| Storage.AwardExampleOneLevel | storageService.ts:28-34 | level 1 with 90 xp plus 20 gives 110 xp at level 2 |
| Storage.AwardGainsOneLevelOnly | storageService.ts:28-34 | 500 xp from level 1 at 0 xp only reaches level 2, although 500 xp lies in the level-4 bracket |
| Storage.RawScore | storageService.ts:71-75 | the unclamped score: 50, plus 15 per workout, 10 for 64 oz water, 10 for 7 h sleep, minus 5 per craving |
| Storage.Score | storageService.ts:71-76 | always in 0..100, equal to the raw formula inside that range and clamped to 0 or 100 outside it |
| Storage.ScoreIgnoresStoredScore | storageService.ts:71-77 | the score an updater wrote has no influence on the recomputed score |
| Storage.ScoreMonotone | storageService.ts:72-75 | more workouts, water or sleep, or fewer cravings, never lower the score |
| Storage.ScoreExample | storageService.ts:71-76 | 2 workouts, 64 oz water, 7 h sleep and 1 craving score 95 |
| Storage.Rescored | storageService.ts:77 | the record with its score replaced by the recomputed score and every other field kept |
| Storage.DefaultStats | storageService.ts:47-56 | today's fresh record: date today, every counter 0, score 50 |
| Storage.DefaultIsScored | storageService.ts:47-56 | the fresh record's stored score of 50 is exactly what the formula gives an all-zero record |
| Storage.TodayRecord | storageService.ts:65-67 | the record the updater receives: today's stored record, or the default one |
| Storage.StatsAfterUpdate | storageService.ts:62-81 | today's key is present; today's record is the updater's output with a recomputed score; all other days are unchanged |
| Storage.UpdateKeepsInvariants | storageService.ts:62-81 | an update keeps every stored score equal to its formula, and keeps each record's date equal to its key when the updater keeps the date |
| Storage.ScoreStaysInRange | storageService.ts:76 | after any sequence of updates every stored score is within 0..100 |
| Storage.Weekly | storageService.ts:108-117 | at most 7 records, and no records when nothing is stored; each one is a stored record |
| Storage.WeeklyDates | storageService.ts:114-117 | when every record is filed under its own date, the window's dates are exactly the latest seven (or fewer) stored dates, ascending |
| Storage.WeeklyWindow | storageService.ts:114-117 | when dates match keys: the window is the latest dates, in ascending order, and every omitted date is earlier than every shown one |
| Storage.ToggleItem | storageService.ts:102 | one item with its completed flag flipped when its id matches |
| Storage.Toggle | storageService.ts:101-103 | same length; items with the id have completed flipped and every other field kept; other items unchanged |
| Storage.ToggleUnknownId | storageService.ts:101-103 | an id that is not in the plan changes nothing |
| Storage.ToggleTwice | storageService.ts:101-103 | toggling the same id twice restores the plan |
| Storage.ToggleKeepsIds | storageService.ts:101-103 | ids and their order are kept |
| Storage.Store.constructor | storageService.ts:4-11 | empty storage: no user, no stats, no plan, no marker, no insight, no videos |
| Storage.Store.LoadUser | storageService.ts:15-18 | returns the stored profile, or none |
| Storage.Store.SaveUser | storageService.ts:20-22 | the stored profile becomes the given one; nothing else changes |
| Storage.Store.AddXP | storageService.ts:24-38 | without a user: an error and nothing stored; otherwise the awarded profile is stored and returned |
| Storage.Store.LoadTodayStats | storageService.ts:40-60 | an existing record for today is returned and nothing changes; otherwise the default record is stored under today and returned; records stay filed under their own dates |
| Storage.Store.UpdateStats | storageService.ts:62-82 | today's record becomes the updater's output on today's record (or the default) with a recomputed score; that record is returned; records stay filed under their own dates when the updater keeps today's date |
| Storage.Store.NeedsReset | storageService.ts:89 | the plan is reset when the marker is not today or no plan is stored |
| Storage.Store.LoadDailyPlan | storageService.ts:84-97 | on reset: the template is stored and returned and the marker set to today; otherwise the stored plan is returned and nothing changes |
| Storage.Store.TogglePlanItem | storageService.ts:99-106 | the plan loaded as above, with the id toggled, is stored and returned |
| Storage.Store.GetWeeklyStats | storageService.ts:108-118 | returns the weekly window of the stored stats |
| Storage.Store.SaveDailyInsight | storageService.ts:120-122 | the stored insight becomes the given one |
| Storage.Store.LoadDailyInsight | storageService.ts:124-130 | returns the stored insight exactly when one is stored and it is dated today |
| Storage.Store.SaveExerciseVideo | storageService.ts:132-136 | the video map gains or overwrites that one id |
| Storage.Store.GetExerciseVideo | storageService.ts:138-141 | returns the stored URL exactly when the id is present with a non-empty URL |
| Workout.OfferedFrom | WorkoutScreen.tsx:85 | exactly the routines whose minimum level is at most the user's level |
| Workout.Offered | WorkoutScreen.tsx:85 | the catalog routines offered at a level |
| Workout.OfferedByLevel | WorkoutScreen.tsx:85 | below level 1 nothing is offered; levels 1-2 get w1 only; 3-4 get w1 and w2; 5 and up get all three, in catalog order |
| Workout.CountWorkout | WorkoutScreen.tsx:133 | the finish updater: one more workout today |
| Workout.CountWorkoutEffect | WorkoutScreen.tsx:133 | the finish counts exactly one more workout today and changes no other metric or day |
| Workout.Session.constructor | WorkoutScreen.tsx:74-79 | idle: no routine, not playing, index 0, no countdown, not completed |
| Workout.Session.StartWorkout | WorkoutScreen.tsx:108-115 | the routine becomes active and playing at index 0, with the first exercise's duration, not completed |
| Workout.Session.FinishWorkout | WorkoutScreen.tsx:128-136 | stops and completes; the routine's XP is awarded and today's workout count rises by one; without a user nothing is stored |
| Workout.Session.HandleNextExercise | WorkoutScreen.tsx:117-126 | before the last exercise: next index with that exercise's full duration; at the last one: finishes; with no routine: nothing happens |
| Workout.Session.Tick | WorkoutScreen.tsx:87-97 | paused: nothing changes; above 1 s: exactly one second less; reaching 0: advances as above; the index stays inside the routine |
| Workout.Session.TogglePause | WorkoutScreen.tsx:342 | flips playing and nothing else |
| Workout.Session.Skip | WorkoutScreen.tsx:345 | advances exactly as when the countdown runs out |
| Workout.Session.Back | WorkoutScreen.tsx:258 | returns to the list without awarding or storing anything |
| Workout.Session.CloseSummary | WorkoutScreen.tsx:138-141 | returns to the list without storing anything |
| Workout.TwoExerciseSession | WorkoutScreen.tsx:87-136 | playing a two-exercise routine to the end for a fresh user completes and stops the session; after closing the summary and two more ticks the session is idle and the store still holds 50 xp at level 1 and one workout, for today only |
| StatsScreen.Bump | StatsScreen.tsx:21-24 | the metric becomes max(0, old + delta); every other metric, the date and the score are kept |
| StatsScreen.BumpDownAtZero | StatsScreen.tsx:23 | lowering a metric that is already 0 leaves the record unchanged |
| StatsScreen.Wiring | StatsScreen.tsx:58-98 | the metric and delta each quick-log button passes |
| StatsScreen.WiringSteps | StatsScreen.tsx:58-98 | the buttons add 8 oz water or 500 steps, or move sleep or screen time by one hour; none touches workouts or cravings |
| StatsScreen.UpdateMetric | StatsScreen.tsx:20-26 | today's record gets the metric bumped and nothing else changed but the recomputed score |
| StatsScreen.Press | StatsScreen.tsx:58-98 | a quick-log button applies its wired metric and delta |
| StatsScreen.ChartData | StatsScreen.tsx:15-18 | one point per weekly record, in the same order, carrying its date and its score unchanged |
| StatsScreen.ChartScoresInRange | StatsScreen.tsx:14-18 | every charted score is within 0..100 |
| MealScreen.FilterButtons | MealScreen.tsx:10 | five filter buttons: All first, then one per meal type, none repeated |
| MealScreen.OfType | MealScreen.tsx:22 | only meals of the chosen type, no more meals than the input |
| MealScreen.OfTypeMembers | MealScreen.tsx:22 | a meal is kept exactly when it is in the list and has the chosen type |
| MealScreen.OfTypeFour | MealScreen.tsx:22 | on four meals the filter keeps those of the type, in their order |
| MealScreen.FilteredMeals | MealScreen.tsx:22 | the whole list for All, the meals of the chosen type otherwise |
| MealScreen.FilteredCatalog | MealScreen.tsx:22 | All shows every meal; Healthy shows m1 and m3; Balanced m2; Budget nothing; Cheat Swap m4 only |
| MealScreen.LogCraving | MealScreen.tsx:15-18 | the logging updater: one craving fewer for a cheat swap, no change otherwise |
| MealScreen.CravingUpdate | MealScreen.tsx:15-18 | that updater as the function value passed to the stats update |
| MealScreen.LogMealEffect | MealScreen.tsx:15-18 | a cheat swap lowers today's cravings by exactly one, with no floor; any other meal changes no tracked field; only the score is recomputed and other days are kept |
| MealScreen.MealLog.constructor | MealScreen.tsx:7-8 | nothing logged, filter All |
| MealScreen.MealLog.SelectType | MealScreen.tsx:33 | the chosen filter becomes the selected one |
| MealScreen.MealLog.HandleLogMeal | MealScreen.tsx:12-20 | an id already logged changes nothing; otherwise the id is appended once and today's cravings are updated; the log never holds an id twice |
| MealScreen.MealLog.LogMeal | MealScreen.tsx:72-73 | the button logs the meal as a cheat swap exactly when its type is Cheat Swap |
| Onboarding.InitialDraft | OnboardingScreen.tsx:25-32 | level 1, 0 xp, no goals, city, the default lifestyle, joined today, nothing else filled in |
| Onboarding.WithField | OnboardingScreen.tsx:34-36 | the one field takes the new value and all others are kept |
| Onboarding.WithLifestyle | OnboardingScreen.tsx:38-43 | the one lifestyle entry takes the new value; the other entries and all other fields are kept |
| Onboarding.Without | OnboardingScreen.tsx:48 | every occurrence of the goal removed and the other goals kept |
| Onboarding.WithoutAppend | OnboardingScreen.tsx:48 | removal distributes over concatenation |
| Onboarding.Toggled | OnboardingScreen.tsx:45-52 | an absent goal is appended; a present one is removed everywhere and the other goals kept |
| Onboarding.ToggledTwiceAbsent | OnboardingScreen.tsx:45-52 | toggling an absent goal twice restores the list |
| Onboarding.ToggledTwicePresent | OnboardingScreen.tsx:45-52 | toggling a present goal twice moves it, once, to the end |
| Onboarding.ToggleAllFresh | OnboardingScreen.tsx:45-52 | tapping distinct goals that are not yet chosen appends them in tap order |
| Onboarding.SelectEveryGoal | OnboardingScreen.tsx:12-21 | tapping every offered goal once from none selects all eight, in screen order |
| Onboarding.Wizard.constructor | OnboardingScreen.tsx:24-32 | step 1 with the initial draft |
| Onboarding.Wizard.UpdateField | OnboardingScreen.tsx:34-36 | the draft with one field replaced |
| Onboarding.Wizard.UpdateLifestyle | OnboardingScreen.tsx:38-43 | the draft with one lifestyle entry replaced |
| Onboarding.Wizard.ToggleGoal | OnboardingScreen.tsx:45-52 | the draft's goals toggled |
| Onboarding.Wizard.FinishOnboarding | OnboardingScreen.tsx:54-59 | the draft is saved exactly when it has a name; otherwise nothing is stored |
| Onboarding.Wizard.NextDisabled | OnboardingScreen.tsx:265 | the button is disabled on step 1 while the name is empty |
| Onboarding.Wizard.Next | OnboardingScreen.tsx:264-265 | disabled on step 1 with no name; steps 1 and 2 go up by one; step 3 finishes |

## Left out

- Storage: values are held as Dafny values. JSON encoding is not modelled, and neither is a corrupt stored record, on which the program's parse throws.
- Clock: "today" is a parameter. The one-second `setInterval` cadence becomes an explicit `Tick`, one per interval firing, which also re-runs the effect that advances at 0.
- Storage.Weekly: the window is ordered by map key, while the program sorts by each record's `date` field. The two agree whenever every record's date equals its key. `WeeklyWindow` proves the ordering under that condition. `Store.LoadTodayStats` keeps the condition, and so does `Store.UpdateStats` whenever the updater keeps today's date, which every updater in the program does.
- Dates.Before: `localeCompare` is modelled as character-by-character (code-point) lexicographic order. The two agree on the ASCII `YYYY-MM-DD` keys the program writes.
- Numbers: metrics are unbounded integers. Every delta the program uses is an integer, so floating point is not modelled.
- Storage.AwardXP: the level rises by at most one per award, as the program does (see `AwardGainsOneLevelOnly`); it does not reach the level the xp bracket names.
- Storage.Store.GetExerciseVideo: keys inherited from a JavaScript object's prototype are not modelled.
- Workout.Session.StartWorkout: requires a routine with an exercise and positive durations. Every catalog routine meets this (`RoutinesPlayable`).
- Workout.Session.TogglePause, Workout.Session.Skip, Workout.Session.Back: require an active, uncompleted session, because the screen renders those buttons only then. Workout.Session.CloseSummary requires a completed session for the same reason.
- Workout: the video-load effect (WorkoutScreen.tsx:99-106) and the details panel only display, so they are not modelled. Neither are the demo generation (`imageUrlToBase64`, `handleGenerateDemo`), which uses the network, and the confetti, which uses randomness.
- Types.Exercise: the image URL and instruction list are display-only and are left out.
- Workout.Session.FinishWorkout: with no stored user the program's `addXP` throws, which leaves `finishWorkout` (and, on the timer path, the effect) before the stats update. The model swallows the failure: it stores nothing and still ends with the session completed and stopped. The `refreshUser` callback is UI only.
- StatsScreen.ChartData: the weekday label (`toLocaleDateString`) is locale formatting, so the point keeps the date string instead.
- StatsScreen.Bump: `Metric` covers the six numeric counters. The program would also accept `date` or `score` as a key, but no button passes either.
- Onboarding.WithField: the age is taken as an already parsed integer. A `parseInt` that yields NaN is not modelled.
- Onboarding.Wizard.FinishOnboarding: the `onComplete` callback is not modelled. In App.tsx it re-runs the app's start-up, whose `loadTodayStats` call stores today's default record when there is none.
- HomeScreen.tsx passes `weekly[1]`, the second-oldest record of the ascending window, as the previous day's stats to the insight generator. That screen is not part of this model.
- aiService.ts, veoService.ts, VeoScreen.tsx, App.tsx, VitalityVisualizer.tsx and the presentation components are not part of this model. They cover network calls, routing and styling.
