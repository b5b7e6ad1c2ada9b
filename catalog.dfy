/**
 * The static catalog the engine depends on: the level table, the workout
 * routines, the meals and the daily plan template. Display-only fields of
 * the program's literals (exercise image URLs and instruction steps) are
 * not part of this model.
 */
module Catalog {
  import opened Wrappers
  import opened Types

  /** XP needed to leave each level: entry `l` is the threshold for level `l`. */
  const LEVEL_THRESHOLDS: seq<int> := [0, 100, 250, 450, 700, 1000, 1400, 1900, 2500, 3200]

  function Move(id: string, name: string, secs: int, description: string): Exercise {
    Exercise(id, name, secs, None, description, false)
  }

  function Rest(id: string, secs: int, description: string): Exercise {
    Exercise(id, "Rest", secs, None, description, true)
  }

  const MORNING_GLOW_UP: WorkoutRoutine := WorkoutRoutine(
    "w1", "Morning Glow Up", 1, 7, ["Morning", "No Equipment"],
    [ Move("e1", "Jumping Jacks", 45, "Get the blood flowing!"),
      Rest("r1", 15, "Breathe."),
      Move("e2", "High Knees", 45, "Knees to chest."),
      Rest("r2", 15, "Chill."),
      Move("e3", "Bodyweight Squats", 45, "Keep back straight."),
      Rest("r3", 15, "Shake it out."),
      Move("e4", "Plank", 30, "Hold it!") ],
    50)

  const CORE_CRUSHER: WorkoutRoutine := WorkoutRoutine(
    "w2", "Core Crusher", 3, 12, ["Core", "Abs"],
    [ Move("c1", "Crunches", 45, "Squeeze the abs."),
      Move("c2", "Leg Raises", 45, "Control the descent."),
      Move("c3", "Russian Twists", 45, "Twist side to side."),
      Move("c4", "Mountain Climbers", 45, "Run on the floor.") ],
    80)

  const FULL_BODY_IGNITE: WorkoutRoutine := WorkoutRoutine(
    "w3", "Full Body Ignite", 5, 20, ["HIIT", "Sweat"],
    [ Move("f1", "Burpees", 45, "Sorry in advance."),
      Move("f2", "Pushups", 45, "Chest to floor."),
      Move("f3", "Lunges", 45, "Alternate legs."),
      Move("f4", "Glute Bridges", 45, "Squeeze at top.") ],
    150)

  const WORKOUTS: seq<WorkoutRoutine> := [MORNING_GLOW_UP, CORE_CRUSHER, FULL_BODY_IGNITE]

  const MEALS: seq<MealOption> := [
    MealOption("m1", "Overnight Oats", 350, ["Budget", "Quick", "High Fiber"], Healthy,
      "Oats soaked in milk/yogurt overnight. Add banana & honey."),
    MealOption("m2", "Masala Omelette & Toast", 400, ["High Protein", "Savory"], Balanced,
      "2 eggs, onions, chilies, turmeric. Whole wheat toast."),
    MealOption("m3", "Paneer/Chicken Wrap", 500, ["High Protein", "Lunch"], Healthy,
      "Grilled protein in a roti with veggies and mint chutney."),
    MealOption("m4", "Air Fried Fries", 200, ["Craving Killer", "Low Oil"], CheatSwap,
      "Potato wedges with peri-peri, air fried instead of deep fried.")
  ]

  const DAILY_TEMPLATE: seq<DailyPlanItem> := [
    DailyPlanItem("dp1", Morning, "Hydrate First", HabitTask, false,
      "Drink 1 glass of water before checking phone."),
    DailyPlanItem("dp2", Morning, "Morning Movement", WorkoutTask, false,
      "Complete a quick workout."),
    DailyPlanItem("dp3", Afternoon, "Stand Up", TipTask, false,
      "You have been sitting too long. Stretch for 2 mins."),
    DailyPlanItem("dp4", Evening, "No Sugar Crash", MealTask, false,
      "Choose a fruit over a candy bar."),
    DailyPlanItem("dp5", Night, "Digital Sunset", HabitTask, false,
      "Blue light filter ON. Phone away 30m before bed.")
  ]

  /**
   * A routine a session can run: it has a first exercise to read and every
   * exercise lasts at least one second, so the countdown always reaches 0.
   */
  predicate Playable(r: WorkoutRoutine) {
    |r.exercises| > 0 && forall i :: 0 <= i < |r.exercises| ==> r.exercises[i].durationSec > 0
  }

  /** Every exercise of every routine, in catalog order. */
  function AllExercises(ws: seq<WorkoutRoutine>): (r: seq<Exercise>)
    ensures forall w, e :: w in ws && e in w.exercises ==> e in r
  {
    if ws == [] then [] else ws[0].exercises + AllExercises(ws[1..])
  }

  predicate DistinctIds(es: seq<Exercise>) {
    forall i, j :: 0 <= i < j < |es| ==> es[i].id != es[j].id
  }

  lemma ThresholdTable()
    ensures |LEVEL_THRESHOLDS| == 10 && LEVEL_THRESHOLDS[0] == 0
    ensures forall i, j :: 0 <= i < j < |LEVEL_THRESHOLDS| ==> LEVEL_THRESHOLDS[i] < LEVEL_THRESHOLDS[j]
  {
  }

  lemma RoutinesPlayable()
    ensures forall w :: w in WORKOUTS ==> Playable(w)
  {
  }

  lemma RoutineGates()
    ensures |WORKOUTS| == 3
    ensures WORKOUTS[0].id == "w1" && WORKOUTS[0].minLevel == 1 && WORKOUTS[0].xpReward == 50
    ensures WORKOUTS[1].id == "w2" && WORKOUTS[1].minLevel == 3 && WORKOUTS[1].xpReward == 80
    ensures WORKOUTS[2].id == "w3" && WORKOUTS[2].minLevel == 5 && WORKOUTS[2].xpReward == 150
  {
  }

  /** The ids of a list of exercises, in order. */
  function Ids(es: seq<Exercise>): seq<string> {
    seq(|es|, i requires 0 <= i < |es| => es[i].id)
  }

  const CATALOG_IDS: seq<string> :=
    ["e1", "r1", "e2", "r2", "e3", "r3", "e4", "c1", "c2", "c3", "c4", "f1", "f2", "f3", "f4"]

  lemma CatalogExercises()
    ensures AllExercises(WORKOUTS) == MORNING_GLOW_UP.exercises + CORE_CRUSHER.exercises + FULL_BODY_IGNITE.exercises
  {
    assert [FULL_BODY_IGNITE][1..] == [];
    assert AllExercises([FULL_BODY_IGNITE]) == FULL_BODY_IGNITE.exercises;
    assert [CORE_CRUSHER, FULL_BODY_IGNITE][1..] == [FULL_BODY_IGNITE];
    assert AllExercises([CORE_CRUSHER, FULL_BODY_IGNITE]) == CORE_CRUSHER.exercises + FULL_BODY_IGNITE.exercises;
    assert WORKOUTS[1..] == [CORE_CRUSHER, FULL_BODY_IGNITE];
  }

  lemma CatalogIdsDistinct()
    ensures forall i, j :: 0 <= i < j < |CATALOG_IDS| ==> CATALOG_IDS[i] != CATALOG_IDS[j]
  {
  }

  lemma ExerciseIdsUnique()
    ensures |AllExercises(WORKOUTS)| == 15
    ensures DistinctIds(AllExercises(WORKOUTS))
  {
    CatalogExercises();
    var all := AllExercises(WORKOUTS);
    assert Ids(all) == CATALOG_IDS;
    CatalogIdsDistinct();
    forall i, j | 0 <= i < j < |all|
      ensures all[i].id != all[j].id
    {
      assert Ids(all)[i] == all[i].id && Ids(all)[j] == all[j].id;
    }
  }

  lemma TemplateShape()
    ensures |DAILY_TEMPLATE| == 5
    ensures DAILY_TEMPLATE[0].id == "dp1" && DAILY_TEMPLATE[1].id == "dp2" && DAILY_TEMPLATE[2].id == "dp3"
    ensures DAILY_TEMPLATE[3].id == "dp4" && DAILY_TEMPLATE[4].id == "dp5"
    ensures forall i, j :: 0 <= i < j < |DAILY_TEMPLATE| ==> DAILY_TEMPLATE[i].id != DAILY_TEMPLATE[j].id
    ensures forall i :: 0 <= i < |DAILY_TEMPLATE| ==> !DAILY_TEMPLATE[i].completed
  {
  }

  lemma MealTypes()
    ensures forall i :: 0 <= i < |MEALS| && MEALS[i].mealType == CheatSwap ==> i == 3
    ensures MEALS[3].id == "m4" && MEALS[3].mealType == CheatSwap
    ensures forall m :: m in MEALS ==> m.mealType != Budget
  {
  }
}
