/**
 * The records the engine stores and reads. Metrics are `number` in the
 * program; every value the program writes into them is an integer, so they
 * are `int` here.
 */
module Types {
  import opened Wrappers

  datatype FitnessLevel = Beginner | Intermediate | Advanced

  datatype Location = Village | City

  datatype Lifestyle = Lifestyle(sleepType: string, screenTime: string, waterIntake: string)

  /**
   * A user profile. The onboarding form may leave `age`, `gender` and
   * `fitnessLevel` unset, and the profile is saved as the form stands, so
   * those three are optional.
   */
  datatype UserProfile = UserProfile(
    name: string,
    age: Option<int>,
    gender: Option<string>,
    locationType: Location,
    fitnessLevel: Option<FitnessLevel>,
    goals: seq<string>,
    lifestyle: Lifestyle,
    xp: int,
    level: int,
    joinedDate: string)

  /** One calendar day's tracked metrics and the score derived from them. */
  datatype DailyStats = DailyStats(
    date: string,
    workoutsCompleted: int,
    waterIntakeOz: int,
    steps: int,
    screenTimeHours: int,
    junkFoodCravings: int,
    sleepHours: int,
    score: int)

  datatype Exercise = Exercise(
    id: string,
    name: string,
    durationSec: int,
    reps: Option<string>,
    description: string,
    isRest: bool)

  datatype WorkoutRoutine = WorkoutRoutine(
    id: string,
    title: string,
    minLevel: int,
    durationMin: int,
    tags: seq<string>,
    exercises: seq<Exercise>,
    xpReward: int)

  datatype MealType = Healthy | Balanced | Budget | CheatSwap

  datatype MealOption = MealOption(
    id: string,
    name: string,
    calories: int,
    tags: seq<string>,
    mealType: MealType,
    description: string)

  datatype TimeOfDay = Morning | Afternoon | Evening | Night

  datatype PlanKind = WorkoutTask | MealTask | HabitTask | TipTask

  datatype DailyPlanItem = DailyPlanItem(
    id: string,
    timeOfDay: TimeOfDay,
    title: string,
    kind: PlanKind,
    completed: bool,
    description: string)

  /** A coach briefing, valid only on the day stamped in `date`. */
  datatype DailyInsight = DailyInsight(
    date: string,
    vibe: string,
    workoutTip: string,
    dietHack: string,
    lifeStyleTip: string)
}
