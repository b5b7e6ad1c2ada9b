/**
 * The quick-log buttons of the stats screen, which adjust one metric of
 * today's record by a fixed step, never below 0, and the weekly chart's
 * data points.
 */
module StatsScreen {
  import opened Types
  import opened Storage

  /** The numeric fields of a day's record that a quick log can address. */
  datatype Metric = WorkoutsCompleted | WaterIntakeOz | Steps | ScreenTimeHours | JunkFoodCravings | SleepHours

  function Get(s: DailyStats, m: Metric): int {
    match m
    case WorkoutsCompleted => s.workoutsCompleted
    case WaterIntakeOz => s.waterIntakeOz
    case Steps => s.steps
    case ScreenTimeHours => s.screenTimeHours
    case JunkFoodCravings => s.junkFoodCravings
    case SleepHours => s.sleepHours
  }

  function Set(s: DailyStats, m: Metric, v: int): DailyStats {
    match m
    case WorkoutsCompleted => s.(workoutsCompleted := v)
    case WaterIntakeOz => s.(waterIntakeOz := v)
    case Steps => s.(steps := v)
    case ScreenTimeHours => s.(screenTimeHours := v)
    case JunkFoodCravings => s.(junkFoodCravings := v)
    case SleepHours => s.(sleepHours := v)
  }

  /**
   * The record with metric `m` moved by `delta` and floored at 0. Every
   * other metric, the date and the stored score stay as they were.
   */
  function Bump(s: DailyStats, m: Metric, delta: int): (r: DailyStats)
    ensures Get(r, m) == if Get(s, m) + delta < 0 then 0 else Get(s, m) + delta
    ensures forall other :: other != m ==> Get(r, other) == Get(s, other)
    ensures r.date == s.date && r.score == s.score
  {
    var moved := Get(s, m) + delta;
    Set(s, m, if moved < 0 then 0 else moved)
  }

  /** A decrement of a metric already at 0 leaves it at 0. */
  lemma BumpDownAtZero(s: DailyStats, m: Metric, delta: int)
    requires Get(s, m) == 0 && delta <= 0
    ensures Bump(s, m, delta) == s
  {
    match m
    case WorkoutsCompleted =>
    case WaterIntakeOz =>
    case Steps =>
    case ScreenTimeHours =>
    case JunkFoodCravings =>
    case SleepHours =>
  }

  /** The quick-log buttons. */
  datatype QuickLog = AddWater | LessSleep | MoreSleep | LessScreen | MoreScreen | AddSteps

  /** The metric and step each button is wired to. */
  function Wiring(b: QuickLog): (Metric, int) {
    match b
    case AddWater => (WaterIntakeOz, 8)
    case LessSleep => (SleepHours, -1)
    case MoreSleep => (SleepHours, 1)
    case LessScreen => (ScreenTimeHours, -1)
    case MoreScreen => (ScreenTimeHours, 1)
    case AddSteps => (Steps, 500)
  }

  /** No button touches workouts or cravings, and every step is ±1 except water (+8) and steps (+500). */
  lemma WiringSteps(b: QuickLog)
    ensures Wiring(b).0 != WorkoutsCompleted && Wiring(b).0 != JunkFoodCravings
    ensures Wiring(b).0 == WaterIntakeOz ==> Wiring(b).1 == 8
    ensures Wiring(b).0 == Steps ==> Wiring(b).1 == 500
    ensures Wiring(b).0 == SleepHours || Wiring(b).0 == ScreenTimeHours ==> Wiring(b).1 == 1 || Wiring(b).1 == -1
  {
  }

  /** Adjusts metric `key` of today's record by `delta` (floored at 0) and rescores it. */
  method UpdateMetric(store: Store, today: string, key: Metric, delta: int) returns (updated: DailyStats)
    requires store.Valid()
    modifies store`stats
    ensures store.Valid()
    ensures var before := TodayRecord(old(store.stats), today);
      && Get(updated, key) == (if Get(before, key) + delta < 0 then 0 else Get(before, key) + delta)
      && (forall other :: other != key ==> Get(updated, other) == Get(before, other))
      && updated.date == before.date
      && updated.score == Score(updated)
    ensures store.stats == old(store.stats)[today := updated]
  {
    updated := store.UpdateStats(today, s => Bump(s, key, delta));
  }

  /** Presses button `b`. */
  method Press(store: Store, today: string, b: QuickLog) returns (updated: DailyStats)
    requires store.Valid()
    modifies store`stats
    ensures store.Valid()
    ensures var before := TodayRecord(old(store.stats), today);
      && Get(updated, Wiring(b).0) == (if Get(before, Wiring(b).0) + Wiring(b).1 < 0 then 0 else Get(before, Wiring(b).0) + Wiring(b).1)
      && (forall other :: other != Wiring(b).0 ==> Get(updated, other) == Get(before, other))
      && updated.date == before.date
    ensures store.stats == old(store.stats)[today := updated]
  {
    updated := UpdateMetric(store, today, Wiring(b).0, Wiring(b).1);
  }

  /** One bar of the weekly chart: the day and its score. */
  datatype ChartPoint = ChartPoint(day: string, score: int)

  /** One chart point per weekly record, in the same order, with the score copied. */
  function ChartData(weekly: seq<DailyStats>): (r: seq<ChartPoint>)
    ensures |r| == |weekly|
    ensures forall i :: 0 <= i < |weekly| ==> r[i].day == weekly[i].date && r[i].score == weekly[i].score
  {
    if weekly == [] then [] else [ChartPoint(weekly[0].date, weekly[0].score)] + ChartData(weekly[1..])
  }

  /** Every bar of the weekly chart lies in [0, 100]: the store only ever holds computed scores. */
  lemma ChartScoresInRange(stats: map<string, DailyStats>)
    requires ScoresConsistent(stats)
    ensures forall p :: p in ChartData(Weekly(stats)) ==> 0 <= p.score <= 100
  {
    var w := Weekly(stats);
    var c := ChartData(w);
    forall p | p in c
      ensures 0 <= p.score <= 100
    {
      var i :| 0 <= i < |c| && c[i] == p;
      assert w[i] in stats.Values;
    }
  }
}
