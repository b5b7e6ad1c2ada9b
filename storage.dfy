/**
 * The storage-backed ledgers: the user profile and its XP/level, the map of
 * calendar day to daily stats with its score, the daily plan with its
 * day-boundary reset, the day-stamped insight cache and the exercise video
 * cache. The browser's key-value storage is the class `Store`, one field
 * per storage key; an absent key is `None` (for the two dictionaries, the
 * empty map, which every operation treats exactly like an absent key).
 * "Today" is a parameter wherever the program reads the clock.
 */
module Storage {
  import opened Wrappers
  import opened Types
  import opened Catalog
  import Dates

  datatype StoreError = NotOnboarded

  /** Threshold used when the level indexes no usable table entry. */
  const XP_SENTINEL: int := 99999

  /** Number of days in the weekly window. */
  const WEEK: nat := 7

  // ---------------------------------------------------------------- progression

  /**
   * The XP that moves a user off `level`: the table entry at index `level`,
   * unless that index is outside the table or the entry is 0 (a falsy
   * number), in which case the sentinel.
   */
  function NextLevelXp(level: int): int {
    if 0 <= level < |LEVEL_THRESHOLDS| && LEVEL_THRESHOLDS[level] != 0
    then LEVEL_THRESHOLDS[level]
    else XP_SENTINEL
  }

  lemma NextLevelXpCases(level: int)
    ensures 1 <= level <= 9 ==> NextLevelXp(level) == LEVEL_THRESHOLDS[level]
    ensures level <= 0 || 10 <= level ==> NextLevelXp(level) == XP_SENTINEL
  {
  }

  /**
   * The profile after an award of `amount` XP: XP grows by exactly `amount`,
   * and the level rises by one exactly when the new XP reaches the current
   * level's threshold. One step at most, however many thresholds are passed.
   */
  function AwardXP(u: UserProfile, amount: int): (r: UserProfile)
    ensures r.xp == u.xp + amount
    ensures r.level == u.level + 1 <==> r.xp >= NextLevelXp(u.level)
    ensures r.level == u.level || r.level == u.level + 1
    ensures r == u.(xp := r.xp, level := r.level)
  {
    var xp := u.xp + amount;
    u.(xp := xp, level := if xp >= NextLevelXp(u.level) then u.level + 1 else u.level)
  }

  /**
   * The level the threshold table assigns to `xp`, searching upward from
   * level `from`: the level whose threshold interval contains `xp`.
   */
  function LevelFrom(xp: int, from: int): (l: int)
    requires 1 <= from <= 10 && LEVEL_THRESHOLDS[from - 1] <= xp
    ensures from <= l <= 10 && LEVEL_THRESHOLDS[l - 1] <= xp
    ensures l == 10 || xp < LEVEL_THRESHOLDS[l]
    decreases 10 - from
  {
    if from < 10 && LEVEL_THRESHOLDS[from] <= xp then LevelFrom(xp, from + 1) else from
  }

  function LevelFor(xp: int): (l: int)
    requires xp >= 0
    ensures 1 <= l <= 10
  {
    LevelFrom(xp, 1)
  }

  /** Only one level has a threshold interval containing `xp`. */
  lemma LevelForUnique(xp: int, l: int)
    requires xp >= 0 && 1 <= l <= 10
    requires LEVEL_THRESHOLDS[l - 1] <= xp && (l == 10 || xp < LEVEL_THRESHOLDS[l])
    ensures LevelFor(xp) == l
  {
    ThresholdTable();
  }

  /** The profile's level is the one the table assigns to its XP. */
  predicate LevelMatchesXp(u: UserProfile) {
    0 <= u.xp < XP_SENTINEL && u.level == LevelFor(u.xp)
  }

  /**
   * The single-step rule agrees with the table whenever an award passes at
   * most one threshold.
   */
  lemma AwardKeepsLevelMatch(u: UserProfile, amount: int)
    requires LevelMatchesXp(u) && amount >= 0 && u.xp + amount < XP_SENTINEL
    requires LevelFor(u.xp + amount) <= u.level + 1
    ensures LevelMatchesXp(AwardXP(u, amount))
  {
    ThresholdTable();
    var r := AwardXP(u, amount);
    var l := u.level;
    if l < 10 {
      assert NextLevelXp(l) == LEVEL_THRESHOLDS[l];
      if r.xp >= LEVEL_THRESHOLDS[l] {
        assert LevelFor(r.xp) >= l + 1;
      } else {
        LevelForUnique(r.xp, l);
      }
    } else {
      assert NextLevelXp(l) == XP_SENTINEL;
      LevelForUnique(r.xp, l);
    }
  }

  /** One award of 20 XP at level 1 with 90 XP passes the 100 threshold. */
  lemma AwardExampleOneLevel(u: UserProfile)
    requires u.level == 1 && u.xp == 90
    ensures AwardXP(u, 20).xp == 110 && AwardXP(u, 20).level == 2
  {
  }

  /**
   * One award of 500 XP from level 1 and 0 XP passes three thresholds
   * (100, 250 and 450) but gains one level: the profile ends at level 2
   * while the table assigns level 4 to 500 XP.
   */
  lemma AwardGainsOneLevelOnly(u: UserProfile)
    requires u.level == 1 && u.xp == 0
    ensures AwardXP(u, 500).xp == 500 && AwardXP(u, 500).level == 2
    ensures LevelFor(500) == 4
  {
    LevelForUnique(500, 4);
  }

  // ---------------------------------------------------------------- daily score

  /** The unclamped score: base 50, +15 per workout, +10 for 64 oz of water, +10 for 7 h of sleep, −5 per craving. */
  function RawScore(s: DailyStats): int {
    50 + s.workoutsCompleted * 15
    + (if s.waterIntakeOz >= 64 then 10 else 0)
    + (if s.sleepHours >= 7 then 10 else 0)
    - s.junkFoodCravings * 5
  }

  /** The day's score: the raw score clamped to [0, 100]. */
  function Score(s: DailyStats): (r: int)
    ensures 0 <= r <= 100
    ensures 0 <= RawScore(s) <= 100 ==> r == RawScore(s)
    ensures RawScore(s) < 0 ==> r == 0
    ensures RawScore(s) > 100 ==> r == 100
  {
    var raw := RawScore(s);
    var floored := if raw < 0 then 0 else raw;
    if floored > 100 then 100 else floored
  }

  /** The stored score plays no part in the score. */
  lemma ScoreIgnoresStoredScore(s: DailyStats, x: int)
    ensures Score(s.(score := x)) == Score(s)
  {
  }

  /** More workouts, water or sleep never lower the score; more cravings never raise it. */
  lemma ScoreMonotone(s: DailyStats, t: DailyStats)
    requires t.workoutsCompleted >= s.workoutsCompleted && t.waterIntakeOz >= s.waterIntakeOz
    requires t.sleepHours >= s.sleepHours && t.junkFoodCravings <= s.junkFoodCravings
    ensures Score(t) >= Score(s)
  {
  }

  lemma ScoreExample(s: DailyStats)
    requires s.workoutsCompleted == 2 && s.waterIntakeOz == 64 && s.sleepHours == 7 && s.junkFoodCravings == 1
    ensures Score(s) == 95
  {
  }

  /** `s` with its score recomputed; no other field changes. */
  function Rescored(s: DailyStats): (r: DailyStats)
    ensures r.score == Score(s) && r.(score := s.score) == s
  {
    s.(score := Score(s))
  }

  /** The record created for a day seen for the first time. */
  function DefaultStats(today: string): (s: DailyStats)
    ensures s.date == today && s.score == 50
    ensures s.workoutsCompleted == 0 && s.waterIntakeOz == 0 && s.steps == 0
    ensures s.screenTimeHours == 0 && s.junkFoodCravings == 0 && s.sleepHours == 0
  {
    DailyStats(today, 0, 0, 0, 0, 0, 0, 50)
  }

  /** The neutral starting score agrees with the formula. */
  lemma DefaultIsScored(today: string)
    ensures Score(DefaultStats(today)) == DefaultStats(today).score
  {
  }

  /** Every stored record carries the score its metrics give. */
  ghost predicate ScoresConsistent(stats: map<string, DailyStats>) {
    forall d :: d in stats ==> stats[d].score == Score(stats[d])
  }

  /** Every stored record is filed under its own date. */
  ghost predicate DatesMatchKeys(stats: map<string, DailyStats>) {
    forall d :: d in stats ==> stats[d].date == d
  }

  /** Today's record, or the default one if the day has none yet. */
  function TodayRecord(stats: map<string, DailyStats>, today: string): DailyStats {
    if today in stats then stats[today] else DefaultStats(today)
  }

  /**
   * The stats map after one update: today's record (the default one if
   * absent) is passed through `f` and rescored; no other day changes.
   */
  function StatsAfterUpdate(stats: map<string, DailyStats>, today: string, f: DailyStats -> DailyStats): (r: map<string, DailyStats>)
    ensures r.Keys == stats.Keys + {today}
    ensures r[today].score == Score(r[today])
    ensures r[today].(score := 0) == f(TodayRecord(stats, today)).(score := 0)
    ensures forall d :: d in stats && d != today ==> r[d] == stats[d]
  {
    stats[today := Rescored(f(TodayRecord(stats, today)))]
  }

  /** Updates keep every stored score consistent, and keep dates filed under their keys when `f` keeps the date. */
  lemma UpdateKeepsInvariants(stats: map<string, DailyStats>, today: string, f: DailyStats -> DailyStats)
    ensures ScoresConsistent(stats) ==> ScoresConsistent(StatsAfterUpdate(stats, today, f))
    ensures DatesMatchKeys(stats) && f(TodayRecord(stats, today)).date == today ==> DatesMatchKeys(StatsAfterUpdate(stats, today, f))
  {
  }

  /** The stats map after a sequence of updates on the same day. */
  function UpdateAll(stats: map<string, DailyStats>, today: string, fs: seq<DailyStats -> DailyStats>): map<string, DailyStats>
    decreases |fs|
  {
    if fs == [] then stats else UpdateAll(StatsAfterUpdate(stats, today, fs[0]), today, fs[1..])
  }

  /** However many updates run on a day, every stored score stays in [0, 100]. */
  lemma {:induction false} ScoreStaysInRange(stats: map<string, DailyStats>, today: string, fs: seq<DailyStats -> DailyStats>)
    requires ScoresConsistent(stats)
    ensures ScoresConsistent(UpdateAll(stats, today, fs))
    ensures forall d :: d in UpdateAll(stats, today, fs) ==> 0 <= UpdateAll(stats, today, fs)[d].score <= 100
    decreases |fs|
  {
    if fs != [] {
      UpdateKeepsInvariants(stats, today, fs[0]);
      ScoreStaysInRange(StatsAfterUpdate(stats, today, fs[0]), today, fs[1..]);
    }
  }

  // ---------------------------------------------------------------- weekly window

  /** The records of the (at most seven) greatest dates, in ascending date order. */
  function Weekly(stats: map<string, DailyStats>): (w: seq<DailyStats>)
    ensures |w| == if |stats| < WEEK then |stats| else WEEK
    ensures forall i :: 0 <= i < |w| ==> w[i] in stats.Values
  {
    var ks := Dates.LatestAscending(stats.Keys, WEEK);
    seq(|ks|, i requires 0 <= i < |ks| => stats[ks[i]])
  }

  /** The dates of a list of records, in order. */
  function DatesOf(w: seq<DailyStats>): seq<string> {
    seq(|w|, i requires 0 <= i < |w| => w[i].date)
  }

  /** When every record is filed under its own date, the window shows exactly the latest dates, ascending. */
  lemma WeeklyDates(stats: map<string, DailyStats>)
    requires DatesMatchKeys(stats)
    ensures DatesOf(Weekly(stats)) == Dates.LatestAscending(stats.Keys, WEEK)
  {
    var ks := Dates.LatestAscending(stats.Keys, WEEK);
    var w := Weekly(stats);
    assert |DatesOf(w)| == |ks|;
    forall i | 0 <= i < |ks|
      ensures DatesOf(w)[i] == ks[i]
    {
      assert w[i] == stats[ks[i]];
    }
  }

  /**
   * When every record is filed under its own date, the window lists stored
   * records in strictly ascending date order, and every stored date it
   * leaves out is earlier than every date it shows.
   */
  lemma WeeklyWindow(stats: map<string, DailyStats>)
    requires DatesMatchKeys(stats)
    ensures var w := Weekly(stats);
      && (forall i :: 0 <= i < |w| ==> w[i].date in stats && stats[w[i].date] == w[i])
      && (forall i, j :: 0 <= i < j < |w| ==> Dates.Before(w[i].date, w[j].date))
      && (forall d, i :: d in stats && d !in DatesOf(w) && 0 <= i < |w| ==> Dates.Before(d, w[i].date))
  {
    WeeklyDates(stats);
  }

  // ---------------------------------------------------------------- daily plan

  function ToggleItem(item: DailyPlanItem, id: string): DailyPlanItem {
    if item.id == id then item.(completed := !item.completed) else item
  }

  /** The plan with `completed` flipped on every item whose id is `id`. */
  function Toggle(plan: seq<DailyPlanItem>, id: string): (r: seq<DailyPlanItem>)
    ensures |r| == |plan|
    ensures forall i :: 0 <= i < |plan| && plan[i].id == id ==> r[i] == plan[i].(completed := !plan[i].completed)
    ensures forall i :: 0 <= i < |plan| && plan[i].id != id ==> r[i] == plan[i]
  {
    if plan == [] then [] else [ToggleItem(plan[0], id)] + Toggle(plan[1..], id)
  }

  /** An id no item has leaves the plan as it is. */
  lemma ToggleUnknownId(plan: seq<DailyPlanItem>, id: string)
    requires forall i :: 0 <= i < |plan| ==> plan[i].id != id
    ensures Toggle(plan, id) == plan
  {
  }

  /** Toggling the same id twice restores the plan. */
  lemma ToggleTwice(plan: seq<DailyPlanItem>, id: string)
    ensures Toggle(Toggle(plan, id), id) == plan
  {
  }

  /** Toggling keeps every id in place. */
  lemma ToggleKeepsIds(plan: seq<DailyPlanItem>, id: string)
    ensures forall i :: 0 <= i < |plan| ==> Toggle(plan, id)[i].id == plan[i].id
  {
  }

  // ---------------------------------------------------------------- the store

  class Store {
    var user: Option<UserProfile>
    var stats: map<string, DailyStats>
    var plan: Option<seq<DailyPlanItem>>
    var lastOpen: Option<string>
    var insight: Option<DailyInsight>
    var videos: map<string, string>

    ghost predicate Valid()
      reads this
    {
      ScoresConsistent(stats)
    }

    /** Storage with no key set. */
    constructor ()
      ensures Valid()
      ensures user == None && stats == map[] && plan == None && lastOpen == None
      ensures insight == None && videos == map[]
    {
      user, stats, plan, lastOpen, insight, videos := None, map[], None, None, None, map[];
    }

    method LoadUser() returns (u: Option<UserProfile>)
      ensures u == user
    {
      u := user;
    }

    method SaveUser(u: UserProfile)
      modifies this`user
      ensures user == Some(u)
    {
      user := Some(u);
    }

    /** Awards `amount` XP to the stored user; fails when nobody has onboarded. */
    method AddXP(amount: int) returns (r: Result<UserProfile, StoreError>)
      modifies this`user
      ensures old(user).None? ==> r == Err(NotOnboarded) && user == None
      ensures old(user).Some? ==> r == Ok(AwardXP(old(user).value, amount)) && user == Some(r.value)
    {
      var u := LoadUser();
      if u.None? {
        return Err(NotOnboarded);
      }
      var xp := u.value.xp + amount;
      var level := u.value.level;
      if xp >= NextLevelXp(level) {
        level := level + 1;
      }
      var updated := u.value.(xp := xp, level := level);
      SaveUser(updated);
      r := Ok(updated);
    }

    /** Today's record, created with the defaults and stored if the day has none. */
    method LoadTodayStats(today: string) returns (s: DailyStats)
      requires Valid()
      modifies this`stats
      ensures Valid()
      ensures today in old(stats) ==> s == old(stats)[today] && stats == old(stats)
      ensures today !in old(stats) ==> s == DefaultStats(today) && stats == old(stats)[today := s]
      ensures DatesMatchKeys(old(stats)) ==> DatesMatchKeys(stats)
    {
      if today !in stats {
        stats := stats[today := DefaultStats(today)];
      }
      s := stats[today];
    }

    /** Applies `f` to today's record, recomputes the score and stores the result under today. */
    method UpdateStats(today: string, f: DailyStats -> DailyStats) returns (updated: DailyStats)
      requires Valid()
      modifies this`stats
      ensures Valid()
      ensures updated == Rescored(f(TodayRecord(old(stats), today)))
      ensures stats == old(stats)[today := updated]
      ensures DatesMatchKeys(old(stats)) && updated.date == today ==> DatesMatchKeys(stats)
    {
      var current;
      if today in stats {
        current := stats[today];
      } else {
        current := LoadTodayStats(today);
      }
      updated := f(current);
      updated := updated.(score := Score(updated));
      stats := stats[today := updated];
    }

    /** The plan must be reset on `today`: the marker is another day, or no plan is stored. */
    predicate NeedsReset(today: string)
      reads this
    {
      lastOpen != Some(today) || plan.None?
    }

    /** Today's plan: the template, stored with today's marker, on a new day; otherwise the stored plan. */
    method LoadDailyPlan(today: string) returns (p: seq<DailyPlanItem>)
      modifies this`plan, this`lastOpen
      ensures old(NeedsReset(today)) ==> p == DAILY_TEMPLATE && plan == Some(DAILY_TEMPLATE) && lastOpen == Some(today)
      ensures !old(NeedsReset(today)) ==> p == old(plan).value && plan == old(plan) && lastOpen == old(lastOpen)
      ensures lastOpen == Some(today) && plan == Some(p)
    {
      if lastOpen != Some(today) || plan.None? {
        lastOpen := Some(today);
        plan := Some(DAILY_TEMPLATE);
        return DAILY_TEMPLATE;
      }
      p := plan.value;
    }

    /** Flips the item `id` in today's plan and stores the plan. */
    method TogglePlanItem(today: string, id: string) returns (p: seq<DailyPlanItem>)
      modifies this`plan, this`lastOpen
      ensures p == Toggle(if old(NeedsReset(today)) then DAILY_TEMPLATE else old(plan).value, id)
      ensures plan == Some(p) && lastOpen == Some(today)
    {
      var current := LoadDailyPlan(today);
      p := Toggle(current, id);
      plan := Some(p);
    }

    method GetWeeklyStats() returns (w: seq<DailyStats>)
      ensures w == Weekly(stats)
    {
      w := Weekly(stats);
    }

    method SaveDailyInsight(i: DailyInsight)
      modifies this`insight
      ensures insight == Some(i)
    {
      insight := Some(i);
    }

    /** The cached insight, only if it is stamped with today's date. */
    method LoadDailyInsight(today: string) returns (r: Option<DailyInsight>)
      ensures r.Some? <==> insight.Some? && insight.value.date == today
      ensures r.Some? ==> r == insight
    {
      if insight.None? {
        return None;
      }
      if insight.value.date != today {
        return None;
      }
      r := insight;
    }

    method SaveExerciseVideo(id: string, url: string)
      modifies this`videos
      ensures videos == old(videos)[id := url]
    {
      videos := videos[id := url];
    }

    /** The cached video of exercise `id`; an empty URL reads as none. */
    method GetExerciseVideo(id: string) returns (r: Option<string>)
      ensures r.Some? <==> id in videos && videos[id] != ""
      ensures r.Some? ==> r.value == videos[id]
    {
      if id in videos && videos[id] != "" {
        r := Some(videos[id]);
      } else {
        r := None;
      }
    }
  }
}
