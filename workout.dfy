/**
 * The guided workout session: which routines a user is offered, and the
 * session state the screen's handlers and its one-second timer update. A
 * finished session awards the routine's XP and counts one workout for today
 * in the store.
 */
module Workout {
  import opened Wrappers
  import opened Types
  import opened Catalog
  import opened Storage

  /** The routines of `ws` whose gate `level` meets, in the order of `ws`. */
  function OfferedFrom(ws: seq<WorkoutRoutine>, level: int): (r: seq<WorkoutRoutine>)
    ensures forall w :: w in r <==> w in ws && w.minLevel <= level
    ensures |r| <= |ws|
  {
    if ws == [] then []
    else (if ws[0].minLevel <= level then [ws[0]] else []) + OfferedFrom(ws[1..], level)
  }

  function Offered(level: int): seq<WorkoutRoutine> {
    OfferedFrom(WORKOUTS, level)
  }

  /** What each level is offered: level 1 only the first routine. */
  lemma OfferedByLevel(level: int)
    ensures level < 1 ==> Offered(level) == []
    ensures 1 <= level < 3 ==> Offered(level) == [MORNING_GLOW_UP]
    ensures 3 <= level < 5 ==> Offered(level) == [MORNING_GLOW_UP, CORE_CRUSHER]
    ensures 5 <= level ==> Offered(level) == WORKOUTS
  {
    assert [FULL_BODY_IGNITE][1..] == [];
    assert OfferedFrom([FULL_BODY_IGNITE], level) == if 5 <= level then [FULL_BODY_IGNITE] else [];
    assert [CORE_CRUSHER, FULL_BODY_IGNITE][1..] == [FULL_BODY_IGNITE];
    assert OfferedFrom([CORE_CRUSHER, FULL_BODY_IGNITE], level)
      == (if 3 <= level then [CORE_CRUSHER] else []) + OfferedFrom([FULL_BODY_IGNITE], level);
    assert WORKOUTS[1..] == [CORE_CRUSHER, FULL_BODY_IGNITE];
    assert Offered(level)
      == (if 1 <= level then [MORNING_GLOW_UP] else []) + OfferedFrom([CORE_CRUSHER, FULL_BODY_IGNITE], level);
  }

  /** The update a finished workout applies to today's record. */
  function CountWorkout(s: DailyStats): DailyStats {
    s.(workoutsCompleted := s.workoutsCompleted + 1)
  }

  /** Finishing counts exactly one more workout for today and leaves the other metrics and days alone. */
  lemma CountWorkoutEffect(stats: map<string, DailyStats>, today: string)
    ensures var r := StatsAfterUpdate(stats, today, CountWorkout);
      var before := TodayRecord(stats, today);
      && r[today].workoutsCompleted == before.workoutsCompleted + 1
      && r[today].(workoutsCompleted := 0, score := 0) == before.(workoutsCompleted := 0, score := 0)
      && forall d :: d in stats && d != today ==> r[d] == stats[d]
  {
  }

  class Session {
    /** The storage the session awards into. */
    const store: Store
    var active: Option<WorkoutRoutine>
    var playing: bool
    var index: nat
    var timeLeft: int
    var completed: bool

    /**
     * Only an active session plays; a completed one is paused; the index
     * points at an exercise of the active routine.
     */
    ghost predicate Consistent()
      reads this
    {
      && (active.None? ==> !playing && !completed)
      && (completed ==> !playing)
      && (active.Some? ==> Playable(active.value) && index < |active.value.exercises|)
    }

    /** Besides, until completion the countdown is positive and at most the current exercise's length. */
    ghost predicate Valid()
      reads this
    {
      && Consistent()
      && (active.Some? && !completed ==> 0 < timeLeft <= active.value.exercises[index].durationSec)
    }

    /** The session screen is showing (not the list, not the summary). */
    predicate InSession()
      reads this
    {
      active.Some? && !completed
    }

    /** The routine's XP went to the stored user and today's workout count rose by one; with no user, nothing was stored. */
    twostate predicate Awarded(today: string)
      reads this, store
    {
      && old(active).Some?
      && (old(store.user).None? ==> store.user == None && store.stats == old(store.stats))
      && (old(store.user).Some? ==>
            && store.user == Some(AwardXP(old(store.user).value, old(active).value.xpReward))
            && store.stats == StatsAfterUpdate(old(store.stats), today, CountWorkout))
      && store.plan == old(store.plan) && store.lastOpen == old(store.lastOpen)
      && store.insight == old(store.insight) && store.videos == old(store.videos)
    }

    /** One advance: the next exercise with a fresh countdown, or, after the last one, completion and the award. */
    twostate predicate Advanced(today: string)
      reads this, store
    {
      && old(active).Some? && active == old(active)
      && (old(index) < |old(active).value.exercises| - 1 ==>
            && index == old(index) + 1
            && timeLeft == active.value.exercises[index].durationSec
            && playing == old(playing) && !completed
            && unchanged(store))
      && (old(index) >= |old(active).value.exercises| - 1 ==>
            && index == old(index)
            && !playing && completed
            && Awarded(today))
    }

    constructor (store: Store)
      ensures Valid() && this.store == store
      ensures active == None && !playing && index == 0 && timeLeft == 0 && !completed
    {
      this.store := store;
      active, playing, index, timeLeft, completed := None, false, 0, 0, false;
    }

    method StartWorkout(r: WorkoutRoutine)
      requires Valid() && Playable(r)
      modifies this
      ensures Valid()
      ensures active == Some(r) && playing && index == 0 && !completed
      ensures timeLeft == r.exercises[0].durationSec
    {
      active := Some(r);
      playing := true;
      index := 0;
      timeLeft := r.exercises[0].durationSec;
      completed := false;
    }

    /** Stops the session, marks it completed and awards it. */
    method FinishWorkout(today: string)
      requires Consistent() && InSession() && store.Valid()
      modifies this, store
      ensures Valid() && store.Valid()
      ensures !playing && completed
      ensures active == old(active) && index == old(index) && timeLeft == old(timeLeft)
      ensures Awarded(today)
    {
      playing := false;
      completed := true;
      var awarded := store.AddXP(active.value.xpReward);
      if awarded.Ok? {
        var _ := store.UpdateStats(today, CountWorkout);
      }
    }

    /** Moves to the next exercise, or finishes after the last one; does nothing with no active routine. */
    method HandleNextExercise(today: string)
      requires Consistent() && !completed && store.Valid()
      modifies this, store
      ensures old(active).Some? ==> Valid()
      ensures Consistent() && store.Valid()
      ensures old(active).None? ==> unchanged(this) && unchanged(store)
      ensures old(active).Some? ==> Advanced(today)
      ensures old(active).Some? && completed ==> timeLeft == old(timeLeft)
    {
      if active.None? {
        return;
      }
      if index < |active.value.exercises| - 1 {
        index := index + 1;
        timeLeft := active.value.exercises[index].durationSec;
      } else {
        FinishWorkout(today);
      }
    }

    /**
     * One second of the timer: while playing, the countdown drops by one,
     * and on reaching 0 the session advances. Paused, nothing happens.
     */
    method Tick(today: string)
      requires Valid() && store.Valid()
      modifies this, store
      ensures Valid() && store.Valid()
      ensures !old(playing) ==> unchanged(this) && unchanged(store)
      ensures old(playing) && old(timeLeft) > 1 ==>
        && timeLeft == old(timeLeft) - 1
        && playing && !completed && active == old(active) && index == old(index)
        && unchanged(store)
      ensures old(playing) && old(timeLeft) == 1 ==> Advanced(today)
      ensures old(playing) && old(timeLeft) == 1 && completed ==> timeLeft == 0
    {
      if playing && timeLeft > 0 {
        timeLeft := timeLeft - 1;
        if playing && timeLeft == 0 {
          HandleNextExercise(today);
        }
      }
    }

    /** The pause/resume button. */
    method TogglePause()
      requires Valid() && InSession()
      modifies this`playing
      ensures Valid() && playing == !old(playing)
    {
      playing := !playing;
    }

    /** The skip button: advance now, whatever the countdown shows. */
    method Skip(today: string)
      requires Valid() && InSession() && store.Valid()
      modifies this, store
      ensures Valid() && store.Valid()
      ensures Advanced(today)
      ensures completed ==> timeLeft == old(timeLeft)
    {
      HandleNextExercise(today);
    }

    /** The back button: leave the session without storing anything. */
    method Back()
      requires Valid() && InSession()
      modifies this`active, this`playing
      ensures Valid() && active == None && !playing
    {
      active := None;
      playing := false;
    }

    /** The close button of the summary: back to the routine list. */
    method CloseSummary()
      requires Valid() && completed
      modifies this`active, this`completed
      ensures Valid() && active == None && !completed
    {
      active := None;
      completed := false;
    }
  }

  /**
   * A two-exercise routine (10 s and 5 s, 50 XP), started by a level-1 user
   * with no XP: fifteen ticks complete it, once; the summary is closed and
   * further ticks award nothing.
   */
  method TwoExerciseSession(today: string) returns (finished: bool, idle: bool, xp: int, level: int, workouts: int, onlyToday: bool)
    ensures finished && idle
    ensures xp == 50 && level == 1 && workouts == 1 && onlyToday
  {
    var store := new Store();
    var u := UserProfile("Ada", None, None, City, None, [], Lifestyle("", "", ""), 0, 1, today);
    store.SaveUser(u);
    var routine := WorkoutRoutine("t", "Test", 1, 1, [],
      [Exercise("a", "A", 10, None, "", false), Exercise("b", "B", 5, None, "", false)], 50);
    var s := new Session(store);
    s.StartWorkout(routine);
    var k := 0;
    while k < 10
      invariant 0 <= k <= 10 && s.Valid() && store.Valid() && s.store == store
      invariant s.active == Some(routine) && s.playing && !s.completed
      invariant k < 10 ==> s.index == 0 && s.timeLeft == 10 - k
      invariant k == 10 ==> s.index == 1 && s.timeLeft == 5
      invariant store.user == Some(u) && store.stats == map[]
    {
      s.Tick(today);
      k := k + 1;
    }
    while k < 15
      invariant 10 <= k <= 15 && s.Valid() && store.Valid() && s.store == store
      invariant s.active == Some(routine) && s.index == 1
      invariant k < 15 ==> s.playing && !s.completed && s.timeLeft == 15 - k
      invariant k < 15 ==> store.user == Some(u) && store.stats == map[]
      invariant k == 15 ==> !s.playing && s.completed
      invariant k == 15 ==> store.user == Some(AwardXP(u, 50))
      invariant k == 15 ==> store.stats == StatsAfterUpdate(map[], today, CountWorkout)
    {
      s.Tick(today);
      k := k + 1;
    }
    finished := s.completed && !s.playing;
    s.CloseSummary();
    s.Tick(today);
    s.Tick(today);
    idle := s.active == None && !s.playing && !s.completed;
    xp, level := store.user.value.xp, store.user.value.level;
    workouts := store.stats[today].workoutsCompleted;
    onlyToday := store.stats.Keys == {today};
  }
}
