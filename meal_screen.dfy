/**
 * The meal screen: the type filter over the catalog's meals, and a log of
 * the meals eaten this visit, each at most once. Logging a "Cheat Swap"
 * meal counts one craving fewer for today.
 */
module MealScreen {
  import opened Types
  import opened Catalog
  import opened Storage

  datatype Filter = All | Only(mealType: MealType)

  /** The filter buttons, in screen order. */
  const FILTER_TYPES: seq<Filter> := [All, Only(Healthy), Only(Balanced), Only(Budget), Only(CheatSwap)]

  /** The buttons: All first, then one for each meal type, each once. */
  lemma FilterButtons()
    ensures |FILTER_TYPES| == 5 && FILTER_TYPES[0] == All
    ensures forall t: MealType :: Only(t) in FILTER_TYPES[1..]
    ensures forall i, j :: 0 <= i < j < |FILTER_TYPES| ==> FILTER_TYPES[i] != FILTER_TYPES[j]
  {
    forall t: MealType
      ensures Only(t) in FILTER_TYPES[1..]
    {
      var rest := FILTER_TYPES[1..];
      assert rest == [Only(Healthy), Only(Balanced), Only(Budget), Only(CheatSwap)];
      match t
      case Healthy => assert rest[0] == Only(t);
      case Balanced => assert rest[1] == Only(t);
      case Budget => assert rest[2] == Only(t);
      case CheatSwap => assert rest[3] == Only(t);
    }
  }

  /** The meals of type `t`, in their order. */
  function OfType(meals: seq<MealOption>, t: MealType): (r: seq<MealOption>)
    ensures |r| <= |meals|
    ensures forall i :: 0 <= i < |r| ==> r[i].mealType == t
  {
    if meals == [] then []
    else (if meals[0].mealType == t then [meals[0]] else []) + OfType(meals[1..], t)
  }

  /** A meal is shown under type `t` exactly when it is in the list and has that type. */
  lemma {:induction false} OfTypeMembers(meals: seq<MealOption>, t: MealType, m: MealOption)
    ensures m in OfType(meals, t) <==> m in meals && m.mealType == t
  {
    if meals != [] {
      OfTypeMembers(meals[1..], t, m);
      assert meals == [meals[0]] + meals[1..];
    }
  }

  /** The meals shown under filter `f`: all of them for `All`, those of the chosen type otherwise. */
  function FilteredMeals(f: Filter): seq<MealOption> {
    match f
    case All => MEALS
    case Only(t) => OfType(MEALS, t)
  }

  lemma OfTypeCons(m: MealOption, rest: seq<MealOption>, t: MealType)
    ensures OfType([m] + rest, t) == (if m.mealType == t then [m] else []) + OfType(rest, t)
  {
  }

  /** `OfType` over a four-meal list, written out. */
  lemma OfTypeFour(ms: seq<MealOption>, t: MealType)
    requires |ms| == 4
    ensures OfType(ms, t) == (if ms[0].mealType == t then [ms[0]] else [])
      + ((if ms[1].mealType == t then [ms[1]] else [])
      + ((if ms[2].mealType == t then [ms[2]] else [])
      + (if ms[3].mealType == t then [ms[3]] else [])))
  {
    var a, b, c, d := ms[0], ms[1], ms[2], ms[3];
    assert ms == [a] + ([b] + ([c] + ([d] + [])));
    OfTypeCons(d, [], t);
    assert OfType([d] + [], t) == (if d.mealType == t then [d] else []);
    OfTypeCons(c, [d] + [], t);
    OfTypeCons(b, [c] + ([d] + []), t);
    OfTypeCons(a, [b] + ([c] + ([d] + [])), t);
  }

  /** The catalog under each filter: nothing is "Budget", and only m4 is a "Cheat Swap". */
  lemma FilteredCatalog()
    ensures FilteredMeals(All) == MEALS
    ensures FilteredMeals(Only(Healthy)) == [MEALS[0], MEALS[2]]
    ensures FilteredMeals(Only(Balanced)) == [MEALS[1]]
    ensures FilteredMeals(Only(Budget)) == []
    ensures FilteredMeals(Only(CheatSwap)) == [MEALS[3]]
  {
    assert MEALS[0].mealType == Healthy && MEALS[1].mealType == Balanced;
    assert MEALS[2].mealType == Healthy && MEALS[3].mealType == CheatSwap;
    OfTypeFour(MEALS, Healthy);
    OfTypeFour(MEALS, Balanced);
    OfTypeFour(MEALS, Budget);
    OfTypeFour(MEALS, CheatSwap);
  }

  /** The record after logging a meal: one craving fewer for a cheat swap (no floor at 0), otherwise unchanged. */
  function LogCraving(s: DailyStats, isCheat: bool): DailyStats {
    s.(junkFoodCravings := if isCheat then s.junkFoodCravings - 1 else s.junkFoodCravings)
  }

  function CravingUpdate(isCheat: bool): DailyStats -> DailyStats {
    s => LogCraving(s, isCheat)
  }

  /**
   * Logging changes only today's cravings, by exactly one for a cheat swap;
   * the score is then recomputed.
   */
  lemma LogMealEffect(stats: map<string, DailyStats>, today: string, isCheat: bool)
    ensures var r := StatsAfterUpdate(stats, today, CravingUpdate(isCheat));
      var before := TodayRecord(stats, today);
      && r[today].junkFoodCravings == before.junkFoodCravings - (if isCheat then 1 else 0)
      && r[today].(junkFoodCravings := 0, score := 0) == before.(junkFoodCravings := 0, score := 0)
      && r[today].score == Score(r[today])
      && forall d :: d in stats && d != today ==> r[d] == stats[d]
  {
  }

  predicate NoDuplicates(ids: seq<string>) {
    forall i, j :: 0 <= i < j < |ids| ==> ids[i] != ids[j]
  }

  class MealLog {
    /** The storage cravings are counted in. */
    const store: Store
    var selectedType: Filter
    var logged: seq<string>

    /** A meal appears in the log at most once. */
    ghost predicate Valid()
      reads this
    {
      NoDuplicates(logged)
    }

    constructor (store: Store)
      ensures Valid() && this.store == store
      ensures selectedType == All && logged == []
    {
      this.store := store;
      selectedType := All;
      logged := [];
    }

    method SelectType(f: Filter)
      modifies this`selectedType
      ensures selectedType == f
    {
      selectedType := f;
    }

    /** Logs meal `id` once; a meal already logged changes nothing. */
    method HandleLogMeal(today: string, id: string, isCheat: bool)
      requires Valid() && store.Valid()
      modifies this`logged, store`stats
      ensures Valid() && store.Valid()
      ensures id in old(logged) ==> logged == old(logged) && store.stats == old(store.stats)
      ensures id !in old(logged) ==> logged == old(logged) + [id]
      ensures id !in old(logged) ==> store.stats == StatsAfterUpdate(old(store.stats), today, CravingUpdate(isCheat))
    {
      if id !in logged {
        logged := logged + [id];
        var _ := store.UpdateStats(today, CravingUpdate(isCheat));
      }
    }

    /** The add button of a meal card: a cheat swap when the meal's type says so. */
    method LogMeal(today: string, meal: MealOption)
      requires Valid() && store.Valid()
      modifies this`logged, store`stats
      ensures Valid() && store.Valid()
      ensures meal.id in old(logged) ==> logged == old(logged) && store.stats == old(store.stats)
      ensures meal.id !in old(logged) ==> logged == old(logged) + [meal.id]
      ensures meal.id !in old(logged) ==>
        store.stats == StatsAfterUpdate(old(store.stats), today, CravingUpdate(meal.mealType == CheatSwap))
    {
      HandleLogMeal(today, meal.id, meal.mealType == CheatSwap);
    }
  }
}
