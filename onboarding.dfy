/**
 * The three-step onboarding form. It edits a draft profile field by field,
 * toggles goals, and on the last step saves the draft as the user profile,
 * provided a name was given.
 */
module Onboarding {
  import opened Wrappers
  import opened Types
  import opened Storage

  /** The goal tags offered on step 2, in screen order. */
  const GOAL_OPTIONS: seq<string> :=
    ["Fat Loss", "Muscle Gain", "Better Sleep", "Clear Skin", "Reduce Stress", "Better Diet", "Run 5k", "Just Move"]

  /**
   * The draft the form starts from: level 1, no XP, no goals, city, the
   * default lifestyle, joined today; name, age, gender and fitness level
   * not yet given (an absent name reads as "").
   */
  function InitialDraft(today: string): (d: UserProfile)
    ensures d.level == 1 && d.xp == 0 && d.goals == [] && d.locationType == City
    ensures d.name == "" && d.age == None && d.gender == None && d.fitnessLevel == None
    ensures d.joinedDate == today
    ensures d.lifestyle == Lifestyle("No fixed routine", "3-6h", "Medium")
  {
    UserProfile("", None, None, City, None, [], Lifestyle("No fixed routine", "3-6h", "Medium"), 0, 1, today)
  }

  /** A top-level field of the form and the value it is given. */
  datatype Field =
    | Name(name: string)
    | Age(age: int)
    | Gender(gender: string)
    | LocationType(location: Location)
    | Fitness(fitness: FitnessLevel)
    | Goals(goals: seq<string>)

  /** The draft with one field replaced; every other field is kept. */
  function WithField(d: UserProfile, f: Field): (r: UserProfile)
    ensures f.Name? ==> r.name == f.name && r.(name := d.name) == d
    ensures f.Age? ==> r.age == Some(f.age) && r.(age := d.age) == d
    ensures f.Gender? ==> r.gender == Some(f.gender) && r.(gender := d.gender) == d
    ensures f.LocationType? ==> r.locationType == f.location && r.(locationType := d.locationType) == d
    ensures f.Fitness? ==> r.fitnessLevel == Some(f.fitness) && r.(fitnessLevel := d.fitnessLevel) == d
    ensures f.Goals? ==> r.goals == f.goals && r.(goals := d.goals) == d
  {
    match f
    case Name(n) => d.(name := n)
    case Age(a) => d.(age := Some(a))
    case Gender(g) => d.(gender := Some(g))
    case LocationType(l) => d.(locationType := l)
    case Fitness(l) => d.(fitnessLevel := Some(l))
    case Goals(gs) => d.(goals := gs)
  }

  datatype LifestyleKey = SleepType | ScreenTime | WaterIntake

  /** The draft with one lifestyle entry replaced; the other entries and every other field are kept. */
  function WithLifestyle(d: UserProfile, k: LifestyleKey, v: string): (r: UserProfile)
    ensures r.(lifestyle := d.lifestyle) == d
    ensures k == SleepType ==> r.lifestyle == d.lifestyle.(sleepType := v)
    ensures k == ScreenTime ==> r.lifestyle == d.lifestyle.(screenTime := v)
    ensures k == WaterIntake ==> r.lifestyle == d.lifestyle.(waterIntake := v)
  {
    var l := d.lifestyle;
    d.(lifestyle := match k
      case SleepType => l.(sleepType := v)
      case ScreenTime => l.(screenTime := v)
      case WaterIntake => l.(waterIntake := v))
  }

  /** `goals` without any occurrence of `g`, the rest in order. */
  function Without(goals: seq<string>, g: string): (r: seq<string>)
    ensures forall x :: x in r <==> x in goals && x != g
    ensures g !in goals ==> r == goals
  {
    if goals == [] then []
    else (if goals[0] == g then [] else [goals[0]]) + Without(goals[1..], g)
  }

  lemma {:induction false} WithoutAppend(a: seq<string>, b: seq<string>, g: string)
    ensures Without(a + b, g) == Without(a, g) + Without(b, g)
  {
    if a == [] {
      assert a + b == b;
    } else {
      assert (a + b)[1..] == a[1..] + b;
      WithoutAppend(a[1..], b, g);
    }
  }

  /** A goal is added at the end when absent, and removed everywhere when present. */
  function Toggled(goals: seq<string>, g: string): (r: seq<string>)
    ensures g !in goals ==> r == goals + [g]
    ensures g in goals ==> g !in r && forall x :: x != g ==> (x in r <==> x in goals)
  {
    if g in goals then Without(goals, g) else goals + [g]
  }

  /** Toggling an absent goal twice restores the list. */
  lemma ToggledTwiceAbsent(goals: seq<string>, g: string)
    requires g !in goals
    ensures Toggled(Toggled(goals, g), g) == goals
  {
    WithoutAppend(goals, [g], g);
    assert Without([g], g) == [];
  }

  /** Toggling a present goal twice moves it, once, to the end. */
  lemma ToggledTwicePresent(goals: seq<string>, g: string)
    requires g in goals
    ensures Toggled(Toggled(goals, g), g) == Without(goals, g) + [g]
  {
  }

  /** Taps each goal of `gs` in turn. */
  function ToggleAll(goals: seq<string>, gs: seq<string>): seq<string>
    decreases |gs|
  {
    if gs == [] then goals else ToggleAll(Toggled(goals, gs[0]), gs[1..])
  }

  predicate Distinct(gs: seq<string>) {
    forall i, j :: 0 <= i < j < |gs| ==> gs[i] != gs[j]
  }

  /** Tapping distinct goals not yet chosen appends them in tap order. */
  lemma {:induction false} ToggleAllFresh(goals: seq<string>, gs: seq<string>)
    requires Distinct(gs)
    requires forall g :: g in gs ==> g !in goals
    ensures ToggleAll(goals, gs) == goals + gs
    decreases |gs|
  {
    if gs != [] {
      var g := gs[0];
      assert g in gs;
      forall x | x in gs[1..]
        ensures x !in goals + [g]
      {
        var k :| 0 <= k < |gs[1..]| && gs[1..][k] == x;
        assert gs[k + 1] == x && gs[0] != gs[k + 1];
        assert x in gs;
      }
      ToggleAllFresh(goals + [g], gs[1..]);
      assert goals + [g] + gs[1..] == goals + gs;
    }
  }

  /** Tapping every offered goal once, starting from none, selects them all in screen order. */
  lemma SelectEveryGoal()
    ensures ToggleAll([], GOAL_OPTIONS) == GOAL_OPTIONS
  {
    ToggleAllFresh([], GOAL_OPTIONS);
  }

  class Wizard {
    /** The storage the profile is saved to. */
    const store: Store
    var step: int
    var form: UserProfile

    ghost predicate Valid()
      reads this
    {
      1 <= step <= 3
    }

    constructor (store: Store, today: string)
      ensures Valid() && this.store == store
      ensures step == 1 && form == InitialDraft(today)
    {
      this.store := store;
      step := 1;
      form := InitialDraft(today);
    }

    method UpdateField(f: Field)
      modifies this`form
      ensures form == WithField(old(form), f)
    {
      form := WithField(form, f);
    }

    method UpdateLifestyle(k: LifestyleKey, v: string)
      modifies this`form
      ensures form == WithLifestyle(old(form), k, v)
    {
      form := WithLifestyle(form, k, v);
    }

    method ToggleGoal(g: string)
      modifies this`form
      ensures form == old(form).(goals := Toggled(old(form).goals, g))
    {
      form := WithField(form, Goals(Toggled(form.goals, g)));
    }

    /** Saves the draft as the user profile, only if it has a name. */
    method FinishOnboarding()
      modifies store`user
      ensures form.name != "" ==> store.user == Some(form)
      ensures form.name == "" ==> store.user == old(store.user)
    {
      if form.name != "" {
        store.SaveUser(form);
      }
    }

    /** The main button is disabled on step 1 until a name is typed. */
    predicate NextDisabled()
      reads this
    {
      step == 1 && form.name == ""
    }

    /** The main button: the next step on steps 1 and 2, finishing on step 3. */
    method Next()
      requires Valid()
      modifies this`step, store`user
      ensures Valid() && form == old(form)
      ensures old(NextDisabled()) ==> step == old(step) && store.user == old(store.user)
      ensures !old(NextDisabled()) && old(step) < 3 ==> step == old(step) + 1 && store.user == old(store.user)
      ensures old(step) == 3 ==> step == 3
      ensures old(step) == 3 && form.name != "" ==> store.user == Some(form)
      ensures old(step) == 3 && form.name == "" ==> store.user == old(store.user)
    {
      if step == 1 && form.name == "" {
        return;
      }
      if step < 3 {
        step := step + 1;
      } else {
        FinishOnboarding();
      }
    }
  }
}
