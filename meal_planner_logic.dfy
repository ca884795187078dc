/**
 * The weekly meal-plan ledger: seven days, each with five meal slots, each
 * slot an ordered list of food items whose macro totals are scaled from the
 * food's per-100 g values. The session state that holds the ledger is the
 * class Session; the totals are views recomputed from the items on demand.
 */
module MealPlannerLogic {
  import opened Wrappers
  import opened Tenths
  import FoodDb

  datatype Day = Lunedi | Martedi | Mercoledi | Giovedi | Venerdi | Sabato | Domenica

  datatype Meal = Colazione | SpuntinoMattina | Pranzo | SpuntinoPomeriggio | Cena

  /** The days in the order the planner lists and sums them. */
  const DAYS_OF_WEEK: seq<Day> := [Lunedi, Martedi, Mercoledi, Giovedi, Venerdi, Sabato, Domenica]

  /** The meal slots of a day, in the order the planner lists and sums them. */
  const MEAL_TYPES: seq<Meal> := [Colazione, SpuntinoMattina, Pranzo, SpuntinoPomeriggio, Cena]

  /** The position of a meal slot in MEAL_TYPES. */
  function MealIndex(m: Meal): (k: nat)
    ensures k < |MEAL_TYPES| && MEAL_TYPES[k] == m
    ensures forall j :: 0 <= j < |MEAL_TYPES| && MEAL_TYPES[j] == m ==> j == k
  {
    match m
    case Colazione => 0
    case SpuntinoMattina => 1
    case Pranzo => 2
    case SpuntinoPomeriggio => 3
    case Cena => 4
  }

  /** The position of a day in DAYS_OF_WEEK. */
  function DayIndex(d: Day): (k: nat)
    ensures k < |DAYS_OF_WEEK| && DAYS_OF_WEEK[k] == d
    ensures forall j :: 0 <= j < |DAYS_OF_WEEK| && DAYS_OF_WEEK[j] == d ==> j == k
  {
    match d
    case Lunedi => 0
    case Martedi => 1
    case Mercoledi => 2
    case Giovedi => 3
    case Venerdi => 4
    case Sabato => 5
    case Domenica => 6
  }

  /** The key under which each day is stored and shown. */
  function DayName(d: Day): string
  {
    match d
    case Lunedi => "Lunedì"
    case Martedi => "Martedì"
    case Mercoledi => "Mercoledì"
    case Giovedi => "Giovedì"
    case Venerdi => "Venerdì"
    case Sabato => "Sabato"
    case Domenica => "Domenica"
  }

  /** The key under which each meal slot is stored and shown. */
  function MealName(m: Meal): string
  {
    match m
    case Colazione => "Colazione"
    case SpuntinoMattina => "Spuntino Mattina"
    case Pranzo => "Pranzo"
    case SpuntinoPomeriggio => "Spuntino Pomeriggio"
    case Cena => "Cena"
  }

  /**
   * The source keys its dictionaries by these strings; distinct days and
   * distinct slots have distinct keys, so keying the model by Day and Meal
   * loses nothing.
   */
  lemma NamesAreKeys()
    ensures forall a: Day, b: Day :: DayName(a) == DayName(b) ==> a == b
    ensures forall a: Meal, b: Meal :: MealName(a) == MealName(b) ==> a == b
  {
  }

  predicate NoDuplicates<T(==)>(s: seq<T>)
  {
    forall i, j :: 0 <= i < j < |s| ==> s[i] != s[j]
  }

  lemma DaysOfWeekEnumerateDays()
    ensures |DAYS_OF_WEEK| == 7 && NoDuplicates(DAYS_OF_WEEK)
    ensures forall d: Day :: d in DAYS_OF_WEEK
  {
    forall d: Day ensures d in DAYS_OF_WEEK {
      match d
      case Lunedi => assert DAYS_OF_WEEK[0] == d;
      case Martedi => assert DAYS_OF_WEEK[1] == d;
      case Mercoledi => assert DAYS_OF_WEEK[2] == d;
      case Giovedi => assert DAYS_OF_WEEK[3] == d;
      case Venerdi => assert DAYS_OF_WEEK[4] == d;
      case Sabato => assert DAYS_OF_WEEK[5] == d;
      case Domenica => assert DAYS_OF_WEEK[6] == d;
    }
  }

  lemma MealTypesEnumerateMeals()
    ensures |MEAL_TYPES| == 5 && NoDuplicates(MEAL_TYPES)
    ensures forall m: Meal :: m in MEAL_TYPES
  {
    forall m: Meal ensures m in MEAL_TYPES {
      match m
      case Colazione => assert MEAL_TYPES[0] == m;
      case SpuntinoMattina => assert MEAL_TYPES[1] == m;
      case Pranzo => assert MEAL_TYPES[2] == m;
      case SpuntinoPomeriggio => assert MEAL_TYPES[3] == m;
      case Cena => assert MEAL_TYPES[4] == m;
    }
  }

  /**
   * A planned food: its name, the grams chosen, its four macro totals for that
   * amount and the per-100 g values they were scaled from (no fibre).
   */
  datatype FoodItem = FoodItem(name: string, grams: int, totals: Macros, base: Macros)

  type DayPlan = map<Meal, seq<FoodItem>>

  type Plan = map<Day, DayPlan>

  /** Every one of the 7 x 5 (day, meal) cells exists. */
  predicate Complete(p: Plan)
  {
    forall d: Day :: d in p && forall m: Meal :: m in p[d]
  }

  predicate HasCell(p: Plan, d: Day, m: Meal)
  {
    d in p && m in p[d]
  }

  /** The plan a new session starts with: every cell present and empty. */
  function EmptyPlan(): (p: Plan)
    ensures Complete(p)
    ensures forall d: Day, m: Meal :: p[d][m] == []
  {
    DaysOfWeekEnumerateDays();
    MealTypesEnumerateMeals();
    map d | d in DAYS_OF_WEEK :: map m | m in MEAL_TYPES :: []
  }

  /** The item add_food_to_meal builds for `grams` grams of a table row. */
  function MakeItem(row: FoodDb.FoodRow, grams: int): (it: FoodItem)
    ensures it.name == row.name && it.grams == grams
    ensures it.base == Macros(row.kcal, row.prot, row.carb, row.fat)
    ensures ScaledFrom(it)
  {
    FoodItem(row.name, grams,
             Macros(Scale(row.kcal, grams), Scale(row.prot, grams), Scale(row.carb, grams), Scale(row.fat, grams)),
             Macros(row.kcal, row.prot, row.carb, row.fat))
  }

  /** Each total of an item is its base value times grams / 100, rounded to one decimal. */
  predicate ScaledFrom(it: FoodItem)
  {
    && it.totals.kcal == Scale(it.base.kcal, it.grams)
    && it.totals.prot == Scale(it.base.prot, it.grams)
    && it.totals.carb == Scale(it.base.carb, it.grams)
    && it.totals.fat == Scale(it.base.fat, it.grams)
  }

  /** Every item of the plan carries totals scaled from the base values it keeps. */
  predicate AllScaled(p: Plan)
  {
    forall d, m, it :: d in p && m in p[d] && it in p[d][m] ==> ScaledFrom(it)
  }

  /** The plan after appending `it` to cell (d, m). */
  function Append(p: Plan, d: Day, m: Meal, it: FoodItem): (q: Plan)
    requires HasCell(p, d, m)
    ensures q.Keys == p.Keys && q[d].Keys == p[d].Keys
    ensures q[d][m] == p[d][m] + [it]
    ensures forall m' :: m' in p[d] && m' != m ==> q[d][m'] == p[d][m']
    ensures forall d' :: d' in p && d' != d ==> q[d'] == p[d']
  {
    p[d := p[d][m := p[d][m] + [it]]]
  }

  /** A day's slots after the first n meal slots, in MEAL_TYPES order, were set to []. */
  function ClearFirst(dp: DayPlan, n: nat): (r: DayPlan)
    requires n <= |MEAL_TYPES|
    ensures forall m: Meal :: m in r <==> m in dp || MealIndex(m) < n
    ensures forall m: Meal :: MealIndex(m) < n ==> r[m] == []
    ensures forall m: Meal :: m in dp && n <= MealIndex(m) ==> r[m] == dp[m]
  {
    if n == 0 then dp else ClearFirst(dp, n - 1)[MEAL_TYPES[n - 1] := []]
  }

  /** The plan after emptying every meal slot of day d; nothing else changes. */
  function ClearedDay(p: Plan, d: Day): (q: Plan)
    requires d in p
    ensures q.Keys == p.Keys
    ensures forall m: Meal :: m in q[d] && q[d][m] == []
    ensures forall d' :: d' in p && d' != d ==> q[d'] == p[d']
  {
    p[d := ClearFirst(p[d], |MEAL_TYPES|)]
  }

  /** Appending a scaled item keeps every item of the plan scaled. */
  lemma AppendKeepsScaled(p: Plan, d: Day, m: Meal, it: FoodItem)
    requires HasCell(p, d, m) && AllScaled(p) && ScaledFrom(it)
    ensures AllScaled(Append(p, d, m, it))
  {
    var q := Append(p, d, m, it);
    forall d', m', x | d' in q && m' in q[d'] && x in q[d'][m'] ensures ScaledFrom(x) {
      if d' == d && m' == m {
        assert q[d][m] == p[d][m] + [it];
      }
    }
  }

  /** Emptying a day keeps every remaining item of the plan scaled. */
  lemma ClearedKeepsScaled(p: Plan, d: Day)
    requires d in p && AllScaled(p)
    ensures AllScaled(ClearedDay(p, d))
  {
    var q := ClearedDay(p, d);
    forall d', m', x | d' in q && m' in q[d'] && x in q[d'][m'] ensures ScaledFrom(x) {
      assert d' != d;
    }
  }

  /** The sum of the totals of the first n items of a slot, added front to back. */
  function ItemsUpTo(items: seq<FoodItem>, n: nat): Macros
    requires n <= |items|
  {
    if n == 0 then ZERO else Plus(ItemsUpTo(items, n - 1), items[n - 1].totals)
  }

  /** The sum of the totals of all items of a slot. */
  function SumItems(items: seq<FoodItem>): Macros
  {
    ItemsUpTo(items, |items|)
  }

  lemma PlusAssoc(a: Macros, b: Macros, c: Macros)
    ensures Plus(Plus(a, b), c) == Plus(a, Plus(b, c))
  {
  }

  /** day_plan.get(meal, []). */
  function Slot(dp: DayPlan, m: Meal): seq<FoodItem>
  {
    if m in dp then dp[m] else []
  }

  /** weekly_plan.get(day, {}). */
  function DayPlanOf(p: Plan, d: Day): DayPlan
  {
    if d in p then p[d] else map[]
  }

  /** The sum over the first n meal slots of one day, in MEAL_TYPES order. */
  function SlotsUpTo(dp: DayPlan, n: nat): Macros
    requires n <= |MEAL_TYPES|
  {
    if n == 0 then ZERO else Plus(SlotsUpTo(dp, n - 1), SumItems(Slot(dp, MEAL_TYPES[n - 1])))
  }

  /**
   * calculate_daily_totals: the sum of the item totals over all five meal
   * slots of day d, zero for a day missing from the plan. The source's final
   * round(v, 1) leaves a whole number of tenths as it is.
   */
  function DayTotals(p: Plan, d: Day): (r: Macros)
  {
    SlotsUpTo(DayPlanOf(p, d), |MEAL_TYPES|)
  }

  /** The sum of the daily totals of the first n days, in DAYS_OF_WEEK order. */
  function DaysUpTo(p: Plan, n: nat): Macros
    requires n <= |DAYS_OF_WEEK|
  {
    if n == 0 then ZERO else Plus(DaysUpTo(p, n - 1), DayTotals(p, DAYS_OF_WEEK[n - 1]))
  }

  /** calculate_weekly_totals: the seven daily totals summed, divided by 7 and rounded. */
  function WeeklyTotals(p: Plan): (r: Macros)
    ensures var sum := DaysUpTo(p, |DAYS_OF_WEEK|);
            && 2 * (sum.kcal - 7 * r.kcal) <= 7 && 2 * (7 * r.kcal - sum.kcal) <= 7
            && 2 * (sum.prot - 7 * r.prot) <= 7 && 2 * (7 * r.prot - sum.prot) <= 7
            && 2 * (sum.carb - 7 * r.carb) <= 7 && 2 * (7 * r.carb - sum.carb) <= 7
            && 2 * (sum.fat - 7 * r.fat) <= 7 && 2 * (7 * r.fat - sum.fat) <= 7
  {
    MeanOfSeven(DaysUpTo(p, |DAYS_OF_WEEK|))
  }

  /** The session state of one user: the ledger and the day being edited, each possibly absent. */
  class Session {
    var weeklyPlan: Option<Plan>
    var currentEditingDay: Option<string>

    /** A ledger, once present, has every (day, meal) cell, and every item in it is scaled from its base values. */
    ghost predicate Valid()
      reads this
    {
      weeklyPlan.Some? ==> Complete(weeklyPlan.value) && AllScaled(weeklyPlan.value)
    }

    /** A fresh session holds neither key. */
    constructor ()
      ensures Valid()
      ensures weeklyPlan == None && currentEditingDay == None
    {
      weeklyPlan := None;
      currentEditingDay := None;
    }

    /** initialize_meal_plan_state: create each key only when it is absent. */
    method InitializeMealPlanState()
      requires Valid()
      modifies this
      ensures Valid() && weeklyPlan.Some?
      ensures old(weeklyPlan).Some? ==> weeklyPlan == old(weeklyPlan)
      ensures old(weeklyPlan).None? ==> weeklyPlan == Some(EmptyPlan())
      ensures old(currentEditingDay).Some? ==> currentEditingDay == old(currentEditingDay)
      ensures old(currentEditingDay).None? ==> currentEditingDay == Some(DayName(Lunedi))
    {
      if weeklyPlan.None? {
        weeklyPlan := Some(EmptyPlan());
      }
      if currentEditingDay.None? {
        currentEditingDay := Some(DayName(Lunedi));
      }
    }

    /** add_food_to_meal: append one scaled item to cell (day, meal). */
    method AddFoodToMeal(day: Day, meal: Meal, row: FoodDb.FoodRow, grams: int)
      requires Valid() && weeklyPlan.Some?
      modifies this
      ensures Valid()
      ensures weeklyPlan == Some(Append(old(weeklyPlan.value), day, meal, MakeItem(row, grams)))
      ensures currentEditingDay == old(currentEditingDay)
    {
      var item := MakeItem(row, grams);
      var p := weeklyPlan.value;
      AppendKeepsScaled(p, day, meal, item);
      weeklyPlan := Some(p[day := p[day][meal := p[day][meal] + [item]]]);
    }

    /** calculate_daily_totals, by its two nested loops. */
    method CalculateDailyTotals(day: Day) returns (totals: Macros)
      requires weeklyPlan.Some?
      ensures totals == DayTotals(weeklyPlan.value, day)
    {
      var plan := weeklyPlan.value;
      var dayPlan: DayPlan := if day in plan then plan[day] else map[];
      totals := ZERO;
      var i := 0;
      while i < |MEAL_TYPES|
        invariant 0 <= i <= |MEAL_TYPES|
        invariant totals == SlotsUpTo(dayPlan, i)
      {
        var meal := MEAL_TYPES[i];
        var foods := Slot(dayPlan, meal);
        ghost var before := totals;
        var j := 0;
        while j < |foods|
          invariant 0 <= j <= |foods|
          invariant totals == Plus(before, ItemsUpTo(foods, j))
        {
          var food := foods[j];
          PlusAssoc(before, ItemsUpTo(foods, j), food.totals);
          totals := Macros(totals.kcal + food.totals.kcal, totals.prot + food.totals.prot,
                           totals.carb + food.totals.carb, totals.fat + food.totals.fat);
          j := j + 1;
        }
        i := i + 1;
      }
    }

    /** calculate_weekly_totals: sum the seven daily totals, then take the rounded mean. */
    method CalculateWeeklyTotals() returns (mean: Macros)
      requires weeklyPlan.Some?
      ensures mean == WeeklyTotals(weeklyPlan.value)
    {
      var sums := ZERO;
      var i := 0;
      while i < |DAYS_OF_WEEK|
        invariant 0 <= i <= |DAYS_OF_WEEK|
        invariant sums == DaysUpTo(weeklyPlan.value, i)
      {
        var dayTotals := CalculateDailyTotals(DAYS_OF_WEEK[i]);
        sums := Macros(sums.kcal + dayTotals.kcal, sums.prot + dayTotals.prot,
                       sums.carb + dayTotals.carb, sums.fat + dayTotals.fat);
        i := i + 1;
      }
      mean := MeanOfSeven(sums);
    }
  }
}
