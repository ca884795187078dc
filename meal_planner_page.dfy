/**
 * The two ledger mutations of the meal-planner page: the "empty the current
 * day" button and the per-slot "add" button, which looks up the chosen label
 * in the food table and adds the first matching row.
 */
module MealPlannerPage {
  import opened Wrappers
  import opened Tenths
  import opened FoodDb
  import opened MealPlannerLogic
  import LedgerProperties

  /** The grams widget yields whole grams, at least MIN_GRAMS, DEFAULT_GRAMS at first. */
  const MIN_GRAMS: int := 1
  const DEFAULT_GRAMS: int := 100

  /** Adding at the widget's initial quantity adds exactly the row's per-100 g values. */
  lemma DefaultGramsAddsBase(row: FoodRow)
    ensures MakeItem(row, DEFAULT_GRAMS).totals == Macros(row.kcal, row.prot, row.carb, row.fat)
  {
  }

  /** What pressing "add" did. */
  datatype AddOutcome =
    | Added(row: FoodRow, grams: int)   // an item was appended; the page shows a toast
    | SelectionMissing                  // nothing chosen; the page shows a warning
    | LabelNotFound                     // no row carries the label; .iloc[0] raises

  /** Python truthiness of the picker's value: something chosen and non-empty. */
  function Selected(foodLabel: Option<string>): (b: bool)
    ensures foodLabel.None? ==> !b
    ensures foodLabel.Some? ==> (b <==> |foodLabel.value| > 0)
  {
    foodLabel.Some? && foodLabel.value != ""
  }

  /** The top of the page: make sure the ledger exists, then show the chosen day's totals. */
  method OpenPage(s: Session, selectedDay: Day) returns (dailyMacros: Macros)
    requires s.Valid()
    modifies s
    ensures s.Valid() && s.weeklyPlan.Some?
    ensures old(s.weeklyPlan).Some? ==> s.weeklyPlan == old(s.weeklyPlan)
    ensures old(s.weeklyPlan).None? ==> s.weeklyPlan == Some(EmptyPlan()) && dailyMacros == ZERO
    ensures old(s.currentEditingDay).Some? ==> s.currentEditingDay == old(s.currentEditingDay)
    ensures old(s.currentEditingDay).None? ==> s.currentEditingDay == Some(DayName(Lunedi))
    ensures dailyMacros == DayTotals(s.weeklyPlan.value, selectedDay)
  {
    s.InitializeMealPlanState();
    dailyMacros := s.CalculateDailyTotals(selectedDay);
    if old(s.weeklyPlan).None? {
      LedgerProperties.EmptyPlanTotalsZero(selectedDay);
    }
  }

  /** Clearing slot i of day d on top of the first i takes the plan to the first i + 1 cleared. */
  lemma ClearOneMore(p0: Plan, d: Day, i: nat)
    requires d in p0 && i < |MEAL_TYPES|
    ensures var plan := p0[d := ClearFirst(p0[d], i)];
            plan[d := plan[d][MEAL_TYPES[i] := []]] == p0[d := ClearFirst(p0[d], i + 1)]
  {
  }

  /** The clear-day button: every meal slot of the selected day becomes the empty list. */
  method ClearSelectedDay(s: Session, selectedDay: Day)
    requires s.Valid() && s.weeklyPlan.Some?
    modifies s
    ensures s.Valid() && s.weeklyPlan.Some?
    ensures s.weeklyPlan.value == ClearedDay(old(s.weeklyPlan.value), selectedDay)
    ensures DayTotals(s.weeklyPlan.value, selectedDay) == ZERO
    ensures forall d: Day :: d != selectedDay ==> DayTotals(s.weeklyPlan.value, d) == DayTotals(old(s.weeklyPlan.value), d)
    ensures s.currentEditingDay == old(s.currentEditingDay)
  {
    ghost var p0 := s.weeklyPlan.value;
    assert p0[selectedDay := ClearFirst(p0[selectedDay], 0)] == p0;
    var i := 0;
    while i < |MEAL_TYPES|
      invariant 0 <= i <= |MEAL_TYPES|
      invariant s.weeklyPlan == Some(p0[selectedDay := ClearFirst(p0[selectedDay], i)])
      invariant s.currentEditingDay == old(s.currentEditingDay)
    {
      var plan := s.weeklyPlan.value;
      var meal := MEAL_TYPES[i];
      s.weeklyPlan := Some(plan[selectedDay := plan[selectedDay][meal := []]]);
      ClearOneMore(p0, selectedDay, i);
      i := i + 1;
    }
    ClearedKeepsScaled(p0, selectedDay);
    LedgerProperties.ClearedDayTotals(p0, selectedDay);
  }

  /**
   * The add button of slot (selectedDay, meal): with a label chosen, add
   * `grams` grams of the first table row carrying that label; with none,
   * only warn.
   */
  method AddButtonPressed(s: Session, table: seq<FoodRow>, selectedDay: Day, meal: Meal,
                          foodLabel: Option<string>, grams: int) returns (outcome: AddOutcome)
    requires s.Valid() && s.weeklyPlan.Some?
    requires grams >= MIN_GRAMS
    modifies s
    ensures s.Valid() && s.weeklyPlan.Some?
    ensures s.currentEditingDay == old(s.currentEditingDay)
    ensures !Selected(foodLabel) ==> outcome == SelectionMissing && s.weeklyPlan == old(s.weeklyPlan)
    ensures Selected(foodLabel) && FirstWithLabel(table, foodLabel.value, 0).None? ==>
              outcome == LabelNotFound && s.weeklyPlan == old(s.weeklyPlan)
    ensures Selected(foodLabel) && FirstWithLabel(table, foodLabel.value, 0).Some? ==>
              var row := table[FirstWithLabel(table, foodLabel.value, 0).value];
              && outcome == Added(row, grams)
              && s.weeklyPlan.value == Append(old(s.weeklyPlan.value), selectedDay, meal, MakeItem(row, grams))
    ensures Selected(foodLabel) && (exists k :: 0 <= k < |table| && table[k].displayLabel == foodLabel.value) ==>
              outcome.Added? && outcome.row.displayLabel == foodLabel.value
    ensures outcome.Added? ==>
              DayTotals(s.weeklyPlan.value, selectedDay)
              == Plus(DayTotals(old(s.weeklyPlan.value), selectedDay), MakeItem(outcome.row, grams).totals)
  {
    if Selected(foodLabel) {
      var found := FirstWithLabel(table, foodLabel.value, 0);
      if found.Some? {
        var selectedRow := table[found.value];
        ghost var p0 := s.weeklyPlan.value;
        s.AddFoodToMeal(selectedDay, meal, selectedRow, grams);
        LedgerProperties.AppendMovesOneDay(p0, selectedDay, meal, MakeItem(selectedRow, grams), selectedDay);
        outcome := Added(selectedRow, grams);
      } else {
        outcome := LabelNotFound;
      }
    } else {
      outcome := SelectionMissing;
    }
  }
}
