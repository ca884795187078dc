/**
 * What the ledger's derived totals promise: an empty or missing day sums to
 * zero, an append moves exactly one day's totals by exactly the new item's
 * totals, clearing a day zeroes it, and the weekly figure always divides by
 * seven.
 */
module LedgerProperties {
  import opened Tenths
  import opened MealPlannerLogic

  lemma PlusZero(a: Macros)
    ensures Plus(a, ZERO) == a && Plus(ZERO, a) == a
  {
  }

  lemma PlusSwapLast(a: Macros, b: Macros, c: Macros)
    ensures Plus(Plus(a, c), b) == Plus(Plus(a, b), c)
  {
  }

  /** Appending an item leaves the sum of every earlier prefix alone. */
  lemma {:induction false} ItemsUpToAppend(items: seq<FoodItem>, it: FoodItem, n: nat)
    requires n <= |items|
    ensures ItemsUpTo(items + [it], n) == ItemsUpTo(items, n)
  {
    if n > 0 {
      ItemsUpToAppend(items, it, n - 1);
      assert (items + [it])[n - 1] == items[n - 1];
    }
  }

  /** A slot's sum grows by exactly the appended item's totals. */
  lemma SumItemsAppend(items: seq<FoodItem>, it: FoodItem)
    ensures SumItems(items + [it]) == Plus(SumItems(items), it.totals)
  {
    ItemsUpToAppend(items, it, |items|);
    assert (items + [it])[|items|] == it;
  }

  lemma {:induction false} SlotsUpToEmpty(dp: DayPlan, n: nat)
    requires n <= |MEAL_TYPES|
    requires forall m: Meal :: Slot(dp, m) == []
    ensures SlotsUpTo(dp, n) == ZERO
  {
    if n > 0 {
      SlotsUpToEmpty(dp, n - 1);
      var last := MEAL_TYPES[n - 1];
      assert Slot(dp, last) == [];
      assert SumItems(Slot(dp, last)) == ZERO;
    }
  }

  /** The sum of a concatenation is the sum of the sums. */
  lemma {:induction false} SumItemsConcat(a: seq<FoodItem>, b: seq<FoodItem>)
    ensures SumItems(a + b) == Plus(SumItems(a), SumItems(b))
    decreases |b|
  {
    if b == [] {
      assert a + b == a;
      PlusZero(SumItems(a));
    } else {
      var init := b[..|b| - 1];
      var last := b[|b| - 1];
      assert b == init + [last];
      assert a + b == (a + init) + [last];
      SumItemsConcat(a, init);
      SumItemsAppend(a + init, last);
      SumItemsAppend(init, last);
      PlusAssoc(SumItems(a), SumItems(init), last.totals);
    }
  }

  /** Every item of the first n slots of a day, slot after slot in MEAL_TYPES order. */
  function ItemsOfSlots(dp: DayPlan, n: nat): seq<FoodItem>
    requires n <= |MEAL_TYPES|
  {
    if n == 0 then [] else ItemsOfSlots(dp, n - 1) + Slot(dp, MEAL_TYPES[n - 1])
  }

  /**
   * The daily figure counts every item of the day exactly once: it is the
   * sum over the one list of all the day's items, slot after slot.
   */
  lemma {:induction false} DayTotalsSumsAllItems(p: Plan, d: Day)
    ensures DayTotals(p, d) == SumItems(ItemsOfSlots(DayPlanOf(p, d), |MEAL_TYPES|))
  {
    SlotsUpToAllItems(DayPlanOf(p, d), |MEAL_TYPES|);
  }

  lemma {:induction false} SlotsUpToAllItems(dp: DayPlan, n: nat)
    requires n <= |MEAL_TYPES|
    ensures SlotsUpTo(dp, n) == SumItems(ItemsOfSlots(dp, n))
  {
    if n == 0 {
      assert ItemsOfSlots(dp, 0) == [];
    } else {
      SlotsUpToAllItems(dp, n - 1);
      SumItemsConcat(ItemsOfSlots(dp, n - 1), Slot(dp, MEAL_TYPES[n - 1]));
    }
  }

  /** A day that is missing, or whose every slot is empty, totals zero. */
  lemma EmptyDayTotalsZero(p: Plan, d: Day)
    requires d !in p || forall m: Meal :: Slot(p[d], m) == []
    ensures DayTotals(p, d) == ZERO
  {
    SlotsUpToEmpty(DayPlanOf(p, d), |MEAL_TYPES|);
  }

  /** Appending to slot m adds the item to every prefix sum that reaches m, and to no other. */
  lemma {:induction false} SlotsUpToAppend(dp: DayPlan, m: Meal, it: FoodItem, n: nat)
    requires m in dp && n <= |MEAL_TYPES|
    ensures SlotsUpTo(dp[m := dp[m] + [it]], n)
            == if MealIndex(m) < n then Plus(SlotsUpTo(dp, n), it.totals) else SlotsUpTo(dp, n)
  {
    if n > 0 {
      var dq := dp[m := dp[m] + [it]];
      SlotsUpToAppend(dp, m, it, n - 1);
      var last := MEAL_TYPES[n - 1];
      if last == m {
        SumItemsAppend(dp[m], it);
        assert MealIndex(m) == n - 1;
        PlusAssoc(SlotsUpTo(dp, n - 1), SumItems(dp[m]), it.totals);
      } else {
        assert Slot(dq, last) == Slot(dp, last);
        if MealIndex(m) < n - 1 {
          PlusSwapLast(SlotsUpTo(dp, n - 1), SumItems(Slot(dp, last)), it.totals);
        }
      }
    }
  }

  /**
   * add_food_to_meal changes only the totals of the day it writes, and those
   * by exactly the new item's totals.
   */
  lemma AppendMovesOneDay(p: Plan, d: Day, m: Meal, it: FoodItem, other: Day)
    requires HasCell(p, d, m)
    ensures DayTotals(Append(p, d, m, it), d) == Plus(DayTotals(p, d), it.totals)
    ensures other != d ==> DayTotals(Append(p, d, m, it), other) == DayTotals(p, other)
  {
    SlotsUpToAppend(p[d], m, it, |MEAL_TYPES|);
  }

  /** After a clear-day, that day totals zero and every other day keeps its totals. */
  lemma ClearedDayTotals(p: Plan, d: Day)
    requires d in p
    ensures DayTotals(ClearedDay(p, d), d) == ZERO
    ensures forall other: Day :: other != d ==> DayTotals(ClearedDay(p, d), other) == DayTotals(p, other)
  {
    var q := ClearedDay(p, d);
    forall m: Meal ensures Slot(q[d], m) == [] {
      assert m in q[d] && q[d][m] == [];
    }
    EmptyDayTotalsZero(q, d);
    forall other: Day | other != d ensures DayTotals(q, other) == DayTotals(p, other) {
      assert DayPlanOf(q, other) == DayPlanOf(p, other);
    }
  }

  /** Over the first n days, the week's sum reflects the append exactly when day d is among them. */
  lemma {:induction false} DaysUpToAppend(p: Plan, d: Day, m: Meal, it: FoodItem, n: nat)
    requires HasCell(p, d, m) && n <= |DAYS_OF_WEEK|
    ensures DaysUpTo(Append(p, d, m, it), n)
            == if DayIndex(d) < n then Plus(DaysUpTo(p, n), it.totals) else DaysUpTo(p, n)
  {
    if n > 0 {
      var q := Append(p, d, m, it);
      DaysUpToAppend(p, d, m, it, n - 1);
      var last := DAYS_OF_WEEK[n - 1];
      if last == d {
        AppendMovesOneDay(p, d, m, it, d);
        assert DayIndex(d) == n - 1;
        PlusAssoc(DaysUpTo(p, n - 1), DayTotals(p, d), it.totals);
      } else {
        AppendMovesOneDay(p, d, m, it, last);
        assert DayTotals(q, last) == DayTotals(p, last);
        if DayIndex(d) < n - 1 {
          PlusSwapLast(DaysUpTo(p, n - 1), DayTotals(p, last), it.totals);
        }
      }
    }
  }

  /** The week's sum of daily totals, before the mean, grows by the appended item's totals. */
  lemma AppendMovesWeekSum(p: Plan, d: Day, m: Meal, it: FoodItem)
    requires HasCell(p, d, m)
    ensures DaysUpTo(Append(p, d, m, it), |DAYS_OF_WEEK|) == Plus(DaysUpTo(p, |DAYS_OF_WEEK|), it.totals)
  {
    DaysUpToAppend(p, d, m, it, |DAYS_OF_WEEK|);
  }

  /** The sum over the first n days of any per-day figure t. */
  function SumDays(t: Day -> Macros, n: nat): Macros
    requires n <= |DAYS_OF_WEEK|
  {
    if n == 0 then ZERO else Plus(SumDays(t, n - 1), t(DAYS_OF_WEEK[n - 1]))
  }

  /** Summing the daily totals of a plan is SumDays of its DayTotals. */
  lemma {:induction false} DaysUpToIsSumDays(p: Plan, n: nat)
    requires n <= |DAYS_OF_WEEK|
    ensures DaysUpTo(p, n) == SumDays(e => DayTotals(p, e), n)
  {
    if n > 0 {
      DaysUpToIsSumDays(p, n - 1);
    }
  }

  /** When t is zero on every day but d, the sum of the first n days is t(d) if d is among them. */
  lemma {:induction false} SumDaysOneDay(t: Day -> Macros, d: Day, n: nat)
    requires n <= |DAYS_OF_WEEK|
    requires forall e: Day :: e != d ==> t(e) == ZERO
    ensures SumDays(t, n) == if DayIndex(d) < n then t(d) else ZERO
  {
    if n > 0 {
      SumDaysOneDay(t, d, n - 1);
      var last := DAYS_OF_WEEK[n - 1];
      if last == d {
        assert DayIndex(d) == n - 1;
        PlusZero(t(d));
      } else {
        assert DayIndex(d) != n - 1;
        assert t(last) == ZERO;
        PlusZero(SumDays(t, n - 1));
      }
    }
  }

  lemma DaysUpToOneDay(p: Plan, d: Day, n: nat)
    requires n <= |DAYS_OF_WEEK|
    requires forall e: Day :: e != d ==> DayTotals(p, e) == ZERO
    ensures DaysUpTo(p, n) == if DayIndex(d) < n then DayTotals(p, d) else ZERO
  {
    DaysUpToIsSumDays(p, n);
    SumDaysOneDay(e => DayTotals(p, e), d, n);
  }

  /**
   * The weekly figure divides by seven whatever the other days hold: when
   * only day d has non-zero totals, the weekly result is d's totals over 7.
   */
  lemma WeeklyDividesBySeven(p: Plan, d: Day)
    requires forall e: Day :: e != d ==> DayTotals(p, e) == ZERO
    ensures WeeklyTotals(p) == MeanOfSeven(DayTotals(p, d))
  {
    DaysUpToOneDay(p, d, |DAYS_OF_WEEK|);
  }

  /** A new ledger shows zero for every day and for the week. */
  lemma EmptyPlanTotalsZero(d: Day)
    ensures DayTotals(EmptyPlan(), d) == ZERO
    ensures WeeklyTotals(EmptyPlan()) == ZERO
  {
    forall e: Day ensures DayTotals(EmptyPlan(), e) == ZERO {
      EmptyDayTotalsZero(EmptyPlan(), e);
    }
    WeeklyDividesBySeven(EmptyPlan(), d);
    RoundDivExact(0, 7);
  }
}
