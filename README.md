# Weekly meal-plan ledger

A Dafny model of the meal-planning core of a nutrition assistant, with proofs.

The user builds a week of meals. The week has seven days (`Lunedì` … `Domenica`). Each day has five meal slots (`Colazione`, `Spuntino Mattina`, `Pranzo`, `Spuntino Pomeriggio`, `Cena`). Each slot holds an ordered list of food items. An item is a row of the food-composition table scaled to the grams the user chose. It keeps its four macro totals (kcal, protein, carbohydrate, fat) and the per-100 g values they came from. The page shows the chosen day's totals, recomputed from the items every time. The library also has a weekly mean of the seven daily totals (`calculate_weekly_totals`), which the page shown here does not call. The page also has two buttons that change the ledger: "empty the current day", and an "add" button in each slot.

The model has six modules, one per file:

- `Wrappers` (`wrappers.dfy`): `Option`.
- `Tenths` (`tenths.dfy`): fixed-point amounts. Every nutrient amount is a whole number of tenths of its unit, so 350.0 kcal is `3500`. Python's `round(x, 1)` becomes `RoundDiv`: round to the nearest integer, exact halves to the even neighbour.
- `FoodDb` (`food_db.dfy`): the per-row cleaning step of loading the food table. A non-numeric macro becomes 0. Each row gets the label `Nome (int(Kcal) kcal/100g)`. It also has the lookup of the first row carrying a given label.
- `MealPlannerLogic` (`meal_planner_logic.dfy`):
  - the day and meal-slot enumerations and their fixed order;
  - the item record, and the plan as `map<Day, map<Meal, seq<FoodItem>>>`;
  - pure specification functions: `EmptyPlan`, `MakeItem`, `Append`, `ClearedDay`, `DayTotals`, `WeeklyTotals`;
  - the class `Session`, which stands for the per-user session state. It has the ledger (`weeklyPlan`) and `currentEditingDay`, each possibly absent. Its methods are the source's initialise, add and totals functions, loops included.
- `LedgerProperties` (`ledger_properties.dfy`): lemmas about the derived totals.
- `MealPlannerPage` (`meal_planner_page.dfy`): the page's ledger mutations, as methods on a `Session`.

`Session.Valid()` is the ledger invariant: once the ledger is present, every one of the 7 × 5 cells exists (`Complete`), and every item in it carries totals scaled from the per-100 g base values it keeps (`AllScaled`, built on `ScaledFrom`). Every mutating method keeps it.

## Model

| member | source | states |
|---|---|---|
| `Tenths.RoundDiv` | meal_planner_logic.py:98-101 | the result is within half a unit of n / d; an exact half goes to the even neighbour (Python's `round` on an exact value) |
| `Tenths.RoundDivExact` | meal_planner_logic.py:98-101 | an exact quotient is returned unrounded |
| `Tenths.Scale` | meal_planner_logic.py:93-101 | an item total is within 0.05 of base × grams / 100; at 100 g it equals the base; with a non-negative base and grams it is non-negative |
| `Tenths.TruncTenths` | meal_planner_logic.py:51 | `int(Kcal)` truncates toward zero: it keeps the whole units and drops less than one unit, in the direction of zero |
| `Tenths.MeanOfSeven` | meal_planner_logic.py:150 | each macro of the weekly result is within half a tenth of the seven-day sum divided by 7 |
| `FoodDb.CleanCell` | meal_planner_logic.py:44-46 | a numeric cell keeps its value; a non-numeric or missing one becomes 0 |
| `FoodDb.CleanRow` | meal_planner_logic.py:44-52 | a cleaned row keeps the name, has all five macro columns cleaned, and is labelled from the cleaned kcal |
| `FoodDb.CleanTable` | meal_planner_logic.py:44-52 | the cleaned table has one cleaned row for each raw row, in the same order |
| `FoodDb.NatToString` | meal_planner_logic.py:51 | the kcal text is a non-empty string of decimal digits with no leading zero |
| `FoodDb.IntToString` | meal_planner_logic.py:51 | `str` of an integer: a minus sign first exactly when the integer is negative, then decimal digits only |
| `FoodDb.IntToStringRoundTrip` | meal_planner_logic.py:51 | the integer written into a label reads back as the same integer, negatives included |
| `FoodDb.Label` | meal_planner_logic.py:50-52 | a label starts with the food's name and `" ("`, and ends with `" kcal/100g)"` |
| `FoodDb.LabelShowsTruncatedKcal` | meal_planner_logic.py:50-52 | the text between the name's bracket and `" kcal/100g)"` is the kcal truncated to an integer |
| `FoodDb.LabelsOfOneName` | meal_planner_logic.py:50-52 | two foods with the same name share a label if and only if their truncated kcal agree |
| `FoodDb.FirstWithLabel` | pages/Meal_Planner.py:116 | the row found carries the label and no earlier row does; nothing is found exactly when no row carries it |
| `MealPlannerLogic.DaysOfWeekEnumerateDays` | meal_planner_logic.py:19 | the day list has 7 distinct entries and contains every day |
| `MealPlannerLogic.MealTypesEnumerateMeals` | meal_planner_logic.py:20 | the meal-slot list has 5 distinct entries and contains every slot |
| `MealPlannerLogic.NamesAreKeys` | meal_planner_logic.py:19-20 | distinct days have distinct key strings and distinct slots have distinct key strings, so the model's enum keys stand for the source's string keys one for one |
| `MealPlannerLogic.EmptyPlan` | meal_planner_logic.py:78-81 | a new ledger has every (day, meal) cell, and each one holds the empty list |
| `MealPlannerLogic.MakeItem` | meal_planner_logic.py:93-107 | the item carries the row's name, the grams, the row's four base values (no fibre), and totals scaled from those base values |
| `MealPlannerLogic.Append` | meal_planner_logic.py:109 | cell (d, m) gains exactly the new item at its end; every other cell and the key sets stay unchanged |
| `MealPlannerLogic.ClearFirst` | pages/Meal_Planner.py:38-39 | after the first n slot assignments, those n slots are empty and every other slot keeps its list |
| `MealPlannerLogic.ClearedDay` | pages/Meal_Planner.py:37-39 | after clear-day, all five slots of the day are empty and every other day is unchanged |
| `MealPlannerLogic.AppendKeepsScaled` | meal_planner_logic.py:95-109 | appending an item whose totals are scaled from its base values keeps every item of the ledger scaled from its own base values |
| `MealPlannerLogic.ClearedKeepsScaled` | pages/Meal_Planner.py:37-39 | emptying a day keeps every remaining item of the ledger scaled from its own base values |
| `MealPlannerLogic.WeeklyTotals` | meal_planner_logic.py:138-150 | each macro of the weekly figure is the seven-day sum of daily totals divided by 7, to the nearest tenth |
| `MealPlannerLogic.Session.InitializeMealPlanState` | meal_planner_logic.py:77-85 | an existing ledger or editing day is left as it is; an absent ledger becomes the empty 7 × 5 ledger; an absent editing day becomes `"Lunedì"` |
| `MealPlannerLogic.Session.AddFoodToMeal` | meal_planner_logic.py:87-109 | the ledger becomes the old one with the scaled item appended to (day, meal); nothing else in the session changes |
| `MealPlannerLogic.Session.CalculateDailyTotals` | meal_planner_logic.py:113-136 | the nested loops return the sum of the four item totals over the five slots of the day (zero for a missing day or slot) |
| `MealPlannerLogic.Session.CalculateWeeklyTotals` | meal_planner_logic.py:138-150 | the loop returns the rounded mean, over the seven days, of the daily totals |
| `LedgerProperties.SumItemsAppend` | meal_planner_logic.py:129-133 | appending an item to a slot raises that slot's sum by exactly the item's four totals |
| `LedgerProperties.SumItemsConcat` | meal_planner_logic.py:127-133 | the running sum over two lists one after the other is the sum of the two sums |
| `LedgerProperties.DayTotalsSumsAllItems` | meal_planner_logic.py:113-136 | the daily figure is the sum over the single list of all the day's items, slot after slot, each item counted once |
| `LedgerProperties.EmptyDayTotalsZero` | meal_planner_logic.py:118-136 | a day missing from the ledger, or one whose slots are all empty, totals zero |
| `LedgerProperties.AppendMovesOneDay` | meal_planner_logic.py:125-133 | after an add to (d, m), day d's totals rise by exactly the new item's totals; every other day's totals are unchanged |
| `LedgerProperties.ClearedDayTotals` | pages/Meal_Planner.py:37-40 | after clear-day, the cleared day totals zero; every other day keeps its totals |
| `LedgerProperties.AppendMovesWeekSum` | meal_planner_logic.py:142-147 | after an add, the seven-day sum that the weekly mean divides rises by exactly the new item's totals |
| `LedgerProperties.WeeklyDividesBySeven` | meal_planner_logic.py:142-150 | the weekly figure always divides by 7: when only one day has non-zero totals, the result is that day's totals over 7 |
| `LedgerProperties.EmptyPlanTotalsZero` | meal_planner_logic.py:113-150 | a new ledger shows zero for every day and for the week |
| `MealPlannerPage.OpenPage` | pages/Meal_Planner.py:14-46 | the page makes sure the ledger exists before it reads it: an existing ledger and editing day are left untouched, an absent ledger becomes the empty ledger and an absent editing day `"Lunedì"`; it shows the chosen day's totals, zero on a first visit |
| `MealPlannerPage.Selected` | pages/Meal_Planner.py:114 | Python truthiness of the picker's value: nothing chosen is false, and a chosen label is true exactly when it is non-empty |
| `MealPlannerPage.DefaultGramsAddsBase` | pages/Meal_Planner.py:102-109 | at the widget's initial 100 g, the added item's totals are exactly the row's per-100 g values |
| `MealPlannerPage.ClearSelectedDay` | pages/Meal_Planner.py:37-40 | the slot loop turns the ledger into the cleared-day ledger; the day then totals zero, and other days keep their totals |
| `MealPlannerPage.AddButtonPressed` | pages/Meal_Planner.py:102-127 | with no label chosen, the ledger is unchanged and the outcome is the warning; with a label, the first row carrying it is added at the chosen grams (at least 1) and that day's totals rise by the item's totals; a label present in the table is always found |

## Left out

- `app.py`: page configuration and styling, secret lookup, PDF reading, and the chat call to the generation service. All of it is UI, file I/O or a network client.
- The CSV part of `load_food_db` (`meal_planner_logic.py:30-41`, `:56-58`): the file check, `pd.read_csv`, the column selection and renaming, and the error messages. This is file I/O and pandas. The model starts from a table whose columns are already renamed (`FoodDb.RawRow`).
- `FoodDb.CleanCell`: a cell is modelled after pandas' coercion, as either a number or not-a-number. Which texts `to_numeric(errors='coerce')` can turn into numbers is not modelled.
- Tenths: amounts are whole tenths of a unit. Table values with more than one decimal, and the binary-float effects of Python's `round` on inexact products, are not modelled.
- `Tenths.Scale`: rounds the exact product base × grams / 100 (exact halves to even). Python rounds the float `base * (grams / 100.0)`, which can land on the other side of a half.
- `MealPlannerLogic.DayTotals`: its properties are stated by `Session.CalculateDailyTotals`, `LedgerProperties.DayTotalsSumsAllItems` and `LedgerProperties.EmptyDayTotalsZero` rather than on the function itself, whose own ensures would make every proof that unfolds the seven days much costlier. The final `round(v, 1)` of `calculate_daily_totals` is the identity on a sum of whole tenths, so the model does not round there.
- `MealPlannerLogic.Session.AddFoodToMeal` requires the ledger to be present and `Session.Valid()`, so every (day, meal) cell exists. In the source, a missing ledger, a missing day or a missing slot raises `KeyError` at meal_planner_logic.py:109.
- `MealPlannerLogic.Session.CalculateDailyTotals` and `CalculateWeeklyTotals` require only the ledger to be present. Its absence is the one `KeyError` they can raise (meal_planner_logic.py:125). A missing day or slot is not an error there: `.get` gives an empty default (:125, :128), and the model reproduces that with `DayPlanOf` and `Slot`.
- The page always initialises the ledger first (`pages/Meal_Planner.py:14`), so none of these errors can happen from the page.
- `MealPlannerPage.AddButtonPressed`: a label that no row carries is the outcome `LabelNotFound`, with the ledger unchanged. In the source, `.iloc[0]` raises an `IndexError`. The picker only offers labels from the table, so this cannot happen there.
- All widgets and rendering (`st.metric`, `st.dataframe`, `st.expander`, `st.selectbox`, `st.number_input`, `st.toast`, `st.warning`, `st.rerun`, `st.stop`). The picker's choice, the grams and the chosen day are parameters of the page methods. The grams precondition (whole number, at least 1) is the widget's guarantee.
- Quantity edits and item removal: neither operation appears in meal_planner_logic.py or pages/Meal_Planner.py (only the per-100 g base values kept on each item, meal_planner_logic.py:102-106, are meant for them), so neither is modelled.
- Fibre is cleaned with the other columns (`FoodDb.CleanRow`) but not carried on items or totals: add_food_to_meal and the totals functions use only kcal, protein, carbohydrate and fat (meal_planner_logic.py:95-107, :118-123).
- The document chunker, embedding index, retrieval, diet-entry extraction and fuzzy food matching are not in the source files. None of them is part of this model.
