/** The MacroLog record: one user's protein, fat and carbohydrate totals for one day, with the
    meals that were logged. */
module MacroLogModel {
  import opened Common

  /** A logged meal. The handler always gives it a name. */
  datatype Meal = Meal(name: string, protein: real, fat: real, carbs: real)

  /** `ownerId`, `date` and the three totals are required. `date` is in milliseconds. */
  datatype MacroLog = MacroLog(
    ownerId: Id,
    date: int,
    protein: real,
    fat: real,
    carbs: real,
    meals: seq<Meal>)

  predicate ValidMeal(m: Meal) {
    m.protein >= 0.0 && m.fat >= 0.0 && m.carbs >= 0.0
  }

  /** The schema's `min: 0` validators, on the totals and on each meal. */
  predicate ValidMacroLog(l: MacroLog) {
    && l.protein >= 0.0 && l.fat >= 0.0 && l.carbs >= 0.0
    && forall k :: 0 <= k < |l.meals| ==> ValidMeal(l.meals[k])
  }

  /** The compound index (ownerId, date). */
  function IndexKey(l: MacroLog): (Id, int) {
    (l.ownerId, l.date)
  }

  /** The compound index is not declared unique: two different logs that the schema accepts
      can share owner and date. */
  lemma IndexAdmitsTwoLogsPerDay()
    ensures exists a: MacroLog, b: MacroLog :: ValidMacroLog(a) && ValidMacroLog(b) && a != b && IndexKey(a) == IndexKey(b)
  {
    var a := MacroLog(0, 0, 0.0, 0.0, 0.0, []);
    var b := a.(protein := 10.0);
    assert ValidMacroLog(a) && ValidMacroLog(b) && a != b && IndexKey(a) == IndexKey(b);
  }

  /** The per-field sums (protein, fat, carbs) of a list of meals. */
  function MealTotals(meals: seq<Meal>): (real, real, real) {
    if meals == [] then (0.0, 0.0, 0.0)
    else
      var t := MealTotals(meals[..|meals| - 1]);
      var m := meals[|meals| - 1];
      (t.0 + m.protein, t.1 + m.fat, t.2 + m.carbs)
  }

  /** The meals of a log account for its totals. */
  predicate TotalsMatchMeals(l: MacroLog) {
    MealTotals(l.meals) == (l.protein, l.fat, l.carbs)
  }
}
