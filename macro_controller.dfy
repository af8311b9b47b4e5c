/** The daily macro accumulator: one log per owner and local day, found or created, into which
    each logged meal is added. */
module MacroController {
  import opened Common
  import opened Js
  import opened DayClock
  import opened MacroLogModel

  datatype MacroError = Unauthorized | StoreRejected

  /** `mealName || 'Meal'`. */
  function MealName(mealName: Option<string>): (r: string)
    ensures r != ""
    ensures mealName.Some? && mealName.value != "" ==> r == mealName.value
  {
    if mealName.Some? && mealName.value != "" then mealName.value else "Meal"
  }

  /** The meal a request logs: its amounts coerced with `Number(x) || 0`. */
  function MealOf(protein: JsValue, fat: JsValue, carbs: JsValue, mealName: Option<string>): (m: Meal)
    ensures m.name == MealName(mealName)
    ensures ToNumber(protein).NaN? ==> m.protein == 0.0
    ensures ToNumber(protein).Num? ==> m.protein == ToNumber(protein).n
    ensures ToNumber(fat).NaN? ==> m.fat == 0.0
    ensures ToNumber(fat).Num? ==> m.fat == ToNumber(fat).n
    ensures ToNumber(carbs).NaN? ==> m.carbs == 0.0
    ensures ToNumber(carbs).Num? ==> m.carbs == ToNumber(carbs).n
  {
    Meal(MealName(mealName), NumberOrZero(protein), NumberOrZero(fat), NumberOrZero(carbs))
  }

  /** A missing amount, a non-numeric one and zero all count as 0. */
  lemma CoercionToZero()
    ensures MealOf(Undefined, Obj(map[]), Num(0.0), None) == Meal("Meal", 0.0, 0.0, 0.0)
  {
  }

  /** A negative number is kept, and a numeric string is converted. */
  lemma CoercionKeepsNumbers()
    ensures MealOf(Num(-5.0), Str("12"), Null, Some("Lunch")) == Meal("Lunch", -5.0, 12.0, 0.0)
  {
    assert DigitsValue("12") == 12 by {
      assert "12"[..1] == "1";
    }
    DigitsToNumber("12");
  }

  /** The log `new MacroLog` creates for a day that has none: zero totals and no meals. */
  function EmptyLog(owner: Id, day: int): (l: MacroLog)
    ensures ValidMacroLog(l) && TotalsMatchMeals(l)
    ensures l.ownerId == owner && l.date == day && l.meals == []
  {
    MacroLog(owner, day, 0.0, 0.0, 0.0, [])
  }

  /** Appending a meal adds its amounts to the per-field sums. */
  lemma MealTotalsAppend(meals: seq<Meal>, m: Meal)
    ensures var t := MealTotals(meals);
      MealTotals(meals + [m]) == (t.0 + m.protein, t.1 + m.fat, t.2 + m.carbs)
  {
    var s := meals + [m];
    assert s[..|s| - 1] == meals;
    assert s[|s| - 1] == m;
  }

  /** Lines 21-24: each total grows by the meal's amount and the meal goes at the end. */
  function AddMeal(l: MacroLog, m: Meal): (r: MacroLog)
    ensures r.ownerId == l.ownerId && r.date == l.date
    ensures r.protein == l.protein + m.protein && r.fat == l.fat + m.fat && r.carbs == l.carbs + m.carbs
    ensures |r.meals| == |l.meals| + 1 && r.meals[..|l.meals|] == l.meals && r.meals[|l.meals|] == m
    ensures TotalsMatchMeals(l) ==> TotalsMatchMeals(r)
    ensures ValidMacroLog(l) && ValidMeal(m) ==> ValidMacroLog(r)
  {
    MealTotalsAppend(l.meals, m);
    assert (l.meals + [m])[..|l.meals|] == l.meals;
    l.(protein := l.protein + m.protein, fat := l.fat + m.fat, carbs := l.carbs + m.carbs,
       meals := l.meals + [m])
  }

  /** Logging the same two meals in either order gives the same totals. */
  lemma AddMealCommutesOnTotals(l: MacroLog, m1: Meal, m2: Meal)
    ensures var a := AddMeal(AddMeal(l, m1), m2); var b := AddMeal(AddMeal(l, m2), m1);
      (a.protein, a.fat, a.carbs) == (b.protein, b.fat, b.carbs)
  {
  }

  /** `MacroLog.findOne({ ownerId, date })`: the first log in allocation order with that owner
      and date, from position `from` on. */
  function FindLog(logs: seq<MacroLog>, owner: Id, day: int, from: nat): (r: Option<nat>)
    requires from <= |logs|
    decreases |logs| - from
    ensures r.Some? ==> from <= r.value < |logs| && IndexKey(logs[r.value]) == (owner, day)
    ensures r.Some? ==> forall k :: from <= k < r.value ==> IndexKey(logs[k]) != (owner, day)
    ensures r.None? ==> forall k :: from <= k < |logs| ==> IndexKey(logs[k]) != (owner, day)
  {
    if from == |logs| then None
    else if IndexKey(logs[from]) == (owner, day) then Some(from)
    else FindLog(logs, owner, day, from + 1)
  }

  /** What `getTodayMacros` answers: the totals and the meals. */
  datatype DaySummary = DaySummary(protein: real, fat: real, carbs: real, meals: seq<Meal>)

  /** Every log passes the schema, its totals are the sums over its meals, and no two logs
      share an owner and a day. The index does not enforce the last part; find-or-create
      keeps it. */
  ghost predicate ValidLogs(logs: seq<MacroLog>) {
    && (forall i :: 0 <= i < |logs| ==> ValidMacroLog(logs[i]) && TotalsMatchMeals(logs[i]))
    && (forall i, j :: 0 <= i < j < |logs| ==> IndexKey(logs[i]) != IndexKey(logs[j]))
  }

  lemma ValidAfterUpdate(logs: seq<MacroLog>, i: nat, l: MacroLog)
    requires ValidLogs(logs) && i < |logs|
    requires ValidMacroLog(l) && TotalsMatchMeals(l) && IndexKey(l) == IndexKey(logs[i])
    ensures ValidLogs(logs[i := l])
  {
  }

  lemma ValidAfterAppend(logs: seq<MacroLog>, l: MacroLog)
    requires ValidLogs(logs)
    requires ValidMacroLog(l) && TotalsMatchMeals(l)
    requires forall k :: 0 <= k < |logs| ==> IndexKey(logs[k]) != IndexKey(l)
    ensures ValidLogs(logs + [l])
  {
  }

  class MacroStore {
    var logs: seq<MacroLog>

    ghost predicate Valid()
      reads this
    {
      ValidLogs(logs)
    }

    constructor ()
      ensures Valid() && logs == []
    {
      logs := [];
    }

    /** `logMacros`, today being the local day of `now` at a fixed offset `tzOffset` from UTC. A
        negative amount passes the coercion, but the meal's `min: 0` makes `save` fail and
        nothing is written. */
    method LogMacros(owner: Option<Id>, protein: JsValue, fat: JsValue, carbs: JsValue,
                     mealName: Option<string>, now: int, tzOffset: int)
      returns (r: Result<MacroLog, MacroError>)
      requires Valid()
      modifies this
      ensures Valid()
      ensures owner.None? ==> r == Err(Unauthorized) && logs == old(logs)
      ensures owner.Some? && !ValidMeal(MealOf(protein, fat, carbs, mealName)) ==>
        r == Err(StoreRejected) && logs == old(logs)
      ensures owner.Some? && ValidMeal(MealOf(protein, fat, carbs, mealName)) ==>
        var day := StartOfLocalDay(now, tzOffset);
        var m := MealOf(protein, fat, carbs, mealName);
        match FindLog(old(logs), owner.value, day, 0)
        case Some(i) => r == Ok(AddMeal(old(logs)[i], m)) && logs == old(logs)[i := r.value]
        case None => r == Ok(AddMeal(EmptyLog(owner.value, day), m)) && logs == old(logs) + [r.value]
      ensures owner.Some? ==>
        forall k :: 0 <= k < |old(logs)| && IndexKey(old(logs)[k]) != (owner.value, StartOfLocalDay(now, tzOffset)) ==>
          logs[k] == old(logs)[k]
    {
      if owner.None? {
        return Err(Unauthorized);
      }
      var m := MealOf(protein, fat, carbs, mealName);
      var day := StartOfLocalDay(now, tzOffset);
      if !ValidMeal(m) {
        return Err(StoreRejected);
      }
      var found := FindLog(logs, owner.value, day, 0);
      if found.Some? {
        var i := found.value;
        var updated := AddMeal(logs[i], m);
        ValidAfterUpdate(logs, i, updated);
        logs := logs[i := updated];
        r := Ok(updated);
      } else {
        var created := AddMeal(EmptyLog(owner.value, day), m);
        ValidAfterAppend(logs, created);
        logs := logs + [created];
        r := Ok(created);
      }
    }

    /** `getTodayMacros`: the zero summary when today has no log. */
    method GetTodayMacros(owner: Option<Id>, now: int, tzOffset: int) returns (r: Result<DaySummary, MacroError>)
      requires Valid()
      ensures owner.None? <==> r == Err(Unauthorized)
      ensures owner.Some? ==> r.Ok?
      ensures owner.Some? ==>
        match FindLog(logs, owner.value, StartOfLocalDay(now, tzOffset), 0)
        case None => r == Ok(DaySummary(0.0, 0.0, 0.0, []))
        case Some(i) => r == Ok(DaySummary(logs[i].protein, logs[i].fat, logs[i].carbs, logs[i].meals))
      ensures r.Ok? ==> MealTotals(r.value.meals) == (r.value.protein, r.value.fat, r.value.carbs)
    {
      if owner.None? {
        return Err(Unauthorized);
      }
      var found := FindLog(logs, owner.value, StartOfLocalDay(now, tzOffset), 0);
      if found.None? {
        return Ok(DaySummary(0.0, 0.0, 0.0, []));
      }
      var l := logs[found.value];
      r := Ok(DaySummary(l.protein, l.fat, l.carbs, l.meals));
    }
  }
}
