/** The formula endpoint, which computes BMR, TDEE and macronutrient targets from a body,
    and the per-owner store of saved targets. */
module Nutritive {
  import opened Common
  import opened Js
  import opened CalorieTrackerModel

  // ---------------------------------------------------------------------------
  // Activity tables

  datatype Activity = Sedentary | Light | Moderate | Active | VeryActive

  /** The keys of the activity tables. Only a string equal to one of them finds a row. */
  function ActivityOf(v: JsValue): (r: Option<Activity>)
    ensures r.Some? ==> v.Str? && v == Str(ActivityName(r.value))
  {
    match v
    case Str(s) =>
      if s == "sedentary" then Some(Sedentary)
      else if s == "light" then Some(Light)
      else if s == "moderate" then Some(Moderate)
      else if s == "active" then Some(Active)
      else if s == "very_active" then Some(VeryActive)
      else None
    case _ => None
  }

  function ActivityName(a: Activity): string {
    match a
    case Sedentary => "sedentary"
    case Light => "light"
    case Moderate => "moderate"
    case Active => "active"
    case VeryActive => "very_active"
  }

  /** Every activity level is found by its own name. */
  lemma ActivityOfName(a: Activity)
    ensures ActivityOf(Str(ActivityName(a))) == Some(a)
  {
  }

  /** The row the handler uses: the request's level when it names one, sedentary otherwise. */
  function RowOf(v: JsValue): Activity {
    ActivityOf(v).GetOr(Sedentary)
  }

  /** The position of a level from sedentary (0) to very active (4). */
  function Rank(a: Activity): nat {
    match a
    case Sedentary => 0
    case Light => 1
    case Moderate => 2
    case Active => 3
    case VeryActive => 4
  }

  /** `activityMultipliers`, the physical activity level. */
  function PalOf(a: Activity): (r: real)
    ensures 1.2 <= r <= 1.9
  {
    match a
    case Sedentary => 1.2
    case Light => 1.375
    case Moderate => 1.55
    case Active => 1.725
    case VeryActive => 1.9
  }

  /** The multiplier increases strictly from sedentary to very active. */
  lemma PalStrictlyIncreasing(a: Activity, b: Activity)
    requires Rank(a) < Rank(b)
    ensures PalOf(a) < PalOf(b)
  {
  }

  /** `splitsByActivity`: the protein, fat and carbohydrate shares of the energy. */
  function SplitOf(a: Activity): (r: (real, real, real))
    ensures r.0 > 0.0 && r.1 > 0.0 && r.2 > 0.0
    ensures r.0 + r.1 + r.2 == 1.0
  {
    match a
    case Sedentary => (0.20, 0.30, 0.50)
    case Light => (0.22, 0.28, 0.50)
    case Moderate => (0.25, 0.30, 0.45)
    case Active => (0.28, 0.30, 0.42)
    case VeryActive => (0.30, 0.25, 0.45)
  }

  /** `proteinPerKg`: the recommended grams of protein per kg of body weight. */
  function ProteinRangeOf(a: Activity): (r: (real, real))
    ensures 0.0 < r.0 < r.1
  {
    match a
    case Sedentary => (0.8, 1.0)
    case Light => (1.0, 1.2)
    case Moderate => (1.2, 1.6)
    case Active => (1.6, 1.8)
    case VeryActive => (1.8, 2.0)
  }

  // ---------------------------------------------------------------------------
  // calculateMacros

  datatype NutritionRequest = NutritionRequest(
    gender: JsValue, age: JsValue, height: JsValue, weight: JsValue, activityLevel: JsValue)

  datatype NutritionError = MissingFields | InvalidNumbers

  datatype Macros = Macros(
    proteinG: int, fatG: int, carbsG: int,
    proteinPct: real, fatPct: real, carbsPct: real)

  /** The response's numbers: the converted inputs, the multiplier, the rounded BMR and TDEE,
      the macro targets, the rounded energy per macronutrient and the protein range. */
  datatype NutritionReport = NutritionReport(
    age: real, height: real, weight: real, pal: real,
    bmr: int, tdee: int,
    macros: Macros,
    proteinCals: int, fatCals: int, carbCals: int,
    proteinPerKg: (real, real))

  /** None of the five fields is falsy. */
  predicate AllPresent(req: NutritionRequest) {
    Truthy(req.gender) && Truthy(req.age) && Truthy(req.height) && Truthy(req.weight) && Truthy(req.activityLevel)
  }

  /** `Number` converts weight, height and age to numbers other than NaN. */
  predicate AllNumeric(req: NutritionRequest) {
    ToNumber(req.weight).Num? && ToNumber(req.height).Num? && ToNumber(req.age).Num?
  }

  /** The BMR: the male formula only for the exact string "male", the female one otherwise. */
  function BmrOf(gender: JsValue, w: real, h: real, a: real): (r: real)
    ensures gender == Str("male") ==> r == MifflinStJeor(Male, w, h, a)
    ensures gender != Str("male") ==> r == MifflinStJeor(Female, w, h, a)
  {
    MifflinStJeor(if gender == Str("male") then Male else Female, w, h, a)
  }

  /** The two formulas differ by 166 kcal, and "Male" in another letter case gets the lower
      one. */
  lemma BmrGenderGap(w: real, h: real, a: real)
    ensures BmrOf(Str("male"), w, h, a) - BmrOf(Str("female"), w, h, a) == 166.0
    ensures BmrOf(Str("Male"), w, h, a) == BmrOf(Str("female"), w, h, a)
  {
  }

  /** The unrounded TDEE of a request whose numbers convert. */
  function TdeeOf(req: NutritionRequest): real
    requires AllNumeric(req)
  {
    BmrOf(req.gender, ToNumber(req.weight).n, ToNumber(req.height).n, ToNumber(req.age).n)
      * PalOf(RowOf(req.activityLevel))
  }

  /** Rounding energy to whole grams at 4 or 9 kcal per gram moves it by at most half a gram's
      energy. */
  lemma GramsWithin(x: real, k: real)
    requires k == 4.0 || k == 9.0
    ensures -k / 2.0 < k * (Round(x / k) as real) - x <= k / 2.0
  {
    var g := Round(x / k) as real;
    assert x / k - 0.5 < g <= x / k + 0.5;
    if k == 4.0 {
      assert 4.0 * (x / 4.0) == x;
    } else {
      assert 9.0 * (x / 9.0) == x;
    }
  }

  /** The gram targets for an energy `t` and a split: `Math.round` of each share's energy
      over 4, 9 and 4 kcal per gram. */
  function GramsOf(t: real, split: (real, real, real)): (int, int, int) {
    (Round(t * split.0 / 4.0), Round(t * split.1 / 9.0), Round(t * split.2 / 4.0))
  }

  /** The energy of the rounded gram targets lies within 8.5 kcal of the energy they split. */
  lemma GramsEnergyWithin(t: real, split: (real, real, real))
    requires split.0 + split.1 + split.2 == 1.0
    ensures var g := GramsOf(t, split);
      -8.5 < (4 * g.0 + 9 * g.1 + 4 * g.2) as real - t <= 8.5
  {
    var (p, f, c) := split;
    GramsWithin(t * p, 4.0);
    GramsWithin(t * f, 9.0);
    GramsWithin(t * c, 4.0);
    assert t * p + t * f + t * c == t * (p + f + c);
  }

  /** `macro_calories`: the rounded energy of each share. */
  function ShareEnergies(t: real, split: (real, real, real)): (int, int, int) {
    (Round(t * split.0), Round(t * split.1), Round(t * split.2))
  }

  /** `calculateMacros`: the falsy check, then the NaN check, then the computation. */
  function CalculateMacros(req: NutritionRequest): (r: Result<NutritionReport, NutritionError>)
    ensures r == Err(MissingFields) <==> !AllPresent(req)
    ensures r == Err(InvalidNumbers) <==> AllPresent(req) && !AllNumeric(req)
    ensures r.Ok? <==> AllPresent(req) && AllNumeric(req)
    ensures r.Ok? ==>
      && r.value.weight == ToNumber(req.weight).n
      && r.value.height == ToNumber(req.height).n
      && r.value.age == ToNumber(req.age).n
      && r.value.bmr == Round(BmrOf(req.gender, r.value.weight, r.value.height, r.value.age))
      && r.value.tdee == Round(TdeeOf(req))
    ensures r.Ok? ==>
      && r.value.pal == PalOf(RowOf(req.activityLevel))
      && (r.value.macros.proteinPct, r.value.macros.fatPct, r.value.macros.carbsPct) == SplitOf(RowOf(req.activityLevel))
      && r.value.proteinPerKg == ProteinRangeOf(RowOf(req.activityLevel))
    ensures r.Ok? ==>
      (r.value.macros.proteinG, r.value.macros.fatG, r.value.macros.carbsG)
        == GramsOf(TdeeOf(req), SplitOf(RowOf(req.activityLevel)))
    ensures r.Ok? && ActivityOf(req.activityLevel).None? ==>
      && r.value.pal == 1.2
      && r.value.macros.proteinPct == 0.2 && r.value.macros.fatPct == 0.3 && r.value.macros.carbsPct == 0.5
      && r.value.proteinPerKg == (0.8, 1.0)
  {
    if !AllPresent(req) then Err(MissingFields)
    else if !AllNumeric(req) then Err(InvalidNumbers)
    else
      var w := ToNumber(req.weight).n;
      var h := ToNumber(req.height).n;
      var a := ToNumber(req.age).n;
      var row := RowOf(req.activityLevel);
      var tdee := TdeeOf(req);
      var split := SplitOf(row);
      var grams := GramsOf(tdee, split);
      var cals := ShareEnergies(tdee, split);
      Ok(NutritionReport(a, h, w, PalOf(row), Round(BmrOf(req.gender, w, h, a)), Round(tdee),
                         Macros(grams.0, grams.1, grams.2, split.0, split.1, split.2),
                         cals.0, cals.1, cals.2, ProteinRangeOf(row)))
  }

  /** The energy of the three gram targets at 4, 9 and 4 kcal per gram lies within 8.5 kcal of
      the unrounded TDEE. */
  lemma MacroEnergyNearTdee(req: NutritionRequest)
    requires CalculateMacros(req).Ok?
    ensures var m := CalculateMacros(req).value.macros;
      -8.5 < (4 * m.proteinG + 9 * m.fatG + 4 * m.carbsG) as real - TdeeOf(req) <= 8.5
  {
    var split := SplitOf(RowOf(req.activityLevel));
    GramsEnergyWithin(TdeeOf(req), split);
  }

  /** Age 0 is falsy and rejected as missing, before the numbers are looked at. */
  lemma ZeroAgeMissing(gender: JsValue, height: JsValue, weight: JsValue, level: JsValue)
    ensures CalculateMacros(NutritionRequest(gender, Num(0.0), height, weight, level)) == Err(MissingFields)
  {
  }

  /** A 30-year-old male, 180 cm and 80 kg, moderately active: BMR 1780, TDEE 2759, and
      172 g protein, 92 g fat and 310 g carbohydrate. */
  lemma CalculateMacrosExample()
    ensures CalculateMacros(NutritionRequest(Str("male"), Num(30.0), Num(180.0), Num(80.0), Str("moderate")))
         == Ok(NutritionReport(30.0, 180.0, 80.0, 1.55, 1780, 2759,
                               Macros(172, 92, 310, 0.25, 0.30, 0.45),
                               690, 828, 1242, (1.2, 1.6)))
  {
    assert BmrOf(Str("male"), 80.0, 180.0, 30.0) == 1780.0;
    assert Round(1780.0) == 1780;
    assert Round(2759.0) == 2759;
    assert Round(689.75 / 4.0) == 172;
    assert Round(827.7 / 9.0) == 92;
    assert Round(1241.55 / 4.0) == 310;
    assert Round(689.75) == 690;
    assert Round(827.7) == 828;
    assert Round(1241.55) == 1242;
  }

  // ---------------------------------------------------------------------------
  // saveTargets / getTargets

  /** A saved snapshot, the body's values kept as given. */
  datatype MacroTarget = MacroTarget(pal: JsValue, bmr: JsValue, tdee: JsValue, macros: JsValue)

  datatype TargetError = Unauthorized | MissingMacros

  class TargetStore {
    /** At most one snapshot per owner: the save is an upsert keyed by owner. */
    var targets: map<Id, MacroTarget>

    constructor ()
      ensures targets == map[]
    {
      targets := map[];
    }

    /** `saveTargets`: the owner check, then the macros check, then the upsert. */
    method Save(owner: Option<Id>, pal: JsValue, bmr: JsValue, tdee: JsValue, macros: JsValue)
      returns (r: Result<MacroTarget, TargetError>)
      modifies this
      ensures owner.None? ==> r == Err(Unauthorized) && targets == old(targets)
      ensures owner.Some? && !Truthy(macros) ==> r == Err(MissingMacros) && targets == old(targets)
      ensures owner.Some? && Truthy(macros) ==>
        r == Ok(MacroTarget(pal, bmr, tdee, macros))
        && targets == old(targets)[owner.value := MacroTarget(pal, bmr, tdee, macros)]
    {
      if owner.None? {
        return Err(Unauthorized);
      }
      if !Truthy(macros) {
        return Err(MissingMacros);
      }
      var t := MacroTarget(pal, bmr, tdee, macros);
      targets := targets[owner.value := t];
      r := Ok(t);
    }

    /** `getTargets`: null for an owner who never saved, the last snapshot otherwise. */
    method Get(owner: Option<Id>) returns (r: Result<Option<MacroTarget>, TargetError>)
      ensures owner.None? <==> r == Err(Unauthorized)
      ensures owner.Some? ==> r.Ok?
      ensures owner.Some? && owner.value !in targets ==> r == Ok(None)
      ensures owner.Some? && owner.value in targets ==> r == Ok(Some(targets[owner.value]))
    {
      if owner.None? {
        return Err(Unauthorized);
      }
      if owner.value in targets {
        r := Ok(Some(targets[owner.value]));
      } else {
        r := Ok(None);
      }
    }
  }
}
