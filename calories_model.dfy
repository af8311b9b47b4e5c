/** The CalorieTracker record: one user's calorie-target profile. A tracker is created by one
    goal-setting request and never updated. */
module CalorieTrackerModel {
  import opened Common
  import opened Js

  datatype WeightGoal = Gain | Lose | Maintain

  datatype Gender = Male | Female

  /** The Mifflin-St Jeor estimate of the basal metabolic rate, in kcal per day, from the
      weight in kg, the height in cm and the age in years. Both the tracker routes and the
      formula endpoint use it. */
  function MifflinStJeor(gender: Gender, weight: real, height: real, age: real): real {
    10.0 * weight + 6.25 * height - 5.0 * age + (if gender == Male then 5.0 else -161.0)
  }

  /** The `weightGoal` enum: exactly one of the strings "gain", "lose" and "maintain". The create
      handler's own check, an `includes` on the same three strings, uses the same equality. */
  function WeightGoalOf(v: JsValue): (r: Option<WeightGoal>)
    ensures r.Some? <==> v in {Str("gain"), Str("lose"), Str("maintain")}
    ensures r == Some(Gain) <==> v == Str("gain")
    ensures r == Some(Lose) <==> v == Str("lose")
  {
    match v
    case Str(s) =>
      if s == "gain" then Some(Gain)
      else if s == "lose" then Some(Lose)
      else if s == "maintain" then Some(Maintain)
      else None
    case _ => None
  }

  /** Every path is required, so every field is present; `gender` and `weightGoal` are enums. */
  datatype CalorieTracker = CalorieTracker(
    ownerId: Id,
    weightGoal: WeightGoal,
    age: real,
    exerciseDaysPerWeek: real,
    gender: Gender,
    height: real,
    weight: real,
    pal: real,
    bmr: int,
    tdee: int,
    targetCalories: int)

  /** The schema's `min`/`max` validators: age in [1, 120], exercise days in [0, 7]. */
  predicate ValidTracker(t: CalorieTracker) {
    1.0 <= t.age <= 120.0 && 0.0 <= t.exerciseDaysPerWeek <= 7.0
  }
}
