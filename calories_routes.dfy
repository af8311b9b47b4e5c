/** The calorie tracker routes: the target arithmetic on a 50-kcal grid, tracker creation,
    the tracker read with its latest logs, and the per-day log that is created or updated. */
module CalorieRoutes {
  import opened Common
  import opened Js
  import opened DayClock
  import opened CalorieTrackerModel
  import opened CalorieLogModel

  // ---------------------------------------------------------------------------
  // Helpers

  /** `round50`: the nearest multiple of 50, halves rounded up. */
  function Round50(x: real): (r: int)
    ensures r % 50 == 0
    ensures x - 25.0 < r as real <= x + 25.0
  {
    Round(x / 50.0) * 50
  }

  /** `round50` is the identity on multiples of 50. */
  lemma Round50OfMultiple(k: int)
    ensures Round50((50 * k) as real) == 50 * k
  {
    assert (50 * k) as real / 50.0 == k as real;
    RoundOfInteger(k);
  }

  /** `getPal`: the activity multiplier for a number of exercise days per week. The argument is
      compared as JavaScript compares it with a number, so NaN falls through to the last step. */
  function GetPal(days: JsValue): (r: real)
    ensures r in {1.2, 1.375, 1.55, 1.725}
    ensures days.Num? ==> (r == 1.2 <==> days.n <= 1.0)
    ensures days.Num? ==> (r == 1.375 <==> 1.0 < days.n <= 3.0)
    ensures days.Num? ==> (r == 1.55 <==> 3.0 < days.n <= 5.0)
    ensures days.Num? ==> (r == 1.725 <==> 5.0 < days.n)
    ensures ToNumber(days).NaN? ==> r == 1.725
  {
    if AtMost(days, 1.0) then 1.2
    else if AtMost(days, 3.0) then 1.375
    else if AtMost(days, 5.0) then 1.55
    else 1.725
  }

  /** More exercise days never give a smaller multiplier. */
  lemma GetPalMonotone(x: real, y: real)
    requires x <= y
    ensures GetPal(Num(x)) <= GetPal(Num(y))
  {
  }

  /** `normalizeGender`: "female" or "kadin" in any letter case is female; anything else,
      a missing gender included, is male. */
  function NormalizeGender(g: Option<string>): (r: Gender)
    ensures g.None? ==> r == Male
    ensures r == Female <==> g.Some? && LowerCase(g.value) in {"female", "kadin"}
    ensures g.Some? && r == Female ==> |g.value| in {5, 6}
  {
    var s := LowerCase(g.GetOr(""));
    if s == "female" || s == "kadin" then Female else Male
  }

  /** The letter case of a gender does not matter. */
  lemma NormalizeGenderIgnoresCase(s: string)
    ensures NormalizeGender(Some(UpperCase(s))) == NormalizeGender(Some(s))
  {
    LowerCaseOfUpperCase(s);
  }

  lemma NormalizeGenderExamples()
    ensures NormalizeGender(Some("Female")) == Female
    ensures NormalizeGender(Some("KADIN")) == Female
    ensures NormalizeGender(Some("male")) == Male
    ensures NormalizeGender(Some("woman")) == Male
    ensures NormalizeGender(Some("")) == Male
  {
    assert LowerCase("Female") == "female";
    assert LowerCase("KADIN") == "kadin";
    assert LowerCase("woman") == "woman";
  }

  // ---------------------------------------------------------------------------
  // Tracker creation

  /** The request body of the create route. */
  datatype CreateRequest = CreateRequest(weightGoal: JsValue, age: JsValue, exerciseDaysPerWeek: JsValue)

  /** The authenticated caller as the token middleware resolves it: its id, and the gender,
      height and weight it carries, any of which may be missing. */
  datatype Caller = Caller(id: Id, gender: Option<string>, height: Option<real>, weight: Option<real>)

  datatype CalorieError =
    | BadWeightGoal
    | BadAge
    | BadExerciseDays
    | BadCalories
    | TrackerNotFound
    | LogNotFound
    | StoreRejected   // the document store refused the write: a cast or a schema validator failed

  /** `!age || age < 1 || age > 120` does not reject. */
  predicate AgeAccepted(age: JsValue) {
    !(!Truthy(age) || LessThan(age, 1.0) || GreaterThan(age, 120.0))
  }

  /** `exerciseDaysPerWeek === undefined || exerciseDaysPerWeek < 0 || exerciseDaysPerWeek > 7`
      does not reject. */
  predicate DaysAccepted(days: JsValue) {
    !(days == Undefined || LessThan(days, 0.0) || GreaterThan(days, 7.0))
  }

  /** The fixed change a weight goal makes to the daily energy expenditure. */
  function GoalDelta(goal: WeightGoal): int {
    match goal
    case Lose => -500
    case Gain => 300
    case Maintain => 0
  }

  /** `targetCalories` as the create route computes it from `tdee`. */
  function TargetCalories(goal: WeightGoal, tdee: int): int {
    match goal
    case Lose => Round50((tdee - 500) as real)
    case Gain => Round50((tdee + 300) as real)
    case Maintain => tdee
  }

  /** On the 50-kcal grid the second rounding changes nothing: the target is tdee - 500 to
      lose, tdee + 300 to gain and tdee to maintain. */
  lemma TargetCaloriesDelta(goal: WeightGoal, tdee: int)
    requires tdee % 50 == 0
    ensures TargetCalories(goal, tdee) == tdee + GoalDelta(goal)
  {
    match goal
    case Lose => Round50OfMultiple(tdee / 50 - 10);
    case Gain => Round50OfMultiple(tdee / 50 + 6);
    case Maintain =>
  }

  /** What the create route decides: the first failing validation, in the route's order, or
      the tracker it hands to the store. The store refuses a tracker a required number of
      which is missing or cannot be cast (a missing height or weight on the caller, an age or
      a day count that does not convert to a number, a null day count). */
  function PlanTracker(caller: Caller, req: CreateRequest): (r: Result<CalorieTracker, CalorieError>)
    ensures r == Err(BadWeightGoal) <==> WeightGoalOf(req.weightGoal).None?
    ensures r == Err(BadAge) <==> WeightGoalOf(req.weightGoal).Some? && !AgeAccepted(req.age)
    ensures r == Err(BadExerciseDays) <==>
      WeightGoalOf(req.weightGoal).Some? && AgeAccepted(req.age) && !DaysAccepted(req.exerciseDaysPerWeek)
    ensures r.Ok? || r.error in {BadWeightGoal, BadAge, BadExerciseDays, StoreRejected}
    ensures r.Ok? ==> ValidTracker(r.value) && r.value.ownerId == caller.id
    ensures r.Ok? ==> Some(r.value.weightGoal) == WeightGoalOf(req.weightGoal)
    ensures r.Ok? ==> r.value.gender == NormalizeGender(caller.gender) && r.value.pal == GetPal(req.exerciseDaysPerWeek)
    ensures r.Ok? <==>
      && WeightGoalOf(req.weightGoal).Some? && AgeAccepted(req.age) && DaysAccepted(req.exerciseDaysPerWeek)
      && CastNumber(req.age).Some? && CastNumber(req.exerciseDaysPerWeek).Some?
      && caller.height.Some? && caller.weight.Some?
    ensures r.Ok? ==>
      && r.value.age == CastNumber(req.age).value
      && r.value.exerciseDaysPerWeek == CastNumber(req.exerciseDaysPerWeek).value
      && r.value.height == caller.height.value && r.value.weight == caller.weight.value
    ensures r.Ok? ==>
      && r.value.bmr == Round50(MifflinStJeor(r.value.gender, r.value.weight, r.value.height, r.value.age))
      && r.value.tdee == Round50(r.value.bmr as real * r.value.pal)
    ensures r.Ok? ==> r.value.bmr % 50 == 0 && r.value.tdee % 50 == 0
    ensures r.Ok? ==> r.value.targetCalories == r.value.tdee + GoalDelta(r.value.weightGoal)
  {
    match WeightGoalOf(req.weightGoal)
    case None => Err(BadWeightGoal)
    case Some(goal) =>
      if !AgeAccepted(req.age) then Err(BadAge)
      else if !DaysAccepted(req.exerciseDaysPerWeek) then Err(BadExerciseDays)
      else
        var gender := NormalizeGender(caller.gender);
        var pal := GetPal(req.exerciseDaysPerWeek);
        var age := CastNumber(req.age);
        var days := CastNumber(req.exerciseDaysPerWeek);
        if age.None? || days.None? || caller.height.None? || caller.weight.None? then Err(StoreRejected)
        else
          var bmr := Round50(MifflinStJeor(gender, caller.weight.value, caller.height.value, age.value));
          var tdee := Round50(bmr as real * pal);
          TargetCaloriesDelta(goal, tdee);
          Ok(CalorieTracker(caller.id, goal, age.value, days.value, gender,
                            caller.height.value, caller.weight.value, pal, bmr, tdee,
                            TargetCalories(goal, tdee)))
  }

  /** A male caller, 180 cm and 80 kg, aged 30, exercising 4 days a week, who wants to lose
      weight: BMR 1780 rounds to 1800, 1800 x 1.55 = 2790 rounds to 2800, target 2300. */
  lemma CreateExample()
    ensures PlanTracker(Caller(7, Some("male"), Some(180.0), Some(80.0)),
                        CreateRequest(Str("lose"), Num(30.0), Num(4.0)))
         == Ok(CalorieTracker(7, Lose, 30.0, 4.0, Male, 180.0, 80.0, 1.55, 1800, 2800, 2300))
  {
    assert LowerCase("male") == "male";
    assert MifflinStJeor(Male, 80.0, 180.0, 30.0) == 1780.0;
    assert Round(1780.0 / 50.0) == 36;
    assert Round(2790.0 / 50.0) == 56;
    assert Round(2300.0 / 50.0) == 46;
  }

  // ---------------------------------------------------------------------------
  // Logging

  /** The `date` of a log request: absent, `null`, or a timestamp in milliseconds, where 0 is
      falsy. */
  datatype DateField = NoDate | NullDate | Millis(ms: int)

  /** The request body of the log route. `logId` is absent or the id of the log to update. */
  datatype LogRequest = LogRequest(
    calories: JsValue,
    note: Option<string>,
    items: Option<seq<CalorieItem>>,
    date: DateField,
    logId: Option<Id>)

  /** `calories !== undefined && (typeof calories !== 'number' || calories < 0)` does not
      reject. NaN is of type number and is not below 0, so it is accepted. */
  predicate CaloriesAccepted(c: JsValue) {
    c == Undefined || c.NaN? || (c.Num? && c.n >= 0.0)
  }

  /** The UTC day the route files a log under: the requested date's, or today's when the date
      is falsy (absent, null or 0). */
  function LogDay(date: DateField, now: int): (d: int)
    ensures d % MsPerDay == 0
    ensures date.Millis? && date.ms != 0 ==> d <= date.ms < d + MsPerDay
    ensures !(date.Millis? && date.ms != 0) ==> d <= now < d + MsPerDay
  {
    if date.Millis? && date.ms != 0 then StartOfUTCDay(date.ms) else StartOfUTCDay(now)
  }

  /** The log after the update branch sets each supplied field, or None when `save` refuses it
      (NaN calories cannot be cast, an item with negative calories fails `min: 0`). A `null`
      date is supplied, so it re-dates the log to today. */
  function PatchLog(l: CalorieLog, req: LogRequest, day: int): (r: Option<CalorieLog>)
    requires CaloriesAccepted(req.calories)
    ensures r.None? <==> req.calories.NaN? || (req.items.Some? && !ValidItems(req.items.value))
    ensures r.Some? ==> r.value.ownerId == l.ownerId && r.value.trackerId == l.trackerId
    ensures r.Some? ==> r.value.calories == (if req.calories.Num? then req.calories.n else l.calories)
    ensures r.Some? ==> r.value.note == (if req.note.Some? then req.note else l.note)
    ensures r.Some? ==> r.value.items == (if req.items.Some? then req.items.value else l.items)
    ensures r.Some? ==> r.value.date == (if req.date != NoDate then day else l.date)
    ensures r.Some? && ValidLog(l) ==> ValidLog(r.value)
  {
    if req.calories.NaN? || (req.items.Some? && !ValidItems(req.items.value)) then None
    else
      Some(l.(calories := if req.calories.Num? then req.calories.n else l.calories,
              note := if req.note.Some? then req.note else l.note,
              items := if req.items.Some? then req.items.value else l.items,
              date := if req.date != NoDate then day else l.date))
  }

  /** `null !== undefined`: an update with a null date moves the log to today's UTC day. */
  lemma NullDateRedatesToToday(l: CalorieLog, req: LogRequest, now: int)
    requires CaloriesAccepted(req.calories) && req.date == NullDate
    requires PatchLog(l, req, LogDay(req.date, now)).Some?
    ensures PatchLog(l, req, LogDay(req.date, now)).value.date == StartOfUTCDay(now)
  {
    StartOfUTCDayUnique(now, LogDay(req.date, now));
  }

  /** The log the create branch inserts, or None when `save` refuses it. `calories || 0`
      turns an absent value and NaN into 0; absent items become the empty list. */
  function NewLog(owner: Id, trackerId: Id, req: LogRequest, day: int): (r: Option<CalorieLog>)
    requires CaloriesAccepted(req.calories)
    ensures r.None? <==> req.items.Some? && !ValidItems(req.items.value)
    ensures r.Some? ==> ValidLog(r.value)
    ensures r.Some? ==> r.value.ownerId == owner && r.value.trackerId == trackerId && r.value.date == day
    ensures r.Some? ==> r.value.calories == (if req.calories.Num? then req.calories.n else 0.0)
    ensures r.Some? ==> r.value.note == req.note && r.value.items == req.items.GetOr([])
  {
    var items := req.items.GetOr([]);
    if !ValidItems(items) then None
    else Some(CalorieLog(owner, trackerId, day, if Truthy(req.calories) then req.calories.n else 0.0, req.note, items))
  }

  /** The number of logs of one owner and tracker. */
  function CountLogsOf(logs: seq<CalorieLog>, owner: Id, trackerId: Id): nat {
    if logs == [] then 0
    else
      var last := logs[|logs| - 1];
      CountLogsOf(logs[..|logs| - 1], owner, trackerId) + (if last.ownerId == owner && last.trackerId == trackerId then 1 else 0)
  }

  /** Ids ordered by descending log date, without repetitions. */
  ghost predicate DescendingByDate(logs: seq<CalorieLog>, ids: seq<Id>) {
    && (forall k :: 0 <= k < |ids| ==> ids[k] < |logs|)
    && (forall a, b :: 0 <= a < b < |ids| ==> ids[a] != ids[b] && logs[ids[a]].date >= logs[ids[b]].date)
  }

  /** Where a log dated `d` goes in a list ordered by descending date. */
  function InsertPosition(logs: seq<CalorieLog>, ids: seq<Id>, d: int): (p: nat)
    requires forall k :: 0 <= k < |ids| ==> ids[k] < |logs|
    ensures p <= |ids|
    ensures forall k :: 0 <= k < p ==> logs[ids[k]].date > d
    ensures p < |ids| ==> logs[ids[p]].date <= d
  {
    if ids == [] || logs[ids[0]].date <= d then 0
    else 1 + InsertPosition(logs, ids[1..], d)
  }

  lemma InsertKeepsOrder(logs: seq<CalorieLog>, ids: seq<Id>, i: Id, p: nat)
    requires DescendingByDate(logs, ids) && i < |logs| && i !in ids
    requires p <= |ids|
    requires forall k :: 0 <= k < p ==> logs[ids[k]].date > logs[i].date
    requires p < |ids| ==> logs[ids[p]].date <= logs[i].date
    ensures DescendingByDate(logs, ids[..p] + [i] + ids[p..])
  {
    var s := ids[..p] + [i] + ids[p..];
    forall a, b | 0 <= a < b < |s|
      ensures s[a] != s[b] && logs[s[a]].date >= logs[s[b]].date
    {
      if b < p {
        assert s[a] == ids[a] && s[b] == ids[b];
      } else if b == p {
        assert s[a] == ids[a] && s[b] == i;
      } else if a < p {
        assert s[a] == ids[a] && s[b] == ids[b - 1];
      } else if a == p {
        assert s[a] == i && s[b] == ids[b - 1];
        assert logs[ids[p]].date >= logs[ids[b - 1]].date || b - 1 == p;
      } else {
        assert s[a] == ids[a - 1] && s[b] == ids[b - 1];
      }
    }
  }

  predicate Matches(l: CalorieLog, owner: Id, trackerId: Id) {
    l.ownerId == owner && l.trackerId == trackerId
  }

  /** Inserts log `i` into a list ordered by descending date. */
  function InsertByDate(logs: seq<CalorieLog>, ids: seq<Id>, i: Id): seq<Id>
    requires forall k :: 0 <= k < |ids| ==> ids[k] < |logs|
    requires i < |logs|
  {
    var p := InsertPosition(logs, ids, logs[i].date);
    ids[..p] + [i] + ids[p..]
  }

  /** After scanning the first `i` logs, `acc` holds exactly the matching ones among them,
      ordered by descending date. */
  ghost predicate Collected(logs: seq<CalorieLog>, owner: Id, trackerId: Id, i: nat, acc: seq<Id>)
    requires i <= |logs|
  {
    && |acc| == CountLogsOf(logs[..i], owner, trackerId)
    && (forall k :: 0 <= k < |acc| ==> acc[k] < i && Matches(logs[acc[k]], owner, trackerId))
    && (forall j :: 0 <= j < i && Matches(logs[j], owner, trackerId) ==> j in acc)
    && DescendingByDate(logs, acc)
  }

  lemma CollectStep(logs: seq<CalorieLog>, owner: Id, trackerId: Id, i: nat, acc: seq<Id>)
    requires i < |logs| && Collected(logs, owner, trackerId, i, acc)
    ensures Matches(logs[i], owner, trackerId) ==>
      Collected(logs, owner, trackerId, i + 1, InsertByDate(logs, acc, i))
    ensures !Matches(logs[i], owner, trackerId) ==> Collected(logs, owner, trackerId, i + 1, acc)
  {
    assert logs[..i + 1][..i] == logs[..i];
    if Matches(logs[i], owner, trackerId) {
      var p := InsertPosition(logs, acc, logs[i].date);
      assert i !in acc;
      InsertKeepsOrder(logs, acc, i, p);
      var s := acc[..p] + [i] + acc[p..];
      assert s == InsertByDate(logs, acc, i);
      assert forall x :: x in s <==> x in acc || x == i;
      forall k | 0 <= k < |s|
        ensures s[k] < i + 1 && Matches(logs[s[k]], owner, trackerId)
      {
        assert s[k] in s;
        if s[k] != i {
          var q :| 0 <= q < |acc| && acc[q] == s[k];
        }
      }
    }
  }

  /** `CalorieLog.find({ ownerId, trackerId }).sort({ date: -1 }).limit(30)`: at most 30 ids,
      each of a log of that owner and tracker, without repetitions, by descending date, as
      many as there are up to 30, and no log left out is newer than one returned. */
  ghost predicate LatestLogs(logs: seq<CalorieLog>, owner: Id, trackerId: Id, ids: seq<Id>) {
    && |ids| == Min(30, CountLogsOf(logs, owner, trackerId))
    && (forall k :: 0 <= k < |ids| ==> ids[k] < |logs| && Matches(logs[ids[k]], owner, trackerId))
    && DescendingByDate(logs, ids)
    && (forall j, k :: 0 <= j < |logs| && Matches(logs[j], owner, trackerId) && j !in ids && 0 <= k < |ids| ==>
          logs[j].date <= logs[ids[k]].date)
  }

  /** The first 30 of all matching logs in descending date order are the latest 30. */
  lemma CollectedLatest(logs: seq<CalorieLog>, owner: Id, trackerId: Id, acc: seq<Id>)
    requires Collected(logs, owner, trackerId, |logs|, acc)
    ensures LatestLogs(logs, owner, trackerId, acc[..Min(30, |acc|)])
  {
    assert logs[..|logs|] == logs;
    var ids := acc[..Min(30, |acc|)];
    forall j, k | 0 <= j < |logs| && Matches(logs[j], owner, trackerId) && j !in ids && 0 <= k < |ids|
      ensures logs[j].date <= logs[ids[k]].date
    {
      var q :| 0 <= q < |acc| && acc[q] == j;
      assert q >= |ids|;
    }
  }

  class CalorieService {
    var trackers: seq<CalorieTracker>
    var logs: seq<CalorieLog>

    /** Every stored document passes its schema; every log belongs to an existing tracker of
        the same owner and is filed under a UTC midnight. */
    ghost predicate Valid()
      reads this
    {
      && (forall i :: 0 <= i < |trackers| ==> ValidTracker(trackers[i]))
      && (forall j :: 0 <= j < |logs| ==> ValidLog(logs[j]) && LogOfOwnTracker(logs[j]))
    }

    ghost predicate LogOfOwnTracker(l: CalorieLog)
      reads this
    {
      && l.trackerId < |trackers|
      && trackers[l.trackerId].ownerId == l.ownerId
      && l.date % MsPerDay == 0
    }

    /** `CalorieTracker.findOne({ _id: trackerId, ownerId })` finds a tracker. */
    predicate OwnsTracker(owner: Id, trackerId: Id)
      reads this
    {
      trackerId < |trackers| && trackers[trackerId].ownerId == owner
    }

    constructor ()
      ensures Valid() && trackers == [] && logs == []
    {
      trackers := [];
      logs := [];
    }

    /** POST /create. */
    method Create(caller: Caller, req: CreateRequest) returns (r: Result<Id, CalorieError>)
      requires Valid()
      modifies this
      ensures Valid() && logs == old(logs)
      ensures PlanTracker(caller, req).Err? ==>
        r == Err(PlanTracker(caller, req).error) && trackers == old(trackers)
      ensures PlanTracker(caller, req).Ok? ==>
        r == Ok(|old(trackers)|) && trackers == old(trackers) + [PlanTracker(caller, req).value]
    {
      var plan := PlanTracker(caller, req);
      if plan.Err? {
        return Err(plan.error);
      }
      r := Ok(|trackers|);
      trackers := trackers + [plan.value];
      assert forall j :: 0 <= j < |logs| ==> old(LogOfOwnTracker(logs[j])) ==> LogOfOwnTracker(logs[j]);
    }

    /** GET /:trackerId: the caller's tracker and its latest 30 logs. */
    method Read(owner: Id, trackerId: Id) returns (r: Result<(CalorieTracker, seq<Id>), CalorieError>)
      ensures r.Ok? || r == Err(TrackerNotFound)
      ensures r == Err(TrackerNotFound) <==> !OwnsTracker(owner, trackerId)
      ensures r.Ok? ==> r.value.0 == trackers[trackerId] && LatestLogs(logs, owner, trackerId, r.value.1)
    {
      if !OwnsTracker(owner, trackerId) {
        return Err(TrackerNotFound);
      }
      var all := logs;
      var acc: seq<Id> := [];
      for i := 0 to |all|
        invariant Collected(all, owner, trackerId, i, acc)
      {
        CollectStep(all, owner, trackerId, i, acc);
        if Matches(all[i], owner, trackerId) {
          acc := InsertByDate(all, acc, i);
        }
      }
      CollectedLatest(all, owner, trackerId, acc);
      r := Ok((trackers[trackerId], acc[..Min(30, |acc|)]));
    }

    /** POST /:trackerId/log: update the caller's log named by `logId`, or create a log. */
    method Log(owner: Id, trackerId: Id, req: LogRequest, now: int) returns (r: Result<Id, CalorieError>)
      requires Valid()
      modifies this
      ensures Valid() && trackers == old(trackers)
      ensures !CaloriesAccepted(req.calories) ==> r == Err(BadCalories) && logs == old(logs)
      ensures CaloriesAccepted(req.calories) && !OwnsTracker(owner, trackerId) ==>
        r == Err(TrackerNotFound) && logs == old(logs)
      ensures CaloriesAccepted(req.calories) && OwnsTracker(owner, trackerId) && req.logId.Some? ==>
        var id := req.logId.value;
        if id < |old(logs)| && old(logs)[id].ownerId == owner then
          var p := PatchLog(old(logs)[id], req, LogDay(req.date, now));
          if p.Some? then r == Ok(id) && logs == old(logs)[id := p.value]
          else r == Err(StoreRejected) && logs == old(logs)
        else r == Err(LogNotFound) && logs == old(logs)
      ensures CaloriesAccepted(req.calories) && OwnsTracker(owner, trackerId) && req.logId.None? ==>
        var n := NewLog(owner, trackerId, req, LogDay(req.date, now));
        if n.Some? then r == Ok(|old(logs)|) && logs == old(logs) + [n.value]
        else r == Err(StoreRejected) && logs == old(logs)
    {
      if !CaloriesAccepted(req.calories) {
        return Err(BadCalories);
      }
      if !OwnsTracker(owner, trackerId) {
        return Err(TrackerNotFound);
      }
      var day := LogDay(req.date, now);
      if req.logId.Some? {
        var id := req.logId.value;
        if !(id < |logs| && logs[id].ownerId == owner) {
          return Err(LogNotFound);
        }
        var patched := PatchLog(logs[id], req, day);
        if patched.None? {
          return Err(StoreRejected);
        }
        logs := logs[id := patched.value];
        r := Ok(id);
      } else {
        var created := NewLog(owner, trackerId, req, day);
        if created.None? {
          return Err(StoreRejected);
        }
        r := Ok(|logs|);
        logs := logs + [created.value];
      }
    }
  }

  /** Two create requests for the same tracker on the same day both succeed, and leave two
      logs with the same (owner, tracker, date) key: nothing in the route or the index stops
      the second. */
  method TwoLogsOneDay(s: CalorieService, owner: Id, trackerId: Id, req: LogRequest, now: int)
    returns (i: Id, j: Id)
    requires s.Valid() && s.OwnsTracker(owner, trackerId)
    requires req.logId.None? && CaloriesAccepted(req.calories)
    requires req.items.None? || ValidItems(req.items.value)
    modifies s
    ensures |s.logs| == |old(s.logs)| + 2 && s.logs[..|old(s.logs)|] == old(s.logs)
    ensures i == |old(s.logs)| && j == i + 1
    ensures IndexKey(s.logs[i]) == IndexKey(s.logs[j]) == (owner, trackerId, LogDay(req.date, now))
  {
    var r1 := s.Log(owner, trackerId, req, now);
    var r2 := s.Log(owner, trackerId, req, now);
    i := r1.value;
    j := r2.value;
  }
}
